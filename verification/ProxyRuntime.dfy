// proxy_t as the imperative code it is.
//
// The fields are the memory proxy_t's members work on; each method carries out one
// member function's statements in the source's order and is proved to do what the
// corresponding function of ProxyState says.  The methods for libwayland calls have
// the call's contract as their precondition, so that verifying this class checks at
// every call site that the object is alive and of the right kind and that no owned
// proxy is left on a destroyed queue.  What the calls do to another library's proxy or
// to a display's first record is no matter of these contracts: it sets the ghost
// `fault`, as it does in ProxyState.

module ProxyRuntime {
  import opened Common
  import opened Handles
  import opened ProxyState
  import opened ProxyInvariant
  import opened ProxySteps
  import opened ProxyRuns

  // What proxy_release relies on when it dereferences its pointers.
  lemma ReleaseFacts(s: State, k: Slot)
    requires Core(s) && k in s.slots && s.slots[k].data.Some?
    ensures var d := s.slots[k].data.value;
      && d in s.datas && s.datas[d].counter > 0 && s.slots[k].ptr == Some(s.datas[d].obj)
      && s.slots[k].typ == s.datas[d].typ != Foreign
      && s.datas[d].obj in s.objects
      && s.objects[s.datas[d].obj].alive && !s.objects[s.datas[d].obj].foreign
      && s.objects[s.datas[d].obj].kind == s.datas[d].typ
  {
    assert SlotOK(s, k);
    var d := s.slots[k].data.value;
    assert DataOK(s, d);
    DetachIsDetached(s, k, d);
  }

  // And in `delete data`.
  lemma DeleteFacts(s: State, k: Slot, d: nat)
    requires Core(s) && k in s.slots && s.slots[k].data == Some(d) && d in s.datas && s.datas[d].counter == 1
    ensures var s1 := Detach(s, k);
      && Core(s1) && d in s1.datas && s1.datas[d].counter == 0 && Wrapped(d) in s1.slots
      && (s1.slots[Wrapped(d)].data.Some? ==> s1.slots[Wrapped(d)].data.value < d)
  {
    assert SlotOK(s, k) && DataOK(s, d);
    DetachIsDetached(s, k, d);
    DetachCore(s, k);
    CoreRanked(Detach(s, k));
  }

  // What is left of the record once the wrapped proxy has been released.
  lemma InnerReleaseFacts(s: State, d: nat)
    requires Core(s) && Ranked(s) && d in s.datas && s.datas[d].counter == 0 && Wrapped(d) in s.slots
    ensures var t := Release(s, Wrapped(d));
      && d in t.datas && t.datas[d].queue == s.datas[d].queue && Core(Deleted(t, d))
      && (t.datas[d].queue.Some? ==> t.datas[d].queue.value in t.queues && t.queues[t.datas[d].queue.value])
  {
    ReleaseCore(s, Wrapped(d));
    var t := Release(s, Wrapped(d));
    assert DataOK(t, d);
    DeleteCore(t, d);
  }

  lemma ReleaseKeepsCore(s: State, k: Slot)
    requires Core(s) && Ranked(s) && k in s.slots
    ensures Core(Release(s, k)) && Ranked(Release(s, k))
  {
    ReleaseCore(s, k);
    CoreRanked(Release(s, k));
  }

  lemma HandleFacts(s: State, k: Slot)
    requires Core(s) && k in s.slots
    ensures SlotOK(s, k) && (s.slots[k].data.Some? ==> s.slots[k].typ != Foreign)
  {
    assert SlotOK(s, k);
    assert s.slots[k].data.Some? ==> DataOK(s, s.slots[k].data.value);
  }

  lemma PointsAtLiveObject(s: State, k: Slot)
    requires Inv(s) && k in s.slots && (s.slots[k].ptr.Some? || s.slots[k].data.Some?)
    ensures s.slots[k].ptr.Some? && s.slots[k].ptr.value in s.objects && s.objects[s.slots[k].ptr.value].alive
    ensures s.slots[k].data.Some? ==>
      var d := s.slots[k].data.value;
      && d in s.datas && s.datas[d].obj == s.slots[k].ptr.value
      && (s.datas[d].queue.Some? ==> s.datas[d].queue.value in s.queues && s.queues[s.datas[d].queue.value])
  {
    assert SlotOK(s, k);
    if s.slots[k].data.Some? {
      assert DataOK(s, s.slots[k].data.value);
    } else {
      assert ObjectOK(s, s.slots[k].ptr.value);
    }
  }

  // The state in which a new wrapper takes its reference.
  lemma WrapFacts(s: State, j: Slot, k: Slot)
    requires Inv(s) && j in s.slots && k !in s.slots && j.User? && k.User?
    requires s.slots[j].ptr.Some? && s.slots[j].data.Some? && s.slots[j].ptr.value in s.objects
    requires s.objects[s.slots[j].ptr.value].alive
    ensures Copyable(s.slots[j])
    ensures var h := s.slots[j];
      var s1 := CreateObject(s, ProxyWrapper, false, None, s.objects[h.ptr.value].queue, h.ptr);
      var s2 := Construct(s1, k, s.nextObject, ProxyWrapper, RetainedQueue(s, h), InStep(s, h));
      && j in s2.slots && s2.slots[j] == h && SlotOK(s2, j)
      && Wrapped(s.nextData) in s2.slots && SlotOK(s2, Wrapped(s.nextData))
      && k in s2.slots && s2.slots[k].data == Some(s.nextData)
  {
    var h := s.slots[j];
    assert SlotOK(s, j);
    assert DataOK(s, h.data.value);
    FreshKeys(s);
    CreateObjectBase(s, ProxyWrapper, false, None, s.objects[h.ptr.value].queue, h.ptr);
    var s1 := CreateObject(s, ProxyWrapper, false, None, s.objects[h.ptr.value].queue, h.ptr);
    ConstructCore(s1, k, s.nextObject, ProxyWrapper, RetainedQueue(s, h), InStep(s, h));
    ConstructNew(s1, Construct(s1, k, s.nextObject, ProxyWrapper, RetainedQueue(s, h), InStep(s, h)),
                 k, s.nextObject, ProxyWrapper, RetainedQueue(s, h), InStep(s, h));
  }

  // The locals a dispatcher destroys on its way out are there.
  lemma LeaveFacts(s: State)
    requires Inv(s) && |s.frames| > 0 && Ranked(s)
    ensures var depth := |s.frames| - 1;
      var s0 := s.(frames := s.frames[..depth]);
      && Core(s0) && Ranked(s0) && Frame(depth, 0) in s0.slots
      && (var s1 := Destroy(s0, Frame(depth, 0));
          && Base(s1) && Ranked(s1)
          && (forall j | 0 < j <= s.frames[depth].arguments :: Frame(depth, j) in s1.slots))
  {
    var depth := |s.frames| - 1;
    assert FrameOK(s, depth);
    RetypeFrames(s, s.frames[..depth]);
    DestroyDrops(s.(frames := s.frames[..depth]), Frame(depth, 0));
  }

  // Every object that may be asked for its record leads to one.
  ghost predicate Linked(objects: map<nat, CObject>, datas: map<nat, Data>) {
    forall o | o in objects && objects[o].alive && !objects[o].foreign && objects[o].userData.Some? ::
      objects[o].userData.value in datas
  }

  // No object dies or becomes another library's.
  ghost predicate StillThere(before: map<nat, CObject>, after: map<nat, CObject>) {
    forall o | o in before && before[o].alive ::
      o in after && after[o].alive && (after[o].foreign ==> before[o].foreign)
  }

  lemma BaseLinked(s: State)
    requires Base(s)
    ensures Linked(s.objects, s.datas)
  {
    forall o | o in s.objects && s.objects[o].alive && !s.objects[o].foreign && s.objects[o].userData.Some?
      ensures s.objects[o].userData.value in s.datas
    {
      assert ObjectOK(s, o);
    }
  }

  lemma StillThereOn(a: map<nat, CObject>, b: map<nat, CObject>, c: map<nat, CObject>)
    requires StillThere(a, b) && StillThere(b, c)
    ensures StillThere(a, c)
  {
  }

  lemma ConstructLinked(s: State, k: Slot, o: nat, queue: Option<nat>, inStep: bool)
    requires Linked(s.objects, s.datas) && o in s.objects && s.objects[o].alive
    ensures var t := Construct(s, k, o, Standard, queue, inStep);
      Linked(t.objects, t.datas) && StillThere(s.objects, t.objects)
  {
    var t := Construct(s, k, o, Standard, queue, inStep);
    if s.objects[o].userData.Some? {
      assert t.objects == s.objects && t.datas.Keys == s.datas.Keys;
    } else {
      assert t.objects == s.objects[o := s.objects[o].(userData := Some(s.nextData))];
      assert t.datas.Keys == s.datas.Keys + {s.nextData};
      NewRecordLinked(s.objects, s.datas, t.datas, o, s.nextData);
    }
  }

  lemma NewRecordLinked(objects: map<nat, CObject>, datas: map<nat, Data>, more: map<nat, Data>, o: nat, d: nat)
    requires Linked(objects, datas) && o in objects && objects[o].alive && more.Keys == datas.Keys + {d}
    ensures Linked(objects[o := objects[o].(userData := Some(d))], more)
    ensures StillThere(objects, objects[o := objects[o].(userData := Some(d))])
  {
  }

  lemma NewObjectLinked(s: State, junk: Option<nat>, queue: Option<nat>)
    requires Linked(s.objects, s.datas)
    ensures var t := SetUserData(CreateObject(s, Standard, false, junk, queue, None), s.nextObject, None);
      Linked(t.objects, t.datas) && StillThere(s.objects, t.objects)
  {
  }

  lemma UnpackLinked(s: State, k: Slot, a: ObjectArgument, queue: Option<nat>)
    requires Linked(s.objects, s.datas)
    requires a.Existing? ==> a.obj in s.objects && s.objects[a.obj].alive
    ensures var t := UnpackArgument(s, k, a, queue);
      Linked(t.objects, t.datas) && StillThere(s.objects, t.objects)
  {
    match a
    case NullObject =>
    case Existing(o) => ExistingLinked(s, k, o, queue);
    case Introduced(junk) => IntroducedLinked(s, k, junk, queue);
  }

  lemma ExistingLinked(s: State, k: Slot, o: nat, queue: Option<nat>)
    requires Linked(s.objects, s.datas) && o in s.objects && s.objects[o].alive
    ensures var t := UnpackArgument(s, k, Existing(o), queue);
      Linked(t.objects, t.datas) && StillThere(s.objects, t.objects)
  {
    ConstructLinked(if Foreigner(s, o) then s.(mixups := s.mixups + 1) else s, k, o, None, false);
  }

  lemma IntroducedLinked(s: State, k: Slot, junk: Option<nat>, queue: Option<nat>)
    requires Linked(s.objects, s.datas)
    ensures var t := UnpackArgument(s, k, Introduced(junk), queue);
      Linked(t.objects, t.datas) && StillThere(s.objects, t.objects)
  {
    NewObjectLinked(s, junk, queue);
    var s1 := SetUserData(CreateObject(s, Standard, false, junk, queue, None), s.nextObject, None);
    ConstructLinked(s1, k, s.nextObject, None, false);
    StillThereOn(s.objects, s1.objects, Construct(s1, k, s.nextObject, Standard, None, false).objects);
  }

  class Runtime {
    var slots: map<Slot, ProxyHandle>
    var datas: map<nat, Data>
    var objects: map<nat, CObject>
    var queues: map<nat, bool>
    var queueVars: map<nat, Option<nat>>
    var frames: seq<Dispatching>
    var nextData: nat
    var nextObject: nat
    var nextQueue: nat
    var trace: seq<CCall>
    ghost var overwrites: nat
    ghost var mixups: nat
    ghost var fault: bool

    ghost function Now(): State
      reads this
    {
      State(slots, datas, objects, queues, queueVars, frames, nextData, nextObject, nextQueue,
            trace, overwrites, mixups, fault)
    }

    constructor ()
      ensures Now() == INITIAL && Inv(Now())
    {
      slots, datas, objects, queues, queueVars := map[], map[], map[], map[], map[];
      frames, trace := [], [];
      nextData, nextObject, nextQueue, overwrites, mixups, fault := 0, 0, 0, 0, 0, false;
      new;
      InitialInv();
    }

    // -------------------------------------------------------------- libwayland

    predicate Alive(o: nat, kind: WrapperType)
      reads this
    {
      o in objects && objects[o].alive && !objects[o].foreign && objects[o].kind == kind
    }

    method WlProxyMarshal(o: nat, opcode: nat)
      requires Alive(o, Standard)
      modifies this`trace
      ensures trace == old(trace) + [DestroyRequest(o, opcode)]
    {
      trace := trace + [DestroyRequest(o, opcode)];
    }

    method WlDestroy(o: nat, call: CCall, kind: WrapperType)
      requires Alive(o, kind) && kind != Foreign && call == DestroyCall(kind, o)
      modifies this`trace, this`objects
      ensures trace == old(trace) + [call]
      ensures objects == old(objects)[o := old(objects)[o].(alive := false)]
    {
      trace := trace + [call];
      objects := objects[o := objects[o].(alive := false)];
    }

    // ~event_queue_t for one reference to q that is no longer stored anywhere.
    method ReleaseQueue(q: Option<nat>)
      requires Core(Now()) && (q.Some? ==> q.value in queues && queues[q.value])
      modifies this
      ensures Now() == DropQueue(old(Now()), q)
    {
      DropQueueCore(Now(), q);
      if q.Some?
        && !(exists d | d in datas :: datas[d].queue == q)
        && !(exists v | v in queueVars :: queueVars[v] == q)
      {
        assert !QueueReferenced(Now(), q.value);
        queues := queues[q.value := false];
        trace := trace + [QueueDestroy(q.value)];
      }
    }

    // ------------------------------------------------------------------ release

    // The switch over the wrapper type in proxy_release.
    method DestroyObject(o: nat, typ: WrapperType, r: Data)
      requires Alive(o, typ) && typ != Foreign
      modifies this`trace, this`objects
      ensures Now() == ProxyState.DestroyObject(old(Now()), o, typ, r)
    {
      match typ {
        case Standard =>
          if r.destroyOpcode.Some? {
            WlProxyMarshal(o, r.destroyOpcode.value);
          }
          WlDestroy(o, ProxyDestroy(o), Standard);
        case ProxyWrapper => WlDestroy(o, WrapperDestroy(o), ProxyWrapper);
        case Display => WlDestroy(o, DisplayDisconnect(o), WrapperType.Display);
      }
    }

    method ProxyRelease(k: Slot)
      requires Core(Now()) && Ranked(Now()) && k in slots
      modifies this
      ensures Now() == Release(old(Now()), k)
      ensures Core(Now()) && Ranked(Now())
      decreases Rank(slots[k]), 1
    {
      ghost var s := Now();
      ReleaseKeepsCore(s, k);
      var h := slots[k];
      if h.data.Some? { ReleaseFacts(s, k); }
      slots := slots[k := EMPTY.(typ := h.typ)];
      if h.data.Some? {
        var d := h.data.value;
        var r := datas[d];
        datas := datas[d := r.(counter := r.counter - 1)];
        if datas[d].counter == 0 {
          DeleteFacts(s, k, d);
          if h.ptr.Some? {
            DestroyObject(h.ptr.value, h.typ, r);
          }
          DeleteData(d);
        }
      }
    }

    // `delete data`: the members go in reverse order of declaration.
    method DeleteData(d: nat)
      requires Core(Now()) && d in datas && datas[d].counter == 0 && Wrapped(d) in slots
      requires slots[Wrapped(d)].data.Some? ==> slots[Wrapped(d)].data.value < d
      modifies this
      ensures Ranked(old(Now()))
      ensures Now() == DropQueue(Deleted(Release(old(Now()), Wrapped(d)), d), old(datas[d].queue))
      decreases d, 2
    {
      ghost var s := Now();
      CoreRanked(s);
      InnerReleaseFacts(s, d);
      ProxyRelease(Wrapped(d));
      var q := datas[d].queue;
      slots := slots - {Wrapped(d)};
      datas := datas - {d};
      ReleaseQueue(q);
    }

    method DestroyHandle(k: Slot)
      requires Core(Now()) && Ranked(Now()) && k in slots
      modifies this
      ensures Now() == Destroy(old(Now()), k)
    {
      ProxyRelease(k);
      slots := slots - {k};
    }

    // ------------------------------------------------------------- constructors

    method NewObject(kind: WrapperType, foreign: bool, junk: Option<nat>, queue: Option<nat>, wraps: Option<nat>)
      returns (o: nat)
      modifies this`objects, this`nextObject
      ensures o == old(nextObject) && Now() == CreateObject(old(Now()), kind, foreign, junk, queue, wraps)
    {
      o := nextObject;
      objects := objects[o := CObject(kind, foreign, true, junk, queue, wraps, None)];
      nextObject := nextObject + 1;
    }

    method WlProxySetUserData(o: nat, data: Option<nat>)
      requires o in objects && objects[o].alive
      modifies this`objects, this`fault
      ensures Now() == SetUserData(old(Now()), o, data)
    {
      fault := fault || objects[o].foreign;
      objects := objects[o := objects[o].(userData := data)];
    }

    // A proxy libwayland has just made, its uninitialised user data cleared.
    method NewProxy(junk: Option<nat>, queue: Option<nat>) returns (o: nat)
      requires Linked(objects, datas)
      modifies this`objects, this`nextObject, this`fault
      ensures o == old(nextObject) && o in objects && objects[o].alive && Linked(objects, datas)
      ensures Now() == SetUserData(CreateObject(old(Now()), Standard, false, junk, queue, None), o, None)
    {
      NewObjectLinked(Now(), junk, queue);
      o := NewObject(Standard, false, junk, queue, None);
      WlProxySetUserData(o, None);
    }

    method ConstructHandle(k: Slot, o: nat, typ: WrapperType, queue: Option<nat>, inStep: bool)
      requires typ != Foreign ==> o in objects && objects[o].alive
      requires typ != Foreign && typ != WrapperType.Display ==> Linked(objects, datas)
      modifies this
      ensures Now() == Construct(old(Now()), k, o, typ, queue, inStep)
    {
      if typ == Foreign {
        slots := slots[k := Handle(Some(o), None, typ)];
        return;
      }
      var data: Option<nat> := None;
      if typ != WrapperType.Display {
        if objects[o].foreign && objects[o].userData.Some? {
          fault := true;
          return;
        }
        data := objects[o].userData;
      }
      if data.None? {
        StoreNewRecord(k, o, typ, queue, inStep);
      } else {
        StoreCounted(k, Handle(Some(o), data, typ));
      }
    }

    // The handle is stored with `data = new proxy_data_t`.
    method StoreNewRecord(k: Slot, o: nat, typ: WrapperType, queue: Option<nat>, inStep: bool)
      requires o in objects && objects[o].alive
      modifies this
      ensures var s, d := old(Now()), old(nextData);
        Now() == SetUserData(
          s.(slots := s.slots[Wrapped(d) := EMPTY][k := Handle(Some(o), Some(d), typ)],
             datas := s.datas[d := Data(None, None, 1, queue, o, typ, 0, inStep)],
             nextData := d + 1),
          o, Some(d))
    {
      var d := nextData;
      nextData := nextData + 1;
      datas := datas[d := Data(None, None, 1, queue, o, typ, 0, inStep)];
      slots := slots[Wrapped(d) := EMPTY][k := Handle(Some(o), Some(d), typ)];
      WlProxySetUserData(o, Some(d));
    }

    // The public constructor, called for a pointer of the wrapper type it belongs to.
    method ConstructRawHandle(k: Slot, o: nat, queue: Option<nat>)
      requires o in objects && objects[o].alive && Linked(objects, datas)
      modifies this
      ensures Now() == ConstructRaw(old(Now()), k, o, queue)
    {
      if objects[o].kind == WrapperType.Display && objects[o].userData.Some? {
        mixups, fault := mixups + 1, true;
      }
      ConstructHandle(k, o, objects[o].kind, queue, false);
    }

    method CopyAssignHandle(k: Slot, j: Slot) returns (threw: bool)
      requires k in slots && j in slots && SlotOK(Now(), k) && SlotOK(Now(), j)
      modifies this`slots, this`datas, this`overwrites
      ensures Now() == CopyAssign(old(Now()), k, j)
      ensures threw <==> k != j && !Copyable(old(slots)[j])
    {
      if k == j {
        return false;
      }
      if slots[k].data.Some? {
        var lost := slots[k].data.value;
        datas := datas[lost := datas[lost].(leaked := datas[lost].leaked + 1)];
        overwrites := overwrites + 1;
      }
      StoreCounted(k, slots[j]);
      threw := !Copyable(slots[k]);
    }

    // The handle is stored and, if it has data, counted.
    method StoreCounted(k: Slot, h: ProxyHandle)
      requires h.data.Some? ==> h.data.value in datas
      modifies this`slots, this`datas
      ensures Now() == Acquire(old(Now()), k, h)
    {
      slots := slots[k := h];
      if h.data.Some? {
        var d := h.data.value;
        datas := datas[d := datas[d].(counter := datas[d].counter + 1)];
      }
    }

    // The copy constructor is operator= on a fresh handle; if that throws there is no
    // handle.
    method CopyConstructHandle(k: Slot, j: Slot) returns (threw: bool)
      requires k.User? && k !in slots && j in slots && SlotOK(Now(), j)
      requires slots[j].data.Some? ==> slots[j].typ != Foreign
      modifies this`slots, this`datas, this`overwrites
      ensures Now() == CopyConstruct(old(Now()), k, j)
      ensures threw <==> !Copyable(old(slots)[j])
    {
      ghost var s := Now();
      slots := slots[k := EMPTY];
      threw := CopyAssignHandle(k, j);
      if threw {
        slots := slots - {k};
        assert slots == s.slots;
      } else {
        assert slots == s.slots[k := s.slots[j]];
      }
    }

    method MoveAssignHandle(k: Slot, j: Slot)
      requires k in slots && j in slots
      modifies this`slots
      ensures Now() == MoveAssign(old(Now()), k, j)
    {
      slots := slots[k := slots[j]][j := slots[k]];
    }

    method MoveConstructHandle(k: Slot, j: Slot)
      requires j in slots
      modifies this`slots
      ensures Now() == MoveConstruct(old(Now()), k, j)
    {
      slots := slots[k := EMPTY];
      MoveAssignHandle(k, j);
    }

    method Retained(h: ProxyHandle) returns (queue: Option<nat>, inStep: bool)
      requires h.data.Some? ==> h.data.value in datas
      ensures queue == RetainedQueue(Now(), h) && inStep == InStep(Now(), h)
    {
      queue := if h.data.Some? then datas[h.data.value].queue else None;
      inStep := h.data.Some? && datas[h.data.value].inStep;
    }

    method MarshalNewProxy(parent: Slot, k: Slot, junk: Option<nat>) returns (threw: bool)
      requires Inv(Now()) && parent in slots
      modifies this
      ensures Now() == MarshalConstructor(old(Now()), parent, k, junk)
      ensures threw <==> old(slots)[parent].ptr.None?
    {
      var h := slots[parent];
      if h.ptr.None? {
        return true;
      }
      threw := false;
      PointsAtLiveObject(Now(), parent);
      BaseLinked(Now());
      var queue, inStep := Retained(h);
      var o := NewProxy(junk, objects[h.ptr.value].queue);
      ConstructHandle(k, o, Standard, queue, inStep);
    }

    method CreateProxyWrapper(j: Slot, k: Slot) returns (threw: bool)
      requires Inv(Now()) && j in slots && k !in slots && j.User? && k.User?
      requires slots[j].ptr.Some? ==> slots[j].data.Some?
      modifies this
      ensures Now() == Wrap(old(Now()), j, k)
      ensures threw <==> old(slots)[j].ptr.None?
    {
      var h := slots[j];
      if h.ptr.None? {
        return true;
      }
      ghost var s := Now();
      PointsAtLiveObject(s, j);
      BaseLinked(s);
      WrapFacts(s, j, k);
      var queue, inStep := Retained(h);
      var o := NewObject(ProxyWrapper, false, None, objects[h.ptr.value].queue, h.ptr);
      ConstructHandle(k, o, ProxyWrapper, queue, inStep);
      threw := CopyAssignHandle(Wrapped(slots[k].data.value), j);
    }

    method ConnectDisplay(k: Slot, junk: Option<nat>)
      modifies this
      ensures Now() == Connect(old(Now()), k, junk)
    {
      var o := NewObject(WrapperType.Display, false, junk, None, None);
      ConstructHandle(k, o, WrapperType.Display, None, true);
    }

    // -------------------------------------------------------------- other members

    method SetQueueOf(k: Slot, queue: Option<nat>) returns (threw: bool)
      requires Inv(Now()) && k in slots
      requires queue.Some? ==> queue.value in queues && queues[queue.value]
      modifies this
      ensures Now() == SetQueue(old(Now()), k, queue)
      ensures threw <==> old(slots)[k].ptr.None?
    {
      var h := slots[k];
      if h.ptr.None? {
        return true;
      }
      threw := false;
      ghost var s := Now();
      PointsAtLiveObject(s, k);
      var o := h.ptr.value;
      objects := objects[o := objects[o].(queue := queue)];
      if h.data.Some? {
        var d := h.data.value;
        assert DataOK(s, d);
        var retained := datas[d].queue;
        datas := datas[d := datas[d].(queue := queue, inStep := true)];
        DataFieldBase(s, Now(), d);
        ReleaseQueue(retained);
      }
    }

    method SetEventsOf(k: Slot, events: nat)
      requires Core(Now()) && k in slots
      modifies this`datas
      ensures Now() == SetEvents(old(Now()), k, events)
    {
      assert SlotOK(Now(), k);
      var h := slots[k];
      if h.data.Some? && datas[h.data.value].events.None? {
        datas := datas[h.data.value := datas[h.data.value].(events := Some(events))];
      }
    }

    method SetDestroyOpcodeOf(k: Slot, opcode: nat) returns (threw: bool)
      requires Inv(Now()) && k in slots
      modifies this`datas, this`objects
      ensures Now() == SetDestroyOpcode(old(Now()), k, opcode)
      ensures threw <==> old(slots)[k].typ == WrapperType.Display
    {
      var h := slots[k];
      if h.typ == WrapperType.Display {
        return true;
      }
      threw := false;
      if h.data.Some? {
        PointsAtLiveObject(Now(), k);
        var d, o := h.data.value, h.ptr.value;
        datas := datas[d := datas[d].(destroyOpcode := Some(opcode))];
        objects := objects[o := objects[o].(recorded := Some(opcode))];
      }
    }

    // ------------------------------------------------------------------ dispatch

    method UnpackOneArgument(k: Slot, a: ObjectArgument, queue: Option<nat>)
      requires Linked(objects, datas)
      requires a.Existing? ==> a.obj in objects && objects[a.obj].alive
      modifies this
      ensures Now() == UnpackArgument(old(Now()), k, a, queue)
    {
      match a {
        case NullObject => slots := slots[k := EMPTY];
        case Existing(o) => UnpackExisting(k, o, queue);
        case Introduced(junk) => UnpackIntroduced(k, junk, queue);
      }
    }

    method UnpackExisting(k: Slot, o: nat, ghost queue: Option<nat>)
      requires Linked(objects, datas) && o in objects && objects[o].alive
      modifies this
      ensures Now() == UnpackArgument(old(Now()), k, Existing(o), queue)
    {
      NoteForeigner(o);
      ConstructHandle(k, o, Standard, None, false);
    }

    method UnpackIntroduced(k: Slot, junk: Option<nat>, queue: Option<nat>)
      requires Linked(objects, datas)
      modifies this
      ensures Now() == UnpackArgument(old(Now()), k, Introduced(junk), queue)
    {
      var o := NewProxy(junk, queue);
      ConstructHandle(k, o, Standard, None, false);
    }

    ghost method NoteForeigner(o: nat)
      requires o in objects
      modifies this`mixups
      ensures Now() == if Foreigner(old(Now()), o) then old(Now()).(mixups := old(mixups) + 1) else old(Now())
    {
      if objects[o].foreign {
        mixups := mixups + 1;
      }
    }

    // The loop over the signature, as far as it makes handles.
    method UnpackAll(depth: nat, args: seq<ObjectArgument>, queue: Option<nat>)
      requires Linked(objects, datas)
      requires forall i | 0 <= i < |args| && args[i].Existing? :: args[i].obj in objects && objects[args[i].obj].alive
      modifies this
      ensures Now() == UnpackArguments(old(Now()), depth, args, 0, queue)
      ensures Linked(objects, datas) && StillThere(old(objects), objects)
    {
      ghost var s := Now();
      ghost var t := UnpackArguments(s, depth, args, 0, queue);
      for i := 0 to |args|
        invariant UnpackArguments(Now(), depth, args, i, queue) == t
        invariant Linked(objects, datas) && StillThere(s.objects, objects)
      {
        ghost var r := Now();
        UnpackLinked(r, Frame(depth, i + 1), args[i], queue);
        UnpackOneArgument(Frame(depth, i + 1), args[i], queue);
        StillThereOn(s.objects, r.objects, objects);
      }
    }

    // c_dispatcher up to the call of the generated dispatcher: the arguments, then the
    // local handle p to the target.
    method EnterDispatcher(target: nat, args: seq<ObjectArgument>)
      requires Inv(Now()) && Enabled(Now(), Begin(target, args))
      modifies this
      ensures Now() == DispatchBegin(old(Now()), target, args)
    {
      if objects[target].userData.None? {
        return;
      }
      var depth := |frames|;
      BaseLinked(Now());
      UnpackAll(depth, args, objects[target].queue);
      EnterTarget(target, depth, |args|);
    }

    method EnterTarget(target: nat, depth: nat, n: nat)
      requires Linked(objects, datas) && Ours(Now(), target)
      modifies this
      ensures Now() == DispatchTarget(old(Now()), target, depth, n)
    {
      var p := Frame(depth, 0);
      ConstructHandle(p, target, Standard, None, false);
      var d := slots[p].data.value;
      frames := frames + [Dispatching(target, d, datas[d].events, n)];
    }

    // The destructors of vargs' elements.
    method DropAll(depth: nat, n: nat)
      requires Base(Now()) && Ranked(Now())
      requires forall j | 0 < j <= n :: Frame(depth, j) in slots
      modifies this
      ensures Now() == DropArguments(old(Now()), depth, 0, n)
    {
      ghost var s := Now();
      for i := 0 to n
        invariant Base(Now()) && Ranked(Now())
        invariant forall j | i < j <= n :: Frame(depth, j) in slots
        invariant DropArguments(s, depth, 0, n) == DropArguments(Now(), depth, i, n)
      {
        DestroyDrops(Now(), Frame(depth, i + 1));
        DestroyHandle(Frame(depth, i + 1));
      }
    }

    // The end of c_dispatcher: ~p, then vargs.
    method LeaveDispatcher()
      requires Inv(Now()) && |frames| > 0 && Ranked(Now())
      modifies this
      ensures Now() == DispatchEnd(old(Now()))
    {
      ghost var s := Now();
      var depth := |frames| - 1;
      var n := frames[depth].arguments;
      LeaveFacts(s);
      frames := frames[..depth];
      DestroyHandle(Frame(depth, 0));
      DropAll(depth, n);
    }

    // ------------------------------------------------------------------ programs

    // Every operation of a run, carried out by the methods above: the states this
    // class goes through are those the theorems about runs speak of.
    method Perform(op: Op)
      requires Inv(Now()) && Enabled(Now(), op) && Ranked(Now())
      modifies this
      ensures Now() == Step(old(Now()), op)
      ensures Inv(Now()) <==> Safe(old(Now()), op)
    {
      StepSafeIff(Now(), op);
      if op.Begin? {
        EnterDispatcher(op.target, op.args);
      } else if op.End? {
        LeaveDispatcher();
      } else if Creates(op) {
        PerformCreation(op);
      } else if Sets(op) {
        PerformSetting(op);
      } else {
        PerformHandle(op);
      }
    }

    method PerformCreation(op: Op)
      requires Inv(Now()) && Enabled(Now(), op) && Ranked(Now())
      requires Creates(op)
      modifies this
      ensures Now() == Step(old(Now()), op)
    {
      BaseLinked(Now());
      match op {
        case Display(k, junk) => ConnectDisplay(User(k), junk);
        case FromC(kind, foreign, theirs, queue) =>
          var _ := NewObject(kind, foreign, if foreign then theirs else None, queue, None);
        case Raw(k, o, v) =>
          ConstructRawHandle(User(k), o, if v.Some? then queueVars[v.value] else None);
        case RawNull(k, typ) => slots := slots[User(k) := Handle(None, None, typ)];
        case RawForeign(k, o) => ConstructHandle(User(k), o, Foreign, None, false);
        case Request(parent, k, junk) => var _ := MarshalNewProxy(User(parent), User(k), junk);
        case CreateWrapper(j, k) => var _ := CreateProxyWrapper(User(j), User(k));
      }
    }

    method PerformSetting(op: Op)
      requires Inv(Now()) && Enabled(Now(), op) && Ranked(Now())
      requires Sets(op)
      modifies this
      ensures Now() == Step(old(Now()), op)
    {
      match op {
        case AssignQueue(k, v) => var _ := SetQueueOf(User(k), if v.Some? then queueVars[v.value] else None);
        case Events(k, events) => SetEventsOf(User(k), events);
        case DestroyOpcode(k, opcode) => var _ := SetDestroyOpcodeOf(User(k), opcode);
        case NewQueue(v) =>
          queues, queueVars := queues[nextQueue := true], queueVars[v := Some(nextQueue)];
          nextQueue := nextQueue + 1;
        case CopyQueueVar(v, w) => queueVars := queueVars[w := queueVars[v]];
        case DropQueueVar(v) => DropQueueVariable(v);
      }
    }

    // ~event_queue_t for a variable of the program.
    method DropQueueVariable(v: nat)
      requires Base(Now()) && v in queueVars
      modifies this
      ensures Now() == ProxyState.DropQueueVar(old(Now()), v)
    {
      QueueVarsBase(Now(), Now().(queueVars := queueVars - {v}));
      var q := queueVars[v];
      queueVars := queueVars - {v};
      ReleaseQueue(q);
    }

    method PerformHandle(op: Op)
      requires Inv(Now()) && Enabled(Now(), op) && Ranked(Now())
      requires MovesHandles(op)
      modifies this
      ensures Now() == Step(old(Now()), op)
    {
      match op {
        case Default(k) => slots := slots[User(k) := EMPTY];
        case Keep(k, i) =>
          HandleFacts(Now(), Frame(|frames| - 1, i));
          var _ := CopyConstructHandle(User(k), Frame(|frames| - 1, i));
        case Copy(k, j) =>
          HandleFacts(Now(), User(j));
          var _ := CopyConstructHandle(User(k), User(j));
        case Assign(k, j) =>
          HandleFacts(Now(), User(k));
          HandleFacts(Now(), User(j));
          var _ := CopyAssignHandle(User(k), User(j));
        case Move(k, j) => MoveConstructHandle(User(k), User(j));
        case MoveInto(k, j) => MoveAssignHandle(User(k), User(j));
        case Drop(k) => DestroyHandle(User(k));
        case Empty(k) => ProxyRelease(User(k));
      }
    }
  }
}
