// The counters refine sets of owners.
//
// The specification machine below has no counters, no C objects that live or die, no
// queues and no handlers: it knows where handles are stored and to which record each
// refers.  A record goes when its last owner goes, taking along the reference it holds
// to the proxy it wraps.  On every run in which no copy assignment overwrites a counted
// handle, the counter machine does exactly that.

module ProxyOwners {
  import opened Common
  import opened Handles
  import opened ProxyState
  import opened ProxyInvariant
  import opened ProxySteps
  import opened ProxyRuns

  datatype Owners = Owners(
    slots: map<Slot, ProxyHandle>,
    live: set<nat>,              // the records there are
    records: map<nat, nat>,      // the record of each object that has one
    kinds: map<nat, WrapperType>,
    frames: seq<nat>,            // the number of arguments of each running dispatcher
    nextData: nat,
    nextObject: nat)

  const NO_OWNERS := Owners(map[], {}, map[], map[], [], 0, 0)

  // ------------------------------------------------------------ the specification

  function OwnersOf(a: Owners, d: nat): set<Slot> {
    set k | k in a.slots && a.slots[k].data == Some(d)
  }

  predicate RankedOwners(a: Owners) {
    forall k | k in a.slots && k.Wrapped? && a.slots[k].data.Some? :: a.slots[k].data.value < k.owner
  }

  function Store(a: Owners, k: Slot, h: ProxyHandle): Owners {
    a.(slots := a.slots[k := h])
  }

  function Without(records: map<nat, nat>, d: nat): map<nat, nat> {
    map o | o in records && records[o] != d :: records[o]
  }

  // The record loses its owner k and, if that was the last, goes.
  function SpecRelease(a: Owners, k: Slot): Owners
    requires k in a.slots && RankedOwners(a)
    decreases Rank(a.slots[k])
  {
    var a1 := Store(a, k, EMPTY.(typ := a.slots[k].typ));
    if a.slots[k].data.None? || OwnersOf(a1, a.slots[k].data.value) != {} then a1
    else
      var d := a.slots[k].data.value;
      var a2 := a1.(records := Without(a1.records, d));
      if Wrapped(d) !in a2.slots then a2
      else
        var a3 := SpecRelease(a2, Wrapped(d));
        a3.(slots := a3.slots - {Wrapped(d)}, live := a3.live - {d})
  }

  function SpecDestroy(a: Owners, k: Slot): Owners
    requires k in a.slots && RankedOwners(a)
  {
    var a1 := SpecRelease(a, k);
    a1.(slots := a1.slots - {k})
  }

  function SpecCreate(a: Owners, kind: WrapperType): Owners {
    a.(kinds := a.kinds[a.nextObject := kind], nextObject := a.nextObject + 1)
  }

  // A handle joins the owners of the object's record, or is the first of a new one.
  function SpecConstruct(a: Owners, k: Slot, o: nat, typ: WrapperType): Owners {
    if typ == Foreign then Store(a, k, Handle(Some(o), None, typ))
    else if typ != WrapperType.Display && o in a.records then Store(a, k, Handle(Some(o), Some(a.records[o]), typ))
    else
      var d := a.nextData;
      a.(slots := a.slots[Wrapped(d) := EMPTY][k := Handle(Some(o), Some(d), typ)],
         live := a.live + {d}, records := a.records[o := d], nextData := d + 1)
  }

  function SpecNew(a: Owners, k: Slot, kind: WrapperType): Owners {
    SpecConstruct(SpecCreate(a, kind), k, a.nextObject, kind)
  }

  function SpecArgument(a: Owners, k: Slot, arg: ObjectArgument): Owners {
    match arg
    case NullObject => Store(a, k, EMPTY)
    case Existing(o) => SpecConstruct(a, k, o, Standard)
    case Introduced(_) => SpecNew(a, k, Standard)
  }

  function SpecUnpack(a: Owners, depth: nat, args: seq<ObjectArgument>, i: nat): Owners
    decreases |args| - i
  {
    if i >= |args| then a else SpecUnpack(SpecArgument(a, Frame(depth, i + 1), args[i]), depth, args, i + 1)
  }

  function SpecBegin(a: Owners, target: nat, args: seq<ObjectArgument>): Owners {
    if target !in a.records then a
    else
      var a1 := SpecConstruct(SpecUnpack(a, |a.frames|, args, 0), Frame(|a.frames|, 0), target, Standard);
      a1.(frames := a1.frames + [|args|])
  }

  function SpecDrop(a: Owners, depth: nat, first: nat, n: nat): Owners
    decreases n - first
  {
    if first >= n || Frame(depth, first + 1) !in a.slots || !RankedOwners(a) then a
    else SpecDrop(SpecDestroy(a, Frame(depth, first + 1)), depth, first + 1, n)
  }

  function SpecEnd(a: Owners): Owners
    requires |a.frames| > 0 && RankedOwners(a)
  {
    var depth := |a.frames| - 1;
    var a0 := a.(frames := a.frames[..depth]);
    if Frame(depth, 0) !in a0.slots then a0
    else SpecDrop(SpecDestroy(a0, Frame(depth, 0)), depth, 0, a.frames[depth])
  }

  function SpecCopy(a: Owners, k: Slot, j: Slot): Owners
    requires j in a.slots
  {
    if Copyable(a.slots[j]) then Store(a, k, a.slots[j]) else a
  }

  predicate SpecEnabled(a: Owners, op: Op) {
    && RankedOwners(a)
    && match op
       case Raw(_, o, _) => o in a.kinds
       case Keep(_, i) => |a.frames| > 0 && Frame(|a.frames| - 1, i) in a.slots
       case Copy(_, j) => User(j) in a.slots
       case Assign(k, j) => User(k) in a.slots && User(j) in a.slots
       case Move(_, j) => User(j) in a.slots
       case MoveInto(k, j) => User(k) in a.slots && User(j) in a.slots
       case Drop(k) => User(k) in a.slots
       case Empty(k) => User(k) in a.slots
       case Request(parent, _, _) => User(parent) in a.slots
       case CreateWrapper(j, _) => User(j) in a.slots
       case End => |a.frames| > 0
       case _ => true
  }

  function SpecStep(a: Owners, op: Op): Owners
    requires SpecEnabled(a, op)
  {
    match op
    case Default(k) => Store(a, User(k), EMPTY)
    case Display(k, _) => SpecNew(a, User(k), WrapperType.Display)
    case FromC(kind, _, _, _) => SpecCreate(a, kind)
    case Raw(k, o, _) => SpecConstruct(a, User(k), o, a.kinds[o])
    case RawNull(k, typ) => Store(a, User(k), Handle(None, None, typ))
    case Keep(k, i) => SpecCopy(a, User(k), Frame(|a.frames| - 1, i))
    case RawForeign(k, o) => SpecConstruct(a, User(k), o, Foreign)
    case Copy(k, j) => SpecCopy(a, User(k), User(j))
    case Assign(k, j) => Store(a, User(k), a.slots[User(j)])
    case Move(k, j) => Store(Store(a, User(k), a.slots[User(j)]), User(j), EMPTY)
    case MoveInto(k, j) => Store(Store(a, User(k), a.slots[User(j)]), User(j), a.slots[User(k)])
    case Drop(k) => SpecDestroy(a, User(k))
    case Empty(k) => SpecRelease(a, User(k))
    case Request(parent, k, _) => if a.slots[User(parent)].ptr.None? then a else SpecNew(a, User(k), Standard)
    case CreateWrapper(j, k) =>
      if a.slots[User(j)].ptr.None? then a
      else Store(SpecNew(a, User(k), ProxyWrapper), Wrapped(a.nextData), a.slots[User(j)])
    case Begin(target, args) => SpecBegin(a, target, args)
    case End => SpecEnd(a)
    case _ => a
  }

  function SpecRun(ops: seq<Op>): Owners {
    if ops == [] then NO_OWNERS
    else
      var a := SpecRun(ops[..|ops| - 1]);
      if SpecEnabled(a, ops[|ops| - 1]) then SpecStep(a, ops[|ops| - 1]) else a
  }

  // --------------------------------------------------------------- the abstraction

  function View(s: State): Owners {
    Owners(s.slots, s.datas.Keys, Records(s.objects), Kinds(s.objects), ArgumentCounts(s.frames),
           s.nextData, s.nextObject)
  }

  function Records(objects: map<nat, CObject>): map<nat, nat> {
    map o | o in objects && objects[o].alive && !objects[o].foreign && objects[o].userData.Some? ::
      objects[o].userData.value
  }

  function Kinds(objects: map<nat, CObject>): map<nat, WrapperType> {
    map o | o in objects :: objects[o].kind
  }

  function ArgumentCounts(frames: seq<Dispatching>): seq<nat> {
    seq(|frames|, i requires 0 <= i < |frames| => frames[i].arguments)
  }

  lemma ViewRanked(s: State)
    requires Ranked(s)
    ensures RankedOwners(View(s))
  {
  }

  // ------------------------------------------------------------ release refines

  // The objects whose record is d: one while it lives.
  lemma RecordOf(s: State, d: nat, o: nat)
    requires Core(s) && d in s.datas && o in s.objects
    ensures o in Records(s.objects) && Records(s.objects)[o] == d
      <==> o == s.datas[d].obj && s.datas[d].counter > 0
  {
    assert DataOK(s, d) && ObjectOK(s, o);
  }

  lemma DetachRefines(s: State, k: Slot, d: nat)
    requires Core(s) && k in s.slots && s.slots[k].data == Some(d) && d in s.datas && s.overwrites == 0
    ensures var a1 := Store(View(s), k, EMPTY.(typ := s.slots[k].typ));
      && (s.datas[d].counter == 1 <==> OwnersOf(a1, d) == {})
      && View(Detach(s, k)) == if s.datas[d].counter == 1 then a1.(records := Without(a1.records, d)) else a1
  {
    assert SlotOK(s, k) && DataOK(s, d);
    DetachIsDetached(s, k, d);
    LastOwner(s, k, d);
    if s.datas[d].counter == 1 {
      DeadRecord(s, d);
      assert Kinds(Detach(s, k).objects) == Kinds(s.objects);
    }
  }

  lemma LastOwner(s: State, k: Slot, d: nat)
    requires k in s.slots && s.slots[k].data == Some(d) && d in s.datas && DataOK(s, d) && s.overwrites == 0
    ensures s.datas[d].counter == 1 <==> OwnersOf(Store(View(s), k, EMPTY.(typ := s.slots[k].typ)), d) == {}
  {
    var rest := Holders(s.slots, d) - {k};
    assert OwnersOf(Store(View(s), k, EMPTY.(typ := s.slots[k].typ)), d) == rest;
    assert |rest| == |Holders(s.slots, d)| - 1;
  }

  lemma DeadRecord(s: State, d: nat)
    requires Core(s) && d in s.datas && s.datas[d].counter > 0 && s.datas[d].obj in s.objects
    ensures var o := s.datas[d].obj;
      Records(s.objects[o := s.objects[o].(alive := false)]) == Without(Records(s.objects), d)
  {
    var o := s.datas[d].obj;
    var after := s.objects[o := s.objects[o].(alive := false)];
    forall p | p in s.objects
      ensures p in Records(after) <==> p in Without(Records(s.objects), d)
    {
      RecordOf(s, d, p);
    }
    assert Records(after).Keys == Without(Records(s.objects), d).Keys;
  }

  lemma {:induction false} ReleaseRefines(s: State, k: Slot)
    requires Core(s) && Ranked(s) && s.overwrites == 0 && k in s.slots
    ensures RankedOwners(View(s)) && View(Release(s, k)) == SpecRelease(View(s), k)
    decreases Rank(s.slots[k])
  {
    assert SlotOK(s, k);
    match s.slots[k].data {
      case None =>
      case Some(d) =>
        assert DataOK(s, d);
        DetachRefines(s, k, d);
        if s.datas[d].counter == 1 {
          DetachIsDetached(s, k, d);
          DetachCore(s, k);
          var s1 := Detach(s, k);
          CoreRanked(s1);
          assert Wrapped(d) in s1.slots && (s1.slots[Wrapped(d)].data.Some? ==> s1.slots[Wrapped(d)].data.value < d);
          ReleaseRefines(s1, Wrapped(d));
          DeleteRefines(Release(s1, Wrapped(d)), d, s.datas[d].queue);
        }
    }
  }

  lemma DeleteRefines(s: State, d: nat, q: Option<nat>)
    ensures var a := View(s);
      View(DropQueue(Deleted(s, d), q)) == a.(slots := a.slots - {Wrapped(d)}, live := a.live - {d})
  {
  }

  lemma DestroyRefines(s: State, k: Slot)
    requires Core(s) && Ranked(s) && s.overwrites == 0 && k in s.slots
    ensures RankedOwners(View(s)) && View(Destroy(s, k)) == SpecDestroy(View(s), k)
  {
    ReleaseRefines(s, k);
  }

  // ----------------------------------------------------------- creation refines

  lemma CreateRefines(s: State, kind: WrapperType, foreign: bool, userData: Option<nat>, queue: Option<nat>,
                      wraps: Option<nat>)
    requires s.nextObject !in s.objects && (foreign || userData.None?)
    ensures View(CreateObject(s, kind, foreign, userData, queue, wraps)) == SpecCreate(View(s), kind)
  {
    var t := CreateObject(s, kind, foreign, userData, queue, wraps);
    assert Records(t.objects) == Records(s.objects);
    assert Kinds(t.objects) == Kinds(s.objects)[s.nextObject := kind];
  }

  lemma ConstructRefines(s: State, k: Slot, o: nat, typ: WrapperType, queue: Option<nat>, inStep: bool)
    requires typ != Foreign ==> o in s.objects && s.objects[o].alive && !s.objects[o].foreign
    requires typ != Foreign && s.objects[o].userData.Some? ==> s.objects[o].userData.value in s.datas
    ensures View(Construct(s, k, o, typ, queue, inStep)) == SpecConstruct(View(s), k, o, typ)
  {
    if typ != Foreign {
      if typ != WrapperType.Display && s.objects[o].userData.Some? {
        FoundRefines(s, k, o, typ, queue, inStep);
      } else {
        GivenRefines(s, k, o, typ, queue, inStep);
      }
    }
  }

  lemma FoundRefines(s: State, k: Slot, o: nat, typ: WrapperType, queue: Option<nat>, inStep: bool)
    requires typ != Foreign && typ != WrapperType.Display
    requires o in s.objects && s.objects[o].alive && !s.objects[o].foreign
    requires s.objects[o].userData.Some? && s.objects[o].userData.value in s.datas
    ensures View(Construct(s, k, o, typ, queue, inStep)) == SpecConstruct(View(s), k, o, typ)
  {
    assert View(s).records[o] == s.objects[o].userData.value;
    AcquireRefines(s, k, Handle(Some(o), s.objects[o].userData, typ));
  }

  lemma AcquireRefines(s: State, k: Slot, h: ProxyHandle)
    requires h.data.Some? ==> h.data.value in s.datas
    ensures View(Acquire(s, k, h)) == Store(View(s), k, h)
  {
    assert Acquire(s, k, h).datas.Keys == s.datas.Keys;
  }

  lemma GivenRefines(s: State, k: Slot, o: nat, typ: WrapperType, queue: Option<nat>, inStep: bool)
    requires typ != Foreign && o in s.objects && s.objects[o].alive && !s.objects[o].foreign
    requires typ == WrapperType.Display || s.objects[o].userData.None?
    ensures View(Construct(s, k, o, typ, queue, inStep)) == SpecConstruct(View(s), k, o, typ)
  {
    GivenRecord(s.objects, o, s.nextData);
    assert typ != WrapperType.Display ==> o !in View(s).records;
    assert Construct(s, k, o, typ, queue, inStep).datas.Keys == s.datas.Keys + {s.nextData};
  }

  lemma GivenRecord(objects: map<nat, CObject>, o: nat, d: nat)
    requires o in objects && objects[o].alive && !objects[o].foreign
    ensures var after := objects[o := objects[o].(userData := Some(d))];
      Records(after) == Records(objects)[o := d] && Kinds(after) == Kinds(objects)
  {
  }

  // A new object and the first handle on it.
  lemma NewRefines(s: State, k: Slot, kind: WrapperType, queue: Option<nat>, wraps: Option<nat>,
                   retained: Option<nat>, inStep: bool)
    requires s.nextObject !in s.objects && kind != Foreign
    ensures View(Construct(CreateObject(s, kind, false, None, queue, wraps), k, s.nextObject, kind, retained, inStep))
         == SpecNew(View(s), k, kind)
  {
    CreateRefines(s, kind, false, None, queue, wraps);
    ConstructRefines(CreateObject(s, kind, false, None, queue, wraps), k, s.nextObject, kind, retained, inStep);
  }

  lemma IntroduceRefines(s: State, k: Slot, junk: Option<nat>, queue: Option<nat>, retained: Option<nat>, inStep: bool)
    requires s.nextObject !in s.objects
    ensures View(Introduce(s, k, junk, queue, retained, inStep)) == SpecNew(View(s), k, Standard)
  {
    ProxySteps.Introduced(s, k, junk, queue, retained, inStep);
    NewRefines(s, k, Standard, queue, None, retained, inStep);
  }

  lemma RequestRefines(s: State, parent: Slot, k: Slot, junk: Option<nat>)
    requires Inv(s) && parent in s.slots
    ensures View(MarshalConstructor(s, parent, k, junk))
         == if s.slots[parent].ptr.None? then View(s) else SpecNew(View(s), k, Standard)
  {
    var h := s.slots[parent];
    assert SlotOK(s, parent);
    FreshKeys(s);
    if h.ptr.Some? {
      assert h.data.Some? ==> DataOK(s, h.data.value);
      assert h.data.None? ==> ObjectOK(s, h.ptr.value);
      IntroduceRefines(s, k, junk, s.objects[h.ptr.value].queue, RetainedQueue(s, h), InStep(s, h));
    }
  }

  lemma WrapRefines(s: State, j: Slot, k: Slot)
    requires Inv(s) && j in s.slots && k !in s.slots && !j.Wrapped? && !k.Wrapped?
    requires s.slots[j].ptr.Some? ==> s.slots[j].data.Some?
    ensures View(Wrap(s, j, k))
         == if s.slots[j].ptr.None? then View(s)
            else Store(SpecNew(View(s), k, ProxyWrapper), Wrapped(s.nextData), s.slots[j])
  {
    assert SlotOK(s, j);
    FreshKeys(s);
    if s.slots[j].ptr.Some? {
      assert DataOK(s, s.slots[j].data.value);
      WrapObjectRefines(s, j, k);
    }
  }

  lemma WrapObjectRefines(s: State, j: Slot, k: Slot)
    requires j in s.slots && k !in s.slots && !j.Wrapped? && !k.Wrapped? && SlotOK(s, j)
    requires s.nextObject !in s.objects && s.nextData !in s.datas && Wrapped(s.nextData) !in s.slots
    requires var h := s.slots[j];
      h.ptr.Some? && h.data.Some? && h.ptr.value in s.objects && s.objects[h.ptr.value].alive
    ensures View(Wrap(s, j, k)) == Store(SpecNew(View(s), k, ProxyWrapper), Wrapped(s.nextData), s.slots[j])
  {
    var h, d := s.slots[j], s.nextData;
    var queue := s.objects[h.ptr.value].queue;
    var m := CreateObject(s, ProxyWrapper, false, None, queue, h.ptr);
    var m2 := Construct(m, k, s.nextObject, ProxyWrapper, RetainedQueue(s, h), InStep(s, h));
    NewRefines(s, k, ProxyWrapper, queue, h.ptr, RetainedQueue(s, h), InStep(s, h));
    ConstructNew(m, m2, k, s.nextObject, ProxyWrapper, RetainedQueue(s, h), InStep(s, h));
    OverwriteRefines(m2, Wrapped(d), j);
    assert Wrap(s, j, k) == CopyAssign(m2, Wrapped(d), j);
  }

  lemma OverwriteRefines(s: State, k: Slot, j: Slot)
    requires k in s.slots && j in s.slots && k != j && SlotOK(s, k) && SlotOK(s, j)
    ensures View(CopyAssign(s, k, j)) == Store(View(s), k, s.slots[j])
  {
    CopyAssignOverwrites(s, k, j);
  }

  // ------------------------------------------------------------ dispatch refines

  lemma ArgumentRefines(s: State, k: Slot, a: ObjectArgument, queue: Option<nat>)
    requires Base(s) && HarmlessOne(s, a)
    ensures View(UnpackArgument(s, k, a, queue)) == SpecArgument(View(s), k, a)
  {
    FreshKeys(s);
    match a
    case NullObject =>
    case Existing(o) =>
      assert ObjectOK(s, o);
      ConstructRefines(s, k, o, Standard, None, false);
    case Introduced(junk) => IntroduceRefines(s, k, junk, queue, None, false);
  }

  lemma {:induction false} UnpackRefines(s0: State, s: State, depth: nat, args: seq<ObjectArgument>, i: nat,
                                         queue: Option<nat>)
    requires Base(s) && Unpacked(s0, s, depth, i) && Shallow(s0, depth) && Harmless(s0, args) && i <= |args|
    ensures View(UnpackArguments(s, depth, args, i, queue)) == SpecUnpack(View(s), depth, args, i)
    decreases |args| - i
  {
    if i < |args| {
      assert HarmlessOne(s0, args[i]);
      NextRefines(s0, s, depth, i, args[i], queue);
      UnpackMore(s0, s, depth, i, args[i], queue);
      UnpackRefines(s0, UnpackArgument(s, Frame(depth, i + 1), args[i], queue), depth, args, i + 1, queue);
    }
  }

  lemma NextRefines(s0: State, s: State, depth: nat, i: nat, a: ObjectArgument, queue: Option<nat>)
    requires Base(s) && Unpacked(s0, s, depth, i) && HarmlessOne(s0, a)
    ensures View(UnpackArgument(s, Frame(depth, i + 1), a, queue)) == SpecArgument(View(s), Frame(depth, i + 1), a)
  {
    assert a.Existing? ==> UnpackedObject(s0, s, a.obj);
    ArgumentRefines(s, Frame(depth, i + 1), a, queue);
  }

  lemma BeginRefines(s: State, target: nat, args: seq<ObjectArgument>)
    requires Inv(s) && Enabled(s, Begin(target, args)) && Safe(s, Begin(target, args))
    ensures View(DispatchBegin(s, target, args)) == SpecBegin(View(s), target, args)
  {
    if s.objects[target].userData.Some? {
      var depth := |s.frames|;
      SafeIsHarmless(s, args);
      FramesShallow(s);
      UnpackNone(s, depth);
      UnpackRefines(s, s, depth, args, 0, s.objects[target].queue);
      UnpackBase(s, depth, args, s.objects[target].queue);
      var s1 := UnpackArguments(s, depth, args, 0, s.objects[target].queue);
      assert UnpackedObject(s, s1, target);
      assert ObjectOK(s1, target);
      TargetRefines(s1, target, depth, |args|);
    }
  }

  lemma TargetRefines(s: State, target: nat, depth: nat, n: nat)
    requires Ours(s, target) && s.objects[target].userData.Some? && s.objects[target].userData.value in s.datas
    ensures var a1 := SpecConstruct(View(s), Frame(depth, 0), target, Standard);
      View(DispatchTarget(s, target, depth, n)) == a1.(frames := a1.frames + [n])
  {
    ConstructRefines(s, Frame(depth, 0), target, Standard, None, false);
    var t := DispatchTarget(s, target, depth, n);
    assert ArgumentCounts(t.frames) == ArgumentCounts(s.frames) + [n];
  }

  lemma {:induction false} DropRefines(s: State, depth: nat, first: nat, n: nat)
    requires Base(s) && Ranked(s) && s.overwrites == 0 && first <= n && Arguments(s, depth, first, n)
    ensures View(DropArguments(s, depth, first, n)) == SpecDrop(View(s), depth, first, n)
    decreases n - first
  {
    if first < n {
      var k := Frame(depth, first + 1);
      DestroyRefines(s, k);
      DestroyDrops(s, k);
      assert Arguments(Destroy(s, k), depth, first + 1, n);
      DropRefines(Destroy(s, k), depth, first + 1, n);
    }
  }

  lemma EndRefines(s: State)
    requires Inv(s) && Ranked(s) && s.overwrites == 0 && |s.frames| > 0
    ensures RankedOwners(View(s)) && View(DispatchEnd(s)) == SpecEnd(View(s))
  {
    var depth := |s.frames| - 1;
    var s0 := s.(frames := s.frames[..depth]);
    assert FrameOK(s, depth);
    RetypeFrames(s, s0.frames);
    LocalsRefine(s0, depth, s.frames[depth].arguments);
    assert ArgumentCounts(s0.frames) == ArgumentCounts(s.frames)[..depth];
    assert View(s0) == View(s).(frames := View(s).frames[..depth]);
  }

  lemma LocalsRefine(s: State, depth: nat, n: nat)
    requires Base(s) && Ranked(s) && s.overwrites == 0 && Frame(depth, 0) in s.slots && Arguments(s, depth, 0, n)
    ensures RankedOwners(View(s)) && Ranked(Destroy(s, Frame(depth, 0)))
    ensures View(DropArguments(Destroy(s, Frame(depth, 0)), depth, 0, n))
         == SpecDrop(SpecDestroy(View(s), Frame(depth, 0)), depth, 0, n)
  {
    DestroyRefines(s, Frame(depth, 0));
    DestroyDrops(s, Frame(depth, 0));
    DropRefines(Destroy(s, Frame(depth, 0)), depth, 0, n);
  }

  // -------------------------------------------------------- every step and every run

  // Each operation does to the real state what it does to the owners.
  lemma StepRefines(s: State, op: Op)
    requires Inv(s) && Ranked(s) && Enabled(s, op) && Safe(s, op) && s.overwrites == 0
    ensures SpecEnabled(View(s), op) && View(Step(s, op)) == SpecStep(View(s), op)
  {
    ViewRanked(s);
    if Creates(op) {
      CreationRefines(s, op);
    } else if op.Begin? {
      BeginRefines(s, op.target, op.args);
    } else if op.End? {
      EndRefines(s);
    } else if Sets(op) {
      SettingRefines(s, op);
    } else {
      HandleRefines(s, op);
    }
  }

  lemma CreationRefines(s: State, op: Op)
    requires Inv(s) && Ranked(s) && Enabled(s, op) && Safe(s, op) && RankedOwners(View(s))
    requires Creates(op)
    ensures SpecEnabled(View(s), op) && View(Step(s, op)) == SpecStep(View(s), op)
  {
    FreshKeys(s);
    match op
    case Display(k, junk) =>
      ConnectIgnoresUserData(s, User(k), junk);
      NewRefines(s, User(k), WrapperType.Display, None, None, None, true);
    case FromC(kind, foreign, theirs, queue) =>
      CreateRefines(s, kind, foreign, if foreign then theirs else None, queue, None);
    case Raw(k, o, v) =>
      assert ObjectOK(s, o);
      ConstructRefines(s, User(k), o, s.objects[o].kind, QueueOf(s, v), false);
    case RawNull(_, _) =>
    case RawForeign(k, o) => ConstructRefines(s, User(k), o, Foreign, None, false);
    case Request(parent, k, junk) => RequestRefines(s, User(parent), User(k), junk);
    case CreateWrapper(j, k) => WrapRefines(s, User(j), User(k));
  }

  // What the specification does not know of leaves its state alone.
  lemma SettingRefines(s: State, op: Op)
    requires Inv(s) && Ranked(s) && Enabled(s, op) && RankedOwners(View(s))
    requires Sets(op)
    ensures SpecEnabled(View(s), op) && View(Step(s, op)) == SpecStep(View(s), op)
  {
    match op
    case AssignQueue(k, v) => SetQueueRefines(s, User(k), QueueOf(s, v));
    case Events(k, events) => FieldRefines(s, User(k), events, 0);
    case DestroyOpcode(k, opcode) => FieldRefines(s, User(k), 0, opcode);
    case DropQueueVar(v) => DropQueueKeeps(s.(queueVars := s.queueVars - {v}), s.queueVars[v]);
    case NewQueue(_) =>
    case CopyQueueVar(_, _) =>
  }

  // What the abstraction sees of an object.
  predicate SameSight(before: map<nat, CObject>, after: map<nat, CObject>, o: nat)
    requires o in before && o in after
  {
    && after[o].kind == before[o].kind && after[o].alive == before[o].alive
    && after[o].foreign == before[o].foreign && after[o].userData == before[o].userData
  }

  lemma SameRecords(before: map<nat, CObject>, after: map<nat, CObject>)
    requires after.Keys == before.Keys && forall o | o in before :: SameSight(before, after, o)
    ensures Records(after) == Records(before) && Kinds(after) == Kinds(before)
  {
    forall o | o in before
      ensures o in after && (o in Records(after) <==> o in Records(before))
      ensures o in Records(before) ==> Records(after)[o] == Records(before)[o]
      ensures Kinds(after)[o] == Kinds(before)[o]
    {
      assert SameSight(before, after, o);
    }
    assert Records(after).Keys == Records(before).Keys;
  }

  lemma SetQueueRefines(s: State, k: Slot, queue: Option<nat>)
    requires k in s.slots
    ensures View(SetQueue(s, k, queue)) == View(s)
  {
    var t, h := SetQueue(s, k, queue), s.slots[k];
    if h.ptr.Some? && h.ptr.value in s.objects && s.objects[h.ptr.value].alive {
      assert t.objects == s.objects[h.ptr.value := s.objects[h.ptr.value].(queue := queue)];
    } else {
      assert t.objects == s.objects;
    }
    SameRecords(s.objects, t.objects);
    SetQueueKeeps(s, k, queue);
  }

  lemma SetQueueKeeps(s: State, k: Slot, queue: Option<nat>)
    requires k in s.slots
    ensures SameButObjects(s, SetQueue(s, k, queue))
  {
    var h := s.slots[k];
    if h.ptr.Some? && h.ptr.value in s.objects && s.objects[h.ptr.value].alive
       && h.data.Some? && h.data.value in s.datas
    {
      var r := s.datas[h.data.value];
      var m := s.(objects := s.objects[h.ptr.value := s.objects[h.ptr.value].(queue := queue)],
                  datas := s.datas[h.data.value := r.(queue := queue, inStep := true)]);
      assert SameButObjects(s, m);
      DropQueueKeeps(m, r.queue);
    }
  }

  predicate SameButObjects(s: State, t: State) {
    && t.slots == s.slots && t.datas.Keys == s.datas.Keys && t.frames == s.frames
    && t.nextData == s.nextData && t.nextObject == s.nextObject
  }

  lemma DropQueueKeeps(s: State, q: Option<nat>)
    ensures SameButObjects(s, DropQueue(s, q)) && DropQueue(s, q).objects == s.objects
  {
  }

  lemma FieldRefines(s: State, k: Slot, events: nat, opcode: nat)
    requires k in s.slots
    ensures View(SetEvents(s, k, events)) == View(s) && View(SetDestroyOpcode(s, k, opcode)) == View(s)
  {
    assert SetEvents(s, k, events).datas.Keys == s.datas.Keys;
    OpcodeRefines(s, k, opcode);
  }

  lemma OpcodeRefines(s: State, k: Slot, opcode: nat)
    requires k in s.slots
    ensures View(SetDestroyOpcode(s, k, opcode)) == View(s)
  {
    var t, h := SetDestroyOpcode(s, k, opcode), s.slots[k];
    if t.objects != s.objects {
      assert t.objects == s.objects[h.ptr.value := s.objects[h.ptr.value].(recorded := Some(opcode))];
    }
    SameRecords(s.objects, t.objects);
    assert t.datas.Keys == s.datas.Keys;
  }

  lemma HandleRefines(s: State, op: Op)
    requires Inv(s) && Ranked(s) && Enabled(s, op) && s.overwrites == 0 && RankedOwners(View(s))
    requires MovesHandles(op)
    ensures SpecEnabled(View(s), op) && View(Step(s, op)) == SpecStep(View(s), op)
  {
    match op
    case Drop(k) => DestroyRefines(s, User(k));
    case Empty(k) => ReleaseRefines(s, User(k));
    case Keep(k, i) => CopyRefines(s, User(k), Frame(|s.frames| - 1, i));
    case Copy(k, j) => CopyRefines(s, User(k), User(j));
    case Assign(k, j) => AssignRefines(s, User(k), User(j));
    case Default(_) =>
    case Move(k, j) => MoveRefines(s, User(k), User(j));
    case MoveInto(_, _) =>
  }

  lemma AssignRefines(s: State, k: Slot, j: Slot)
    requires Inv(s) && k in s.slots && j in s.slots
    ensures View(CopyAssign(s, k, j)) == Store(View(s), k, s.slots[j])
  {
    assert SlotOK(s, k) && SlotOK(s, j);
    if k != j { OverwriteRefines(s, k, j); }
  }

  lemma MoveRefines(s: State, k: Slot, j: Slot)
    requires k !in s.slots && j in s.slots
    ensures View(MoveConstruct(s, k, j)) == Store(Store(View(s), k, s.slots[j]), j, EMPTY)
  {
    assert MoveConstruct(s, k, j).slots == s.slots[k := s.slots[j]][j := EMPTY];
  }

  lemma CopyRefines(s: State, k: Slot, j: Slot)
    requires Inv(s) && k !in s.slots && j in s.slots
    ensures View(CopyConstruct(s, k, j)) == SpecCopy(View(s), k, j)
  {
    assert SlotOK(s, j);
    if Copyable(s.slots[j]) {
      AcquireRefines(s, k, s.slots[j]);
    }
  }

  // So on every run without an overwriting copy assignment, nested dispatches included,
  // the program is always in the specification's state.
  lemma {:induction false} RunRefines(ops: seq<Op>, s: State)
    requires Reaches(ops, s) && s.overwrites == 0 && s.mixups == 0
    ensures View(s) == SpecRun(ops)
    decreases |ops|
  {
    if ops == [] {
      InitialView();
    } else {
      var op := ops[|ops| - 1];
      var r := RunSplits(INITIAL, ops, s);
      StepWorse(r, op);
      RunRefines(ops[..|ops| - 1], r);
      RunKeepsInv(ops[..|ops| - 1], r);
      WasSafe(r, op);
      StepRefines(r, op);
    }
  }

  lemma InitialView()
    ensures View(INITIAL) == NO_OWNERS
  {
  }

  // In the specification's state a record is live exactly while it has an owner.
  lemma LiveIffOwned(ops: seq<Op>, s: State, d: nat)
    requires Reaches(ops, s) && s.overwrites == 0 && s.mixups == 0
    ensures d in SpecRun(ops).live <==> OwnersOf(SpecRun(ops), d) != {}
    ensures d in s.datas <==> d in SpecRun(ops).live
  {
    RunKeepsInv(ops, s);
    RunRefines(ops, s);
    assert OwnersOf(View(s), d) == Holders(s.slots, d);
    if d in s.datas {
      assert DataOK(s, d);
    }
    if OwnersOf(View(s), d) != {} {
      var k :| k in OwnersOf(View(s), d);
      assert SlotOK(s, k);
    }
  }
}
