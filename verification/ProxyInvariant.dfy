// The ownership invariant of the client side, and that releasing a handle keeps it.
//
// Core is the part that also holds inside proxy_release, while some data records
// have already counted down to zero and are being deleted; Inv adds that there are
// no such records, and that every wrapper holds on to what it wraps.

module ProxyInvariant {
  import opened Common
  import opened Handles
  import opened ProxyState

  ghost predicate HandleOK(s: State, h: ProxyHandle) {
    && (h.data.Some? ==>
          && h.data.value in s.datas
          && h.ptr == Some(s.datas[h.data.value].obj)
          && h.typ == s.datas[h.data.value].typ)
    && (h.data.None? && h.ptr.Some? ==>
          h.typ == Foreign && h.ptr.value in s.objects && s.objects[h.ptr.value].foreign)
  }

  ghost predicate SlotOK(s: State, k: Slot)
    requires k in s.slots
  {
    var h := s.slots[k];
    && HandleOK(s, h)
    && (k.Wrapped? ==>
          && k.owner in s.datas
          && (h.data.Some? ==> h.data.value < k.owner))
  }

  // The counter is exact: the slots that store the pointer, plus the handles that
  // copy assignment has overwritten without releasing them.
  ghost predicate DataOK(s: State, d: nat)
    requires d in s.datas
  {
    var r := s.datas[d];
    && d < s.nextData
    && r.counter == |Holders(s.slots, d)| + r.leaked
    && (s.overwrites == 0 ==> r.leaked == 0)
    && Wrapped(d) in s.slots
    && r.obj in s.objects
    && (var c := s.objects[r.obj];
        && !c.foreign
        && c.kind == r.typ != Foreign
        && (c.alive <==> r.counter > 0)
        && (c.alive ==>
              && c.userData == Some(d)
              && c.recorded == r.destroyOpcode
              && (r.inStep ==> c.queue == r.queue)))
    && (r.queue.Some? ==> r.queue.value in s.queues && s.queues[r.queue.value])
  }

  ghost predicate ObjectOK(s: State, o: nat)
    requires o in s.objects
  {
    var c := s.objects[o];
    && o < s.nextObject
    && c.kind != Foreign
    && (c.foreign ==> c.alive && c.kind == Standard && c.recorded.None?)
    && (c.alive && !c.foreign ==>
          match c.userData
          case Some(d) => d in s.datas && s.datas[d].obj == o
          case None => c.recorded.None?)
    && (c.wraps.Some? ==>
          c.kind == ProxyWrapper && !c.foreign && c.wraps.value in s.objects && c.wraps.value < o)
  }

  ghost predicate QueuesOK(s: State) {
    && (forall q | q in s.queues :: q < s.nextQueue)
    && (forall v | v in s.queueVars && s.queueVars[v].Some? ::
          s.queueVars[v].value in s.queues && s.queues[s.queueVars[v].value])
  }

  ghost predicate Core(s: State) {
    && (forall k {:trigger SlotOK(s, k)} | k in s.slots :: SlotOK(s, k))
    && (forall d {:trigger DataOK(s, d)} | d in s.datas :: DataOK(s, d))
    && (forall o {:trigger ObjectOK(s, o)} | o in s.objects :: ObjectOK(s, o))
    && QueuesOK(s)
    && !s.fault
  }

  lemma CoreRanked(s: State)
    requires Core(s)
    ensures Ranked(s)
  {
    forall k | k in s.slots && k.Wrapped? && s.slots[k].data.Some?
      ensures s.slots[k].data.value < k.owner
    {
      assert SlotOK(s, k);
    }
  }

  lemma FreshKeys(s: State)
    requires Core(s)
    ensures s.nextData !in s.datas && Wrapped(s.nextData) !in s.slots && s.nextObject !in s.objects
    ensures s.nextQueue !in s.queues
  {
    assert s.nextData in s.datas ==> DataOK(s, s.nextData);
    assert Wrapped(s.nextData) in s.slots ==> SlotOK(s, Wrapped(s.nextData));
    assert s.nextObject in s.objects ==> ObjectOK(s, s.nextObject);
  }

  // A wrapper that is not being deleted holds what it wraps.
  ghost predicate WrapperHolds(s: State, d: nat)
    requires d in s.datas
  {
    var r := s.datas[d];
    r.counter > 0 && Wrapped(d) in s.slots && r.obj in s.objects ==>
      var w := s.slots[Wrapped(d)];
      if s.objects[r.obj].wraps.Some?
      then w.data.Some? && w.ptr == s.objects[r.obj].wraps
      else w == EMPTY
  }

  ghost predicate WrappersHold(s: State) {
    forall d {:trigger WrapperHolds(s, d)} | d in s.datas :: WrapperHolds(s, d)
  }

  ghost predicate Quiescent(s: State) {
    forall d | d in s.datas :: s.datas[d].counter > 0
  }

  // Wrappers are only ever made from a handle together with their data record.
  ghost predicate Owned(s: State) {
    forall o | o in s.objects && s.objects[o].alive && s.objects[o].wraps.Some? ::
      s.objects[o].userData.Some?
  }

  ghost predicate FrameOK(s: State, i: nat)
    requires i < |s.frames|
  {
    var f := s.frames[i];
    && Frame(i, 0) in s.slots
    && s.slots[Frame(i, 0)].data == Some(f.data)
    && f.data in s.datas
    && s.datas[f.data].obj == f.target
    && (f.events.Some? ==> s.datas[f.data].events == f.events)
    && (forall j | 0 < j <= f.arguments :: Frame(i, j) in s.slots)
  }

  ghost predicate FramesOK(s: State) {
    && (forall i | 0 <= i < |s.frames| :: FrameOK(s, i))
    && (forall i: nat, j: nat | Frame(i, j) in s.slots :: i < |s.frames| && j <= s.frames[i].arguments)
  }

  // ------------------------------------------------------------------ the trace

  ghost predicate Destroys(call: CCall, o: nat) {
    call == ProxyDestroy(o) || call == WrapperDestroy(o) || call == DisplayDisconnect(o)
  }

  ghost function DestroyCall(kind: WrapperType, o: nat): CCall
    requires kind != Foreign
  {
    match kind
    case Standard => ProxyDestroy(o)
    case ProxyWrapper => WrapperDestroy(o)
    case Display => DisplayDisconnect(o)
  }

  ghost predicate RequestBefore(trace: seq<CCall>, i: nat, o: nat, opcode: nat) {
    0 < i <= |trace| && trace[i - 1] == DestroyRequest(o, opcode)
  }

  ghost predicate CallOK(s: State, i: nat)
    requires i < |s.trace|
  {
    match s.trace[i]
    case DestroyRequest(o, opcode) =>
      i + 1 < |s.trace| && s.trace[i + 1] == ProxyDestroy(o)
    case ProxyDestroy(o) =>
      && o in s.objects && !s.objects[o].alive && s.objects[o].kind == Standard
      && (match s.objects[o].recorded
          case Some(opcode) => RequestBefore(s.trace, i, o, opcode)
          case None => i == 0 || !s.trace[i - 1].DestroyRequest?)
    case WrapperDestroy(o) => o in s.objects && !s.objects[o].alive && s.objects[o].kind == ProxyWrapper
    case DisplayDisconnect(o) => o in s.objects && !s.objects[o].alive && s.objects[o].kind == Display
    case QueueDestroy(q) => q in s.queues && !s.queues[q]
  }

  ghost predicate TraceOK(s: State) {
    && (forall i | 0 <= i < |s.trace| :: CallOK(s, i))
    && (forall i, j, o | 0 <= i < j < |s.trace| && Destroys(s.trace[i], o) :: !Destroys(s.trace[j], o))
    && (forall i, j | 0 <= i < j < |s.trace| && s.trace[i].QueueDestroy? :: s.trace[j] != s.trace[i])
    && (forall o | o in s.objects && !s.objects[o].alive ::
          s.objects[o].kind != Foreign && DestroyCall(s.objects[o].kind, o) in s.trace)
    && (forall o, j | o in s.objects && 0 <= j < |s.trace| && WrapsDestroyed(s, o, j) ::
          DestroyedBefore(s.trace, o, j))
  }

  // Call j destroys what o wraps.
  ghost predicate WrapsDestroyed(s: State, o: nat, j: nat)
    requires o in s.objects && j < |s.trace|
  {
    s.objects[o].wraps.Some? && Destroys(s.trace[j], s.objects[o].wraps.value)
  }

  ghost predicate DestroyedBefore(trace: seq<CCall>, o: nat, j: nat)
    requires j <= |trace|
  {
    exists i | 0 <= i < j :: Destroys(trace[i], o)
  }

  ghost predicate Base(s: State) {
    Core(s) && WrappersHold(s) && Quiescent(s) && Owned(s) && TraceOK(s)
  }

  ghost predicate Inv(s: State) {
    Base(s) && FramesOK(s)
  }

  // ---------------------------------------------------------- queue references

  lemma DropQueueCore(s: State, q: Option<nat>)
    requires Core(s) && (q.Some? ==> q.value in s.queues && s.queues[q.value])
    ensures Core(DropQueue(s, q))
  {
    if q.Some? && !QueueReferenced(s, q.value) {
      var t := DropQueue(s, q);
      assert !Stranded(s, q.value) by {
        forall d | d in s.datas && s.datas[d].inStep && s.datas[d].counter > 0
          ensures s.datas[d].obj in s.objects && s.objects[s.datas[d].obj].queue == s.datas[d].queue
        {
          assert DataOK(s, d);
        }
        assert forall d | d in s.datas :: s.datas[d].queue != q;
      }
      forall k | k in t.slots ensures SlotOK(t, k) { assert SlotOK(s, k); }
      forall d | d in t.datas ensures DataOK(t, d) { assert DataOK(s, d); }
      forall o | o in t.objects ensures ObjectOK(t, o) { assert ObjectOK(s, o); }
      assert forall v | v in t.queueVars && t.queueVars[v].Some? :: s.queueVars[v] == t.queueVars[v];
    }
  }

  lemma DropQueueTrace(s: State, q: Option<nat>)
    requires TraceOK(s) && (q.Some? ==> q.value in s.queues && s.queues[q.value])
    ensures TraceOK(DropQueue(s, q))
  {
    if q.Some? && !QueueReferenced(s, q.value) {
      var t := DropQueue(s, q);
      forall i | 0 <= i < |t.trace| ensures CallOK(t, i) {
        if i < |s.trace| { assert CallOK(s, i); }
      }
      forall i, j | 0 <= i < j < |t.trace| && t.trace[i].QueueDestroy? ensures t.trace[j] != t.trace[i] {
        assert CallOK(s, i);
      }
      forall o, j | o in t.objects && 0 <= j < |t.trace| && WrapsDestroyed(t, o, j)
        ensures DestroyedBefore(t.trace, o, j)
      {
        assert WrapsDestroyed(s, o, j);
        LongerTrace(s.trace, t.trace, o, j);
      }
    }
  }

  lemma LongerTrace(trace: seq<CCall>, longer: seq<CCall>, o: nat, j: nat)
    requires trace <= longer && j <= |trace| && DestroyedBefore(trace, o, j)
    ensures DestroyedBefore(longer, o, j)
  {
    var i :| 0 <= i < j && Destroys(trace[i], o);
    assert Destroys(longer[i], o);
  }

  // ------------------------------------------------------------------- release

  // What a release leaves alone: every other slot of a surviving record, everything
  // about a surviving record but its counter, everything about a C object but
  // whether it is alive.
  ghost predicate Shrinks(s: State, t: State, k: Slot) {
    && SlotsShrink(s, t, k)
    && DatasShrink(s, t)
    && ObjectsShrink(s, t)
    && SameRest(s, t)
  }

  ghost predicate SlotsShrink(s: State, t: State, k: Slot) {
    && (forall j | j in s.slots && j != k ::
          if j.Wrapped? && j.owner in s.datas && j.owner !in t.datas then j !in t.slots
          else j in t.slots && t.slots[j] == s.slots[j])
    && (forall j | j in t.slots :: j in s.slots)
    && (k in s.slots && k in t.slots ==> t.slots[k] == EMPTY.(typ := s.slots[k].typ))
    && (k in s.slots && k !in t.slots ==> k.Wrapped? && k.owner !in t.datas)
  }

  ghost predicate DatasShrink(s: State, t: State) {
    && (forall d | d in t.datas :: d in s.datas && t.datas[d] == s.datas[d].(counter := t.datas[d].counter))
    && (forall d | d in s.datas ::
          if d in t.datas then t.datas[d].counter > 0 <==> s.datas[d].counter > 0
          else s.datas[d].counter > 0 && s.datas[d].leaked == 0)
  }

  ghost predicate ObjectsShrink(s: State, t: State) {
    && t.objects.Keys == s.objects.Keys
    && (forall o | o in s.objects ::
          && t.objects[o] == s.objects[o].(alive := t.objects[o].alive)
          && (s.objects[o].foreign || !s.objects[o].alive || s.objects[o].userData.None? ==>
                t.objects[o] == s.objects[o]))
  }

  ghost predicate SameRest(s: State, t: State) {
    && t.queues.Keys == s.queues.Keys
    && t.queueVars == s.queueVars
    && t.frames == s.frames
    && (t.nextData, t.nextObject, t.nextQueue) == (s.nextData, s.nextObject, s.nextQueue)
    && (t.overwrites, t.mixups) == (s.overwrites, s.mixups)
  }

  // Detach, told as a relation: the slot is emptied, the record of its handle counts
  // one less, and at zero its object dies.
  ghost predicate Detached(s: State, t: State, k: Slot, d: nat)
    requires d in s.datas
  {
    var r := s.datas[d];
    && t.slots == s.slots[k := EMPTY.(typ := r.typ)]
    && t.datas == s.datas[d := r.(counter := r.counter - 1)]
    && r.obj in s.objects
    && t.objects == (if r.counter == 1
                     then s.objects[r.obj := s.objects[r.obj].(alive := false)] else s.objects)
    && t.queues == s.queues && t.queueVars == s.queueVars && t.frames == s.frames
    && (t.nextData, t.nextObject, t.nextQueue) == (s.nextData, s.nextObject, s.nextQueue)
    && t.overwrites == s.overwrites && t.mixups == s.mixups && t.fault == s.fault
  }

  lemma DetachIsDetached(s: State, k: Slot, d: nat)
    requires k in s.slots && s.slots[k].data == Some(d) && SlotOK(s, k) && DataOK(s, d)
    ensures s.datas[d].counter >= 1 && Detached(s, Detach(s, k), k, d)
  {
    HolderCounts(s.slots, k, d);
  }

  lemma DetachedDatas(s: State, t: State, k: Slot, d: nat)
    requires Core(s) && k in s.slots && s.slots[k].data == Some(d)
    requires d in s.datas && s.datas[d].counter >= 1 && Detached(s, t, k, d)
    ensures forall e | e in t.datas :: DataOK(t, e)
  {
    assert SlotOK(s, k) && DataOK(s, d);
    forall e | e in t.datas ensures DataOK(t, e) {
      assert DataOK(s, e);
      HoldersAfterWrite(s.slots, k, t.slots[k], e);
    }
  }

  lemma DetachCore(s: State, k: Slot)
    requires Core(s) && k in s.slots
    ensures Core(Detach(s, k))
  {
    var t := Detach(s, k);
    assert SlotOK(s, k);
    match s.slots[k].data {
      case Some(d) =>
        assert DataOK(s, d);
        DetachIsDetached(s, k, d);
        DetachedDatas(s, t, k, d);
        DetachedRest(s, t, k, d);
      case None =>
        forall d | d in t.datas ensures DataOK(t, d) {
          assert DataOK(s, d);
          HoldersAfterWrite(s.slots, k, t.slots[k], d);
        }
        forall j | j in t.slots ensures SlotOK(t, j) { assert SlotOK(s, j); }
        forall o | o in t.objects ensures ObjectOK(t, o) { assert ObjectOK(s, o); }
    }
  }

  lemma DetachedRest(s: State, t: State, k: Slot, d: nat)
    requires Core(s) && k in s.slots && s.slots[k].data == Some(d)
    requires d in s.datas && s.datas[d].counter >= 1 && Detached(s, t, k, d)
    ensures forall j | j in t.slots :: SlotOK(t, j)
    ensures forall o | o in t.objects :: ObjectOK(t, o)
    ensures QueuesOK(t)
  {
    assert SlotOK(s, k) && DataOK(s, d);
    forall j | j in t.slots ensures SlotOK(t, j) { assert SlotOK(s, j); }
    forall o | o in t.objects ensures ObjectOK(t, o) { assert ObjectOK(s, o); }
  }

  // `delete data` once the wrapped proxy is gone.
  lemma DeleteCore(s: State, d: nat)
    requires Core(s) && d in s.datas && s.datas[d].counter == 0
    requires Wrapped(d) in s.slots && s.slots[Wrapped(d)].data.None?
    ensures Core(s.(slots := s.slots - {Wrapped(d)}, datas := s.datas - {d}))
  {
    var t := s.(slots := s.slots - {Wrapped(d)}, datas := s.datas - {d});
    assert DataOK(s, d);
    NoHolders(s.slots, d);
    forall e | e in t.datas ensures DataOK(t, e) {
      assert DataOK(s, e);
      HoldersAfterRemove(s.slots, Wrapped(d), e);
    }
    forall j | j in t.slots ensures SlotOK(t, j) { assert SlotOK(s, j); }
    forall o | o in t.objects ensures ObjectOK(t, o) { assert ObjectOK(s, o); }
  }

  // The state after `delete data`, before the retained queue goes.
  function Deleted(s: State, d: nat): State {
    s.(slots := s.slots - {Wrapped(d)}, datas := s.datas - {d})
  }

  lemma {:induction false} ReleaseCore(s: State, k: Slot)
    requires Core(s) && k in s.slots && Ranked(s)
    ensures Core(Release(s, k)) && Shrinks(s, Release(s, k), k)
    decreases Rank(s.slots[k]), 1
  {
    assert SlotOK(s, k);
    DetachCore(s, k);
    match s.slots[k].data {
      case None => DetachNothingShrinks(s, k);
      case Some(d) =>
        assert DataOK(s, d);
        DetachIsDetached(s, k, d);
        if s.datas[d].counter == 1 {
          ReleaseCoreLast(s, k, d);
        } else {
          DetachedShrinks(s, Detach(s, k), k, d);
        }
    }
  }

  lemma ReleaseCoreLast(s: State, k: Slot, d: nat)
    requires k in s.slots && Ranked(s) && s.slots[k].data == Some(d) && SlotOK(s, k)
    requires d in s.datas && s.datas[d].counter == 1 && DataOK(s, d) && Detached(s, Detach(s, k), k, d)
    requires Core(Detach(s, k))
    ensures Core(Release(s, k)) && Shrinks(s, Release(s, k), k)
    decreases Rank(s.slots[k]), 0
  {
    var s1 := Detach(s, k);
    CoreRanked(s1);
    assert Wrapped(d) in s1.slots && (s1.slots[Wrapped(d)].data.Some? ==> s1.slots[Wrapped(d)].data.value < d);
    ReleaseCore(s1, Wrapped(d));
    ReleaseDeletes(s, s1, Release(s1, Wrapped(d)), k, d);
  }

  lemma DetachNothingShrinks(s: State, k: Slot)
    requires k in s.slots && s.slots[k].data.None? && (k.Wrapped? ==> k.owner in s.datas)
    ensures Shrinks(s, Detach(s, k), k)
  {
  }

  lemma DetachedShrinks(s: State, t: State, k: Slot, d: nat)
    requires k in s.slots && s.slots[k].data == Some(d) && SlotOK(s, k)
    requires d in s.datas && s.datas[d].counter > 1 && Detached(s, t, k, d)
    ensures Shrinks(s, t, k)
  {
  }

  // t is s2 after `delete data` on record d.
  ghost predicate Removed(s2: State, t: State, d: nat) {
    && t.slots == s2.slots - {Wrapped(d)} && t.datas == s2.datas - {d} && t.objects == s2.objects
    && SameRest(s2, t)
  }

  lemma DeleteRemoves(s2: State, d: nat, q: Option<nat>)
    requires q.Some? ==> q.value in s2.queues
    ensures Removed(s2, DropQueue(Deleted(s2, d), q), d)
  {
  }

  lemma ReleaseDeletes(s: State, s1: State, s2: State, k: Slot, d: nat)
    requires k in s.slots && s.slots[k].data == Some(d) && SlotOK(s, k)
    requires d in s.datas && s.datas[d].counter == 1 && DataOK(s, d) && Detached(s, s1, k, d)
    requires Core(s2) && Shrinks(s1, s2, Wrapped(d))
    ensures var t := DropQueue(Deleted(s2, d), s.datas[d].queue);
      Core(t) && Shrinks(s, t, k)
  {
    assert DataOK(s2, d);
    DeleteCore(s2, d);
    DropQueueCore(Deleted(s2, d), s.datas[d].queue);
    DeleteRemoves(s2, d, s.datas[d].queue);
    HolderCounts(s.slots, k, d);
    DeleteShrinks(s, s1, s2, DropQueue(Deleted(s2, d), s.datas[d].queue), k, d);
  }

  lemma DeleteShrinks(s: State, s1: State, s2: State, t: State, k: Slot, d: nat)
    requires k in s.slots && s.slots[k].data == Some(d) && k != Wrapped(d) && |Holders(s.slots, d)| > 0
    requires (k.Wrapped? ==> k.owner in s.datas) && d in s.datas && s.slots[k].typ == s.datas[d].typ
    requires d in s.datas && s.datas[d].counter == 1 && DataOK(s, d) && Detached(s, s1, k, d)
    requires Shrinks(s1, s2, Wrapped(d)) && Removed(s2, t, d)
    ensures Shrinks(s, t, k)
  {
    DeleteSlotsShrink(s, s1, s2, t, k, d);
    DeleteDatasShrink(s, s1, s2, t, k, d);
    DetachedObjectsShrink(s, s1, s2, k, d);
  }

  lemma DeleteSlotsShrink(s: State, s1: State, s2: State, t: State, k: Slot, d: nat)
    requires k in s.slots && k != Wrapped(d) && (k.Wrapped? ==> k.owner in s.datas)
    requires d in s.datas && s.slots[k].typ == s.datas[d].typ && Detached(s, s1, k, d)
    requires SlotsShrink(s1, s2, Wrapped(d)) && DatasShrink(s1, s2)
    requires t.slots == s2.slots - {Wrapped(d)} && t.datas == s2.datas - {d}
    ensures SlotsShrink(s, t, k)
  {
  }

  lemma DetachedObjectsShrink(s: State, s1: State, t: State, k: Slot, d: nat)
    requires d in s.datas && Detached(s, s1, k, d)
    requires var c := s.objects[s.datas[d].obj]; c.alive && !c.foreign && c.userData.Some?
    requires ObjectsShrink(s1, t)
    ensures ObjectsShrink(s, t)
  {
  }

  lemma DeleteDatasShrink(s: State, s1: State, s2: State, t: State, k: Slot, d: nat)
    requires d in s.datas && s.datas[d].counter == 1 && s.datas[d].leaked == 0 && Detached(s, s1, k, d)
    requires DatasShrink(s1, s2) && t.datas == s2.datas - {d}
    ensures DatasShrink(s, t)
  {
  }

  // The calls that destroy the object of record r: the recorded destroy request, if
  // the proxy is a standard one, immediately followed by the matching function.
  ghost function DestroyCalls(r: Data): seq<CCall>
    requires r.typ != Foreign
  {
    (if r.typ == Standard && r.destroyOpcode.Some?
     then [DestroyRequest(r.obj, r.destroyOpcode.value)] else [])
    + [DestroyCall(r.typ, r.obj)]
  }

  lemma DetachCalls(s: State, k: Slot, d: nat)
    requires k in s.slots && s.slots[k].data == Some(d) && SlotOK(s, k) && DataOK(s, d)
    ensures Detach(s, k).trace == s.trace + (if s.datas[d].counter == 1 then DestroyCalls(s.datas[d]) else [])
  {
    HolderCounts(s.slots, k, d);
  }

  lemma DestroyTrace(s: State, t: State, r: Data)
    requires TraceOK(s) && r.obj in s.objects && r.typ != Foreign
    requires var c := s.objects[r.obj]; c.alive && c.kind == r.typ && c.recorded == r.destroyOpcode
    requires t.objects == s.objects[r.obj := s.objects[r.obj].(alive := false)] && t.queues == s.queues
    requires t.trace == s.trace + DestroyCalls(r)
    requires forall o | o in s.objects && s.objects[o].wraps == Some(r.obj) :: !s.objects[o].alive && o != r.obj
    ensures TraceOK(t)
  {
    forall i | 0 <= i < |t.trace| ensures CallOK(t, i) {
      if i < |s.trace| { assert CallOK(s, i); }
      if i == |s.trace| > 0 { assert CallOK(s, i - 1); }
      DestroyCallOK(s, t, r, i);
    }
    DestroyedOnce(s, t, r);
    DestroyWrapOrder(s, t, r);
  }

  lemma DestroyCallOK(s: State, t: State, r: Data, i: nat)
    requires r.obj in s.objects && r.typ != Foreign
    requires var c := s.objects[r.obj]; c.alive && c.kind == r.typ && c.recorded == r.destroyOpcode
    requires t.objects == s.objects[r.obj := s.objects[r.obj].(alive := false)] && t.queues == s.queues
    requires t.trace == s.trace + DestroyCalls(r) && i < |t.trace|
    requires i < |s.trace| ==> CallOK(s, i)
    requires i == |s.trace| > 0 ==> CallOK(s, i - 1)
    ensures CallOK(t, i)
  {
  }

  lemma DestroyedOnce(s: State, t: State, r: Data)
    requires TraceOK(s) && r.obj in s.objects && r.typ != Foreign
    requires s.objects[r.obj].alive && s.objects[r.obj].kind == r.typ
    requires t.objects == s.objects[r.obj := s.objects[r.obj].(alive := false)]
    requires t.trace == s.trace + DestroyCalls(r)
    ensures forall i, j, o | 0 <= i < j < |t.trace| && Destroys(t.trace[i], o) :: !Destroys(t.trace[j], o)
    ensures forall i, j | 0 <= i < j < |t.trace| && t.trace[i].QueueDestroy? :: t.trace[j] != t.trace[i]
    ensures forall o | o in t.objects && !t.objects[o].alive ::
      t.objects[o].kind != Foreign && DestroyCall(t.objects[o].kind, o) in t.trace
  {
    forall i, j, o | 0 <= i < j < |t.trace| && Destroys(t.trace[i], o) ensures !Destroys(t.trace[j], o) {
      if i < |s.trace| { assert CallOK(s, i); }
    }
    forall o | o in t.objects && !t.objects[o].alive
      ensures t.objects[o].kind != Foreign && DestroyCall(t.objects[o].kind, o) in t.trace
    {
      assert o != r.obj ==> DestroyCall(s.objects[o].kind, o) in s.trace;
      assert t.trace[|t.trace| - 1] == DestroyCall(r.typ, r.obj);
    }
    forall i, j | 0 <= i < j < |t.trace| && t.trace[i].QueueDestroy? ensures t.trace[j] != t.trace[i] {
      assert i < |s.trace|;
    }
  }

  lemma DestroyWrapOrder(s: State, t: State, r: Data)
    requires TraceOK(s) && r.typ != Foreign && t.trace == s.trace + DestroyCalls(r) && t.objects.Keys == s.objects.Keys
    requires forall o | o in s.objects :: t.objects[o].wraps == s.objects[o].wraps
    requires forall o | o in s.objects && s.objects[o].wraps == Some(r.obj) :: !s.objects[o].alive && o != r.obj
    ensures forall o, j | o in t.objects && 0 <= j < |t.trace| && WrapsDestroyed(t, o, j) ::
      DestroyedBefore(t.trace, o, j)
  {
    forall o, j | o in t.objects && 0 <= j < |t.trace| && WrapsDestroyed(t, o, j)
      ensures DestroyedBefore(t.trace, o, j)
    {
      if j < |s.trace| {
        assert WrapsDestroyed(s, o, j);
        LongerTrace(s.trace, t.trace, o, j);
      } else {
        assert DestroyCall(s.objects[o].kind, o) in s.trace;
        var i :| 0 <= i < |s.trace| && s.trace[i] == DestroyCall(s.objects[o].kind, o);
        assert Destroys(t.trace[i], o);
      }
    }
  }

  // The trace invariant speaks of the trace, the objects' fate and the queues only.
  lemma TraceFrame(s: State, t: State)
    requires TraceOK(s) && t.trace == s.trace
    requires forall q | q in s.queues :: q in t.queues && t.queues[q] == s.queues[q]
    requires forall o | o in s.objects ::
      && o in t.objects
      && t.objects[o].alive == s.objects[o].alive
      && t.objects[o].kind == s.objects[o].kind
      && t.objects[o].wraps == s.objects[o].wraps
      && (!s.objects[o].alive ==> t.objects[o].recorded == s.objects[o].recorded)
    requires forall o | o in t.objects && o !in s.objects ::
      && t.objects[o].alive
      && (t.objects[o].wraps.Some? ==>
            t.objects[o].wraps.value in s.objects && s.objects[t.objects[o].wraps.value].alive)
    ensures TraceOK(t)
  {
    forall i | 0 <= i < |t.trace| ensures CallOK(t, i) {
      assert CallOK(s, i);
    }
    forall o, j | o in t.objects && 0 <= j < |t.trace| && WrapsDestroyed(t, o, j)
      ensures DestroyedBefore(t.trace, o, j)
    {
      assert CallOK(s, j);
      assert WrapsDestroyed(s, o, j);
    }
  }

  lemma SameObjectsTrace(s: State, t: State)
    requires TraceOK(s) && t.trace == s.trace && t.objects == s.objects
    requires forall q | q in s.queues :: q in t.queues && t.queues[q] == s.queues[q]
    ensures TraceOK(t)
  {
    TraceFrame(s, t);
  }

  // When the last handle to a record goes, no live wrapper is left over its object:
  // the wrapper's data would hold it.
  lemma NoLiveWrapper(s: State, k: Slot, d: nat, o: nat)
    requires Core(s) && WrappersHold(s) && Owned(s)
    requires k in s.slots && s.slots[k].data == Some(d) && d in s.datas && s.datas[d].counter == 1
    requires k.Wrapped? ==> k.owner in s.datas && s.datas[k.owner].counter == 0
    requires o in s.objects && s.objects[o].wraps == Some(s.datas[d].obj)
    ensures !s.objects[o].alive && o != s.datas[d].obj
  {
    assert ObjectOK(s, o) && DataOK(s, d);
    if s.objects[o].alive {
      var e := s.objects[o].userData.value;
      var w := Wrapped(e);
      assert DataOK(s, e) && WrapperHolds(s, e) && SlotOK(s, w);
      var x := s.slots[w].data.value;
      assert DataOK(s, x);
      assert {k, w} <= Holders(s.slots, d);
      HoldersAfterRemove(s.slots, k, d);
      HolderCounts(s.slots - {k}, w, d);
      assert false;
    }
  }

  lemma DetachWrappers(s: State, k: Slot, d: nat)
    requires WrappersHold(s) && Owned(s) && k in s.slots && s.slots[k].data == Some(d) && d in s.datas
    requires Detached(s, Detach(s, k), k, d)
    requires k.Wrapped? ==> k.owner in s.datas && s.datas[k.owner].counter == 0 && k.owner != d
    ensures WrappersHold(Detach(s, k)) && Owned(Detach(s, k))
  {
    var t := Detach(s, k);
    forall e | e in t.datas ensures WrapperHolds(t, e) { assert WrapperHolds(s, e); }
  }

  lemma {:induction false} ReleaseTrace(s: State, k: Slot)
    requires Core(s) && WrappersHold(s) && Owned(s) && TraceOK(s) && k in s.slots && Ranked(s)
    requires k.Wrapped? ==> k.owner in s.datas && s.datas[k.owner].counter == 0
    ensures TraceOK(Release(s, k))
    decreases Rank(s.slots[k]), 1
  {
    assert SlotOK(s, k);
    match s.slots[k].data {
      case None => TraceFrame(s, Detach(s, k));
      case Some(d) =>
        assert DataOK(s, d);
        DetachIsDetached(s, k, d);
        DetachCalls(s, k, d);
        if s.datas[d].counter == 1 {
          DetachTrace(s, k, d);
          ReleaseTraceRest(s, k, d);
        } else {
          TraceFrame(s, Detach(s, k));
        }
    }
  }

  lemma DetachTrace(s: State, k: Slot, d: nat)
    requires Core(s) && WrappersHold(s) && Owned(s) && TraceOK(s)
    requires k in s.slots && s.slots[k].data == Some(d) && d in s.datas && s.datas[d].counter == 1
    requires k.Wrapped? ==> k.owner in s.datas && s.datas[k.owner].counter == 0
    requires Detached(s, Detach(s, k), k, d)
    requires DataOK(s, d) && Detach(s, k).trace == s.trace + DestroyCalls(s.datas[d])
    ensures TraceOK(Detach(s, k))
  {
    forall o | o in s.objects && s.objects[o].wraps == Some(s.datas[d].obj)
      ensures !s.objects[o].alive && o != s.datas[d].obj
    {
      NoLiveWrapper(s, k, d, o);
    }
    DestroyTrace(s, Detach(s, k), s.datas[d]);
  }

  lemma ReleaseTraceRest(s: State, k: Slot, d: nat)
    requires Core(s) && WrappersHold(s) && Owned(s) && k in s.slots && Ranked(s)
    requires s.slots[k].data == Some(d) && d in s.datas && s.datas[d].counter == 1 && SlotOK(s, k) && DataOK(s, d)
    requires k.Wrapped? ==> k.owner in s.datas && s.datas[k.owner].counter == 0
    requires Detached(s, Detach(s, k), k, d) && TraceOK(Detach(s, k))
    ensures TraceOK(Release(s, k))
    decreases Rank(s.slots[k]), 0
  {
    var s1 := Detach(s, k);
    DetachCore(s, k);
    DetachWrappers(s, k, d);
    CoreRanked(s1);
    assert Wrapped(d) in s1.slots && s1.slots[Wrapped(d)].data.Some? ==> s1.slots[Wrapped(d)].data.value < d;
    ReleaseTrace(s1, Wrapped(d));
    ReleaseCore(s1, Wrapped(d));
    var s2 := Release(s1, Wrapped(d));
    assert DataOK(s2, d) && DatasShrink(s1, s2);
    TraceFrame(s2, Deleted(s2, d));
    DropQueueTrace(Deleted(s2, d), s.datas[d].queue);
  }
}
