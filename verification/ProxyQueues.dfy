// The lifetime of event queues: a queue is alive exactly while a record retains it or a
// variable of the program refers to it, over every run.

module ProxyQueues {
  import opened Common
  import opened Handles
  import opened ProxyState
  import opened ProxyInvariant
  import opened ProxySteps
  import opened ProxyRuns
  import opened ProxyFields

  // Some event_queue_t holds q.
  predicate Retained(s: State, q: nat) {
    || (exists d :: d in s.datas && s.datas[d].queue == Some(q))
    || (exists v :: v in s.queueVars && s.queueVars[v] == Some(q))
  }

  predicate Accounted(s: State, q: nat, but: Option<nat>) {
    q in s.queues ==>
      && (s.queues[q] ==> Retained(s, q) || but == Some(q))
      && (!s.queues[q] ==> QueueDestroy(q) in s.trace)
  }

  // Every live queue is retained, `but` perhaps not, and every dead one was destroyed.
  ghost predicate QueuesLive(s: State, but: Option<nat>) {
    forall q: nat :: Accounted(s, q, but)
  }

  // The last reference to q has gone, or another is left.
  lemma DropQueueLive(s: State, q: Option<nat>)
    requires QueuesLive(s, q)
    ensures QueuesLive(DropQueue(s, q), None)
  {
    var t := DropQueue(s, q);
    forall p: nat ensures Accounted(t, p, None) {
      assert Accounted(s, p, q);
      if q == Some(p) && t != s {
        assert t.trace[|s.trace|] == QueueDestroy(p);
      }
    }
  }

  // What retained a queue still does, but for `lost`, and no queue dies.
  lemma StillLive(s: State, t: State, lost: Option<nat>)
    requires QueuesLive(s, None) && t.queues == s.queues && s.trace <= t.trace
    requires forall q: nat | Retained(s, q) && Some(q) != lost :: Retained(t, q)
    ensures QueuesLive(t, lost)
  {
    forall q: nat ensures Accounted(t, q, lost) {
      assert Accounted(s, q, None);
    }
  }

  // ---------------------------------------------------------------------- releases

  lemma RecordsRetain(s: State, t: State, lost: Option<nat>)
    requires t.queueVars == s.queueVars
    requires forall d | d in s.datas && s.datas[d].queue != lost :: d in t.datas && t.datas[d].queue == s.datas[d].queue
    ensures forall q: nat | Retained(s, q) && Some(q) != lost :: Retained(t, q)
  {
    forall q: nat | Retained(s, q) && Some(q) != lost ensures Retained(t, q) {
      if d :| d in s.datas && s.datas[d].queue == Some(q) {
        assert d in t.datas && t.datas[d].queue == Some(q);
      } else {
        var v :| v in s.queueVars && s.queueVars[v] == Some(q);
        assert v in t.queueVars && t.queueVars[v] == Some(q);
      }
    }
  }

  lemma DetachLive(s: State, k: Slot, d: nat)
    requires QueuesLive(s, None) && k in s.slots && s.slots[k].data == Some(d) && d in s.datas
    requires SlotOK(s, k) && DataOK(s, d)
    ensures QueuesLive(Detach(s, k), None)
  {
    DetachIsDetached(s, k, d);
    DetachCalls(s, k, d);
    RecordsRetain(s, Detach(s, k), None);
    StillLive(s, Detach(s, k), None);
  }

  lemma {:induction false} ReleaseLive(s: State, k: Slot)
    requires Core(s) && Ranked(s) && k in s.slots && QueuesLive(s, None)
    ensures QueuesLive(Release(s, k), None)
    decreases Rank(s.slots[k])
  {
    assert SlotOK(s, k);
    match s.slots[k].data {
      case None =>
        RecordsRetain(s, Release(s, k), None);
        StillLive(s, Release(s, k), None);
      case Some(d) =>
        assert DataOK(s, d);
        DetachLive(s, k, d);
        DetachIsDetached(s, k, d);
        if s.datas[d].counter == 1 {
          DetachCore(s, k);
          CoreRanked(Detach(s, k));
          LastRelease(s, k, d);
          ReleaseLive(Detach(s, k), Wrapped(d));
          ReleaseCore(Detach(s, k), Wrapped(d));
          DeletedLive(Release(Detach(s, k), Wrapped(d)), d, s.datas[d].queue);
        }
    }
  }

  lemma DeletedLive(s: State, d: nat, queue: Option<nat>)
    requires QueuesLive(s, None) && (d in s.datas ==> s.datas[d].queue == queue)
    ensures QueuesLive(DropQueue(Deleted(s, d), queue), None)
  {
    RecordsRetain(s, Deleted(s, d), queue);
    StillLive(s, Deleted(s, d), queue);
    DropQueueLive(Deleted(s, d), queue);
  }

  lemma DestroyLive(s: State, k: Slot)
    requires Core(s) && Ranked(s) && k in s.slots && QueuesLive(s, None)
    ensures QueuesLive(Destroy(s, k), None)
  {
    ReleaseLive(s, k);
    RecordsRetain(Release(s, k), Destroy(s, k), None);
    StillLive(Release(s, k), Destroy(s, k), None);
  }

  lemma {:induction false} DropArgumentsLive(s: State, depth: nat, first: nat, n: nat)
    requires Base(s) && Ranked(s) && Arguments(s, depth, first, n) && QueuesLive(s, None)
    ensures QueuesLive(DropArguments(s, depth, first, n), None)
    decreases n - first
  {
    if first < n {
      var k := Frame(depth, first + 1);
      DestroyDrops(s, k);
      DestroyLive(s, k);
      assert Arguments(Destroy(s, k), depth, first + 1, n);
      DropArgumentsLive(Destroy(s, k), depth, first + 1, n);
    }
  }

  lemma EndLive(s: State)
    requires Inv(s) && Ranked(s) && |s.frames| > 0 && QueuesLive(s, None)
    ensures QueuesLive(DispatchEnd(s), None)
  {
    var depth := |s.frames| - 1;
    var s0 := s.(frames := s.frames[..depth]);
    RetypeFrames(s, s0.frames);
    assert FrameOK(s, depth);
    RecordsRetain(s, s0, None);
    StillLive(s, s0, None);
    DestroyDrops(s0, Frame(depth, 0));
    DestroyLive(s0, Frame(depth, 0));
    DropArgumentsLive(Destroy(s0, Frame(depth, 0)), depth, 0, s.frames[depth].arguments);
  }

  // ---------------------------------------------------------------------- settings

  lemma SetQueueLive(s: State, k: Slot, queue: Option<nat>)
    requires Inv(s) && k in s.slots && QueuesLive(s, None)
    ensures QueuesLive(SetQueue(s, k, queue), None)
  {
    PointsAtLive(s, k);
    var h := s.slots[k];
    if h.data.Some? {
      var d, o := h.data.value, h.ptr.value;
      var m := s.(objects := s.objects[o := s.objects[o].(queue := queue)],
                  datas := s.datas[d := s.datas[d].(queue := queue, inStep := true)]);
      RecordsRetain(s, m, s.datas[d].queue);
      StillLive(s, m, s.datas[d].queue);
      DropQueueLive(m, s.datas[d].queue);
    } else {
      RecordsRetain(s, SetQueue(s, k, queue), None);
      StillLive(s, SetQueue(s, k, queue), None);
    }
  }

  lemma NewQueueLive(s: State, v: nat)
    requires Core(s) && v !in s.queueVars && QueuesLive(s, None)
    ensures QueuesLive(CreateQueue(s, v), None)
  {
    var t := CreateQueue(s, v);
    forall q: nat ensures Accounted(t, q, None) {
      assert Accounted(s, q, None);
      if q == s.nextQueue {
        assert t.queueVars[v] == Some(q);
      } else if Retained(s, q) {
        VariablesRetain(s, t, None, q);
      }
    }
  }

  lemma VariablesRetain(s: State, t: State, lost: Option<nat>, q: nat)
    requires Retained(s, q) && Some(q) != lost && t.datas == s.datas
    requires forall v | v in s.queueVars && s.queueVars[v] != lost ::
      v in t.queueVars && t.queueVars[v] == s.queueVars[v]
    ensures Retained(t, q)
  {
    if v :| v in s.queueVars && s.queueVars[v] == Some(q) {
      assert v in t.queueVars && t.queueVars[v] == Some(q);
    }
  }

  lemma VariableLive(s: State, t: State, lost: Option<nat>)
    requires QueuesLive(s, None) && t == s.(queueVars := t.queueVars)
    requires forall v | v in s.queueVars && s.queueVars[v] != lost ::
      v in t.queueVars && t.queueVars[v] == s.queueVars[v]
    ensures QueuesLive(t, lost)
  {
    forall q: nat | Retained(s, q) && Some(q) != lost ensures Retained(t, q) {
      VariablesRetain(s, t, lost, q);
    }
    StillLive(s, t, lost);
  }

  lemma SettingLive(s: State, op: Op)
    requires Inv(s) && Enabled(s, op) && Ranked(s) && Sets(op) && QueuesLive(s, None)
    ensures QueuesLive(Step(s, op), None)
  {
    match op
    case AssignQueue(k, v) => SetQueueLive(s, User(k), QueueOf(s, v));
    case NewQueue(v) => NewQueueLive(s, v);
    case CopyQueueVar(v, w) => VariableLive(s, Step(s, op), None);
    case DropQueueVar(v) =>
      VariableLive(s, s.(queueVars := s.queueVars - {v}), s.queueVars[v]);
      DropQueueLive(s.(queueVars := s.queueVars - {v}), s.queueVars[v]);
    case Events(k, _) => FieldLive(s, op);
    case DestroyOpcode(k, _) => FieldLive(s, op);
  }

  lemma FieldLive(s: State, op: Op)
    requires Inv(s) && Enabled(s, op) && Ranked(s) && (op.Events? || op.DestroyOpcode?) && QueuesLive(s, None)
    ensures QueuesLive(Step(s, op), None)
  {
    forall d | d in s.datas ensures d in Step(s, op).datas && Step(s, op).datas[d].queue == s.datas[d].queue {
      SettingFields(s, op, d, s.datas[d].obj);
    }
    RecordsRetain(s, Step(s, op), None);
    StillLive(s, Step(s, op), None);
  }

  lemma MakingLive(s: State, op: Op)
    requires Inv(s) && Enabled(s, op) && Ranked(s) && Makes(op) && QueuesLive(s, None)
    ensures QueuesLive(Step(s, op), None)
  {
    MakingMade(s, op);
    forall d | d in s.datas ensures d in Step(s, op).datas && Step(s, op).datas[d].queue == s.datas[d].queue {
      assert MadeRecord(s, Step(s, op), GivenQueue(s, op), d);
    }
    RecordsRetain(s, Step(s, op), None);
    StillLive(s, Step(s, op), None);
  }

  // -------------------------------------------------------------------- whole runs

  lemma StepLive(s: State, op: Op)
    requires Inv(s) && Enabled(s, op) && Ranked(s) && QueuesLive(s, None)
    ensures QueuesLive(Step(s, op), None)
  {
    if Makes(op) {
      MakingLive(s, op);
    } else if Sets(op) {
      SettingLive(s, op);
    } else {
      match op
      case Drop(k) => DestroyLive(s, User(k));
      case Empty(k) => ReleaseLive(s, User(k));
      case End => EndLive(s);
    }
  }

  lemma {:induction false} RunLive(ops: seq<Op>, s: State)
    requires Reaches(ops, s) && s.mixups == 0
    ensures QueuesLive(s, None)
    decreases |ops|
  {
    if ops != [] {
      var r, op := LastStep(ops, s);
      RunLive(ops[..|ops| - 1], r);
      StepLive(r, op);
    }
  }

  // Over every run: an event queue is alive exactly while a record retains it or a
  // variable refers to it, and wl_event_queue_destroy has been called exactly for those
  // that are not, once.
  lemma QueueAliveIffRetained(ops: seq<Op>, s: State, q: nat)
    requires Reaches(ops, s) && s.mixups == 0
    ensures q in s.queues ==>
      (s.queues[q] <==>
        || (exists d :: d in s.datas && s.datas[d].queue == Some(q))
        || (exists v :: v in s.queueVars && s.queueVars[v] == Some(q)))
    ensures QueueDestroy(q) in s.trace <==> q in s.queues && !s.queues[q]
    ensures forall i, j | 0 <= i < |s.trace| && 0 <= j < |s.trace| && s.trace[i] == QueueDestroy(q) ::
      s.trace[j] == QueueDestroy(q) ==> i == j
  {
    RunKeepsInv(ops, s);
    RunLive(ops, s);
    assert Accounted(s, q, None);
    if d :| d in s.datas && s.datas[d].queue == Some(q) {
      assert DataOK(s, d);
    }
    if QueueDestroy(q) in s.trace {
      var i :| 0 <= i < |s.trace| && s.trace[i] == QueueDestroy(q);
      assert CallOK(s, i);
    }
  }
}
