// What a data record keeps through every operation: counts that were lost, and
// whether it is in step with the event queue libwayland delivers its events to.

module ProxyHistory {
  import opened Common
  import opened Handles
  import opened ProxyState
  import opened ProxyInvariant
  import opened ProxySteps
  import opened ProxyRuns

  // The operation overwrites a handle on record d without releasing it.
  predicate Overwrites(s: State, op: Op, d: nat) {
    op.Assign? && op.k != op.j && User(op.k) in s.slots && s.slots[User(op.k)].data == Some(d)
  }

  // set_queue on record d.
  predicate Requeues(s: State, op: Op, d: nat) {
    op.AssignQueue? && User(op.k) in s.slots && s.slots[User(op.k)].data == Some(d)
  }

  // The record the operation makes is a display's, or descends from one in step.
  predicate Descends(s: State, op: Op) {
    || op.Display?
    || (op.Request? && User(op.parent) in s.slots && InStep(s, s.slots[User(op.parent)]))
    || (op.CreateWrapper? && User(op.j) in s.slots && InStep(s, s.slots[User(op.j)]))
  }

  // Everything an operation does to the history of record d.
  ghost predicate Evolves(s: State, t: State, d: nat, lost: bool, requeued: bool, descends: bool) {
    && (d in s.datas && d !in t.datas ==> s.datas[d].leaked == 0)
    && (d in s.datas && d in t.datas ==>
          && t.datas[d].leaked == s.datas[d].leaked + (if lost then 1 else 0)
          && (t.datas[d].inStep <==> s.datas[d].inStep || requeued))
    && (d !in s.datas && d in t.datas ==> t.datas[d].leaked == 0 && (t.datas[d].inStep <==> descends))
  }

  lemma SameDatasEvolve(s: State, t: State, d: nat, descends: bool)
    requires t.datas == s.datas
    ensures Evolves(s, t, d, false, false, descends)
  {
  }

  lemma ConstructEvolves(s: State, k: Slot, o: nat, typ: WrapperType, queue: Option<nat>, inStep: bool, d: nat)
    requires s.nextData !in s.datas
    ensures Evolves(s, Construct(s, k, o, typ, queue, inStep), d, false, false, inStep)
  {
    var t := Construct(s, k, o, typ, queue, inStep);
    if typ == Foreign || o !in s.objects {
      SameDatasEvolve(s, t, d, inStep);
    } else if typ != WrapperType.Display && s.objects[o].userData.Some? {
      FoundEvolves(s, k, o, typ, queue, inStep, d);
    } else {
      NewEvolves(s, t, d, inStep);
    }
  }

  lemma FoundEvolves(s: State, k: Slot, o: nat, typ: WrapperType, queue: Option<nat>, inStep: bool, d: nat)
    requires o in s.objects && typ != Foreign && typ != WrapperType.Display && s.objects[o].userData.Some?
    ensures Evolves(s, Construct(s, k, o, typ, queue, inStep), d, false, false, inStep)
  {
    if s.objects[o].foreign {
      SameDatasEvolve(s, Construct(s, k, o, typ, queue, inStep), d, inStep);
    } else {
      AcquireEvolves(s, k, Handle(Some(o), s.objects[o].userData, typ), d, inStep);
    }
  }

  lemma AcquireEvolves(s: State, k: Slot, h: ProxyHandle, d: nat, inStep: bool)
    ensures Evolves(s, Acquire(s, k, h), d, false, false, inStep)
  {
  }

  lemma NewEvolves(s: State, t: State, d: nat, inStep: bool)
    requires s.nextData !in s.datas && s.nextData in t.datas
    requires t.datas == s.datas[s.nextData := t.datas[s.nextData]]
    requires t.datas[s.nextData].leaked == 0 && t.datas[s.nextData].inStep == inStep
    ensures Evolves(s, t, d, false, false, inStep)
  {
  }

  lemma ShrinksEvolves(s: State, t: State, d: nat)
    requires DatasShrink(s, t)
    ensures Evolves(s, t, d, false, false, false)
  {
  }

  lemma IntroduceEvolves(s: State, k: Slot, junk: Option<nat>, queue: Option<nat>, retained: Option<nat>,
                         inStep: bool, d: nat)
    requires s.nextData !in s.datas
    ensures Evolves(s, Introduce(s, k, junk, queue, retained, inStep), d, false, false, inStep)
  {
    var m := SetUserData(CreateObject(s, Standard, false, junk, queue, None), s.nextObject, None);
    ConstructEvolves(m, k, s.nextObject, Standard, retained, inStep, d);
  }

  lemma RequestEvolves(s: State, parent: Slot, k: Slot, junk: Option<nat>, d: nat)
    requires s.nextData !in s.datas && parent in s.slots
    ensures Evolves(s, MarshalConstructor(s, parent, k, junk), d, false, false, InStep(s, s.slots[parent]))
  {
    var h := s.slots[parent];
    if h.ptr.Some? && h.ptr.value in s.objects && s.objects[h.ptr.value].alive {
      IntroduceEvolves(s, k, junk, s.objects[h.ptr.value].queue, RetainedQueue(s, h), InStep(s, h), d);
    } else {
      SameDatasEvolve(s, MarshalConstructor(s, parent, k, junk), d, InStep(s, h));
    }
  }

  lemma AssignEvolves(s: State, k: Slot, j: Slot, d: nat)
    requires k in s.slots && j in s.slots && SlotOK(s, k) && SlotOK(s, j)
    ensures Evolves(s, CopyAssign(s, k, j), d, k != j && s.slots[k].data == Some(d), false, false)
  {
    if k != j {
      CopyAssignOverwrites(s, k, j);
      assert d in s.datas ==> CountedCopy(s, CopyAssign(s, k, j), d, s.slots[j].data, s.slots[k].data);
    }
  }

  lemma WrapEvolves(s: State, j: Slot, k: Slot, d: nat)
    requires Core(s) && j in s.slots && k !in s.slots && !k.Wrapped? && !j.Wrapped?
    requires s.slots[j].ptr.Some? ==> s.slots[j].data.Some?
    ensures Evolves(s, Wrap(s, j, k), d, false, false, InStep(s, s.slots[j]))
  {
    var h := s.slots[j];
    assert SlotOK(s, j);
    if h.ptr.Some? && h.ptr.value in s.objects && s.objects[h.ptr.value].alive {
      FreshKeys(s);
      var m := CreateObject(s, ProxyWrapper, false, None, s.objects[h.ptr.value].queue, h.ptr);
      var m2 := Construct(m, k, s.nextObject, ProxyWrapper, RetainedQueue(s, h), InStep(s, h));
      ConstructEvolves(m, k, s.nextObject, ProxyWrapper, RetainedQueue(s, h), InStep(s, h), d);
      ConstructNew(m, m2, k, s.nextObject, ProxyWrapper, RetainedQueue(s, h), InStep(s, h));
      WrappedEvolves(m2, j, s.nextData, d);
    } else {
      SameDatasEvolve(s, Wrap(s, j, k), d, InStep(s, h));
    }
  }

  lemma WrappedEvolves(s: State, j: Slot, e: nat, d: nat)
    requires j in s.slots && !j.Wrapped? && SlotOK(s, j)
    requires Wrapped(e) in s.slots && s.slots[Wrapped(e)] == EMPTY && e in s.datas
    ensures var t := CopyAssign(s, Wrapped(e), j);
      && t.datas.Keys == s.datas.Keys
      && (d in s.datas ==> t.datas[d] == s.datas[d].(counter := t.datas[d].counter))
  {
    CopyAssignOverwrites(s, Wrapped(e), j);
    assert d in s.datas ==> CountedCopy(s, CopyAssign(s, Wrapped(e), j), d, s.slots[j].data, None);
  }

  lemma SetQueueEvolves(s: State, k: Slot, queue: Option<nat>, d: nat)
    requires Inv(s) && k in s.slots
    ensures Evolves(s, SetQueue(s, k, queue), d, false, s.slots[k].data == Some(d), false)
  {
    assert SlotOK(s, k);
    assert s.slots[k].data.Some? ==> DataOK(s, s.slots[k].data.value);
  }

  lemma BeginEvolves(s: State, target: nat, args: seq<ObjectArgument>, d: nat)
    requires Inv(s) && Enabled(s, Begin(target, args)) && Safe(s, Begin(target, args))
    ensures Evolves(s, DispatchBegin(s, target, args), d, false, false, false)
  {
    if s.objects[target].userData.Some? {
      SafeIsHarmless(s, args);
      FramesShallow(s);
      UnpackBase(s, |s.frames|, args, s.objects[target].queue);
      EnterEvolves(s, UnpackArguments(s, |s.frames|, args, 0, s.objects[target].queue), target, args, d);
    }
  }

  lemma EnterEvolves(s: State, s1: State, target: nat, args: seq<ObjectArgument>, d: nat)
    requires Ours(s, target) && s.objects[target].kind == Standard && s.objects[target].userData.Some?
    requires Base(s1) && Shallow(s, |s.frames|) && Unpacked(s, s1, |s.frames|, |args|)
    requires s1 == UnpackArguments(s, |s.frames|, args, 0, s.objects[target].queue)
    ensures Evolves(s, DispatchBegin(s, target, args), d, false, false, false)
  {
    var p := Frame(|s.frames|, 0);
    assert UnpackedObject(s, s1, target) && UnpackedSlot(s, s1, |s.frames|, |args|, p);
    var m := BeginTarget(s1, p, target, |args|);
    assert m == DispatchBegin(s, target, args);
    assert OnlyCounted(s, s1, d) && OnlyCounted(s1, Construct(s1, p, target, Standard, None, false), d);
  }

  lemma SettingEvolves(s: State, op: Op, d: nat)
    requires Inv(s) && Enabled(s, op) && Ranked(s)
    requires op.Default? || op.FromC? || op.RawNull? || op.Move? || op.MoveInto?
             || op.NewQueue? || op.CopyQueueVar? || op.DropQueueVar?
    ensures Evolves(s, Step(s, op), d, false, false, false)
  {
    SameDatasEvolve(s, Step(s, op), d, false);
  }

  lemma FieldEvolves(s: State, k: Slot, events: nat, opcode: nat, d: nat)
    requires k in s.slots
    ensures Evolves(s, SetEvents(s, k, events), d, false, false, false)
    ensures Evolves(s, SetDestroyOpcode(s, k, opcode), d, false, false, false)
  {
  }

  lemma CopyEvolves(s: State, k: Slot, j: Slot, d: nat)
    requires j in s.slots
    ensures Evolves(s, CopyConstruct(s, k, j), d, false, false, false)
  {
    AcquireEvolves(s, k, s.slots[j], d, false);
  }

  lemma ReleaseEvolves(s: State, op: Op, d: nat)
    requires Inv(s) && Enabled(s, op) && Ranked(s) && (op.Drop? || op.Empty? || op.End?)
    ensures Evolves(s, Step(s, op), d, false, false, false)
  {
    match op
    case Drop(k) => ReleaseBase(s, User(k)); ShrinksEvolves(s, Release(s, User(k)), d);
    case Empty(k) => ReleaseBase(s, User(k)); ShrinksEvolves(s, Release(s, User(k)), d);
    case End => EndInv(s); ShrinksEvolves(s.(frames := s.frames[..|s.frames| - 1]), DispatchEnd(s), d);
  }

  lemma ConnectEvolves(s: State, k: Slot, junk: Option<nat>, d: nat)
    requires s.nextData !in s.datas
    ensures Evolves(s, Connect(s, k, junk), d, false, false, true)
  {
    var m := CreateObject(s, WrapperType.Display, false, junk, None, None);
    ConstructEvolves(m, k, s.nextObject, WrapperType.Display, None, true, d);
  }

  // The history of a record over one operation.  Counts are lost exactly by
  // overwriting, and a lost count keeps the record for good.  A record comes in step
  // exactly by set_queue or by descent from a display, and stays so.
  lemma StepEvolves(s: State, op: Op, d: nat)
    requires Inv(s) && Enabled(s, op) && Ranked(s) && Safe(s, op)
    ensures Evolves(s, Step(s, op), d, Overwrites(s, op, d), Requeues(s, op, d), Descends(s, op))
  {
    if op.Display? || op.Raw? || op.RawForeign? || op.Request? || op.CreateWrapper? {
      CreationEvolves(s, op, d);
    } else {
      OtherEvolves(s, op, d);
    }
  }

  lemma CreationEvolves(s: State, op: Op, d: nat)
    requires Inv(s) && Enabled(s, op) && Ranked(s) && Safe(s, op)
    requires op.Display? || op.Raw? || op.RawForeign? || op.Request? || op.CreateWrapper?
    ensures Evolves(s, Step(s, op), d, false, false, Descends(s, op))
  {
    FreshKeys(s);
    match op
    case Display(k, junk) => ConnectEvolves(s, User(k), junk, d);
    case Raw(k, o, v) => ConstructEvolves(s, User(k), o, s.objects[o].kind, QueueOf(s, v), false, d);
    case RawForeign(k, o) => ConstructEvolves(s, User(k), o, Foreign, None, false, d);
    case Request(parent, k, junk) => RequestEvolves(s, User(parent), User(k), junk, d);
    case CreateWrapper(j, k) => WrapEvolves(s, User(j), User(k), d);
  }

  lemma OtherEvolves(s: State, op: Op, d: nat)
    requires Inv(s) && Enabled(s, op) && Ranked(s) && Safe(s, op)
    requires !op.Display? && !op.Raw? && !op.RawForeign? && !op.Request? && !op.CreateWrapper?
    ensures Evolves(s, Step(s, op), d, Overwrites(s, op, d), Requeues(s, op, d), false)
  {
    match op
    case Keep(k, i) => CopyEvolves(s, User(k), Frame(|s.frames| - 1, i), d);
    case Copy(k, j) => CopyEvolves(s, User(k), User(j), d);
    case Assign(k, j) =>
      assert SlotOK(s, User(k)) && SlotOK(s, User(j));
      AssignEvolves(s, User(k), User(j), d);
    case Drop(_) => ReleaseEvolves(s, op, d);
    case Empty(_) => ReleaseEvolves(s, op, d);
    case AssignQueue(k, v) => SetQueueEvolves(s, User(k), QueueOf(s, v), d);
    case Events(k, events) => FieldEvolves(s, User(k), events, 0, d);
    case DestroyOpcode(k, opcode) => FieldEvolves(s, User(k), 0, opcode, d);
    case Begin(target, args) => BeginEvolves(s, target, args, d);
    case End => ReleaseEvolves(s, op, d);
    case _ => SettingEvolves(s, op, d);
  }

  // ---------------------------------------------------------------- lost counts

  // Overwriting a counted handle loses a count.
  lemma OverwriteLeaks(s: State, k: nat, j: nat, d: nat)
    requires Inv(s) && Enabled(s, Assign(k, j)) && Ranked(s) && k != j
    requires s.slots[User(k)].data == Some(d) && d in s.datas
    ensures var t := Step(s, Assign(k, j));
      d in t.datas && t.datas[d].leaked == s.datas[d].leaked + 1 && t.datas[d].counter > |Holders(t.slots, d)|
  {
    StepKeepsInv(s, Assign(k, j));
    var t := Step(s, Assign(k, j));
    assert SlotOK(s, User(k)) && SlotOK(s, User(j));
    CopyAssignOverwrites(s, User(k), User(j));
    assert CountedCopy(s, t, d, s.slots[User(j)].data, s.slots[User(k)].data);
    assert DataOK(t, d);
  }

  // From then on, whatever the program does, the record is there, counts for more
  // than its handles, and its object is never destroyed.
  lemma {:induction false} LeakIsForever(s: State, ops: seq<Op>, t: State, d: nat)
    requires Inv(s) && d in s.datas && s.datas[d].leaked > 0
    requires Runs(s, ops, t) && t.mixups == s.mixups
    ensures Inv(t) && d in t.datas && t.datas[d].leaked >= s.datas[d].leaked
    ensures t.datas[d].counter > |Holders(t.slots, d)|
    ensures t.datas[d].obj in t.objects && t.objects[t.datas[d].obj].alive
    decreases |ops|
  {
    RunInvOrFault(s, ops, t);
    if ops != [] {
      var op := ops[|ops| - 1];
      var r := RunSplits(s, ops, t);
      RunInvOrFault(s, ops[..|ops| - 1], r);
      StepWorse(r, op);
      LeakIsForever(s, ops[..|ops| - 1], r, d);
      WasSafe(r, op);
      StepEvolves(r, op, d);
    }
    assert DataOK(t, d);
  }

  // ---------------------------------------------------------- queue agreement

  // Over every run, a proxy that descends from a display by requests and wrapping, or
  // on which set_queue was called, or that descends from such a one, retains exactly
  // the queue libwayland delivers its events to, and that queue is alive.
  lemma QueuesAgree(ops: seq<Op>, s: State, d: nat)
    requires Reaches(ops, s) && s.mixups == 0 && d in s.datas && s.datas[d].inStep
    ensures s.datas[d].obj in s.objects
    ensures s.objects[s.datas[d].obj].queue == s.datas[d].queue
    ensures s.datas[d].queue.Some? ==> s.datas[d].queue.value in s.queues && s.queues[s.datas[d].queue.value]
  {
    RunKeepsInv(ops, s);
    assert DataOK(s, d);
  }

  // set_queue brings a proxy in step whatever it was before.
  lemma SetQueueSyncs(s: State, k: Slot, queue: Option<nat>)
    requires Inv(s) && k in s.slots && s.slots[k].data.Some?
    requires queue.Some? ==> queue.value in s.queues && s.queues[queue.value]
    ensures var t, d := SetQueue(s, k, queue), s.slots[k].data.value;
      d in t.datas && t.datas[d].inStep && t.datas[d].queue == queue
      && t.datas[d].obj in t.objects && t.objects[t.datas[d].obj].queue == queue
  {
    assert SlotOK(s, k);
    assert DataOK(s, s.slots[k].data.value);
  }

  // A proxy made by a request or by wrapping retains the queue it is on exactly when
  // its parent does.
  lemma CreatedAgreesIffParent(s: State, parent: Slot, k: Slot, junk: Option<nat>)
    requires Inv(s) && parent.User? && k.User? && parent in s.slots && k !in s.slots && s.slots[parent].ptr.Some?
    ensures s.slots[parent].ptr.value in s.objects
    ensures var agrees := RetainedQueue(s, s.slots[parent]) == s.objects[s.slots[parent].ptr.value].queue;
      && (Agrees(s, MarshalConstructor(s, parent, k, junk), k) <==> agrees)
      && (s.slots[parent].data.Some? ==> (Agrees(s, Wrap(s, parent, k), k) <==> agrees))
  {
    assert SlotOK(s, parent);
    FreshKeys(s);
    if s.slots[parent].data.Some? {
      assert DataOK(s, s.slots[parent].data.value);
      WrapKeepsNewData(s, parent, k);
    } else {
      assert ObjectOK(s, s.slots[parent].ptr.value);
    }
    RequestKeepsNewData(s, parent, k, junk);
  }

  // In t, slot k has the new record of the new object, and that retains the queue the
  // object is on.
  predicate Agrees(s: State, t: State, k: Slot) {
    MadeFor(s, t, k) && t.datas[s.nextData].queue == t.objects[s.nextObject].queue
  }

  predicate MadeFor(s: State, t: State, k: Slot) {
    && k in t.slots && t.slots[k].data == Some(s.nextData) && s.nextData in t.datas && s.nextObject in t.objects
    && t.datas[s.nextData].obj == s.nextObject
  }

  lemma RequestKeepsNewData(s: State, parent: Slot, k: Slot, junk: Option<nat>)
    requires parent in s.slots && s.slots[parent].ptr.Some? && s.nextData !in s.datas && s.nextObject !in s.objects
    requires s.slots[parent].ptr.value in s.objects && s.objects[s.slots[parent].ptr.value].alive
    ensures var t, h := MarshalConstructor(s, parent, k, junk), s.slots[parent];
      && MadeFor(s, t, k) && t.datas[s.nextData].queue == RetainedQueue(s, h)
      && t.objects[s.nextObject].queue == s.objects[h.ptr.value].queue
  {
    var h := s.slots[parent];
    var queue := s.objects[h.ptr.value].queue;
    ProxySteps.Introduced(s, k, junk, queue, RetainedQueue(s, h), InStep(s, h));
    var m := CreateObject(s, Standard, false, None, queue, None);
    ConstructNew(m, Construct(m, k, s.nextObject, Standard, RetainedQueue(s, h), InStep(s, h)),
                 k, s.nextObject, Standard, RetainedQueue(s, h), InStep(s, h));
  }

  lemma WrapKeepsNewData(s: State, parent: Slot, k: Slot)
    requires Inv(s) && parent.User? && k.User? && parent in s.slots && k !in s.slots && s.slots[parent].data.Some?
    ensures var t, h := Wrap(s, parent, k), s.slots[parent];
      && h.ptr.Some? && h.ptr.value in s.objects
      && MadeFor(s, t, k) && t.datas[s.nextData].queue == RetainedQueue(s, h)
      && t.objects[s.nextObject].queue == s.objects[h.ptr.value].queue
  {
    assert SlotOK(s, parent);
    var h := s.slots[parent];
    assert DataOK(s, h.data.value);
    FreshKeys(s);
    var m := CreateObject(s, ProxyWrapper, false, None, s.objects[h.ptr.value].queue, h.ptr);
    var m2 := Construct(m, k, s.nextObject, ProxyWrapper, RetainedQueue(s, h), InStep(s, h));
    ConstructNew(m, m2, k, s.nextObject, ProxyWrapper, RetainedQueue(s, h), InStep(s, h));
    WrappedEvolves(m2, parent, s.nextData, s.nextData);
    assert Wrap(s, parent, k) == CopyAssign(m2, Wrapped(s.nextData), parent);
  }
}
