// All runs of the client side.
//
// A run is any sequence of the operations a program can perform on its own proxy_t
// and event_queue_t variables, on any of its handles, interleaved in any order with
// dispatches: Begin enters c_dispatcher, the operations up to the matching End are
// the handler's (and may dispatch again), and End leaves it.

module ProxyRuns {
  import opened Common
  import opened Handles
  import opened ProxyState
  import opened ProxyInvariant
  import opened ProxySteps

  datatype Op =
    | Default(k: nat)
    | Display(k: nat, junk: Option<nat>)
    | FromC(kind: WrapperType, foreign: bool, theirs: Option<nat>, queue: Option<nat>)
    | Raw(k: nat, o: nat, queue: Option<nat>)
    | RawNull(k: nat, typ: WrapperType)
    | RawForeign(k: nat, o: nat)
    | Keep(k: nat, argument: nat)
    | Copy(k: nat, j: nat)
    | Assign(k: nat, j: nat)
    | Move(k: nat, j: nat)
    | MoveInto(k: nat, j: nat)
    | Drop(k: nat)
    | Empty(k: nat)
    | Request(parent: nat, k: nat, junk: Option<nat>)
    | CreateWrapper(j: nat, k: nat)
    | AssignQueue(k: nat, queue: Option<nat>)
    | Events(k: nat, events: nat)
    | DestroyOpcode(k: nat, opcode: nat)
    | NewQueue(v: nat)
    | CopyQueueVar(v: nat, w: nat)
    | DropQueueVar(v: nat)
    | Begin(target: nat, args: seq<ObjectArgument>)
    | End

  // A live C proxy of which no other library is the owner.
  predicate Ours(s: State, o: nat) {
    o in s.objects && s.objects[o].alive && !s.objects[o].foreign
  }

  // A proxy the compositor can name in an event.
  predicate Present(s: State, o: nat) {
    o in s.objects && s.objects[o].alive && s.objects[o].kind == Standard
  }

  // What C++ and libwayland require of a caller: a name is declared once and used
  // after that, a C pointer is valid, and a raw pointer is wrapped with the wrapper
  // type it belongs to.  C code may make proxies of any kind, or they may be another
  // library's; what libwayland itself keeps in a display's user data counts as nothing,
  // as no member reads it.  Which objects an event carries is not the caller's choice.
  // A queue is given by the name of a variable.
  predicate Enabled(s: State, op: Op) {
    match op
    case Default(k) => User(k) !in s.slots
    case Display(k, _) => User(k) !in s.slots
    case FromC(kind, foreign, _, _) => kind != Foreign && (foreign ==> kind == Standard)
    case Raw(k, o, v) => User(k) !in s.slots && Ours(s, o) && (v.Some? ==> v.value in s.queueVars)
    case RawNull(k, _) => User(k) !in s.slots
    case RawForeign(k, o) => User(k) !in s.slots && o in s.objects && s.objects[o].foreign
    case Keep(k, i) => User(k) !in s.slots && |s.frames| > 0 && Frame(|s.frames| - 1, i) in s.slots
    case Copy(k, j) => User(k) !in s.slots && User(j) in s.slots
    case Assign(k, j) => User(k) in s.slots && User(j) in s.slots
    case Move(k, j) => User(k) !in s.slots && User(j) in s.slots
    case MoveInto(k, j) => User(k) in s.slots && User(j) in s.slots
    case Drop(k) => User(k) in s.slots
    case Empty(k) => User(k) in s.slots
    case Request(parent, k, _) => User(parent) in s.slots && User(k) !in s.slots
    case CreateWrapper(j, k) =>
      && User(j) in s.slots && User(k) !in s.slots
      && (s.slots[User(j)].ptr.Some? ==> s.slots[User(j)].data.Some?)
    case AssignQueue(k, v) => User(k) in s.slots && (v.Some? ==> v.value in s.queueVars)
    case Events(k, _) => User(k) in s.slots
    case DestroyOpcode(k, _) => User(k) in s.slots
    case NewQueue(v) => v !in s.queueVars
    case CopyQueueVar(v, w) => v in s.queueVars && w !in s.queueVars
    case DropQueueVar(v) => v in s.queueVars
    case Begin(target, args) =>
      && Ours(s, target) && s.objects[target].kind == Standard
      && (forall i | 0 <= i < |args| && args[i].Existing? :: Present(s, args[i].obj))
    case End => |s.frames| > 0
  }

  // Some argument is another library's proxy.
  predicate Carries(s: State, args: seq<ObjectArgument>) {
    exists i | 0 <= i < |args| :: args[i].Existing? && Foreigner(s, args[i].obj)
  }

  // Every operation but two: the dispatch, to a proxy it knows, of an event that carries
  // another library's proxy, and constructing a handle for a display that has a record.
  predicate Safe(s: State, op: Op) {
    match op
    case Begin(target, args) => target in s.objects && s.objects[target].userData.Some? ==> !Carries(s, args)
    case Raw(_, o, _) => o in s.objects && s.objects[o].kind == WrapperType.Display ==> s.objects[o].userData.None?
    case _ => true
  }

  // The operations that make an object or construct a handle for one.
  predicate Creates(op: Op) {
    op.Display? || op.FromC? || op.Raw? || op.RawNull? || op.RawForeign? || op.Request? || op.CreateWrapper?
  }

  // Those that touch fields and queues only.
  predicate Sets(op: Op) {
    op.AssignQueue? || op.Events? || op.DestroyOpcode? || op.NewQueue? || op.CopyQueueVar? || op.DropQueueVar?
  }

  // Those that copy, move or give up handles.
  predicate MovesHandles(op: Op) {
    op.Default? || op.Keep? || op.Copy? || op.Assign? || op.Move? || op.MoveInto? || op.Drop? || op.Empty?
  }

  // The queue a variable of the program refers to.
  function QueueOf(s: State, v: Option<nat>): Option<nat>
    requires v.Some? ==> v.value in s.queueVars
  {
    if v.Some? then s.queueVars[v.value] else None
  }

  function Step(s: State, op: Op): State
    requires Enabled(s, op) && Ranked(s)
  {
    match op
    case Default(k) => s.(slots := s.slots[User(k) := EMPTY])
    case Display(k, junk) => Connect(s, User(k), junk)
    case FromC(kind, foreign, theirs, queue) =>
      CreateObject(s, kind, foreign, if foreign then theirs else None, queue, None)
    case Raw(k, o, v) => ConstructRaw(s, User(k), o, QueueOf(s, v))
    case RawNull(k, typ) => s.(slots := s.slots[User(k) := Handle(None, None, typ)])
    case Keep(k, i) => CopyConstruct(s, User(k), Frame(|s.frames| - 1, i))
    case RawForeign(k, o) => Construct(s, User(k), o, Foreign, None, false)
    case Copy(k, j) => CopyConstruct(s, User(k), User(j))
    case Assign(k, j) => CopyAssign(s, User(k), User(j))
    case Move(k, j) => MoveConstruct(s, User(k), User(j))
    case MoveInto(k, j) => MoveAssign(s, User(k), User(j))
    case Drop(k) => Destroy(s, User(k))
    case Empty(k) => Release(s, User(k))
    case Request(parent, k, junk) => MarshalConstructor(s, User(parent), User(k), junk)
    case CreateWrapper(j, k) => Wrap(s, User(j), User(k))
    case AssignQueue(k, v) => SetQueue(s, User(k), QueueOf(s, v))
    case Events(k, events) => SetEvents(s, User(k), events)
    case DestroyOpcode(k, opcode) => SetDestroyOpcode(s, User(k), opcode)
    case NewQueue(v) => CreateQueue(s, v)
    case CopyQueueVar(v, w) => s.(queueVars := s.queueVars[w := s.queueVars[v]])
    case DropQueueVar(v) => ProxyState.DropQueueVar(s, v)
    case Begin(target, args) => DispatchBegin(s, target, args)
    case End => DispatchEnd(s)
  }

  // ------------------------------------------------------------------- frames

  // An operation that touches no dispatcher's locals keeps the frames in order.
  ghost predicate Gentle(s: State, t: State) {
    && t.frames == s.frames && t.mixups == s.mixups
    && (forall k: Slot {:trigger SameSlot(s, t, k)} | k.Frame? :: SameSlot(s, t, k))
    && (forall d: nat {:trigger SameSource(s, t, d)} :: SameSource(s, t, d))
  }

  ghost predicate SameSlot(s: State, t: State, k: Slot) {
    (k in t.slots <==> k in s.slots) && (k in s.slots ==> t.slots[k] == s.slots[k])
  }

  ghost predicate SameSource(s: State, t: State, d: nat) {
    d in s.datas && d in t.datas ==>
      && t.datas[d].obj == s.datas[d].obj
      && (s.datas[d].events.Some? ==> t.datas[d].events == s.datas[d].events)
  }

  lemma GentleFrames(s: State, t: State)
    requires FramesOK(s) && Core(t) && Gentle(s, t)
    ensures FramesOK(t)
  {
    forall i | 0 <= i < |t.frames| ensures FrameOK(t, i) {
      assert FrameOK(s, i);
      forall j | 0 < j <= t.frames[i].arguments ensures Frame(i, j) in t.slots {
        assert SameSlot(s, t, Frame(i, j));
      }
      assert SameSlot(s, t, Frame(i, 0)) && SameSource(s, t, s.frames[i].data);
      assert SlotOK(t, Frame(i, 0));
    }
    forall i: nat, j: nat | Frame(i, j) in t.slots ensures i < |t.frames| && j <= t.frames[i].arguments {
      assert SameSlot(s, t, Frame(i, j));
    }
  }

  // ------------------------------------------------- each operation keeps Base

  lemma StepBase(s: State, op: Op)
    requires Base(s) && Enabled(s, op) && Ranked(s) && Safe(s, op) && !op.Begin? && !op.End?
    ensures Base(Step(s, op))
  {
    if Creates(op) {
      CreationBase(s, op);
    } else if Sets(op) {
      SettingBase(s, op);
    } else {
      HandleBase(s, op);
    }
  }

  lemma CreationBase(s: State, op: Op)
    requires Base(s) && Enabled(s, op) && Ranked(s) && Safe(s, op)
    requires Creates(op)
    ensures Base(Step(s, op))
  {
    match op
    case Display(k, junk) => ConnectBase(s, User(k), junk);
    case FromC(kind, foreign, theirs, queue) =>
      CreateObjectBase(s, kind, foreign, if foreign then theirs else None, queue, None);
    case Raw(k, o, v) => RawBase(s, User(k), o, s.objects[o].kind, QueueOf(s, v));
    case RawNull(k, typ) => UncountedBase(s, User(k), Handle(None, None, typ));
    case RawForeign(k, o) => UncountedBase(s, User(k), Handle(Some(o), None, Foreign));
    case Request(parent, k, junk) => RequestBase(s, User(parent), User(k), junk);
    case CreateWrapper(j, k) => WrapBase(s, User(j), User(k));
  }

  // A handle for an object of ours: a display without a record, or any other object.
  lemma RawBase(s: State, k: Slot, o: nat, kind: WrapperType, queue: Option<nat>)
    requires Base(s) && k !in s.slots && !k.Wrapped? && Ours(s, o) && s.objects[o].kind == kind
    requires kind == WrapperType.Display ==> s.objects[o].userData.None?
    requires queue.Some? ==> queue.value in s.queues && s.queues[queue.value]
    ensures Base(Construct(s, k, o, kind, queue, false))
  {
    assert ObjectOK(s, o);
    if s.objects[o].userData.Some? {
      ConstructAgainBase(s, k, o, queue, false);
    } else {
      ConstructBase(s, k, o, kind, queue, false);
    }
  }

  lemma SettingBase(s: State, op: Op)
    requires Base(s) && Enabled(s, op) && Ranked(s)
    requires Sets(op)
    ensures Base(Step(s, op))
  {
    match op
    case AssignQueue(k, v) => SetQueueBase(s, User(k), QueueOf(s, v));
    case Events(k, events) => EventsBase(s, User(k), events);
    case DestroyOpcode(k, opcode) => OpcodeBase(s, User(k), opcode);
    case NewQueue(v) => CreateQueueBase(s, v);
    case CopyQueueVar(v, w) => QueueVarsBase(s, s.(queueVars := s.queueVars[w := s.queueVars[v]]));
    case DropQueueVar(v) => DropVarBase(s, v);
  }

  lemma DropVarBase(s: State, v: nat)
    requires Base(s) && v in s.queueVars
    ensures Base(ProxyState.DropQueueVar(s, v))
  {
    QueueVarsBase(s, s.(queueVars := s.queueVars - {v}));
    DropQueueBase(s.(queueVars := s.queueVars - {v}), s.queueVars[v]);
  }

  lemma EventsBase(s: State, k: Slot, events: nat)
    requires Base(s) && k in s.slots
    ensures Base(SetEvents(s, k, events))
  {
    assert SlotOK(s, k);
    if s.slots[k].data.Some? {
      assert DataOK(s, s.slots[k].data.value);
      DataFieldBase(s, SetEvents(s, k, events), s.slots[k].data.value);
    }
  }

  lemma OpcodeBase(s: State, k: Slot, opcode: nat)
    requires Base(s) && k in s.slots
    ensures Base(SetDestroyOpcode(s, k, opcode))
  {
    assert SlotOK(s, k);
    if s.slots[k].data.Some? {
      assert DataOK(s, s.slots[k].data.value);
      DataFieldBase(s, SetDestroyOpcode(s, k, opcode), s.slots[k].data.value);
    }
  }

  lemma HandleBase(s: State, op: Op)
    requires Base(s) && Enabled(s, op) && Ranked(s)
    requires MovesHandles(op)
    ensures Base(Step(s, op))
  {
    match op
    case Default(k) => UncountedBase(s, User(k), EMPTY);
    case Keep(k, i) => CopyBase(s, User(k), Frame(|s.frames| - 1, i));
    case Copy(k, j) => CopyBase(s, User(k), User(j));
    case Assign(k, j) => AssignBase(s, User(k), User(j));
    case Move(k, j) =>
      UncountedBase(s, User(k), EMPTY);
      MoveBase(s.(slots := s.slots[User(k) := EMPTY]), User(k), User(j));
    case MoveInto(k, j) => MoveBase(s, User(k), User(j));
    case Drop(k) => DestroyBase(s, User(k));
    case Empty(k) => ReleaseBase(s, User(k));
  }

  lemma CopyBase(s: State, k: Slot, j: Slot)
    requires Base(s) && k !in s.slots && j in s.slots && !k.Wrapped?
    ensures Base(CopyConstruct(s, k, j))
  {
    assert SlotOK(s, j);
    if Copyable(s.slots[j]) {
      AcquireOverwrites(s, k, s.slots[j]);
      OverwrittenBase(s, Acquire(s, k, s.slots[j]), k, s.slots[j]);
    }
  }

  lemma AssignBase(s: State, k: Slot, j: Slot)
    requires Base(s) && k in s.slots && j in s.slots && !k.Wrapped?
    ensures Base(CopyAssign(s, k, j))
  {
    if k != j {
      assert SlotOK(s, k) && SlotOK(s, j);
      CopyAssignOverwrites(s, k, j);
      OverwrittenBase(s, CopyAssign(s, k, j), k, s.slots[j]);
    }
  }

  // ---------------------------------------------- each operation keeps frames

  lemma StepGentle(s: State, op: Op)
    requires Base(s) && Enabled(s, op) && Ranked(s) && Safe(s, op) && !op.Begin? && !op.End?
    ensures Gentle(s, Step(s, op))
  {
    if Creates(op) {
      CreationGentle(s, op);
    } else if Sets(op) {
      SettingGentle(s, op);
    } else {
      HandleGentle(s, op);
    }
  }

  lemma CreationGentle(s: State, op: Op)
    requires Base(s) && Enabled(s, op) && Ranked(s) && Safe(s, op)
    requires Creates(op)
    ensures Gentle(s, Step(s, op))
  {
    FreshKeys(s);
    match op
    case Display(k, junk) => DisplayGentle(s, User(k), junk);
    case FromC(_, _, _, _) =>
    case Raw(k, o, v) => ConstructGentle(s, User(k), o, s.objects[o].kind, QueueOf(s, v), false);
    case RawNull(k, _) => SlotGentle(s, Step(s, op), User(k));
    case RawForeign(k, o) => ConstructGentle(s, User(k), o, Foreign, None, false);
    case Request(parent, k, junk) =>
      assert SlotOK(s, User(parent));
      assert s.slots[User(parent)].data.Some? ==> DataOK(s, s.slots[User(parent)].data.value);
      RequestGentle(s, User(parent), User(k), junk);
    case CreateWrapper(j, k) =>
      assert SlotOK(s, User(j));
      WrapGentle(s, User(j), User(k));
  }

  lemma SettingGentle(s: State, op: Op)
    requires Base(s) && Enabled(s, op) && Ranked(s)
    requires Sets(op)
    ensures Gentle(s, Step(s, op))
  {
    match op
    case AssignQueue(k, v) => SetQueueGentle(s, User(k), QueueOf(s, v));
    case Events(k, events) => FieldGentle(s, User(k), events, 0);
    case DestroyOpcode(k, opcode) => FieldGentle(s, User(k), 0, opcode);
    case NewQueue(v) => SameMemoryGentle(s, CreateQueue(s, v));
    case CopyQueueVar(v, w) => SameMemoryGentle(s, s.(queueVars := s.queueVars[w := s.queueVars[v]]));
    case DropQueueVar(v) => DropVarGentle(s, v);
  }

  lemma DropVarGentle(s: State, v: nat)
    requires v in s.queueVars
    ensures Gentle(s, ProxyState.DropQueueVar(s, v))
  {
    SameMemoryGentle(s, ProxyState.DropQueueVar(s, v));
  }

  lemma SameMemoryGentle(s: State, t: State)
    requires t.slots == s.slots && t.datas == s.datas && t.frames == s.frames && t.mixups == s.mixups
    ensures Gentle(s, t)
  {
  }

  lemma HandleGentle(s: State, op: Op)
    requires Base(s) && Enabled(s, op) && Ranked(s)
    requires MovesHandles(op)
    ensures Gentle(s, Step(s, op))
  {
    match op
    case Default(k) =>
    case Keep(k, i) => CopyGentle(s, User(k), Frame(|s.frames| - 1, i));
    case Copy(k, j) => CopyGentle(s, User(k), User(j));
    case Assign(k, j) =>
      assert SlotOK(s, User(k)) && SlotOK(s, User(j));
      AssignGentle(s, User(k), User(j));
    case Move(k, j) => MoveGentle(s, User(k), User(j));
    case MoveInto(k, j) => MoveGentle(s, User(k), User(j));
    case Drop(k) => ReleaseBase(s, User(k)); ShrinksGentle(s, Release(s, User(k)), User(k));
    case Empty(k) => ReleaseBase(s, User(k)); ShrinksGentle(s, Release(s, User(k)), User(k));
  }

  lemma ShrinksGentle(s: State, t: State, k: Slot)
    requires k.User? && Shrinks(s, t, k)
    ensures Gentle(s, t) && Gentle(s, t.(slots := t.slots - {k}))
  {
  }

  // Two gentle operations in a row, the first of which deletes no record.
  lemma GentleTrans(s: State, m: State, t: State)
    requires Gentle(s, m) && Gentle(m, t) && (forall d | d in s.datas :: d in m.datas)
    ensures Gentle(s, t)
  {
    forall k: Slot | k.Frame? ensures SameSlot(s, t, k) { assert SameSlot(s, m, k) && SameSlot(m, t, k); }
    forall d: nat ensures SameSource(s, t, d) { assert SameSource(s, m, d) && SameSource(m, t, d); }
  }

  lemma DisplayGentle(s: State, k: Slot, junk: Option<nat>)
    requires k.User? && k !in s.slots && s.nextData !in s.datas
    ensures Gentle(s, Connect(s, k, junk))
  {
    var m := CreateObject(s, WrapperType.Display, false, junk, None, None);
    ConstructGentle(m, k, s.nextObject, WrapperType.Display, None, true);
    GentleTrans(s, m, Connect(s, k, junk));
  }

  lemma ConstructGentle(s: State, k: Slot, o: nat, typ: WrapperType, queue: Option<nat>, inStep: bool)
    requires !k.Frame? && o in s.objects && s.nextData !in s.datas
    ensures Gentle(s, Construct(s, k, o, typ, queue, inStep))
    ensures forall d | d in s.datas :: d in Construct(s, k, o, typ, queue, inStep).datas
  {
    if typ == Foreign {
      SlotGentle(s, Construct(s, k, o, typ, queue, inStep), k);
    } else if typ != WrapperType.Display && s.objects[o].userData.Some? {
      ConstructFoundGentle(s, k, o, typ, queue, inStep);
    } else {
      ConstructNewGentle(s, k, o, typ, queue, inStep);
    }
  }

  lemma ConstructFoundGentle(s: State, k: Slot, o: nat, typ: WrapperType, queue: Option<nat>, inStep: bool)
    requires !k.Frame? && o in s.objects && typ != Foreign && typ != WrapperType.Display && s.objects[o].userData.Some?
    ensures var t := Construct(s, k, o, typ, queue, inStep);
      Gentle(s, t) && (forall d | d in s.datas :: d in t.datas)
  {
    if s.objects[o].foreign {
      SameMemoryGentle(s, Construct(s, k, o, typ, queue, inStep));
    } else {
      AcquireGentle(s, k, Handle(Some(o), s.objects[o].userData, typ));
    }
  }

  lemma ConstructNewGentle(s: State, k: Slot, o: nat, typ: WrapperType, queue: Option<nat>, inStep: bool)
    requires !k.Frame? && o in s.objects && s.nextData !in s.datas && typ != Foreign
    requires typ == WrapperType.Display || s.objects[o].userData.None?
    ensures var t := Construct(s, k, o, typ, queue, inStep);
      Gentle(s, t) && (forall d | d in s.datas :: d in t.datas)
  {
    NewGentle(s, Construct(s, k, o, typ, queue, inStep), k, Handle(Some(o), Some(s.nextData), typ));
  }

  lemma SlotGentle(s: State, t: State, k: Slot)
    requires !k.Frame? && k in t.slots && t.slots == s.slots[k := t.slots[k]]
    requires t.datas == s.datas && t.frames == s.frames && t.mixups == s.mixups
    ensures Gentle(s, t)
  {
  }

  lemma AcquireGentle(s: State, k: Slot, h: ProxyHandle)
    requires !k.Frame?
    ensures Gentle(s, Acquire(s, k, h)) && (forall d | d in s.datas :: d in Acquire(s, k, h).datas)
  {
    var t := Acquire(s, k, h);
    if h.data.Some? && h.data.value in s.datas {
      CountGentle(s, t, k, h, h.data.value);
    } else {
      SlotGentle(s, t, k);
    }
  }

  lemma CountGentle(s: State, t: State, k: Slot, h: ProxyHandle, d: nat)
    requires !k.Frame? && t.slots == s.slots[k := h] && d in s.datas
    requires t.datas == s.datas[d := s.datas[d].(counter := s.datas[d].counter + 1)]
    requires t.frames == s.frames && t.mixups == s.mixups
    ensures Gentle(s, t)
  {
  }

  lemma NewGentle(s: State, t: State, k: Slot, h: ProxyHandle)
    requires !k.Frame? && s.nextData !in s.datas && s.nextData in t.datas
    requires t.slots == s.slots[Wrapped(s.nextData) := EMPTY][k := h]
    requires t.datas == s.datas[s.nextData := t.datas[s.nextData]]
    requires t.frames == s.frames && t.mixups == s.mixups
    ensures Gentle(s, t)
  {
  }

  lemma CopyGentle(s: State, k: Slot, j: Slot)
    requires k.User? && j in s.slots
    ensures Gentle(s, CopyConstruct(s, k, j))
  {
    AcquireGentle(s, k, s.slots[j]);
  }

  lemma AssignGentle(s: State, k: Slot, j: Slot)
    requires !k.Frame? && k in s.slots && j in s.slots && SlotOK(s, k) && SlotOK(s, j)
    ensures Gentle(s, CopyAssign(s, k, j))
  {
    if k != j {
      CopyAssignOverwrites(s, k, j);
      OverwrittenGentle(s, CopyAssign(s, k, j), k, s.slots[j]);
    }
  }

  lemma OverwrittenGentle(s: State, t: State, k: Slot, h: ProxyHandle)
    requires !k.Frame? && Overwritten(s, t, k, h)
    ensures Gentle(s, t)
  {
    forall d: nat ensures SameSource(s, t, d) {
      assert d in s.datas ==> CountedCopy(s, t, d, h.data, if k in s.slots then s.slots[k].data else None);
    }
  }

  lemma MoveGentle(s: State, k: Slot, j: Slot)
    requires k.User? && j.User? && j in s.slots
    ensures Gentle(s, MoveConstruct(s, k, j)) && (k in s.slots ==> Gentle(s, MoveAssign(s, k, j)))
  {
  }

  lemma SetQueueGentle(s: State, k: Slot, queue: Option<nat>)
    requires k in s.slots
    ensures Gentle(s, SetQueue(s, k, queue))
  {
    var t := SetQueue(s, k, queue);
    assert t.slots == s.slots && t.frames == s.frames && t.mixups == s.mixups;
    if t.datas != s.datas {
      FieldsGentle(s, t, s.slots[k].data.value);
    } else {
      SameMemoryGentle(s, t);
    }
  }

  lemma FieldsGentle(s: State, t: State, d: nat)
    requires t.slots == s.slots && t.frames == s.frames && t.mixups == s.mixups
    requires d in s.datas && d in t.datas && t.datas == s.datas[d := t.datas[d]] && t.datas[d].obj == s.datas[d].obj
    requires s.datas[d].events.Some? ==> t.datas[d].events == s.datas[d].events
    ensures Gentle(s, t)
  {
    forall e: nat ensures SameSource(s, t, e) {
    }
  }

  lemma FieldGentle(s: State, k: Slot, events: nat, opcode: nat)
    requires k in s.slots
    ensures Gentle(s, SetEvents(s, k, events)) && Gentle(s, SetDestroyOpcode(s, k, opcode))
  {
  }

  lemma RequestGentle(s: State, parent: Slot, k: Slot, junk: Option<nat>)
    requires k.User? && parent in s.slots && k !in s.slots && s.nextData !in s.datas
    requires s.slots[parent].ptr.Some? ==> s.slots[parent].ptr.value in s.objects
    ensures Gentle(s, MarshalConstructor(s, parent, k, junk))
  {
    var h := s.slots[parent];
    if h.ptr.Some? && s.objects[h.ptr.value].alive {
      IntroduceGentle(s, k, junk, s.objects[h.ptr.value].queue, RetainedQueue(s, h), InStep(s, h));
    } else {
      SameMemoryGentle(s, MarshalConstructor(s, parent, k, junk));
    }
  }

  lemma IntroduceGentle(s: State, k: Slot, junk: Option<nat>, queue: Option<nat>, retained: Option<nat>, inStep: bool)
    requires k.User? && s.nextData !in s.datas
    ensures Gentle(s, Introduce(s, k, junk, queue, retained, inStep))
  {
    var m := SetUserData(CreateObject(s, Standard, false, junk, queue, None), s.nextObject, None);
    ConstructGentle(m, k, s.nextObject, Standard, retained, inStep);
    SameMemoryGentle(s, m);
    GentleTrans(s, m, Introduce(s, k, junk, queue, retained, inStep));
  }

  lemma WrapGentle(s: State, j: Slot, k: Slot)
    requires Core(s) && k.User? && j.User? && j in s.slots && k !in s.slots && SlotOK(s, j)
    requires s.slots[j].ptr.Some? ==> s.slots[j].data.Some?
    ensures Gentle(s, Wrap(s, j, k))
  {
    var h := s.slots[j];
    if h.ptr.Some? && h.ptr.value in s.objects && s.objects[h.ptr.value].alive {
      FreshKeys(s);
      var o, d := s.nextObject, s.nextData;
      var m := CreateObject(s, ProxyWrapper, false, None, s.objects[h.ptr.value].queue, h.ptr);
      ConstructGentle(m, k, o, ProxyWrapper, RetainedQueue(s, h), InStep(s, h));
      var m2 := Construct(m, k, o, ProxyWrapper, RetainedQueue(s, h), InStep(s, h));
      GentleTrans(s, m, m2);
      ConstructNew(m, m2, k, o, ProxyWrapper, RetainedQueue(s, h), InStep(s, h));
      AssignGentle(m2, Wrapped(d), j);
      GentleTrans(s, m2, Wrap(s, j, k));
    }
  }

  lemma StepInv(s: State, op: Op)
    requires Inv(s) && Enabled(s, op) && Ranked(s) && Safe(s, op) && !op.Begin? && !op.End?
    ensures Inv(Step(s, op)) && Step(s, op).mixups == s.mixups
  {
    StepBase(s, op);
    StepGentle(s, op);
    GentleFrames(s, Step(s, op));
  }

  // ----------------------------------------------------------------- dispatch

  // Unpacking arguments only adds: the dispatcher's own handles, and records and
  // objects for what it found.
  ghost predicate Unpacked(s: State, t: State, depth: nat, n: nat) {
    && t.frames == s.frames && t.queueVars == s.queueVars && t.queues == s.queues
    && (forall k: Slot {:trigger UnpackedSlot(s, t, depth, n, k)} :: UnpackedSlot(s, t, depth, n, k))
    && (forall d: nat {:trigger OnlyCounted(s, t, d)} :: OnlyCounted(s, t, d))
    && (forall o: nat {:trigger UnpackedObject(s, t, o)} :: UnpackedObject(s, t, o))
    && t.overwrites == s.overwrites && t.mixups == s.mixups
  }

  ghost predicate UnpackedSlot(s: State, t: State, depth: nat, n: nat, k: Slot) {
    && (k in s.slots ==> k in t.slots && t.slots[k] == s.slots[k])
    && (k in t.slots && k !in s.slots ==> k.Wrapped? || (k.Frame? && k.depth == depth && 0 < k.index <= n))
    && (k.Frame? && k.depth == depth && 0 < k.index <= n ==> k in t.slots)
  }

  // Old records are only counted; new ones are those of standard proxies.
  ghost predicate OnlyCounted(s: State, t: State, d: nat) {
    && (d in s.datas ==> d in t.datas && t.datas[d] == s.datas[d].(counter := t.datas[d].counter))
    && (d in t.datas && d !in s.datas ==> t.datas[d].typ == Standard && t.datas[d].leaked == 0 && !t.datas[d].inStep)
  }

  ghost predicate UnpackedObject(s: State, t: State, o: nat) {
    && (o in s.objects ==>
          && o in t.objects
          && t.objects[o] == s.objects[o].(userData := t.objects[o].userData)
          && (s.objects[o].userData.Some? ==> t.objects[o].userData == s.objects[o].userData))
    && (o in t.objects && o !in s.objects ==> t.objects[o].userData.Some? && !t.objects[o].foreign)
  }

  // The arguments an event may carry without harm.
  predicate Harmless(s: State, args: seq<ObjectArgument>) {
    forall i {:trigger HarmlessOne(s, args[i])} | 0 <= i < |args| :: HarmlessOne(s, args[i])
  }

  predicate HarmlessOne(s: State, a: ObjectArgument) {
    a.Existing? ==> Ours(s, a.obj) && s.objects[a.obj].kind == Standard
  }

  // The locals of a dispatcher at this depth do not exist yet.
  predicate Shallow(s: State, depth: nat) {
    forall k | k in s.slots && k.Frame? :: k.depth < depth
  }

  lemma FramesShallow(s: State)
    requires FramesOK(s)
    ensures Shallow(s, |s.frames|)
  {
    assert forall k | k in s.slots && k.Frame? :: Frame(k.depth, k.index) in s.slots;
  }

  lemma UnpackBase(s: State, depth: nat, args: seq<ObjectArgument>, queue: Option<nat>)
    requires Base(s) && Shallow(s, depth) && Harmless(s, args)
    ensures var t := UnpackArguments(s, depth, args, 0, queue); Base(t) && Unpacked(s, t, depth, |args|)
  {
    UnpackNone(s, depth);
    UnpackFrom(s, s, depth, args, 0, queue);
  }

  lemma UnpackNone(s: State, depth: nat)
    ensures Unpacked(s, s, depth, 0)
  {
  }

  lemma {:induction false} UnpackFrom(s0: State, s: State, depth: nat, args: seq<ObjectArgument>, i: nat,
                                      queue: Option<nat>)
    requires Base(s) && Unpacked(s0, s, depth, i) && Shallow(s0, depth) && Harmless(s0, args) && i <= |args|
    ensures var t := UnpackArguments(s, depth, args, i, queue); Base(t) && Unpacked(s0, t, depth, |args|)
    decreases |args| - i
  {
    if i < |args| {
      assert HarmlessOne(s0, args[i]);
      UnpackMore(s0, s, depth, i, args[i], queue);
      UnpackFrom(s0, UnpackArgument(s, Frame(depth, i + 1), args[i], queue), depth, args, i + 1, queue);
    }
  }

  // One argument more.
  lemma UnpackMore(s: State, m: State, depth: nat, n: nat, a: ObjectArgument, queue: Option<nat>)
    requires Base(m) && Unpacked(s, m, depth, n) && HarmlessOne(s, a)
    requires Shallow(s, depth)
    ensures var t := UnpackArgument(m, Frame(depth, n + 1), a, queue);
      Base(t) && Unpacked(s, t, depth, n + 1)
  {
    assert UnpackedSlot(s, m, depth, n, Frame(depth, n + 1));
    assert a.Existing? ==> UnpackedObject(s, m, a.obj);
    UnpackOne(s, m, depth, n, a, queue);
  }

  lemma UnpackOne(s: State, m: State, depth: nat, n: nat, a: ObjectArgument, queue: Option<nat>)
    requires Base(m) && Unpacked(s, m, depth, n) && Frame(depth, n + 1) !in m.slots && HarmlessOne(m, a)
    ensures var t := UnpackArgument(m, Frame(depth, n + 1), a, queue);
      Base(t) && Unpacked(s, t, depth, n + 1)
  {
    UnpackOneBase(m, Frame(depth, n + 1), a, queue);
    UnpackOneGrows(m, Frame(depth, n + 1), a, queue);
    UnpackedStep(s, m, UnpackArgument(m, Frame(depth, n + 1), a, queue), depth, n);
  }

  lemma UnpackOneBase(s: State, k: Slot, a: ObjectArgument, queue: Option<nat>)
    requires Base(s) && k.Frame? && k !in s.slots && HarmlessOne(s, a)
    ensures Base(UnpackArgument(s, k, a, queue))
  {
    match a
    case NullObject => UncountedBase(s, k, EMPTY);
    case Existing(o) => RawBase(s, k, o, Standard, None);
    case Introduced(junk) => IntroduceBase(s, k, junk, queue, None, false);
  }

  // One argument adds its own slot.
  ghost predicate Grows(s: State, t: State, k: Slot) {
    && t.frames == s.frames && t.queueVars == s.queueVars && t.queues == s.queues
    && (forall j | j in s.slots :: j in t.slots && t.slots[j] == s.slots[j])
    && (forall j | j in t.slots && j !in s.slots :: j.Wrapped? || j == k)
    && k in t.slots
    && (forall d: nat {:trigger OnlyCounted(s, t, d)} :: OnlyCounted(s, t, d))
    && (forall o: nat {:trigger UnpackedObject(s, t, o)} :: UnpackedObject(s, t, o))
    && t.overwrites == s.overwrites && t.mixups == s.mixups
  }

  lemma UnpackOneGrows(s: State, k: Slot, a: ObjectArgument, queue: Option<nat>)
    requires Base(s) && k.Frame? && k !in s.slots && HarmlessOne(s, a)
    ensures Grows(s, UnpackArgument(s, k, a, queue), k)
  {
    FreshKeys(s);
    match a
    case NullObject =>
    case Existing(o) =>
      assert ObjectOK(s, o);
      ConstructGrows(s, k, o);
    case Introduced(junk) =>
      IntroduceGrows(s, k, junk, queue);
  }

  lemma IntroduceGrows(s: State, k: Slot, junk: Option<nat>, queue: Option<nat>)
    requires k.Frame? && k !in s.slots && s.nextObject !in s.objects
    requires s.nextData !in s.datas && Wrapped(s.nextData) !in s.slots
    ensures Grows(s, UnpackArgument(s, k, Introduced(junk), queue), k)
  {
    var clean := CreateObject(s, Standard, false, None, queue, None);
    ProxySteps.Introduced(s, k, junk, queue, None, false);
    ConstructGrows(clean, k, s.nextObject);
    CreatedGrows(s, clean, Construct(clean, k, s.nextObject, Standard, None, false), k);
  }

  // A new object that is given its record counts as grown, not only the record.
  lemma CreatedGrows(s: State, m: State, t: State, k: Slot)
    requires s.nextObject !in s.objects && Grows(m, t, k)
    requires m == s.(objects := m.objects, nextObject := m.nextObject) && s.nextObject in m.objects
    requires m.objects == s.objects[s.nextObject := m.objects[s.nextObject]]
    requires s.nextObject in t.objects && t.objects[s.nextObject].userData.Some? && !m.objects[s.nextObject].foreign
    ensures Grows(s, t, k)
  {
    forall d: nat ensures OnlyCounted(s, t, d) { assert OnlyCounted(m, t, d); }
    forall p: nat ensures UnpackedObject(s, t, p) { assert UnpackedObject(m, t, p); }
  }

  lemma ConstructGrows(s: State, k: Slot, o: nat)
    requires k.Frame? && k !in s.slots && o in s.objects && s.objects[o].alive && !s.objects[o].foreign
    requires s.nextData !in s.datas && Wrapped(s.nextData) !in s.slots
    requires s.objects[o].userData.Some? ==> s.objects[o].userData.value in s.datas
    ensures var t := Construct(s, k, o, Standard, None, false);
      Grows(s, t, k) && o in t.objects && t.objects[o].userData.Some?
  {
    var t := Construct(s, k, o, Standard, None, false);
    match s.objects[o].userData {
      case None =>
        assert Constructed(s, t, k, o, Standard, None, false);
        ConstructedGrows(s, t, k, o);
      case Some(d) => AcquiredGrows(s, t, k, d);
    }
  }

  lemma ConstructedGrows(s: State, t: State, k: Slot, o: nat)
    requires o in s.objects && s.objects[o].userData.None? && k !in s.slots && k.Frame?
    requires s.nextData !in s.datas && Wrapped(s.nextData) !in s.slots
    requires Constructed(s, t, k, o, Standard, None, false)
    ensures Grows(s, t, k)
  {
  }

  lemma AcquiredGrows(s: State, t: State, k: Slot, d: nat)
    requires d in s.datas && k !in s.slots && k.Frame? && k in t.slots
    requires t == s.(slots := s.slots[k := t.slots[k]],
                     datas := s.datas[d := s.datas[d].(counter := s.datas[d].counter + 1)])
    ensures Grows(s, t, k)
  {
  }

  lemma UnpackedStep(s: State, m: State, t: State, depth: nat, n: nat)
    requires Unpacked(s, m, depth, n) && Grows(m, t, Frame(depth, n + 1))
    ensures Unpacked(s, t, depth, n + 1)
  {
    var more := n + 1;
    forall k: Slot ensures UnpackedSlot(s, t, depth, more, k) { assert UnpackedSlot(s, m, depth, n, k); }
    forall d: nat ensures OnlyCounted(s, t, d) { assert OnlyCounted(s, m, d) && OnlyCounted(m, t, d); }
    forall o: nat ensures UnpackedObject(s, t, o) { assert UnpackedObject(s, m, o) && UnpackedObject(m, t, o); }
  }

  // What libwayland and the compositor guarantee, and that no argument is foreign, is
  // what the dispatcher needs.
  lemma SafeIsHarmless(s: State, args: seq<ObjectArgument>)
    requires forall i | 0 <= i < |args| && args[i].Existing? :: Present(s, args[i].obj)
    ensures Harmless(s, args) <==> !Carries(s, args)
  {
    if Harmless(s, args) {
      forall i | 0 <= i < |args| ensures !(args[i].Existing? && Foreigner(s, args[i].obj)) {
        assert HarmlessOne(s, args[i]);
      }
    }
  }

  lemma BeginInv(s: State, target: nat, args: seq<ObjectArgument>)
    requires Inv(s) && Ours(s, target) && s.objects[target].kind == Standard && Harmless(s, args)
    ensures Inv(DispatchBegin(s, target, args)) && DispatchBegin(s, target, args).mixups == s.mixups
  {
    if s.objects[target].userData.Some? {
      var depth, p, n := |s.frames|, Frame(|s.frames|, 0), |args|;
      var s1 := UnpackArguments(s, depth, args, 0, s.objects[target].queue);
      FramesShallow(s);
      UnpackBase(s, depth, args, s.objects[target].queue);
      assert UnpackedObject(s, s1, target) && UnpackedSlot(s, s1, depth, n, p);
      var t := BeginTarget(s1, p, target, n);
      BeginFrames(s, s1, t, target, n);
      assert t == DispatchBegin(s, target, args);
    }
  }

  // The dispatcher's own reference to its target.
  lemma BeginTarget(s: State, p: Slot, target: nat, n: nat) returns (t: State)
    requires Base(s) && p.Frame? && p !in s.slots && Ours(s, target) && s.objects[target].kind == Standard
    requires s.objects[target].userData.Some?
    ensures var s2 := Construct(s, p, target, Standard, None, false);
      && p in s2.slots && s2.slots[p].data.Some? && s2.slots[p].data.value in s2.datas
      && (var d := s2.slots[p].data.value;
          t == s2.(frames := s2.frames + [Dispatching(target, d, s2.datas[d].events, n)]))
      && s2.slots[p].ptr == Some(target) && s2.frames == s.frames
      && Base(t) && Grows(s, s2, p)
  {
    assert ObjectOK(s, target);
    FreshKeys(s);
    ConstructAgainBase(s, p, target, None, false);
    ConstructGrows(s, p, target);
    var s2 := Construct(s, p, target, Standard, None, false);
    assert SlotOK(s2, p);
    var d := s2.slots[p].data.value;
    t := s2.(frames := s2.frames + [Dispatching(target, d, s2.datas[d].events, n)]);
    RetypeFrames(s2, t.frames);
  }

  lemma BeginFrames(s: State, s1: State, t: State, target: nat, n: nat)
    requires FramesOK(s) && Core(t) && Unpacked(s, s1, |s.frames|, n)
    requires var p := Frame(|s.frames|, 0);
      Grows(s1, t.(frames := s1.frames), p)
      && p in t.slots && t.slots[p].data.Some? && t.slots[p].data.value in t.datas
      && t.slots[p].ptr == Some(target)
      && t.frames == s.frames + [Dispatching(target, t.slots[p].data.value, t.datas[t.slots[p].data.value].events, n)]
    ensures FramesOK(t)
  {
    var depth := |s.frames|;
    forall i | 0 <= i < |t.frames| ensures FrameOK(t, i) {
      assert SlotOK(t, Frame(depth, 0));
      if i < depth {
        assert FrameOK(s, i);
        var d := s.frames[i].data;
        assert OnlyCounted(s, s1, d) && OnlyCounted(s1, t.(frames := s1.frames), d);
        forall j | 0 <= j <= s.frames[i].arguments
          ensures Frame(i, j) in t.slots && (j == 0 ==> t.slots[Frame(i, 0)] == s.slots[Frame(i, 0)])
        {
          assert UnpackedSlot(s, s1, depth, n, Frame(i, j));
        }
      } else {
        forall j | 0 < j <= n ensures Frame(i, j) in t.slots {
          assert UnpackedSlot(s, s1, depth, n, Frame(i, j));
        }
      }
    }
    forall i: nat, j: nat | Frame(i, j) in t.slots ensures i < |t.frames| && j <= t.frames[i].arguments {
      assert UnpackedSlot(s, s1, depth, n, Frame(i, j));
    }
  }

  // What a destructor of one dispatcher local, or several, leaves alone.
  ghost predicate Dropped(s: State, t: State, depth: nat) {
    && SameRest(s, t)
    && (forall k: Slot {:trigger DroppedSlot(s, t, depth, k)} :: DroppedSlot(s, t, depth, k))
    && (forall d: nat {:trigger SameSource(s, t, d)} :: SameSource(s, t, d))
    && DatasShrink(s, t) && ObjectsShrink(s, t)
  }

  ghost predicate DroppedSlot(s: State, t: State, depth: nat, k: Slot) {
    && (k in t.slots ==> k in s.slots && t.slots[k] == s.slots[k])
    && (k in s.slots && k !in t.slots ==> k.Wrapped? || (k.Frame? && k.depth == depth))
  }

  lemma DestroyDrops(s: State, k: Slot)
    requires Base(s) && k in s.slots && k.Frame? && Ranked(s)
    ensures Base(Destroy(s, k)) && Dropped(s, Destroy(s, k), k.depth) && Ranked(Destroy(s, k))
    ensures forall j: Slot | j.Frame? && j != k :: j in Destroy(s, k).slots <==> j in s.slots
    ensures k !in Destroy(s, k).slots
  {
    DestroyBase(s, k);
    CoreRanked(Destroy(s, k));
  }

  lemma DroppedTrans(s: State, m: State, t: State, depth: nat)
    requires Dropped(s, m, depth) && Dropped(m, t, depth)
    ensures Dropped(s, t, depth)
  {
    forall k: Slot ensures DroppedSlot(s, t, depth, k) {
      assert DroppedSlot(s, m, depth, k) && DroppedSlot(m, t, depth, k);
    }
    forall d: nat ensures SameSource(s, t, d) { assert SameSource(s, m, d) && SameSource(m, t, d); }
  }

  // The argument handles from..n of a dispatcher are there.
  predicate Arguments(s: State, depth: nat, from: nat, n: nat) {
    forall j {:trigger Frame(depth, j)} | from < j <= n :: Frame(depth, j) in s.slots
  }

  // They are not.
  predicate NoArguments(s: State, depth: nat, from: nat, n: nat) {
    forall j {:trigger Frame(depth, j)} | from < j <= n :: Frame(depth, j) !in s.slots
  }

  lemma {:induction false} DropArgumentsBase(s: State, depth: nat, first: nat, n: nat)
    requires Base(s) && Ranked(s) && first <= n && Arguments(s, depth, first, n)
    ensures var t := DropArguments(s, depth, first, n);
      Base(t) && Dropped(s, t, depth) && NoArguments(t, depth, first, n)
    decreases n - first
  {
    if first < n {
      var k := Frame(depth, first + 1);
      DestroyDrops(s, k);
      var s1 := Destroy(s, k);
      assert Arguments(s1, depth, first + 1, n);
      DropArgumentsBase(s1, depth, first + 1, n);
      DroppedMore(s, s1, DropArguments(s1, depth, first + 1, n), depth, first, n);
    }
  }

  lemma DroppedMore(s: State, m: State, t: State, depth: nat, first: nat, n: nat)
    requires Dropped(s, m, depth) && Dropped(m, t, depth) && Frame(depth, first + 1) !in m.slots
    requires NoArguments(t, depth, first + 1, n)
    ensures Dropped(s, t, depth) && NoArguments(t, depth, first, n)
  {
    DroppedTrans(s, m, t, depth);
    assert DroppedSlot(m, t, depth, Frame(depth, first + 1));
  }

  lemma EndInv(s: State)
    requires Inv(s) && |s.frames| > 0 && Ranked(s)
    ensures Inv(DispatchEnd(s))
    ensures Dropped(s.(frames := s.frames[..|s.frames| - 1]), DispatchEnd(s), |s.frames| - 1)
  {
    var depth := |s.frames| - 1;
    var s0 := s.(frames := s.frames[..depth]);
    RetypeFrames(s, s0.frames);
    assert FrameOK(s, depth);
    EndDrops(s0, depth, s.frames[depth].arguments);
    EndFrames(s, s0, DispatchEnd(s), depth);
  }

  // The locals of the innermost dispatcher go: p, then vargs.
  lemma EndDrops(s: State, depth: nat, n: nat)
    requires Base(s) && Ranked(s) && Frame(depth, 0) in s.slots && Arguments(s, depth, 0, n)
    ensures var s1 := Destroy(s, Frame(depth, 0));
      && Ranked(s1)
      && (var t := DropArguments(s1, depth, 0, n);
          Base(t) && Dropped(s, t, depth) && Frame(depth, 0) !in t.slots && NoArguments(t, depth, 0, n))
  {
    DestroyDrops(s, Frame(depth, 0));
    EndDropsArguments(s, Destroy(s, Frame(depth, 0)), depth, n);
  }

  lemma EndDropsArguments(s: State, s1: State, depth: nat, n: nat)
    requires Base(s1) && Ranked(s1) && Dropped(s, s1, depth)
    requires Frame(depth, 0) !in s1.slots && Arguments(s1, depth, 0, n)
    ensures var t := DropArguments(s1, depth, 0, n);
      Base(t) && Dropped(s, t, depth) && Frame(depth, 0) !in t.slots && NoArguments(t, depth, 0, n)
  {
    DropArgumentsBase(s1, depth, 0, n);
    var t := DropArguments(s1, depth, 0, n);
    DroppedTrans(s, s1, t, depth);
    assert DroppedSlot(s1, t, depth, Frame(depth, 0));
  }

  lemma EndFrames(s: State, s0: State, t: State, depth: nat)
    requires FramesOK(s) && Core(t) && depth + 1 == |s.frames|
    requires s0 == s.(frames := s.frames[..depth]) && Dropped(s0, t, depth)
    requires Frame(depth, 0) !in t.slots && NoArguments(t, depth, 0, s.frames[depth].arguments)
    ensures FramesOK(t)
  {
    forall i | 0 <= i < |t.frames| ensures FrameOK(t, i) {
      assert FrameOK(s, i);
      forall j | 0 <= j <= t.frames[i].arguments
        ensures Frame(i, j) in t.slots && t.slots[Frame(i, j)] == s.slots[Frame(i, j)]
      {
        assert DroppedSlot(s0, t, depth, Frame(i, j));
      }
      assert SlotOK(t, Frame(i, 0)) && SameSource(s0, t, s.frames[i].data);
    }
    forall i: nat, j: nat | Frame(i, j) in t.slots ensures i < |t.frames| && j <= t.frames[i].arguments {
      assert DroppedSlot(s0, t, depth, Frame(i, j));
    }
  }

  // --------------------------------------------------------------------- runs

  // What a run of operations can make of s0.
  ghost predicate Runs(s0: State, ops: seq<Op>, s: State)
    decreases |ops|, 0
  {
    if ops == [] then s == s0
    else Follows(s0, ops[..|ops| - 1], ops[|ops| - 1], s)
  }

  ghost predicate Follows(s0: State, before: seq<Op>, last: Op, s: State)
    decreases |before|, 1
  {
    exists r: State :: Runs(s0, before, r) && Leads(r, last, s)
  }

  // Step needs Ranked to be defined; by StepKeepsInv that excludes no run.
  ghost predicate Leads(r: State, op: Op, s: State) {
    Ranked(r) && Enabled(r, op) && s == Step(r, op)
  }

  // The states a run can reach.
  ghost predicate Reaches(ops: seq<Op>, s: State) {
    Runs(INITIAL, ops, s)
  }

  lemma InitialInv()
    ensures Inv(INITIAL)
  {
  }

  lemma StepKeepsInv(s: State, op: Op)
    requires Inv(s) && Enabled(s, op) && Ranked(s) && Safe(s, op)
    ensures Inv(Step(s, op)) && Step(s, op).mixups == s.mixups
  {
    if op.Begin? {
      BeginKeepsInv(s, op.target, op.args);
    } else if op.End? {
      EndInv(s);
    } else {
      StepInv(s, op);
    }
  }

  lemma BeginKeepsInv(s: State, target: nat, args: seq<ObjectArgument>)
    requires Inv(s) && Enabled(s, Begin(target, args)) && Safe(s, Begin(target, args))
    ensures Inv(DispatchBegin(s, target, args)) && DispatchBegin(s, target, args).mixups == s.mixups
  {
    if s.objects[target].userData.Some? {
      SafeIsHarmless(s, args);
      BeginInv(s, target, args);
    }
  }

  // ------------------------------------------------- events with foreign objects

  // An argument that is another library's proxy: its user data is overwritten, or
  // taken for a record.
  lemma StrangerFaults(s: State, k: Slot, o: nat, queue: Option<nat>)
    requires Foreigner(s, o)
    ensures UnpackArgument(s, k, Existing(o), queue).fault
    ensures UnpackArgument(s, k, Existing(o), queue).mixups == s.mixups + 1
  {
    ForeignConstructFaults(s.(mixups := s.mixups + 1), k, o);
  }

  lemma ForeignConstructFaults(s: State, k: Slot, o: nat)
    requires Foreigner(s, o)
    ensures var t := Construct(s, k, o, Standard, None, false); t.fault && t.mixups == s.mixups
  {
  }

  // Some argument from number i on is another library's proxy.
  predicate CarriesFrom(s: State, args: seq<ObjectArgument>, i: nat) {
    exists j | i <= j < |args| :: args[j].Existing? && Foreigner(s, args[j].obj)
  }

  lemma {:induction false} UnpackFaults(s0: State, s: State, depth: nat, args: seq<ObjectArgument>, i: nat,
                                        queue: Option<nat>)
    requires Base(s) && Unpacked(s0, s, depth, i) && Shallow(s0, depth) && i < |args| && CarriesFrom(s0, args, i)
    requires forall j | 0 <= j < |args| && args[j].Existing? :: Present(s0, args[j].obj)
    ensures var t := UnpackArguments(s, depth, args, i, queue); t.fault && t.mixups > s0.mixups
    decreases |args| - i
  {
    var t := UnpackArgument(s, Frame(depth, i + 1), args[i], queue);
    if args[i].Existing? && Foreigner(s0, args[i].obj) {
      assert UnpackedObject(s0, s, args[i].obj);
      StrangerFaults(s, Frame(depth, i + 1), args[i].obj, queue);
      UnpackWorse(t, depth, args, i + 1, queue);
    } else {
      UnpackMore(s0, s, depth, i, args[i], queue);
      UnpackFaults(s0, t, depth, args, i + 1, queue);
    }
  }

  // So a dispatch keeps the invariant exactly when the event carries no such object,
  // or goes to a proxy that has no record.
  lemma DispatchSafeIff(s: State, target: nat, args: seq<ObjectArgument>)
    requires Inv(s) && Ranked(s) && Enabled(s, Begin(target, args))
    ensures var t := Step(s, Begin(target, args));
      && (Inv(t) <==> Safe(s, Begin(target, args)))
      && (!Inv(t) ==> t.fault && t.mixups > s.mixups)
  {
    if Safe(s, Begin(target, args)) {
      StepKeepsInv(s, Begin(target, args));
    } else {
      UnsafeBegin(s, target, args);
    }
  }

  lemma UnsafeBegin(s: State, target: nat, args: seq<ObjectArgument>)
    requires Base(s) && FramesOK(s) && target in s.objects && s.objects[target].userData.Some? && Carries(s, args)
    requires forall i | 0 <= i < |args| && args[i].Existing? :: Present(s, args[i].obj)
    ensures var t := DispatchBegin(s, target, args); t.fault && t.mixups > s.mixups
  {
    FramesShallow(s);
    UnpackNone(s, |s.frames|);
    UnpackFaults(s, s, |s.frames|, args, 0, s.objects[target].queue);
    BeginWorse(s, target, args);
  }

  // ------------------------------------------------------- a display's second record

  // The constructor keeps the invariant exactly when the object is not a display that
  // has a record.  Otherwise the display gets another record, and even without calling
  // that a fault the first is no longer accounted for.
  lemma RawSafeIff(s: State, k: nat, o: nat, v: Option<nat>)
    requires Inv(s) && Ranked(s) && Enabled(s, Raw(k, o, v))
    ensures var t := Step(s, Raw(k, o, v));
      && (Inv(t) <==> Safe(s, Raw(k, o, v)))
      && (!Inv(t) ==> t.fault && t.mixups > s.mixups && !Inv(t.(fault := false)))
  {
    if Safe(s, Raw(k, o, v)) {
      StepKeepsInv(s, Raw(k, o, v));
    } else {
      SecondRecord(s, User(k), o, QueueOf(s, v));
      var t, d := Step(s, Raw(k, o, v)), s.objects[o].userData.value;
      assert !DataOK(t.(fault := false), d);
    }
  }

  lemma SecondRecord(s: State, k: Slot, o: nat, queue: Option<nat>)
    requires Inv(s) && Ours(s, o) && s.objects[o].kind == WrapperType.Display && s.objects[o].userData.Some?
    ensures var t, d, e := ConstructRaw(s, k, o, queue), s.objects[o].userData.value, s.nextData;
      && t.fault && t.mixups == s.mixups + 1
      && d != e && d in t.datas && e in t.datas && t.datas[d] == s.datas[d]
      && t.datas[d].obj == t.datas[e].obj == o && t.datas[e].counter == 1
      && k in t.slots && t.slots[k] == Handle(Some(o), Some(e), WrapperType.Display)
      && o in t.objects && t.objects[o] == s.objects[o].(userData := Some(e))
      && !DataOK(t, d)
  {
    FreshKeys(s);
    assert ObjectOK(s, o);
    assert DataOK(s, s.objects[o].userData.value);
  }

  lemma UnsafeStep(s: State, op: Op)
    requires Inv(s) && Ranked(s) && Enabled(s, op) && !Safe(s, op)
    ensures Step(s, op).fault && Step(s, op).mixups > s.mixups
  {
    match op
    case Begin(target, args) => DispatchSafeIff(s, target, args);
    case Raw(k, o, v) => RawSafeIff(s, k, o, v);
    case _ =>
  }

  // So exactly the safe operations keep the invariant.
  lemma StepSafeIff(s: State, op: Op)
    requires Inv(s) && Ranked(s) && Enabled(s, op)
    ensures Inv(Step(s, op)) <==> Safe(s, op)
    ensures !Inv(Step(s, op)) ==> Step(s, op).fault && Step(s, op).mixups > s.mixups
  {
    if Safe(s, op) {
      StepKeepsInv(s, op);
    } else {
      UnsafeStep(s, op);
    }
  }

  // A step in which nothing is mixed up was safe.
  lemma WasSafe(s: State, op: Op)
    requires Inv(s) && Enabled(s, op) && Ranked(s) && Step(s, op).mixups == s.mixups
    ensures Safe(s, op)
  {
    if !Safe(s, op) {
      UnsafeStep(s, op);
    }
  }

  // No fault is forgotten, nor what else is only counted up.
  ghost predicate Worse(s: State, t: State) {
    (s.fault ==> t.fault) && t.mixups >= s.mixups && t.overwrites >= s.overwrites
  }

  lemma {:induction false} ReleaseWorse(s: State, k: Slot)
    requires k in s.slots && Ranked(s)
    ensures Worse(s, Release(s, k))
    decreases Rank(s.slots[k]), 1
  {
    DetachWorse(s, k);
    if s.slots[k].data.Some? {
      var d := s.slots[k].data.value;
      if d in s.datas && s.datas[d].counter == 1 && Wrapped(d) in Detach(s, k).slots {
        LastReleaseWorse(s, k, d);
      }
    }
  }

  lemma LastReleaseWorse(s: State, k: Slot, d: nat)
    requires k in s.slots && Ranked(s) && s.slots[k].data == Some(d)
    requires d in s.datas && s.datas[d].counter == 1 && Wrapped(d) in Detach(s, k).slots
    requires Worse(s, Detach(s, k))
    ensures Worse(s, Release(s, k))
    decreases Rank(s.slots[k]), 0
  {
    LastRelease(s, k, d);
    ReleaseWorse(Detach(s, k), Wrapped(d));
    DeleteWorse(Release(Detach(s, k), Wrapped(d)), d, s.datas[d].queue);
  }

  // What the last handle's release comes to.
  lemma LastRelease(s: State, k: Slot, d: nat)
    requires k in s.slots && Ranked(s) && s.slots[k].data == Some(d)
    requires d in s.datas && s.datas[d].counter == 1 && Wrapped(d) in Detach(s, k).slots
    ensures var s1 := Detach(s, k);
      && Ranked(s1) && Rank(s1.slots[Wrapped(d)]) < Rank(s.slots[k])
      && Release(s, k) == DropQueue(Deleted(Release(s1, Wrapped(d)), d), s.datas[d].queue)
  {
    LastDetachSlots(s, k, d);
    assert Ranked(Detach(s, k));
  }

  lemma LastDetachSlots(s: State, k: Slot, d: nat)
    requires k in s.slots && s.slots[k].data == Some(d) && d in s.datas && s.datas[d].counter == 1
    ensures Detach(s, k).slots == s.slots[k := EMPTY.(typ := s.slots[k].typ)]
  {
    var h, r := s.slots[k], s.datas[d];
    var s0 := s.(slots := s.slots[k := EMPTY.(typ := h.typ)]);
    var s1 := s0.(datas := s0.datas[d := r.(counter := r.counter - 1)]);
    if h.ptr.Some? {
      DestroyObjectSlots(s1, h.ptr.value, h.typ, r);
    }
  }

  lemma DestroyObjectSlots(s: State, o: nat, typ: WrapperType, r: Data)
    ensures DestroyObject(s, o, typ, r).slots == s.slots
  {
    match typ
    case Standard => StandardDestroySlots(s, o, r);
    case ProxyWrapper => CDestroySlots(s, o, WrapperDestroy(o), ProxyWrapper);
    case Display => CDestroySlots(s, o, DisplayDisconnect(o), WrapperType.Display);
    case Foreign =>
  }

  lemma StandardDestroySlots(s: State, o: nat, r: Data)
    ensures DestroyObject(s, o, Standard, r).slots == s.slots
  {
    var s1 := if r.destroyOpcode.Some?
              then s.(trace := s.trace + [DestroyRequest(o, r.destroyOpcode.value)]) else s;
    CDestroySlots(s1, o, ProxyDestroy(o), Standard);
  }

  lemma CDestroySlots(s: State, o: nat, call: CCall, kind: WrapperType)
    ensures CDestroy(s, o, call, kind).slots == s.slots
  {
  }

  lemma DeleteWorse(s: State, d: nat, q: Option<nat>)
    ensures Worse(s, DropQueue(Deleted(s, d), q))
  {
    DropQueueWorse(Deleted(s, d), q);
  }

  lemma DetachWorse(s: State, k: Slot)
    requires k in s.slots
    ensures Worse(s, Detach(s, k))
  {
  }

  lemma DropQueueWorse(s: State, q: Option<nat>)
    ensures Worse(s, DropQueue(s, q))
  {
  }

  lemma {:induction false} DropWorse(s: State, depth: nat, first: nat, n: nat)
    requires Ranked(s)
    ensures Worse(s, DropArguments(s, depth, first, n))
    decreases n - first
  {
    if first < n && Frame(depth, first + 1) in s.slots {
      ReleaseWorse(s, Frame(depth, first + 1));
      var s1 := Destroy(s, Frame(depth, first + 1));
      if Ranked(s1) { DropWorse(s1, depth, first + 1, n); }
    }
  }

  lemma EndWorse(s: State)
    requires |s.frames| > 0 && Ranked(s)
    ensures Worse(s, DispatchEnd(s))
  {
    var depth := |s.frames| - 1;
    var s0 := s.(frames := s.frames[..depth]);
    if Frame(depth, 0) in s0.slots {
      ReleaseWorse(s0, Frame(depth, 0));
      var s1 := Destroy(s0, Frame(depth, 0));
      if Ranked(s1) { DropWorse(s1, depth, 0, s.frames[depth].arguments); }
    }
  }

  lemma {:induction false} UnpackWorse(s: State, depth: nat, args: seq<ObjectArgument>, i: nat, queue: Option<nat>)
    ensures Worse(s, UnpackArguments(s, depth, args, i, queue))
    decreases |args| - i
  {
    if i < |args| {
      ArgumentWorse(s, Frame(depth, i + 1), args[i], queue);
      UnpackWorse(UnpackArgument(s, Frame(depth, i + 1), args[i], queue), depth, args, i + 1, queue);
    }
  }

  lemma ArgumentWorse(s: State, k: Slot, a: ObjectArgument, queue: Option<nat>)
    ensures Worse(s, UnpackArgument(s, k, a, queue))
  {
    match a
    case NullObject =>
    case Existing(o) =>
      ConstructWorse(if Foreigner(s, o) then s.(mixups := s.mixups + 1) else s, k, o, Standard, None, false);
    case Introduced(junk) =>
      var m := SetUserData(CreateObject(s, Standard, false, junk, queue, None), s.nextObject, None);
      ConstructWorse(m, k, s.nextObject, Standard, None, false);
  }

  lemma BeginWorse(s: State, target: nat, args: seq<ObjectArgument>)
    requires target in s.objects
    ensures Worse(s, DispatchBegin(s, target, args))
    ensures s.objects[target].userData.Some? ==>
      Worse(UnpackArguments(s, |s.frames|, args, 0, s.objects[target].queue), DispatchBegin(s, target, args))
  {
    UnpackWorse(s, |s.frames|, args, 0, s.objects[target].queue);
    var s1 := UnpackArguments(s, |s.frames|, args, 0, s.objects[target].queue);
    ConstructWorse(s1, Frame(|s.frames|, 0), target, Standard, None, false);
  }

  lemma ConstructWorse(s: State, k: Slot, o: nat, typ: WrapperType, queue: Option<nat>, inStep: bool)
    ensures Worse(s, Construct(s, k, o, typ, queue, inStep))
  {
  }

  lemma CopyAssignWorse(s: State, k: Slot, j: Slot)
    requires k in s.slots && j in s.slots
    ensures Worse(s, CopyAssign(s, k, j))
  {
  }

  lemma StepWorse(s: State, op: Op)
    requires Enabled(s, op) && Ranked(s)
    ensures Worse(s, Step(s, op))
  {
    match op
    case Drop(k) => ReleaseWorse(s, User(k));
    case Empty(k) => ReleaseWorse(s, User(k));
    case Begin(target, args) => BeginWorse(s, target, args);
    case End => EndWorse(s);
    case Assign(k, j) => CopyAssignWorse(s, User(k), User(j));
    case Display(k, junk) => ConnectWorse(s, User(k), junk);
    case Raw(k, o, v) => RawWorse(s, User(k), o, QueueOf(s, v));
    case RawForeign(k, o) => ConstructWorse(s, User(k), o, Foreign, None, false);
    case Keep(k, i) => CopyConstructWorse(s, User(k), Frame(|s.frames| - 1, i));
    case Copy(k, j) => CopyConstructWorse(s, User(k), User(j));
    case Request(parent, k, junk) => RequestWorse(s, User(parent), User(k), junk);
    case CreateWrapper(j, k) => WrapWorse(s, User(j), User(k));
    case AssignQueue(k, v) => SetQueueWorse(s, User(k), QueueOf(s, v));
    case _ => OtherWorse(s, op);
  }

  lemma RawWorse(s: State, k: Slot, o: nat, queue: Option<nat>)
    requires o in s.objects
    ensures Worse(s, ConstructRaw(s, k, o, queue))
  {
    var c := s.objects[o];
    var m := if c.kind == WrapperType.Display && c.userData.Some? then s.(mixups := s.mixups + 1, fault := true) else s;
    ConstructWorse(m, k, o, c.kind, queue, false);
  }

  lemma CopyConstructWorse(s: State, k: Slot, j: Slot)
    requires j in s.slots
    ensures Worse(s, CopyConstruct(s, k, j))
  {
  }

  lemma OtherWorse(s: State, op: Op)
    requires Enabled(s, op) && Ranked(s)
    requires op.Default? || op.FromC? || op.RawNull? || op.Move? || op.MoveInto? || op.Events? || op.DestroyOpcode?
             || op.NewQueue? || op.CopyQueueVar? || op.DropQueueVar?
    ensures Worse(s, Step(s, op))
  {
  }

  lemma ConnectWorse(s: State, k: Slot, junk: Option<nat>)
    ensures Worse(s, Connect(s, k, junk))
  {
    var m := CreateObject(s, WrapperType.Display, false, junk, None, None);
    ConstructWorse(m, k, s.nextObject, WrapperType.Display, None, true);
  }

  lemma SetQueueWorse(s: State, k: Slot, queue: Option<nat>)
    requires k in s.slots
    ensures Worse(s, SetQueue(s, k, queue))
  {
  }

  lemma RequestWorse(s: State, parent: Slot, k: Slot, junk: Option<nat>)
    requires parent in s.slots
    ensures Worse(s, MarshalConstructor(s, parent, k, junk))
  {
    var h := s.slots[parent];
    if h.ptr.Some? && h.ptr.value in s.objects {
      var queue := s.objects[h.ptr.value].queue;
      var m := SetUserData(CreateObject(s, Standard, false, junk, queue, None), s.nextObject, None);
      ConstructWorse(m, k, s.nextObject, Standard, RetainedQueue(s, h), InStep(s, h));
    }
  }

  lemma WrapWorse(s: State, j: Slot, k: Slot)
    requires j in s.slots
    ensures Worse(s, Wrap(s, j, k))
  {
    var h := s.slots[j];
    if h.ptr.Some? && h.ptr.value in s.objects {
      var m := CreateObject(s, ProxyWrapper, false, None, s.objects[h.ptr.value].queue, h.ptr);
      ConstructWorse(m, k, s.nextObject, ProxyWrapper, RetainedQueue(s, h), InStep(s, h));
      var m2 := Construct(m, k, s.nextObject, ProxyWrapper, RetainedQueue(s, h), InStep(s, h));
      if Wrapped(s.nextData) in m2.slots && j in m2.slots {
        CopyAssignWorse(m2, Wrapped(s.nextData), j);
      }
    }
  }

  // --------------------------------------------------------------- whole runs

  lemma RunSplits(s0: State, ops: seq<Op>, s: State) returns (r: State)
    requires ops != [] && Runs(s0, ops, s)
    ensures Runs(s0, ops[..|ops| - 1], r) && Leads(r, ops[|ops| - 1], s)
  {
    assert Follows(s0, ops[..|ops| - 1], ops[|ops| - 1], s);
    r :| Runs(s0, ops[..|ops| - 1], r) && Leads(r, ops[|ops| - 1], s);
  }

  lemma RunExtends(s0: State, ops: seq<Op>, r: State, op: Op)
    requires Runs(s0, ops, r) && Ranked(r) && Enabled(r, op)
    ensures Runs(s0, ops + [op], Step(r, op))
  {
    assert (ops + [op])[..|ops + [op]| - 1] == ops;
    assert Leads(r, op, Step(r, op));
    assert Follows(s0, ops, op, Step(r, op));
  }

  // Either no event has carried a foreign object to a proxy with a record and no display
  // has been given a second record, and the invariant is kept, or there has been a fault.
  lemma {:induction false} RunInvOrFault(s0: State, ops: seq<Op>, s: State)
    requires Inv(s0) && Runs(s0, ops, s)
    ensures s.mixups >= s0.mixups
    ensures if s.mixups == s0.mixups then Inv(s) && Ranked(s) else s.fault
    decreases |ops|
  {
    if ops != [] {
      var op := ops[|ops| - 1];
      var r := RunSplits(s0, ops, s);
      RunInvOrFault(s0, ops[..|ops| - 1], r);
      StepWorse(r, op);
      if r.mixups == s0.mixups {
        if Safe(r, op) {
          StepKeepsInv(r, op);
        } else {
          UnsafeStep(r, op);
        }
      }
    }
    if Inv(s) { CoreRanked(s); }
  }

  lemma RunKeepsInv(ops: seq<Op>, s: State)
    requires Reaches(ops, s) && s.mixups == 0
    ensures Inv(s) && Ranked(s)
  {
    InitialInv();
    RunInvOrFault(INITIAL, ops, s);
  }
}
