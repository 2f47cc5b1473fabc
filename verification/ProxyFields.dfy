// What the fields of records and C objects hold after each operation: which handler
// storage, destroy opcode and event queue, and who set them.

module ProxyFields {
  import opened Common
  import opened Handles
  import opened ProxyState
  import opened ProxyInvariant
  import opened ProxySteps
  import opened ProxyRuns

  // The program performs the operation through a handle k on record d.
  predicate On(s: State, k: nat, d: nat) {
    User(k) in s.slots && s.slots[User(k)].data == Some(d)
  }

  // Or through one that points at object o.
  predicate At(s: State, k: nat, o: nat) {
    User(k) in s.slots && s.slots[User(k)].ptr == Some(o)
  }

  // ------------------------------------------------ operations that add and count

  // Records and objects that were there keep their fields; new records retain the given
  // queue and have neither handlers nor opcode, and new objects are like `made`.
  ghost predicate Made(s: State, t: State, queue: Option<nat>, made: CObject) {
    && t.queues == s.queues && t.queueVars == s.queueVars && t.trace == s.trace
    && (Numbers(s) ==> Numbers(t))
    && (forall d: nat {:trigger MadeRecord(s, t, queue, d)} :: MadeRecord(s, t, queue, d))
    && (forall o: nat {:trigger MadeObject(s, t, made, o)} :: MadeObject(s, t, made, o))
  }

  ghost predicate Numbers(s: State) {
    && (forall d | d in s.datas :: d < s.nextData)
    && (forall o | o in s.objects :: o < s.nextObject)
  }

  predicate MadeRecord(s: State, t: State, queue: Option<nat>, d: nat) {
    && (d in s.datas ==>
          && d in t.datas
          && t.datas[d] == s.datas[d].(counter := t.datas[d].counter, leaked := t.datas[d].leaked))
    && (d in t.datas && d !in s.datas ==>
          t.datas[d].events.None? && t.datas[d].destroyOpcode.None? && t.datas[d].queue == queue)
  }

  predicate MadeObject(s: State, t: State, made: CObject, o: nat) {
    && (o in s.objects ==> o in t.objects && t.objects[o] == s.objects[o].(userData := t.objects[o].userData))
    && (o in t.objects && o !in s.objects ==> t.objects[o] == made.(userData := t.objects[o].userData))
  }

  const NOTHING := CObject(Foreign, false, false, None, None, None, None)

  lemma CoreNumbers(s: State)
    requires Core(s)
    ensures Numbers(s)
  {
    forall d | d in s.datas ensures d < s.nextData { assert DataOK(s, d); }
    forall o | o in s.objects ensures o < s.nextObject { assert ObjectOK(s, o); }
  }

  lemma SameMade(s: State, t: State, queue: Option<nat>, made: CObject)
    requires t.queues == s.queues && t.queueVars == s.queueVars && t.trace == s.trace
    requires t.datas == s.datas && t.objects == s.objects
    requires t.nextData >= s.nextData && t.nextObject >= s.nextObject
    ensures Made(s, t, queue, made)
  {
  }

  lemma MadeThenMade(s: State, m: State, t: State, queue: Option<nat>, made: CObject)
    requires Made(s, m, queue, made) && Made(m, t, queue, made)
    ensures Made(s, t, queue, made)
  {
    forall d: nat ensures MadeRecord(s, t, queue, d) {
      assert MadeRecord(s, m, queue, d) && MadeRecord(m, t, queue, d);
    }
    forall o: nat ensures MadeObject(s, t, made, o) {
      assert MadeObject(s, m, made, o) && MadeObject(m, t, made, o);
    }
  }

  // The history fields do not matter.
  lemma SameBefore(s: State, m: State, t: State, queue: Option<nat>, made: CObject)
    requires Made(m, t, queue, made)
    requires m == s.(mixups := m.mixups, fault := m.fault, overwrites := m.overwrites)
    ensures Made(s, t, queue, made)
  {
    forall d: nat ensures MadeRecord(s, t, queue, d) { assert MadeRecord(m, t, queue, d); }
    forall o: nat ensures MadeObject(s, t, made, o) { assert MadeObject(m, t, made, o); }
  }

  lemma CreateMade(s: State, kind: WrapperType, foreign: bool, junk: Option<nat>, queue: Option<nat>,
                   wraps: Option<nat>, retained: Option<nat>)
    requires Numbers(s)
    ensures Made(s, CreateObject(s, kind, foreign, junk, queue, wraps), retained,
                 CObject(kind, foreign, true, None, queue, wraps, None))
  {
  }

  lemma SetUserDataMade(s: State, o: nat, data: Option<nat>, queue: Option<nat>, made: CObject)
    ensures Made(s, SetUserData(s, o, data), queue, made)
  {
  }

  lemma AcquireMade(s: State, k: Slot, h: ProxyHandle, queue: Option<nat>, made: CObject)
    ensures Made(s, Acquire(s, k, h), queue, made)
  {
    var t := Acquire(s, k, h);
    if h.data.Some? && h.data.value in s.datas {
      var r := s.datas[h.data.value];
      assert t.datas == s.datas[h.data.value := r.(counter := r.counter + 1)];
    } else {
      SameMade(s, t, queue, made);
    }
  }

  lemma NewMade(s: State, k: Slot, o: nat, typ: WrapperType, queue: Option<nat>, inStep: bool, made: CObject)
    requires Numbers(s)
    ensures var d := s.nextData;
      Made(s, s.(slots := s.slots[Wrapped(d) := EMPTY][k := Handle(Some(o), Some(d), typ)],
                 datas := s.datas[d := Data(None, None, 1, queue, o, typ, 0, inStep)],
                 nextData := d + 1), queue, made)
  {
  }

  lemma ConstructMade(s: State, k: Slot, o: nat, typ: WrapperType, queue: Option<nat>, inStep: bool, made: CObject)
    requires Numbers(s)
    ensures Made(s, Construct(s, k, o, typ, queue, inStep), queue, made)
  {
    if typ == Foreign || o !in s.objects {
      SameMade(s, Construct(s, k, o, typ, queue, inStep), queue, made);
    } else if typ != WrapperType.Display && s.objects[o].userData.Some? {
      FoundMade(s, k, o, typ, queue, inStep, made);
    } else {
      var d := s.nextData;
      var m := s.(slots := s.slots[Wrapped(d) := EMPTY][k := Handle(Some(o), Some(d), typ)],
                  datas := s.datas[d := Data(None, None, 1, queue, o, typ, 0, inStep)],
                  nextData := d + 1);
      var t := SetUserData(m, o, Some(d));
      assert t == Construct(s, k, o, typ, queue, inStep);
      NewMade(s, k, o, typ, queue, inStep, made);
      SetUserDataMade(m, o, Some(d), queue, made);
      MadeThenMade(s, m, t, queue, made);
    }
  }

  lemma FoundMade(s: State, k: Slot, o: nat, typ: WrapperType, queue: Option<nat>, inStep: bool, made: CObject)
    requires o in s.objects && typ != Foreign && typ != WrapperType.Display && s.objects[o].userData.Some?
    ensures Made(s, Construct(s, k, o, typ, queue, inStep), queue, made)
  {
    if s.objects[o].foreign {
      SameMade(s, Construct(s, k, o, typ, queue, inStep), queue, made);
    } else {
      AcquireMade(s, k, Handle(Some(o), s.objects[o].userData, typ), queue, made);
    }
  }

  lemma AgainMade(s: State, m: State, t: State, k: Slot, o: nat, typ: WrapperType, queue: Option<nat>, made: CObject)
    requires Numbers(s) && m == s.(mixups := m.mixups, fault := m.fault) && t == Construct(m, k, o, typ, queue, false)
    ensures Made(s, t, queue, made)
  {
    ConstructMade(m, k, o, typ, queue, false, made);
    SameBefore(s, m, t, queue, made);
  }

  lemma RawMade(s: State, k: Slot, o: nat, queue: Option<nat>)
    requires Numbers(s) && o in s.objects
    ensures Made(s, ConstructRaw(s, k, o, queue), queue, NOTHING)
  {
    var c, t := s.objects[o], ConstructRaw(s, k, o, queue);
    if c.kind == WrapperType.Display && c.userData.Some? {
      AgainMade(s, s.(mixups := s.mixups + 1, fault := true), t, k, o, c.kind, queue, NOTHING);
    } else {
      AgainMade(s, s, t, k, o, c.kind, queue, NOTHING);
    }
  }

  function NewProxy(queue: Option<nat>): CObject {
    CObject(Standard, false, true, None, queue, None, None)
  }

  lemma IntroduceMade(s: State, k: Slot, junk: Option<nat>, queue: Option<nat>, retained: Option<nat>, inStep: bool)
    requires Numbers(s)
    ensures Made(s, Introduce(s, k, junk, queue, retained, inStep), retained, NewProxy(queue))
  {
    ProxySteps.Introduced(s, k, junk, queue, retained, inStep);
    var m := CreateObject(s, Standard, false, None, queue, None);
    CreateMade(s, Standard, false, None, queue, None, retained);
    ConstructMade(m, k, s.nextObject, Standard, retained, inStep, NewProxy(queue));
    MadeThenMade(s, m, Construct(m, k, s.nextObject, Standard, retained, inStep), retained, NewProxy(queue));
  }

  // The first half of operator=: the count of the overwritten handle is lost.
  function Leaking(s: State, lost: Option<nat>): State {
    if lost.None? then s
    else if lost.value !in s.datas then s.(fault := true)
    else
      s.(datas := s.datas[lost.value := s.datas[lost.value].(leaked := s.datas[lost.value].leaked + 1)],
         overwrites := s.overwrites + 1)
  }

  lemma LeakMade(s: State, lost: Option<nat>, queue: Option<nat>, made: CObject)
    ensures Made(s, Leaking(s, lost), queue, made)
  {
  }

  lemma AssignMade(s: State, k: Slot, j: Slot, queue: Option<nat>, made: CObject)
    requires k in s.slots && j in s.slots
    ensures Made(s, CopyAssign(s, k, j), queue, made)
  {
    if k != j {
      var lost := s.slots[k].data;
      var m := Leaking(s, lost);
      LeakMade(s, lost, queue, made);
      AssignIs(s, k, j);
      AcquireMade(m, k, s.slots[j], queue, made);
      MadeThenMade(s, m, Acquire(m, k, s.slots[j]), queue, made);
    }
  }

  lemma AssignIs(s: State, k: Slot, j: Slot)
    requires k in s.slots && j in s.slots && k != j
    ensures CopyAssign(s, k, j) == Acquire(Leaking(s, s.slots[k].data), k, s.slots[j])
  {
  }

  lemma WrapMade(s: State, j: Slot, k: Slot)
    requires Numbers(s) && j in s.slots && s.slots[j].ptr.Some? && s.slots[j].data.Some?
    requires s.slots[j].ptr.value in s.objects && s.objects[s.slots[j].ptr.value].alive
    ensures var queue := s.objects[s.slots[j].ptr.value].queue;
      Made(s, Wrap(s, j, k), RetainedQueue(s, s.slots[j]),
           CObject(ProxyWrapper, false, true, None, queue, s.slots[j].ptr, None))
  {
    var h, o, d := s.slots[j], s.nextObject, s.nextData;
    var queue, retained := s.objects[h.ptr.value].queue, RetainedQueue(s, h);
    var made := CObject(ProxyWrapper, false, true, None, queue, h.ptr, None);
    var s1 := CreateObject(s, ProxyWrapper, false, None, queue, h.ptr);
    CreateMade(s, ProxyWrapper, false, None, queue, h.ptr, retained);
    ConstructMade(s1, k, o, ProxyWrapper, retained, InStep(s, h), made);
    var s2 := Construct(s1, k, o, ProxyWrapper, retained, InStep(s, h));
    MadeThenMade(s, s1, s2, retained, made);
    if Wrapped(d) in s2.slots && j in s2.slots {
      AssignMade(s2, Wrapped(d), j, retained, made);
      MadeThenMade(s, s2, CopyAssign(s2, Wrapped(d), j), retained, made);
    } else {
      SameMade(s2, s2.(fault := true), retained, made);
      MadeThenMade(s, s2, s2.(fault := true), retained, made);
    }
  }

  lemma ExistingMade(s: State, k: Slot, o: nat, queue: Option<nat>)
    requires Numbers(s)
    ensures Made(s, UnpackArgument(s, k, Existing(o), queue), None, NewProxy(queue))
  {
    var t := UnpackArgument(s, k, Existing(o), queue);
    if Foreigner(s, o) {
      AgainMade(s, s.(mixups := s.mixups + 1), t, k, o, Standard, None, NewProxy(queue));
    } else {
      AgainMade(s, s, t, k, o, Standard, None, NewProxy(queue));
    }
  }

  lemma UnpackOneMade(s: State, k: Slot, a: ObjectArgument, queue: Option<nat>)
    requires Numbers(s)
    ensures Made(s, UnpackArgument(s, k, a, queue), None, NewProxy(queue))
  {
    match a
    case NullObject => SameMade(s, UnpackArgument(s, k, a, queue), None, NewProxy(queue));
    case Existing(o) => ExistingMade(s, k, o, queue);
    case Introduced(junk) => IntroduceMade(s, k, junk, queue, None, false);
  }

  lemma {:induction false} UnpackMade(s: State, depth: nat, args: seq<ObjectArgument>, i: nat, queue: Option<nat>)
    requires Numbers(s)
    ensures Made(s, UnpackArguments(s, depth, args, i, queue), None, NewProxy(queue))
    decreases |args| - i
  {
    if i >= |args| {
      SameMade(s, s, None, NewProxy(queue));
    } else {
      var m := UnpackArgument(s, Frame(depth, i + 1), args[i], queue);
      UnpackOneMade(s, Frame(depth, i + 1), args[i], queue);
      UnpackMade(m, depth, args, i + 1, queue);
      MadeThenMade(s, m, UnpackArguments(m, depth, args, i + 1, queue), None, NewProxy(queue));
    }
  }

  lemma BeginMade(s: State, target: nat, args: seq<ObjectArgument>)
    requires Numbers(s) && target in s.objects
    ensures Made(s, DispatchBegin(s, target, args), None, NewProxy(s.objects[target].queue))
  {
    var queue := s.objects[target].queue;
    if s.objects[target].userData.Some? {
      var m := UnpackArguments(s, |s.frames|, args, 0, queue);
      UnpackMade(s, |s.frames|, args, 0, queue);
      var t := Construct(m, Frame(|s.frames|, 0), target, Standard, None, false);
      ConstructMade(m, Frame(|s.frames|, 0), target, Standard, None, false, NewProxy(queue));
      MadeThenMade(s, m, t, None, NewProxy(queue));
      SameMade(t, DispatchBegin(s, target, args), None, NewProxy(queue));
      MadeThenMade(s, t, DispatchBegin(s, target, args), None, NewProxy(queue));
    } else {
      SameMade(s, s, None, NewProxy(queue));
    }
  }

  // The queue of the record a variable refers to, and of the object.
  function RecordQueue(s: State, k: nat): Option<nat> {
    if User(k) in s.slots && s.slots[User(k)].data.Some? && s.slots[User(k)].data.value in s.datas
    then s.datas[s.slots[User(k)].data.value].queue else None
  }

  function ObjectQueue(s: State, k: nat): Option<nat> {
    if User(k) in s.slots && s.slots[User(k)].ptr.Some? && s.slots[User(k)].ptr.value in s.objects
    then s.objects[s.slots[User(k)].ptr.value].queue else None
  }

  function VariableQueue(s: State, v: Option<nat>): Option<nat> {
    if v.Some? && v.value in s.queueVars then s.queueVars[v.value] else None
  }

  // The queue a new record retains: the one asked for, or the parent's.
  function GivenQueue(s: State, op: Op): Option<nat> {
    match op
    case Raw(_, _, v) => VariableQueue(s, v)
    case Request(parent, _, _) => RecordQueue(s, parent)
    case CreateWrapper(j, _) => RecordQueue(s, j)
    case _ => None
  }

  // What kind of object an operation makes, and on which queue.
  function GivenObject(s: State, op: Op): CObject {
    match op
    case Display(_, _) => CObject(WrapperType.Display, false, true, None, None, None, None)
    case FromC(kind, foreign, _, queue) => CObject(kind, foreign, true, None, queue, None, None)
    case Request(parent, _, _) => NewProxy(ObjectQueue(s, parent))
    case CreateWrapper(j, _) =>
      var wraps := if User(j) in s.slots then s.slots[User(j)].ptr else None;
      CObject(ProxyWrapper, false, true, None, ObjectQueue(s, j), wraps, None)
    case Begin(target, _) => NewProxy(if target in s.objects then s.objects[target].queue else None)
    case _ => NOTHING
  }

  lemma CreationMade(s: State, op: Op)
    requires Inv(s) && Enabled(s, op) && Ranked(s) && Creates(op)
    ensures Made(s, Step(s, op), GivenQueue(s, op), GivenObject(s, op))
  {
    CoreNumbers(s);
    match op
    case Display(k, junk) => ConnectMade(s, User(k), junk);
    case FromC(kind, foreign, theirs, queue) =>
      CreateMade(s, kind, foreign, if foreign then theirs else None, queue, None, None);
    case Raw(k, o, v) => RawMade(s, User(k), o, QueueOf(s, v));
    case RawNull(k, typ) => SameMade(s, Step(s, op), None, NOTHING);
    case RawForeign(k, o) => ConstructMade(s, User(k), o, Foreign, None, false, NOTHING);
    case Request(parent, k, junk) => RequestMade(s, parent, k, junk);
    case CreateWrapper(j, k) => WrapperMade(s, j, k);
  }

  lemma ConnectMade(s: State, k: Slot, junk: Option<nat>)
    requires Numbers(s)
    ensures Made(s, Connect(s, k, junk), None, CObject(WrapperType.Display, false, true, None, None, None, None))
  {
    var made := CObject(WrapperType.Display, false, true, None, None, None, None);
    var m := CreateObject(s, WrapperType.Display, false, junk, None, None);
    CreateMade(s, WrapperType.Display, false, junk, None, None, None);
    ConstructMade(m, k, s.nextObject, WrapperType.Display, None, true, made);
    MadeThenMade(s, m, Connect(s, k, junk), None, made);
  }

  lemma RequestMade(s: State, parent: nat, k: nat, junk: Option<nat>)
    requires Inv(s) && Enabled(s, Request(parent, k, junk))
    ensures Made(s, MarshalConstructor(s, User(parent), User(k), junk), RecordQueue(s, parent),
                 NewProxy(ObjectQueue(s, parent)))
  {
    var h := s.slots[User(parent)];
    CoreNumbers(s);
    PointsAtLive(s, User(parent));
    if h.ptr.Some? {
      IntroduceMade(s, User(k), junk, ObjectQueue(s, parent), RecordQueue(s, parent), InStep(s, h));
    } else {
      SameMade(s, s, RecordQueue(s, parent), NewProxy(ObjectQueue(s, parent)));
    }
  }

  lemma PointsAtLive(s: State, k: Slot)
    requires Inv(s) && k in s.slots
    ensures s.slots[k].ptr.Some? ==> s.slots[k].ptr.value in s.objects && s.objects[s.slots[k].ptr.value].alive
    ensures s.slots[k].data.Some? ==>
      var d := s.slots[k].data.value;
      d in s.datas && s.slots[k].ptr == Some(s.datas[d].obj) && s.slots[k].typ == s.datas[d].typ
  {
    assert SlotOK(s, k);
    if s.slots[k].data.Some? {
      assert DataOK(s, s.slots[k].data.value);
    } else if s.slots[k].ptr.Some? {
      assert ObjectOK(s, s.slots[k].ptr.value);
    }
  }

  lemma WrapperMade(s: State, j: nat, k: nat)
    requires Inv(s) && Enabled(s, CreateWrapper(j, k))
    ensures Made(s, Wrap(s, User(j), User(k)), GivenQueue(s, CreateWrapper(j, k)), GivenObject(s, CreateWrapper(j, k)))
  {
    CoreNumbers(s);
    PointsAtLive(s, User(j));
    if s.slots[User(j)].ptr.Some? {
      WrapMade(s, User(j), User(k));
    } else {
      SameMade(s, s, GivenQueue(s, CreateWrapper(j, k)), GivenObject(s, CreateWrapper(j, k)));
    }
  }

  // The operations that make, copy or move handles, dispatches included.
  predicate Makes(op: Op) {
    Creates(op) || op.Begin? || (MovesHandles(op) && !op.Drop? && !op.Empty?)
  }

  lemma MakingMade(s: State, op: Op)
    requires Inv(s) && Enabled(s, op) && Ranked(s) && Makes(op)
    ensures Made(s, Step(s, op), GivenQueue(s, op), GivenObject(s, op))
  {
    CoreNumbers(s);
    match op
    case Begin(target, args) => BeginMade(s, target, args);
    case Assign(k, j) => AssignMade(s, User(k), User(j), None, NOTHING);
    case Copy(k, j) => CopyMade(s, User(k), User(j));
    case Keep(k, i) => CopyMade(s, User(k), Frame(|s.frames| - 1, i));
    case Default(_) => SameMade(s, Step(s, op), None, NOTHING);
    case Move(_, _) => SameMade(s, Step(s, op), None, NOTHING);
    case MoveInto(_, _) => SameMade(s, Step(s, op), None, NOTHING);
    case _ => CreationMade(s, op);
  }

  lemma CopyMade(s: State, k: Slot, j: Slot)
    requires j in s.slots
    ensures Made(s, CopyConstruct(s, k, j), None, NOTHING)
  {
    AcquireMade(s, k, s.slots[j], None, NOTHING);
    SameMade(s, s, None, NOTHING);
  }

  // ------------------------------------------- operations that release and set fields

  // What is left after releases is as it was, but for the counts.
  lemma ReleasingShrinks(s: State, op: Op)
    requires Inv(s) && Enabled(s, op) && Ranked(s) && (op.Drop? || op.Empty? || op.End?)
    ensures DatasShrink(s, Step(s, op)) && ObjectsShrink(s, Step(s, op)) && Step(s, op).queueVars == s.queueVars
  {
    match op
    case Drop(k) => ReleaseCore(s, User(k));
    case Empty(k) => ReleaseCore(s, User(k));
    case End => EndInv(s);
  }

  // The values a record has after an operation, if the operation set them.
  function EventsAfter(s: State, op: Op, d: nat): Option<nat>
    requires d in s.datas
  {
    if op.Events? && On(s, op.k, d) && s.datas[d].events.None? then Some(op.events) else s.datas[d].events
  }

  function OpcodeAfter(s: State, op: Op, d: nat): Option<nat>
    requires d in s.datas
  {
    if op.DestroyOpcode? && On(s, op.k, d) && s.datas[d].typ != WrapperType.Display then Some(op.opcode)
    else s.datas[d].destroyOpcode
  }

  function QueueAfter(s: State, op: Op, d: nat): Option<nat>
    requires d in s.datas
  {
    if op.AssignQueue? && On(s, op.k, d) then VariableQueue(s, op.queue) else s.datas[d].queue
  }

  function RecordedAfter(s: State, op: Op, o: nat): Option<nat>
    requires o in s.objects
  {
    if op.DestroyOpcode? && At(s, op.k, o) && s.slots[User(op.k)].data.Some?
       && s.slots[User(op.k)].typ != WrapperType.Display
    then Some(op.opcode) else s.objects[o].recorded
  }

  function ObjectQueueAfter(s: State, op: Op, o: nat): Option<nat>
    requires o in s.objects
  {
    if op.AssignQueue? && At(s, op.k, o) then VariableQueue(s, op.queue) else s.objects[o].queue
  }

  // Record d and object o as the operation sets them.
  ghost predicate SetRecord(s: State, t: State, op: Op, d: nat) {
    && t.datas.Keys == s.datas.Keys
    && (d in s.datas ==>
          t.datas[d] == s.datas[d].(events := EventsAfter(s, op, d), destroyOpcode := OpcodeAfter(s, op, d),
                                    queue := QueueAfter(s, op, d), inStep := t.datas[d].inStep))
  }

  ghost predicate SetObject(s: State, t: State, op: Op, o: nat) {
    && t.objects.Keys == s.objects.Keys
    && (o in s.objects ==>
          t.objects[o] == s.objects[o].(recorded := RecordedAfter(s, op, o), queue := ObjectQueueAfter(s, op, o)))
  }

  lemma SettingFields(s: State, op: Op, d: nat, o: nat)
    requires Inv(s) && Enabled(s, op) && Ranked(s) && Sets(op)
    ensures SetRecord(s, Step(s, op), op, d) && SetObject(s, Step(s, op), op, o)
  {
    if op.AssignQueue? {
      RequeuedFields(s, op, Step(s, op), d, o);
    } else if op.Events? {
      EventsFields(s, op, Step(s, op), d, o);
    } else if op.DestroyOpcode? {
      OpcodeFields(s, op, Step(s, op), d, o);
    } else {
      VariableFields(s, op, Step(s, op), d, o);
    }
  }

  lemma VariableFields(s: State, op: Op, t: State, d: nat, o: nat)
    requires Enabled(s, op) && Ranked(s) && (op.NewQueue? || op.CopyQueueVar? || op.DropQueueVar?) && t == Step(s, op)
    ensures SetRecord(s, t, op, d) && SetObject(s, t, op, o)
  {
  }

  lemma EventsFields(s: State, op: Op, t: State, d: nat, o: nat)
    requires Inv(s) && Enabled(s, op) && Ranked(s) && op.Events? && t == SetEvents(s, User(op.k), op.events)
    ensures SetRecord(s, t, op, d) && SetObject(s, t, op, o)
  {
    PointsAtLive(s, User(op.k));
  }

  lemma RequeuedFields(s: State, op: Op, t: State, d: nat, o: nat)
    requires Inv(s) && Enabled(s, op) && Ranked(s) && op.AssignQueue?
    requires t == SetQueue(s, User(op.k), QueueOf(s, op.queue))
    ensures SetRecord(s, t, op, d) && SetObject(s, t, op, o)
  {
    var h := s.slots[User(op.k)];
    PointsAtLive(s, User(op.k));
    if h.ptr.Some? {
      Requeued(s, t, User(op.k), QueueOf(s, op.queue));
      RequeuedSets(s, op, t, d, o);
    }
  }

  lemma RequeuedSets(s: State, op: Op, t: State, d: nat, o: nat)
    requires op.AssignQueue? && User(op.k) in s.slots && (op.queue.Some? ==> op.queue.value in s.queueVars)
    requires var h := s.slots[User(op.k)];
      && h.ptr.Some? && h.ptr.value in s.objects && (h.data.Some? ==> h.data.value in s.datas)
      && t.objects == s.objects[h.ptr.value := s.objects[h.ptr.value].(queue := VariableQueue(s, op.queue))]
      && t.datas == if h.data.None? then s.datas else
           s.datas[h.data.value := s.datas[h.data.value].(queue := VariableQueue(s, op.queue), inStep := true)]
    ensures SetRecord(s, t, op, d) && SetObject(s, t, op, o)
  {
  }

  lemma Requeued(s: State, t: State, k: Slot, queue: Option<nat>)
    requires k in s.slots && t == SetQueue(s, k, queue)
    requires s.slots[k].ptr.Some? && s.slots[k].ptr.value in s.objects && s.objects[s.slots[k].ptr.value].alive
    requires s.slots[k].data.Some? ==> s.slots[k].data.value in s.datas
    ensures var o := s.slots[k].ptr.value; t.objects == s.objects[o := s.objects[o].(queue := queue)]
    ensures t.datas == if s.slots[k].data.None? then s.datas else
      s.datas[s.slots[k].data.value := s.datas[s.slots[k].data.value].(queue := queue, inStep := true)]
  {
  }

  lemma OpcodeFields(s: State, op: Op, t: State, d: nat, o: nat)
    requires Inv(s) && Enabled(s, op) && Ranked(s) && op.DestroyOpcode?
    requires t == SetDestroyOpcode(s, User(op.k), op.opcode)
    ensures SetRecord(s, t, op, d) && SetObject(s, t, op, o)
  {
    PointsAtLive(s, User(op.k));
  }

  // -------------------------------------------------------------- every operation

  // The handlers of a record are those of the first set_events on it, its opcode is that
  // of set_destroy_opcode and its queue that of set_queue, through whichever handle, and
  // of the last one; a new record has no handlers, no opcode, and the queue asked for or
  // its parent's.
  lemma RecordFields(s: State, op: Op, d: nat)
    requires Inv(s) && Enabled(s, op) && Ranked(s) && d in Step(s, op).datas
    ensures var r := Step(s, op).datas[d];
      if d in s.datas then
        && r.obj == s.datas[d].obj && r.typ == s.datas[d].typ
        && r.events == EventsAfter(s, op, d)
        && r.destroyOpcode == OpcodeAfter(s, op, d)
        && r.queue == QueueAfter(s, op, d)
      else
        r.events.None? && r.destroyOpcode.None? && r.queue == GivenQueue(s, op)
  {
    if Makes(op) {
      MakingMade(s, op);
      assert MadeRecord(s, Step(s, op), GivenQueue(s, op), d);
    } else if Sets(op) {
      SettingFields(s, op, d, 0);
    } else {
      ReleasingShrinks(s, op);
    }
  }

  // The opcode recorded for an object changes exactly by set_destroy_opcode through an
  // owning handle that is no display's, its queue exactly by set_queue; an object that a
  // request, a wrapper or an event makes is on the queue of what it comes from.
  lemma ObjectFields(s: State, op: Op, o: nat)
    requires Inv(s) && Enabled(s, op) && Ranked(s)
    ensures o in s.objects ==> o in Step(s, op).objects
    ensures o in Step(s, op).objects ==>
      var c := Step(s, op).objects[o];
      if o in s.objects then
        && (c.kind, c.foreign, c.wraps) == (s.objects[o].kind, s.objects[o].foreign, s.objects[o].wraps)
        && c.recorded == RecordedAfter(s, op, o)
        && c.queue == ObjectQueueAfter(s, op, o)
      else
        c == GivenObject(s, op).(userData := c.userData)
  {
    if Makes(op) {
      MakingMade(s, op);
      assert MadeObject(s, Step(s, op), GivenObject(s, op), o);
    } else if Sets(op) {
      SettingFields(s, op, 0, o);
    } else {
      ReleasingShrinks(s, op);
    }
  }

  // Setting the destroy opcode changes nothing else anywhere.
  lemma DestroyOpcodeExactly(s: State, k: nat, opcode: nat)
    requires Inv(s) && User(k) in s.slots && s.slots[User(k)].data.Some?
    requires s.slots[User(k)].typ != WrapperType.Display
    ensures var t, d := SetDestroyOpcode(s, User(k), opcode), s.slots[User(k)].data.value;
      && d in s.datas && s.slots[User(k)].ptr.Some? && s.slots[User(k)].ptr.value in s.objects
      && (var o := s.slots[User(k)].ptr.value;
          && d in t.datas && t.datas[d].destroyOpcode == Some(opcode)
          && o in t.objects && t.objects[o].recorded == Some(opcode)
          && t == s.(datas := s.datas[d := s.datas[d].(destroyOpcode := Some(opcode))],
                     objects := s.objects[o := s.objects[o].(recorded := Some(opcode))]))
  {
    PointsAtLive(s, User(k));
  }

  // A variable of the program refers to the queue it was made with or copied from.
  lemma QueueVariables(s: State, op: Op, v: nat)
    requires Inv(s) && Enabled(s, op) && Ranked(s)
    ensures var t := Step(s, op);
      && (v in t.queueVars <==> (v in s.queueVars && op != DropQueueVar(v)) || op == NewQueue(v)
                                || (op.CopyQueueVar? && op.w == v))
      && (v in t.queueVars ==>
            t.queueVars[v] == if op.NewQueue? && op.v == v then Some(s.nextQueue)
                              else if op.CopyQueueVar? && op.w == v then VariableQueue(s, Some(op.v))
                              else s.queueVars[v])
      && (op.NewQueue? ==> s.nextQueue !in s.queues && t.queues == s.queues[s.nextQueue := true])
  {
    if Makes(op) {
      MakingMade(s, op);
    } else if Sets(op) {
      SettingVariables(s, op);
    } else {
      ReleasingShrinks(s, op);
    }
  }

  lemma SettingVariables(s: State, op: Op)
    requires Inv(s) && Enabled(s, op) && Ranked(s) && Sets(op)
    ensures var t := Step(s, op);
      t.queueVars == if op.NewQueue? then s.queueVars[op.v := Some(s.nextQueue)]
                     else if op.CopyQueueVar? then s.queueVars[op.w := s.queueVars[op.v]]
                     else if op.DropQueueVar? then s.queueVars - {op.v}
                     else s.queueVars
    ensures op.NewQueue? ==> s.nextQueue !in s.queues && Step(s, op).queues == s.queues[s.nextQueue := true]
  {
    FreshKeys(s);
    if op.AssignQueue? {
      SetQueueVariables(s, User(op.k), QueueOf(s, op.queue));
    }
  }

  lemma SetQueueVariables(s: State, k: Slot, queue: Option<nat>)
    requires k in s.slots
    ensures SetQueue(s, k, queue).queueVars == s.queueVars
  {
  }

  // The running dispatchers: a dispatch to a proxy with a record remembers the record
  // and the handler storage it has then, its end forgets them, and nothing else does.
  lemma FramesExactly(s: State, op: Op)
    requires Inv(s) && Enabled(s, op) && Ranked(s) && Safe(s, op)
    ensures var t := Step(s, op);
      match op
      case Begin(target, args) =>
        if s.objects[target].userData.None? then t.frames == s.frames
        else
          var d := s.objects[target].userData.value;
          d in s.datas && t.frames == s.frames + [Dispatching(target, d, s.datas[d].events, |args|)]
      case End => t.frames == s.frames[..|s.frames| - 1]
      case _ => t.frames == s.frames
  {
    if op.Begin? {
      if s.objects[op.target].userData.Some? { BeginFrame(s, op.target, op.args); }
    } else if op.End? {
      EndInv(s);
    } else {
      StepGentle(s, op);
    }
  }

  lemma BeginFrame(s: State, target: nat, args: seq<ObjectArgument>)
    requires Inv(s) && Enabled(s, Begin(target, args)) && Safe(s, Begin(target, args))
    requires s.objects[target].userData.Some?
    ensures var d := s.objects[target].userData.value;
      && d in s.datas
      && DispatchBegin(s, target, args).frames == s.frames + [Dispatching(target, d, s.datas[d].events, |args|)]
  {
    var depth, queue, d := |s.frames|, s.objects[target].queue, s.objects[target].userData.value;
    assert ObjectOK(s, target);
    SafeIsHarmless(s, args);
    FramesShallow(s);
    UnpackBase(s, depth, args, queue);
    var m := UnpackArguments(s, depth, args, 0, queue);
    assert UnpackedObject(s, m, target) && OnlyCounted(s, m, d);
    var h := Handle(Some(target), Some(d), Standard);
    assert Construct(m, Frame(depth, 0), target, Standard, None, false) == Acquire(m, Frame(depth, 0), h);
  }

  // -------------------------------------------------------------------- whole runs

  predicate AsksOpcode(ops: seq<Op>, opcode: nat) {
    exists i :: 0 <= i < |ops| && ops[i].DestroyOpcode? && ops[i].opcode == opcode
  }

  predicate AsksEvents(ops: seq<Op>, events: nat) {
    exists i :: 0 <= i < |ops| && ops[i].Events? && ops[i].events == events
  }

  lemma LongerAsks(ops: seq<Op>, opcode: nat, events: nat)
    requires ops != []
    ensures AsksOpcode(ops[..|ops| - 1], opcode) ==> AsksOpcode(ops, opcode)
    ensures AsksEvents(ops[..|ops| - 1], events) ==> AsksEvents(ops, events)
  {
  }

  // Over every run: an opcode recorded for an object was asked for by the program.
  lemma {:induction false} RecordedWasAsked(ops: seq<Op>, s: State, o: nat, opcode: nat)
    requires Reaches(ops, s) && s.mixups == 0 && o in s.objects && s.objects[o].recorded == Some(opcode)
    ensures AsksOpcode(ops, opcode)
    decreases |ops|
  {
    if ops != [] {
      var r, op := LastStep(ops, s);
      ObjectFields(r, op, o);
      if o in r.objects && r.objects[o].recorded == Some(opcode) {
        RecordedWasAsked(ops[..|ops| - 1], r, o, opcode);
        LongerAsks(ops, opcode, 0);
      } else {
        assert ops[|ops| - 1] == op;
      }
    }
  }

  lemma LastStep(ops: seq<Op>, s: State) returns (r: State, op: Op)
    requires ops != [] && Reaches(ops, s) && s.mixups == 0
    ensures op == ops[|ops| - 1] && Reaches(ops[..|ops| - 1], r) && r.mixups == 0
    ensures Inv(r) && Ranked(r) && Enabled(r, op) && Safe(r, op) && s == Step(r, op)
  {
    op := ops[|ops| - 1];
    r := RunSplits(INITIAL, ops, s);
    StepWorse(r, op);
    RunKeepsInv(ops[..|ops| - 1], r);
    WasSafe(r, op);
  }

  // And the destroy requests a run sends carry opcodes the program set.
  lemma RequestsWereAsked(ops: seq<Op>, s: State, i: nat)
    requires Reaches(ops, s) && s.mixups == 0 && i < |s.trace| && s.trace[i].DestroyRequest?
    ensures AsksOpcode(ops, s.trace[i].opcode)
  {
    RunKeepsInv(ops, s);
    assert CallOK(s, i) && CallOK(s, i + 1);
    RecordedWasAsked(ops, s, s.trace[i].obj, s.trace[i].opcode);
  }

  // The handlers a record holds, and those a dispatcher calls, were set by the program.
  lemma {:induction false} HandlersWereSet(ops: seq<Op>, s: State, events: nat)
    requires Reaches(ops, s) && s.mixups == 0
    requires (exists d | d in s.datas :: s.datas[d].events == Some(events))
             || (exists i | 0 <= i < |s.frames| :: s.frames[i].events == Some(events))
    ensures AsksEvents(ops, events)
    decreases |ops|
  {
    if ops != [] {
      var r, op := LastStep(ops, s);
      LongerAsks(ops, 0, events);
      if d :| d in s.datas && s.datas[d].events == Some(events) {
        RecordFields(r, op, d);
      } else {
        FramesExactly(r, op);
      }
      if !AsksEvents(ops, events) {
        assert ops[|ops| - 1] == op;
        HandlersWereSet(ops[..|ops| - 1], r, events);
      }
    }
  }

  // -------------------------------------------------------------------- copying

  // Copying a handle succeeds exactly if it points at something or is an empty standard
  // one, whatever else it holds; otherwise it throws and there is no new handle.
  lemma CopiesIff(s: State, op: Op)
    requires Inv(s) && Enabled(s, op) && Ranked(s) && (op.Copy? || op.Keep?)
    ensures var from := if op.Copy? then User(op.j) else Frame(|s.frames| - 1, op.argument);
      if s.slots[from].ptr.Some? || s.slots[from].typ == Standard
      then User(op.k) in Step(s, op).slots && Step(s, op).slots[User(op.k)] == s.slots[from]
      else Step(s, op) == s
  {
    var from := if op.Copy? then User(op.j) else Frame(|s.frames| - 1, op.argument);
    PointsAtLive(s, from);
    assert SlotOK(s, from);
    assert s.slots[from].data.Some? ==> DataOK(s, s.slots[from].data.value);
  }
}
