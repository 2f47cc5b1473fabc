// Client-side ownership of C objects: the state proxy_t works on and what each of
// its operations does to it (src/wayland-client.cpp).
//
// Memory is explicit here, because the point is that nothing is freed too early,
// twice or never: a proxy_data_t is an entry of `datas` that `delete data` removes,
// a C object is an entry of `objects` that a libwayland destroy function marks dead,
// and every place that stores a proxy_t is a slot.  Using freed memory, calling a
// destroy function on a dead object or on one of another kind, touching what belongs
// to another library, leading a display away from its record and destroying a queue
// under an owned proxy set `fault`; the invariant in ProxyInvariant says which runs do
// not.
//
// Fields marked "history" are not in the program: they record the past for the
// statements that need it and no operation branches on them.

module ProxyState {
  import opened Common
  import opened Handles

  datatype WrapperType = Standard | Display | Foreign | ProxyWrapper

  type ProxyHandle = Handle<WrapperType>

  // Where a proxy_t can live: in a variable of the program, in the `wrapped_proxy`
  // member of a data record, or in a running c_dispatcher (index 0 is its local `p`,
  // index i + 1 the i-th element of `vargs`).
  datatype Slot = User(name: nat) | Wrapped(owner: nat) | Frame(depth: nat, index: nat)

  // proxy_data_t.
  datatype Data = Data(
    events: Option<nat>,
    destroyOpcode: Option<nat>,
    counter: int,
    queue: Option<nat>,
    obj: nat,        // history: the C object this record was created for
    typ: WrapperType,   // history: the wrapper type it was created with
    leaked: nat,        // history: copy assignments that overwrote a counted handle to it
    inStep: bool)       // history: see below

  // A record is in step if it was made by connecting to a display, by a request on a
  // proxy in step or by wrapping one, or if set_queue has been called on it.

  // A wl_proxy, wl_display or proxy wrapper, as libwayland sees it.  Queue None is
  // the display's default queue.  A foreign object belongs to another library, and so
  // does its user data if there is any.
  datatype CObject = CObject(
    kind: WrapperType,
    foreign: bool,
    alive: bool,
    userData: Option<nat>,
    queue: Option<nat>,
    wraps: Option<nat>,     // history: the object a wrapper was created from
    recorded: Option<nat>)  // history: the destroy opcode recorded for it

  // The libwayland calls whose order matters.
  datatype CCall =
    | DestroyRequest(obj: nat, opcode: nat)
    | ProxyDestroy(obj: nat)
    | WrapperDestroy(obj: nat)
    | DisplayDisconnect(obj: nat)
    | QueueDestroy(queue: nat)

  // A running c_dispatcher: its target, the target's data record and the handler
  // storage it passes to the generated dispatcher.
  datatype Dispatching = Dispatching(target: nat, data: nat, events: Option<nat>, arguments: nat)

  datatype State = State(
    slots: map<Slot, ProxyHandle>,
    datas: map<nat, Data>,
    objects: map<nat, CObject>,
    queues: map<nat, bool>,
    queueVars: map<nat, Option<nat>>,
    frames: seq<Dispatching>,
    nextData: nat,
    nextObject: nat,
    nextQueue: nat,
    trace: seq<CCall>,
    overwrites: nat,  // history: copy assignments so far that overwrote a counted handle
    mixups: nat,      // history: foreign objects so far that events have carried, and
                      // displays that have been given another record
    fault: bool)

  const EMPTY: ProxyHandle := Handle(None, None, Standard)

  const INITIAL := State(map[], map[], map[], map[], map[], [], 0, 0, 0, [], 0, 0, false)

  // The combinations operator= accepts; for any other it throws "Invalid proxy.".
  predicate Copyable(h: ProxyHandle) {
    || (h.typ == Standard && h.data.None? && h.ptr.None?)
    || (h.typ == Foreign && h.data.None? && h.ptr.Some?)
    || (h.typ != Foreign && h.data.Some? && h.ptr.Some?)
  }

  // ---------------------------------------------------------------- libwayland

  function CreateObject(s: State, kind: WrapperType, foreign: bool, junk: Option<nat>,
                        queue: Option<nat>, wraps: Option<nat>): State
  {
    s.(objects := s.objects[s.nextObject := CObject(kind, foreign, true, junk, queue, wraps, None)],
       nextObject := s.nextObject + 1)
  }

  function SetUserData(s: State, o: nat, data: Option<nat>): State {
    if o in s.objects && s.objects[o].alive
    then s.(objects := s.objects[o := s.objects[o].(userData := data)], fault := s.fault || s.objects[o].foreign)
    else s.(fault := true)
  }

  // wl_proxy_destroy, wl_proxy_wrapper_destroy or wl_display_disconnect on o.
  function CDestroy(s: State, o: nat, call: CCall, kind: WrapperType): State {
    if o !in s.objects then s.(fault := true)
    else
      var c := s.objects[o];
      s.(objects := s.objects[o := c.(alive := false)], trace := s.trace + [call],
         fault := s.fault || !c.alive || c.kind != kind || c.foreign)
  }

  predicate QueueReferenced(s: State, q: nat) {
    || (exists d | d in s.datas :: s.datas[d].queue == Some(q))
    || (exists v | v in s.queueVars :: s.queueVars[v] == Some(q))
  }

  // Some owned proxy still has its events delivered to q.
  predicate Stranded(s: State, q: nat) {
    exists d | d in s.datas ::
      && s.datas[d].inStep && s.datas[d].counter > 0
      && s.datas[d].obj in s.objects && s.objects[s.datas[d].obj].queue == Some(q)
  }

  // An event_queue_t that held q has just gone: the shared_ptr calls
  // wl_event_queue_destroy if it was the last one.
  function DropQueue(s: State, q: Option<nat>): State {
    if q.None? || QueueReferenced(s, q.value) then s
    else s.(queues := s.queues[q.value := false], trace := s.trace + [QueueDestroy(q.value)],
            fault := s.fault || q.value !in s.queues || !s.queues[q.value] || Stranded(s, q.value))
  }

  // ------------------------------------------------------------------- proxy_t

  // proxy_t(wl_proxy*, wrapper_type, queue) stored in slot k.  Another library's user
  // data would be taken for a proxy_data_t.
  function Construct(s: State, k: Slot, o: nat, typ: WrapperType, queue: Option<nat>, inStep: bool): State {
    if typ == Foreign then s.(slots := s.slots[k := Handle(Some(o), None, typ)])
    else if o !in s.objects then s.(fault := true)
    else if typ != Display && s.objects[o].foreign && s.objects[o].userData.Some? then s.(fault := true)
    else
      var found := if typ != Display then s.objects[o].userData else None;
      match found
      case None =>
        var d := s.nextData;
        SetUserData(
          s.(slots := s.slots[Wrapped(d) := EMPTY][k := Handle(Some(o), Some(d), typ)],
             datas := s.datas[d := Data(None, None, 1, queue, o, typ, 0, inStep)],
             nextData := d + 1),
          o, Some(d))
      case Some(d) => Acquire(s, k, Handle(Some(o), Some(d), typ))
  }

  // The same constructor called by the program, for a pointer of the wrapper type it
  // belongs to.  For a display no record is looked for: if there is one, the display's
  // user data is made to lead away from it.
  function ConstructRaw(s: State, k: Slot, o: nat, queue: Option<nat>): State
    requires o in s.objects
  {
    var c := s.objects[o];
    Construct(if c.kind == Display && c.userData.Some? then s.(mixups := s.mixups + 1, fault := true) else s,
              k, o, c.kind, queue, false)
  }

  // Store h in slot k and count it.
  function Acquire(s: State, k: Slot, h: ProxyHandle): State {
    var s1 := s.(slots := s.slots[k := h]);
    if h.data.None? then s1
    else if h.data.value !in s.datas then s1.(fault := true)
    else
      var r := s.datas[h.data.value];
      s1.(datas := s.datas[h.data.value := r.(counter := r.counter + 1)])
  }

  // operator=(const proxy_t&): the overwritten handle is not released.
  function CopyAssign(s: State, k: Slot, j: Slot): State
    requires k in s.slots && j in s.slots
  {
    if k == j then s else
    var overwritten := s.slots[k].data;
    var s1 :=
      if overwritten.None? then s
      else if overwritten.value !in s.datas then s.(fault := true)
      else
        var r := s.datas[overwritten.value];
        s.(datas := s.datas[overwritten.value := r.(leaked := r.leaked + 1)],
           overwrites := s.overwrites + 1);
    Acquire(s1, k, s.slots[j])
  }

  function CopyConstruct(s: State, k: Slot, j: Slot): State
    requires j in s.slots
  {
    if Copyable(s.slots[j]) then Acquire(s, k, s.slots[j]) else s
  }

  function MoveAssign(s: State, k: Slot, j: Slot): State
    requires k in s.slots && j in s.slots
  {
    s.(slots := s.slots[k := s.slots[j]][j := s.slots[k]])
  }

  function MoveConstruct(s: State, k: Slot, j: Slot): State
    requires j in s.slots
  {
    MoveAssign(s.(slots := s.slots[k := EMPTY]), k, j)
  }

  // No data record's wrapped proxy is younger than the record itself.
  predicate Ranked(s: State) {
    forall k | k in s.slots && k.Wrapped? && s.slots[k].data.Some? :: s.slots[k].data.value < k.owner
  }

  function Rank(h: ProxyHandle): nat {
    if h.data.Some? then h.data.value + 1 else 0
  }

  // The switch in proxy_release, for a handle to o whose record r has reached zero.
  function DestroyObject(s: State, o: nat, typ: WrapperType, r: Data): State {
    match typ
    case Standard =>
      var s1 := if r.destroyOpcode.Some?
                then s.(trace := s.trace + [DestroyRequest(o, r.destroyOpcode.value)]) else s;
      CDestroy(s1, o, ProxyDestroy(o), Standard)
    case ProxyWrapper => CDestroy(s, o, WrapperDestroy(o), ProxyWrapper)
    case Display => CDestroy(s, o, DisplayDisconnect(o), Display)
    case Foreign => s.(fault := true)
  }

  // The first half of proxy_release: empty the slot, count down and, at zero,
  // destroy the C object.
  function Detach(s: State, k: Slot): State
    requires k in s.slots
  {
    var h := s.slots[k];
    var s0 := s.(slots := s.slots[k := EMPTY.(typ := h.typ)]);
    if h.data.None? then s0
    else if h.data.value !in s.datas then s0.(fault := true)
    else
      var r := s.datas[h.data.value];
      var s1 := s0.(datas := s0.datas[h.data.value := r.(counter := r.counter - 1)]);
      if r.counter == 1 && h.ptr.Some? then DestroyObject(s1, h.ptr.value, h.typ, r) else s1
  }

  // proxy_release, including the destructors `delete data` runs: first the
  // wrapped proxy is released, then the retained queue.
  function Release(s: State, k: Slot): State
    requires k in s.slots && Ranked(s)
    decreases Rank(s.slots[k])
  {
    var h := s.slots[k];
    var s1 := Detach(s, k);
    if h.data.None? || h.data.value !in s.datas || s.datas[h.data.value].counter != 1 then s1
    else
      var d := h.data.value;
      var w := Wrapped(d);
      if w !in s1.slots then s1.(fault := true)
      else
        var s2 := Release(s1, w);
        var s3 := s2.(slots := s2.slots - {w}, datas := s2.datas - {d});
        DropQueue(s3, s.datas[d].queue)
  }

  // ~proxy_t.
  function Destroy(s: State, k: Slot): State
    requires k in s.slots && Ranked(s)
  {
    var s1 := Release(s, k);
    s1.(slots := s1.slots - {k})
  }

  predicate InStep(s: State, h: ProxyHandle) {
    h.data.Some? && h.data.value in s.datas && s.datas[h.data.value].inStep
  }

  function RetainedQueue(s: State, h: ProxyHandle): Option<nat> {
    if h.data.Some? && h.data.value in s.datas then s.datas[h.data.value].queue else None
  }

  // marshal_single with an interface: libwayland makes the new proxy inherit the
  // parent's C-side queue and leaves its user data uninitialised (`junk`).
  function MarshalConstructor(s: State, parent: Slot, k: Slot, junk: Option<nat>): State
    requires parent in s.slots
  {
    var h := s.slots[parent];
    if h.ptr.None? then s
    else if h.ptr.value !in s.objects || !s.objects[h.ptr.value].alive then s.(fault := true)
    else
      var o := s.nextObject;
      var s1 := CreateObject(s, Standard, false, junk, s.objects[h.ptr.value].queue, None);
      Construct(SetUserData(s1, o, None), k, o, Standard, RetainedQueue(s, h), InStep(s, h))
  }

  // proxy_t(wrapped_proxy, construct_proxy_wrapper_tag).
  function Wrap(s: State, j: Slot, k: Slot): State
    requires j in s.slots
  {
    var h := s.slots[j];
    if h.ptr.None? then s
    else if h.data.None? || h.ptr.value !in s.objects || !s.objects[h.ptr.value].alive
    then s.(fault := true)
    else
      var o, d := s.nextObject, s.nextData;
      var s1 := CreateObject(s, ProxyWrapper, false, None, s.objects[h.ptr.value].queue, h.ptr);
      var s2 := Construct(s1, k, o, ProxyWrapper, RetainedQueue(s, h), InStep(s, h));
      if Wrapped(d) in s2.slots && j in s2.slots then CopyAssign(s2, Wrapped(d), j)
      else s2.(fault := true)
  }

  // display_t(...): a fresh wl_display, whose user data libwayland has set.
  function Connect(s: State, k: Slot, junk: Option<nat>): State {
    var o := s.nextObject;
    Construct(CreateObject(s, Display, false, junk, None, None), k, o, Display, None, true)
  }

  // set_queue: the C side first, then the retained reference, so that the old
  // queue goes last.
  function SetQueue(s: State, k: Slot, queue: Option<nat>): State
    requires k in s.slots
  {
    var h := s.slots[k];
    if h.ptr.None? then s
    else if h.ptr.value !in s.objects || !s.objects[h.ptr.value].alive then s.(fault := true)
    else
      var s1 := s.(objects := s.objects[h.ptr.value := s.objects[h.ptr.value].(queue := queue)]);
      if h.data.None? then s1
      else if h.data.value !in s.datas then s1.(fault := true)
      else
        var r := s.datas[h.data.value];
        DropQueue(s1.(datas := s.datas[h.data.value := r.(queue := queue, inStep := true)]), r.queue)
  }

  function SetEvents(s: State, k: Slot, events: nat): State
    requires k in s.slots
  {
    var h := s.slots[k];
    if h.data.None? then s
    else if h.data.value !in s.datas then s.(fault := true)
    else
      var r := s.datas[h.data.value];
      if r.events.Some? then s else s.(datas := s.datas[h.data.value := r.(events := Some(events))])
  }

  // set_destroy_opcode; it throws on a display.
  function SetDestroyOpcode(s: State, k: Slot, opcode: nat): State
    requires k in s.slots
  {
    var h := s.slots[k];
    if h.typ == Display || h.data.None? then s
    else if h.data.value !in s.datas || h.ptr.None? || h.ptr.value !in s.objects then s.(fault := true)
    else
      var r := s.datas[h.data.value];
      s.(datas := s.datas[h.data.value := r.(destroyOpcode := Some(opcode))],
         objects := s.objects[h.ptr.value := s.objects[h.ptr.value].(recorded := Some(opcode))])
  }

  // -------------------------------------------------------------- event queues

  function CreateQueue(s: State, v: nat): State {
    s.(queues := s.queues[s.nextQueue := true], queueVars := s.queueVars[v := Some(s.nextQueue)],
       nextQueue := s.nextQueue + 1)
  }

  function DropQueueVar(s: State, v: nat): State
    requires v in s.queueVars
  {
    DropQueue(s.(queueVars := s.queueVars - {v}), s.queueVars[v])
  }

  // ------------------------------------------------------------------ dispatch

  predicate Foreigner(s: State, o: nat) {
    o in s.objects && s.objects[o].foreign
  }

  // What c_dispatcher finds at an 'o' or 'n' letter: no object, an existing one, or
  // one libwayland has just created for this event.  Any live proxy of the display can
  // come as an existing one, also another library's.
  datatype ObjectArgument = NullObject | Existing(obj: nat) | Introduced(junk: Option<nat>)

  function UnpackArgument(s: State, k: Slot, a: ObjectArgument, queue: Option<nat>): State {
    match a
    case NullObject => s.(slots := s.slots[k := EMPTY])
    case Existing(o) =>
      Construct(if Foreigner(s, o) then s.(mixups := s.mixups + 1) else s, k, o, Standard, None, false)
    case Introduced(junk) =>
      var o := s.nextObject;
      var s1 := CreateObject(s, Standard, false, junk, queue, None);
      Construct(SetUserData(s1, o, None), k, o, Standard, None, false)
  }

  // The arguments from number i on, in order.
  function UnpackArguments(s: State, depth: nat, args: seq<ObjectArgument>, i: nat, queue: Option<nat>): State
    decreases |args| - i
  {
    if i >= |args| then s
    else UnpackArguments(UnpackArgument(s, Frame(depth, i + 1), args[i], queue), depth, args, i + 1, queue)
  }

  // c_dispatcher up to the call of the generated dispatcher.
  function DispatchBegin(s: State, target: nat, args: seq<ObjectArgument>): State
    requires target in s.objects
  {
    if s.objects[target].userData.None? then s
    else DispatchTarget(UnpackArguments(s, |s.frames|, args, 0, s.objects[target].queue), target, |s.frames|, |args|)
  }

  // Its local handle p, and the call.
  function DispatchTarget(s: State, target: nat, depth: nat, n: nat): State {
    var p := Frame(depth, 0);
    var t := Construct(s, p, target, Standard, None, false);
    if p !in t.slots || t.slots[p].data.None? || t.slots[p].data.value !in t.datas then t.(fault := true)
    else
      var d := t.slots[p].data.value;
      t.(frames := t.frames + [Dispatching(target, d, t.datas[d].events, n)])
  }

  // The destructors of vargs' elements first..n, in order.
  function DropArguments(s: State, depth: nat, first: nat, n: nat): State
    requires Ranked(s)
    decreases n - first
  {
    if first >= n then s
    else
      var k := Frame(depth, first + 1);
      if k !in s.slots then s.(fault := true)
      else
        var s1 := Destroy(s, k);
        if Ranked(s1) then DropArguments(s1, depth, first + 1, n) else s1.(fault := true)
  }

  // The end of c_dispatcher: its locals are destroyed in reverse order, p before vargs.
  function DispatchEnd(s: State): State
    requires |s.frames| > 0 && Ranked(s)
  {
    var depth := |s.frames| - 1;
    var s0 := s.(frames := s.frames[..depth]);
    var p := Frame(depth, 0);
    if p !in s0.slots then s0.(fault := true)
    else
      var s1 := Destroy(s0, p);
      if Ranked(s1) then DropArguments(s1, depth, 0, s.frames[depth].arguments) else s1.(fault := true)
  }
}
