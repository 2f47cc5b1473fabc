// The lifetime of server-side event loops and of the callbacks they hold.
//
// An event_loop_t either owns its wl_event_loop or refers to the default loop of a
// display.  Its data record is found through a destroy listener, so it is freed when
// the loop goes and not when the last handle goes.  libwayland is handed pointers
// into the record's lists of functions.

module EventLoop {
  import opened Common
  import opened Handles

  type LoopHandle = Handle<()>

  const EMPTY: LoopHandle := Handle(None, None, ())

  datatype SourceKind = Fd | Timer | Signal | Idle

  // event_loop_t::data_t.  A registered function is represented by a number.
  datatype Record = Record(
    loop: nat,
    counter: int,
    doDelete: bool,
    fds: seq<nat>,
    timers: seq<nat>,
    signals: seq<nat>,
    idles: seq<nat>
  )

  // A wl_event_loop; its destroy listener names the data record.
  datatype CLoop = CLoop(managed: bool, alive: bool, listener: Option<nat>)

  // What libwayland holds for an event source: the trampoline to call and the pointer
  // to pass it, which is the address of an element of one of the record's lists.  The
  // last field is history: the function the program registered.
  datatype Source = Source(loop: nat, trampoline: SourceKind, data: nat, list: SourceKind, index: nat, registered: nat)

  datatype CCall = DestroyByHandle(loop: nat) | DestroyByDisplay(loop: nat) | Free(loop: nat, data: nat)

  datatype State = State(
    slots: map<nat, LoopHandle>,
    datas: map<nat, Record>,
    loops: map<nat, CLoop>,
    sources: map<nat, Source>,
    nextData: nat,
    nextLoop: nat,
    nextSource: nat,
    trace: seq<CCall>,
    fault: bool
  )

  const INITIAL := State(map[], map[], map[], map[], 0, 0, 0, [], false)

  function List(r: Record, kind: SourceKind): seq<nat> {
    match kind
    case Fd => r.fds
    case Timer => r.timers
    case Signal => r.signals
    case Idle => r.idles
  }

  function PushBack(r: Record, kind: SourceKind, f: nat): Record {
    match kind
    case Fd => r.(fds := r.fds + [f])
    case Timer => r.(timers := r.timers + [f])
    case Signal => r.(signals := r.signals + [f])
    case Idle => r.(idles := r.idles + [f])
  }

  // --------------------------------------------------------- member functions
  // Each sets `fault` where the source would use a record that has been freed.

  function Write(s: State, k: nat, h: LoopHandle): State {
    s.(slots := s.slots[k := h])
  }

  function Acquire(s: State, d: nat): State {
    if d !in s.datas then s.(fault := true)
    else s.(datas := s.datas[d := s.datas[d].(counter := s.datas[d].counter + 1)])
  }

  // wl_event_loop_destroy, with destroy_func run by the listener.
  function DestroyLoop(s: State, l: nat, call: CCall): State
    requires l in s.loops
  {
    var c := s.loops[l];
    var s1 := s.(loops := s.loops[l := CLoop(c.managed, false, None)], fault := s.fault || !c.alive);
    match c.listener
    case None => s1.(trace := s.trace + [call])
    case Some(d) => s1.(datas := s.datas - {d}, trace := s.trace + [call, Free(l, d)])
  }

  function Fini(s: State, h: LoopHandle): State {
    if h.data.None? || h.data.value !in s.datas then s.(fault := true)
    else
      var d := h.data.value;
      var r := s.datas[d].(counter := s.datas[d].counter - 1);
      var s1 := s.(datas := s.datas[d := r]);
      if r.counter != 0 || !r.doDelete then s1
      else if r.loop !in s.loops then s1.(fault := true)
      else DestroyLoop(s1, r.loop, DestroyByHandle(r.loop))
  }

  function Init(s: State, k: nat, l: nat, managed: bool): State {
    s.(slots := s.slots[k := Handle(Some(l), Some(s.nextData), ())],
       datas := s.datas[s.nextData := Record(l, 1, !managed, [], [], [], [])],
       loops := s.loops[l := CLoop(managed, true, Some(s.nextData))],
       nextData := s.nextData + 1)
  }

  function Attach(s: State, k: nat, h: LoopHandle): State {
    if h.data.None? then s.(fault := true) else Acquire(Write(s, k, h), h.data.value)
  }

  function Vacate(s: State, k: nat): State
    requires k in s.slots
  {
    Write(Fini(s, s.slots[k]), k, EMPTY)
  }

  function Assign(s: State, k: nat, j: nat): State
    requires k in s.slots && j in s.slots
  {
    if k == j then s
    else Attach(Vacate(s, k), k, s.slots[j])
  }

  function Swap(s: State, k: nat, j: nat): State
    requires k in s.slots && j in s.slots
  {
    s.(slots := s.slots[k := s.slots[j]][j := s.slots[k]])
  }

  // add_fd, add_timer, add_signal and add_idle.
  function AddSource(s: State, k: nat, kind: SourceKind, f: nat): State
    requires k in s.slots
  {
    var h := s.slots[k];
    if h.ptr.None? || h.data.None? || h.data.value !in s.datas then s.(fault := true)
    else
      var d := h.data.value;
      var r := PushBack(s.datas[d], kind, f);
      s.(datas := s.datas[d := r],
         sources := s.sources[s.nextSource := Source(h.ptr.value, kind, d, kind, |List(r, kind)| - 1, f)],
         nextSource := s.nextSource + 1)
  }

  // What the trampoline finds when it casts the pointer and calls through it.
  function Callee(s: State, source: Source): Option<nat> {
    if source.data !in s.datas || source.trampoline != source.list then None
    else
      var list := List(s.datas[source.data], source.list);
      if source.index < |list| then Some(list[source.index]) else None
  }

  // --------------------------------------------------------------------- runs

  datatype Op =
    | New(k: nat)
    | NewDisplay
    | Lookup(k: nat, loop: nat)
    | Copy(k: nat, j: nat)
    | CopyInto(k: nat, j: nat)
    | MoveInto(k: nat, j: nat)
    | Drop(k: nat)
    | Add(k: nat, kind: SourceKind, f: nat)
    | RemoveSource(id: nat)
    | DestroyDisplay(loop: nat)

  // Only a display's default loop is looked up by pointer (display_t::get_event_loop).
  predicate Enabled(s: State, op: Op) {
    match op
    case New(k) => k !in s.slots
    case NewDisplay => true
    case Lookup(k, l) => k !in s.slots && l in s.loops && s.loops[l].alive && s.loops[l].managed
    case Copy(k, j) => k !in s.slots && j in s.slots
    case CopyInto(k, j) => k in s.slots && j in s.slots
    case MoveInto(k, j) => k in s.slots && j in s.slots
    case Drop(k) => k in s.slots
    case Add(k, _, _) => k in s.slots
    case RemoveSource(_) => true
    case DestroyDisplay(l) => l in s.loops && s.loops[l].alive && s.loops[l].managed
  }

  function Step(s: State, op: Op): State
    requires Enabled(s, op)
  {
    match op
    case New(k) => Init(s.(nextLoop := s.nextLoop + 1), k, s.nextLoop, false)
    case NewDisplay => s.(loops := s.loops[s.nextLoop := CLoop(true, true, None)], nextLoop := s.nextLoop + 1)
    case Lookup(k, l) =>
      if s.loops[l].listener.None? then Init(s, k, l, true) else Attach(s, k, Handle(Some(l), s.loops[l].listener, ()))
    case Copy(k, j) => Attach(s, k, s.slots[j])
    case CopyInto(k, j) => Assign(s, k, j)
    case MoveInto(k, j) => Swap(s, k, j)
    case Drop(k) => Vacate(s, k).(slots := s.slots - {k})
    case Add(k, kind, f) => AddSource(s, k, kind, f)
    case RemoveSource(id) => s.(sources := s.sources - {id})
    case DestroyDisplay(l) => DestroyLoop(s, l, DestroyByDisplay(l))
  }

  // No handle refers to the data of the loop l.
  predicate Unheld(s: State, l: nat) {
    l in s.loops && s.loops[l].listener.Some? ==> |Holders(s.slots, s.loops[l].listener.value)| == 0
  }

  // A program may end a display once it has let go of the display's loop; that this
  // is needed is DestroyDisplaySafeIff.
  predicate Safe(s: State, op: Op) {
    op.DestroyDisplay? ==> Unheld(s, op.loop)
  }

  ghost predicate Reaches(ops: seq<Op>, s: State)
    decreases |ops|, 0
  {
    if ops == [] then s == INITIAL
    else Follows(ops[..|ops| - 1], ops[|ops| - 1], s)
  }

  ghost predicate Follows(before: seq<Op>, last: Op, s: State)
    decreases |before|, 1
  {
    exists r: State :: Reaches(before, r) && Leads(r, last, s)
  }

  predicate Leads(r: State, op: Op, s: State) {
    Enabled(r, op) && Safe(r, op) && s == Step(r, op)
  }

  // ---------------------------------------------------------------- invariant

  predicate SlotOK(s: State, k: nat) {
    k in s.slots ==>
      var h := s.slots[k];
      h.data.Some? && h.data.value in s.datas && h.ptr == Some(s.datas[h.data.value].loop)
  }

  predicate DataOK(s: State, d: nat) {
    d in s.datas ==>
      var r := s.datas[d];
      && d < s.nextData
      && r.counter == |Holders(s.slots, d)|
      && r.loop in s.loops
      && s.loops[r.loop] == CLoop(!r.doDelete, true, Some(d))
      && (r.doDelete ==> r.counter > 0)
  }

  predicate LoopOK(s: State, l: nat) {
    l in s.loops ==>
      var c := s.loops[l];
      && l < s.nextLoop
      && (c.listener.Some? ==> c.alive && c.listener.value in s.datas && s.datas[c.listener.value].loop == l)
      && (c.alive && !c.managed ==> c.listener.Some?)
  }

  predicate SourceOK(s: State, i: nat) {
    i in s.sources ==>
      var source := s.sources[i];
      && i < s.nextSource
      && source.data < s.nextData
      && source.loop in s.loops
      && (s.loops[source.loop].alive ==> source.data in s.datas)
      && (source.data in s.datas ==>
            s.datas[source.data].loop == source.loop && Callee(s, source) == Some(source.registered))
  }

  predicate CallOK(s: State, i: nat) {
    i < |s.trace| ==>
      match s.trace[i]
      case DestroyByHandle(l) => l in s.loops && !s.loops[l].alive && !s.loops[l].managed
      case DestroyByDisplay(l) => l in s.loops && !s.loops[l].alive && s.loops[l].managed
      case Free(l, d) =>
        && d < s.nextData && d !in s.datas && i > 0
        && (s.trace[i - 1] == DestroyByHandle(l) || s.trace[i - 1] == DestroyByDisplay(l))
  }

  // No loop is destroyed twice and no record is freed twice.
  predicate CallsOK(s: State, i: nat, j: nat) {
    i < j < |s.trace| ==> SameSubject(s.trace[i], s.trace[j]) ==> i == j
  }

  predicate SameSubject(a: CCall, b: CCall) {
    if a.Free? then b.Free? && a.data == b.data else !b.Free? && a.loop == b.loop
  }

  predicate Recorded(s: State, d: nat) {
    d < s.nextData && d !in s.datas ==> exists i :: 0 <= i < |s.trace| && s.trace[i].Free? && s.trace[i].data == d
  }

  ghost predicate TraceOK(s: State) {
    && (forall i: nat :: CallOK(s, i))
    && (forall i: nat, j: nat :: CallsOK(s, i, j))
    && (forall d: nat :: Recorded(s, d))
  }

  ghost predicate Inv(s: State) {
    && (forall k: nat :: SlotOK(s, k))
    && (forall d: nat :: DataOK(s, d))
    && (forall l: nat :: LoopOK(s, l))
    && (forall i: nat :: SourceOK(s, i))
    && TraceOK(s)
    && !s.fault
  }

  // ------------------------------------------------------- each step keeps it

  // Steps that destroy nothing.
  ghost predicate Grows(s: State, t: State) {
    && t.trace == s.trace
    && t.nextData >= s.nextData
    && (forall d | d in s.datas :: d in t.datas)
    && (forall d | d in t.datas && d !in s.datas :: s.nextData <= d)
    && (forall d | s.nextData <= d < t.nextData :: d in t.datas)
    && (forall l | l in s.loops ::
          && l in t.loops
          && t.loops[l].managed == s.loops[l].managed && t.loops[l].alive == s.loops[l].alive)
  }

  lemma GrowsTrace(s: State, t: State)
    requires TraceOK(s) && Grows(s, t)
    ensures TraceOK(t)
  {
    forall i: nat ensures CallOK(t, i) {
      assert CallOK(s, i);
    }
    forall i: nat, j: nat ensures CallsOK(t, i, j) {
      assert CallsOK(s, i, j);
    }
    forall d: nat ensures Recorded(t, d) {
      assert Recorded(s, d);
    }
  }

  lemma AttachInv(s: State, k: nat, h: LoopHandle)
    requires Inv(s) && k !in s.slots
    requires h.data.Some? && h.data.value in s.datas && h.ptr == Some(s.datas[h.data.value].loop)
    ensures Inv(Attach(s, k, h))
  {
    var t := Attach(s, k, h);
    forall i: nat ensures SlotOK(t, i) {
      assert SlotOK(s, i);
    }
    forall x: nat ensures DataOK(t, x) {
      assert DataOK(s, x);
      HoldersAfterWrite(s.slots, k, h, x);
    }
    forall l: nat ensures LoopOK(t, l) {
      assert LoopOK(s, l);
    }
    forall i: nat ensures SourceOK(t, i) {
      assert SourceOK(s, i);
    }
    GrowsTrace(s, t);
  }

  lemma InitInv(s: State, k: nat, l: nat, managed: bool)
    requires Inv(s) && k !in s.slots && l <= s.nextLoop
    requires if managed then l in s.loops && s.loops[l] == CLoop(true, true, None) else l == s.nextLoop
    ensures Inv(Init(s.(nextLoop := if managed then s.nextLoop else s.nextLoop + 1), k, l, managed))
  {
    var t := Init(s.(nextLoop := if managed then s.nextLoop else s.nextLoop + 1), k, l, managed);
    assert DataOK(s, s.nextData) && LoopOK(s, s.nextLoop);
    forall i: nat ensures SlotOK(t, i) {
      assert SlotOK(s, i);
    }
    forall d: nat ensures DataOK(t, d) {
      assert DataOK(s, d);
      HoldersAfterWrite(s.slots, k, t.slots[k], d);
      if d == s.nextData {
        assert forall i | i in s.slots :: SlotOK(s, i);
        assert Holders(s.slots, d) == {};
      }
    }
    forall x: nat ensures LoopOK(t, x) {
      assert LoopOK(s, x);
    }
    forall i: nat ensures SourceOK(t, i) {
      assert SourceOK(s, i);
    }
    GrowsTrace(s, t);
  }

  lemma NewDisplayInv(s: State)
    requires Inv(s)
    ensures Inv(Step(s, NewDisplay))
  {
    var t := Step(s, NewDisplay);
    assert LoopOK(s, s.nextLoop);
    forall i: nat ensures SlotOK(t, i) {
      assert SlotOK(s, i);
    }
    forall d: nat ensures DataOK(t, d) {
      assert DataOK(s, d);
    }
    forall l: nat ensures LoopOK(t, l) {
      assert LoopOK(s, l);
    }
    forall i: nat ensures SourceOK(t, i) {
      assert SourceOK(s, i);
    }
    GrowsTrace(s, t);
  }

  lemma SwapInv(s: State, k: nat, j: nat)
    requires Inv(s) && k in s.slots && j in s.slots
    ensures Inv(Swap(s, k, j))
  {
    var t := Swap(s, k, j);
    forall i: nat ensures SlotOK(t, i) {
      assert SlotOK(s, k) && SlotOK(s, j) && SlotOK(s, i);
    }
    forall d: nat ensures DataOK(t, d) {
      assert DataOK(s, d);
      HoldersAfterWrite(s.slots, k, s.slots[j], d);
      HoldersAfterWrite(s.slots[k := s.slots[j]], j, s.slots[k], d);
    }
    forall l: nat ensures LoopOK(t, l) {
      assert LoopOK(s, l);
    }
    forall i: nat ensures SourceOK(t, i) {
      assert SourceOK(s, i);
    }
    GrowsTrace(s, t);
  }

  lemma AddInv(s: State, k: nat, kind: SourceKind, f: nat)
    requires Inv(s) && k in s.slots
    ensures Inv(AddSource(s, k, kind, f))
  {
    assert SlotOK(s, k);
    var d := s.slots[k].data.value;
    assert DataOK(s, d);
    var t := AddSource(s, k, kind, f);
    forall i: nat ensures SlotOK(t, i) {
      assert SlotOK(s, i);
    }
    forall x: nat ensures DataOK(t, x) {
      assert DataOK(s, x);
    }
    forall l: nat ensures LoopOK(t, l) {
      assert LoopOK(s, l);
    }
    forall i: nat ensures SourceOK(t, i) {
      assert SourceOK(s, i);
    }
    GrowsTrace(s, t);
  }

  lemma RemoveSourceInv(s: State, id: nat)
    requires Inv(s)
    ensures Inv(Step(s, RemoveSource(id)))
  {
    var t := Step(s, RemoveSource(id));
    forall i: nat ensures SlotOK(t, i) {
      assert SlotOK(s, i);
    }
    forall d: nat ensures DataOK(t, d) {
      assert DataOK(s, d);
    }
    forall l: nat ensures LoopOK(t, l) {
      assert LoopOK(s, l);
    }
    forall i: nat ensures SourceOK(t, i) {
      assert SourceOK(s, i);
    }
    GrowsTrace(s, t);
  }

  // destroy_func runs once for the loop, and its record is the only one to go.
  lemma DestroyTrace(s: State, l: nat, call: CCall)
    requires TraceOK(s) && l in s.loops && s.loops[l].alive
    requires s.loops[l].listener.Some? ==>
      s.loops[l].listener.value in s.datas && s.loops[l].listener.value < s.nextData
    requires call == if s.loops[l].managed then DestroyByDisplay(l) else DestroyByHandle(l)
    ensures TraceOK(DestroyLoop(s, l, call))
  {
    var t, n := DestroyLoop(s, l, call), |s.trace|;
    assert t.trace[n] == call;
    assert forall i | 0 <= i < n :: t.trace[i] == s.trace[i];
    forall i: nat ensures CallOK(t, i) {
      assert CallOK(s, i);
    }
    forall i: nat, j: nat ensures CallsOK(t, i, j) {
      assert CallsOK(s, i, j) && CallOK(s, i);
    }
    forall d: nat ensures Recorded(t, d) {
      assert Recorded(s, d);
      if d < s.nextData && d !in s.datas {
        var i :| 0 <= i < n && s.trace[i].Free? && s.trace[i].data == d;
        assert t.trace[i] == s.trace[i];
      } else if d < s.nextData && d !in t.datas {
        assert t.trace[n + 1] == Free(l, d);
      }
    }
  }

  // The state once the loop and its record are gone, when no handle holds it.
  lemma DestroyInv(s: State, l: nat, call: CCall)
    requires Inv(s) && l in s.loops && s.loops[l].alive && s.loops[l].managed && call == DestroyByDisplay(l)
    requires Unheld(s, l)
    ensures Inv(DestroyLoop(s, l, call))
  {
    var t := DestroyLoop(s, l, call);
    assert LoopOK(s, l);
    if s.loops[l].listener.Some? {
      NoHolders(s.slots, s.loops[l].listener.value);
      assert DataOK(s, s.loops[l].listener.value);
    }
    forall i: nat ensures SlotOK(t, i) {
      assert SlotOK(s, i);
    }
    forall d: nat ensures DataOK(t, d) {
      assert DataOK(s, d);
    }
    forall x: nat ensures LoopOK(t, x) {
      assert LoopOK(s, x);
      assert x in s.loops && s.loops[x].listener.Some? ==> DataOK(s, s.loops[x].listener.value);
    }
    forall i: nat ensures SourceOK(t, i) {
      assert SourceOK(s, i);
      assert i in s.sources ==> DataOK(s, s.sources[i].data);
    }
    DestroyTrace(s, l, call);
  }

  // One handle gives up its reference and its storage goes.
  function Gone(s: State, k: nat): State
    requires k in s.slots
  {
    Vacate(s, k).(slots := s.slots - {k})
  }

  // The counting part of fini.
  lemma CountDown(s: State, k: nat, d: nat)
    requires Inv(s) && k in s.slots && s.slots[k].data == Some(d) && d in s.datas
    requires !(s.datas[d].counter == 1 && s.datas[d].doDelete)
    ensures Inv(Gone(s, k))
  {
    var t := Gone(s, k);
    assert DataOK(s, d);
    HolderCounts(s.slots, k, d);
    forall i: nat ensures SlotOK(t, i) {
      assert SlotOK(s, i);
    }
    forall x: nat ensures DataOK(t, x) {
      assert DataOK(s, x);
      HoldersAfterRemove(s.slots, k, x);
    }
    forall l: nat ensures LoopOK(t, l) {
      assert LoopOK(s, l);
    }
    forall i: nat ensures SourceOK(t, i) {
      assert SourceOK(s, i);
    }
    GrowsTrace(s, t);
  }

  // The last handle of an owned loop takes the loop and the record with it.
  lemma LastGone(s: State, k: nat, d: nat)
    requires Inv(s) && k in s.slots && s.slots[k].data == Some(d) && d in s.datas
    requires s.datas[d].counter == 1 && s.datas[d].doDelete
    ensures Inv(Gone(s, k))
  {
    var t := Gone(s, k);
    var l := s.datas[d].loop;
    assert DataOK(s, d) && LoopOK(s, l);
    HoldersAfterRemove(s.slots, k, d);
    NoHolders(s.slots - {k}, d);
    forall i: nat ensures SlotOK(t, i) {
      assert SlotOK(s, i);
    }
    forall x: nat ensures DataOK(t, x) {
      assert DataOK(s, x);
      HoldersAfterRemove(s.slots, k, x);
    }
    forall x: nat ensures LoopOK(t, x) {
      assert LoopOK(s, x);
      assert x in s.loops && s.loops[x].listener.Some? ==> DataOK(s, s.loops[x].listener.value);
    }
    forall i: nat ensures SourceOK(t, i) {
      assert SourceOK(s, i);
      assert i in s.sources ==> DataOK(s, s.sources[i].data);
    }
    var s1 := s.(datas := s.datas[d := s.datas[d].(counter := 0)]);
    GrowsTrace(s, s1);
    DestroyTrace(s1, l, DestroyByHandle(l));
    GrowsTrace(DestroyLoop(s1, l, DestroyByHandle(l)), t);
  }

  lemma GoneInv(s: State, k: nat)
    requires Inv(s) && k in s.slots
    ensures Inv(Gone(s, k))
  {
    assert SlotOK(s, k);
    var d := s.slots[k].data.value;
    if s.datas[d].counter == 1 && s.datas[d].doDelete {
      LastGone(s, k, d);
    } else {
      CountDown(s, k, d);
    }
  }

  // Assignment is a release followed by an acquisition.
  lemma AssignSplits(s: State, k: nat, j: nat)
    requires Inv(s) && k in s.slots && j in s.slots && k != j
    ensures Inv(Gone(s, k)) && k !in Gone(s, k).slots && SlotOK(Gone(s, k), j) && SlotOK(s, j) && SlotOK(s, k)
    ensures s.slots[j].data.value in Gone(s, k).datas
    ensures s.slots[j].ptr == Some(Gone(s, k).datas[s.slots[j].data.value].loop)
    ensures Assign(s, k, j) == Attach(Gone(s, k), k, s.slots[j])
  {
    GoneInv(s, k);
    assert SlotOK(s, j) && SlotOK(s, k);
    var g, h := Gone(s, k), s.slots[j];
    assert SlotOK(g, j);
    assert Vacate(s, k).slots == s.slots[k := EMPTY];
    assert s.slots[k := EMPTY][k := h] == (s.slots - {k})[k := h];
  }

  lemma StepInv(s: State, op: Op)
    requires Inv(s) && Enabled(s, op) && Safe(s, op)
    ensures Inv(Step(s, op))
  {
    match op
    case New(k) => InitInv(s, k, s.nextLoop, false);
    case NewDisplay => NewDisplayInv(s);
    case Lookup(k, l) =>
      assert LoopOK(s, l);
      if s.loops[l].listener.None? {
        InitInv(s, k, l, true);
      } else {
        AttachInv(s, k, Handle(Some(l), s.loops[l].listener, ()));
      }
    case Copy(k, j) =>
      assert SlotOK(s, j);
      AttachInv(s, k, s.slots[j]);
    case CopyInto(k, j) =>
      if k != j {
        AssignSplits(s, k, j);
        AttachInv(Gone(s, k), k, s.slots[j]);
      }
    case MoveInto(k, j) => SwapInv(s, k, j);
    case Drop(k) => GoneInv(s, k);
    case Add(k, kind, f) => AddInv(s, k, kind, f);
    case RemoveSource(id) => RemoveSourceInv(s, id);
    case DestroyDisplay(l) => DestroyInv(s, l, DestroyByDisplay(l));
  }

  lemma {:induction false} RunInv(ops: seq<Op>, s: State)
    requires Reaches(ops, s)
    ensures Inv(s)
    decreases |ops|
  {
    if ops != [] {
      var last := ops[|ops| - 1];
      var r: State :| Reaches(ops[..|ops| - 1], r) && Leads(r, last, s);
      RunInv(ops[..|ops| - 1], r);
      StepInv(r, last);
    }
  }

  // ----------------------------------------------------------------- theorems

  // The counter is exact, zero included; no run uses freed memory.
  lemma CounterIsHandles(ops: seq<Op>, s: State, d: nat)
    requires Reaches(ops, s) && d in s.datas
    ensures s.datas[d].counter == |Holders(s.slots, d)| && !s.fault
    ensures s.datas[d].doDelete ==> s.datas[d].counter > 0
  {
    RunInv(ops, s);
    assert DataOK(s, d);
  }

  // Every pointer handed to libwayland denotes the function registered with it, for
  // as long as the loop lives, whatever is registered or let go in between.
  lemma CallbacksStayValid(ops: seq<Op>, s: State, i: nat)
    requires Reaches(ops, s) && i in s.sources
    ensures s.sources[i].loop in s.loops
    ensures s.loops[s.sources[i].loop].alive ==> Callee(s, s.sources[i]) == Some(s.sources[i].registered)
  {
    RunInv(ops, s);
    assert SourceOK(s, i);
  }

  // Every record ever made is either there or was freed, once, by the listener of its
  // loop.
  lemma FreedOnce(ops: seq<Op>, s: State, d: nat)
    requires Reaches(ops, s) && d < s.nextData
    ensures d in s.datas <==> !exists i :: 0 <= i < |s.trace| && s.trace[i].Free? && s.trace[i].data == d
    ensures forall i, j ::
      0 <= i < |s.trace| && 0 <= j < |s.trace| && SameSubject(s.trace[i], s.trace[j]) ==> i == j
    ensures forall i :: 0 <= i < |s.trace| && s.trace[i].Free? ==>
      i > 0 && !s.trace[i - 1].Free? && s.trace[i - 1].loop == s.trace[i].loop
  {
    RunInv(ops, s);
    assert Recorded(s, d);
    forall i | 0 <= i < |s.trace|
      ensures s.trace[i].Free? ==>
        && s.trace[i].data !in s.datas
        && i > 0 && !s.trace[i - 1].Free? && s.trace[i - 1].loop == s.trace[i].loop
    {
      assert CallOK(s, i);
    }
    forall i, j | 0 <= i < |s.trace| && 0 <= j < |s.trace| && SameSubject(s.trace[i], s.trace[j]) ensures i == j {
      assert CallsOK(s, i, j) && CallsOK(s, j, i);
    }
  }

  // A display's loop is never destroyed by a handle, nor an owned one by a display.
  lemma DestroyedByOwner(ops: seq<Op>, s: State, i: nat)
    requires Reaches(ops, s) && i < |s.trace| && !s.trace[i].Free?
    ensures s.trace[i].loop in s.loops && !s.loops[s.trace[i].loop].alive
    ensures s.trace[i].DestroyByDisplay? <==> s.loops[s.trace[i].loop].managed
  {
    RunInv(ops, s);
    assert CallOK(s, i);
  }

  function GivesUp(op: Op): Option<nat> {
    match op
    case Drop(k) => Some(k)
    case CopyInto(k, j) => if k == j then None else Some(k)
    case _ => None
  }

  predicate OnlyHandle(s: State, d: nat, k: Option<nat>) {
    k.Some? && Holders(s.slots, d) == {k.value}
  }

  lemma GoneKills(s: State, k: nat, d: nat)
    requires Inv(s) && k in s.slots && d in s.datas
    ensures s.datas[d].loop in Gone(s, k).loops
    ensures !Gone(s, k).loops[s.datas[d].loop].alive <==> s.datas[d].doDelete && Holders(s.slots, d) == {k}
    ensures d in Gone(s, k).datas <==> Gone(s, k).loops[s.datas[d].loop].alive
  {
    assert SlotOK(s, k) && DataOK(s, d) && DataOK(s, s.slots[k].data.value);
    if s.slots[k].data == Some(d) {
      assert k in Holders(s.slots, d);
      assert |Holders(s.slots, d)| == |Holders(s.slots, d) - {k}| + 1;
    } else {
      assert k !in Holders(s.slots, d);
    }
  }

  // An owned loop, and its record, go exactly with the only handle; those of a display
  // go exactly with the display, so they survive having no handle at all.
  lemma DiesExactly(s: State, op: Op, d: nat)
    requires Inv(s) && Enabled(s, op) && Safe(s, op) && d in s.datas
    ensures s.datas[d].loop in Step(s, op).loops
    ensures !Step(s, op).loops[s.datas[d].loop].alive
      <==> if s.datas[d].doDelete then OnlyHandle(s, d, GivesUp(op)) else op == DestroyDisplay(s.datas[d].loop)
    ensures d in Step(s, op).datas <==> Step(s, op).loops[s.datas[d].loop].alive
  {
    assert DataOK(s, d) && LoopOK(s, s.nextLoop) && DataOK(s, s.nextData);
    match op
    case Drop(k) => GoneKills(s, k, d);
    case CopyInto(k, j) =>
      if k != j {
        GoneKills(s, k, d);
        AssignSplits(s, k, j);
      }
    case Copy(_, j) => assert SlotOK(s, j);
    case Lookup(_, l) => assert LoopOK(s, l);
    case Add(k, _, _) => assert SlotOK(s, k);
    case DestroyDisplay(l) =>
      assert LoopOK(s, l);
      assert s.loops[l].listener.Some? ==> DataOK(s, s.loops[l].listener.value);
    case _ =>
  }

  // Looking a display's loop up again finds the same record, callbacks included, even
  // after its counter has been zero.
  lemma ReacquiresRecord(s: State, k: nat, d: nat)
    requires Inv(s) && d in s.datas && !s.datas[d].doDelete && k !in s.slots
    ensures Enabled(s, Lookup(k, s.datas[d].loop))
    ensures var t := Step(s, Lookup(k, s.datas[d].loop));
      && t.slots[k].data == Some(d) && d in t.datas
      && t.datas[d] == s.datas[d].(counter := s.datas[d].counter + 1)
      && t.nextData == s.nextData
  {
    assert DataOK(s, d);
  }

  // Destroying a display is safe exactly when no handle of its loop is left: any other
  // handle uses the freed record at the latest when it is destroyed.
  lemma DestroyDisplaySafeIff(s: State, l: nat)
    requires Inv(s) && Enabled(s, DestroyDisplay(l))
    ensures Inv(Step(s, DestroyDisplay(l))) <==> Unheld(s, l)
    ensures forall k ::
      k in s.slots && s.loops[l].listener.Some? && s.slots[k].data == s.loops[l].listener
      ==> Step(Step(s, DestroyDisplay(l)), Drop(k)).fault
  {
    var t := Step(s, DestroyDisplay(l));
    if Unheld(s, l) {
      StepInv(s, DestroyDisplay(l));
    } else {
      var d := s.loops[l].listener.value;
      var k :| k in Holders(s.slots, d);
      assert !SlotOK(t, k);
    }
  }

  // The operation registers f in the list of the given kind of record d.
  predicate Registers(s: State, op: Op, d: nat, kind: SourceKind) {
    op.Add? && op.kind == kind && op.k in s.slots && s.slots[op.k].data == Some(d)
  }

  function Registered(s: State, op: Op, d: nat, kind: SourceKind): seq<nat> {
    if Registers(s, op, d, kind) then [op.f] else []
  }

  // The record changes in nothing but its counter, or is a new one.
  predicate Recounted(s: State, t: State, d: nat) {
    d in t.datas ==>
      if d in s.datas then t.datas[d] == s.datas[d].(counter := t.datas[d].counter)
      else d == s.nextData && t.datas[d] == Record(t.datas[d].loop, 1, t.datas[d].doDelete, [], [], [], [])
  }

  lemma GoneRecounts(s: State, k: nat, d: nat)
    requires Inv(s) && k in s.slots
    ensures Recounted(s, Gone(s, k), d)
  {
    assert SlotOK(s, k);
  }

  lemma OthersRecount(s: State, op: Op, d: nat)
    requires Inv(s) && Enabled(s, op) && Safe(s, op) && !op.Add?
    ensures Recounted(s, Step(s, op), d)
  {
    match op
    case Drop(k) => GoneRecounts(s, k, d);
    case CopyInto(k, j) =>
      if k != j {
        AssignSplits(s, k, j);
        GoneRecounts(s, k, d);
      }
    case Copy(_, j) => assert SlotOK(s, j);
    case Lookup(_, l) => assert LoopOK(s, l) && DataOK(s, s.nextData);
    case New(_) => assert DataOK(s, s.nextData);
    case _ =>
  }

  // Each list of a record grows exactly by what is registered for its own kind of
  // source, and a new record has none.
  lemma ListsExactly(s: State, op: Op, d: nat)
    requires Inv(s) && Enabled(s, op) && Safe(s, op) && d in Step(s, op).datas
    ensures var t := Step(s, op);
      if d in s.datas then
        && t.datas[d].fds == s.datas[d].fds + Registered(s, op, d, Fd)
        && t.datas[d].timers == s.datas[d].timers + Registered(s, op, d, Timer)
        && t.datas[d].signals == s.datas[d].signals + Registered(s, op, d, Signal)
        && t.datas[d].idles == s.datas[d].idles + Registered(s, op, d, Idle)
      else
        d == s.nextData && t.datas[d].fds == t.datas[d].timers == t.datas[d].signals == t.datas[d].idles == []
  {
    if op.Add? {
      assert SlotOK(s, op.k);
    } else {
      OthersRecount(s, op, d);
    }
  }

  // A source is there exactly from its registration to its removal, is called through
  // the function for its kind with a pointer into the list for that kind, and never
  // changes.
  lemma SourcesExactly(s: State, op: Op, i: nat)
    requires Inv(s) && Enabled(s, op) && Safe(s, op)
    ensures var t := Step(s, op);
      if op.Add? && i == s.nextSource then
        && i in t.sources && op.k in s.slots && s.slots[op.k].ptr.Some?
        && t.sources[i].trampoline == t.sources[i].list == op.kind && t.sources[i].registered == op.f
        && Some(t.sources[i].data) == s.slots[op.k].data && Some(t.sources[i].loop) == s.slots[op.k].ptr
      else
        && (i in t.sources <==> i in s.sources && op != RemoveSource(i))
        && (i in t.sources ==> t.sources[i] == s.sources[i])
  {
    match op
    case Drop(k) => assert SlotOK(s, k);
    case CopyInto(k, j) => if k != j { AssignSplits(s, k, j); }
    case Copy(_, j) => assert SlotOK(s, j);
    case Add(k, _, _) => assert SlotOK(s, k) && SourceOK(s, s.nextSource);
    case Lookup(_, l) => assert LoopOK(s, l);
    case _ =>
  }

  // Loops come from create() and from displays, which manage theirs; no step forgets one
  // or changes who manages it.
  lemma LoopsExactly(s: State, op: Op, l: nat)
    requires Inv(s) && Enabled(s, op) && Safe(s, op)
    ensures var t := Step(s, op);
      && (l in t.loops <==> l in s.loops || (l == s.nextLoop && (op.New? || op.NewDisplay?)))
      && (l in t.loops ==> t.loops[l].managed == if l in s.loops then s.loops[l].managed else op.NewDisplay?)
      && (l in t.loops && l !in s.loops ==> t.loops[l].alive)
  {
    assert LoopOK(s, s.nextLoop);
    match op
    case Drop(k) => GoneKeepsLoops(s, k);
    case CopyInto(k, j) =>
      if k != j {
        AssignSplits(s, k, j);
        GoneKeepsLoops(s, k);
      }
    case Copy(_, j) => assert SlotOK(s, j);
    case Add(k, _, _) => assert SlotOK(s, k);
    case Lookup(_, x) => assert LoopOK(s, x);
    case _ =>
  }

  lemma GoneKeepsLoops(s: State, k: nat)
    requires Inv(s) && k in s.slots
    ensures var t := Gone(s, k);
      t.loops.Keys == s.loops.Keys && forall l | l in s.loops :: t.loops[l].managed == s.loops[l].managed
  {
    assert SlotOK(s, k) && DataOK(s, s.slots[k].data.value);
  }

  // What a variable holds after an operation, were handles plain references.
  function Reference(s: State, op: Op, x: nat): Option<LoopHandle> {
    var same := if x in s.slots then Some(s.slots[x]) else None;
    match op
    case New(k) => if x == k then Some(Handle(Some(s.nextLoop), Some(s.nextData), ())) else same
    case Lookup(k, l) =>
      if x == k && l in s.loops then
        Some(Handle(Some(l), if s.loops[l].listener.Some? then s.loops[l].listener else Some(s.nextData), ()))
      else same
    case Copy(k, j) => if x == k && j in s.slots then Some(s.slots[j]) else same
    case CopyInto(k, j) => if x == k && j in s.slots then Some(s.slots[j]) else same
    case MoveInto(k, j) =>
      if x == k && j in s.slots then Some(s.slots[j]) else if x == j && k in s.slots then Some(s.slots[k]) else same
    case Drop(k) => if x == k then None else same
    case _ => same
  }

  lemma HandlesAreReferences(s: State, op: Op, x: nat)
    requires Inv(s) && Enabled(s, op) && Safe(s, op)
    ensures var t := Step(s, op);
      (if x in t.slots then Some(t.slots[x]) else None) == Reference(s, op, x)
  {
    match op
    case Drop(k) => assert SlotOK(s, k);
    case CopyInto(k, j) =>
      if k != j {
        AssignSplits(s, k, j);
        assert Gone(s, k).slots == s.slots - {k};
      }
    case Copy(_, j) => assert SlotOK(s, j);
    case Add(k, _, _) => assert SlotOK(s, k);
    case Lookup(_, l) => assert LoopOK(s, l);
    case _ =>
  }

  // ---------------------------------------------------------- imperative form

  class Loops {
    var slots: map<nat, LoopHandle>
    var datas: map<nat, Record>
    var loops: map<nat, CLoop>
    var sources: map<nat, Source>
    var nextData: nat
    var nextLoop: nat
    var nextSource: nat
    var trace: seq<CCall>

    ghost function Now(): State
      reads this
    {
      State(slots, datas, loops, sources, nextData, nextLoop, nextSource, trace, false)
    }

    constructor ()
      ensures Now() == INITIAL && Inv(Now())
    {
      slots, datas, loops, sources := map[], map[], map[], map[];
      nextData, nextLoop, nextSource, trace := 0, 0, 0, [];
    }

    // libwayland notifies the destroy listener, and destroy_func deletes the record.
    method WlEventLoopDestroy(l: nat, call: CCall)
      requires l in loops && loops[l].alive
      requires loops[l].listener.Some? ==> loops[l].listener.value in datas
      modifies this`loops, this`datas, this`trace
      ensures Now() == DestroyLoop(old(Now()), l, call)
    {
      trace := trace + [call];
      var listener := loops[l].listener;
      if listener.Some? {
        trace := trace + [Free(l, listener.value)];
        datas := datas - {listener.value};
      }
      loops := loops[l := CLoop(loops[l].managed, false, None)];
    }

    method InitHandle(k: nat, l: nat, managed: bool)
      modifies this`slots, this`datas, this`loops, this`nextData
      ensures Now() == Init(old(Now()), k, l, managed)
    {
      var d := nextData;
      nextData := nextData + 1;
      datas := datas[d := Record(l, 1, true, [], [], [], [])];
      slots := slots[k := Handle(Some(l), Some(d), ())];
      loops := loops[l := CLoop(managed, true, Some(d))];
      if managed {
        datas := datas[d := datas[d].(doDelete := false)];
      }
    }

    method FiniHandle(k: nat)
      requires Inv(Now()) && k in slots
      modifies this`datas, this`loops, this`trace
      ensures Write(Now(), k, EMPTY) == Vacate(old(Now()), k)
    {
      assert SlotOK(Now(), k);
      var d := slots[k].data.value;
      assert DataOK(Now(), d);
      datas := datas[d := datas[d].(counter := datas[d].counter - 1)];
      if datas[d].counter == 0 {
        if datas[d].doDelete {
          WlEventLoopDestroy(slots[k].ptr.value, DestroyByHandle(slots[k].ptr.value));
        }
      }
    }

    method CreateLoop(k: nat)
      requires Inv(Now()) && k !in slots
      modifies this
      ensures Now() == Step(old(Now()), New(k)) && Inv(Now())
    {
      StepInv(Now(), New(k));
      var l := nextLoop;
      nextLoop := nextLoop + 1;
      InitHandle(k, l, false);
    }

    method LookupLoop(k: nat, l: nat)
      requires Inv(Now()) && Enabled(Now(), Lookup(k, l))
      modifies this
      ensures Now() == Step(old(Now()), Lookup(k, l)) && Inv(Now())
    {
      StepInv(Now(), Lookup(k, l));
      assert LoopOK(Now(), l);
      var data := loops[l].listener;
      if data.None? {
        InitHandle(k, l, true);
      } else {
        slots := slots[k := Handle(Some(l), data, ())];
        datas := datas[data.value := datas[data.value].(counter := datas[data.value].counter + 1)];
      }
    }

    method CopyHandle(k: nat, j: nat)
      requires Inv(Now()) && k !in slots && j in slots
      modifies this
      ensures Now() == Step(old(Now()), Copy(k, j)) && Inv(Now())
    {
      StepInv(Now(), Copy(k, j));
      assert SlotOK(Now(), j);
      slots := slots[k := slots[j]];
      var d := slots[k].data.value;
      datas := datas[d := datas[d].(counter := datas[d].counter + 1)];
    }

    method AssignHandle(k: nat, j: nat)
      requires Inv(Now()) && k in slots && j in slots
      modifies this
      ensures Now() == Step(old(Now()), CopyInto(k, j)) && Inv(Now())
    {
      ghost var s := Now();
      StepInv(s, CopyInto(k, j));
      if k == j {
        return;
      }
      AssignSplits(s, k, j);
      FiniHandle(k);
      slots := slots[k := slots[j]];
      var d := slots[k].data.value;
      datas := datas[d := datas[d].(counter := datas[d].counter + 1)];
    }

    method MoveAssignHandle(k: nat, j: nat)
      requires Inv(Now()) && k in slots && j in slots
      modifies this
      ensures Now() == Step(old(Now()), MoveInto(k, j)) && Inv(Now())
    {
      StepInv(Now(), MoveInto(k, j));
      slots := slots[k := slots[j]][j := slots[k]];
    }

    method DestroyHandle(k: nat)
      requires Inv(Now()) && k in slots
      modifies this
      ensures Now() == Step(old(Now()), Drop(k)) && Inv(Now())
    {
      StepInv(Now(), Drop(k));
      FiniHandle(k);
      slots := slots - {k};
    }

    method AddCallback(k: nat, kind: SourceKind, f: nat) returns (id: nat)
      requires Inv(Now()) && k in slots
      modifies this
      ensures Now() == Step(old(Now()), Add(k, kind, f)) && Inv(Now())
      ensures id in sources && Callee(Now(), sources[id]) == Some(f)
      ensures sources[id].trampoline == sources[id].list == kind
    {
      StepInv(Now(), Add(k, kind, f));
      assert SlotOK(Now(), k);
      var d := slots[k].data.value;
      datas := datas[d := PushBack(datas[d], kind, f)];
      id := nextSource;
      nextSource := nextSource + 1;
      sources := sources[id := Source(slots[k].ptr.value, kind, d, kind, |List(datas[d], kind)| - 1, f)];
      assert SourceOK(Now(), id);
    }

    method DestroyDisplayOf(l: nat)
      requires Inv(Now()) && Enabled(Now(), DestroyDisplay(l)) && Unheld(Now(), l)
      modifies this
      ensures Now() == Step(old(Now()), DestroyDisplay(l)) && Inv(Now())
    {
      StepInv(Now(), DestroyDisplay(l));
      assert LoopOK(Now(), l);
      WlEventLoopDestroy(l, DestroyByDisplay(l));
    }
  }
}
