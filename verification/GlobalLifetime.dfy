// The lifetime of server-side globals.
//
// global_base_t is a counted handle whose data record is shared through the user
// data of the C global.  The functions below are its member functions on a value of
// type State; Step is one operation of a program, and the invariant is proved for
// every run.  The class at the end is the same code on mutable fields.

module GlobalLifetime {
  import opened Common
  import opened Handles

  type GlobalHandle = Handle<()>

  const EMPTY: GlobalHandle := Handle(None, None, ())

  // global_base_t::data_t, and the C global it was created for.
  datatype Record = Record(glob: nat, counter: int, removed: bool)

  // A wl_global.  Those with ours == false were created by C code and carry no data.
  datatype CGlobal = CGlobal(ours: bool, alive: bool, userData: Option<nat>, removed: bool)

  datatype CCall = ClearUserData(glob: nat) | GlobalRemove(glob: nat) | GlobalDestroy(glob: nat)

  datatype State = State(
    slots: map<nat, GlobalHandle>,
    datas: map<nat, Record>,
    globals: map<nat, CGlobal>,
    nextData: nat,
    nextGlobal: nat,
    trace: seq<CCall>,
    fault: bool
  )

  const INITIAL := State(map[], map[], map[], 0, 0, [], false)

  // --------------------------------------------------------- member functions
  // Each sets `fault` where the source would use a record or a global that is gone,
  // or remove a global twice, at which libwayland ends the process.

  function Write(s: State, k: nat, h: GlobalHandle): State {
    s.(slots := s.slots[k := h])
  }

  function Erase(s: State, k: nat): State {
    s.(slots := s.slots - {k})
  }

  function Acquire(s: State, h: GlobalHandle): State {
    match h.data
    case None => s
    case Some(d) =>
      if d !in s.datas then s.(fault := true)
      else s.(datas := s.datas[d := s.datas[d].(counter := s.datas[d].counter + 1)])
  }

  predicate Alive(s: State, g: Option<nat>) {
    g.Some? && g.value in s.globals && s.globals[g.value].alive
  }

  function DestroyGlobal(s: State, g: nat): State {
    if !Alive(s, Some(g)) then s.(fault := true)
    else s.(globals := s.globals[g := s.globals[g].(alive := false, userData := None)],
            trace := s.trace + [ClearUserData(g), GlobalDestroy(g)])
  }

  function Fini(s: State, h: GlobalHandle): State {
    match h.data
    case None => s
    case Some(d) =>
      if d !in s.datas then s.(fault := true)
      else
        var r := s.datas[d].(counter := s.datas[d].counter - 1);
        if r.counter != 0 then s.(datas := s.datas[d := r])
        else if h.ptr.None? then s.(fault := true)
        else DestroyGlobal(s, h.ptr.value).(datas := s.datas - {d})
  }

  function Create(s: State, k: nat): State {
    State(s.slots[k := Handle(Some(s.nextGlobal), Some(s.nextData), ())],
          s.datas[s.nextData := Record(s.nextGlobal, 1, false)],
          s.globals[s.nextGlobal := CGlobal(true, true, Some(s.nextData), false)],
          s.nextData + 1, s.nextGlobal + 1, s.trace, s.fault)
  }

  function CreateForeign(s: State): State {
    s.(globals := s.globals[s.nextGlobal := CGlobal(false, true, None, false)], nextGlobal := s.nextGlobal + 1)
  }

  function Attach(s: State, k: nat, h: GlobalHandle): State {
    Acquire(Write(s, k, h), h)
  }

  function Vacate(s: State, k: nat): State
    requires k in s.slots
  {
    Write(Fini(s, s.slots[k]), k, EMPTY)
  }

  function Assign(s: State, k: nat, j: nat): State
    requires k in s.slots && j in s.slots
  {
    if k == j then s else Attach(Vacate(s, k), k, s.slots[j])
  }

  function Swap(s: State, k: nat, j: nat): State
    requires k in s.slots && j in s.slots
  {
    s.(slots := s.slots[k := s.slots[j]][j := s.slots[k]])
  }

  function Remove(s: State, k: nat): State
    requires k in s.slots
  {
    var h := s.slots[k];
    match h.data
    case None => s
    case Some(d) =>
      if d !in s.datas then s.(fault := true)
      else if s.datas[d].removed then s
      else if !Alive(s, h.ptr) || s.globals[h.ptr.value].removed then s.(fault := true)
      else
        var g := h.ptr.value;
        s.(datas := s.datas[d := s.datas[d].(removed := true)],
           globals := s.globals[g := s.globals[g].(removed := true)],
           trace := s.trace + [GlobalRemove(g)])
  }

  // --------------------------------------------------------------------- runs

  datatype Op =
    | New(k: nat)
    | NewForeign
    | Lookup(k: nat, glob: Option<nat>)
    | Copy(k: nat, j: nat)
    | CopyInto(k: nat, j: nat)
    | Move(k: nat, j: nat)
    | MoveInto(k: nat, j: nat)
    | Drop(k: nat)
    | Withdraw(k: nat)

  // A name is declared once and used after that, and a wl_global pointer is valid.
  predicate Enabled(s: State, op: Op) {
    match op
    case New(k) => k !in s.slots
    case NewForeign => true
    case Lookup(k, g) => k !in s.slots && (g.Some? ==> g.value in s.globals && s.globals[g.value].alive)
    case Copy(k, j) => k !in s.slots && j in s.slots
    case CopyInto(k, j) => k in s.slots && j in s.slots
    case Move(k, j) => k !in s.slots && j in s.slots
    case MoveInto(k, j) => k in s.slots && j in s.slots
    case Drop(k) => k in s.slots
    case Withdraw(k) => k in s.slots
  }

  // Looking up a null pointer throws before there is a handle.
  function Step(s: State, op: Op): State
    requires Enabled(s, op)
  {
    match op
    case New(k) => Create(s, k)
    case NewForeign => CreateForeign(s)
    case Lookup(k, g) => if g.None? then s else Attach(s, k, Handle(g, s.globals[g.value].userData, ()))
    case Copy(k, j) => Attach(s, k, s.slots[j])
    case CopyInto(k, j) => Assign(s, k, j)
    case Move(k, j) => Swap(Write(s, k, EMPTY), k, j)
    case MoveInto(k, j) => Swap(s, k, j)
    case Drop(k) => Erase(Vacate(s, k), k)
    case Withdraw(k) => Remove(s, k)
  }

  ghost predicate Reaches(ops: seq<Op>, s: State)
    decreases |ops|, 0
  {
    if ops == [] then s == INITIAL
    else Follows(ops[..|ops| - 1], ops[|ops| - 1], s)
  }

  ghost predicate Follows(before: seq<Op>, last: Op, s: State)
    decreases |before|, 1
  {
    exists r: State :: Reaches(before, r) && Leads(r, last, s)
  }

  predicate Leads(r: State, op: Op, s: State) {
    Enabled(r, op) && s == Step(r, op)
  }

  // ---------------------------------------------------------------- invariant

  predicate Points(s: State, h: GlobalHandle) {
    h.data.Some? ==> h.data.value in s.datas && h.ptr == Some(s.datas[h.data.value].glob)
  }

  predicate SlotOK(s: State, k: nat) {
    k in s.slots ==> Points(s, s.slots[k])
  }

  // The counter is the number of handles, and the global is alive and refers back.
  predicate DataOK(s: State, d: nat) {
    d in s.datas ==>
      var r := s.datas[d];
      && d < s.nextData
      && 0 < r.counter == |Holders(s.slots, d)|
      && r.glob in s.globals
      && s.globals[r.glob] == CGlobal(true, true, Some(d), r.removed)
  }

  predicate GlobalOK(s: State, g: nat) {
    g in s.globals ==>
      var c := s.globals[g];
      && g < s.nextGlobal
      && (c.userData.Some? ==> c.userData.value in s.datas && s.datas[c.userData.value].glob == g)
      && (c.ours && c.alive ==> c.userData.Some?)
      && (!c.ours ==> c.alive && c.userData.None? && !c.removed)
  }

  // What one call in the record of calls to libwayland says about the present.
  predicate CallOK(s: State, i: nat) {
    i < |s.trace| ==>
      var call := s.trace[i];
      && call.glob in s.globals && s.globals[call.glob].ours
      && (call.GlobalRemove? ==> s.globals[call.glob].removed)
      && (!call.GlobalRemove? ==> !s.globals[call.glob].alive)
      && (call.GlobalDestroy? ==> i > 0 && s.trace[i - 1] == ClearUserData(call.glob))
  }

  // No call is made twice, and none after the global has been destroyed.
  predicate CallsOK(s: State, i: nat, j: nat) {
    i < j < |s.trace| ==> s.trace[i] != s.trace[j] && (s.trace[i].GlobalDestroy? ==> s.trace[i].glob != s.trace[j].glob)
  }

  predicate Recorded(s: State, g: nat) {
    g in s.globals ==>
      && (s.globals[g].removed ==> GlobalRemove(g) in s.trace)
      && (!s.globals[g].alive ==> GlobalDestroy(g) in s.trace)
  }

  ghost predicate Inv(s: State) {
    && (forall k: nat :: SlotOK(s, k))
    && (forall d: nat :: DataOK(s, d))
    && (forall g: nat :: GlobalOK(s, g))
    && TraceOK(s)
    && !s.fault
  }

  ghost predicate TraceOK(s: State) {
    && (forall i: nat :: CallOK(s, i))
    && (forall i: nat, j: nat :: CallsOK(s, i, j))
    && (forall g: nat :: Recorded(s, g))
  }

  lemma CountedHandle(s: State, k: nat)
    requires Inv(s) && k in s.slots
    ensures Points(s, s.slots[k])
    ensures s.slots[k].data.Some? ==>
      var d := s.slots[k].data.value;
      && s.datas[d].counter > 0 && s.datas[d].glob in s.globals
      && s.globals[s.datas[d].glob] == CGlobal(true, true, Some(d), s.datas[d].removed)
  {
    assert SlotOK(s, k);
    if s.slots[k].data.Some? {
      assert DataOK(s, s.slots[k].data.value);
    }
  }

  // ------------------------------------------------------- each step keeps it

  lemma SameTrace(s: State, t: State)
    requires TraceOK(s) && t.trace == s.trace
    requires forall g | g in s.globals :: g in t.globals && t.globals[g] == s.globals[g]
    requires forall g | g in t.globals && g !in s.globals :: t.globals[g].alive && !t.globals[g].removed
    ensures TraceOK(t)
  {
    forall i: nat ensures CallOK(t, i) {
      assert CallOK(s, i);
    }
    forall i: nat, j: nat ensures CallsOK(t, i, j) {
      assert CallsOK(s, i, j);
    }
    forall g: nat ensures Recorded(t, g) {
      assert Recorded(s, g);
    }
  }

  lemma AttachInv(s: State, k: nat, h: GlobalHandle)
    requires Inv(s) && Points(s, h) && (k in s.slots ==> s.slots[k].data.None?)
    ensures Inv(Attach(s, k, h))
  {
    var t := Attach(s, k, h);
    forall i: nat ensures SlotOK(t, i) {
      assert SlotOK(s, i);
    }
    forall d: nat ensures DataOK(t, d) {
      assert DataOK(s, d);
      HoldersAfterWrite(s.slots, k, h, d);
    }
    forall g: nat ensures GlobalOK(t, g) {
      assert GlobalOK(s, g);
    }
    SameTrace(s, t);
  }

  lemma CreateInv(s: State, k: nat)
    requires Inv(s) && k !in s.slots
    ensures Inv(Create(s, k))
  {
    var t := Create(s, k);
    assert DataOK(s, s.nextData) && GlobalOK(s, s.nextGlobal);
    forall i: nat ensures SlotOK(t, i) {
      assert SlotOK(s, i);
    }
    forall d: nat ensures DataOK(t, d) {
      assert DataOK(s, d);
      HoldersAfterWrite(s.slots, k, t.slots[k], d);
      if d == s.nextData {
        assert forall i | i in s.slots :: SlotOK(s, i);
        assert Holders(s.slots, d) == {};
      }
    }
    forall g: nat ensures GlobalOK(t, g) {
      assert GlobalOK(s, g);
    }
    SameTrace(s, t);
  }

  lemma CreateForeignInv(s: State)
    requires Inv(s)
    ensures Inv(CreateForeign(s))
  {
    var t := CreateForeign(s);
    assert GlobalOK(s, s.nextGlobal);
    forall i: nat ensures SlotOK(t, i) {
      assert SlotOK(s, i);
    }
    forall d: nat ensures DataOK(t, d) {
      assert DataOK(s, d);
    }
    forall g: nat ensures GlobalOK(t, g) {
      assert GlobalOK(s, g);
    }
    SameTrace(s, t);
  }

  lemma SwapInv(s: State, k: nat, j: nat)
    requires Inv(s) && k in s.slots && j in s.slots
    ensures Inv(Swap(s, k, j))
  {
    var t := Swap(s, k, j);
    forall i: nat ensures SlotOK(t, i) {
      assert SlotOK(s, k) && SlotOK(s, j) && SlotOK(s, i);
    }
    forall d: nat ensures DataOK(t, d) {
      assert DataOK(s, d);
      HoldersAfterWrite(s.slots, k, s.slots[j], d);
      HoldersAfterWrite(s.slots[k := s.slots[j]], j, s.slots[k], d);
    }
    forall g: nat ensures GlobalOK(t, g) {
      assert GlobalOK(s, g);
    }
    SameTrace(s, t);
  }

  lemma DestroyTrace(s: State, g: nat)
    requires TraceOK(s) && g in s.globals && s.globals[g].ours && s.globals[g].alive
    ensures TraceOK(DestroyGlobal(s, g))
  {
    var t, n := DestroyGlobal(s, g), |s.trace|;
    assert t.trace[n] == ClearUserData(g) && t.trace[n + 1] == GlobalDestroy(g);
    forall i: nat ensures CallOK(t, i) {
      assert CallOK(s, i);
      assert i < n ==> t.trace[i] == s.trace[i];
      assert 0 < i < n ==> t.trace[i - 1] == s.trace[i - 1];
    }
    forall i: nat, j: nat ensures CallsOK(t, i, j) {
      assert CallsOK(s, i, j) && CallOK(s, i);
      assert i < n ==> t.trace[i] == s.trace[i];
      assert j < n ==> t.trace[j] == s.trace[j];
    }
    forall x: nat ensures Recorded(t, x) {
      assert Recorded(s, x);
      assert forall call | call in s.trace :: call in t.trace;
      assert GlobalDestroy(g) == t.trace[n + 1];
    }
  }

  lemma RemoveTrace(s: State, g: nat)
    requires TraceOK(s) && g in s.globals && s.globals[g].ours && s.globals[g].alive && !s.globals[g].removed
    ensures TraceOK(s.(globals := s.globals[g := s.globals[g].(removed := true)],
                       trace := s.trace + [GlobalRemove(g)]))
  {
    var n := |s.trace|;
    var t := s.(globals := s.globals[g := s.globals[g].(removed := true)], trace := s.trace + [GlobalRemove(g)]);
    forall i: nat ensures CallOK(t, i) {
      assert CallOK(s, i);
      assert i < n ==> t.trace[i] == s.trace[i];
      assert 0 < i < n ==> t.trace[i - 1] == s.trace[i - 1];
    }
    forall i: nat, j: nat ensures CallsOK(t, i, j) {
      assert CallsOK(s, i, j) && CallOK(s, i);
      assert i < n ==> t.trace[i] == s.trace[i];
      assert j < n ==> t.trace[j] == s.trace[j];
    }
    forall x: nat ensures Recorded(t, x) {
      assert Recorded(s, x);
      assert forall call | call in s.trace :: call in t.trace;
      assert t.trace[n] == GlobalRemove(g);
    }
  }

  // The result of ~global_base_t's fini on one handle, spelled out.
  lemma VacateInv(s: State, k: nat)
    requires Inv(s) && k in s.slots
    ensures Inv(Vacate(s, k))
    ensures Vacate(s, k).slots == s.slots[k := EMPTY]
  {
    CountedHandle(s, k);
    var t := Vacate(s, k);
    forall d: nat ensures DataOK(t, d) {
      assert DataOK(s, d);
      HoldersAfterWrite(s.slots, k, EMPTY, d);
      assert s.slots[k].data.Some? ==> DataOK(s, s.slots[k].data.value);
    }
    forall i: nat ensures SlotOK(t, i) {
      assert SlotOK(s, i);
      if i in s.slots && i != k {
        VacateSlot(s, k, i);
      }
    }
    forall g: nat ensures GlobalOK(t, g) {
      assert GlobalOK(s, g);
      if g in s.globals && s.globals[g].userData.Some? {
        assert DataOK(s, s.globals[g].userData.value);
      }
    }
    if s.slots[k].data.Some? && s.datas[s.slots[k].data.value].counter == 1 {
      DestroyTrace(s, s.datas[s.slots[k].data.value].glob);
      SameTrace(DestroyGlobal(s, s.datas[s.slots[k].data.value].glob), t);
    } else {
      SameTrace(s, t);
    }
  }

  // No other handle is left when the record goes.
  lemma VacateSlot(s: State, k: nat, i: nat)
    requires Inv(s) && k in s.slots && i in s.slots && i != k
    ensures Points(Vacate(s, k), s.slots[i])
  {
    CountedHandle(s, k);
    CountedHandle(s, i);
    if s.slots[i].data.Some? && s.slots[i].data == s.slots[k].data {
      var d := s.slots[i].data.value;
      assert DataOK(s, d);
      HoldersAfterWrite(s.slots, k, EMPTY, d);
      HolderCounts(s.slots[k := EMPTY], i, d);
    }
  }

  lemma EraseInv(s: State, k: nat)
    requires Inv(s) && (k in s.slots ==> s.slots[k].data.None?)
    ensures Inv(Erase(s, k))
  {
    var t := Erase(s, k);
    forall i: nat ensures SlotOK(t, i) {
      assert SlotOK(s, i);
    }
    forall d: nat ensures DataOK(t, d) {
      assert DataOK(s, d);
      HoldersAfterRemove(s.slots, k, d);
    }
    forall g: nat ensures GlobalOK(t, g) {
      assert GlobalOK(s, g);
    }
    SameTrace(s, t);
  }

  lemma RemoveInv(s: State, k: nat)
    requires Inv(s) && k in s.slots && Points(s, s.slots[k])
    requires s.slots[k].data.Some? ==> s.datas[s.slots[k].data.value].glob in s.globals
    ensures Inv(Remove(s, k))
  {
    CountedHandle(s, k);
    var t := Remove(s, k);
    if t != s {
      var g := s.datas[s.slots[k].data.value].glob;
      forall i: nat ensures SlotOK(t, i) {
        assert SlotOK(s, i);
      }
      forall d: nat ensures DataOK(t, d) {
        assert DataOK(s, d);
      }
      forall x: nat ensures GlobalOK(t, x) {
        assert GlobalOK(s, x);
      }
      RemoveTrace(s, g);
      SameTrace(s.(globals := t.globals, trace := t.trace), t);
    }
  }

  lemma StepInv(s: State, op: Op)
    requires Inv(s) && Enabled(s, op)
    ensures Inv(Step(s, op))
  {
    match op
    case New(k) => CreateInv(s, k);
    case NewForeign => CreateForeignInv(s);
    case Lookup(k, g) =>
      if g.Some? {
        assert GlobalOK(s, g.value);
        AttachInv(s, k, Handle(g, s.globals[g.value].userData, ()));
      }
    case Copy(k, j) =>
      CountedHandle(s, j);
      AttachInv(s, k, s.slots[j]);
    case CopyInto(k, j) =>
      if k != j {
        VacateInv(s, k);
        CountedHandle(Vacate(s, k), j);
        AttachInv(Vacate(s, k), k, s.slots[j]);
      }
    case Move(k, j) =>
      AttachInv(s, k, EMPTY);
      SwapInv(Write(s, k, EMPTY), k, j);
    case MoveInto(k, j) => SwapInv(s, k, j);
    case Drop(k) =>
      VacateInv(s, k);
      EraseInv(Vacate(s, k), k);
    case Withdraw(k) =>
      CountedHandle(s, k);
      RemoveInv(s, k);
  }

  lemma {:induction false} RunInv(ops: seq<Op>, s: State)
    requires Reaches(ops, s)
    ensures Inv(s)
    decreases |ops|
  {
    if ops != [] {
      var last := ops[|ops| - 1];
      assert Follows(ops[..|ops| - 1], last, s);
      var r: State :| Reaches(ops[..|ops| - 1], r) && Leads(r, last, s);
      RunInv(ops[..|ops| - 1], r);
      StepInv(r, last);
    }
  }

  // ----------------------------------------------------------------- theorems

  // The counter is exact, and nothing that is gone is ever used.
  lemma CounterIsHandles(ops: seq<Op>, s: State, d: nat)
    requires Reaches(ops, s) && d in s.datas
    ensures s.datas[d].counter == |Holders(s.slots, d)| > 0 && !s.fault
  {
    RunInv(ops, s);
    assert DataOK(s, d);
  }

  ghost predicate Held(s: State, g: nat) {
    exists k: nat :: k in s.slots && s.slots[k].data.Some? && s.slots[k].ptr == Some(g)
  }

  lemma RecordIsHeld(s: State, d: nat)
    requires Inv(s) && d in s.datas
    ensures Held(s, s.datas[d].glob)
  {
    assert DataOK(s, d);
    var k :| k in Holders(s.slots, d);
    CountedHandle(s, k);
  }

  // A global the program created is alive exactly while one of its handles exists,
  // and then bind_func finds its record through the user data.
  lemma AliveIffHeld(ops: seq<Op>, s: State, g: nat)
    requires Reaches(ops, s) && g in s.globals && s.globals[g].ours
    ensures s.globals[g].alive <==> Held(s, g)
    ensures s.globals[g].alive <==> s.globals[g].userData.Some?
    ensures s.globals[g].alive ==>
      s.globals[g].userData.value in s.datas && s.datas[s.globals[g].userData.value].glob == g
  {
    RunInv(ops, s);
    assert GlobalOK(s, g);
    if s.globals[g].userData.Some? {
      RecordIsHeld(s, s.globals[g].userData.value);
      assert DataOK(s, s.globals[g].userData.value);
    }
    if Held(s, g) {
      var k: nat :| k in s.slots && s.slots[k].data.Some? && s.slots[k].ptr == Some(g);
      CountedHandle(s, k);
    }
  }

  // The handle an operation gives up what it holds for.
  function GivesUp(op: Op): Option<nat> {
    match op
    case Drop(k) => Some(k)
    case CopyInto(k, j) => if k == j then None else Some(k)
    case _ => None
  }

  predicate OnlyHandle(s: State, d: nat, k: Option<nat>) {
    k.Some? && Holders(s.slots, d) == {k.value}
  }

  lemma VacateKills(s: State, k: nat, d: nat)
    requires Inv(s) && k in s.slots && d in s.datas
    ensures s.datas[d].glob in Vacate(s, k).globals
    ensures !Vacate(s, k).globals[s.datas[d].glob].alive <==> Holders(s.slots, d) == {k}
  {
    CountedHandle(s, k);
    assert DataOK(s, d);
    if s.slots[k].data == Some(d) {
      assert k in Holders(s.slots, d);
      assert |Holders(s.slots, d)| == |Holders(s.slots, d) - {k}| + 1;
    } else {
      assert k !in Holders(s.slots, d);
    }
  }

  // A step destroys a global exactly when it gives up the global's only handle.
  lemma DiesWithLastHandle(s: State, op: Op, d: nat)
    requires Inv(s) && Enabled(s, op) && d in s.datas
    ensures s.datas[d].glob in s.globals && s.globals[s.datas[d].glob].alive
    ensures s.datas[d].glob in Step(s, op).globals
    ensures !Step(s, op).globals[s.datas[d].glob].alive <==> OnlyHandle(s, d, GivesUp(op))
  {
    assert DataOK(s, d);
    assert GlobalOK(s, s.nextGlobal);
    match op
    case Drop(k) => VacateKills(s, k, d);
    case CopyInto(k, j) =>
      if k != j {
        VacateKills(s, k, d);
        VacateInv(s, k);
        CountedHandle(Vacate(s, k), j);
      }
    case Copy(_, j) => CountedHandle(s, j);
    case Withdraw(k) => CountedHandle(s, k);
    case Lookup(_, g) => if g.Some? { assert GlobalOK(s, g.value); }
    case _ =>
  }

  // Over a whole run each C call is made at most once for a global, the user data is
  // cleared immediately before it is destroyed, and no call follows.
  lemma CallsInOrder(ops: seq<Op>, s: State, i: nat, j: nat)
    requires Reaches(ops, s) && i < |s.trace| && j < |s.trace|
    ensures s.trace[i] == s.trace[j] ==> i == j
    ensures s.trace[i].GlobalDestroy? ==> i > 0 && s.trace[i - 1] == ClearUserData(s.trace[i].glob)
    ensures s.trace[i].GlobalDestroy? && j > i ==> s.trace[j].glob != s.trace[i].glob
  {
    RunInv(ops, s);
    assert CallsOK(s, i, j) && CallsOK(s, j, i) && CallOK(s, i);
  }

  // A global has been destroyed, or withdrawn, exactly when the call was made.
  lemma CallsAreComplete(ops: seq<Op>, s: State, g: nat)
    requires Reaches(ops, s) && g in s.globals
    ensures GlobalDestroy(g) in s.trace <==> !s.globals[g].alive
    ensures GlobalRemove(g) in s.trace <==> s.globals[g].removed
  {
    RunInv(ops, s);
    assert Recorded(s, g);
    forall i | 0 <= i < |s.trace| && s.trace[i].glob == g
      ensures s.trace[i].GlobalDestroy? ==> !s.globals[g].alive
      ensures s.trace[i].GlobalRemove? ==> s.globals[g].removed
    {
      assert CallOK(s, i);
    }
  }

  // Withdrawing through any handle of a withdrawn global does nothing.
  lemma RemoveOnce(s: State, k: nat, j: nat)
    requires Inv(s) && k in s.slots && j in s.slots && s.slots[k].data == s.slots[j].data
    ensures var t := Step(s, Withdraw(k)); Inv(t) && j in t.slots && Step(t, Withdraw(j)) == t
  {
    StepInv(s, Withdraw(k));
    CountedHandle(s, k);
    CountedHandle(s, j);
  }

  lemma VacateKeepsFlags(s: State, k: nat, d: nat)
    requires Inv(s) && k in s.slots && d in s.datas
    ensures var t, g := Vacate(s, k), s.datas[d].glob;
      && g in s.globals && g in t.globals && t.globals[g].removed == s.globals[g].removed
      && s.datas[d].removed == s.globals[g].removed
      && (d in t.datas ==> t.datas[d].glob == g && t.datas[d].removed == s.datas[d].removed)
  {
    assert DataOK(s, d);
    CountedHandle(s, k);
  }

  // A step withdraws a global exactly when it is remove() through a handle on it, and
  // the record says so too.
  lemma WithdrawnExactly(s: State, op: Op, d: nat)
    requires Inv(s) && Enabled(s, op) && d in s.datas
    ensures var t, g := Step(s, op), s.datas[d].glob;
      && g in s.globals && g in t.globals
      && (t.globals[g].removed <==> s.globals[g].removed || (op.Withdraw? && s.slots[op.k].data == Some(d)))
      && (d in t.datas ==> t.datas[d].glob == g && t.datas[d].removed == t.globals[g].removed)
  {
    assert DataOK(s, d) && GlobalOK(s, s.nextGlobal) && DataOK(s, s.nextData);
    match op
    case Drop(k) => VacateKeepsFlags(s, k, d);
    case CopyInto(k, j) =>
      if k != j {
        VacateKeepsFlags(s, k, d);
        VacateInv(s, k);
        CountedHandle(Vacate(s, k), j);
      }
    case Copy(_, j) => CountedHandle(s, j);
    case Withdraw(k) => CountedHandle(s, k);
    case Lookup(_, g) => if g.Some? { assert GlobalOK(s, g.value); }
    case _ =>
  }

  // Globals come from the constructor and from C code; no step forgets one or changes
  // whose it is.
  lemma GlobalsExactly(s: State, op: Op, g: nat)
    requires Inv(s) && Enabled(s, op)
    ensures var t := Step(s, op);
      && (g in t.globals <==> g in s.globals || (g == s.nextGlobal && (op.New? || op.NewForeign?)))
      && (g in t.globals ==> t.globals[g].ours == if g in s.globals then s.globals[g].ours else op.New?)
      && (g in t.globals && g !in s.globals ==> t.globals[g].alive && !t.globals[g].removed)
  {
    assert GlobalOK(s, s.nextGlobal);
    match op
    case Drop(k) => VacateKeepsGlobals(s, k);
    case CopyInto(k, j) =>
      if k != j {
        VacateKeepsGlobals(s, k);
        VacateInv(s, k);
        CountedHandle(Vacate(s, k), j);
      }
    case Copy(_, j) => CountedHandle(s, j);
    case Withdraw(k) => CountedHandle(s, k);
    case Lookup(_, x) => if x.Some? { assert GlobalOK(s, x.value); }
    case _ =>
  }

  lemma VacateKeepsGlobals(s: State, k: nat)
    requires Inv(s) && k in s.slots
    ensures var t := Vacate(s, k);
      t.globals.Keys == s.globals.Keys && forall g | g in s.globals :: t.globals[g].ours == s.globals[g].ours
  {
    CountedHandle(s, k);
  }

  // The libwayland calls of one step, told without counters.
  function CallsOf(s: State, op: Op): seq<CCall> {
    if op.Withdraw? then RemoveCalls(s, op.k)
    else if GivesUp(op).Some? then EndCalls(s, GivesUp(op).value)
    else []
  }

  function RemoveCalls(s: State, k: nat): seq<CCall> {
    if k !in s.slots || s.slots[k].data.None? then []
    else
      var g := s.slots[k].ptr;
      if g.Some? && g.value in s.globals && !s.globals[g.value].removed then [GlobalRemove(g.value)] else []
  }

  function EndCalls(s: State, k: nat): seq<CCall> {
    if k !in s.slots || s.slots[k].data.None? then []
    else
      var g := s.slots[k].ptr;
      if g.Some? && OnlyHandle(s, s.slots[k].data.value, Some(k))
      then [ClearUserData(g.value), GlobalDestroy(g.value)] else []
  }

  lemma VacateCalls(s: State, k: nat)
    requires Inv(s) && k in s.slots
    ensures Vacate(s, k).trace == s.trace + EndCalls(s, k)
  {
    CountedHandle(s, k);
    if s.slots[k].data.Some? {
      var d := s.slots[k].data.value;
      assert DataOK(s, d);
      assert |Holders(s.slots, d)| == |Holders(s.slots, d) - {k}| + 1;
    }
  }

  // Every step makes exactly the calls its operation is for: the first remove() of a
  // global, or the two that end it when its only handle is given up.
  lemma CallsExactly(s: State, op: Op)
    requires Inv(s) && Enabled(s, op)
    ensures Step(s, op).trace == s.trace + CallsOf(s, op)
  {
    match op
    case Drop(k) => VacateCalls(s, k);
    case CopyInto(k, j) =>
      if k != j {
        VacateCalls(s, k);
        VacateInv(s, k);
        CountedHandle(Vacate(s, k), j);
      }
    case Copy(_, j) => CountedHandle(s, j);
    case Withdraw(k) => CountedHandle(s, k);
    case Lookup(_, g) => if g.Some? { assert GlobalOK(s, g.value); }
    case _ =>
  }

  // What a variable holds after an operation, were handles plain references.
  function Reference(s: State, op: Op, x: nat): Option<GlobalHandle> {
    var same := if x in s.slots then Some(s.slots[x]) else None;
    match op
    case New(k) => if x == k then Some(Handle(Some(s.nextGlobal), Some(s.nextData), ())) else same
    case NewForeign => same
    case Lookup(k, g) =>
      if x == k && g.Some? && g.value in s.globals then Some(Handle(g, s.globals[g.value].userData, ())) else same
    case Copy(k, j) => if x == k && j in s.slots then Some(s.slots[j]) else same
    case CopyInto(k, j) => if x == k && j in s.slots then Some(s.slots[j]) else same
    case Move(k, j) => if x == j then Some(EMPTY) else if x == k && j in s.slots then Some(s.slots[j]) else same
    case MoveInto(k, j) =>
      if x == k && j in s.slots then Some(s.slots[j]) else if x == j && k in s.slots then Some(s.slots[k]) else same
    case Drop(k) => if x == k then None else same
    case Withdraw(_) => same
  }

  lemma HandlesAreReferences(s: State, op: Op, x: nat)
    requires Inv(s) && Enabled(s, op)
    ensures var t := Step(s, op);
      (if x in t.slots then Some(t.slots[x]) else None) == Reference(s, op, x)
  {
    match op
    case Drop(k) => VacateInv(s, k);
    case CopyInto(k, j) =>
      if k != j {
        VacateInv(s, k);
        CountedHandle(Vacate(s, k), j);
      }
    case Copy(_, j) => CountedHandle(s, j);
    case Withdraw(k) => CountedHandle(s, k);
    case Lookup(_, g) => if g.Some? { assert GlobalOK(s, g.value); }
    case _ =>
  }

  // ---------------------------------------------------------- imperative form

  class Globals {
    var slots: map<nat, GlobalHandle>
    var datas: map<nat, Record>
    var globals: map<nat, CGlobal>
    var nextData: nat
    var nextGlobal: nat
    var trace: seq<CCall>

    ghost function Now(): State
      reads this
    {
      State(slots, datas, globals, nextData, nextGlobal, trace, false)
    }

    constructor ()
      ensures Now() == INITIAL && Inv(Now())
    {
      slots, datas, globals, nextData, nextGlobal, trace := map[], map[], map[], 0, 0, [];
    }

    method WlGlobalSetUserData(g: nat)
      requires g in globals && globals[g].alive
      modifies this`globals, this`trace
      ensures globals == old(globals)[g := old(globals)[g].(userData := None)]
      ensures trace == old(trace) + [ClearUserData(g)]
    {
      globals := globals[g := globals[g].(userData := None)];
      trace := trace + [ClearUserData(g)];
    }

    // Nothing may find the data record through the global any more.
    method WlGlobalDestroy(g: nat)
      requires g in globals && globals[g].alive && globals[g].userData.None?
      modifies this`globals, this`trace
      ensures globals == old(globals)[g := old(globals)[g].(alive := false)]
      ensures trace == old(trace) + [GlobalDestroy(g)]
    {
      globals := globals[g := globals[g].(alive := false)];
      trace := trace + [GlobalDestroy(g)];
    }

    // libwayland ends the process when a global is removed a second time.
    method WlGlobalRemove(g: nat)
      requires g in globals && globals[g].alive && !globals[g].removed
      modifies this`globals, this`trace
      ensures globals == old(globals)[g := old(globals)[g].(removed := true)]
      ensures trace == old(trace) + [GlobalRemove(g)]
    {
      globals := globals[g := globals[g].(removed := true)];
      trace := trace + [GlobalRemove(g)];
    }

    method FiniHandle(k: nat)
      requires Inv(Now()) && k in slots
      modifies this`datas, this`globals, this`trace
      ensures Write(Now(), k, EMPTY) == Vacate(old(Now()), k)
    {
      CountedHandle(Now(), k);
      if slots[k].data.Some? {
        var d := slots[k].data.value;
        datas := datas[d := datas[d].(counter := datas[d].counter - 1)];
        if datas[d].counter == 0 {
          var g := slots[k].ptr.value;
          WlGlobalSetUserData(g);
          WlGlobalDestroy(g);
          datas := datas - {d};
        }
      }
    }

    method CreateGlobal(k: nat)
      requires Inv(Now()) && k !in slots
      modifies this
      ensures Now() == Step(old(Now()), New(k)) && Inv(Now())
    {
      StepInv(Now(), New(k));
      var d, g := nextData, nextGlobal;
      nextData, nextGlobal := nextData + 1, nextGlobal + 1;
      datas := datas[d := Record(g, 1, false)];
      globals := globals[g := CGlobal(true, true, Some(d), false)];
      slots := slots[k := Handle(Some(g), Some(d), ())];
    }

    method LookupGlobal(k: nat, g: Option<nat>) returns (threw: bool)
      requires Inv(Now()) && Enabled(Now(), Lookup(k, g))
      modifies this
      ensures Now() == Step(old(Now()), Lookup(k, g)) && Inv(Now())
      ensures threw <==> g.None?
    {
      StepInv(Now(), Lookup(k, g));
      if g.None? {
        return true;
      }
      assert GlobalOK(Now(), g.value);
      var data := globals[g.value].userData;
      slots := slots[k := Handle(g, data, ())];
      if data.Some? {
        datas := datas[data.value := datas[data.value].(counter := datas[data.value].counter + 1)];
      }
      threw := false;
    }

    method CopyHandle(k: nat, j: nat)
      requires Inv(Now()) && k !in slots && j in slots
      modifies this
      ensures Now() == Step(old(Now()), Copy(k, j)) && Inv(Now())
    {
      StepInv(Now(), Copy(k, j));
      CountedHandle(Now(), j);
      slots := slots[k := slots[j]];
      if slots[k].data.Some? {
        var d := slots[k].data.value;
        datas := datas[d := datas[d].(counter := datas[d].counter + 1)];
      }
    }

    // fini comes first: the record that is assigned must survive it.
    method AssignHandle(k: nat, j: nat)
      requires Inv(Now()) && k in slots && j in slots
      modifies this
      ensures Now() == Step(old(Now()), CopyInto(k, j)) && Inv(Now())
    {
      ghost var s := Now();
      StepInv(s, CopyInto(k, j));
      if k == j {
        return;
      }
      VacateInv(s, k);
      CountedHandle(Vacate(s, k), j);
      FiniHandle(k);
      slots := slots[k := slots[j]];
      if slots[k].data.Some? {
        var d := slots[k].data.value;
        datas := datas[d := datas[d].(counter := datas[d].counter + 1)];
      }
    }

    method MoveHandle(k: nat, j: nat)
      requires Inv(Now()) && k !in slots && j in slots
      modifies this
      ensures Now() == Step(old(Now()), Move(k, j)) && Inv(Now())
    {
      StepInv(Now(), Move(k, j));
      slots := slots[k := EMPTY];
      slots := slots[k := slots[j]][j := slots[k]];
    }

    method MoveAssignHandle(k: nat, j: nat)
      requires Inv(Now()) && k in slots && j in slots
      modifies this
      ensures Now() == Step(old(Now()), MoveInto(k, j)) && Inv(Now())
    {
      StepInv(Now(), MoveInto(k, j));
      slots := slots[k := slots[j]][j := slots[k]];
    }

    method DestroyHandle(k: nat)
      requires Inv(Now()) && k in slots
      modifies this
      ensures Now() == Step(old(Now()), Drop(k)) && Inv(Now())
    {
      ghost var s := Now();
      StepInv(s, Drop(k));
      VacateInv(s, k);
      FiniHandle(k);
      assert Now() == Vacate(s, k).(slots := slots);
      slots := slots - {k};
      assert slots == s.slots[k := EMPTY] - {k};
    }

    method RemoveGlobal(k: nat)
      requires Inv(Now()) && k in slots
      modifies this
      ensures Now() == Step(old(Now()), Withdraw(k)) && Inv(Now())
    {
      StepInv(Now(), Withdraw(k));
      CountedHandle(Now(), k);
      if slots[k].data.Some? && !datas[slots[k].data.value].removed {
        var d := slots[k].data.value;
        WlGlobalRemove(slots[k].ptr.value);
        datas := datas[d := datas[d].(removed := true)];
      }
    }
  }
}

// bind_func and the constructor the generator writes for a server class.
module GlobalBinding {
  import opened Wire

  // The version and id that wl_resource_create is asked for.
  datatype Created = Created(version: int32, id: uint32)

  // resource_t(client, interface, version, id)
  function ResourceConstructor(version: int32, id: uint32): Created {
    Created(version, id)
  }

  // The generated X_t(client, id, version) hands its two numbers on in this order;
  // C++ converts each to the type of the parameter it meets.
  function GeneratedConstructor(id: uint32, version: int32): Created {
    ResourceConstructor(ToInt32(id), ToUint32(version))
  }

  // bind_func(client, data, ver, id)
  function BindFunc(ver: uint32, id: uint32): Created {
    GeneratedConstructor(ver, ToInt32(id))
  }

  // The order of the arguments is exchanged twice, so a bound resource is the one the
  // client asked for, whatever the id.
  lemma BoundAsAsked(ver: uint32, id: uint32)
    ensures BindFunc(ver, id).id == id
    ensures ver as int < 0x8000_0000 ==> BindFunc(ver, id).version as int == ver as int
  {
  }

  // Called directly, the generated constructor creates what its parameter names say
  // exactly when both numbers are the same 32 bits.
  lemma DirectConstruction(id: uint32, version: int32)
    ensures GeneratedConstructor(id, version) == Created(version, id) <==> version == ToInt32(id)
  {
  }
}
