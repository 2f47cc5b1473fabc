// The two ways in which a record can be made for a C object that proxy_t is not to
// own: an event that carries another library's proxy, and the public constructor called
// for a display that has a record already.

module ProxyMixups {
  import opened Common
  import opened Handles
  import opened ProxyState
  import opened ProxyInvariant
  import opened ProxySteps
  import opened ProxyRuns

  // ------------------------------------------------------------- single releases

  lemma ReleaseCounted(s: State, k: Slot, d: nat)
    requires k in s.slots && Ranked(s) && s.slots[k].data == Some(d) && d in s.datas && s.datas[d].counter > 1
    ensures var t := Release(s, k);
      && t.slots == s.slots[k := EMPTY.(typ := s.slots[k].typ)]
      && t.datas == s.datas[d := s.datas[d].(counter := s.datas[d].counter - 1)]
      && t.objects == s.objects && t.trace == s.trace
  {
  }

  lemma ReleaseNothing(s: State, k: Slot)
    requires k in s.slots && Ranked(s) && s.slots[k].data.None?
    ensures Release(s, k).objects == s.objects && Release(s, k).trace == s.trace
  {
  }

  // The last handle to a plain standard proxy, whoever the proxy belongs to.
  lemma ReleaseLast(s: State, k: Slot, d: nat, o: nat)
    requires k in s.slots && Ranked(s) && s.slots[k] == Handle(Some(o), Some(d), Standard) && k != Wrapped(d)
    requires d in s.datas && s.datas[d].counter == 1 && s.datas[d].destroyOpcode.None? && s.datas[d].queue.None?
    requires Wrapped(d) in s.slots && s.slots[Wrapped(d)] == EMPTY
    requires o in s.objects && s.objects[o].alive && s.objects[o].kind == Standard
    ensures var t := Release(s, k);
      && t.objects == s.objects[o := s.objects[o].(alive := false)]
      && t.trace == s.trace + [ProxyDestroy(o)]
  {
    var s1 := Detach(s, k);
    assert Ranked(s1);
    ReleaseNothing(s1, Wrapped(d));
  }

  lemma SafeStep(r: State, ops: seq<Op>, op: Op) returns (s: State)
    requires Reaches(ops, r) && Inv(r) && Enabled(r, op) && Safe(r, op)
    ensures Ranked(r) && s == Step(r, op) && Reaches(ops + [op], s) && Inv(s) && Ranked(s)
  {
    CoreRanked(r);
    RunExtends(INITIAL, ops, r, op);
    StepKeepsInv(r, op);
    s := Step(r, op);
    CoreRanked(s);
  }

  // ------------------------------------------------------- another library's proxy

  // The state inside the dispatch of an event that carries only the proxy o of another
  // library: o has been given a record of ours.
  function Adopting(s: State, target: nat, o: nat): State
    requires target in s.objects && s.objects[target].userData.Some? && s.objects[target].userData.value in s.datas
    requires o in s.objects
  {
    var depth, d, e := |s.frames|, s.nextData, s.objects[target].userData.value;
    s.(slots := s.slots[Wrapped(d) := EMPTY][Frame(depth, 1) := Handle(Some(o), Some(d), Standard)]
                       [Frame(depth, 0) := Handle(Some(target), Some(e), Standard)],
       datas := s.datas[d := Data(None, None, 1, None, o, Standard, 0, false)]
                       [e := s.datas[e].(counter := s.datas[e].counter + 1)],
       objects := s.objects[o := s.objects[o].(userData := Some(d))],
       nextData := d + 1,
       frames := s.frames + [Dispatching(target, e, s.datas[e].events, 1)],
       mixups := s.mixups + 1,
       fault := true)
  }

  lemma StrangerAdopted(s: State, target: nat, o: nat)
    requires Inv(s) && Ours(s, target) && s.objects[target].kind == Standard && s.objects[target].userData.Some?
    requires Present(s, o) && Foreigner(s, o) && s.objects[o].userData.None?
    ensures s.objects[target].userData.value in s.datas
    ensures DispatchBegin(s, target, [Existing(o)]) == Adopting(s, target, o)
  {
    assert ObjectOK(s, target);
    FreshKeys(s);
    FramesShallow(s);
    StrangerUnpacked(s, o, s.objects[target].queue);
  }

  lemma StrangerUnpacked(s: State, o: nat, queue: Option<nat>)
    requires Present(s, o) && Foreigner(s, o) && s.objects[o].userData.None?
    ensures UnpackArguments(s, |s.frames|, [Existing(o)], 0, queue) ==
      var d := s.nextData;
      s.(slots := s.slots[Wrapped(d) := EMPTY][Frame(|s.frames|, 1) := Handle(Some(o), Some(d), Standard)],
         datas := s.datas[d := Data(None, None, 1, None, o, Standard, 0, false)],
         objects := s.objects[o := s.objects[o].(userData := Some(d))],
         nextData := d + 1,
         mixups := s.mixups + 1,
         fault := true)
  {
    var t := UnpackArgument(s, Frame(|s.frames|, 1), Existing(o), queue);
    assert UnpackArguments(t, |s.frames|, [Existing(o)], 1, queue) == t;
  }

  // When the dispatch ends, the other library's proxy is destroyed under it, although
  // the handler has done nothing.
  lemma StrangerDestroyed(s: State, target: nat, o: nat)
    requires Inv(s) && Ours(s, target) && s.objects[target].kind == Standard && s.objects[target].userData.Some?
    requires Present(s, o) && Foreigner(s, o) && s.objects[o].userData.None?
    ensures var m := DispatchBegin(s, target, [Existing(o)]);
      && m.fault && |m.frames| == |s.frames| + 1 && Ranked(m)
      && (var t := DispatchEnd(m);
          && o in t.objects && t.objects[o].foreign && !t.objects[o].alive
          && t.trace == s.trace + [ProxyDestroy(o)])
  {
    StrangerAdopted(s, target, o);
    StrangerInside(s, target, o);
    StrangerEnds(Adopting(s, target, o), s.nextData, s.objects[target].userData.value, o);
  }

  lemma StrangerInside(s: State, target: nat, o: nat)
    requires Inv(s) && Ours(s, target)
    requires s.objects[target].userData.Some? && s.objects[target].userData.value in s.datas
    requires o in s.objects
    ensures Ranked(Adopting(s, target, o))
    ensures var m, e := Adopting(s, target, o), s.objects[target].userData.value;
      m.datas[e].counter > 1 && s.nextData != e && m.datas[s.nextData].counter == 1
  {
    CoreRanked(s);
    FreshKeys(s);
    assert ObjectOK(s, target) && DataOK(s, s.objects[target].userData.value);
  }

  // The end of a dispatch with one argument, to which only the dispatcher holds.
  lemma StrangerEnds(m: State, d: nat, e: nat, o: nat)
    requires |m.frames| > 0 && Ranked(m) && m.frames[|m.frames| - 1].arguments == 1
    requires var depth := |m.frames| - 1;
      && Frame(depth, 0) in m.slots && m.slots[Frame(depth, 0)].data == Some(e)
      && Frame(depth, 1) in m.slots && m.slots[Frame(depth, 1)] == Handle(Some(o), Some(d), Standard)
    requires e in m.datas && m.datas[e].counter > 1 && d != e
    requires d in m.datas && m.datas[d] == Data(None, None, 1, None, o, Standard, 0, false)
    requires Wrapped(d) in m.slots && m.slots[Wrapped(d)] == EMPTY
    requires o in m.objects && m.objects[o].alive && m.objects[o].kind == Standard
    ensures var t := DispatchEnd(m);
      t.objects == m.objects[o := m.objects[o].(alive := false)] && t.trace == m.trace + [ProxyDestroy(o)]
  {
    var depth := |m.frames| - 1;
    var s0 := m.(frames := m.frames[..depth]);
    ReleaseCounted(s0, Frame(depth, 0), e);
    var s1 := Destroy(s0, Frame(depth, 0));
    assert Ranked(s1);
    LastStranger(s1, depth, d, o);
  }

  lemma LastStranger(s: State, depth: nat, d: nat, o: nat)
    requires Ranked(s) && Frame(depth, 1) in s.slots && s.slots[Frame(depth, 1)] == Handle(Some(o), Some(d), Standard)
    requires d in s.datas && s.datas[d] == Data(None, None, 1, None, o, Standard, 0, false)
    requires Wrapped(d) in s.slots && s.slots[Wrapped(d)] == EMPTY
    requires o in s.objects && s.objects[o].alive && s.objects[o].kind == Standard
    ensures var t := DropArguments(s, depth, 0, 1);
      t.objects == s.objects[o := s.objects[o].(alive := false)] && t.trace == s.trace + [ProxyDestroy(o)]
  {
    ReleaseLast(s, Frame(depth, 1), d, o);
    AfterLast(s, depth, Destroy(s, Frame(depth, 1)));
  }

  lemma AfterLast(s: State, depth: nat, t: State)
    requires Ranked(s) && Frame(depth, 1) in s.slots && t == Destroy(s, Frame(depth, 1))
    ensures DropArguments(s, depth, 0, 1).objects == t.objects && DropArguments(s, depth, 0, 1).trace == t.trace
  {
  }

  // Such a run: an owned proxy, a foreign one, and an event for the first that carries
  // the second.
  lemma StrangerRun() returns (ops: seq<Op>, s: State)
    ensures Reaches(ops, s) && s.fault
    ensures 1 in s.objects && s.objects[1].foreign && !s.objects[1].alive
  {
    var before, r := StrangerSetup();
    StrangerDestroyed(r, 0, 1);
    StrangerStays(r, 0, 1);
    RunExtends(INITIAL, before, r, Begin(0, [Existing(1)]));
    var m := DispatchBegin(r, 0, [Existing(1)]);
    RunExtends(INITIAL, before + [Begin(0, [Existing(1)])], m, End);
    ops, s := before + [Begin(0, [Existing(1)])] + [End], DispatchEnd(m);
  }

  lemma StrangerSetup() returns (ops: seq<Op>, s: State)
    ensures Reaches(ops, s) && Inv(s) && Ranked(s)
    ensures Ours(s, 0) && s.objects[0].kind == Standard && s.objects[0].userData.Some?
    ensures Present(s, 1) && Foreigner(s, 1) && s.objects[1].userData.None?
  {
    InitialInv();
    var op1, op2, op3 := FromC(Standard, false, None, None), Raw(0, 0, None), FromC(Standard, true, None, None);
    var s1 := SafeStep(INITIAL, [], op1);
    assert s1.objects == map[0 := CObject(Standard, false, true, None, None, None, None)] && s1.nextObject == 1;
    var s2 := SafeStep(s1, [] + [op1], op2);
    RawObject(s1, s2);
    var s3 := SafeStep(s2, [] + [op1] + [op2], op3);
    ops, s := [] + [op1] + [op2] + [op3], s3;
    assert s.objects == s2.objects[1 := CObject(Standard, true, true, None, None, None, None)];
  }

  lemma RawObject(s: State, t: State)
    requires s.objects == map[0 := CObject(Standard, false, true, None, None, None, None)] && s.nextObject == 1
    requires t == Construct(s, User(0), 0, Standard, None, false)
    ensures t.nextObject == 1 && Ours(t, 0) && t.objects[0].kind == Standard && t.objects[0].userData.Some?
  {
  }

  lemma StrangerStays(s: State, target: nat, o: nat)
    requires Inv(s) && Ours(s, target) && s.objects[target].kind == Standard && s.objects[target].userData.Some?
    requires Present(s, o) && Foreigner(s, o) && s.objects[o].userData.None?
    ensures var m := DispatchBegin(s, target, [Existing(o)]);
      && |m.frames| > 0 && Ranked(m)
      && DispatchEnd(m).fault
  {
    StrangerDestroyed(s, target, o);
    EndWorse(DispatchBegin(s, target, [Existing(o)]));
  }

  // ---------------------------------------------------- a display's second record

  // The last handle on one of the display's records.
  lemma ReleaseDisplay(s: State, k: Slot, d: nat, o: nat)
    requires k in s.slots && Ranked(s) && s.slots[k] == Handle(Some(o), Some(d), WrapperType.Display) && k != Wrapped(d)
    requires d in s.datas && s.datas[d].counter == 1 && Wrapped(d) in s.slots && s.slots[Wrapped(d)] == EMPTY
    requires o in s.objects && s.objects[o].kind == WrapperType.Display
    ensures var t := Destroy(s, k);
      && t.slots == s.slots - {k, Wrapped(d)} && t.datas == s.datas - {d}
      && t.objects == s.objects[o := s.objects[o].(alive := false)]
      && s.trace + [DisplayDisconnect(o)] <= t.trace
      && (s.datas[d].queue.None? ==> t.trace == s.trace + [DisplayDisconnect(o)])
      && (s.fault || !s.objects[o].alive ==> t.fault)
  {
    var s1 := Detach(s, k);
    assert Ranked(s1);
    var s2 := Release(s1, Wrapped(d));
    assert s2.slots == s1.slots && s2.datas == s1.datas && s2.objects == s1.objects && s2.trace == s1.trace;
  }

  // For every state with a display that one variable holds: after the constructor has
  // been called for it again, giving up the two handles disconnects it twice.
  lemma DisconnectedTwice(s: State, j: nat, k: nat, o: nat, d: nat, v: Option<nat>)
    requires Inv(s) && Enabled(s, Raw(k, o, v))
    requires User(j) in s.slots && s.slots[User(j)] == Handle(Some(o), Some(d), WrapperType.Display)
    requires d in s.datas && s.datas[d].counter == 1
    ensures Ranked(s)
    ensures var t := Step(s, Raw(k, o, v));
      && Ranked(t) && Enabled(t, Drop(k))
      && (var t1 := Step(t, Drop(k));
          && Ranked(t1) && Enabled(t1, Drop(j))
          && s.trace + [DisplayDisconnect(o)] <= t1.trace
          && t1.trace + [DisplayDisconnect(o)] <= Step(t1, Drop(j)).trace
          && (QueueOf(s, v).None? ==> s.trace + [DisplayDisconnect(o), DisplayDisconnect(o)] <= Step(t1, Drop(j)).trace)
          && Step(t1, Drop(j)).fault)
  {
    CoreRanked(s);
    HeldDisplay(s, j, o, d);
    SecondHandle(s, j, k, o, d, QueueOf(s, v));
    TwoReleases(ConstructRaw(s, User(k), o, QueueOf(s, v)), j, k, o, d, s.nextData);
  }

  // A variable with the only handle on record d of display o.
  predicate OnlyHandle(s: State, k: nat, o: nat, d: nat) {
    && User(k) in s.slots && s.slots[User(k)] == Handle(Some(o), Some(d), WrapperType.Display)
    && d in s.datas && s.datas[d].counter == 1 && Wrapped(d) in s.slots && s.slots[Wrapped(d)] == EMPTY
  }

  lemma SecondHandle(s: State, j: nat, k: nat, o: nat, d: nat, queue: Option<nat>)
    requires Inv(s) && Ours(s, o) && s.objects[o].kind == WrapperType.Display && s.objects[o].userData == Some(d)
    requires OnlyHandle(s, j, o, d) && User(k) !in s.slots
    ensures var t := ConstructRaw(s, User(k), o, queue);
      && Ranked(t) && OnlyHandle(t, j, o, d) && OnlyHandle(t, k, o, s.nextData) && d != s.nextData
      && t.datas[s.nextData].queue == queue
      && o in t.objects && t.objects[o].kind == WrapperType.Display && t.trace == s.trace
  {
    FreshKeys(s);
    CoreRanked(s);
    SecondRecord(s, User(k), o, queue);
    var t, e := ConstructRaw(s, User(k), o, queue), s.nextData;
    assert t.slots == s.slots[Wrapped(e) := EMPTY][User(k) := Handle(Some(o), Some(e), WrapperType.Display)];
  }

  lemma TwoReleases(t: State, j: nat, k: nat, o: nat, d: nat, e: nat)
    requires Ranked(t) && OnlyHandle(t, j, o, d) && OnlyHandle(t, k, o, e) && d != e && j != k
    requires o in t.objects && t.objects[o].kind == WrapperType.Display
    ensures var t1 := Destroy(t, User(k));
      && Ranked(t1) && User(j) in t1.slots
      && t.trace + [DisplayDisconnect(o)] <= t1.trace
      && t1.trace + [DisplayDisconnect(o)] <= Destroy(t1, User(j)).trace
      && (t.datas[e].queue.None? ==>
            t.trace + [DisplayDisconnect(o), DisplayDisconnect(o)] <= Destroy(t1, User(j)).trace)
      && Destroy(t1, User(j)).fault
  {
    ReleaseDisplay(t, User(k), e, o);
    var t1 := Destroy(t, User(k));
    assert Ranked(t1);
    ReleaseDisplay(t1, User(j), d, o);
    assert t.trace + [DisplayDisconnect(o)] + [DisplayDisconnect(o)] ==
      t.trace + [DisplayDisconnect(o), DisplayDisconnect(o)];
  }

  lemma HeldDisplay(s: State, j: nat, o: nat, d: nat)
    requires Inv(s) && User(j) in s.slots && s.slots[User(j)] == Handle(Some(o), Some(d), WrapperType.Display)
    requires d in s.datas && s.datas[d].counter == 1
    ensures o in s.objects && s.objects[o].kind == WrapperType.Display && s.objects[o].userData == Some(d)
    ensures Wrapped(d) in s.slots && s.slots[Wrapped(d)] == EMPTY
  {
    assert SlotOK(s, User(j)) && DataOK(s, d) && ObjectOK(s, o) && WrapperHolds(s, d);
  }

  // Such a run: connect, construct again, give up both handles.
  lemma DisconnectedTwiceRun() returns (ops: seq<Op>, s: State)
    ensures ops == [Op.Display(0, None), Raw(1, 0, None), Drop(1), Drop(0)]
    ensures Reaches(ops, s) && s.fault
    ensures [DisplayDisconnect(0), DisplayDisconnect(0)] <= s.trace
  {
    var r := Connected();
    var first := [Op.Display(0, None)];
    s := SecondHandleRun(first, r, 0, 1, 0, 0);
    ops := first + [Raw(1, 0, None)] + [Drop(1)] + [Drop(0)];
  }

  lemma SecondHandleRun(ops: seq<Op>, s: State, j: nat, k: nat, o: nat, d: nat) returns (t: State)
    requires Reaches(ops, s) && Inv(s) && Enabled(s, Raw(k, o, None))
    requires User(j) in s.slots && s.slots[User(j)] == Handle(Some(o), Some(d), WrapperType.Display)
    requires d in s.datas && s.datas[d].counter == 1
    ensures Reaches(ops + [Raw(k, o, None)] + [Drop(k)] + [Drop(j)], t) && t.fault
    ensures s.trace + [DisplayDisconnect(o), DisplayDisconnect(o)] <= t.trace
  {
    DisconnectedTwice(s, j, k, o, d, None);
    t := ThreeSteps(ops, s, Raw(k, o, None), Drop(k), Drop(j));
  }

  lemma ThreeSteps(ops: seq<Op>, s: State, a: Op, b: Op, c: Op) returns (t: State)
    requires Reaches(ops, s) && Ranked(s) && Enabled(s, a) && Ranked(Step(s, a)) && Enabled(Step(s, a), b)
    requires Ranked(Step(Step(s, a), b)) && Enabled(Step(Step(s, a), b), c)
    ensures t == Step(Step(Step(s, a), b), c) && Reaches(ops + [a] + [b] + [c], t)
  {
    RunExtends(INITIAL, ops, s, a);
    RunExtends(INITIAL, ops + [a], Step(s, a), b);
    RunExtends(INITIAL, ops + [a] + [b], Step(Step(s, a), b), c);
    t := Step(Step(Step(s, a), b), c);
  }

  lemma Connected() returns (s: State)
    ensures Reaches([Op.Display(0, None)], s) && Inv(s) && Ours(s, 0)
    ensures s.slots == map[Wrapped(0) := EMPTY, User(0) := Handle(Some(0), Some(0), WrapperType.Display)]
    ensures 0 in s.datas && s.datas[0].counter == 1 && s.trace == []
  {
    InitialInv();
    s := SafeStep(INITIAL, [], Op.Display(0, None));
    assert [] + [Op.Display(0, None)] == [Op.Display(0, None)];
    assert s == Connect(INITIAL, User(0), None);
  }
}
