// Dispatching events: what is alive meanwhile and what is left afterwards.

module ProxyDispatch {
  import opened Common
  import opened Handles
  import opened ProxyState
  import opened ProxyInvariant
  import opened ProxySteps
  import opened ProxyRuns
  import opened ProxyTheorems

  // While a c_dispatcher runs, at any depth and whatever its handler has done, the
  // target proxy is alive and its data record still holds the handler storage.
  lemma DispatchKeepsTargetAlive(ops: seq<Op>, s: State, i: nat)
    requires Reaches(ops, s) && s.mixups == 0 && i < |s.frames|
    ensures var f := s.frames[i];
      && f.target in s.objects && s.objects[f.target].alive
      && f.data in s.datas && s.datas[f.data].obj == f.target
      && (f.events.Some? ==> s.datas[f.data].events == f.events)
  {
    RunKeepsInv(ops, s);
    assert FrameOK(s, i);
    assert DataOK(s, s.frames[i].data);
  }

  // -------------------------------------------------------- when a dispatch ends

  // A local of the dispatcher at this depth.
  predicate Local(k: Slot, depth: nat) {
    k.Frame? && k.depth == depth
  }

  // A place other than the locals from which record d is still referred to in t: a
  // variable, an outer dispatcher, or a record that is itself still there.
  ghost predicate KeptBy(s: State, t: State, d: nat, k: Slot)
    requires |s.frames| > 0
  {
    && k in s.slots && s.slots[k].data == Some(d)
    && !Local(k, |s.frames| - 1)
    && (k.Wrapped? ==> k.owner in t.datas)
  }

  // The handles on d that the end of the dispatch destroys.
  function Lost(s: State, t: State, d: nat): set<Slot>
    requires |s.frames| > 0
  {
    set k | k in s.slots && s.slots[k].data == Some(d)
            && (Local(k, |s.frames| - 1) || (k.Wrapped? && k.owner !in t.datas))
  }

  // Exactly those slots go.
  lemma EndSlot(s: State, t: State, k: Slot)
    requires Inv(s) && |s.frames| > 0 && Finished(s, t) && k in s.slots
    ensures if Local(k, |s.frames| - 1) || (k.Wrapped? && k.owner !in t.datas) then k !in t.slots
            else k in t.slots && t.slots[k] == s.slots[k]
  {
    var depth := |s.frames| - 1;
    assert DroppedSlot(s, t, depth, k);
    if k in t.slots { assert SlotOK(t, k); }
    if k.Wrapped? && k.owner in t.datas { assert DataOK(t, k.owner); }
    if Local(k, depth) { assert Frame(k.depth, k.index) == k; }
  }

  lemma EndKeepsIff(s: State, t: State, d: nat)
    requires Inv(s) && |s.frames| > 0 && Finished(s, t) && d in s.datas
    ensures d in t.datas <==> s.datas[d].leaked > 0 || exists k :: KeptBy(s, t, d, k)
  {
    assert DataOK(s, d);
    if d in t.datas && t.datas[d].leaked == 0 {
      assert DataOK(t, d);
      var k :| k in Holders(t.slots, d);
      assert DroppedSlot(s, t, |s.frames| - 1, k);
      EndSlot(s, t, k);
      assert KeptBy(s, t, d, k);
    }
    if k :| KeptBy(s, t, d, k) {
      EndSlot(s, t, k);
      assert SlotOK(t, k);
    }
  }

  // A reason for record d to outlast the dispatch that has nothing to do with other
  // records: a lost count, a variable, or an outer dispatcher.
  ghost predicate Anchored(s: State, d: nat)
    requires |s.frames| > 0
  {
    && d in s.datas
    && (s.datas[d].leaked > 0
        || exists k :: k in s.slots && s.slots[k].data == Some(d) && !Local(k, |s.frames| - 1) && !k.Wrapped?)
  }

  // A chain of wrapped proxies leads from such a record to d.
  ghost predicate Reachable(s: State, d: nat)
    requires |s.frames| > 0
  {
    exists path: seq<nat> :: Leading(s, path, d)
  }

  ghost predicate Leading(s: State, path: seq<nat>, d: nat)
    requires |s.frames| > 0
  {
    |path| > 0 && Anchored(s, path[0]) && path[|path| - 1] == d && WrapsPath(s, path)
  }

  lemma {:induction false} KeptIsReachable(s: State, t: State, d: nat)
    requires Inv(s) && |s.frames| > 0 && Finished(s, t) && d in s.datas && d in t.datas
    ensures Reachable(s, d)
    decreases s.nextData - d
  {
    EndKeepsIff(s, t, d);
    assert DataOK(s, d);
    if Anchored(s, d) {
      assert Leading(s, [d], d);
    } else {
      var k :| KeptBy(s, t, d, k);
      assert SlotOK(s, k) && DataOK(s, k.owner);
      KeptIsReachable(s, t, k.owner);
      WrappedIsReachable(s, k.owner, d);
    }
  }

  lemma WrappedIsReachable(s: State, e: nat, d: nat)
    requires |s.frames| > 0 && Wrapped(e) in s.slots && s.slots[Wrapped(e)].data == Some(d) && Reachable(s, e)
    ensures Reachable(s, d)
  {
    var path :| Leading(s, path, e);
    assert Leading(s, path + [d], d);
  }

  lemma {:induction false} ReachableIsKept(s: State, t: State, path: seq<nat>, d: nat)
    requires Inv(s) && |s.frames| > 0 && Finished(s, t) && Leading(s, path, d)
    ensures d in s.datas && d in t.datas
    decreases |path|
  {
    var n := |path| - 1;
    if n == 0 {
      if k :| k in s.slots && s.slots[k].data == Some(d) && !Local(k, |s.frames| - 1) && !k.Wrapped? {
        assert KeptBy(s, t, d, k);
      }
    } else {
      ReachableIsKept(s, t, path[..n], path[n - 1]);
      assert SlotOK(s, Wrapped(path[n - 1]));
      assert KeptBy(s, t, d, Wrapped(path[n - 1]));
    }
    EndKeepsIff(s, t, d);
  }

  lemma KeptIffReachable(s: State, t: State, d: nat)
    requires Inv(s) && |s.frames| > 0 && Finished(s, t) && d in s.datas
    ensures d in t.datas <==> Reachable(s, d)
  {
    if d in t.datas { KeptIsReachable(s, t, d); }
    if path :| Leading(s, path, d) { ReachableIsKept(s, t, path, d); }
  }

  lemma EndObject(s: State, t: State, d: nat)
    requires Inv(s) && |s.frames| > 0 && Finished(s, t) && d in s.datas
    ensures s.datas[d].obj in t.objects
    ensures t.objects[s.datas[d].obj].alive <==> d in t.datas
  {
    var o := s.datas[d].obj;
    assert DataOK(s, d);
    if d in t.datas { assert DataOK(t, d); }
    if t.objects[o].alive { assert ObjectOK(t, o); }
  }

  lemma EndCount(s: State, t: State, d: nat)
    requires Inv(s) && |s.frames| > 0 && Finished(s, t) && d in s.datas && d in t.datas
    ensures t.datas[d].counter == s.datas[d].counter - |Lost(s, t, d)|
  {
    assert DataOK(s, d) && DataOK(t, d);
    assert Holders(t.slots, d) == Holders(s.slots, d) - Lost(s, t, d) by {
      forall k ensures k in Holders(t.slots, d) <==> k in Holders(s.slots, d) && k !in Lost(s, t, d) {
        if k in s.slots { EndSlot(s, t, k); }
        assert DroppedSlot(s, t, |s.frames| - 1, k);
      }
    }
    assert Lost(s, t, d) <= Holders(s.slots, d);
  }

  // Whatever a handler has done, when its dispatch ends a record survives exactly if a
  // chain of wrapped proxies leads to it from a record with a lost count, or with a
  // handle in a variable or an outer dispatcher; its object lives exactly if it does;
  // and its counter falls by the number of handles that go.
  lemma DispatchEndExact(ops: seq<Op>, s: State, d: nat)
    requires Reaches(ops, s) && s.mixups == 0 && |s.frames| > 0 && d in s.datas
    ensures Ranked(s)
    ensures var t, o := DispatchEnd(s), s.datas[d].obj;
      && Inv(t)
      && (d in t.datas <==> Reachable(s, d))
      && o in t.objects && (t.objects[o].alive <==> d in t.datas)
      && (d in t.datas ==> t.datas[d].counter == s.datas[d].counter - |Lost(s, t, d)|)
  {
    RunKeepsInv(ops, s);
    EndInv(s);
    EndFinished(s, DispatchEnd(s));
    EndExact(s, DispatchEnd(s), d);
  }

  lemma EndExact(s: State, t: State, d: nat)
    requires Inv(s) && |s.frames| > 0 && Finished(s, t) && d in s.datas
    ensures d in t.datas <==> Reachable(s, d)
    ensures s.datas[d].obj in t.objects && (t.objects[s.datas[d].obj].alive <==> d in t.datas)
    ensures d in t.datas ==> t.datas[d].counter == s.datas[d].counter - |Lost(s, t, d)|
  {
    KeptIffReachable(s, t, d);
    EndObject(s, t, d);
    if d in t.datas { EndCount(s, t, d); }
  }

  // In particular an object kept by no one but the dispatcher is destroyed, and one
  // that a variable or an outer dispatcher refers to is not.
  lemma KeptOrDestroyed(ops: seq<Op>, s: State, d: nat)
    requires Reaches(ops, s) && s.mixups == 0 && |s.frames| > 0 && d in s.datas
    ensures Ranked(s) && s.datas[d].obj in DispatchEnd(s).objects
    ensures s.datas[d].leaked == 0 && (forall k | k in Holders(s.slots, d) :: Local(k, |s.frames| - 1)) ==>
      d !in DispatchEnd(s).datas && !DispatchEnd(s).objects[s.datas[d].obj].alive
    ensures (exists k | k in Holders(s.slots, d) :: !Local(k, |s.frames| - 1) && !k.Wrapped?) ==>
      d in DispatchEnd(s).datas && DispatchEnd(s).objects[s.datas[d].obj].alive
  {
    DispatchEndExact(ops, s, d);
    KeptElsewhere(s, d);
  }

  lemma KeptElsewhere(s: State, d: nat)
    requires |s.frames| > 0 && d in s.datas
    ensures (exists k | k in Holders(s.slots, d) :: !Local(k, |s.frames| - 1) && !k.Wrapped?) ==> Reachable(s, d)
    ensures s.datas[d].leaked == 0 && (forall k | k in Holders(s.slots, d) :: Local(k, |s.frames| - 1)) ==>
      !Reachable(s, d)
  {
    if k :| k in Holders(s.slots, d) && !Local(k, |s.frames| - 1) && !k.Wrapped? {
      assert Leading(s, [d], d);
    }
    if path :| Leading(s, path, d) && |path| > 1 {
      assert Wrapped(path[|path| - 2]) in Holders(s.slots, d);
    }
  }

  // ------------------------------------------------------- a handler that does nothing

  // A dispatch whose handler does nothing leaves everything as it was: every handle
  // and every count is back, and whatever the event introduced is destroyed.  (An
  // existing argument without a record would be adopted and so destroyed as well.)
  lemma DispatchIsBalanced(s: State, target: nat, args: seq<ObjectArgument>)
    requires Inv(s) && Ranked(s) && Enabled(s, Begin(target, args)) && s.objects[target].userData.Some?
    requires Safe(s, Begin(target, args)) && Recorded(s, args)
    ensures var m := DispatchBegin(s, target, args);
      && |m.frames| == |s.frames| + 1 && Ranked(m)
      && (var t := DispatchEnd(m);
          && t.slots == s.slots && t.datas == s.datas && t.frames == s.frames && t.queueVars == s.queueVars
          && (forall o | o in s.objects :: o in t.objects && t.objects[o].alive == s.objects[o].alive)
          && (forall o | o in t.objects && o !in s.objects :: !t.objects[o].alive))
  {
    SafeIsHarmless(s, args);
    BeginInv(s, target, args);
    var m := DispatchBegin(s, target, args);
    CoreRanked(m);
    BeginBegun(s, target, args);
    EndInv(m);
    var t := DispatchEnd(m);
    EndFinished(m, t);
    BackAgain(s, m, t);
  }

  // Every existing argument has a record.
  predicate Recorded(s: State, args: seq<ObjectArgument>) {
    forall i {:trigger RecordedOne(s, args[i])} | 0 <= i < |args| :: RecordedOne(s, args[i])
  }

  predicate RecordedOne(s: State, a: ObjectArgument) {
    a.Existing? ==> a.obj in s.objects && s.objects[a.obj].userData.Some?
  }

  // What the state inside a dispatch that began in s has in common with s.
  ghost predicate Begun(s: State, m: State) {
    && Inv(s) && Inv(m) && m.queueVars == s.queueVars
    && |m.frames| == |s.frames| + 1 && m.frames[..|s.frames|] == s.frames
    && (forall k | k in s.slots :: k in m.slots && m.slots[k] == s.slots[k])
    && (forall k | k in m.slots && k !in s.slots :: k.Wrapped? || (k.Frame? && k.depth == |s.frames|))
    && (forall d: nat {:trigger OnlyCounted(s, m, d)} :: OnlyCounted(s, m, d))
    && (forall o | o in s.objects :: o in m.objects && m.objects[o] == s.objects[o])
    && (forall o | o in m.objects && o !in s.objects :: m.objects[o].userData.Some? && !m.objects[o].foreign)
  }

  // What the state after the dispatch has in common with the one inside it.
  ghost predicate Finished(m: State, t: State) {
    && |m.frames| > 0
    && Inv(t) && t.queueVars == m.queueVars && t.frames == m.frames[..|m.frames| - 1]
    && (forall k: Slot {:trigger DroppedSlot(m, t, |t.frames|, k)} :: DroppedSlot(m, t, |t.frames|, k))
    && DatasShrink(m, t) && ObjectsShrink(m, t)
  }

  lemma EndFinished(m: State, t: State)
    requires Inv(m) && Ranked(m) && |m.frames| > 0 && t == DispatchEnd(m) && Inv(t)
    requires Dropped(m.(frames := m.frames[..|m.frames| - 1]), t, |m.frames| - 1)
    ensures Finished(m, t)
  {
    var s0, depth := m.(frames := m.frames[..|m.frames| - 1]), |m.frames| - 1;
    forall k: Slot ensures DroppedSlot(m, t, depth, k) { assert DroppedSlot(s0, t, depth, k); }
  }

  lemma {:induction false} UnpackKeepsObjects(s0: State, s: State, depth: nat, args: seq<ObjectArgument>, i: nat,
                                              queue: Option<nat>)
    requires Base(s) && Unpacked(s0, s, depth, i) && Shallow(s0, depth)
    requires Harmless(s0, args) && Recorded(s0, args) && i <= |args| && SameObjects(s0, s)
    ensures SameObjects(s0, UnpackArguments(s, depth, args, i, queue))
    decreases |args| - i
  {
    if i < |args| {
      assert HarmlessOne(s0, args[i]) && RecordedOne(s0, args[i]);
      FreshKeys(s);
      UnpackOneKeepsObjects(s, Frame(depth, i + 1), args[i], queue);
      UnpackMore(s0, s, depth, i, args[i], queue);
      UnpackKeepsObjects(s0, UnpackArgument(s, Frame(depth, i + 1), args[i], queue), depth, args, i + 1, queue);
    }
  }

  predicate SameObjects(s: State, t: State) {
    forall o | o in s.objects :: o in t.objects && t.objects[o] == s.objects[o]
  }

  lemma UnpackOneKeepsObjects(s: State, k: Slot, a: ObjectArgument, queue: Option<nat>)
    requires s.nextObject !in s.objects && RecordedOne(s, a)
    ensures SameObjects(s, UnpackArgument(s, k, a, queue))
  {
  }

  lemma BeginBegun(s: State, target: nat, args: seq<ObjectArgument>)
    requires Inv(s) && Ours(s, target) && s.objects[target].kind == Standard && s.objects[target].userData.Some?
    requires Harmless(s, args) && Recorded(s, args) && Inv(DispatchBegin(s, target, args))
    ensures Begun(s, DispatchBegin(s, target, args))
  {
    var depth, queue := |s.frames|, s.objects[target].queue;
    FramesShallow(s);
    UnpackBase(s, depth, args, queue);
    UnpackNone(s, depth);
    UnpackKeepsObjects(s, s, depth, args, 0, queue);
    BeginFrom(s, UnpackArguments(s, depth, args, 0, queue), target, args);
  }

  lemma BeginFrom(s: State, s1: State, target: nat, args: seq<ObjectArgument>)
    requires Inv(s) && Ours(s, target) && s.objects[target].kind == Standard && s.objects[target].userData.Some?
    requires s1 == UnpackArguments(s, |s.frames|, args, 0, s.objects[target].queue)
    requires Base(s1) && Unpacked(s, s1, |s.frames|, |args|) && Inv(DispatchBegin(s, target, args))
    requires SameObjects(s, s1)
    ensures Begun(s, DispatchBegin(s, target, args))
  {
    var depth := |s.frames|;
    FramesShallow(s);
    assert UnpackedSlot(s, s1, depth, |args|, Frame(depth, 0));
    assert ObjectOK(s1, target);
    var m := BeginTarget(s1, Frame(depth, 0), target, |args|);
    BegunParts(s, s1, Construct(s1, Frame(depth, 0), target, Standard, None, false), m, target, |args|);
    assert m == DispatchBegin(s, target, args);
  }

  lemma BegunParts(s: State, s1: State, s2: State, m: State, target: nat, n: nat)
    requires Inv(s) && Inv(m) && Unpacked(s, s1, |s.frames|, n) && Grows(s1, s2, Frame(|s.frames|, 0))
    requires m == s2.(frames := m.frames) && |m.frames| == |s.frames| + 1 && m.frames[..|s.frames|] == s.frames
    requires forall o | o in s.objects :: o in s1.objects && s1.objects[o] == s.objects[o]
    requires forall o | o in s1.objects :: o in s2.objects && s2.objects[o] == s1.objects[o]
    ensures Begun(s, m)
  {
    forall k | k in s.slots ensures k in m.slots && m.slots[k] == s.slots[k] {
      assert UnpackedSlot(s, s1, |s.frames|, n, k);
    }
    forall k | k in m.slots && k !in s.slots ensures k.Wrapped? || (k.Frame? && k.depth == |s.frames|) {
      assert UnpackedSlot(s, s1, |s.frames|, n, k);
    }
    forall d: nat ensures OnlyCounted(s, m, d) { assert OnlyCounted(s, s1, d) && OnlyCounted(s1, s2, d); }
    forall o | o in m.objects && o !in s.objects ensures m.objects[o].userData.Some? && !m.objects[o].foreign {
      assert UnpackedObject(s, s1, o) && UnpackedObject(s1, s2, o);
    }
  }

  lemma BackAgain(s: State, m: State, t: State)
    requires Begun(s, m) && Finished(m, t)
    ensures t.slots == s.slots && t.datas == s.datas && t.frames == s.frames && t.queueVars == s.queueVars
    ensures forall o | o in s.objects :: o in t.objects && t.objects[o].alive == s.objects[o].alive
    ensures forall o | o in t.objects && o !in s.objects :: !t.objects[o].alive
  {
    forall k | k in s.slots ensures k in t.slots && t.slots[k] == s.slots[k] { OldSlotStays(s, m, t, k); }
    forall k | k in t.slots ensures k in s.slots { NewSlotGoes(s, m, t, k); }
    assert t.slots == s.slots;
    forall d | d in s.datas || d in t.datas ensures d in s.datas && d in t.datas && t.datas[d] == s.datas[d] {
      CountsBack(s, m, t, d);
    }
    assert t.datas == s.datas;
    forall o | o in t.objects || o in s.objects
      ensures o in s.objects ==> o in t.objects && t.objects[o].alive == s.objects[o].alive
      ensures o in t.objects && o !in s.objects ==> !t.objects[o].alive
    {
      ObjectBack(s, m, t, o);
    }
  }

  // A handle that is not one of the finished dispatcher's keeps its record.
  lemma {:induction false} OldDataStays(s: State, m: State, t: State, d: nat)
    requires Begun(s, m) && Finished(m, t) && d in s.datas
    ensures d in t.datas
    decreases s.nextData - d
  {
    assert DataOK(s, d) && OnlyCounted(s, m, d);
    if s.datas[d].leaked == 0 {
      assert |Holders(s.slots, d)| > 0;
      var j :| j in Holders(s.slots, d);
      assert SlotOK(s, j) && DroppedSlot(m, t, |t.frames|, j);
      if j.Wrapped? {
        assert DataOK(s, j.owner);
        OldDataStays(s, m, t, j.owner);
        assert DataOK(t, j.owner);
      }
      assert SlotOK(t, j);
    }
  }

  lemma OldSlotStays(s: State, m: State, t: State, k: Slot)
    requires Begun(s, m) && Finished(m, t) && k in s.slots
    ensures k in t.slots && t.slots[k] == s.slots[k]
  {
    assert SlotOK(s, k) && DroppedSlot(m, t, |t.frames|, k);
    if k.Wrapped? {
      OldDataStays(s, m, t, k.owner);
      assert DataOK(t, k.owner);
    }
  }

  // A record the event introduced has no holder left.
  lemma NewDataGoes(s: State, m: State, t: State, d: nat)
    requires Begun(s, m) && Finished(m, t) && d in t.datas
    ensures d in s.datas
  {
    assert OnlyCounted(s, m, d) && DataOK(t, d);
    if d !in s.datas {
      assert |Holders(t.slots, d)| > 0;
      var j :| j in Holders(t.slots, d);
      assert DroppedSlot(m, t, |t.frames|, j) && SlotOK(t, j);
      if j in s.slots {
        HeldDataExists(s, j);
      } else {
        NewWrappedEmpty(s, m, t, j.owner);
      }
    }
  }

  lemma HeldDataExists(s: State, k: Slot)
    requires Inv(s) && k in s.slots
    ensures s.slots[k].data.Some? ==> s.slots[k].data.value in s.datas
    ensures s.slots[k].data.Some? ==> s.datas[s.slots[k].data.value].obj in s.objects
  {
    assert SlotOK(s, k);
    assert s.slots[k].data.Some? ==> DataOK(s, s.slots[k].data.value);
  }

  lemma NewWrappedEmpty(s: State, m: State, t: State, d: nat)
    requires Begun(s, m) && Finished(m, t) && Wrapped(d) in t.slots && Wrapped(d) !in s.slots
    ensures t.slots[Wrapped(d)] == EMPTY
  {
    assert SlotOK(t, Wrapped(d)) && OnlyCounted(s, m, d) && WrapperHolds(t, d) && DataOK(t, d);
    assert d in s.datas ==> DataOK(s, d);
    assert ObjectOK(t, t.datas[d].obj);
  }

  lemma NewSlotGoes(s: State, m: State, t: State, k: Slot)
    requires Begun(s, m) && Finished(m, t) && k in t.slots
    ensures k in s.slots
  {
    assert DroppedSlot(m, t, |t.frames|, k) && SlotOK(t, k);
    if k.Wrapped? {
      NewDataGoes(s, m, t, k.owner);
      assert DataOK(s, k.owner);
    }
  }

  lemma CountsBack(s: State, m: State, t: State, d: nat)
    requires Begun(s, m) && Finished(m, t) && t.slots == s.slots && (d in s.datas || d in t.datas)
    ensures d in s.datas && d in t.datas && t.datas[d] == s.datas[d]
  {
    if d in s.datas { OldDataStays(s, m, t, d); } else { NewDataGoes(s, m, t, d); }
    assert OnlyCounted(s, m, d) && DataOK(s, d) && DataOK(t, d);
  }

  lemma ObjectBack(s: State, m: State, t: State, o: nat)
    requires Begun(s, m) && Finished(m, t) && t.datas == s.datas && (o in s.objects || o in t.objects)
    ensures o in s.objects ==> o in t.objects && t.objects[o].alive == s.objects[o].alive
    ensures o in t.objects && o !in s.objects ==> !t.objects[o].alive
  {
    if o in s.objects {
      assert ObjectOK(s, o);
      if s.objects[o].alive && !s.objects[o].foreign && s.objects[o].userData.Some? {
        var d := s.objects[o].userData.value;
        assert DataOK(s, d) && DataOK(t, d);
      }
    } else if t.objects[o].alive {
      assert ObjectOK(t, o) && m.objects[o].userData.Some?;
      RecordedObjectExists(s, t.objects[o].userData.value);
    }
  }

  lemma RecordedObjectExists(s: State, d: nat)
    requires Inv(s) && d in s.datas
    ensures s.datas[d].obj in s.objects
  {
    assert DataOK(s, d);
  }
}
