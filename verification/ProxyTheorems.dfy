// What the ownership invariant means for a program, over every run.

module ProxyTheorems {
  import opened Common
  import opened Handles
  import opened ProxyState
  import opened ProxyInvariant
  import opened ProxySteps
  import opened ProxyRuns

  // No run uses freed memory, destroys a C object it may not, touches what belongs to
  // another library, takes a display away from its record, or destroys an event queue
  // under a proxy in step, unless an event carries another library's proxy or a display
  // with a record is given another; and then there is such a fault.
  lemma NoRunFaults(ops: seq<Op>, s: State)
    requires Reaches(ops, s)
    ensures s.fault <==> s.mixups > 0
  {
    InitialInv();
    RunInvOrFault(INITIAL, ops, s);
  }

  // What counts as a fault: destroying an object that is dead, another library's or of
  // another kind, giving such an object user data, and destroying a queue that an owned
  // proxy in step has its events delivered to.
  lemma FaultsAreNoticed(s: State, o: nat, kind: WrapperType, q: nat, d: nat)
    requires kind != Foreign
    ensures CDestroy(s, o, DestroyCall(kind, o), kind).fault
      <==> s.fault || !(o in s.objects && s.objects[o].alive && !s.objects[o].foreign && s.objects[o].kind == kind)
    ensures SetUserData(s, o, Some(d)).fault
      <==> s.fault || !(o in s.objects && s.objects[o].alive && !s.objects[o].foreign)
    ensures DropQueue(s, Some(q)) != s && d in s.datas && s.datas[d].inStep && s.datas[d].counter > 0
            && s.datas[d].obj in s.objects && s.objects[s.datas[d].obj].queue == Some(q)
            ==> DropQueue(s, Some(q)).fault
    ensures DropQueue(s, Some(q)) != s && !(q in s.queues && s.queues[q]) ==> DropQueue(s, Some(q)).fault
  {
  }

  // The counter never falls short of the handles, and it is exact when no copy
  // assignment has overwritten a counted handle.
  lemma CounterCoversHandles(ops: seq<Op>, s: State, d: nat)
    requires Reaches(ops, s) && s.mixups == 0 && d in s.datas
    ensures s.datas[d].counter >= |Holders(s.slots, d)|
    ensures s.overwrites == 0 ==> s.datas[d].counter == |Holders(s.slots, d)|
    ensures s.datas[d].counter == |Holders(s.slots, d)| <==> s.datas[d].leaked == 0
  {
    RunKeepsInv(ops, s);
    assert DataOK(s, d);
  }

  // A handle with a data record always reaches a live C object of its own wrapper
  // type; conversely an object with a record lives exactly as long as some handle,
  // or some overwritten one, still counts for it.
  lemma HandlesReachLiveObjects(ops: seq<Op>, s: State, k: Slot)
    requires Reaches(ops, s) && s.mixups == 0 && k in s.slots && s.slots[k].data.Some?
    ensures s.slots[k].data.value in s.datas
    ensures s.slots[k].ptr.Some? && s.slots[k].ptr.value in s.objects
    ensures var c := s.objects[s.slots[k].ptr.value];
      c.alive && !c.foreign && c.kind == s.slots[k].typ && c.userData == s.slots[k].data
  {
    RunKeepsInv(ops, s);
    assert SlotOK(s, k);
    assert DataOK(s, s.slots[k].data.value);
  }

  lemma ObjectsLiveWhileHeld(ops: seq<Op>, s: State, o: nat, d: nat)
    requires Reaches(ops, s) && s.mixups == 0
    requires o in s.objects && !s.objects[o].foreign && s.objects[o].userData == Some(d)
    requires s.overwrites == 0
    ensures s.objects[o].alive ==> exists k :: k in s.slots && s.slots[k].data == Some(d)
    ensures (exists k :: k in s.slots && s.slots[k].data == Some(d) && s.slots[k].ptr == Some(o)) ==> s.objects[o].alive
  {
    RunKeepsInv(ops, s);
    assert ObjectOK(s, o);
    if s.objects[o].alive {
      assert DataOK(s, d);
      var k :| k in Holders(s.slots, d);
    }
    forall k | k in s.slots && s.slots[k].data == Some(d) && s.slots[k].ptr == Some(o) ensures s.objects[o].alive {
      assert SlotOK(s, k) && DataOK(s, d);
    }
  }

  // Releasing a handle, of a display too, destroys the object exactly when the handle
  // accounts for the last count.
  lemma ReleaseDestroysIffLast(s: State, k: Slot)
    requires Inv(s) && Ranked(s) && k in s.slots && s.slots[k].data.Some?
    ensures s.slots[k].ptr.Some? && s.slots[k].data.value in s.datas
    ensures var t, d, o := Release(s, k), s.slots[k].data.value, s.slots[k].ptr.value;
      && o in s.objects && s.objects[o].alive && o in t.objects
      && (d !in t.datas <==> s.datas[d].counter == 1)
      && (!t.objects[o].alive <==> s.datas[d].counter == 1)
  {
    assert SlotOK(s, k);
    var d := s.slots[k].data.value;
    assert DataOK(s, d);
    DetachIsDetached(s, k, d);
    if s.datas[d].counter == 1 {
      var s1 := Detach(s, k);
      DetachCore(s, k);
      CoreRanked(s1);
      assert DataOK(s1, d);
      ReleaseCore(s1, Wrapped(d));
    }
  }

  // Each C object is destroyed at most once, by the function that matches its wrapper
  // type, and only if it is not foreign; a dead object was destroyed by that call.
  lemma DestroyedOnceByItsOwnFunction(ops: seq<Op>, s: State, o: nat, i: nat, j: nat)
    requires Reaches(ops, s) && s.mixups == 0 && i < |s.trace| && Destroys(s.trace[i], o) && j < |s.trace|
    ensures o in s.objects && !s.objects[o].alive && !s.objects[o].foreign && s.objects[o].kind != Foreign
    ensures s.trace[i] == DestroyCall(s.objects[o].kind, o)
    ensures Destroys(s.trace[j], o) ==> i == j
  {
    RunKeepsInv(ops, s);
    assert CallOK(s, i) && ObjectOK(s, o);
  }

  lemma DeadObjectsWereDestroyed(ops: seq<Op>, s: State, o: nat)
    requires Reaches(ops, s) && s.mixups == 0 && o in s.objects
    ensures !s.objects[o].alive <==> exists i :: 0 <= i < |s.trace| && Destroys(s.trace[i], o)
    ensures s.objects[o].foreign ==> s.objects[o].alive
  {
    RunKeepsInv(ops, s);
    assert ObjectOK(s, o);
    if !s.objects[o].alive {
      var i :| 0 <= i < |s.trace| && s.trace[i] == DestroyCall(s.objects[o].kind, o);
      assert Destroys(s.trace[i], o);
    }
    forall i | 0 <= i < |s.trace| && Destroys(s.trace[i], o) ensures !s.objects[o].alive {
      assert CallOK(s, i);
    }
  }

  // The destroy request goes out exactly for standard proxies that recorded one,
  // directly before wl_proxy_destroy, and never on its own.
  lemma DestroyRequestGoesFirst(ops: seq<Op>, s: State, o: nat, opcode: nat, i: nat)
    requires Reaches(ops, s) && s.mixups == 0 && i < |s.trace| && Destroys(s.trace[i], o)
    ensures o in s.objects
    ensures RequestBefore(s.trace, i, o, opcode) <==>
      s.objects[o].kind == Standard && s.objects[o].recorded == Some(opcode)
  {
    RunKeepsInv(ops, s);
    assert CallOK(s, i);
    if RequestBefore(s.trace, i, o, opcode) {
      assert CallOK(s, i - 1);
    }
  }

  lemma DestroyRequestIsFollowed(ops: seq<Op>, s: State, o: nat, opcode: nat, i: nat)
    requires Reaches(ops, s) && s.mixups == 0 && i < |s.trace| && s.trace[i] == DestroyRequest(o, opcode)
    ensures i + 1 < |s.trace| && s.trace[i + 1] == ProxyDestroy(o)
    ensures o in s.objects && s.objects[o].recorded == Some(opcode)
  {
    RunKeepsInv(ops, s);
    assert CallOK(s, i) && CallOK(s, i + 1);
  }

  // ------------------------------------------------------------ wrapper chains

  // Each record of the path holds the next one in its wrapped_proxy.
  predicate WrapsPath(s: State, path: seq<nat>) {
    forall i | 0 <= i < |path| - 1 ::
      Wrapped(path[i]) in s.slots && s.slots[Wrapped(path[i])].data == Some(path[i + 1])
  }

  lemma {:induction false} WrapsDescends(ops: seq<Op>, s: State, path: seq<nat>)
    requires Reaches(ops, s) && s.mixups == 0 && |path| >= 2 && WrapsPath(s, path)
    ensures path[|path| - 1] < path[0]
    decreases |path|
  {
    RunKeepsInv(ops, s);
    var n := |path| - 1;
    assert SlotOK(s, Wrapped(path[n - 1]));
    if n > 1 {
      WrapsDescends(ops, s, path[..n]);
    }
  }

  // No proxy wraps itself, however long the chain.
  lemma WrapsAcyclic(ops: seq<Op>, s: State, path: seq<nat>)
    requires Reaches(ops, s) && s.mixups == 0 && |path| >= 2 && WrapsPath(s, path)
    ensures path[0] != path[|path| - 1]
  {
    WrapsDescends(ops, s, path);
  }

  // A wrapped proxy outlives its wrappers, and the calls that destroy them come in
  // that order.
  lemma WrappedOutlivesWrapper(ops: seq<Op>, s: State, wrapper: nat, wrapped: nat)
    requires Reaches(ops, s) && s.mixups == 0 && wrapper in s.objects && s.objects[wrapper].wraps == Some(wrapped)
    ensures wrapped in s.objects
    ensures s.objects[wrapper].alive ==> s.objects[wrapped].alive
    ensures forall j | 0 <= j < |s.trace| && Destroys(s.trace[j], wrapped) ::
      exists i :: 0 <= i < j && Destroys(s.trace[i], wrapper)
  {
    RunKeepsInv(ops, s);
    assert ObjectOK(s, wrapper);
    if s.objects[wrapper].alive {
      var d := s.objects[wrapper].userData.value;
      assert DataOK(s, d) && WrapperHolds(s, d) && SlotOK(s, Wrapped(d));
      assert DataOK(s, s.slots[Wrapped(d)].data.value);
    }
    forall j | 0 <= j < |s.trace| && Destroys(s.trace[j], wrapped)
      ensures exists i :: 0 <= i < j && Destroys(s.trace[i], wrapper)
    {
      assert WrapsDestroyed(s, wrapper, j);
      assert DestroyedBefore(s.trace, wrapper, j);
    }
  }
}
