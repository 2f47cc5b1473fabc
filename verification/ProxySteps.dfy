// Every operation of the client side keeps the ownership invariant.

module ProxySteps {
  import opened Common
  import opened Handles
  import opened ProxyState
  import opened ProxyInvariant

  // ---------------------------------------------------------- losing a handle

  lemma ReleaseBase(s: State, k: Slot)
    requires Base(s) && k in s.slots && !k.Wrapped? && Ranked(s)
    ensures Base(Release(s, k)) && Shrinks(s, Release(s, k), k)
  {
    ReleaseCore(s, k);
    ReleaseTrace(s, k);
    var t := Release(s, k);
    forall d | d in t.datas ensures WrapperHolds(t, d) {
      assert WrapperHolds(s, d) && DataOK(s, d) && DataOK(t, d);
    }
  }

  // Forgetting a slot that holds nothing.
  lemma ForgetBase(s: State, k: Slot)
    requires Base(s) && k in s.slots && !k.Wrapped? && s.slots[k].data.None?
    ensures Base(s.(slots := s.slots - {k}))
  {
    var t := s.(slots := s.slots - {k});
    forall d | d in t.datas ensures DataOK(t, d) && WrapperHolds(t, d) {
      assert DataOK(s, d) && WrapperHolds(s, d);
      ForgetData(s, k, d);
    }
    forall j | j in t.slots ensures SlotOK(t, j) { assert SlotOK(s, j); }
    forall o | o in t.objects ensures ObjectOK(t, o) { assert ObjectOK(s, o); }
    SameObjectsTrace(s, t);
  }

  lemma ForgetData(s: State, k: Slot, d: nat)
    requires k in s.slots && !k.Wrapped? && s.slots[k].data.None?
    requires d in s.datas && DataOK(s, d) && WrapperHolds(s, d)
    ensures var t := s.(slots := s.slots - {k}); DataOK(t, d) && WrapperHolds(t, d)
  {
    HoldersAfterRemove(s.slots, k, d);
  }

  lemma DestroyBase(s: State, k: Slot)
    requires Base(s) && k in s.slots && !k.Wrapped? && Ranked(s)
    ensures Base(Destroy(s, k)) && k !in Destroy(s, k).slots
    ensures var t := Destroy(s, k);
      && DatasShrink(s, t) && ObjectsShrink(s, t) && SameRest(s, t)
      && (forall j: Slot | !j.Wrapped? && j != k :: j in t.slots <==> j in s.slots)
      && (forall j | j in t.slots :: j in s.slots && t.slots[j] == s.slots[j])
  {
    ReleaseBase(s, k);
    ForgetBase(Release(s, k), k);
  }

  // --------------------------------------------------------- gaining a handle

  // Slot k is overwritten by a copy h of slot j, counted, and whatever k held before
  // is never released: what copy assignment does, and copy construction too when k
  // held nothing.
  ghost predicate Overwritten(s: State, t: State, k: Slot, h: ProxyHandle) {
    var lost := if k in s.slots then s.slots[k].data else None;
    && t == s.(slots := s.slots[k := h], datas := t.datas, overwrites := t.overwrites)
    && t.overwrites == s.overwrites + (if lost.Some? then 1 else 0)
    && t.datas.Keys == s.datas.Keys
    && (forall d | d in s.datas :: CountedCopy(s, t, d, h.data, lost))
  }

  ghost predicate CountedCopy(s: State, t: State, d: nat, gained: Option<nat>, lost: Option<nat>)
    requires d in s.datas
  {
    && d in t.datas
    && t.datas[d] == s.datas[d].(counter := t.datas[d].counter, leaked := t.datas[d].leaked)
    && t.datas[d].counter == s.datas[d].counter + (if gained == Some(d) then 1 else 0)
    && t.datas[d].leaked == s.datas[d].leaked + (if lost == Some(d) then 1 else 0)
  }

  lemma OverwrittenData(s: State, t: State, k: Slot, h: ProxyHandle, d: nat)
    requires d in s.datas && DataOK(s, d) && t.objects == s.objects && t.queues == s.queues
    requires t.nextData == s.nextData && t.slots == s.slots[k := h]
    requires t.overwrites == s.overwrites + (if k in s.slots && s.slots[k].data.Some? then 1 else 0)
    requires CountedCopy(s, t, d, h.data, if k in s.slots then s.slots[k].data else None)
    requires h.data == Some(d) ==> s.datas[d].counter > 0
    ensures DataOK(t, d)
  {
    HoldersAfterWrite(s.slots, k, h, d);
  }

  lemma OverwrittenCore(s: State, t: State, k: Slot, h: ProxyHandle)
    requires Core(s) && HandleOK(s, h) && Overwritten(s, t, k, h)
    requires h.data.Some? ==> s.datas[h.data.value].counter > 0
    requires k.Wrapped? ==> k.owner in s.datas && (h.data.Some? ==> h.data.value < k.owner)
    ensures Core(t)
  {
    forall d | d in t.datas ensures DataOK(t, d) {
      assert DataOK(s, d);
      OverwrittenData(s, t, k, h, d);
    }
    OverwrittenRest(s, t, k, h);
  }

  lemma OverwrittenRest(s: State, t: State, k: Slot, h: ProxyHandle)
    requires Core(s) && HandleOK(s, h) && Overwritten(s, t, k, h)
    requires k.Wrapped? ==> k.owner in s.datas && (h.data.Some? ==> h.data.value < k.owner)
    ensures forall i | i in t.slots :: SlotOK(t, i)
    ensures forall o | o in t.objects :: ObjectOK(t, o)
    ensures QueuesOK(t) && !t.fault
  {
    forall i | i in t.slots ensures SlotOK(t, i) {
      if i in s.slots { assert SlotOK(s, i); }
    }
    forall o | o in t.objects ensures ObjectOK(t, o) { assert ObjectOK(s, o); }
  }

  lemma OverwrittenBase(s: State, t: State, k: Slot, h: ProxyHandle)
    requires Base(s) && HandleOK(s, h) && Overwritten(s, t, k, h) && !k.Wrapped?
    ensures Base(t)
  {
    OverwrittenCore(s, t, k, h);
    OverwrittenWrappers(s, t, k, h);
    SameObjectsTrace(s, t);
  }

  lemma OverwrittenWrappers(s: State, t: State, k: Slot, h: ProxyHandle)
    requires WrappersHold(s) && Quiescent(s) && Overwritten(s, t, k, h)
    ensures Quiescent(t)
    ensures forall d | d in t.datas && k != Wrapped(d) :: WrapperHolds(t, d)
  {
    forall d | d in t.datas ensures t.datas[d].counter > 0 && (k != Wrapped(d) ==> WrapperHolds(t, d)) {
      assert CountedCopy(s, t, d, h.data, if k in s.slots then s.slots[k].data else None);
      assert WrapperHolds(s, d);
    }
  }

  lemma CopyAssignOverwrites(s: State, k: Slot, j: Slot)
    requires k in s.slots && j in s.slots && k != j && SlotOK(s, k) && SlotOK(s, j)
    ensures Overwritten(s, CopyAssign(s, k, j), k, s.slots[j])
  {
    var t := CopyAssign(s, k, j);
    forall d | d in s.datas ensures CountedCopy(s, t, d, s.slots[j].data, s.slots[k].data) {
      CopyAssignCounts(s, k, j, d);
    }
  }

  // The records after the overwritten one has lost a count and the other gained one.
  lemma CopyAssignCounts(s: State, k: Slot, j: Slot, d: nat)
    requires k in s.slots && j in s.slots && k != j && d in s.datas
    requires s.slots[j].data.Some? ==> s.slots[j].data.value in s.datas
    requires s.slots[k].data.Some? ==> s.slots[k].data.value in s.datas
    ensures CountedCopy(s, CopyAssign(s, k, j), d, s.slots[j].data, s.slots[k].data)
  {
    var lost, gained := s.slots[k].data, s.slots[j].data;
    var datas1 :=
      if lost.None? then s.datas
      else s.datas[lost.value := s.datas[lost.value].(leaked := s.datas[lost.value].leaked + 1)];
    assert datas1[d] == s.datas[d].(leaked := s.datas[d].leaked + (if lost == Some(d) then 1 else 0));
    assert CopyAssign(s, k, j).datas
        == if gained.None? then datas1
           else datas1[gained.value := datas1[gained.value].(counter := datas1[gained.value].counter + 1)];
  }

  lemma AcquireOverwrites(s: State, k: Slot, h: ProxyHandle)
    requires k !in s.slots && HandleOK(s, h)
    ensures Overwritten(s, Acquire(s, k, h), k, h)
  {
  }

  // A slot that holds nothing: a default-constructed or foreign handle.
  lemma UncountedBase(s: State, k: Slot, h: ProxyHandle)
    requires Base(s) && k !in s.slots && !k.Wrapped? && h.data.None?
    requires h.ptr.Some? ==> h.typ == Foreign && h.ptr.value in s.objects && s.objects[h.ptr.value].foreign
    ensures Base(s.(slots := s.slots[k := h]))
  {
    var t := s.(slots := s.slots[k := h]);
    forall d | d in t.datas ensures DataOK(t, d) && WrapperHolds(t, d) {
      assert DataOK(s, d) && WrapperHolds(s, d);
      UncountedData(s, k, h, d);
    }
    forall i | i in t.slots ensures SlotOK(t, i) {
      if i in s.slots { assert SlotOK(s, i); }
    }
    forall o | o in t.objects ensures ObjectOK(t, o) { assert ObjectOK(s, o); }
    SameObjectsTrace(s, t);
  }

  lemma UncountedData(s: State, k: Slot, h: ProxyHandle, d: nat)
    requires k !in s.slots && !k.Wrapped? && h.data.None?
    requires d in s.datas && DataOK(s, d) && WrapperHolds(s, d)
    ensures var t := s.(slots := s.slots[k := h]); DataOK(t, d) && WrapperHolds(t, d)
  {
    HoldersAfterWrite(s.slots, k, h, d);
  }

  lemma MoveBase(s: State, k: Slot, j: Slot)
    requires Base(s) && k in s.slots && j in s.slots && !k.Wrapped? && !j.Wrapped?
    ensures Base(MoveAssign(s, k, j))
  {
    var t := MoveAssign(s, k, j);
    forall d | d in t.datas ensures DataOK(t, d) && WrapperHolds(t, d) {
      assert DataOK(s, d) && WrapperHolds(s, d);
      MoveData(s, k, j, d);
    }
    MoveSlots(s, k, j);
    forall o | o in t.objects ensures ObjectOK(t, o) { assert ObjectOK(s, o); }
    SameObjectsTrace(s, t);
  }

  lemma MoveData(s: State, k: Slot, j: Slot, d: nat)
    requires k in s.slots && j in s.slots && !k.Wrapped? && !j.Wrapped?
    requires d in s.datas && DataOK(s, d) && WrapperHolds(s, d)
    ensures DataOK(MoveAssign(s, k, j), d) && WrapperHolds(MoveAssign(s, k, j), d)
  {
    HoldersAfterWrite(s.slots, k, s.slots[j], d);
    HoldersAfterWrite(s.slots[k := s.slots[j]], j, s.slots[k], d);
  }

  lemma MoveSlots(s: State, k: Slot, j: Slot)
    requires (forall i | i in s.slots :: SlotOK(s, i)) && k in s.slots && j in s.slots && !k.Wrapped? && !j.Wrapped?
    ensures forall i | i in s.slots :: i in MoveAssign(s, k, j).slots && SlotOK(MoveAssign(s, k, j), i)
  {
    assert SlotOK(s, k) && SlotOK(s, j);
    forall i | i in s.slots ensures SlotOK(MoveAssign(s, k, j), i) { assert SlotOK(s, i); }
  }

  // ------------------------------------------------------------- new objects

  // An object of libwayland's that no data record points to yet.
  ghost predicate Unowned(s: State, o: nat) {
    && o in s.objects && s.objects[o].alive && !s.objects[o].foreign
    && s.objects[o].userData.None? && s.objects[o].recorded.None?
    && s.objects[o].kind != Foreign
  }

  // Everything in Base but what a display or wrapper without its record would break.
  ghost predicate BaseBut(s: State, pending: nat) {
    && Core(s) && WrappersHold(s) && Quiescent(s) && TraceOK(s)
    && (forall o | o in s.objects && s.objects[o].alive && s.objects[o].wraps.Some? && o != pending ::
          s.objects[o].userData.Some?)
  }

  lemma CreateObjectBase(s: State, kind: WrapperType, foreign: bool, userData: Option<nat>,
                         queue: Option<nat>, wraps: Option<nat>)
    requires Base(s) && kind != Foreign && (if foreign then kind == Standard else userData.None?)
    requires wraps.Some? ==> kind == ProxyWrapper && wraps.value in s.objects && s.objects[wraps.value].alive
    ensures var t := CreateObject(s, kind, foreign, userData, queue, wraps);
      && BaseBut(t, s.nextObject) && (!foreign ==> Unowned(t, s.nextObject))
      && (wraps.None? ==> Base(t))
  {
    FreshKeys(s);
    CreateObjectCore(s, kind, foreign, userData, queue, wraps);
    CreateObjectRest(s, CreateObject(s, kind, foreign, userData, queue, wraps));
  }

  lemma CreateObjectCore(s: State, kind: WrapperType, foreign: bool, userData: Option<nat>,
                         queue: Option<nat>, wraps: Option<nat>)
    requires Core(s) && kind != Foreign && (if foreign then kind == Standard else userData.None?)
    requires wraps.Some? ==> kind == ProxyWrapper && wraps.value in s.objects
    ensures Core(CreateObject(s, kind, foreign, userData, queue, wraps))
  {
    var t := CreateObject(s, kind, foreign, userData, queue, wraps);
    FreshKeys(s);
    assert wraps.Some? ==> ObjectOK(s, wraps.value);
    forall d | d in t.datas ensures DataOK(t, d) { assert DataOK(s, d); }
    forall i | i in t.slots ensures SlotOK(t, i) { assert SlotOK(s, i); }
    forall o | o in t.objects ensures ObjectOK(t, o) {
      if o in s.objects { assert ObjectOK(s, o); }
    }
  }

  // An object more changes nothing for wrappers, and there is no call on it yet.
  lemma CreateObjectRest(s: State, t: State)
    requires WrappersHold(s) && TraceOK(s) && (forall d | d in s.datas :: DataOK(s, d))
    requires t == s.(objects := t.objects, nextObject := t.nextObject)
    requires s.nextObject !in s.objects && s.nextObject in t.objects
    requires t.objects == s.objects[s.nextObject := t.objects[s.nextObject]]
    requires var c := t.objects[s.nextObject];
      c.alive && (c.wraps.Some? ==> c.wraps.value in s.objects && s.objects[c.wraps.value].alive)
    ensures WrappersHold(t) && TraceOK(t)
  {
    forall d | d in t.datas ensures WrapperHolds(t, d) { assert WrapperHolds(s, d) && DataOK(s, d); }
    TraceFrame(s, t);
  }

  // Giving an unowned object its data record.
  lemma ConstructCore(s: State, k: Slot, o: nat, typ: WrapperType, queue: Option<nat>, inStep: bool)
    requires Core(s) && Unowned(s, o) && s.objects[o].kind == typ && k !in s.slots && !k.Wrapped?
    requires queue.Some? ==> queue.value in s.queues && s.queues[queue.value]
    requires inStep ==> s.objects[o].queue == queue
    ensures Core(Construct(s, k, o, typ, queue, inStep))
  {
    var t := Construct(s, k, o, typ, queue, inStep);
    FreshKeys(s);
    ConstructNew(s, t, k, o, typ, queue, inStep);
    ConstructDatas(s, t, k, o, typ, queue, inStep);
    forall i | i in t.slots ensures SlotOK(t, i) {
      if i in s.slots { assert SlotOK(s, i); }
    }
    forall p | p in t.objects ensures ObjectOK(t, p) { assert ObjectOK(s, p); }
  }

  // Construct on an unowned object, told as a relation.
  ghost predicate Constructed(s: State, t: State, k: Slot, o: nat, typ: WrapperType, queue: Option<nat>, inStep: bool)
    requires o in s.objects
  {
    var d := s.nextData;
    && t.slots == s.slots[Wrapped(d) := EMPTY][k := Handle(Some(o), Some(d), typ)]
    && t.datas == s.datas[d := Data(None, None, 1, queue, o, typ, 0, inStep)]
    && t.objects == s.objects[o := s.objects[o].(userData := Some(d))]
    && t == s.(slots := t.slots, datas := t.datas, objects := t.objects, nextData := d + 1)
  }

  lemma ConstructNew(s: State, t: State, k: Slot, o: nat, typ: WrapperType, queue: Option<nat>, inStep: bool)
    requires Unowned(s, o) && s.objects[o].kind == typ && t == Construct(s, k, o, typ, queue, inStep)
    ensures Constructed(s, t, k, o, typ, queue, inStep)
  {
  }

  lemma ConstructDatas(s: State, t: State, k: Slot, o: nat, typ: WrapperType, queue: Option<nat>, inStep: bool)
    requires Core(s) && Unowned(s, o) && s.objects[o].kind == typ && k !in s.slots && !k.Wrapped?
    requires queue.Some? ==> queue.value in s.queues && s.queues[queue.value]
    requires inStep ==> s.objects[o].queue == queue
    requires Constructed(s, t, k, o, typ, queue, inStep)
    requires s.nextData !in s.datas && Wrapped(s.nextData) !in s.slots
    ensures forall e | e in t.datas :: DataOK(t, e)
  {
    forall e | e in t.datas ensures DataOK(t, e) {
      HoldersAfterConstruct(s, k, Handle(Some(o), Some(s.nextData), typ), e);
      if e != s.nextData {
        assert DataOK(s, e);
      } else {
        NotHeldYet(s);
      }
    }
  }

  lemma HoldersAfterConstruct(s: State, k: Slot, h: ProxyHandle, e: nat)
    requires k !in s.slots && !k.Wrapped? && Wrapped(s.nextData) !in s.slots
    ensures |Holders(s.slots[Wrapped(s.nextData) := EMPTY][k := h], e)|
         == |Holders(s.slots, e)| + (if h.data == Some(e) then 1 else 0)
  {
    HoldersAfterWrite(s.slots, Wrapped(s.nextData), EMPTY, e);
    HoldersAfterWrite(s.slots[Wrapped(s.nextData) := EMPTY], k, h, e);
  }

  lemma NotHeldYet(s: State)
    requires (forall i | i in s.slots :: SlotOK(s, i)) && s.nextData !in s.datas
    ensures |Holders(s.slots, s.nextData)| == 0
  {
    forall i | i in s.slots ensures s.slots[i].data != Some(s.nextData) { assert SlotOK(s, i); }
    assert Holders(s.slots, s.nextData) == {};
  }

  lemma ConstructBase(s: State, k: Slot, o: nat, typ: WrapperType, queue: Option<nat>, inStep: bool)
    requires BaseBut(s, o) && Unowned(s, o) && s.objects[o].kind == typ && k !in s.slots && !k.Wrapped?
    requires queue.Some? ==> queue.value in s.queues && s.queues[queue.value]
    requires inStep ==> s.objects[o].queue == queue
    ensures var t := Construct(s, k, o, typ, queue, inStep);
      && Core(t) && Quiescent(t) && Owned(t) && TraceOK(t)
      && (forall d | d in s.datas :: WrapperHolds(t, d))
      && (s.objects[o].wraps.None? ==> Base(t))
  {
    var t := Construct(s, k, o, typ, queue, inStep);
    ConstructCore(s, k, o, typ, queue, inStep);
    ConstructNew(s, t, k, o, typ, queue, inStep);
    FreshKeys(s);
    ConstructRest(s, t, k, o, typ, queue, inStep);
  }

  lemma ConstructRest(s: State, t: State, k: Slot, o: nat, typ: WrapperType, queue: Option<nat>, inStep: bool)
    requires BaseBut(s, o) && Unowned(s, o) && k !in s.slots && !k.Wrapped?
    requires Constructed(s, t, k, o, typ, queue, inStep) && s.nextData !in s.datas
    ensures Quiescent(t) && Owned(t) && TraceOK(t)
    ensures forall d | d in s.datas :: WrapperHolds(t, d)
    ensures s.objects[o].wraps.None? ==> WrappersHold(t)
  {
    forall d | d in s.datas ensures WrapperHolds(t, d) { assert WrapperHolds(s, d) && DataOK(s, d); }
    ConstructTrace(s, t, o, t.objects[o].userData);
    if s.objects[o].wraps.None? { assert WrapperHolds(t, s.nextData); }
  }

  lemma ConstructTrace(s: State, t: State, o: nat, data: Option<nat>)
    requires TraceOK(s) && o in s.objects && t.objects == s.objects[o := s.objects[o].(userData := data)]
    requires t.trace == s.trace && t.queues == s.queues
    ensures TraceOK(t)
  {
    TraceFrame(s, t);
  }

  // Wrapping an existing owned object again: the data record is found and counted.
  lemma ConstructAgainBase(s: State, k: Slot, o: nat, queue: Option<nat>, inStep: bool)
    requires Base(s) && o in s.objects && s.objects[o].alive && !s.objects[o].foreign
    requires s.objects[o].userData.Some? && s.objects[o].kind != Display && k !in s.slots && !k.Wrapped?
    ensures Base(Construct(s, k, o, s.objects[o].kind, queue, inStep))
  {
    assert ObjectOK(s, o);
    var d := s.objects[o].userData.value;
    assert DataOK(s, d);
    var h := Handle(Some(o), Some(d), s.objects[o].kind);
    AcquireOverwrites(s, k, h);
    OverwrittenBase(s, Acquire(s, k, h), k, h);
  }

  // -------------------------------------------------------------------- fields

  // Nothing changes that the invariant counts: fields of records, queues and opcodes
  // of their objects, queues and queue variables.
  ghost predicate Touched(s: State, t: State) {
    && t == s.(datas := t.datas, objects := t.objects, queues := t.queues, queueVars := t.queueVars,
               frames := t.frames, nextQueue := t.nextQueue)
    && QueuesOK(t)
    && (forall q | q in s.queues :: q in t.queues && t.queues[q] == s.queues[q])
    && t.datas.Keys == s.datas.Keys && t.objects.Keys == s.objects.Keys
    && (forall d {:trigger TouchedData(s, t, d)} | d in s.datas :: TouchedData(s, t, d))
    && (forall o {:trigger TouchedObject(s, t, o)} | o in s.objects :: TouchedObject(s, t, o))
  }

  ghost predicate TouchedData(s: State, t: State, d: nat)
    requires d in s.datas
  {
    && d in t.datas
    && t.datas[d] == s.datas[d].(events := t.datas[d].events, destroyOpcode := t.datas[d].destroyOpcode,
                                 queue := t.datas[d].queue, inStep := t.datas[d].inStep)
    && (t.datas[d].queue.Some? ==> t.datas[d].queue.value in t.queues && t.queues[t.datas[d].queue.value])
    && (s.datas[d].obj in t.objects ==>
          var c := t.objects[s.datas[d].obj];
          c.alive ==> c.recorded == t.datas[d].destroyOpcode && (t.datas[d].inStep ==> c.queue == t.datas[d].queue))
  }

  ghost predicate TouchedObject(s: State, t: State, o: nat)
    requires o in s.objects
  {
    && o in t.objects
    && t.objects[o] == s.objects[o].(queue := t.objects[o].queue, recorded := t.objects[o].recorded)
    && (t.objects[o].recorded != s.objects[o].recorded ==>
          s.objects[o].alive && !s.objects[o].foreign && s.objects[o].userData.Some?)
  }

  lemma TouchedBase(s: State, t: State)
    requires Base(s) && Touched(s, t)
    ensures Base(t)
  {
    forall d | d in t.datas ensures DataOK(t, d) && WrapperHolds(t, d) && t.datas[d].counter > 0 {
      assert DataOK(s, d) && WrapperHolds(s, d);
      assert TouchedData(s, t, d) && TouchedObject(s, t, s.datas[d].obj);
      TouchedDataOK(s, t, d);
    }
    forall i | i in t.slots ensures SlotOK(t, i) {
      assert SlotOK(s, i);
      TouchedSlotOK(s, t, i);
    }
    forall o | o in t.objects ensures ObjectOK(t, o) {
      assert ObjectOK(s, o) && TouchedObject(s, t, o);
      assert s.objects[o].userData.Some? && s.objects[o].userData.value in s.datas
        ==> TouchedData(s, t, s.objects[o].userData.value);
    }
    TouchedRest(s, t);
  }

  lemma TouchedDataOK(s: State, t: State, d: nat)
    requires d in s.datas && DataOK(s, d) && WrapperHolds(s, d) && TouchedData(s, t, d)
    requires TouchedObject(s, t, s.datas[d].obj)
    requires t.slots == s.slots && t.nextData == s.nextData && t.overwrites == s.overwrites
    ensures DataOK(t, d) && WrapperHolds(t, d)
  {
  }

  lemma TouchedSlotOK(s: State, t: State, k: Slot)
    requires k in s.slots && SlotOK(s, k) && t.slots == s.slots
    requires t.datas.Keys == s.datas.Keys && t.objects.Keys == s.objects.Keys
    requires forall d {:trigger TouchedData(s, t, d)} | d in s.datas :: TouchedData(s, t, d)
    requires forall o {:trigger TouchedObject(s, t, o)} | o in s.objects :: TouchedObject(s, t, o)
    ensures SlotOK(t, k)
  {
    var h := s.slots[k];
    if h.data.Some? {
      assert TouchedData(s, t, h.data.value);
    } else if h.ptr.Some? {
      assert TouchedObject(s, t, h.ptr.value);
    }
  }

  lemma TouchedRest(s: State, t: State)
    requires Owned(s) && TraceOK(s) && (forall o | o in s.objects :: ObjectOK(s, o)) && t.trace == s.trace
    requires t.objects.Keys == s.objects.Keys
    requires forall o {:trigger TouchedObject(s, t, o)} | o in s.objects :: TouchedObject(s, t, o)
    requires forall q | q in s.queues :: q in t.queues && t.queues[q] == s.queues[q]
    ensures Owned(t) && TraceOK(t)
  {
    forall o | o in s.objects
      ensures o in t.objects
      ensures t.objects[o] == s.objects[o].(queue := t.objects[o].queue, recorded := t.objects[o].recorded)
      ensures !s.objects[o].alive ==> t.objects[o].recorded == s.objects[o].recorded
    {
      assert TouchedObject(s, t, o);
    }
    TraceFrame(s, t);
  }

  // One record and its object.
  lemma DataFieldBase(s: State, t: State, d: nat)
    requires Base(s) && d in s.datas && FieldsChanged(s, t, d)
    ensures Base(t)
  {
    assert DataOK(s, d);
    forall e | e in s.datas ensures TouchedData(s, t, e) { assert DataOK(s, e); }
    forall o | o in s.objects ensures TouchedObject(s, t, o) { assert ObjectOK(s, o); }
    TouchedBase(s, t);
  }

  ghost predicate FieldsChanged(s: State, t: State, d: nat)
    requires d in s.datas
  {
    var o := s.datas[d].obj;
    && d in t.datas && t == s.(datas := t.datas, objects := t.objects)
    && t.datas == s.datas[d := t.datas[d]]
    && t.datas[d] == s.datas[d].(events := t.datas[d].events, destroyOpcode := t.datas[d].destroyOpcode,
                                 queue := t.datas[d].queue, inStep := t.datas[d].inStep)
    && o in s.objects && o in t.objects
    && t.objects == s.objects[o := t.objects[o]]
    && t.objects[o] == s.objects[o].(recorded := t.datas[d].destroyOpcode, queue := t.objects[o].queue)
    && (t.datas[d].inStep ==> t.objects[o].queue == t.datas[d].queue)
    && (t.datas[d].queue.Some? ==> t.datas[d].queue.value in s.queues && s.queues[t.datas[d].queue.value])
  }

  lemma SetQueueBase(s: State, k: Slot, queue: Option<nat>)
    requires Base(s) && k in s.slots
    requires queue.Some? ==> queue.value in s.queues && s.queues[queue.value]
    ensures Base(SetQueue(s, k, queue))
  {
    var h := s.slots[k];
    assert SlotOK(s, k);
    if h.data.Some? {
      var d := h.data.value;
      assert DataOK(s, d) && s.datas[d].counter > 0;
      Requeued(s, d, queue);
      DropQueueBase(Requeue(s, d, queue), s.datas[d].queue);
    } else if h.ptr.Some? {
      assert ObjectOK(s, h.ptr.value);
      ForeignQueueBase(s, h.ptr.value, queue);
    }
  }

  // set_queue up to the point where the old reference goes.
  function Requeue(s: State, d: nat, queue: Option<nat>): State
    requires d in s.datas && s.datas[d].obj in s.objects
  {
    var o := s.datas[d].obj;
    s.(objects := s.objects[o := s.objects[o].(queue := queue)],
       datas := s.datas[d := s.datas[d].(queue := queue, inStep := true)])
  }

  lemma Requeued(s: State, d: nat, queue: Option<nat>)
    requires Base(s) && d in s.datas && s.datas[d].counter > 0
    requires queue.Some? ==> queue.value in s.queues && s.queues[queue.value]
    ensures s.datas[d].obj in s.objects && Base(Requeue(s, d, queue))
  {
    assert DataOK(s, d);
    DataFieldBase(s, Requeue(s, d, queue), d);
  }

  lemma ForeignQueueBase(s: State, o: nat, queue: Option<nat>)
    requires Base(s) && o in s.objects && s.objects[o].foreign
    ensures Base(s.(objects := s.objects[o := s.objects[o].(queue := queue)]))
  {
    var t := s.(objects := s.objects[o := s.objects[o].(queue := queue)]);
    forall e | e in s.datas ensures TouchedData(s, t, e) { assert DataOK(s, e); }
    TouchedBase(s, t);
  }

  lemma DropQueueBase(s: State, q: Option<nat>)
    requires Base(s) && (q.Some? ==> q.value in s.queues && s.queues[q.value])
    ensures Base(DropQueue(s, q))
  {
    DropQueueCore(s, q);
    DropQueueTrace(s, q);
    var t := DropQueue(s, q);
    forall e | e in t.datas ensures WrapperHolds(t, e) { assert WrapperHolds(s, e); }
  }

  lemma QueueVarsBase(s: State, t: State)
    requires Base(s) && t == s.(queueVars := t.queueVars)
    requires forall v | v in t.queueVars && t.queueVars[v].Some? ::
      t.queueVars[v].value in s.queues && s.queues[t.queueVars[v].value]
    ensures Base(t)
  {
    forall e | e in s.datas ensures TouchedData(s, t, e) { assert DataOK(s, e); }
    TouchedBase(s, t);
  }

  lemma CreateQueueBase(s: State, v: nat)
    requires Base(s)
    ensures Base(CreateQueue(s, v))
  {
    FreshKeys(s);
    forall e | e in s.datas ensures TouchedData(s, CreateQueue(s, v), e) { assert DataOK(s, e); }
    TouchedBase(s, CreateQueue(s, v));
  }

  lemma RetypeFrames(s: State, frames: seq<Dispatching>)
    requires Base(s)
    ensures Base(s.(frames := frames))
  {
    forall e | e in s.datas ensures TouchedData(s, s.(frames := frames), e) { assert DataOK(s, e); }
    TouchedBase(s, s.(frames := frames));
  }

  // ------------------------------------------------------ requests and wrappers

  lemma RequestBase(s: State, parent: Slot, k: Slot, junk: Option<nat>)
    requires Base(s) && parent in s.slots && k !in s.slots && !k.Wrapped?
    ensures Base(MarshalConstructor(s, parent, k, junk))
  {
    var h := s.slots[parent];
    assert SlotOK(s, parent);
    if h.ptr.Some? {
      assert h.data.Some? ==> DataOK(s, h.data.value) && s.datas[h.data.value].counter > 0;
      assert h.data.None? ==> ObjectOK(s, h.ptr.value);
      IntroduceBase(s, k, junk, s.objects[h.ptr.value].queue, RetainedQueue(s, h), InStep(s, h));
    }
  }

  // libwayland makes a standard proxy, its stray user data is cleared, and a handle
  // is constructed for it.
  lemma IntroduceBase(s: State, k: Slot, junk: Option<nat>, queue: Option<nat>, retained: Option<nat>, inStep: bool)
    requires Base(s) && k !in s.slots && !k.Wrapped?
    requires retained.Some? ==> retained.value in s.queues && s.queues[retained.value]
    requires inStep ==> queue == retained
    ensures Base(Introduce(s, k, junk, queue, retained, inStep))
  {
    Introduced(s, k, junk, queue, retained, inStep);
    CreateObjectBase(s, Standard, false, None, queue, None);
    ConstructBase(CreateObject(s, Standard, false, None, queue, None), k, s.nextObject, Standard, retained, inStep);
  }

  function Introduce(s: State, k: Slot, junk: Option<nat>, queue: Option<nat>, retained: Option<nat>, inStep: bool)
    : State
  {
    Construct(SetUserData(CreateObject(s, Standard, false, junk, queue, None), s.nextObject, None),
              k, s.nextObject, Standard, retained, inStep)
  }

  // Whatever was in the user data is gone.
  lemma Introduced(s: State, k: Slot, junk: Option<nat>, queue: Option<nat>, retained: Option<nat>, inStep: bool)
    ensures Introduce(s, k, junk, queue, retained, inStep)
         == Construct(CreateObject(s, Standard, false, None, queue, None), k, s.nextObject, Standard, retained, inStep)
  {
    assert SetUserData(CreateObject(s, Standard, false, junk, queue, None), s.nextObject, None)
        == CreateObject(s, Standard, false, None, queue, None) by {
      assert SetUserData(CreateObject(s, Standard, false, junk, queue, None), s.nextObject, None).objects
          == CreateObject(s, Standard, false, None, queue, None).objects;
    }
  }

  lemma ConnectBase(s: State, k: Slot, junk: Option<nat>)
    requires Base(s) && k !in s.slots && !k.Wrapped?
    ensures Base(Connect(s, k, junk))
  {
    CreateObjectBase(s, Display, false, None, None, None);
    ConstructBase(CreateObject(s, Display, false, None, None, None), k, s.nextObject, Display, None, true);
    ConnectIgnoresUserData(s, k, junk);
  }

  // What libwayland left in a wl_display's user data is overwritten.
  lemma ConnectIgnoresUserData(s: State, k: Slot, junk: Option<nat>)
    ensures Connect(s, k, junk)
         == Construct(CreateObject(s, Display, false, None, None, None), k, s.nextObject, Display, None, true)
  {
    assert Connect(s, k, junk).objects
        == Construct(CreateObject(s, Display, false, None, None, None), k, s.nextObject, Display, None, true).objects;
  }

  lemma WrapBase(s: State, j: Slot, k: Slot)
    requires Base(s) && j in s.slots && k !in s.slots && !j.Wrapped? && !k.Wrapped?
    requires s.slots[j].ptr.Some? ==> s.slots[j].data.Some?
    ensures Base(Wrap(s, j, k))
  {
    var h := s.slots[j];
    assert SlotOK(s, j);
    if h.ptr.Some? {
      assert DataOK(s, h.data.value);
      FreshKeys(s);
      var queue := s.objects[h.ptr.value].queue;
      CreateObjectBase(s, ProxyWrapper, false, None, queue, h.ptr);
      var s1 := CreateObject(s, ProxyWrapper, false, None, queue, h.ptr);
      WrapCreated(s, s1, j, k);
    }
  }

  lemma WrapCreated(s: State, s1: State, j: Slot, k: Slot)
    requires j in s.slots && k !in s.slots && !j.Wrapped? && !k.Wrapped? && SlotOK(s, j)
    requires s.slots[j].ptr.Some? && s.slots[j].data.Some? && DataOK(s, s.slots[j].data.value)
    requires s.datas[s.slots[j].data.value].counter > 0 && s.nextObject !in s.objects
    requires var h := s.slots[j];
      s1 == CreateObject(s, ProxyWrapper, false, None, s.objects[h.ptr.value].queue, h.ptr)
    requires BaseBut(s1, s.nextObject) && Unowned(s1, s.nextObject)
    ensures Base(Wrap(s, j, k))
  {
    var h, o, d := s.slots[j], s.nextObject, s.nextData;
    var s2 := Construct(s1, k, o, ProxyWrapper, RetainedQueue(s, h), InStep(s, h));
    FreshKeys(s1);
    ConstructBase(s1, k, o, ProxyWrapper, RetainedQueue(s, h), InStep(s, h));
    ConstructNew(s1, s2, k, o, ProxyWrapper, RetainedQueue(s, h), InStep(s, h));
    WrapHolds(s2, j, d);
  }

  // The new wrapper takes its reference to what it wraps.
  lemma WrapHolds(s: State, j: Slot, d: nat)
    requires Core(s) && Quiescent(s) && Owned(s) && TraceOK(s) && d in s.datas && Wrapped(d) in s.slots
    requires forall e | e in s.datas && e != d :: WrapperHolds(s, e)
    requires s.slots[Wrapped(d)] == EMPTY && j in s.slots && !j.Wrapped? && s.slots[j].data.Some?
    requires s.slots[j].data.value < d && s.slots[j].ptr.Some?
    requires s.datas[d].obj in s.objects && s.objects[s.datas[d].obj].wraps == s.slots[j].ptr
    ensures Base(CopyAssign(s, Wrapped(d), j))
  {
    var h, t := s.slots[j], CopyAssign(s, Wrapped(d), j);
    assert SlotOK(s, j) && SlotOK(s, Wrapped(d)) && DataOK(s, d);
    CopyAssignOverwrites(s, Wrapped(d), j);
    OverwrittenCore(s, t, Wrapped(d), h);
    WrapHoldsRest(s, t, h, d);
    SameObjectsTrace(s, t);
  }

  lemma WrapHoldsRest(s: State, t: State, h: ProxyHandle, d: nat)
    requires Quiescent(s) && d in s.datas && Wrapped(d) in s.slots && s.slots[Wrapped(d)] == EMPTY
    requires forall e | e in s.datas && e != d :: WrapperHolds(s, e)
    requires Overwritten(s, t, Wrapped(d), h) && h.data.Some? && h.ptr.Some?
    requires s.datas[d].obj in s.objects && s.objects[s.datas[d].obj].wraps == h.ptr
    ensures WrappersHold(t) && Quiescent(t)
  {
    forall e | e in t.datas ensures WrapperHolds(t, e) && t.datas[e].counter > 0 {
      assert CountedCopy(s, t, e, h.data, None);
      assert e != d ==> WrapperHolds(s, e);
    }
  }
}
