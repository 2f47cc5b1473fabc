// Who owns the memory of array arguments.
//
// An array_t embeds a wl_array and an array-kind argument_t owns one on the heap;
// either owns the buffer its wl_array points to.  The state below has the wl_arrays
// and the buffers in it, and every run of the two classes' operations is shown to be
// indistinguishable from one on plain values, with nothing leaked or freed twice.

module ArgumentStorage {
  import opened Common
  import Wire

  type byte = Wire.byte

  // Where a wl_array is: inside an array_t, or allocated by an argument_t.
  datatype Place = Local(v: nat) | Heap(h: nat)

  datatype WlArray = WlArray(size: nat, data: Option<nat>)

  const EMPTY := WlArray(0, None)

  // argument_t: is_array tells the two apart.
  datatype Argument = Scalar(bits: int) | Array(a: nat)

  datatype State = State(
    arrays: map<Place, WlArray>,
    args: map<nat, Argument>,
    buffers: map<nat, seq<byte>>,
    nextHeap: nat,
    nextBuffer: nat,
    freed: multiset<nat>,
    deleted: multiset<nat>
  )

  const INITIAL := State(map[], map[], map[], 0, 0, multiset{}, multiset{})

  function Content(s: State, p: Place): seq<byte> {
    if p in s.arrays && s.arrays[p].data.Some? && s.arrays[p].data.value in s.buffers
    then s.buffers[s.arrays[p].data.value]
    else []
  }

  // ---------------------------------------------------------- wl_array_* calls

  function ArrayInit(s: State, p: Place): State {
    s.(arrays := s.arrays[p := EMPTY])
  }

  // wl_array_add on an initialised array, and the bytes then stored in it.  It
  // allocates even when there are none.
  function ArrayAdd(s: State, p: Place, bytes: seq<byte>): State {
    s.(arrays := s.arrays[p := WlArray(|bytes|, Some(s.nextBuffer))],
       buffers := s.buffers[s.nextBuffer := bytes],
       nextBuffer := s.nextBuffer + 1)
  }

  // wl_array_copy into an initialised array; an empty source leaves it without buffer.
  function ArrayFill(s: State, p: Place, bytes: seq<byte>): State {
    if bytes == [] then s else ArrayAdd(s, p, bytes)
  }

  // wl_array_release leaves the pointer as it was.
  function ArrayRelease(s: State, p: Place): State
    requires p in s.arrays
  {
    match s.arrays[p].data
    case None => s
    case Some(b) => s.(buffers := s.buffers - {b}, freed := s.freed + multiset{b})
  }

  function Forget(s: State, p: Place): State {
    s.(arrays := s.arrays - {p}, deleted := if p.Heap? then s.deleted + multiset{p.h} else s.deleted)
  }

  // The two ways in which a release is followed up.
  function Clear(s: State, p: Place): State
    requires p in s.arrays
  {
    ArrayInit(ArrayRelease(s, p), p)
  }

  function Discard(s: State, p: Place): State
    requires p in s.arrays
  {
    Forget(ArrayRelease(s, p), p)
  }

  // `new wl_array`, wl_array_init and wl_array_copy.
  function NewHeap(s: State, bytes: seq<byte>): State {
    ArrayFill(ArrayInit(s, Heap(s.nextHeap)).(nextHeap := s.nextHeap + 1), Heap(s.nextHeap), bytes)
  }

  // ------------------------------------------------------- the class operations

  datatype Op =
    | Default(v: nat)
    | FromBytes(v: nat, bytes: seq<byte>)     // array_t(vector)
    | CopyArray(v: nat, w: nat)
    | MoveArray(v: nat, w: nat)
    | AssignArray(v: nat, w: nat)
    | MoveAssignArray(v: nat, w: nat)
    | AssignBytes(v: nat, bytes: seq<byte>)   // operator=(vector)
    | FromArgument(v: nat, j: nat)            // array_t(wl_array*), as the dispatchers call it
    | DropArray(v: nat)
    | NewScalar(k: nat, bits: int)
    | NewArray(k: nat, w: nat)                // argument_t(array_t)
    | CopyArgument(k: nat, j: nat)
    | AssignArgument(k: nat, j: nat)
    | DropArgument(k: nat)

  predicate Enabled(s: State, op: Op) {
    match op
    case Default(v) => Local(v) !in s.arrays
    case FromBytes(v, _) => Local(v) !in s.arrays
    case CopyArray(v, w) => Local(v) !in s.arrays && Local(w) in s.arrays
    case MoveArray(v, w) => Local(v) !in s.arrays && Local(w) in s.arrays
    case AssignArray(v, w) => Local(v) in s.arrays && Local(w) in s.arrays
    case MoveAssignArray(v, w) => Local(v) in s.arrays && Local(w) in s.arrays
    case AssignBytes(v, _) => Local(v) in s.arrays
    case FromArgument(v, j) => Local(v) !in s.arrays && j in s.args && s.args[j].Array?
    case DropArray(v) => Local(v) in s.arrays
    case NewScalar(k, _) => k !in s.args
    case NewArray(k, w) => k !in s.args && Local(w) in s.arrays
    case CopyArgument(k, j) => k !in s.args && j in s.args
    case AssignArgument(k, j) => k in s.args && j in s.args
    case DropArgument(k) => k in s.args
  }

  function Swap(s: State, p: Place, q: Place): State
    requires p in s.arrays && q in s.arrays
  {
    s.(arrays := s.arrays[p := s.arrays[q]][q := s.arrays[p]])
  }

  // operator= of argument_t once the two are known to be different.
  function Refill(s: State, k: nat, j: nat): State
    requires j in s.args
  {
    match s.args[j]
    case Scalar(_) => s.(args := s.args[k := s.args[j]])
    case Array(a) => NewHeap(s, Content(s, Heap(a))).(args := s.args[k := Array(s.nextHeap)])
  }

  function Empty(s: State, k: nat): State
    requires k in s.args
  {
    match s.args[k]
    case Scalar(_) => s
    case Array(a) => if Heap(a) in s.arrays then Discard(s, Heap(a)) else s
  }

  function Step(s: State, op: Op): State
    requires Enabled(s, op)
  {
    match op
    case Default(v) => ArrayInit(s, Local(v))
    case FromBytes(v, bytes) => ArrayAdd(ArrayInit(s, Local(v)), Local(v), bytes)
    case CopyArray(v, w) => ArrayFill(ArrayInit(s, Local(v)), Local(v), Content(s, Local(w)))
    case MoveArray(v, w) => Swap(ArrayInit(s, Local(v)), Local(v), Local(w))
    case AssignArray(v, w) => if v == w then s else ArrayFill(Clear(s, Local(v)), Local(v), Content(s, Local(w)))
    case MoveAssignArray(v, w) => Swap(s, Local(v), Local(w))
    case AssignBytes(v, bytes) => ArrayAdd(Clear(s, Local(v)), Local(v), bytes)
    case FromArgument(v, j) => ArrayFill(ArrayInit(s, Local(v)), Local(v), Content(s, Heap(s.args[j].a)))
    case DropArray(v) => Discard(s, Local(v))
    case NewScalar(k, bits) => s.(args := s.args[k := Scalar(bits)])
    case NewArray(k, w) => NewHeap(s, Content(s, Local(w))).(args := s.args[k := Array(s.nextHeap)])
    case CopyArgument(k, j) => Refill(s, k, j)
    case AssignArgument(k, j) => if k == j then s else Refill(Empty(s, k), k, j)
    case DropArgument(k) => var s1 := Empty(s, k); s1.(args := s1.args - {k})
  }

  // ---------------------------------------------------------------- invariant

  // A wl_array has the buffer its size calls for, and no two share one.
  predicate PlaceOK(s: State, p: Place) {
    p in s.arrays ==>
      match s.arrays[p].data
      case None => s.arrays[p].size == 0
      case Some(b) => b in s.buffers && s.arrays[p].size == |s.buffers[b]|
  }

  predicate Disjoint(s: State, p: Place, q: Place) {
    p in s.arrays && q in s.arrays && p != q && s.arrays[p].data.Some? ==> s.arrays[p].data != s.arrays[q].data
  }

  ghost predicate Referenced(s: State, b: nat) {
    exists p :: p in s.arrays && s.arrays[p].data == Some(b)
  }

  // A buffer is referenced for as long as it exists, and then freed, once.
  ghost predicate BufferOK(s: State, b: nat) {
    && (b in s.buffers ==> b < s.nextBuffer && Referenced(s, b))
    && s.freed[b] == if b < s.nextBuffer && b !in s.buffers then 1 else 0
  }

  predicate HeapOK(s: State, h: nat) {
    && (Heap(h) in s.arrays ==> h < s.nextHeap)
    && s.deleted[h] == if h < s.nextHeap && Heap(h) !in s.arrays then 1 else 0
  }

  ghost predicate Storage(s: State) {
    && (forall p: Place :: PlaceOK(s, p))
    && (forall p: Place, q: Place :: Disjoint(s, p, q))
    && (forall b: nat :: BufferOK(s, b))
    && (forall h: nat :: HeapOK(s, h))
  }

  predicate ArgumentOK(s: State, k: nat) {
    k in s.args && s.args[k].Array? ==> Heap(s.args[k].a) in s.arrays
  }

  predicate Unshared(s: State, k: nat, j: nat) {
    k in s.args && j in s.args && k != j && s.args[k].Array? ==> s.args[k] != s.args[j]
  }

  ghost predicate Owned(s: State, h: nat) {
    Heap(h) in s.arrays ==> exists k: nat :: k in s.args && s.args[k] == Array(h)
  }

  ghost predicate Owners(s: State) {
    && (forall k: nat :: ArgumentOK(s, k))
    && (forall k: nat, j: nat :: Unshared(s, k, j))
    && (forall h: nat :: Owned(s, h))
  }

  ghost predicate Inv(s: State) {
    Storage(s) && Owners(s)
  }

  // ---------------------------------------------------- what one call changes

  // At every place but p there is the same array with the same content.
  ghost predicate Elsewhere(s: State, t: State, p: Place) {
    && t.args == s.args
    && (forall q: Place {:trigger SameAt(s, t, q)} | q != p :: SameAt(s, t, q))
  }

  predicate SameAt(s: State, t: State, q: Place) {
    (q in t.arrays <==> q in s.arrays) && Content(t, q) == Content(s, q)
  }

  lemma InitStorage(s: State, p: Place)
    requires Storage(s) && p !in s.arrays
    requires p.Heap? ==> p.h == s.nextHeap
    ensures var t := ArrayInit(s, p).(nextHeap := if p.Heap? then s.nextHeap + 1 else s.nextHeap);
      Storage(t) && Elsewhere(s, t, p) && p in t.arrays && t.arrays[p] == EMPTY
  {
    var t := ArrayInit(s, p).(nextHeap := if p.Heap? then s.nextHeap + 1 else s.nextHeap);
    forall q: Place ensures PlaceOK(t, q) {
      assert PlaceOK(s, q);
    }
    forall q: Place, r: Place ensures Disjoint(t, q, r) {
      assert Disjoint(s, q, r);
    }
    forall b: nat ensures BufferOK(t, b) {
      assert BufferOK(s, b);
      if b in s.buffers {
        var q :| q in s.arrays && s.arrays[q].data == Some(b);
        assert q in t.arrays && t.arrays[q].data == Some(b);
      }
    }
    forall h: nat ensures HeapOK(t, h) {
      assert HeapOK(s, h);
    }
  }

  lemma AddStorage(s: State, p: Place, bytes: seq<byte>)
    requires Storage(s) && p in s.arrays && s.arrays[p] == EMPTY
    ensures var t := ArrayAdd(s, p, bytes);
      Storage(t) && Elsewhere(s, t, p) && p in t.arrays && Content(t, p) == bytes && t.nextHeap == s.nextHeap
  {
    var t := ArrayAdd(s, p, bytes);
    assert BufferOK(s, s.nextBuffer);
    forall q: Place ensures PlaceOK(t, q) && (q != p ==> SameAt(s, t, q)) {
      assert PlaceOK(s, q);
    }
    forall q: Place, r: Place ensures Disjoint(t, q, r) {
      assert Disjoint(s, q, r) && PlaceOK(s, q) && PlaceOK(s, r);
    }
    forall b: nat ensures BufferOK(t, b) {
      AddBuffer(s, p, bytes, b);
    }
    forall h: nat ensures HeapOK(t, h) {
      assert HeapOK(s, h);
    }
  }

  lemma AddBuffer(s: State, p: Place, bytes: seq<byte>, b: nat)
    requires BufferOK(s, b) && p in s.arrays && s.arrays[p] == EMPTY
    ensures BufferOK(ArrayAdd(s, p, bytes), b)
  {
    var t := ArrayAdd(s, p, bytes);
    if b in s.buffers {
      var q :| q in s.arrays && s.arrays[q].data == Some(b);
      assert q in t.arrays && t.arrays[q].data == Some(b);
    } else if b == s.nextBuffer {
      assert t.arrays[p].data == Some(b);
    }
  }

  lemma FillStorage(s: State, p: Place, bytes: seq<byte>)
    requires Storage(s) && p in s.arrays && s.arrays[p] == EMPTY
    ensures var t := ArrayFill(s, p, bytes);
      Storage(t) && Elsewhere(s, t, p) && p in t.arrays && Content(t, p) == bytes && t.nextHeap == s.nextHeap
  {
    if bytes != [] {
      AddStorage(s, p, bytes);
    }
  }

  // After a release the array is either initialised again or gone.
  lemma ReleaseBuffer(s: State, t: State, p: Place, b: nat)
    requires Storage(s) && p in s.arrays
    requires t.buffers == ArrayRelease(s, p).buffers && t.freed == ArrayRelease(s, p).freed
    requires t.nextBuffer == s.nextBuffer
    requires t.arrays == s.arrays[p := EMPTY] || t.arrays == s.arrays - {p}
    ensures BufferOK(t, b)
  {
    assert BufferOK(s, b) && PlaceOK(s, p);
    if b in t.buffers {
      var q :| q in s.arrays && s.arrays[q].data == Some(b);
      assert q in t.arrays && t.arrays[q].data == Some(b);
    }
    if s.arrays[p].data.Some? {
      assert BufferOK(s, s.arrays[p].data.value);
    }
  }

  lemma ReleasePlaces(s: State, t: State, p: Place)
    requires Storage(s) && p in s.arrays
    requires t.buffers == ArrayRelease(s, p).buffers
    requires t.arrays == s.arrays[p := EMPTY] || t.arrays == s.arrays - {p}
    ensures forall q: Place :: PlaceOK(t, q)
    ensures forall q: Place, r: Place :: Disjoint(t, q, r)
    ensures forall q: Place {:trigger SameAt(s, t, q)} | q != p :: SameAt(s, t, q)
  {
    forall q: Place ensures PlaceOK(t, q) && (q != p ==> SameAt(s, t, q)) {
      assert PlaceOK(s, q) && Disjoint(s, p, q);
    }
    forall q: Place, r: Place ensures Disjoint(t, q, r) {
      assert Disjoint(s, q, r);
    }
  }

  lemma ClearStorage(s: State, p: Place)
    requires Storage(s) && p in s.arrays
    ensures var t := Clear(s, p); Storage(t) && Elsewhere(s, t, p) && p in t.arrays && t.arrays[p] == EMPTY
  {
    var t := Clear(s, p);
    ReleasePlaces(s, t, p);
    forall b: nat ensures BufferOK(t, b) {
      ReleaseBuffer(s, t, p, b);
    }
    forall h: nat ensures HeapOK(t, h) {
      assert HeapOK(s, h);
    }
  }

  lemma DiscardStorage(s: State, p: Place)
    requires Storage(s) && p in s.arrays
    ensures var t := Discard(s, p); Storage(t) && Elsewhere(s, t, p) && p !in t.arrays && t.nextHeap == s.nextHeap
  {
    var t := Discard(s, p);
    ReleasePlaces(s, t, p);
    forall b: nat ensures BufferOK(t, b) {
      ReleaseBuffer(s, t, p, b);
    }
    forall h: nat ensures HeapOK(t, h) {
      assert HeapOK(s, h);
    }
  }

  lemma SwapStorage(s: State, p: Place, q: Place)
    requires Storage(s) && p in s.arrays && q in s.arrays
    ensures var t := Swap(s, p, q);
      && Storage(t)
      && (forall r: Place {:trigger SameAt(s, t, r)} | r != p && r != q :: SameAt(s, t, r))
      && p in t.arrays && q in t.arrays && Content(t, p) == Content(s, q) && Content(t, q) == Content(s, p)
  {
    var t := Swap(s, p, q);
    forall r: Place ensures PlaceOK(t, r) {
      assert PlaceOK(s, r) && PlaceOK(s, p) && PlaceOK(s, q);
    }
    forall r: Place, u: Place ensures Disjoint(t, r, u) {
      assert Disjoint(s, r, u) && Disjoint(s, p, q) && Disjoint(s, q, p);
      assert Disjoint(s, p, u) && Disjoint(s, q, u) && Disjoint(s, r, p) && Disjoint(s, r, q);
    }
    forall b: nat ensures BufferOK(t, b) {
      assert BufferOK(s, b);
      if b in s.buffers {
        var r :| r in s.arrays && s.arrays[r].data == Some(b);
        var u := if r == p then q else if r == q then p else r;
        assert u in t.arrays && t.arrays[u].data == Some(b);
      }
    }
    forall h: nat ensures HeapOK(t, h) {
      assert HeapOK(s, h);
    }
  }

  lemma NewHeapStorage(s: State, bytes: seq<byte>)
    requires Storage(s)
    ensures var t := NewHeap(s, bytes); var p := Heap(s.nextHeap);
      && Storage(t) && Elsewhere(s, t, p)
      && p !in s.arrays && p in t.arrays && Content(t, p) == bytes
  {
    var p := Heap(s.nextHeap);
    assert HeapOK(s, s.nextHeap);
    InitStorage(s, p);
    var s1 := ArrayInit(s, p).(nextHeap := s.nextHeap + 1);
    FillStorage(s1, p, bytes);
    forall q: Place | q != p ensures SameAt(s, NewHeap(s, bytes), q) {
      assert SameAt(s, s1, q) && SameAt(s1, NewHeap(s, bytes), q);
    }
  }

  // ------------------------------------------------- the specification on values

  datatype Value = Number(bits: int) | Blob(bytes: seq<byte>)

  // What a program can observe: the content of every array_t and argument_t.
  datatype View = View(locals: map<nat, seq<byte>>, args: map<nat, Value>)

  function ValueOf(s: State, k: nat): Value
    requires k in s.args
  {
    match s.args[k]
    case Scalar(bits) => Number(bits)
    case Array(a) => Blob(Content(s, Heap(a)))
  }

  // v is the view of s.
  ghost predicate Shows(s: State, v: View) {
    && (forall i: nat :: ShowsLocal(s, v, i))
    && (forall k: nat :: ShowsArgument(s, v, k))
  }

  predicate ShowsLocal(s: State, v: View, i: nat) {
    (i in v.locals <==> Local(i) in s.arrays) && (i in v.locals ==> v.locals[i] == Content(s, Local(i)))
  }

  predicate ShowsArgument(s: State, v: View, k: nat) {
    (k in v.args <==> k in s.args) && (k in v.args ==> v.args[k] == ValueOf(s, k))
  }

  predicate SpecEnabled(v: View, op: Op) {
    match op
    case Default(i) => i !in v.locals
    case FromBytes(i, _) => i !in v.locals
    case CopyArray(i, j) => i !in v.locals && j in v.locals
    case MoveArray(i, j) => i !in v.locals && j in v.locals
    case AssignArray(i, j) => i in v.locals && j in v.locals
    case MoveAssignArray(i, j) => i in v.locals && j in v.locals
    case AssignBytes(i, _) => i in v.locals
    case FromArgument(i, k) => i !in v.locals && k in v.args && v.args[k].Blob?
    case DropArray(i) => i in v.locals
    case NewScalar(k, _) => k !in v.args
    case NewArray(k, i) => k !in v.args && i in v.locals
    case CopyArgument(k, l) => k !in v.args && l in v.args
    case AssignArgument(k, l) => k in v.args && l in v.args
    case DropArgument(k) => k in v.args
  }

  function SpecStep(v: View, op: Op): View
    requires SpecEnabled(v, op)
  {
    match op
    case Default(i) => v.(locals := v.locals[i := []])
    case FromBytes(i, bytes) => v.(locals := v.locals[i := bytes])
    case CopyArray(i, j) => v.(locals := v.locals[i := v.locals[j]])
    case MoveArray(i, j) => v.(locals := v.locals[i := v.locals[j]][j := []])
    case AssignArray(i, j) => v.(locals := v.locals[i := v.locals[j]])
    case MoveAssignArray(i, j) => v.(locals := v.locals[i := v.locals[j]][j := v.locals[i]])
    case AssignBytes(i, bytes) => v.(locals := v.locals[i := bytes])
    case FromArgument(i, k) => v.(locals := v.locals[i := v.args[k].bytes])
    case DropArray(i) => v.(locals := v.locals - {i})
    case NewScalar(k, bits) => v.(args := v.args[k := Number(bits)])
    case NewArray(k, i) => v.(args := v.args[k := Blob(v.locals[i])])
    case CopyArgument(k, l) => v.(args := v.args[k := v.args[l]])
    case AssignArgument(k, l) => v.(args := v.args[k := v.args[l]])
    case DropArgument(k) => v.(args := v.args - {k})
  }

  // ------------------------------------------------------- each step keeps both

  // One array_t changed and nothing else.
  lemma LocalStep(s: State, t: State, v: View, i: nat)
    requires Owners(s) && Shows(s, v) && Elsewhere(s, t, Local(i))
    ensures Owners(t)
    ensures Local(i) in t.arrays ==> Shows(t, v.(locals := v.locals[i := Content(t, Local(i))]))
    ensures Local(i) !in t.arrays ==> Shows(t, v.(locals := v.locals - {i}))
  {
    LocalOwners(s, t, i);
    var w := v.(locals := if Local(i) in t.arrays then v.locals[i := Content(t, Local(i))] else v.locals - {i});
    forall j: nat ensures ShowsLocal(t, w, j) {
      assert ShowsLocal(s, v, j);
      assert j != i ==> SameAt(s, t, Local(j));
    }
    forall k: nat ensures ShowsArgument(t, w, k) {
      assert ShowsArgument(s, v, k);
      assert k in s.args && s.args[k].Array? ==> SameAt(s, t, Heap(s.args[k].a));
    }
  }

  lemma LocalOwners(s: State, t: State, i: nat)
    requires Owners(s) && Elsewhere(s, t, Local(i))
    ensures Owners(t)
  {
    forall k: nat ensures ArgumentOK(t, k) {
      assert ArgumentOK(s, k);
      assert k in s.args && s.args[k].Array? ==> SameAt(s, t, Heap(s.args[k].a));
    }
    forall k: nat, j: nat ensures Unshared(t, k, j) {
      assert Unshared(s, k, j);
    }
    forall h: nat ensures Owned(t, h) {
      assert Owned(s, h) && SameAt(s, t, Heap(h));
    }
  }

  // The argument k has given up what it owned; that is no longer in the store.
  ghost predicate Vacant(s: State, v: View, k: nat) {
    && Storage(s)
    && (forall j: nat {:trigger ArgumentOK(s, j)} | j != k :: ArgumentOK(s, j))
    && (forall i: nat, j: nat :: Unshared(s, i, j))
    && (forall h: nat {:trigger OwnedBut(s, h, k)} :: OwnedBut(s, h, k))
    && (forall i: nat :: ShowsLocal(s, v, i))
    && (forall j: nat {:trigger ShowsArgument(s, v, j)} | j != k :: ShowsArgument(s, v, j))
  }

  ghost predicate OwnedBut(s: State, h: nat, k: nat) {
    Heap(h) in s.arrays ==> exists j: nat :: j in s.args && j != k && s.args[j] == Array(h)
  }

  lemma FreshIsVacant(s: State, v: View, k: nat)
    requires Inv(s) && Shows(s, v) && k !in s.args
    ensures Vacant(s, v, k)
  {
    forall h: nat ensures OwnedBut(s, h, k) {
      assert Owned(s, h);
    }
  }

  lemma EmptyIsVacant(s: State, v: View, k: nat)
    requires Inv(s) && Shows(s, v) && k in s.args
    ensures Vacant(Empty(s, k), v, k) && Empty(s, k).args == s.args
  {
    var t := Empty(s, k);
    assert ArgumentOK(s, k);
    if s.args[k].Array? {
      DiscardStorage(s, Heap(s.args[k].a));
    }
    forall j: nat | j != k ensures ArgumentOK(t, j) {
      assert ArgumentOK(s, j) && Unshared(s, k, j);
      assert j in s.args && s.args[j].Array? && s.args[k].Array? ==> SameAt(s, t, Heap(s.args[j].a));
    }
    forall i: nat, j: nat ensures Unshared(t, i, j) {
      assert Unshared(s, i, j);
    }
    forall h: nat ensures OwnedBut(t, h, k) {
      assert Owned(s, h);
    }
    forall i: nat ensures ShowsLocal(t, v, i) {
      assert ShowsLocal(s, v, i);
      assert s.args[k].Array? ==> SameAt(s, t, Local(i));
    }
    forall j: nat | j != k ensures ShowsArgument(t, v, j) {
      assert ShowsArgument(s, v, j) && Unshared(s, k, j);
      assert j in s.args && s.args[j].Array? && s.args[k].Array? ==> SameAt(s, t, Heap(s.args[j].a));
    }
  }

  // The vacant argument becomes a number or the owner of a new array.
  lemma FillScalar(s: State, v: View, k: nat, bits: int)
    requires Vacant(s, v, k)
    ensures var t := s.(args := s.args[k := Scalar(bits)]);
      Inv(t) && Shows(t, v.(args := v.args[k := Number(bits)]))
  {
    var t := s.(args := s.args[k := Scalar(bits)]);
    var w := v.(args := v.args[k := Number(bits)]);
    SameStorage(s, t);
    forall j: nat ensures ArgumentOK(t, j) {
      assert j != k ==> ArgumentOK(s, j);
    }
    forall i: nat, j: nat ensures Unshared(t, i, j) {
      assert Unshared(s, i, j);
    }
    forall h: nat ensures Owned(t, h) {
      StillOwned(s, t, h, k);
    }
    forall i: nat ensures ShowsLocal(t, w, i) {
      assert ShowsLocal(s, v, i);
    }
    forall j: nat ensures ShowsArgument(t, w, j) {
      assert j != k ==> ShowsArgument(s, v, j);
    }
  }

  lemma StillOwned(s: State, t: State, h: nat, k: nat)
    requires OwnedBut(s, h, k) && (Heap(h) in t.arrays ==> Heap(h) in s.arrays)
    requires forall j | j in s.args && j != k :: j in t.args && t.args[j] == s.args[j]
    ensures Owned(t, h)
  {
    if Heap(h) in t.arrays {
      var j: nat :| j in s.args && j != k && s.args[j] == Array(h);
      assert t.args[j] == Array(h);
    }
  }

  lemma SameStorage(s: State, t: State)
    requires Storage(s) && t == s.(args := t.args)
    ensures Storage(t)
  {
    forall p: Place ensures PlaceOK(t, p) {
      assert PlaceOK(s, p);
    }
    forall p: Place, q: Place ensures Disjoint(t, p, q) {
      assert Disjoint(s, p, q);
    }
    forall b: nat ensures BufferOK(t, b) {
      assert BufferOK(s, b);
      if b in s.buffers {
        var p :| p in s.arrays && s.arrays[p].data == Some(b);
        assert p in t.arrays && t.arrays[p].data == Some(b);
      }
    }
    forall h: nat ensures HeapOK(t, h) {
      assert HeapOK(s, h);
    }
  }

  lemma FillArray(s: State, v: View, k: nat, bytes: seq<byte>)
    requires Vacant(s, v, k)
    ensures var t := NewHeap(s, bytes).(args := s.args[k := Array(s.nextHeap)]);
      Inv(t) && Shows(t, v.(args := v.args[k := Blob(bytes)]))
  {
    var s1 := NewHeap(s, bytes);
    var t := s1.(args := s.args[k := Array(s.nextHeap)]);
    var w := v.(args := v.args[k := Blob(bytes)]);
    NewHeapStorage(s, bytes);
    SameStorage(s1, t);
    forall j: nat ensures ArgumentOK(t, j) && ShowsArgument(t, w, j) {
      if j != k {
        assert ArgumentOK(s, j) && ShowsArgument(s, v, j);
        assert j in s.args && s.args[j].Array? ==> SameAt(s, s1, Heap(s.args[j].a));
      }
    }
    forall i: nat, j: nat ensures Unshared(t, i, j) {
      assert Unshared(s, i, j);
      assert i != k ==> ArgumentOK(s, i);
      assert j != k ==> ArgumentOK(s, j);
    }
    forall h: nat ensures Owned(t, h) {
      if h == s.nextHeap {
        assert t.args[k] == Array(h);
      } else {
        assert SameAt(s, s1, Heap(h)) && OwnedBut(s, h, k);
        StillOwned(s, t, h, k);
      }
    }
    forall i: nat ensures ShowsLocal(t, w, i) {
      assert ShowsLocal(s, v, i) && SameAt(s, s1, Local(i));
    }
  }

  lemma RefillStep(s: State, v: View, k: nat, j: nat)
    requires Vacant(s, v, k) && j in s.args && j != k
    ensures Inv(Refill(s, k, j)) && j in v.args && Shows(Refill(s, k, j), v.(args := v.args[k := v.args[j]]))
  {
    assert ShowsArgument(s, v, j);
    match s.args[j]
    case Scalar(bits) => FillScalar(s, v, k, bits);
    case Array(a) => FillArray(s, v, k, Content(s, Heap(a)));
  }

  lemma VacantWithout(s: State, v: View, k: nat)
    requires Vacant(s, v, k)
    ensures var t := s.(args := s.args - {k}); Inv(t) && Shows(t, v.(args := v.args - {k}))
  {
    var t := s.(args := s.args - {k});
    var w := v.(args := v.args - {k});
    SameStorage(s, t);
    forall j: nat ensures ArgumentOK(t, j) && ShowsArgument(t, w, j) {
      assert j != k ==> ArgumentOK(s, j) && ShowsArgument(s, v, j);
    }
    forall i: nat, j: nat ensures Unshared(t, i, j) {
      assert Unshared(s, i, j);
    }
    forall h: nat ensures Owned(t, h) {
      StillOwned(s, t, h, k);
    }
    forall i: nat ensures ShowsLocal(t, w, i) {
      assert ShowsLocal(s, v, i);
    }
  }

  // array_t's constructors and assignments: an initialised array is filled.
  lemma LocalFill(s: State, v: View, i: nat, add: bool, bytes: seq<byte>)
    requires Inv(s) && Shows(s, v)
    ensures var s1 := if Local(i) in s.arrays then Clear(s, Local(i)) else ArrayInit(s, Local(i));
      var t := if add then ArrayAdd(s1, Local(i), bytes) else ArrayFill(s1, Local(i), bytes);
      Inv(t) && Shows(t, v.(locals := v.locals[i := bytes]))
  {
    var p := Local(i);
    var s1 := if p in s.arrays then Clear(s, p) else ArrayInit(s, p);
    var t := if add then ArrayAdd(s1, p, bytes) else ArrayFill(s1, p, bytes);
    if p in s.arrays { ClearStorage(s, p); } else { InitStorage(s, p); }
    if add { AddStorage(s1, p, bytes); } else { FillStorage(s1, p, bytes); }
    forall q: Place | q != p ensures SameAt(s, t, q) {
      assert SameAt(s, s1, q) && SameAt(s1, t, q);
    }
    LocalStep(s, t, v, i);
  }

  lemma LocalSwap(s: State, v: View, i: nat, j: nat)
    requires Inv(s) && Shows(s, v) && Local(i) in s.arrays && Local(j) in s.arrays
    ensures i in v.locals && j in v.locals
    ensures var t := Swap(s, Local(i), Local(j));
      Inv(t) && Shows(t, v.(locals := v.locals[i := v.locals[j]][j := v.locals[i]]))
  {
    var t := Swap(s, Local(i), Local(j));
    assert ShowsLocal(s, v, i) && ShowsLocal(s, v, j);
    SwapStorage(s, Local(i), Local(j));
    var w := v.(locals := v.locals[i := v.locals[j]][j := v.locals[i]]);
    forall x: nat ensures ShowsLocal(t, w, x) {
      assert ShowsLocal(s, v, x) && (x != i && x != j ==> SameAt(s, t, Local(x)));
    }
    forall k: nat ensures ArgumentOK(t, k) && ShowsArgument(t, w, k) {
      assert ArgumentOK(s, k) && ShowsArgument(s, v, k);
      assert k in s.args && s.args[k].Array? ==> SameAt(s, t, Heap(s.args[k].a));
    }
    forall k: nat, x: nat ensures Unshared(t, k, x) {
      assert Unshared(s, k, x);
    }
    forall h: nat ensures Owned(t, h) {
      assert Owned(s, h) && SameAt(s, t, Heap(h));
    }
  }

  lemma MoveLocal(s: State, v: View, i: nat, j: nat)
    requires Inv(s) && Shows(s, v) && Local(i) !in s.arrays && Local(j) in s.arrays
    ensures j in v.locals
    ensures var t := Swap(ArrayInit(s, Local(i)), Local(i), Local(j));
      Inv(t) && Shows(t, v.(locals := v.locals[i := v.locals[j]][j := []]))
  {
    var s1, v1 := ArrayInit(s, Local(i)), v.(locals := v.locals[i := []]);
    assert ShowsLocal(s, v, j);
    InitStorage(s, Local(i));
    LocalStep(s, s1, v, i);
    LocalSwap(s1, v1, i, j);
    assert v1.locals[i := v1.locals[j]][j := v1.locals[i]] == v.locals[i := v.locals[j]][j := []];
  }

  lemma SameEnabled(s: State, v: View, op: Op)
    requires Shows(s, v)
    ensures SpecEnabled(v, op) <==> Enabled(s, op)
  {
    match op
    case Default(v1) => assert ShowsLocal(s, v, v1);
    case FromBytes(v1, _) => assert ShowsLocal(s, v, v1);
    case CopyArray(v1, w) => assert ShowsLocal(s, v, v1) && ShowsLocal(s, v, w);
    case MoveArray(v1, w) => assert ShowsLocal(s, v, v1) && ShowsLocal(s, v, w);
    case AssignArray(v1, w) => assert ShowsLocal(s, v, v1) && ShowsLocal(s, v, w);
    case MoveAssignArray(v1, w) => assert ShowsLocal(s, v, v1) && ShowsLocal(s, v, w);
    case AssignBytes(v1, _) => assert ShowsLocal(s, v, v1);
    case FromArgument(v1, j) => assert ShowsLocal(s, v, v1) && ShowsArgument(s, v, j);
    case DropArray(v1) => assert ShowsLocal(s, v, v1);
    case NewScalar(k, _) => assert ShowsArgument(s, v, k);
    case NewArray(k, w) => assert ShowsArgument(s, v, k) && ShowsLocal(s, v, w);
    case CopyArgument(k, j) => assert ShowsArgument(s, v, k) && ShowsArgument(s, v, j);
    case AssignArgument(k, j) => assert ShowsArgument(s, v, k) && ShowsArgument(s, v, j);
    case DropArgument(k) => assert ShowsArgument(s, v, k);
  }

  // Every operation keeps the invariant and does to the view what it would do to
  // plain values.
  lemma StepRefines(s: State, v: View, op: Op)
    requires Inv(s) && Shows(s, v) && Enabled(s, op)
    ensures SpecEnabled(v, op) && Inv(Step(s, op)) && Shows(Step(s, op), SpecStep(v, op))
  {
    SameEnabled(s, v, op);
    match op
    case Default(i) => LocalFill(s, v, i, false, []);
    case FromBytes(i, bytes) => LocalFill(s, v, i, true, bytes);
    case CopyArray(i, j) => assert ShowsLocal(s, v, j); LocalFill(s, v, i, false, v.locals[j]);
    case MoveArray(i, j) => MoveLocal(s, v, i, j);
    case AssignArray(i, j) =>
      assert ShowsLocal(s, v, j);
      if i == j { assert v.locals[i := v.locals[j]] == v.locals; } else { LocalFill(s, v, i, false, v.locals[j]); }
    case MoveAssignArray(i, j) => LocalSwap(s, v, i, j);
    case AssignBytes(i, bytes) => LocalFill(s, v, i, true, bytes);
    case FromArgument(i, k) => assert ShowsArgument(s, v, k); LocalFill(s, v, i, false, v.args[k].bytes);
    case DropArray(i) =>
      DiscardStorage(s, Local(i));
      LocalStep(s, Step(s, op), v, i);
    case NewScalar(k, bits) =>
      FreshIsVacant(s, v, k);
      FillScalar(s, v, k, bits);
    case NewArray(k, i) =>
      assert ShowsLocal(s, v, i);
      FreshIsVacant(s, v, k);
      FillArray(s, v, k, v.locals[i]);
    case CopyArgument(k, j) =>
      FreshIsVacant(s, v, k);
      RefillStep(s, v, k, j);
    case AssignArgument(k, j) =>
      if k == j {
        assert v.args[k := v.args[j]] == v.args;
      } else {
        EmptyIsVacant(s, v, k);
        RefillStep(Empty(s, k), v, k, j);
      }
    case DropArgument(k) =>
      EmptyIsVacant(s, v, k);
      VacantWithout(Empty(s, k), v, k);
  }

  function Run(s: State, ops: seq<Op>): Option<State>
    decreases |ops|
  {
    if ops == [] then Some(s)
    else if Enabled(s, ops[0]) then Run(Step(s, ops[0]), ops[1..])
    else None
  }

  function SpecRun(v: View, ops: seq<Op>): Option<View>
    decreases |ops|
  {
    if ops == [] then Some(v)
    else if SpecEnabled(v, ops[0]) then SpecRun(SpecStep(v, ops[0]), ops[1..])
    else None
  }

  lemma {:induction false} RunRefines(s: State, v: View, ops: seq<Op>)
    requires Inv(s) && Shows(s, v)
    ensures Run(s, ops).Some? <==> SpecRun(v, ops).Some?
    ensures Run(s, ops).Some? ==> Inv(Run(s, ops).value) && Shows(Run(s, ops).value, SpecRun(v, ops).value)
    decreases |ops|
  {
    if ops != [] {
      SameEnabled(s, v, ops[0]);
      if Enabled(s, ops[0]) {
        StepRefines(s, v, ops[0]);
        RunRefines(Step(s, ops[0]), SpecStep(v, ops[0]), ops[1..]);
      }
    }
  }

  // ----------------------------------------------------------------- theorems

  lemma InitialInv()
    ensures Inv(INITIAL) && Shows(INITIAL, View(map[], map[]))
  {
  }

  // Copies behave as values: after any run each array_t and argument_t has exactly the
  // content it would have if arrays were copied around as byte sequences.
  lemma CopiesAreValues(ops: seq<Op>)
    ensures Run(INITIAL, ops).Some? <==> SpecRun(View(map[], map[]), ops).Some?
    ensures Run(INITIAL, ops).Some? ==> Shows(Run(INITIAL, ops).value, SpecRun(View(map[], map[]), ops).value)
  {
    InitialInv();
    RunRefines(INITIAL, View(map[], map[]), ops);
  }

  // The arrays on the heap and the array-kind arguments correspond one to one.
  lemma ArraysMatchArguments(ops: seq<Op>, h: nat)
    requires Run(INITIAL, ops).Some?
    ensures var s := Run(INITIAL, ops).value;
      && (Heap(h) in s.arrays <==> exists k: nat :: k in s.args && s.args[k] == Array(h))
      && (forall k: nat, j: nat | k in s.args && j in s.args && s.args[k] == s.args[j] == Array(h) :: k == j)
  {
    InitialInv();
    RunRefines(INITIAL, View(map[], map[]), ops);
    var s := Run(INITIAL, ops).value;
    assert Owned(s, h);
    forall k: nat | k in s.args && s.args[k] == Array(h) ensures Heap(h) in s.arrays {
      assert ArgumentOK(s, k);
    }
    forall k: nat, j: nat | k in s.args && j in s.args && s.args[k] == s.args[j] == Array(h) ensures k == j {
      assert Unshared(s, k, j);
    }
  }

  // No two arrays share a buffer; every buffer in use belongs to one.
  lemma BuffersAreDisjoint(ops: seq<Op>, p: Place, q: Place)
    requires Run(INITIAL, ops).Some? && p in Run(INITIAL, ops).value.arrays && q in Run(INITIAL, ops).value.arrays
    ensures var s := Run(INITIAL, ops).value;
      && (p != q && s.arrays[p].data.Some? ==> s.arrays[p].data != s.arrays[q].data)
      && s.arrays[p].size == |Content(s, p)|
  {
    InitialInv();
    RunRefines(INITIAL, View(map[], map[]), ops);
    assert Disjoint(Run(INITIAL, ops).value, p, q) && PlaceOK(Run(INITIAL, ops).value, p);
  }

  // Whatever was allocated is either in use or was given back exactly once.
  lemma ReleasedOnce(ops: seq<Op>, b: nat, h: nat)
    requires Run(INITIAL, ops).Some?
    ensures var s := Run(INITIAL, ops).value;
      && (b < s.nextBuffer ==> s.freed[b] == if Referenced(s, b) then 0 else 1)
      && (h < s.nextHeap ==> s.deleted[h] == if Heap(h) in s.arrays then 0 else 1)
  {
    InitialInv();
    RunRefines(INITIAL, View(map[], map[]), ops);
    var s := Run(INITIAL, ops).value;
    assert BufferOK(s, b) && HeapOK(s, h);
    if Referenced(s, b) {
      var p :| p in s.arrays && s.arrays[p].data == Some(b);
      assert PlaceOK(s, p);
    }
  }

  // ---------------------------------------------------------- imperative form

  class Memory {
    var arrays: map<Place, WlArray>
    var args: map<nat, Argument>
    var buffers: map<nat, seq<byte>>
    var nextHeap: nat
    var nextBuffer: nat
    ghost var freed: multiset<nat>
    ghost var deleted: multiset<nat>

    ghost function Now(): State
      reads this
    {
      State(arrays, args, buffers, nextHeap, nextBuffer, freed, deleted)
    }

    constructor ()
      ensures Now() == INITIAL && Inv(Now())
    {
      arrays, args, buffers := map[], map[], map[];
      nextHeap, nextBuffer, freed, deleted := 0, 0, multiset{}, multiset{};
      new;
      InitialInv();
    }

    method WlArrayInit(p: Place)
      modifies this`arrays
      ensures Now() == ArrayInit(old(Now()), p)
    {
      arrays := arrays[p := EMPTY];
    }

    // Frees the buffer, which must not have been freed before.
    method WlArrayRelease(p: Place)
      requires p in arrays && (arrays[p].data.Some? ==> arrays[p].data.value in buffers)
      modifies this`buffers, this`freed
      ensures Now() == ArrayRelease(old(Now()), p)
    {
      if arrays[p].data.Some? {
        freed := freed + multiset{arrays[p].data.value};
        buffers := buffers - {arrays[p].data.value};
      }
    }

    // Copies into an initialised array from one whose buffer is there.
    method WlArrayCopy(p: Place, q: Place)
      requires p in arrays && arrays[p] == EMPTY && q in arrays && PlaceOK(Now(), q)
      modifies this`arrays, this`buffers, this`nextBuffer
      ensures Now() == ArrayFill(old(Now()), p, old(Content(Now(), q)))
    {
      if arrays[q].data.Some? && buffers[arrays[q].data.value] != [] {
        var b := nextBuffer;
        nextBuffer := nextBuffer + 1;
        buffers := buffers[b := buffers[arrays[q].data.value]];
        arrays := arrays[p := WlArray(arrays[q].size, Some(b))];
      }
    }

    method NewHeapArray(q: Place) returns (a: nat)
      requires Storage(Now()) && q in arrays
      modifies this`arrays, this`buffers, this`nextBuffer, this`nextHeap
      ensures a == old(nextHeap) && Now() == NewHeap(old(Now()), old(Content(Now(), q)))
    {
      assert PlaceOK(Now(), q) && HeapOK(Now(), nextHeap);
      a := nextHeap;
      nextHeap := nextHeap + 1;
      WlArrayInit(Heap(a));
      WlArrayCopy(Heap(a), q);
    }

    // What the destructor and operator= do to the array an argument owns.
    method EmptyArgument(k: nat)
      requires Inv(Now()) && k in args
      modifies this`arrays, this`buffers, this`freed, this`deleted
      ensures Now() == Empty(old(Now()), k)
    {
      if args[k].Array? {
        assert ArgumentOK(Now(), k) && PlaceOK(Now(), Heap(args[k].a));
        WlArrayRelease(Heap(args[k].a));
        arrays := arrays - {Heap(args[k].a)};
        deleted := deleted + multiset{args[k].a};
      }
    }

    method AssignFrom(k: nat, j: nat)
      requires Inv(Now()) && k in args && j in args
      modifies this
      ensures Now() == Step(old(Now()), AssignArgument(k, j))
    {
      if k == j {
        return;
      }
      ghost var s := Now();
      EmptyArgument(k);
      StillThere(s, k, j);
      if args[j].Array? {
        var a := NewHeapArray(Heap(args[j].a));
        args := args[k := Array(a)];
      } else {
        args := args[k := args[j]];
      }
    }

    method CopyFrom(k: nat, j: nat)
      requires Inv(Now()) && k !in args && j in args
      modifies this
      ensures Now() == Step(old(Now()), CopyArgument(k, j))
    {
      assert ArgumentOK(Now(), j);
      if args[j].Array? {
        var a := NewHeapArray(Heap(args[j].a));
        args := args[k := Array(a)];
      } else {
        args := args[k := args[j]];
      }
    }

    method FromArrayT(k: nat, w: nat)
      requires Inv(Now()) && k !in args && Local(w) in arrays
      modifies this
      ensures Now() == Step(old(Now()), NewArray(k, w))
    {
      var a := NewHeapArray(Local(w));
      args := args[k := Array(a)];
    }

    method DestroyArgument(k: nat)
      requires Inv(Now()) && k in args
      modifies this
      ensures Now() == Step(old(Now()), DropArgument(k))
    {
      EmptyArgument(k);
      args := args - {k};
    }

    method AssignArrayT(v: nat, w: nat)
      requires Inv(Now()) && Local(v) in arrays && Local(w) in arrays
      modifies this
      ensures Now() == Step(old(Now()), AssignArray(v, w))
    {
      if v == w {
        return;
      }
      ghost var s := Now();
      assert PlaceOK(s, Local(v));
      ClearStorage(s, Local(v));
      WlArrayRelease(Local(v));
      WlArrayInit(Local(v));
      assert SameAt(s, Now(), Local(w)) && PlaceOK(Now(), Local(w));
      WlArrayCopy(Local(v), Local(w));
    }

    method CopyArrayT(v: nat, w: nat)
      requires Inv(Now()) && Local(v) !in arrays && Local(w) in arrays
      modifies this
      ensures Now() == Step(old(Now()), CopyArray(v, w))
    {
      assert PlaceOK(Now(), Local(w));
      WlArrayInit(Local(v));
      WlArrayCopy(Local(v), Local(w));
    }

    method DestroyArrayT(v: nat)
      requires Inv(Now()) && Local(v) in arrays
      modifies this
      ensures Now() == Step(old(Now()), DropArray(v))
    {
      assert PlaceOK(Now(), Local(v));
      WlArrayRelease(Local(v));
      arrays := arrays - {Local(v)};
    }
  }

  // Emptying one argument leaves the array of another in place.
  lemma StillThere(s: State, k: nat, j: nat)
    requires Inv(s) && k in s.args && j in s.args && k != j
    ensures Storage(Empty(s, k)) && j in Empty(s, k).args
    ensures s.args[j].Array? ==> Heap(s.args[j].a) in Empty(s, k).arrays
  {
    assert ArgumentOK(s, k) && ArgumentOK(s, j) && Unshared(s, k, j);
    if s.args[k].Array? {
      DiscardStorage(s, Heap(s.args[k].a));
      if s.args[j].Array? {
        assert SameAt(s, Empty(s, k), Heap(s.args[j].a));
      }
    }
  }
}
