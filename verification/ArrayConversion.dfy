// Vectors to arrays and back.
//
// An element is its object representation, a sequence of `size` bytes.  Conversion
// stores the elements one after another in the array's buffer, with the pointer loop
// wl_array_for_each_cpp; what happens to the array in between is ArgumentStorage's.

module ArrayConversion {
  import opened Common
  import Wire
  import opened ArgumentStorage

  type Element = seq<byte>

  // The loop's counter c is an unsigned int.
  const UINT_RANGE: nat := 0x1_0000_0000

  // The end of the buffer lies inside an element: the loop reads past it.
  datatype Failure = ReadPastEnd

  predicate OfSize(v: seq<Element>, size: nat) {
    forall i | 0 <= i < |v| :: |v[i]| == size
  }

  function Concat(v: seq<Element>): seq<byte> {
    if v == [] then [] else v[0] + Concat(v[1..])
  }

  // The element that v.at(c++) yields at each turn of the loop.
  function AsIndexed(v: seq<Element>): (w: seq<Element>)
    ensures |w| == |v|
  {
    seq(|v|, i requires 0 <= i < |v| => v[i % UINT_RANGE])
  }

  function Split(bytes: seq<byte>, size: nat): Result<seq<Element>, Failure>
    requires size > 0
    decreases |bytes|
  {
    if bytes == [] then Ok([])
    else if |bytes| < size then Err(ReadPastEnd)
    else
      match Split(bytes[size..], size)
      case Ok(rest) => Ok([bytes[..size]] + rest)
      case Err(e) => Err(e)
  }

  // ------------------------------------------------------------------ the loops

  // wl_array_for_each_cpp: how often the body runs.
  method ForEach(bytes: nat, size: nat) returns (visits: nat)
    requires size > 0
    ensures visits * size >= bytes && (visits > 0 ==> (visits - 1) * size < bytes)
  {
    var pos := 0;
    visits := 0;
    while pos < bytes
      invariant pos == visits * size
      invariant visits > 0 ==> (visits - 1) * size < bytes
      decreases bytes - pos
    {
      pos := pos + size;
      visits := visits + 1;
    }
  }

  lemma MulSucc(i: nat, size: nat)
    ensures (i + 1) * size == i * size + size
  {
  }

  lemma {:induction false} MulLess(a: nat, b: nat, c: nat)
    requires a < b
    ensures a * c + c <= b * c
  {
    MulSucc(b - 1, c);
    if a < b - 1 {
      MulLess(a, b - 1, c);
    }
  }

  lemma MulPred(a: nat, c: nat)
    requires a > 0
    ensures (a - 1) * c == a * c - c
  {
  }

  // There is one way to write a number as a multiple of size and a remainder.
  lemma Quotient(n: nat, size: nat, q: nat, r: nat)
    requires size > 0 && n == q * size + r && r < size
    ensures n / size == q && n % size == r
  {
    var q1 := n / size;
    if q1 < q { MulLess(q1, q, size); }
    if q < q1 { MulLess(q, q1, size); }
  }

  // That is exactly the number of whole elements if and only if there is no remainder.
  lemma VisitsWhole(bytes: nat, size: nat, visits: nat)
    requires size > 0 && visits * size >= bytes && (visits > 0 ==> (visits - 1) * size < bytes)
    ensures visits == bytes / size <==> bytes % size == 0
    ensures bytes % size != 0 ==> visits == bytes / size + 1
  {
    if visits > 0 {
      MulPred(visits, size);
      var r := bytes - (visits - 1) * size;
      if r == size {
        Quotient(bytes, size, visits, 0);
      } else {
        Quotient(bytes, size, visits - 1, r);
      }
    }
  }

  // array_t(const std::vector<T>&) and operator=: size is sizeof(T).
  method FromVector(v: seq<Element>, size: nat) returns (a: array<byte>)
    requires size > 0 && OfSize(v, size)
    ensures fresh(a) && a[..] == Concat(AsIndexed(v))
  {
    TimesIsProduct(|v|, size);
    a := new byte[|v| * size];
    StoreAll(a, v, size);
  }

  method StoreAll(a: array<byte>, v: seq<Element>, size: nat)
    requires size > 0 && OfSize(v, size) && a.Length == Times(|v|, size)
    modifies a
    ensures a[..] == Concat(AsIndexed(v))
  {
    var pos, c := 0, 0;
    ghost var i, w := 0, AsIndexed(v);
    while pos < a.Length
      invariant i <= |v| && pos == Times(i, size) <= a.Length
      invariant c == i % UINT_RANGE
      invariant a[..pos] == Concat(w[..i])
      decreases a.Length - pos
    {
      TimesGrows(i, |v|, size);
      OneMore(w, i);
      Store(a, pos, v[c]);
      pos := pos + size;
      c := (c + 1) % UINT_RANGE;
      i := i + 1;
    }
    if i < |v| {
      TimesGrows(i, |v|, size);
    }
    assert w[..i] == w && a[..pos] == a[..];
  }

  lemma OneMore(w: seq<Element>, i: nat)
    requires i < |w|
    ensures Concat(w[..i + 1]) == Concat(w[..i]) + w[i]
  {
    assert w[..i + 1] == w[..i] + [w[i]];
    ConcatSnoc(w[..i], w[i]);
  }

  // i * size as a sum.
  function Times(i: nat, size: nat): nat {
    if i == 0 then 0 else Times(i - 1, size) + size
  }

  lemma {:induction false} TimesIsProduct(i: nat, size: nat)
    ensures Times(i, size) == i * size
  {
    if i > 0 {
      TimesIsProduct(i - 1, size);
      MulSucc(i - 1, size);
    }
  }

  lemma {:induction false} TimesGrows(i: nat, n: nat, size: nat)
    requires i < n && size > 0
    ensures Times(i, size) + size <= Times(n, size)
  {
    if i < n - 1 {
      TimesGrows(i, n - 1, size);
    }
  }

  // One turn of the loop appends one element.
  method Store(a: array<byte>, pos: nat, e: Element)
    requires pos + |e| <= a.Length
    modifies a
    ensures a[..pos + |e|] == old(a[..pos]) + e
  {
    forall j | 0 <= j < |e| {
      a[pos + j] := e[j];
    }
    assert a[..pos] == old(a[..pos]) && a[pos..pos + |e|] == e;
  }

  // operator std::vector<T>.
  method ToVector(a: array<byte>, size: nat) returns (r: Result<seq<Element>, Failure>)
    requires size > 0
    ensures r == Split(a[..], size)
  {
    var pos, v := 0, [];
    PrependNil(Split(a[..], size));
    assert a[0..] == a[..];
    while pos < a.Length
      invariant 0 <= pos <= a.Length
      invariant Split(a[..], size) == Prepend(v, Split(a[pos..], size))
      decreases a.Length - pos
    {
      if pos + size > a.Length {
        return Err(ReadPastEnd);
      }
      assert a[pos..][..size] == a[pos..pos + size] && a[pos..][size..] == a[pos + size..];
      PrependNext(v, a[pos..], size);
      v := v + [a[pos..pos + size]];
      pos := pos + size;
    }
    assert a[pos..] == [] && v + [] == v;
    r := Ok(v);
  }

  function Prepend(v: seq<Element>, r: Result<seq<Element>, Failure>): Result<seq<Element>, Failure> {
    match r
    case Ok(rest) => Ok(v + rest)
    case Err(e) => Err(e)
  }

  lemma PrependNil(r: Result<seq<Element>, Failure>)
    ensures Prepend([], r) == r
  {
    if r.Ok? {
      assert [] + r.value == r.value;
    }
  }

  lemma PrependNext(v: seq<Element>, bytes: seq<byte>, size: nat)
    requires 0 < size <= |bytes|
    ensures Prepend(v, Split(bytes, size)) == Prepend(v + [bytes[..size]], Split(bytes[size..], size))
  {
    match Split(bytes[size..], size)
    case Ok(rest) => assert v + ([bytes[..size]] + rest) == v + [bytes[..size]] + rest;
    case Err(_) =>
  }

  // ------------------------------------------------------------------ round trip

  lemma {:induction false} ConcatSnoc(v: seq<Element>, e: Element)
    ensures Concat(v + [e]) == Concat(v) + e
  {
    if v == [] {
      assert Concat([e]) == e;
    } else {
      assert (v + [e])[1..] == v[1..] + [e];
      ConcatSnoc(v[1..], e);
    }
  }

  lemma {:induction false} SplitOfConcat(v: seq<Element>, size: nat)
    requires size > 0 && OfSize(v, size)
    ensures Split(Concat(v), size) == Ok(v)
  {
    if v != [] {
      assert Concat(v)[..size] == v[0] && Concat(v)[size..] == Concat(v[1..]);
      SplitOfConcat(v[1..], size);
      assert [v[0]] + v[1..] == v;
    }
  }

  // Reading an array back is defined exactly when its size is a multiple of the element
  // size, and then nothing is lost the other way round either.
  lemma {:induction false} SplitIsExact(bytes: seq<byte>, size: nat)
    requires size > 0
    ensures Split(bytes, size).Ok? <==> |bytes| % size == 0
    ensures Split(bytes, size).Ok? ==>
      var v := Split(bytes, size).value;
      OfSize(v, size) && Concat(v) == bytes && |v| == |bytes| / size
    decreases |bytes|
  {
    if |bytes| >= size {
      SplitIsExact(bytes[size..], size);
      OneLess(|bytes|, size);
    }
  }

  lemma OneLess(n: nat, size: nat)
    requires 0 < size <= n
    ensures (n - size) % size == n % size && n / size == (n - size) / size + 1
  {
    MulSucc((n - size) / size, size);
    Quotient(n, size, (n - size) / size + 1, (n - size) % size);
  }

  // The counter wraps: what comes back is the vector exactly when every element from
  // index 2^32 on repeats the one that much further down; so always for a vector of no
  // more than 2^32 elements.
  lemma VectorRoundTrip(v: seq<Element>, size: nat)
    requires size > 0 && OfSize(v, size)
    ensures Split(Concat(AsIndexed(v)), size) == Ok(v) <==> (forall i: nat :: RepeatsAt(v, i))
    ensures |v| <= UINT_RANGE ==> Split(Concat(AsIndexed(v)), size) == Ok(v)
  {
    SplitOfConcat(AsIndexed(v), size);
    IndexedIffRepeats(v);
    if |v| <= UINT_RANGE {
      forall i: nat ensures RepeatsAt(v, i) {
      }
    }
  }

  predicate RepeatsAt(v: seq<Element>, i: nat) {
    i < |v| ==> v[i] == v[i % UINT_RANGE]
  }

  lemma IndexedIffRepeats(v: seq<Element>)
    ensures AsIndexed(v) == v <==> forall i: nat :: RepeatsAt(v, i)
  {
    var w := AsIndexed(v);
    if w == v {
      forall i: nat ensures RepeatsAt(v, i) {
        assert i < |v| ==> w[i] == v[i];
      }
    } else if forall i: nat :: RepeatsAt(v, i) {
      var i :| 0 <= i < |v| && w[i] != v[i];
      assert RepeatsAt(v, i);
    }
  }

  // ------------------------------------------- the round trip with copies in between

  datatype Where = InArray(v: nat) | InArgument(k: nat)

  function BytesAt(s: State, x: Where): Option<seq<byte>> {
    match x
    case InArray(v) => if Local(v) in s.arrays then Some(Content(s, Local(v))) else None
    case InArgument(k) => if k in s.args && s.args[k].Array? then Some(Content(s, Heap(s.args[k].a))) else None
  }

  // The operation that copies from one place to the other: a constructor if the target
  // is new, else an assignment.  An argument made into an array_t is a dispatcher's
  // reading of it.
  function Hop(s: State, x: Where, y: Where): Op {
    match (x, y)
    case (InArray(v), InArray(w)) => if Local(w) in s.arrays then AssignArray(w, v) else CopyArray(w, v)
    case (InArray(v), InArgument(k)) => NewArray(k, v)
    case (InArgument(k), InArgument(j)) => if j in s.args then AssignArgument(j, k) else CopyArgument(j, k)
    case (InArgument(k), InArray(v)) => FromArgument(v, k)
  }

  function Carry(s: State, x: Where, path: seq<Where>): Option<State>
    decreases |path|
  {
    if path == [] then Some(s)
    else if Enabled(s, Hop(s, x, path[0])) then Carry(Step(s, Hop(s, x, path[0])), path[0], path[1..])
    else None
  }

  lemma HopKeepsBytes(s: State, view: View, x: Where, y: Where)
    requires Inv(s) && Shows(s, view) && BytesAt(s, x).Some? && Enabled(s, Hop(s, x, y))
    ensures SpecEnabled(view, Hop(s, x, y))
    ensures var t := Step(s, Hop(s, x, y));
      Inv(t) && Shows(t, SpecStep(view, Hop(s, x, y))) && BytesAt(t, y) == BytesAt(s, x)
  {
    var op := Hop(s, x, y);
    StepRefines(s, view, op);
    var t, after := Step(s, op), SpecStep(view, op);
    match x {
      case InArray(v) => assert ShowsLocal(s, view, v);
      case InArgument(k) => assert ShowsArgument(s, view, k);
    }
    match y {
      case InArray(v) => assert ShowsLocal(t, after, v);
      case InArgument(k) => assert ShowsArgument(t, after, k);
    }
  }

  lemma {:induction false} CarryKeepsBytes(s: State, view: View, x: Where, path: seq<Where>)
    requires Inv(s) && Shows(s, view) && BytesAt(s, x).Some? && Carry(s, x, path).Some?
    ensures BytesAt(Carry(s, x, path).value, if path == [] then x else path[|path| - 1]) == BytesAt(s, x)
    decreases |path|
  {
    if path != [] {
      var op := Hop(s, x, path[0]);
      HopKeepsBytes(s, view, x, path[0]);
      CarryKeepsBytes(Step(s, op), SpecStep(view, op), path[0], path[1..]);
    }
  }

  // What puts a vector into array_t i: its constructor or its assignment.
  predicate Fills(op: Op, i: nat, v: seq<Element>) {
    op == FromBytes(i, Concat(AsIndexed(v))) || op == AssignBytes(i, Concat(AsIndexed(v)))
  }

  // A vector made into an array_t or assigned to one, copied and assigned along any path
  // of array_t and argument_t objects, and read back from the array_t at its end, is the
  // same vector exactly when it is without the copies.
  lemma RoundTripThroughCopies(s: State, view: View, v: seq<Element>, size: nat, op: Op, i: nat, path: seq<Where>,
                               j: nat)
    requires Inv(s) && Shows(s, view) && size > 0 && OfSize(v, size)
    requires Fills(op, i, v) && Enabled(s, op) && Carry(Step(s, op), InArray(i), path).Some?
    requires (if path == [] then InArray(i) else path[|path| - 1]) == InArray(j)
    ensures Local(j) in Carry(Step(s, op), InArray(i), path).value.arrays
    ensures Split(Content(Carry(Step(s, op), InArray(i), path).value, Local(j)), size) == Ok(v)
            <==> (forall e: nat :: RepeatsAt(v, e))
  {
    StepRefines(s, view, op);
    var s1, view1 := Step(s, op), SpecStep(view, op);
    assert ShowsLocal(s1, view1, i);
    CarryKeepsBytes(s1, view1, InArray(i), path);
    VectorRoundTrip(v, size);
  }
}
