// Bitfield enums: the width the generator computes for an enum, and the operators of
// the class template instantiated with it.

module Bitfield {

  function Pow2(n: nat): (p: nat)
    ensures p > 0
  {
    if n == 0 then 1 else 2 * Pow2(n - 1)
  }

  lemma {:induction false} Pow2Grows(m: nat, n: nat)
    requires m < n
    ensures 2 * Pow2(m) <= Pow2(n)
  {
    if m < n - 1 {
      Pow2Grows(m, n - 1);
    }
  }

  // ---------------------------------------------------------------------- width

  // static_cast<uint32_t>(std::log2(n))
  function FloorLog2(n: nat): nat
    requires n > 0
  {
    if n == 1 then 0 else 1 + FloorLog2(n / 2)
  }

  lemma {:induction false} FloorLog2Bounds(n: nat)
    requires n > 0
    ensures Pow2(FloorLog2(n)) <= n < Pow2(FloorLog2(n) + 1)
  {
    if n > 1 {
      FloorLog2Bounds(n / 2);
    }
  }

  predicate AllFit(values: seq<nat>, width: nat) {
    forall i | 0 <= i < |values| :: InRange(width, values[i])
  }

  // The width accumulated while the entries of an enum are parsed is the least in
  // which they all fit.
  method EnumWidth(values: seq<nat>) returns (width: nat)
    requires forall i | 0 <= i < |values| :: values[i] > 0
    ensures AllFit(values, width)
    ensures forall w: nat :: AllFit(values, w) ==> width <= w
  {
    width := 0;
    ghost var largest := 0;
    for n := 0 to |values|
      invariant AllFit(values[..n], width)
      invariant width > 0 ==> largest < n && Pow2(width - 1) <= values[largest]
    {
      var tmp := FloorLog2(values[n]) + 1;
      FloorLog2Bounds(values[n]);
      if tmp < width {
        Pow2Grows(tmp, width);
      }
      if width < tmp {
        Pow2Grows(width, tmp);
        width, largest := tmp, n;
      }
      assert values[..n + 1] == values[..n] + [values[n]];
    }
    assert values[..|values|] == values;
    forall w: nat | AllFit(values, w) ensures width <= w {
      if w + 1 < width {
        Pow2Grows(w, width - 1);
      }
    }
  }

  // --------------------------------------------------------------- bits of numbers

  const BITS: nat := 32

  function Bit(v: nat, i: nat): bool {
    if i == 0 then v % 2 == 1 else Bit(v / 2, i - 1)
  }

  datatype Gate = OrGate | AndGate | XorGate | NotGate

  function Apply(gate: Gate, x: bool, y: bool): bool {
    match gate
    case OrGate => x || y
    case AndGate => x && y
    case XorGate => x != y
    case NotGate => !x
  }

  // A bitwise operator on the lowest n bits.
  function Combine(gate: Gate, n: nat, a: nat, b: nat): nat {
    if n == 0 then 0
    else 2 * Combine(gate, n - 1, a / 2, b / 2) + (if Apply(gate, a % 2 == 1, b % 2 == 1) then 1 else 0)
  }

  lemma {:induction false} BitOfCombine(gate: Gate, n: nat, a: nat, b: nat, i: nat)
    ensures Bit(Combine(gate, n, a, b), i) <==> i < n && Apply(gate, Bit(a, i), Bit(b, i))
  {
    if n > 0 && i > 0 {
      BitOfCombine(gate, n - 1, a / 2, b / 2, i - 1);
    } else if n == 0 {
      NoBits(i);
    }
  }

  lemma {:induction false} NoBits(i: nat)
    ensures !Bit(0, i)
  {
    if i > 0 {
      NoBits(i - 1);
    }
  }

  lemma {:induction false} SameBits(a: nat, b: nat)
    requires forall i: nat :: Bit(a, i) == Bit(b, i)
    ensures a == b
  {
    assert Bit(a, 0) == Bit(b, 0);
    if a > 0 || b > 0 {
      forall i: nat ensures Bit(a / 2, i) == Bit(b / 2, i) {
        assert Bit(a, i + 1) == Bit(b, i + 1);
      }
      SameBits(a / 2, b / 2);
    }
  }

  // A number is below 2^w exactly when it has no bit from w on.
  lemma HighBits(w: nat, a: nat)
    ensures a < Pow2(w) <==> forall i: nat :: i >= w ==> !Bit(a, i)
  {
    if a < Pow2(w) {
      forall i: nat | i >= w ensures !Bit(a, i) {
        NoHighBit(w, a, i);
      }
    } else {
      HighBit(w, a);
    }
  }

  lemma {:induction false} NoHighBit(w: nat, a: nat, i: nat)
    requires a < Pow2(w) && i >= w
    ensures !Bit(a, i)
  {
    if w == 0 {
      NoBits(i);
    } else {
      NoHighBit(w - 1, a / 2, i - 1);
    }
  }

  lemma {:induction false} HighBit(w: nat, a: nat)
    requires a >= Pow2(w)
    ensures exists i: nat :: i >= w && Bit(a, i)
  {
    if w == 0 {
      SomeBit(a);
    } else {
      HighBit(w - 1, a / 2);
      var i: nat :| i >= w - 1 && Bit(a / 2, i);
      assert Bit(a, i + 1);
    }
  }

  lemma {:induction false} SomeBit(a: nat)
    requires a > 0
    ensures exists i: nat :: Bit(a, i)
  {
    if a % 2 == 1 {
      assert Bit(a, 0);
    } else {
      SomeBit(a / 2);
      var i: nat :| Bit(a / 2, i);
      assert Bit(a, i + 1);
    }
  }

  lemma {:induction false} BitOfMask(w: nat, i: nat)
    ensures Bit(Mask(w), i) <==> i < w
  {
    if w == 0 {
      NoBits(i);
    } else if i > 0 {
      assert Mask(w) / 2 == Mask(w - 1);
      BitOfMask(w - 1, i - 1);
    }
  }

  // ------------------------------------------------------------------ operators
  // w is the template parameter; the values are 32 bits wide.

  function Mask(w: nat): nat {
    Pow2(w) - 1
  }

  function Or(a: nat, b: nat): nat {
    Combine(OrGate, BITS, a, b)
  }

  function And(a: nat, b: nat): nat {
    Combine(AndGate, BITS, a, b)
  }

  function Xor(w: nat, a: nat, b: nat): nat {
    And(Combine(XorGate, BITS, a, b), Mask(w))
  }

  function Not(w: nat, a: nat): nat {
    And(Combine(NotGate, BITS, a, 0), Mask(w))
  }

  predicate InRange(w: nat, a: nat) {
    a < Pow2(w)
  }

  // What each operator does to bit i.
  lemma OperatorBits(w: nat, a: nat, b: nat, i: nat)
    requires w < BITS
    ensures Bit(Or(a, b), i) <==> i < BITS && (Bit(a, i) || Bit(b, i))
    ensures Bit(And(a, b), i) <==> i < BITS && Bit(a, i) && Bit(b, i)
    ensures Bit(Xor(w, a, b), i) <==> i < w && Bit(a, i) != Bit(b, i)
    ensures Bit(Not(w, a), i) <==> i < w && !Bit(a, i)
  {
    BitOfCombine(OrGate, BITS, a, b, i);
    BitOfCombine(AndGate, BITS, a, b, i);
    BitOfCombine(XorGate, BITS, a, b, i);
    BitOfCombine(NotGate, BITS, a, 0, i);
    BitOfCombine(AndGate, BITS, Combine(XorGate, BITS, a, b), Mask(w), i);
    BitOfCombine(AndGate, BITS, Combine(NotGate, BITS, a, 0), Mask(w), i);
    BitOfMask(w, i);
  }

  lemma RangeBit(w: nat, a: nat, i: nat)
    requires InRange(w, a) && i >= w
    ensures !Bit(a, i)
  {
    HighBits(w, a);
  }

  lemma JoinsInRange(w: nat, a: nat, b: nat)
    requires w < BITS && InRange(w, a) && InRange(w, b)
    ensures InRange(w, Or(a, b)) && InRange(w, And(a, b))
  {
    forall i: nat | i >= w ensures !Bit(Or(a, b), i) && !Bit(And(a, b), i) {
      OperatorBits(w, a, b, i);
      RangeBit(w, a, i);
      RangeBit(w, b, i);
    }
    HighBits(w, Or(a, b));
    HighBits(w, And(a, b));
  }

  lemma MaskedInRange(w: nat, a: nat, b: nat)
    requires w < BITS
    ensures InRange(w, Xor(w, a, b)) && InRange(w, Not(w, a))
  {
    forall i: nat | i >= w ensures !Bit(Xor(w, a, b), i) && !Bit(Not(w, a), i) {
      OperatorBits(w, a, b, i);
    }
    HighBits(w, Xor(w, a, b));
    HighBits(w, Not(w, a));
  }

  // The operators lead from values in range to values in range; xor and complement do
  // so from any.
  lemma Closed(w: nat, a: nat, b: nat)
    requires w < BITS
    ensures InRange(w, a) && InRange(w, b) ==> InRange(w, Or(a, b)) && InRange(w, And(a, b))
    ensures InRange(w, Xor(w, a, b)) && InRange(w, Not(w, a))
  {
    MaskedInRange(w, a, b);
    if InRange(w, a) && InRange(w, b) {
      JoinsInRange(w, a, b);
    }
  }

  function OrAll(values: seq<nat>): nat {
    if values == [] then 0 else Or(values[0], OrAll(values[1..]))
  }

  // Any combination of the entries of an enum stays within the enum's width.
  lemma {:induction false} CombinationsFit(values: seq<nat>, w: nat)
    requires w < BITS && AllFit(values, w)
    ensures InRange(w, OrAll(values))
  {
    if values != [] {
      CombinationsFit(values[1..], w);
      Closed(w, values[0], OrAll(values[1..]));
    }
  }

  // Complementing twice is the identity exactly on the values in range.
  lemma DoubleComplement(w: nat, a: nat)
    requires w < BITS
    ensures Not(w, Not(w, a)) == a <==> InRange(w, a)
  {
    var twice := Not(w, Not(w, a));
    forall i: nat ensures Bit(twice, i) <==> i < w && Bit(a, i) {
      OperatorBits(w, a, 0, i);
      OperatorBits(w, Not(w, a), 0, i);
    }
    Closed(w, Not(w, a), 0);
    if InRange(w, a) {
      forall i: nat ensures Bit(twice, i) == Bit(a, i) {
        if i >= w { RangeBit(w, a, i); }
      }
      SameBits(twice, a);
    }
  }

  lemma DeMorgan(w: nat, a: nat, b: nat)
    requires w < BITS
    ensures Not(w, Or(a, b)) == And(Not(w, a), Not(w, b))
    ensures Not(w, And(a, b)) == Or(Not(w, a), Not(w, b))
  {
    forall i: nat
      ensures Bit(Not(w, Or(a, b)), i) == Bit(And(Not(w, a), Not(w, b)), i)
      ensures Bit(Not(w, And(a, b)), i) == Bit(Or(Not(w, a), Not(w, b)), i)
    {
      OperatorBits(w, a, b, i);
      OperatorBits(w, b, a, i);
      OperatorBits(w, Or(a, b), 0, i);
      OperatorBits(w, And(a, b), 0, i);
      OperatorBits(w, Not(w, a), Not(w, b), i);
    }
    SameBits(Not(w, Or(a, b)), And(Not(w, a), Not(w, b)));
    SameBits(Not(w, And(a, b)), Or(Not(w, a), Not(w, b)));
  }

  lemma XorIsDifference(w: nat, a: nat, b: nat)
    requires w < BITS
    ensures Xor(w, a, b) == And(Or(a, b), Not(w, And(a, b)))
  {
    forall i: nat ensures Bit(Xor(w, a, b), i) == Bit(And(Or(a, b), Not(w, And(a, b))), i) {
      OperatorBits(w, a, b, i);
      OperatorBits(w, And(a, b), 0, i);
      OperatorBits(w, Or(a, b), Not(w, And(a, b)), i);
    }
    SameBits(Xor(w, a, b), And(Or(a, b), Not(w, And(a, b))));
  }

  // Xor undoes itself, and leaves a value alone when the other is none, exactly on the
  // values in range.
  lemma XorUndoes(w: nat, a: nat, b: nat)
    requires w < BITS
    ensures Xor(w, Xor(w, a, b), b) == a <==> InRange(w, a)
    ensures Xor(w, a, 0) == a <==> InRange(w, a)
  {
    var once, none := Xor(w, Xor(w, a, b), b), Xor(w, a, 0);
    forall i: nat ensures (Bit(once, i) <==> i < w && Bit(a, i)) && (Bit(none, i) <==> i < w && Bit(a, i)) {
      OperatorBits(w, a, b, i);
      OperatorBits(w, a, 0, i);
      OperatorBits(w, Xor(w, a, b), b, i);
      NoBits(i);
    }
    Closed(w, Xor(w, a, b), b);
    Closed(w, a, 0);
    if InRange(w, a) {
      forall i: nat ensures Bit(once, i) == Bit(a, i) && Bit(none, i) == Bit(a, i) {
        if i >= w { RangeBit(w, a, i); }
      }
      SameBits(once, a);
      SameBits(none, a);
    }
  }

  // The remaining laws that make the values in range a Boolean algebra.
  lemma Complements(w: nat, a: nat)
    requires w < BITS && InRange(w, a)
    ensures Or(a, Not(w, a)) == Mask(w)
    ensures And(a, Not(w, a)) == 0
  {
    forall i: nat
      ensures Bit(Or(a, Not(w, a)), i) == Bit(Mask(w), i)
      ensures Bit(And(a, Not(w, a)), i) == Bit(0, i)
    {
      OperatorBits(w, a, Not(w, a), i);
      BitOfMask(w, i);
      NoBits(i);
      if i >= w { RangeBit(w, a, i); }
    }
    SameBits(Or(a, Not(w, a)), Mask(w));
    SameBits(And(a, Not(w, a)), 0);
  }

  lemma Distributes(a: nat, b: nat, c: nat)
    ensures And(a, Or(b, c)) == Or(And(a, b), And(a, c))
    ensures Or(a, And(b, c)) == And(Or(a, b), Or(a, c))
  {
    forall i: nat
      ensures Bit(And(a, Or(b, c)), i) == Bit(Or(And(a, b), And(a, c)), i)
      ensures Bit(Or(a, And(b, c)), i) == Bit(And(Or(a, b), Or(a, c)), i)
    {
      OperatorBits(0, b, c, i);
      OperatorBits(0, a, b, i);
      OperatorBits(0, a, c, i);
      OperatorBits(0, a, Or(b, c), i);
      OperatorBits(0, a, And(b, c), i);
      OperatorBits(0, And(a, b), And(a, c), i);
      OperatorBits(0, Or(a, b), Or(a, c), i);
    }
    SameBits(And(a, Or(b, c)), Or(And(a, b), And(a, c)));
    SameBits(Or(a, And(b, c)), And(Or(a, b), Or(a, c)));
  }

  // The server's fd_event_mask_t has a width of 2, too small for two of its constants
  // (1, 2, 4 and 8 in wayland-server-core.h): those do not survive a double complement
  // or an xor with nothing, and the complement of another does not contain them.
  const FD_EVENT_WIDTH: nat := 2

  lemma FdEventMaskTooNarrow(event: nat)
    requires event in {1, 2, 4, 8}
    ensures InRange(FD_EVENT_WIDTH, event) <==> event in {1, 2}
    ensures Not(FD_EVENT_WIDTH, Not(FD_EVENT_WIDTH, event)) == event <==> event in {1, 2}
    ensures Xor(FD_EVENT_WIDTH, event, 0) == event <==> event in {1, 2}
    ensures event in {4, 8} ==> And(Not(FD_EVENT_WIDTH, 1), event) != event
  {
    assert Pow2(FD_EVENT_WIDTH) == 4;
    DoubleComplement(FD_EVENT_WIDTH, event);
    XorUndoes(FD_EVENT_WIDTH, event, 0);
    if event in {4, 8} {
      HighBits(FD_EVENT_WIDTH, event);
      var i: nat :| i >= FD_EVENT_WIDTH && Bit(event, i);
      OperatorBits(FD_EVENT_WIDTH, 1, 0, i);
      OperatorBits(FD_EVENT_WIDTH, Not(FD_EVENT_WIDTH, 1), event, i);
    }
  }

  // ---------------------------------------------------------- imperative form

  // A variable of type bitfield<width, id>: the compound operators assign the result
  // of the plain ones.
  class Variable {
    var v: nat
    const width: nat

    constructor (width: nat, value: nat)
      ensures this.width == width && v == value
    {
      this.width, v := width, value;
    }

    method Assign(b: Variable)
      modifies this`v
      ensures v == old(b.v)
    {
      if this != b {
        v := b.v;
      }
    }

    method OrAssign(b: Variable)
      requires width == b.width < BITS
      modifies this`v
      ensures forall i: nat :: Bit(v, i) <==> i < BITS && (Bit(old(v), i) || Bit(old(b.v), i))
      ensures InRange(width, old(v)) && InRange(width, old(b.v)) ==> InRange(width, v)
    {
      ghost var a, c := v, b.v;
      Closed(width, v, b.v);
      var r := new Variable(width, Or(v, b.v));
      Assign(r);
      forall i: nat ensures Bit(v, i) <==> i < BITS && (Bit(a, i) || Bit(c, i)) {
        OperatorBits(width, a, c, i);
      }
    }

    method AndAssign(b: Variable)
      requires width == b.width < BITS
      modifies this`v
      ensures forall i: nat :: Bit(v, i) <==> i < BITS && Bit(old(v), i) && Bit(old(b.v), i)
      ensures InRange(width, old(v)) && InRange(width, old(b.v)) ==> InRange(width, v)
    {
      ghost var a, c := v, b.v;
      Closed(width, v, b.v);
      var r := new Variable(width, And(v, b.v));
      Assign(r);
      forall i: nat ensures Bit(v, i) <==> i < BITS && Bit(a, i) && Bit(c, i) {
        OperatorBits(width, a, c, i);
      }
    }

    method XorAssign(b: Variable)
      requires width == b.width < BITS
      modifies this`v
      ensures forall i: nat :: Bit(v, i) <==> i < width && Bit(old(v), i) != Bit(old(b.v), i)
      ensures InRange(width, v)
    {
      ghost var a, c := v, b.v;
      Closed(width, v, b.v);
      var r := new Variable(width, Xor(width, v, b.v));
      Assign(r);
      forall i: nat ensures Bit(v, i) <==> i < width && Bit(a, i) != Bit(c, i) {
        OperatorBits(width, a, c, i);
      }
    }
  }
}
