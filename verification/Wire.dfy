// Argument values on their way: C++ values with their dynamic type, the wl_argument
// union, and the two conversions between them (argument_t in src/wayland-util.cpp
// and the letter cases of the dispatchers).

module Wire {
  import opened Common
  import opened Protocol
  import opened Scanner

  type int32 = i: int | -0x8000_0000 <= i < 0x8000_0000
  type uint32 = u: int | 0 <= u < 0x1_0000_0000
  type byte = b: int | 0 <= b < 0x100

  // Two's complement casts between the 32-bit types.
  function ToInt32(u: uint32): int32 {
    if u < 0x8000_0000 then u else u - 0x1_0000_0000
  }

  function ToUint32(i: int32): uint32 {
    if i >= 0 then i else i + 0x1_0000_0000
  }

  // What a handle refers to: nothing, a known object, or the resource a dispatcher
  // has just created for a new id.
  datatype Referent = Nothing | Known(id: nat) | Fresh(id: nat, iface: string)

  // A C++ value together with its static type, which is also the dynamic type an
  // `any` holding it remembers.
  datatype Value =
    | VInt32(i: int32)
    | VUint32(u: uint32)
    | VDouble(d: real)
    | VString(s: string)
    | VArray(bytes: seq<byte>)
    | VBase(server: bool, referent: Referent)
    | VClass(iface: string, referent: Referent)
    | VEnum(enumIface: string, enumName: string, bits: uint32)
    | VPointer(object: Option<nat>)      // wl_object*
    | VNullptr                           // std::nullptr_t
    | VArgument(argument: WlArgument)    // argument_t, as argument_t::fd returns it

  function TypeOf(v: Value): CppType {
    match v
    case VInt32(_) => Int32
    case VUint32(_) => Uint32
    case VDouble(_) => Double
    case VString(_) => StdString
    case VArray(_) => ArrayT
    case VBase(server, _) => BaseT(server)
    case VClass(iface, _) => ClassT(iface)
    case VEnum(iface, name, _) => EnumT(iface, name)
    case VPointer(_) => Verbatim("wl_object*")
    case VNullptr => Verbatim("std::nullptr_t")
    case VArgument(_) => Verbatim("argument_t")
  }

  // wl_argument: which member of the union was written, and with what.
  datatype WlArgument =
    | I(i: int32) | U(u: uint32) | F(f: int32) | S(s: Option<string>)
    | O(o: Option<nat>) | N(n: nat) | A(a: Option<seq<byte>>) | H(h: int32)

  // The signature letter a union member belongs to.
  function MemberLetter(w: WlArgument): char {
    match w
    case I(_) => 'i'
    case U(_) => 'u'
    case F(_) => 'f'
    case S(_) => 's'
    case O(_) => 'o'
    case N(_) => 'n'
    case A(_) => 'a'
    case H(_) => 'h'
  }

  // ------------------------------------------------------- libwayland's helpers

  // wl_fixed_from_double and wl_fixed_to_double: wl_fixed_t is a 32-bit integer that
  // counts 1/256ths.  The product is rounded to the nearest integer, ties to even, and
  // its low 32 bits are kept.
  function FixedFromDouble(d: real): int32 {
    Low32(Nearest(d * 256.0))
  }

  function Nearest(x: real): int {
    var below := x.Floor;
    var rest := x - below as real;
    if rest < 0.5 || (rest == 0.5 && below % 2 == 0) then below else below + 1
  }

  function Low32(i: int): int32 {
    ToInt32(i % 0x1_0000_0000)
  }

  function FixedToDouble(f: int32): real {
    f as real / 256.0
  }

  // The values wl_fixed_t has: multiples of 1/256 from -2^23 up to, but not, 2^23.
  predicate ExactFixed(d: real) {
    d * 256.0 == (d * 256.0).Floor as real && -8388608.0 <= d < 8388608.0
  }

  lemma FixedRoundTrip(d: real)
    ensures FixedToDouble(FixedFromDouble(d)) == d <==> ExactFixed(d)
  {
    var scaled := d * 256.0;
    var f := FixedFromDouble(d);
    if ExactFixed(d) {
      assert Nearest(scaled) == scaled.Floor && -0x8000_0000 <= scaled.Floor < 0x8000_0000;
      assert f as real == scaled;
    }
    if FixedToDouble(f) == d {
      assert f as real == scaled;
      assert scaled.Floor == f;
    }
  }

  // A double in range becomes the nearest value the format has, and halfway between two
  // the even one.
  lemma FixedIsNearest(d: real)
    requires -8388608.0 - 1.0 / 512.0 <= d < 8388608.0 - 1.0 / 512.0
    ensures var error := FixedToDouble(FixedFromDouble(d)) - d;
      && -1.0 / 512.0 <= error <= 1.0 / 512.0
      && (error == 1.0 / 512.0 || error == -1.0 / 512.0 ==> FixedFromDouble(d) % 2 == 0)
  {
    var scaled := d * 256.0;
    var n := Nearest(scaled);
    assert -0.5 <= n as real - scaled <= 0.5;
    assert -0x8000_0000 <= n < 0x8000_0000;
    assert FixedFromDouble(d) == n;
  }

  // 2^23 itself wraps around.
  lemma FixedWraps()
    ensures FixedToDouble(FixedFromDouble(8388608.0)) == -8388608.0
  {
    assert Nearest(8388608.0 * 256.0) == 0x8000_0000;
  }

  // What is left of a string that travels as a C string.
  function CString(s: string): string {
    if s == [] || s[0] == '\0' then [] else [s[0]] + CString(s[1..])
  }

  lemma {:induction false} CStringRoundTrip(s: string)
    ensures CString(s) == s <==> '\0' !in s
  {
    if s != [] && s[0] != '\0' {
      CStringRoundTrip(s[1..]);
      assert s == [s[0]] + s[1..];
      if CString(s) == s {
        assert CString(s)[1..] == s[1..];
      }
    }
  }

  // ---------------------------------------------------------------- argument_t

  // The argument_t constructor overload resolution picks for a value's type; the
  // other types have none.
  function ArgumentOf(v: Value): Option<WlArgument> {
    match v
    case VInt32(i) => Some(I(i))
    case VUint32(u) => Some(U(u))
    case VDouble(d) => Some(F(FixedFromDouble(d)))
    case VString(s) => Some(S(Some(CString(s))))
    case VArray(bytes) => Some(A(Some(bytes)))
    case VPointer(p) => Some(O(p))
    case VNullptr => Some(N(0))
    case VArgument(w) => Some(w)
    case VBase(_, _) => None
    case VClass(_, _) => None
    case VEnum(_, _, _) => None
  }

  // --------------------------------------------------------- running the stub

  // The interface and version parameters of a request with an untyped new_id.
  datatype Binding = Binding(name: string, version: uint32)

  // c_ptr() of a handle; stubs are given handles to existing objects or none.
  function PointerOf(r: Referent): Option<nat> {
    match r
    case Nothing => None
    case Known(id) => Some(id)
    case Fresh(id, _) => Some(id)
  }

  // A value the compiler accepts for an argument's parameter; handles passed to a stub
  // refer to existing objects or to none.
  predicate ParameterOf(a: Argument, server: bool, p: Value) {
    && TypeOf(p) == PrintType(a, server)
    && (p.VBase? || p.VClass? ==> !p.referent.Fresh?)
  }

  // A value for every declared argument; entries at new_id positions are not parameters
  // and are ignored.
  predicate ParametersOf(m: Message, server: bool, params: seq<Value>) {
    && |params| == |m.args|
    && (forall i | 0 <= i < |params| && m.args[i].typ != NewId :: ParameterOf(m.args[i], server, params[i]))
  }

  function EvalStep(step: EncodeStep, params: seq<Value>, binding: Binding): Option<Value> {
    match step
    case InterfaceName => Some(VString(binding.name))
    case InterfaceVersion => Some(VUint32(binding.version))
    case NullPointer => Some(VNullptr)
    case FdOf(i) => if i < |params| && params[i].VInt32? then Some(VArgument(H(params[i].i))) else None
    case ObjectOf(i) =>
      if i < |params| && params[i].VBase? then Some(VPointer(PointerOf(params[i].referent)))
      else if i < |params| && params[i].VClass? then Some(VPointer(PointerOf(params[i].referent)))
      else None
    case CastTo(i, wire) =>
      if i < |params| && params[i].VEnum? then
        Some(if wire == Int32 then VInt32(ToInt32(params[i].bits)) else VUint32(params[i].bits))
      else None
    case Plain(i) => if i < |params| then Some(params[i]) else None
  }

  // What a stub hands to libwayland; None if some argument expression has no
  // conversion to argument_t.
  function Encode(steps: seq<EncodeStep>, params: seq<Value>, binding: Binding): Option<seq<WlArgument>> {
    if steps == [] then Some([])
    else
      var front := Encode(steps[..|steps| - 1], params, binding);
      var value := EvalStep(steps[|steps| - 1], params, binding);
      if front.None? || value.None? || ArgumentOf(value.value).None? then None
      else Some(front.value + [ArgumentOf(value.value).value])
  }

  // The loop of post_event_array, queue_event_array and marshal_single: one union per
  // argument_t.
  method CopyArguments(v: seq<WlArgument>) returns (args: array<WlArgument>)
    ensures fresh(args) && args[..] == v
  {
    args := new WlArgument[|v|](_ => N(0));
    for c := 0 to |v|
      invariant args[..c] == v[..c]
    {
      args[c] := v[c];
    }
  }
}
