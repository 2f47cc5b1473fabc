// The scanner's printers (scanner/scanner.cpp), producing the abstract syntax of the
// generated code instead of its text: a signature string, a table of interfaces, a
// stub as a list of argument expressions, and a dispatcher case as a list of
// argument conversions.

module Scanner {
  import opened Common
  import opened Protocol

  // The C++ types the generated code names.  `int` and `int32_t` are the same type
  // (a file descriptor argument is printed as the former), so they share a name here.
  datatype CppType =
    | Int32 | Uint32 | Double | StdString | ArrayT
    | BaseT(server: bool)                   // resource_t or proxy_t
    | ClassT(iface: string)                 // the generated class of an interface
    | EnumT(iface: string, name: string)    // the generated enum class or bitfield
    | Verbatim(text: string)

  datatype GeneratorError = EnumOnWrongType

  function PrintType(a: Argument, server: bool): CppType {
    if a.iface != "" then ClassT(a.iface)
    else if a.enumIface != "" then EnumT(a.enumIface, a.enumName)
    else match a.typ
      case Int => Int32
      case Uint => Uint32
      case Fixed => Double
      case Text => StdString
      case Object => BaseT(server)
      case NewId => BaseT(server)
      case Fd => Int32
      case Array => ArrayT
      case Other(text) => Verbatim(text)
  }

  function PrintEnumWireType(a: Argument): Result<CppType, GeneratorError> {
    match a.typ
    case Int => Ok(Int32)
    case Uint => Ok(Uint32)
    case _ => Err(EnumOnWrongType)
  }

  function PrintShort(t: ArgType): char {
    match t
    case Int => 'i'
    case Uint => 'u'
    case Fixed => 'f'
    case Text => 's'
    case Object => 'o'
    case NewId => 'n'
    case Array => 'a'
    case Fd => 'h'
    case Other(_) => 'x'
  }

  // --------------------------------------------------------------- signatures

  function Digit(d: nat): char
    requires d < 10
  {
    "0123456789"[d]
  }

  // A positive number as `<<` prints it.
  function Decimal(n: nat): string {
    if n < 10 then [Digit(n)] else Decimal(n / 10) + [Digit(n % 10)]
  }

  // The letters of one argument: an untyped new_id also carries its interface's name
  // and version.
  function ArgumentLetters(a: Argument): string {
    (if UntypedNewId(a) then "su" else "") + [PrintShort(a.typ)]
  }

  function ArgumentSignature(a: Argument): string {
    (if a.allowNull then "?" else "") + ArgumentLetters(a)
  }

  function ArgumentsSignature(args: seq<Argument>): string {
    if args == [] then ""
    else ArgumentsSignature(args[..|args| - 1]) + ArgumentSignature(args[|args| - 1])
  }

  function Signature(m: Message): string {
    (if m.since > 1 then Decimal(m.since) else "") + ArgumentsSignature(m.args)
  }

  // The signature loop of print_interface_body.
  method PrintSignature(m: Message) returns (ss: string)
    ensures ss == Signature(m)
  {
    ss := "";
    if m.since > 1 {
      ss := ss + Decimal(m.since);
    }
    ghost var prefix := ss;
    for i := 0 to |m.args|
      invariant ss == prefix + ArgumentsSignature(m.args[..i])
    {
      var a := m.args[i];
      ghost var before := ss;
      if a.allowNull {
        ss := ss + "?";
      }
      if a.typ == NewId && a.iface == "" {
        ss := ss + "su";
      }
      ss := ss + [PrintShort(a.typ)];
      PrintedArgument(before, a, ss);
      SignatureNext(prefix, m.args, i, before);
    }
    assert m.args[..|m.args|] == m.args;
  }

  // What one turn of the loop has appended.
  lemma PrintedArgument(before: string, a: Argument, after: string)
    requires after
      == before + (if a.allowNull then "?" else "") + (if UntypedNewId(a) then "su" else "") + [PrintShort(a.typ)]
    ensures after == before + ArgumentSignature(a)
  {
  }

  lemma SignatureNext(prefix: string, args: seq<Argument>, i: nat, before: string)
    requires i < |args| && before == prefix + ArgumentsSignature(args[..i])
    ensures before + ArgumentSignature(args[i]) == prefix + ArgumentsSignature(args[..i + 1])
  {
    assert args[..i + 1][..i] == args[..i];
  }

  // The table of interfaces beside a signature: one entry per declared argument.
  function TypesTable(m: Message): (types: seq<Option<string>>)
    ensures |types| == |m.args|
    ensures forall i | 0 <= i < |m.args| :: types[i] == if m.args[i].iface != "" then Some(m.args[i].iface) else None
  {
    seq(|m.args|, i requires 0 <= i < |m.args| => if m.args[i].iface != "" then Some(m.args[i].iface) else None)
  }

  // -------------------------------------------------------------------- stubs

  // One argument expression of a stub's call; i is the position of the declared
  // argument whose parameter it uses.
  datatype EncodeStep =
    | InterfaceName
    | InterfaceVersion
    | NullPointer
    | FdOf(i: nat)
    | ObjectOf(i: nat)
    | CastTo(i: nat, wire: CppType)
    | Plain(i: nat)

  datatype StubCall =
    | SendEvent
    | Marshal
    | MarshalConstructor(iface: string)
    | MarshalConstructorVersioned

  datatype Stub = Stub(call: StubCall, opcode: nat, steps: seq<EncodeStep>)

  function EncodeArgument(a: Argument, i: nat): Result<seq<EncodeStep>, GeneratorError> {
    if a.typ == NewId then
      Ok((if a.iface == "" then [InterfaceName, InterfaceVersion] else []) + [NullPointer])
    else if a.typ == Fd then Ok([FdOf(i)])
    else if a.typ == Object then Ok([ObjectOf(i)])
    else if a.enumName != "" then
      match PrintEnumWireType(a)
      case Ok(wire) => Ok([CastTo(i, wire)])
      case Err(e) => Err(e)
    else Ok([Plain(i)])
  }

  function EncodeSteps(args: seq<Argument>): Result<seq<EncodeStep>, GeneratorError> {
    if args == [] then Ok([])
    else
      match (EncodeSteps(args[..|args| - 1]), EncodeArgument(args[|args| - 1], |args| - 1))
      case (Ok(front), Ok(last)) => Ok(front + last)
      case (Err(e), _) => Err(e)
      case (_, Err(e)) => Err(e)
  }

  function CallOf(m: Message, server: bool): StubCall {
    if server then SendEvent
    else if m.ret.name == "" then Marshal
    else if m.ret.iface == "" then MarshalConstructorVersioned
    else MarshalConstructor(m.ret.iface)
  }

  // print_body.
  method PrintBody(m: Message, server: bool) returns (r: Result<Stub, GeneratorError>)
    ensures r == match EncodeSteps(m.args)
      case Ok(steps) => Ok(Stub(CallOf(m, server), m.opcode, steps))
      case Err(e) => Err(e)
  {
    var call;
    if server {
      call := SendEvent;
    } else if m.ret.name == "" {
      call := Marshal;
    } else if m.ret.iface == "" {
      call := MarshalConstructorVersioned;
    } else {
      call := MarshalConstructor(m.ret.iface);
    }
    var steps: seq<EncodeStep> := [];
    for i := 0 to |m.args|
      invariant EncodeSteps(m.args[..i]) == Ok(steps)
    {
      assert m.args[..i + 1][..i] == m.args[..i];
      var step := EncodeArgument(m.args[i], i);
      if step.Err? {
        EncodeErrorStays(m.args, i + 1);
        return Err(step.error);
      }
      steps := steps + step.value;
    }
    assert m.args[..|m.args|] == m.args;
    r := Ok(Stub(call, m.opcode, steps));
  }

  lemma {:induction false} EncodeErrorStays(args: seq<Argument>, n: nat)
    requires n <= |args| && EncodeSteps(args[..n]).Err?
    ensures EncodeSteps(args) == EncodeSteps(args[..n])
    decreases |args| - n
  {
    if n == |args| {
      assert args[..n] == args;
    } else {
      assert args[..n + 1][..n] == args[..n];
      EncodeErrorStays(args, n + 1);
    }
  }

  // A client stub is a plain marshalling call exactly when there is nothing to return,
  // a versioned constructor call exactly when what it returns has no declared
  // interface, and otherwise constructs that interface; a server stub sends an event.
  lemma CallKind(m: Message)
    requires WellFormedMessage(m)
    ensures CallOf(m, true) == SendEvent
    ensures CallOf(m, false) == Marshal <==> forall a | a in m.args :: a.typ != NewId
    ensures CallOf(m, false) == MarshalConstructorVersioned
      <==> exists i: int :: LastNewId(m.args, i) && m.args[i].iface == ""
    ensures forall iface | iface != "" ::
      CallOf(m, false) == MarshalConstructor(iface)
      <==> (exists i: int :: LastNewId(m.args, i) && m.args[i].iface == iface)
    ensures CallOf(m, false) != SendEvent
  {
    var last := ReturnedIsLast(m.args);
    if m.ret == NO_ARGUMENT {
      forall i: int ensures !LastNewId(m.args, i) { }
    } else {
      assert m.args[last] in m.args;
      forall i: int | LastNewId(m.args, i) ensures i == last { }
    }
  }

  // -------------------------------------------------------------- dispatchers

  // args[index].get<get>(), wrapped in a constructor call if wrap is given.
  datatype DecodeStep = Decode(index: nat, get: CppType, wrap: Option<CppType>)

  datatype Case = Case(opcode: nat, name: string, steps: seq<DecodeStep>)

  function DecodeArgument(a: Argument, c: nat, server: bool): Result<DecodeStep, GeneratorError> {
    if a.enumName != "" && a.typ != Array then
      match PrintEnumWireType(a)
      case Ok(wire) => Ok(Decode(c, wire, Some(PrintType(a, server))))
      case Err(e) => Err(e)
    else if a.iface != "" then Ok(Decode(c, BaseT(server), Some(PrintType(a, server))))
    else Ok(Decode(c, PrintType(a, server), None))
  }

  function DecodeSteps(args: seq<Argument>, server: bool): Result<seq<DecodeStep>, GeneratorError> {
    if args == [] then Ok([])
    else
      match (DecodeSteps(args[..|args| - 1], server), DecodeArgument(args[|args| - 1], |args| - 1, server))
      case (Ok(front), Ok(last)) => Ok(front + [last])
      case (Err(e), _) => Err(e)
      case (_, Err(e)) => Err(e)
  }

  // print_dispatcher.
  method PrintDispatcher(m: Message, opcode: nat, server: bool) returns (r: Result<Case, GeneratorError>)
    ensures r == match DecodeSteps(m.args, server)
      case Ok(steps) => Ok(Case(opcode, m.name, steps))
      case Err(e) => Err(e)
  {
    var steps: seq<DecodeStep> := [];
    var c := 0;
    for i := 0 to |m.args|
      invariant c == i && DecodeSteps(m.args[..i], server) == Ok(steps)
    {
      assert m.args[..i + 1][..i] == m.args[..i];
      var step := DecodeArgument(m.args[i], c, server);
      if step.Err? {
        DecodeErrorStays(m.args, i + 1, server);
        return Err(step.error);
      }
      c := c + 1;
      steps := steps + [step.value];
    }
    assert m.args[..|m.args|] == m.args;
    r := Ok(Case(opcode, m.name, steps));
  }

  lemma {:induction false} DecodeErrorStays(args: seq<Argument>, n: nat, server: bool)
    requires n <= |args| && DecodeSteps(args[..n], server).Err?
    ensures DecodeSteps(args, server) == DecodeSteps(args[..n], server)
    decreases |args| - n
  {
    if n == |args| {
      assert args[..n] == args;
    } else {
      assert args[..n + 1][..n] == args[..n];
      DecodeErrorStays(args, n + 1, server);
    }
  }

  // The switch of a generated dispatcher: the cases are numbered by their own
  // counter, not by the messages' opcodes.
  function Cases(messages: seq<Message>, server: bool): Result<seq<Case>, GeneratorError> {
    if messages == [] then Ok([])
    else
      var n := |messages| - 1;
      match (Cases(messages[..n], server), DecodeSteps(messages[n].args, server))
      case (Ok(front), Ok(steps)) => Ok(front + [Case(n, messages[n].name, steps)])
      case (Err(e), _) => Err(e)
      case (_, Err(e)) => Err(e)
  }

  method PrintSwitch(messages: seq<Message>, server: bool) returns (r: Result<seq<Case>, GeneratorError>)
    ensures r == Cases(messages, server)
  {
    var cases: seq<Case> := [];
    var opcode := 0;
    for i := 0 to |messages|
      invariant opcode == i && Cases(messages[..i], server) == Ok(cases)
    {
      assert messages[..i + 1][..i] == messages[..i];
      var c := PrintDispatcher(messages[i], opcode, server);
      if c.Err? {
        SwitchErrorStays(messages, i + 1, server);
        return Err(c.error);
      }
      opcode := opcode + 1;
      cases := cases + [c.value];
    }
    assert messages[..|messages|] == messages;
    r := Ok(cases);
  }

  lemma {:induction false} SwitchErrorStays(messages: seq<Message>, n: nat, server: bool)
    requires n <= |messages| && Cases(messages[..n], server).Err?
    ensures Cases(messages, server) == Cases(messages[..n], server)
    decreases |messages| - n
  {
    if n == |messages| {
      assert messages[..n] == messages;
    } else {
      assert messages[..n + 1][..n] == messages[..n];
      SwitchErrorStays(messages, n + 1, server);
    }
  }
}
