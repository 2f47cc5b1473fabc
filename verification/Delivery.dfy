// What a generated stub sends is what the generated handler call on the other side
// receives: the stub printer, the signature printer, the dispatcher loop and the
// dispatcher printer agree on opcode, arity, position and type.

module Delivery {
  import opened Common
  import opened Protocol
  import opened Scanner
  import opened Wire
  import opened Dispatch
  import opened Signatures

  // ------------------------------------------------------------- stub against signature

  lemma {:induction false} EncodeAppend(a: seq<EncodeStep>, b: seq<EncodeStep>, params: seq<Value>, binding: Binding)
    requires Encode(a, params, binding).Some? && Encode(b, params, binding).Some?
    ensures Encode(a + b, params, binding)
      == Some(Encode(a, params, binding).value + Encode(b, params, binding).value)
    decreases |b|
  {
    if b == [] {
      assert a + b == a;
      assert Encode(a, params, binding).value + [] == Encode(a, params, binding).value;
    } else {
      var front := b[..|b| - 1];
      assert (a + b)[..|a + b| - 1] == a + front;
      EncodeAppend(a, front, params, binding);
      var last := Encode(b, params, binding).value[|Encode(front, params, binding).value|..];
      assert Encode(a, params, binding).value + (Encode(front, params, binding).value + last)
          == Encode(a, params, binding).value + Encode(front, params, binding).value + last;
    }
  }

  lemma EncodeSingle(step: EncodeStep, params: seq<Value>, binding: Binding)
    ensures var v := EvalStep(step, params, binding);
      Encode([step], params, binding)
        == if v.Some? && ArgumentOf(v.value).Some? then Some([ArgumentOf(v.value).value]) else None
  {
    assert [step][..|[step]| - 1] == [];
    var v := EvalStep(step, params, binding);
    if v.Some? && ArgumentOf(v.value).Some? {
      assert [] + [ArgumentOf(v.value).value] == [ArgumentOf(v.value).value];
    }
  }

  // The union a stub fills for one declared argument whose parameter is p.
  function WireOf(a: Argument, p: Value, server: bool): WlArgument
    requires WellFormedArgument(a) && (a.typ != NewId ==> ParameterOf(a, server, p))
  {
    match a.typ
    case NewId => N(0)
    case Fd => H(p.i)
    case Object => O(PointerOf(p.referent))
    case Int => if a.enumName != "" then I(ToInt32(p.bits)) else I(p.i)
    case Uint => if a.enumName != "" then U(p.bits) else U(p.u)
    case Fixed => F(FixedFromDouble(p.d))
    case Text => S(Some(CString(p.s)))
    case Array => A(Some(p.bytes))
  }

  // All unions of one argument: an untyped new_id is preceded by its interface's name
  // and version.
  function WiresOf(a: Argument, p: Value, server: bool, binding: Binding): seq<WlArgument>
    requires WellFormedArgument(a) && (a.typ != NewId ==> ParameterOf(a, server, p))
  {
    (if UntypedNewId(a) then [S(Some(CString(binding.name))), U(binding.version)] else [])
    + [WireOf(a, p, server)]
  }

  predicate Matched(args: seq<Argument>, server: bool, params: seq<Value>) {
    && |params| == |args|
    && (forall a | a in args :: WellFormedArgument(a))
    && (forall i | 0 <= i < |args| && args[i].typ != NewId :: ParameterOf(args[i], server, params[i]))
  }

  function AllWires(args: seq<Argument>, params: seq<Value>, server: bool, binding: Binding): seq<WlArgument>
    requires Matched(args, server, params)
  {
    if args == [] then []
    else
      var n := |args| - 1;
      AllWires(args[..n], params[..n], server, binding) + WiresOf(args[n], params[n], server, binding)
  }

  // The stub's expressions for one argument evaluate to its unions.
  lemma EncodeOne(a: Argument, i: nat, params: seq<Value>, server: bool, binding: Binding)
    requires WellFormedArgument(a) && i < |params| && (a.typ != NewId ==> ParameterOf(a, server, params[i]))
    ensures EncodeArgument(a, i).Ok?
    ensures Encode(EncodeArgument(a, i).value, params, binding) == Some(WiresOf(a, params[i], server, binding))
  {
    var steps := EncodeArgument(a, i).value;
    EncodeArgumentShape(a, i);
    if UntypedNewId(a) {
      EncodeSingle(InterfaceName, params, binding);
      EncodeSingle(InterfaceVersion, params, binding);
      EncodeSingle(NullPointer, params, binding);
      EncodeAppend([InterfaceName], [InterfaceVersion], params, binding);
      EncodeAppend([InterfaceName] + [InterfaceVersion], [NullPointer], params, binding);
      var name, version := S(Some(CString(binding.name))), U(binding.version);
      assert [name] + [version] == [name, version];
    } else {
      EncodeSingle(steps[0], params, binding);
    }
  }

  lemma EncodeArgumentShape(a: Argument, i: nat)
    requires WellFormedArgument(a)
    ensures EncodeArgument(a, i).Ok?
    ensures var steps := EncodeArgument(a, i).value;
      if UntypedNewId(a) then steps == [InterfaceName] + [InterfaceVersion] + [NullPointer]
      else |steps| == 1 && steps == [steps[0]]
  {
  }

  lemma {:induction false} EncodeIsWires(args: seq<Argument>, params: seq<Value>, all: seq<Value>, server: bool,
                                         binding: Binding)
    requires Matched(args, server, params) && params <= all
    ensures EncodeSteps(args).Ok?
    ensures Encode(EncodeSteps(args).value, all, binding) == Some(AllWires(args, params, server, binding))
    decreases |args|
  {
    if args != [] {
      var n := |args| - 1;
      EncodeIsWires(args[..n], params[..n], all, server, binding);
      assert args[n] in args;
      EncodeOne(args[n], n, all, server, binding);
      EncodeAppend(EncodeSteps(args[..n]).value, EncodeArgument(args[n], n).value, all, binding);
    }
  }

  predicate Match(wires: seq<WlArgument>, letters: string) {
    |wires| == |letters| && forall i | 0 <= i < |wires| :: MemberLetter(wires[i]) == letters[i]
  }

  lemma WiresOfMatch(a: Argument, p: Value, server: bool, binding: Binding)
    requires WellFormedArgument(a) && (a.typ != NewId ==> ParameterOf(a, server, p))
    ensures Match(WiresOf(a, p, server, binding), ArgumentLetters(a))
  {
  }

  lemma {:induction false} WiresMatchLetters(args: seq<Argument>, params: seq<Value>, server: bool, binding: Binding)
    requires Matched(args, server, params)
    ensures Match(AllWires(args, params, server, binding), DeclaredLetters(args))
  {
    if args != [] {
      var n := |args| - 1;
      WiresMatchLetters(args[..n], params[..n], server, binding);
      assert args[n] in args;
      WiresOfMatch(args[n], params[n], server, binding);
      MatchConcat(AllWires(args[..n], params[..n], server, binding), DeclaredLetters(args[..n]),
                  WiresOf(args[n], params[n], server, binding), ArgumentLetters(args[n]));
    }
  }

  lemma MatchConcat(wires: seq<WlArgument>, letters: string, moreWires: seq<WlArgument>, moreLetters: string)
    requires Match(wires, letters) && Match(moreWires, moreLetters)
    ensures Match(wires + moreWires, letters + moreLetters)
  {
  }

  // In every generated stub, also one with an untyped new_id, each argument expression
  // has a conversion to argument_t, and the values passed are exactly those its
  // message's signature announces: as many, and of the kinds the letters name.
  lemma StubMatchesSignature(m: Message, server: bool, params: seq<Value>, binding: Binding)
    requires WellFormedMessage(m) && ParametersOf(m, server, params)
    ensures EncodeSteps(m.args).Ok? && Encode(EncodeSteps(m.args).value, params, binding).Some?
    ensures var wires, letters := Encode(EncodeSteps(m.args).value, params, binding).value, Letters(Signature(m));
      Match(wires, letters)
  {
    EncodeIsWires(m.args, params, params, server, binding);
    WiresMatchLetters(m.args, params, server, binding);
    LettersOfSignature(m);
  }

  // With no untyped new_id there is one union per argument, in order.
  lemma TypedWires(args: seq<Argument>, params: seq<Value>, server: bool, binding: Binding)
    requires Matched(args, server, params) && Typed(args)
    ensures |AllWires(args, params, server, binding)| == |args|
    ensures forall i | 0 <= i < |args| ::
      args[i] in args && AllWires(args, params, server, binding)[i] == WireOf(args[i], params[i], server)
  {
    TypedCount(args, params, server, binding);
    forall i | 0 <= i < |args|
      ensures args[i] in args && AllWires(args, params, server, binding)[i] == WireOf(args[i], params[i], server)
    {
      TypedWire(args, params, server, binding, i);
    }
  }

  lemma TypedLast(args: seq<Argument>, params: seq<Value>, server: bool, binding: Binding)
    requires Matched(args, server, params) && Typed(args) && args != []
    ensures var n := |args| - 1;
      && Matched(args[..n], server, params[..n]) && Typed(args[..n]) && args[n] in args
      && AllWires(args, params, server, binding)
         == AllWires(args[..n], params[..n], server, binding) + [WireOf(args[n], params[n], server)]
  {
    var n := |args| - 1;
    assert args[n] in args;
    assert WiresOf(args[n], params[n], server, binding) == [WireOf(args[n], params[n], server)];
  }

  lemma {:induction false} TypedCount(args: seq<Argument>, params: seq<Value>, server: bool, binding: Binding)
    requires Matched(args, server, params) && Typed(args)
    ensures |AllWires(args, params, server, binding)| == |args|
  {
    if args != [] {
      TypedLast(args, params, server, binding);
      TypedCount(args[..|args| - 1], params[..|args| - 1], server, binding);
    }
  }

  lemma {:induction false} TypedWire(args: seq<Argument>, params: seq<Value>, server: bool, binding: Binding, i: nat)
    requires Matched(args, server, params) && Typed(args) && i < |args|
    ensures args[i] in args && i < |AllWires(args, params, server, binding)|
    ensures AllWires(args, params, server, binding)[i] == WireOf(args[i], params[i], server)
    decreases |args|
  {
    var n := |args| - 1;
    TypedLast(args, params, server, binding);
    TypedCount(args[..n], params[..n], server, binding);
    if i < n {
      TypedWire(args[..n], params[..n], server, binding, i);
    }
  }

  // ------------------------------------------------------- any peer: no type failure

  // What libwayland hands a dispatcher for a message with these letters, whoever sent
  // it: the union member of each letter, except that a client finds the proxy it was
  // created for a new id in the object member.
  predicate Conforms(letters: string, args: seq<WlArgument>, server: bool) {
    && |args| == |letters|
    && (forall i | 0 <= i < |letters| ::
          MemberLetter(args[i]) == if !server && letters[i] == 'n' then 'o' else letters[i])
  }

  // The value the dispatcher stores for one argument.
  function Unpacked(a: Argument, w: WlArgument, server: bool): Value {
    match w
    case I(i) => VInt32(i)
    case U(u) => VUint32(u)
    case H(h) => VInt32(h)
    case F(f) => VDouble(FixedToDouble(f))
    case S(s) => VString(if s.Some? then s.value else "")
    case A(bytes) => VArray(if bytes.Some? then bytes.value else [])
    case O(o) => VBase(server, if o.Some? then Known(o.value) else Nothing)
    case N(n) => VBase(server, if n == 0 then Nothing else Fresh(n, a.iface))
  }

  predicate AreUnpacked(args: seq<Argument>, wires: seq<WlArgument>, server: bool, values: seq<Value>) {
    && |values| <= |args| && |values| <= |wires|
    && (forall i | 0 <= i < |values| :: values[i] == Unpacked(args[i], wires[i], server))
  }

  lemma {:induction false} UnpacksEach(m: Message, letters: string, args: seq<WlArgument>, server: bool)
    requires WellFormedMessage(m) && Typed(m.args) && letters <= DeclaredLetters(m.args)
    requires Conforms(DeclaredLetters(m.args), args, server)
    ensures |DeclaredLetters(m.args)| == |m.args|
    ensures var vargs := UnpackLetters(letters, args, TypesTable(m), server);
      vargs.Ok? && |vargs.value| == |letters| && AreUnpacked(m.args, args, server, vargs.value)
    decreases |letters|
  {
    TypedLetters(m.args);
    if letters != [] {
      var n := |letters| - 1;
      UnpacksEach(m, letters[..n], args, server);
      UnpacksAt(m, n, args, server);
      var front := UnpackLetters(letters[..n], args, TypesTable(m), server).value;
      UnpackNext(letters, args, TypesTable(m), server, front, Unpacked(m.args[n], args[n], server));
      UnpackedNext(m.args, args, server, front);
    }
  }

  lemma UnpackedNext(args: seq<Argument>, wires: seq<WlArgument>, server: bool, front: seq<Value>)
    requires AreUnpacked(args, wires, server, front) && |front| < |args| && |front| < |wires|
    ensures AreUnpacked(args, wires, server, front + [Unpacked(args[|front|], wires[|front|], server)])
  {
  }

  lemma UnpacksAt(m: Message, i: nat, args: seq<WlArgument>, server: bool)
    requires WellFormedMessage(m) && Typed(m.args) && i < |m.args|
    requires Conforms(DeclaredLetters(m.args), args, server)
    ensures |DeclaredLetters(m.args)| == |m.args| == |args|
    ensures UnpackLetter(DeclaredLetters(m.args)[i], args[i], TypesTable(m), i, server)
      == Ok(Unpacked(m.args[i], args[i], server))
  {
    TypedLetters(m.args);
    assert m.args[i] in m.args;
    UnpacksOne(m.args[i], args[i], TypesTable(m), i, server);
  }

  lemma UnpacksOne(a: Argument, w: WlArgument, types: seq<Option<string>>, c: nat, server: bool)
    requires WellFormedArgument(a) && !UntypedNewId(a) && c < |types|
    requires types[c] == if a.iface != "" then Some(a.iface) else None
    requires MemberLetter(w) == if !server && a.typ == NewId then 'o' else PrintShort(a.typ)
    ensures UnpackLetter(PrintShort(a.typ), w, types, c, server) == Ok(Unpacked(a, w, server))
  {
  }

  lemma {:induction false} DecodesEach(args: seq<Argument>, server: bool)
    requires forall a | a in args :: WellFormedArgument(a)
    ensures DecodeSteps(args, server).Ok? && |DecodeSteps(args, server).value| == |args|
    ensures AreDecoded(args, server, DecodeSteps(args, server).value)
  {
    if args != [] {
      var n := |args| - 1;
      DecodesEach(args[..n], server);
      assert args[n] in args;
    }
  }

  // The type stored at each index is the one the generated case asks for there.
  lemma GetsTheStoredType(a: Argument, w: WlArgument, c: nat, server: bool)
    requires WellFormedArgument(a) && !UntypedNewId(a)
    requires MemberLetter(w) == if !server && a.typ == NewId then 'o' else PrintShort(a.typ)
    ensures DecodeArgument(a, c, server).Ok?
    ensures TypeOf(Unpacked(a, w, server)) == DecodeArgument(a, c, server).value.get
  {
  }

  // The handler argument made from one stored value.
  function Handed(a: Argument, v: Value): Value
    requires WellFormedArgument(a)
  {
    if a.enumName != "" then
      VEnum(a.enumIface, a.enumName, if v.VInt32? then ToUint32(v.i) else if v.VUint32? then v.u else 0)
    else if a.iface != "" && v.VBase? then VClass(a.iface, v.referent)
    else v
  }

  // A server's generated class is about to be constructed from a handle without object.
  predicate MissingObject(a: Argument, w: WlArgument, server: bool) {
    server && a.iface != "" && (w == O(None) || w == N(0))
  }

  lemma RunsOne(a: Argument, vargs: seq<Value>, w: WlArgument, c: nat, server: bool)
    requires WellFormedArgument(a) && !UntypedNewId(a)
    requires MemberLetter(w) == if !server && a.typ == NewId then 'o' else PrintShort(a.typ)
    requires c < |vargs| && vargs[c] == Unpacked(a, w, server)
    ensures DecodeArgument(a, c, server).Ok?
    ensures RunStep(DecodeArgument(a, c, server).value, vargs, server)
      == if MissingObject(a, w, server) then Err(NullData) else Ok(Handed(a, Unpacked(a, w, server)))
  {
    GetsTheStoredType(a, w, c, server);
  }

  predicate AnyMissing(args: seq<Argument>, wires: seq<WlArgument>, server: bool)
    requires |wires| >= |args|
  {
    exists i | 0 <= i < |args| :: MissingObject(args[i], wires[i], server)
  }

  predicate AreHanded(args: seq<Argument>, wires: seq<WlArgument>, server: bool, values: seq<Value>) {
    && |values| <= |args| && |values| <= |wires|
    && (forall i | 0 <= i < |values| ::
          WellFormedArgument(args[i]) && values[i] == Handed(args[i], Unpacked(args[i], wires[i], server)))
  }

  // The steps of a case, position by position.
  predicate AreDecoded(args: seq<Argument>, server: bool, steps: seq<DecodeStep>) {
    && |steps| <= |args|
    && (forall i | 0 <= i < |steps| :: DecodeArgument(args[i], i, server) == Ok(steps[i]))
  }

  // The outcome of the first n steps: the handler's first n arguments, unless one of
  // them has no object to be built from.
  predicate HandedOver(args: seq<Argument>, n: nat, wires: seq<WlArgument>, server: bool,
                       handed: Result<seq<Value>, Failure>)
    requires n <= |args| <= |wires|
  {
    if AnyMissing(args[..n], wires, server) then handed == Err(NullData)
    else handed.Ok? && |handed.value| == n && AreHanded(args, wires, server, handed.value)
  }

  lemma {:induction false} RunsEach(
    m: Message, steps: seq<DecodeStep>, args: seq<WlArgument>, vargs: seq<Value>, server: bool)
    requires WellFormedMessage(m) && Typed(m.args) && |m.args| == |args| == |vargs|
    requires Conforms(DeclaredLetters(m.args), args, server) && AreUnpacked(m.args, args, server, vargs)
    requires AreDecoded(m.args, server, steps)
    ensures HandedOver(m.args, |steps|, args, server, RunSteps(steps, vargs, server))
    decreases |steps|
  {
    if steps != [] {
      var n := |steps| - 1;
      assert |steps[..n]| == n;
      RunsEach(m, steps[..n], args, vargs, server);
      RunsAt(m, steps[n], n, args, vargs, server);
      var front, last := RunSteps(steps[..n], vargs, server), RunStep(steps[n], vargs, server);
      RunNext(steps, vargs, server, front, last);
      HandsNext(m.args, n, args, server, front, last);
    }
  }

  lemma HandsNext(args: seq<Argument>, n: nat, wires: seq<WlArgument>, server: bool,
                  front: Result<seq<Value>, Failure>, last: Result<Value, Failure>)
    requires n < |args| <= |wires| && HandedOver(args, n, wires, server, front) && WellFormedArgument(args[n])
    requires last == if MissingObject(args[n], wires[n], server) then Err(NullData)
                     else Ok(Handed(args[n], Unpacked(args[n], wires[n], server)))
    ensures HandedOver(args, n + 1, wires, server,
      if front.Err? then front else if last.Err? then Err(last.error) else Ok(front.value + [last.value]))
  {
    MissingStep(args, n + 1, wires, server);
    if front.Ok? && last.Ok? {
      HandedNext(args, wires, server, front.value);
    }
  }

  lemma HandedNext(args: seq<Argument>, wires: seq<WlArgument>, server: bool, front: seq<Value>)
    requires AreHanded(args, wires, server, front) && |front| < |args| && |front| < |wires|
    requires WellFormedArgument(args[|front|])
    ensures var last := Handed(args[|front|], Unpacked(args[|front|], wires[|front|], server));
      AreHanded(args, wires, server, front + [last])
  {
  }

  lemma RunsAt(m: Message, step: DecodeStep, i: nat, args: seq<WlArgument>, vargs: seq<Value>, server: bool)
    requires WellFormedMessage(m) && Typed(m.args) && i < |m.args| == |args| == |vargs|
    requires Conforms(DeclaredLetters(m.args), args, server) && AreUnpacked(m.args, args, server, vargs)
    requires DecodeArgument(m.args[i], i, server) == Ok(step)
    ensures WellFormedArgument(m.args[i])
    ensures RunStep(step, vargs, server)
      == if MissingObject(m.args[i], args[i], server) then Err(NullData)
         else Ok(Handed(m.args[i], Unpacked(m.args[i], args[i], server)))
  {
    TypedLetters(m.args);
    assert m.args[i] in m.args;
    RunsOne(m.args[i], vargs, args[i], i, server);
  }

  lemma MissingStep(args: seq<Argument>, n: nat, wires: seq<WlArgument>, server: bool)
    requires 0 < n <= |args| <= |wires|
    ensures AnyMissing(args[..n], wires, server)
      <==> AnyMissing(args[..n - 1], wires, server) || MissingObject(args[n - 1], wires[n - 1], server)
  {
    if AnyMissing(args[..n], wires, server) {
      var i :| 0 <= i < n && MissingObject(args[..n][i], wires[i], server);
      if i < n - 1 { assert MissingObject(args[..n - 1][i], wires[i], server); }
    }
    if AnyMissing(args[..n - 1], wires, server) {
      var i :| 0 <= i < n - 1 && MissingObject(args[..n - 1][i], wires[i], server);
      assert MissingObject(args[..n][i], wires[i], server);
    }
    if MissingObject(args[n - 1], wires[n - 1], server) {
      assert MissingObject(args[..n][n - 1], wires[n - 1], server);
    }
  }

  // Whatever a peer sends, on either side: every any::get asks for the type that is
  // stored, and the handler gets its arguments unless a server is to build a typed
  // class from a null object.
  lemma NoTypeFailure(m: Message, args: seq<WlArgument>, server: bool)
    requires WellFormedMessage(m) && Typed(m.args) && Conforms(Letters(Signature(m)), args, server)
    ensures |args| == |m.args| && DecodeSteps(m.args, server).Ok?
    ensures
      var vargs := UnpackLetters(Letters(Signature(m)), args, TypesTable(m), server);
      var steps := DecodeSteps(m.args, server).value;
      && vargs.Ok? && |vargs.value| == |m.args|
      && (forall step | step in steps :: step.index < |vargs.value| && TypeOf(vargs.value[step.index]) == step.get)
      && (var handed := RunSteps(steps, vargs.value, server);
          if AnyMissing(m.args, args, server) then handed == Err(NullData)
          else handed.Ok? && |handed.value| == |m.args| && AreHanded(m.args, args, server, handed.value))
  {
    LettersOfSignature(m);
    TypedLetters(m.args);
    UnpacksEach(m, DeclaredLetters(m.args), args, server);
    DecodesEach(m.args, server);
    var vargs := UnpackLetters(Letters(Signature(m)), args, TypesTable(m), server).value;
    var steps := DecodeSteps(m.args, server).value;
    RunsEach(m, steps, args, vargs, server);
    WholeOver(m.args, args, server, RunSteps(steps, vargs, server));
    TypesAgree(m, args, vargs, steps, server);
  }

  lemma WholeOver(args: seq<Argument>, wires: seq<WlArgument>, server: bool, handed: Result<seq<Value>, Failure>)
    requires |args| == |wires| && HandedOver(args, |args|, wires, server, handed)
    ensures if AnyMissing(args, wires, server) then handed == Err(NullData)
            else handed.Ok? && |handed.value| == |args| && AreHanded(args, wires, server, handed.value)
  {
    assert args[..|args|] == args;
  }

  lemma TypesAgree(m: Message, args: seq<WlArgument>, vargs: seq<Value>, steps: seq<DecodeStep>, server: bool)
    requires WellFormedMessage(m) && Typed(m.args) && Conforms(DeclaredLetters(m.args), args, server)
    requires AreUnpacked(m.args, args, server, vargs) && AreDecoded(m.args, server, steps)
    requires |vargs| == |steps| == |m.args|
    ensures forall step | step in steps :: step.index < |vargs| && TypeOf(vargs[step.index]) == step.get
  {
    forall step | step in steps ensures step.index < |vargs| && TypeOf(vargs[step.index]) == step.get {
      var i :| 0 <= i < |steps| && steps[i] == step;
      GetsEach(m, args, i, server);
    }
  }

  lemma GetsEach(m: Message, args: seq<WlArgument>, i: nat, server: bool)
    requires WellFormedMessage(m) && Typed(m.args) && Conforms(DeclaredLetters(m.args), args, server) && i < |m.args|
    ensures i < |args| && DecodeArgument(m.args[i], i, server).Ok?
    ensures TypeOf(Unpacked(m.args[i], args[i], server)) == DecodeArgument(m.args[i], i, server).value.get
    ensures DecodeArgument(m.args[i], i, server).value.index == i
  {
    TypedLetters(m.args);
    assert m.args[i] in m.args;
    GetsTheStoredType(m.args[i], args[i], i, server);
  }

  // -------------------------------------------------------------- the whole way

  predicate IsCase(m: Message, k: nat, server: bool, c: Case) {
    DecodeSteps(m.args, server).Ok? && c == Case(k, m.name, DecodeSteps(m.args, server).value)
  }

  lemma {:induction false} CasesEach(messages: seq<Message>, server: bool)
    requires forall m | m in messages :: WellFormedMessage(m)
    ensures Cases(messages, server).Ok? && |Cases(messages, server).value| == |messages|
    ensures forall k | 0 <= k < |messages| :: IsCase(messages[k], k, server, Cases(messages, server).value[k])
  {
    if messages != [] {
      var n := |messages| - 1;
      CasesEach(messages[..n], server);
      assert messages[n] in messages;
      assert WellFormedMessage(messages[n]);
      DecodesEach(messages[n].args, server);
      var front := Cases(messages[..n], server).value;
      var last := Case(n, messages[n].name, DecodeSteps(messages[n].args, server).value);
      assert Cases(messages, server) == Ok(front + [last]);
      CasesNext(messages, server, front, last);
    }
  }

  lemma CasesNext(messages: seq<Message>, server: bool, front: seq<Case>, last: Case)
    requires messages != [] && |front| == |messages| - 1
    requires forall k | 0 <= k < |front| :: IsCase(messages[..|messages| - 1][k], k, server, front[k])
    requires IsCase(messages[|front|], |front|, server, last)
    ensures forall k | 0 <= k < |messages| :: IsCase(messages[k], k, server, (front + [last])[k])
  {
    forall k | 0 <= k < |messages| ensures IsCase(messages[k], k, server, (front + [last])[k]) {
      if k < |front| { assert messages[..|messages| - 1][k] == messages[k]; }
    }
  }

  lemma {:induction false} SwitchPicks(cases: seq<Case>, k: nat, vargs: seq<Value>, server: bool, handlers: set<string>)
    requires forall i | 0 <= i < |cases| :: cases[i].opcode == i
    requires k < |cases|
    ensures Switch(cases, k, vargs, server, handlers) == Switch([cases[k]], k, vargs, server, handlers)
    decreases |cases|
  {
    if k < |cases| - 1 {
      SwitchPicks(cases[..|cases| - 1], k, vargs, server, handlers);
    }
  }

  // What the handler of message m must see, given what reached the dispatcher.
  function HandlerSees(m: Message, args: seq<WlArgument>, server: bool, handlers: set<string>): Outcome
    requires |args| == |m.args| && (forall a | a in m.args :: WellFormedArgument(a))
  {
    if m.name !in handlers then NotCalled
    else if AnyMissing(m.args, args, server) then Failed(NullData)
    else Called(m.name, seq(|m.args|, i requires 0 <= i < |m.args| =>
      assert m.args[i] in m.args; Handed(m.args[i], Unpacked(m.args[i], args[i], server))))
  }

  // The receiving side of message number `opcode`: look up its signature and table in
  // the generated interface, run the dispatcher loop, run the switch.
  function Receive(messages: seq<Message>, opcode: nat, args: seq<WlArgument>, server: bool, handlers: set<string>)
    : Outcome
  {
    if opcode >= |messages| || Cases(messages, server).Err? then Failed(NotGenerated)
    else
      match UnpackLetters(Letters(Signature(messages[opcode])), args, TypesTable(messages[opcode]), server)
      case Err(e) => Failed(e)
      case Ok(vargs) => Switch(Cases(messages, server).value, opcode, vargs, server, handlers)
  }

  // Any conforming message reaches exactly its own handler, with its own arguments.
  lemma ReceiveCallsHandler(messages: seq<Message>, k: nat, args: seq<WlArgument>, server: bool, handlers: set<string>)
    requires WellFormedMessages(messages) && k < |messages| && Typed(messages[k].args)
    requires Conforms(Letters(Signature(messages[k])), args, server)
    ensures |args| == |messages[k].args|
    ensures Receive(messages, k, args, server, handlers) == HandlerSees(messages[k], args, server, handlers)
  {
    var m := messages[k];
    assert WellFormedMessage(m);
    ReadyCases(messages, server);
    NoTypeFailure(m, args, server);
    var vargs := UnpackLetters(Letters(Signature(m)), args, TypesTable(m), server).value;
    var cases := Cases(messages, server).value;
    SwitchPicks(cases, k, vargs, server, handlers);
    CaseRuns(m, cases[k], args, vargs, server, handlers);
  }

  lemma ReadyCases(messages: seq<Message>, server: bool)
    requires WellFormedMessages(messages)
    ensures Cases(messages, server).Ok? && |Cases(messages, server).value| == |messages|
    ensures forall k | 0 <= k < |messages| ::
      && IsCase(messages[k], k, server, Cases(messages, server).value[k])
      && Cases(messages, server).value[k].opcode == k
  {
    forall x | x in messages ensures WellFormedMessage(x) {
      var i :| 0 <= i < |messages| && messages[i] == x;
    }
    CasesEach(messages, server);
  }

  lemma CaseRuns(m: Message, c: Case, args: seq<WlArgument>, vargs: seq<Value>, server: bool, handlers: set<string>)
    requires |args| == |m.args| && (forall a | a in m.args :: WellFormedArgument(a))
    requires IsCase(m, c.opcode, server, c)
    requires var handed := RunSteps(c.steps, vargs, server);
      if AnyMissing(m.args, args, server) then handed == Err(NullData)
      else handed.Ok? && |handed.value| == |m.args| && AreHanded(m.args, args, server, handed.value)
    ensures Switch([c], c.opcode, vargs, server, handlers) == HandlerSees(m, args, server, handlers)
  {
    var seen := HandlerSees(m, args, server, handlers);
    if seen.Called? {
      assert RunSteps(c.steps, vargs, server).value == seen.values;
    }
  }
}
