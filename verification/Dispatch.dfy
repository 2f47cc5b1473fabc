// The receiving side: the loop over the signature in proxy_t::c_dispatcher and
// resource_t::c_dispatcher, and the generated switch that unpacks its result with
// any::get.

module Dispatch {
  import opened Common
  import opened Protocol
  import opened Scanner
  import opened Wire

  datatype Failure =
    | NotGenerated    // the scanner stopped with an error, or its output does not compile
    | WrongMember     // a union member other than the one the letter stands for is read
    | OutOfRange      // an index past the end of args, vargs or the types table
    | NullTable       // message->types[c] is null where its version is read
    | NullData        // resource_t::set_events on a handle without data
    | BadCast         // any::get with another type than the stored one

  predicate IsDigit(ch: char) {
    '0' <= ch <= '9'
  }

  predicate Skipped(ch: char) {
    ch == '?' || IsDigit(ch)
  }

  // The characters of a signature that stand for an argument.
  function Letters(signature: string): string {
    if signature == [] then []
    else
      var last := signature[|signature| - 1];
      Letters(signature[..|signature| - 1]) + (if Skipped(last) then [] else [last])
  }

  // The switch of the dispatcher loop, for one letter.
  function UnpackLetter(ch: char, w: WlArgument, types: seq<Option<string>>, c: nat, server: bool)
    : Result<Value, Failure>
  {
    match ch
    case 'i' => if w.I? then Ok(VInt32(w.i)) else Err(WrongMember)
    case 'u' => if w.U? then Ok(VUint32(w.u)) else Err(WrongMember)
    case 'h' => if w.H? then Ok(VInt32(w.h)) else Err(WrongMember)
    case 'f' => if w.F? then Ok(VDouble(FixedToDouble(w.f))) else Err(WrongMember)
    case 's' =>
      if w.S? then Ok(VString(if w.s.Some? then w.s.value else "")) else Err(WrongMember)
    case 'o' =>
      if w.O? then Ok(VBase(server, if w.o.Some? then Known(w.o.value) else Nothing)) else Err(WrongMember)
    case 'n' =>
      if server then
        if !w.N? then Err(WrongMember)
        else if w.n == 0 then Ok(VBase(server, Nothing))
        else if c >= |types| then Err(OutOfRange)
        else if types[c].None? then Err(NullTable)
        else Ok(VBase(server, Fresh(w.n, types[c].value)))
      else
        if w.O? then Ok(VBase(server, if w.o.Some? then Known(w.o.value) else Nothing)) else Err(WrongMember)
    case 'a' =>
      if w.A? then Ok(VArray(if w.a.Some? then w.a.value else [])) else Err(WrongMember)
    case _ => Ok(VInt32(0))
  }

  // What the loop computes, told on the letters alone.
  function UnpackLetters(letters: string, args: seq<WlArgument>, types: seq<Option<string>>, server: bool)
    : Result<seq<Value>, Failure>
  {
    if letters == [] then Ok([])
    else
      var n := |letters| - 1;
      var front := UnpackLetters(letters[..n], args, types, server);
      if front.Err? then front
      else if n >= |args| then Err(OutOfRange)
      else
        match UnpackLetter(letters[n], args[n], types, n, server)
        case Ok(v) => Ok(front.value + [v])
        case Err(e) => Err(e)
  }

  // One letter more.
  lemma UnpackNext(letters: string, args: seq<WlArgument>, types: seq<Option<string>>, server: bool,
                   front: seq<Value>, v: Value)
    requires letters != [] && |letters| <= |args|
    requires UnpackLetters(letters[..|letters| - 1], args, types, server) == Ok(front)
    requires UnpackLetter(letters[|letters| - 1], args[|letters| - 1], types, |letters| - 1, server) == Ok(v)
    ensures UnpackLetters(letters, args, types, server) == Ok(front + [v])
  {
  }

  // The letters one character further on.
  lemma LettersStep(signature: string, i: nat)
    requires i < |signature|
    ensures var now, next := Letters(signature[..i]), Letters(signature[..i + 1]);
      if Skipped(signature[i]) then next == now
      else |next| == |now| + 1 && next[..|now|] == now && next[|now|] == signature[i]
  {
    assert signature[..i + 1][..i] == signature[..i];
  }

  // The loop itself: c counts the letters that are not skipped.
  method CDispatcher(signature: string, args: array<WlArgument>, types: seq<Option<string>>, server: bool)
    returns (vargs: Result<seq<Value>, Failure>)
    ensures vargs == UnpackLetters(Letters(signature), args[..], types, server)
  {
    var values: seq<Value> := [];
    var c := 0;
    for i := 0 to |signature|
      invariant c == |Letters(signature[..i])|
      invariant UnpackLetters(Letters(signature[..i]), args[..], types, server) == Ok(values)
    {
      var ch := signature[i];
      LettersStep(signature, i);
      if ch == '?' || IsDigit(ch) {
        continue;
      }
      var a := if c >= args.Length then Err(OutOfRange) else UnpackLetter(ch, args[c], types, c, server);
      if a.Err? {
        UnpackErrorStays(signature, args[..], types, server, i + 1);
        return Err(a.error);
      }
      values := values + [a.value];
      c := c + 1;
    }
    assert signature[..|signature|] == signature;
    vargs := Ok(values);
  }

  lemma {:induction false} UnpackErrorStays(
    signature: string, args: seq<WlArgument>, types: seq<Option<string>>, server: bool, n: nat)
    requires n <= |signature| && UnpackLetters(Letters(signature[..n]), args, types, server).Err?
    ensures UnpackLetters(Letters(signature), args, types, server)
         == UnpackLetters(Letters(signature[..n]), args, types, server)
    decreases |signature| - n
  {
    if n == |signature| {
      assert signature[..n] == signature;
    } else {
      var more := signature[..n + 1];
      assert more[..n] == signature[..n];
      if Skipped(more[n]) {
        assert Letters(more) == Letters(signature[..n]);
      } else {
        assert Letters(more)[..|Letters(more)| - 1] == Letters(signature[..n]);
      }
      UnpackErrorStays(signature, args, types, server, n + 1);
    }
  }

  // ------------------------------------------------------ the generated switch

  // A constructor call around an unpacked value.  The server's generated classes
  // call set_events, which looks into the handle's data; the client's look first
  // whether there is an object.
  function WrapAs(t: CppType, v: Value, server: bool): Result<Value, Failure> {
    match t
    case EnumT(iface, name) =>
      if v.VInt32? then Ok(VEnum(iface, name, ToUint32(v.i)))
      else if v.VUint32? then Ok(VEnum(iface, name, v.u))
      else Err(BadCast)
    case ClassT(iface) =>
      if !v.VBase? then Err(BadCast)
      else if server && v.referent.Nothing? then Err(NullData)
      else Ok(VClass(iface, v.referent))
    case _ => Ok(v)
  }

  function RunStep(step: DecodeStep, vargs: seq<Value>, server: bool): Result<Value, Failure> {
    if step.index >= |vargs| then Err(OutOfRange)
    else if TypeOf(vargs[step.index]) != step.get then Err(BadCast)
    else if step.wrap.None? then Ok(vargs[step.index])
    else WrapAs(step.wrap.value, vargs[step.index], server)
  }

  function RunSteps(steps: seq<DecodeStep>, vargs: seq<Value>, server: bool): Result<seq<Value>, Failure> {
    if steps == [] then Ok([])
    else
      match (RunSteps(steps[..|steps| - 1], vargs, server), RunStep(steps[|steps| - 1], vargs, server))
      case (Ok(front), Ok(v)) => Ok(front + [v])
      case (Err(e), _) => Err(e)
      case (_, Err(e)) => Err(e)
  }

  lemma RunNext(steps: seq<DecodeStep>, vargs: seq<Value>, server: bool,
                front: Result<seq<Value>, Failure>, v: Result<Value, Failure>)
    requires steps != [] && RunSteps(steps[..|steps| - 1], vargs, server) == front
    requires RunStep(steps[|steps| - 1], vargs, server) == v
    ensures RunSteps(steps, vargs, server)
      == if front.Err? then front else if v.Err? then Err(v.error) else Ok(front.value + [v.value])
  {
  }

  datatype Outcome = Called(handler: string, values: seq<Value>) | NotCalled | Failed(failure: Failure)

  // The switch: the case with the opcode calls its handler if one is set.
  function Switch(cases: seq<Case>, opcode: nat, vargs: seq<Value>, server: bool, handlers: set<string>): Outcome {
    if cases == [] then NotCalled
    else if cases[|cases| - 1].opcode == opcode then
      var c := cases[|cases| - 1];
      if c.name !in handlers then NotCalled
      else
        match RunSteps(c.steps, vargs, server)
        case Ok(values) => Called(c.name, values)
        case Err(e) => Failed(e)
    else Switch(cases[..|cases| - 1], opcode, vargs, server, handlers)
  }
}
