// From the call of a generated stub to the call of the generated handler.
//
// libwayland's transport is the identity on opcode and arguments, except that it
// assigns the object id of a new_id argument; each side looks up the signature and
// the types table of the opcode in its generated interface.

module EndToEnd {
  import opened Common
  import opened Protocol
  import opened Scanner
  import opened Wire
  import opened Dispatch
  import opened Signatures
  import opened Delivery

  // ------------------------------------------------------------------- requests

  function Deliver(letters: string, wires: seq<WlArgument>, ids: seq<nat>): (delivered: seq<WlArgument>)
    ensures |delivered| == |wires|
    ensures forall i | 0 <= i < |wires| ::
      delivered[i] == if i < |letters| && i < |ids| && letters[i] == 'n' then N(ids[i]) else wires[i]
  {
    seq(|wires|, i requires 0 <= i < |wires| =>
      if i < |letters| && i < |ids| && letters[i] == 'n' then N(ids[i]) else wires[i])
  }

  // Calling the client stub of request k; ids are the object ids libwayland assigns.
  function SendRequest(messages: seq<Message>, k: nat, params: seq<Value>, binding: Binding,
                       ids: seq<nat>, handlers: set<string>): Outcome
    requires k < |messages|
  {
    match EncodeSteps(messages[k].args)
    case Err(_) => Failed(NotGenerated)
    case Ok(steps) =>
      match Encode(steps, params, binding)
      case None => Failed(NotGenerated)
      case Some(wires) =>
        var opcode := messages[k].opcode;
        if opcode >= |messages| then Failed(NotGenerated)
        else
          var letters := Letters(Signature(messages[opcode]));
          Receive(messages, opcode, Deliver(letters, wires, ids), true, handlers)
  }

  // A parameter as the handler sees it.
  function Received(p: Value, server: bool): Value {
    match p
    case VDouble(d) => VDouble(FixedToDouble(FixedFromDouble(d)))
    case VString(s) => VString(CString(s))
    case VBase(_, referent) => VBase(server, referent)
    case _ => p
  }

  // The same value on the other side: equal, a handle being a handle to the same object.
  function SameOn(p: Value, server: bool): Value {
    if p.VBase? then VBase(server, p.referent) else p
  }

  // What the wire format can carry: fixed-point multiples of 1/256 in range, strings
  // without NUL.
  predicate Representable(p: Value) {
    && (p.VDouble? ==> ExactFixed(p.d))
    && (p.VString? ==> '\0' !in p.s)
  }

  lemma ReceivedIntact(p: Value, server: bool)
    ensures Received(p, server) == SameOn(p, server) <==> Representable(p)
  {
    if p.VDouble? { FixedRoundTrip(p.d); }
    if p.VString? { CStringRoundTrip(p.s); }
  }

  // One argument that is not a new_id, from stub to handler.
  lemma OneArrives(a: Argument, p: Value, server: bool)
    requires WellFormedArgument(a) && a.typ != NewId && ParameterOf(a, !server, p)
    ensures Handed(a, Unpacked(a, WireOf(a, p, !server), server)) == Received(p, server)
    ensures MissingObject(a, WireOf(a, p, !server), server)
      <==> server && p.VClass? && p.referent.Nothing?
  {
  }

  // A typed object parameter that is null.
  predicate NullTypedObject(m: Message, params: seq<Value>)
    requires |params| == |m.args|
  {
    exists i | 0 <= i < |params| :: m.args[i].typ != NewId && params[i].VClass? && params[i].referent.Nothing?
  }

  function ArrivedRequest(m: Message, params: seq<Value>, ids: seq<nat>): (values: seq<Value>)
    requires |params| == |m.args| == |ids|
    ensures |values| == |params|
    ensures forall i | 0 <= i < |params| ::
      values[i] == if m.args[i].typ == NewId then VClass(m.args[i].iface, Fresh(ids[i], m.args[i].iface))
                   else Received(params[i], true)
  {
    seq(|params|, i requires 0 <= i < |params| =>
      if m.args[i].typ == NewId then VClass(m.args[i].iface, Fresh(ids[i], m.args[i].iface))
      else Received(params[i], true))
  }

  lemma DeliveredConforms(m: Message, params: seq<Value>, binding: Binding, ids: seq<nat>)
    requires WellFormedMessage(m) && Typed(m.args) && ParametersOf(m, false, params) && |ids| == |m.args|
    ensures EncodeSteps(m.args).Ok? && Encode(EncodeSteps(m.args).value, params, binding).Some?
    ensures var wires := Encode(EncodeSteps(m.args).value, params, binding).value;
      && |wires| == |m.args|
      && Conforms(Letters(Signature(m)), Deliver(Letters(Signature(m)), wires, ids), true)
      && (forall i | 0 <= i < |m.args| ::
            && WellFormedArgument(m.args[i])
            && Deliver(Letters(Signature(m)), wires, ids)[i]
               == if m.args[i].typ == NewId then N(ids[i]) else WireOf(m.args[i], params[i], false))
  {
    StubMatchesSignature(m, false, params, binding);
    EncodeIsWires(m.args, params, params, false, binding);
    var wires := Encode(EncodeSteps(m.args).value, params, binding).value;
    DeliverConforms(Letters(Signature(m)), wires, ids);
    DeliveredEach(m, params, binding, ids, wires);
  }

  lemma DeliveredEach(m: Message, params: seq<Value>, binding: Binding, ids: seq<nat>, wires: seq<WlArgument>)
    requires WellFormedMessage(m) && Typed(m.args) && Matched(m.args, false, params) && |ids| == |m.args|
    requires wires == AllWires(m.args, params, false, binding)
    ensures |wires| == |m.args|
    ensures forall i | 0 <= i < |m.args| ::
      && WellFormedArgument(m.args[i])
      && Deliver(Letters(Signature(m)), wires, ids)[i]
         == if m.args[i].typ == NewId then N(ids[i]) else WireOf(m.args[i], params[i], false)
  {
    TypedWires(m.args, params, false, binding);
    NewIdLetters(m);
    forall i | 0 <= i < |m.args|
      ensures WellFormedArgument(m.args[i])
      ensures Deliver(Letters(Signature(m)), wires, ids)[i]
           == if m.args[i].typ == NewId then N(ids[i]) else WireOf(m.args[i], params[i], false)
    {
      assert m.args[i] in m.args;
      assert wires[i] == WireOf(m.args[i], params[i], false);
    }
  }

  lemma NewIdLetters(m: Message)
    requires WellFormedMessage(m) && Typed(m.args)
    ensures |Letters(Signature(m))| == |m.args|
    ensures forall i | 0 <= i < |m.args| :: Letters(Signature(m))[i] == 'n' <==> m.args[i].typ == NewId
  {
    LettersOfSignature(m);
    TypedLetters(m.args);
    forall i | 0 <= i < |m.args| ensures Letters(Signature(m))[i] == 'n' <==> m.args[i].typ == NewId {
      assert m.args[i] in m.args;
    }
  }

  // Assigning ids to the new objects does not change the kind of any argument.
  lemma DeliverConforms(letters: string, wires: seq<WlArgument>, ids: seq<nat>)
    requires Match(wires, letters)
    ensures Conforms(letters, Deliver(letters, wires, ids), true)
  {
  }

  // Every request but the destructor reaches exactly its own handler on the server,
  // with what was passed at every other position and a fresh resource of the declared
  // interface at the new_id position; unless a typed object argument is null, in which
  // case the server's generated code dereferences a null pointer.
  lemma RequestArrives(messages: seq<Message>, k: nat, params: seq<Value>, binding: Binding,
                       ids: seq<nat>, handlers: set<string>)
    requires WellFormedMessages(messages) && k < |messages| && messages[k].name != "destroy"
    requires Typed(messages[k].args) && ParametersOf(messages[k], false, params)
    requires |ids| == |messages[k].args|
    requires forall i | 0 <= i < |ids| && messages[k].args[i].typ == NewId :: ids[i] != 0
    ensures SendRequest(messages, k, params, binding, ids, handlers) ==
      if messages[k].name !in handlers then NotCalled
      else if NullTypedObject(messages[k], params) then Failed(NullData)
      else Called(messages[k].name, ArrivedRequest(messages[k], params, ids))
  {
    var m := messages[k];
    assert WellFormedMessage(m) && m.opcode == k;
    DeliveredConforms(m, params, binding, ids);
    var wires := Encode(EncodeSteps(m.args).value, params, binding).value;
    var delivered := Deliver(Letters(Signature(m)), wires, ids);
    ReceiveCallsHandler(messages, k, delivered, true, handlers);
    HandlerSeesRequest(m, params, ids, delivered, handlers);
  }

  lemma HandlerSeesRequest(m: Message, params: seq<Value>, ids: seq<nat>, delivered: seq<WlArgument>,
                           handlers: set<string>)
    requires WellFormedMessage(m) && Typed(m.args) && ParametersOf(m, false, params)
    requires |ids| == |m.args| == |delivered|
    requires forall i | 0 <= i < |ids| && m.args[i].typ == NewId :: ids[i] != 0
    requires forall i | 0 <= i < |m.args| ::
      && WellFormedArgument(m.args[i])
      && delivered[i] == if m.args[i].typ == NewId then N(ids[i]) else WireOf(m.args[i], params[i], false)
    ensures HandlerSees(m, delivered, true, handlers) ==
      if m.name !in handlers then NotCalled
      else if NullTypedObject(m, params) then Failed(NullData)
      else Called(m.name, ArrivedRequest(m, params, ids))
  {
    forall i | 0 <= i < |m.args|
      ensures MissingObject(m.args[i], delivered[i], true)
        <==> m.args[i].typ != NewId && params[i].VClass? && params[i].referent.Nothing?
      ensures Handed(m.args[i], Unpacked(m.args[i], delivered[i], true)) == ArrivedRequest(m, params, ids)[i]
    {
      assert m.args[i] in m.args;
      if m.args[i].typ != NewId { OneArrives(m.args[i], params[i], true); }
    }
    var seen := HandlerSees(m, delivered, true, handlers);
    if seen.Called? {
      assert seen.values == ArrivedRequest(m, params, ids);
    }
  }

  // The values a caller means the handler to get.
  function IntendedRequest(m: Message, params: seq<Value>, ids: seq<nat>): (values: seq<Value>)
    requires |params| == |m.args| == |ids|
    ensures |values| == |params|
    ensures forall i | 0 <= i < |params| ::
      values[i] == if m.args[i].typ == NewId then VClass(m.args[i].iface, Fresh(ids[i], m.args[i].iface))
                   else SameOn(params[i], true)
  {
    seq(|params|, i requires 0 <= i < |params| =>
      if m.args[i].typ == NewId then VClass(m.args[i].iface, Fresh(ids[i], m.args[i].iface))
      else SameOn(params[i], true))
  }

  // So the handler is called with the very values that were passed if and only if it
  // is set, no typed object is null, and the wire format can carry the values.
  lemma RequestArrivesIntact(messages: seq<Message>, k: nat, params: seq<Value>, binding: Binding,
                             ids: seq<nat>, handlers: set<string>)
    requires WellFormedMessages(messages) && k < |messages| && messages[k].name != "destroy"
    requires Typed(messages[k].args) && ParametersOf(messages[k], false, params)
    requires |ids| == |messages[k].args|
    requires forall i | 0 <= i < |ids| && messages[k].args[i].typ == NewId :: ids[i] != 0
    ensures var m := messages[k];
      SendRequest(messages, k, params, binding, ids, handlers) == Called(m.name, IntendedRequest(m, params, ids))
      <==> m.name in handlers && !NullTypedObject(m, params)
           && (forall i | 0 <= i < |params| && m.args[i].typ != NewId :: Representable(params[i]))
  {
    RequestArrives(messages, k, params, binding, ids, handlers);
    var m := messages[k];
    var arrived, intended := ArrivedRequest(m, params, ids), IntendedRequest(m, params, ids);
    forall i | 0 <= i < |params| && m.args[i].typ != NewId
      ensures arrived[i] == intended[i] <==> Representable(params[i])
    {
      ReceivedIntact(params[i], true);
    }
    if forall i | 0 <= i < |params| && m.args[i].typ != NewId :: Representable(params[i]) {
      assert arrived == intended;
    }
  }

  // A message with a null typed object: `attach(buffer: object<buffer>?)`, as in
  // wl_surface.  The allow-null mark does not help.
  lemma NullTypedObjectFails()
    ensures var a := Argument("buffer", Object, "buffer", "", "", true);
      var m := Message("attach", 1, [a], NO_ARGUMENT, 0);
      && WellFormedMessages([m]) && ParametersOf(m, false, [VClass("buffer", Nothing)])
      && SendRequest([m], 0, [VClass("buffer", Nothing)], Binding("", 0), [0], {"attach"}) == Failed(NullData)
  {
    var a := Argument("buffer", Object, "buffer", "", "", true);
    var m := Message("attach", 1, [a], NO_ARGUMENT, 0);
    var p := VClass("buffer", Nothing);
    assert ReturnOf([a]) == ReturnOf([a][..0]) == NO_ARGUMENT;
    assert WellFormedMessages([m]) && [m][0].name != "destroy";
    assert NullTypedObject(m, [p]) by { assert [p][0] == p && m.args[0] == a; }
    RequestArrives([m], 0, [p], Binding("", 0), [0], {"attach"});
  }

  // A fixed argument out of range arrives as another number.
  lemma FixedOutOfRange()
    ensures var m := Message("set", 1, [Argument("x", Fixed, "", "", "", false)], NO_ARGUMENT, 0);
      && WellFormedMessages([m]) && ParametersOf(m, false, [VDouble(8388608.0)])
      && SendRequest([m], 0, [VDouble(8388608.0)], Binding("", 0), [0], {"set"})
         == Called("set", [VDouble(-8388608.0)])
  {
    var a := Argument("x", Fixed, "", "", "", false);
    var m := Message("set", 1, [a], NO_ARGUMENT, 0);
    var p := VDouble(8388608.0);
    assert ReturnOf([a]) == ReturnOf([a][..0]) == NO_ARGUMENT;
    assert WellFormedMessages([m]) && [m][0].name != "destroy";
    assert !NullTypedObject(m, [p]);
    RequestArrives([m], 0, [p], Binding("", 0), [0], {"set"});
    FixedWraps();
    assert ArrivedRequest(m, [p], [0]) == [VDouble(-8388608.0)];
  }

  // The destructor's own request: wl_proxy_marshal with the recorded opcode and no
  // arguments reaches the server's handler of the request called "destroy".
  lemma DestroyRequestArrives(descriptions: seq<Description>, opcode: int, handlers: set<string>)
    requires WellFormedMessages(Numbered(descriptions)) && IsDestroyOpcode(descriptions, opcode) && opcode >= 0
    requires descriptions[opcode].args == []
    ensures Receive(Numbered(descriptions), opcode, [], true, handlers)
      == if "destroy" in handlers then Called("destroy", []) else NotCalled
  {
    var m := Numbered(descriptions)[opcode];
    LettersOfSignature(m);
    ReceiveCallsHandler(Numbered(descriptions), opcode, [], true, handlers);
  }

  // --------------------------------------------------------------------- events

  // Calling the server stub of event k, posted or queued; `known` says whether the
  // client's proxy still has its user data.
  function SendEvent(messages: seq<Message>, k: nat, params: seq<Value>, known: bool, handlers: set<string>): Outcome
    requires k < |messages|
  {
    match EncodeSteps(messages[k].args)
    case Err(_) => Failed(NotGenerated)
    case Ok(steps) =>
      match Encode(steps, params, Binding("", 0))
      case None => Failed(NotGenerated)
      case Some(wires) => if !known then NotCalled else Receive(messages, messages[k].opcode, wires, false, handlers)
  }

  function ArrivedEvent(params: seq<Value>): (values: seq<Value>)
    ensures |values| == |params|
    ensures forall i | 0 <= i < |params| :: values[i] == Received(params[i], false)
  {
    seq(|params|, i requires 0 <= i < |params| => Received(params[i], false))
  }

  // Every event without a new_id reaches exactly its own handler on the client; null
  // objects arrive as empty handles.
  lemma EventArrives(messages: seq<Message>, k: nat, params: seq<Value>, known: bool, handlers: set<string>)
    requires WellFormedMessages(messages) && k < |messages| && ParametersOf(messages[k], true, params)
    requires forall a | a in messages[k].args :: a.typ != NewId
    ensures SendEvent(messages, k, params, known, handlers) ==
      if !known || messages[k].name !in handlers then NotCalled
      else Called(messages[k].name, ArrivedEvent(params))
  {
    var m := messages[k];
    assert WellFormedMessage(m) && m.opcode == k;
    EventWires(m, params);
    var wires := Encode(EncodeSteps(m.args).value, params, Binding("", 0)).value;
    ReceiveCallsHandler(messages, k, wires, false, handlers);
    HandlerSeesEvent(m, params, wires, handlers);
  }

  // What the server stub of an event hands to libwayland.
  lemma EventWires(m: Message, params: seq<Value>)
    requires WellFormedMessage(m) && ParametersOf(m, true, params) && (forall a | a in m.args :: a.typ != NewId)
    ensures Typed(m.args) && EncodeSteps(m.args).Ok? && Encode(EncodeSteps(m.args).value, params, Binding("", 0)).Some?
    ensures var wires := Encode(EncodeSteps(m.args).value, params, Binding("", 0)).value;
      && |wires| == |m.args| && Conforms(Letters(Signature(m)), wires, false)
      && (forall i | 0 <= i < |m.args| :: m.args[i] in m.args && wires[i] == WireOf(m.args[i], params[i], true))
  {
    StubMatchesSignature(m, true, params, Binding("", 0));
    EncodeIsWires(m.args, params, params, true, Binding("", 0));
    TypedWires(m.args, params, true, Binding("", 0));
    NoNewIdLetter(m);
  }

  lemma NoNewIdLetter(m: Message)
    requires WellFormedMessage(m) && (forall a | a in m.args :: a.typ != NewId)
    ensures forall i | 0 <= i < |Letters(Signature(m))| :: Letters(Signature(m))[i] != 'n'
  {
    LettersOfSignature(m);
    TypedLetters(m.args);
    forall i | 0 <= i < |Letters(Signature(m))| ensures Letters(Signature(m))[i] != 'n' {
      assert m.args[i] in m.args;
    }
  }

  lemma HandlerSeesEvent(m: Message, params: seq<Value>, wires: seq<WlArgument>, handlers: set<string>)
    requires WellFormedMessage(m) && ParametersOf(m, true, params) && |wires| == |m.args|
    requires forall a | a in m.args :: a.typ != NewId
    requires forall i | 0 <= i < |m.args| :: m.args[i] in m.args && wires[i] == WireOf(m.args[i], params[i], true)
    ensures HandlerSees(m, wires, false, handlers)
      == if m.name !in handlers then NotCalled else Called(m.name, ArrivedEvent(params))
  {
    forall i | 0 <= i < |m.args|
      ensures !MissingObject(m.args[i], wires[i], false)
      ensures Handed(m.args[i], Unpacked(m.args[i], wires[i], false)) == ArrivedEvent(params)[i]
    {
      OneArrives(m.args[i], params[i], false);
    }
    var seen := HandlerSees(m, wires, false, handlers);
    if seen.Called? {
      assert seen.values == ArrivedEvent(params);
    }
  }

  lemma EventArrivesIntact(messages: seq<Message>, k: nat, params: seq<Value>, handlers: set<string>)
    requires WellFormedMessages(messages) && k < |messages| && ParametersOf(messages[k], true, params)
    requires forall a | a in messages[k].args :: a.typ != NewId
    ensures SendEvent(messages, k, params, true, handlers)
        == Called(messages[k].name, seq(|params|, i requires 0 <= i < |params| => SameOn(params[i], false)))
      <==> messages[k].name in handlers && (forall i | 0 <= i < |params| :: Representable(params[i]))
  {
    EventArrives(messages, k, params, true, handlers);
    var arrived := ArrivedEvent(params);
    var intended := seq(|params|, i requires 0 <= i < |params| => SameOn(params[i], false));
    forall i | 0 <= i < |params| ensures arrived[i] == intended[i] <==> Representable(params[i]) {
      ReceivedIntact(params[i], false);
    }
    if forall i | 0 <= i < |params| :: Representable(params[i]) {
      assert arrived == intended;
    }
  }

  // ------------------------------------------------------------- generated code

  // The generated pieces put together as they run: the stub the printer printed, the
  // loop over the printed signature, the printed switch.
  method RunRequest(messages: seq<Message>, k: nat, params: seq<Value>, binding: Binding,
                    ids: seq<nat>, handlers: set<string>)
    returns (outcome: Outcome)
    requires k < |messages|
    ensures outcome == SendRequest(messages, k, params, binding, ids, handlers)
  {
    var stub := PrintBody(messages[k], false);
    if stub.Err? {
      return Failed(NotGenerated);
    }
    var wires := Encode(stub.value.steps, params, binding);
    var opcode := stub.value.opcode;
    if wires.None? || opcode >= |messages| {
      return Failed(NotGenerated);
    }
    var signature := PrintSignature(messages[opcode]);
    var args := CopyArguments(Deliver(Letters(signature), wires.value, ids));
    outcome := RunDispatcher(messages, opcode, signature, args, true, handlers);
  }

  // post_event_array and queue_event_array carry out the same loop.
  method RunEvent(messages: seq<Message>, k: nat, params: seq<Value>, known: bool, handlers: set<string>)
    returns (outcome: Outcome)
    requires k < |messages| && messages[k].opcode < |messages|
    ensures outcome == SendEvent(messages, k, params, known, handlers)
  {
    var stub := PrintBody(messages[k], true);
    if stub.Err? {
      return Failed(NotGenerated);
    }
    var wires := Encode(stub.value.steps, params, Binding("", 0));
    if wires.None? {
      return Failed(NotGenerated);
    }
    if !known {
      return NotCalled;
    }
    var signature := PrintSignature(messages[stub.value.opcode]);
    var args := CopyArguments(wires.value);
    outcome := RunDispatcher(messages, stub.value.opcode, signature, args, false, handlers);
  }

  method RunDispatcher(messages: seq<Message>, opcode: nat, signature: string, args: array<WlArgument>,
                       server: bool, handlers: set<string>)
    returns (outcome: Outcome)
    requires opcode < |messages| && signature == Signature(messages[opcode])
    ensures outcome == Receive(messages, opcode, args[..], server, handlers)
  {
    var cases := PrintSwitch(messages, server);
    if cases.Err? {
      return Failed(NotGenerated);
    }
    var vargs := CDispatcher(signature, args, TypesTable(messages[opcode]), server);
    match vargs {
      case Err(e) => outcome := Failed(e);
      case Ok(values) => outcome := Switch(cases.value, opcode, values, server, handlers);
    }
  }

  // ------------------------------------------- what the well-formedness is needed for

  // Where the scanner would also accept an enumeration on an array, the generated
  // `get` asks for the enumeration although an array is stored, and the stub printer
  // stops with an error: on arguments that are well-formed up to this, exactly then.
  predicate WellFormedUpToArrays(a: Argument) {
    && !a.typ.Other?
    && (a.iface != "" ==> a.typ == Object || a.typ == NewId)
    && (a.enumName != "" <==> a.enumIface != "")
    && (a.enumName != "" ==> a.typ == Int || a.typ == Uint || a.typ == Array)
  }

  lemma GetFailsIffEnumOnArray(a: Argument, w: WlArgument, types: seq<Option<string>>, c: nat, server: bool)
    requires WellFormedUpToArrays(a) && !UntypedNewId(a) && c < |types|
    requires types[c] == if a.iface != "" then Some(a.iface) else None
    requires MemberLetter(w) == if !server && a.typ == NewId then 'o' else PrintShort(a.typ)
    ensures UnpackLetter(PrintShort(a.typ), w, types, c, server).Ok? && DecodeArgument(a, c, server).Ok?
    ensures (TypeOf(UnpackLetter(PrintShort(a.typ), w, types, c, server).value)
             != DecodeArgument(a, c, server).value.get)
            <==> (a.typ == Array && a.enumName != "")
    ensures EncodeArgument(a, c).Err? <==> (a.typ == Array && a.enumName != "")
  {
  }

  // The constructor a client stub calls is for the interface that the server's table
  // names at the new_id position.
  lemma ConstructorMatchesTable(m: Message, i: nat)
    requires WellFormedMessage(m) && Typed(m.args) && i < |m.args| && m.args[i].typ == NewId
    requires forall j | 0 <= j < |m.args| && m.args[j].typ == NewId :: j == i
    ensures TypesTable(m)[i].Some? && CallOf(m, false) == MarshalConstructor(TypesTable(m)[i].value)
  {
    ReturnIsLastNewId(m.args, i);
    assert m.args[i] in m.args;
  }

  // So the client's new proxy and the server's new resource are of the same interface
  // and have the id libwayland chose.
  lemma NewObjectAgrees(messages: seq<Message>, k: nat, params: seq<Value>, binding: Binding,
                        ids: seq<nat>, handlers: set<string>, i: nat)
    requires WellFormedMessages(messages) && k < |messages| && messages[k].name != "destroy"
    requires Typed(messages[k].args) && ParametersOf(messages[k], false, params) && |ids| == |messages[k].args|
    requires i < |messages[k].args| && messages[k].args[i].typ == NewId && ids[i] != 0
    requires forall j | 0 <= j < |messages[k].args| && messages[k].args[j].typ == NewId :: j == i
    ensures var m, outcome := messages[k], SendRequest(messages, k, params, binding, ids, handlers);
      CallOf(m, false).MarshalConstructor?
      && (outcome.Called? ==>
            |outcome.values| == |m.args|
            && outcome.values[i] == VClass(CallOf(m, false).iface, Fresh(ids[i], CallOf(m, false).iface)))
  {
    RequestArrives(messages, k, params, binding, ids, handlers);
    assert messages[k].args[i] in messages[k].args;
    ConstructorMatchesTable(messages[k], i);
  }
}
