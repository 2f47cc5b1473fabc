// Interface descriptions, as the scanner holds them after reading the XML
// (scanner/scanner.cpp), and the numbering its parsing loop gives to messages.

module Protocol {

  // The `type` attribute of an argument; Other stands for any text the scanner does
  // not know.
  datatype ArgType = Int | Uint | Fixed | Text | Object | NewId | Array | Fd | Other(text: string)

  // argument_t.  An absent attribute is the empty string, as in the source.
  datatype Argument = Argument(
    name: string,
    typ: ArgType,
    iface: string,
    enumIface: string,
    enumName: string,
    allowNull: bool)

  const NO_ARGUMENT := Argument("", Other(""), "", "", "", false)

  // What the XML says of a request or an event.
  datatype Description = Description(name: string, since: int, args: seq<Argument>)

  // request_t and event_t.
  datatype Message = Message(name: string, since: int, args: seq<Argument>, ret: Argument, opcode: nat)

  // ------------------------------------------------------------------ parsing

  // The last new_id argument, which the generated function returns.
  function ReturnOf(args: seq<Argument>): (ret: Argument)
    ensures ret != NO_ARGUMENT ==> ret in args && ret.typ == NewId
  {
    if args == [] then NO_ARGUMENT
    else if args[|args| - 1].typ == NewId then args[|args| - 1]
    else ReturnOf(args[..|args| - 1])
  }

  predicate LastNewId(args: seq<Argument>, i: int) {
    0 <= i < |args| && args[i].typ == NewId && forall j | i < j < |args| :: args[j].typ != NewId
  }

  lemma {:induction false} ReturnIsLastNewId(args: seq<Argument>, i: int)
    requires LastNewId(args, i)
    ensures ReturnOf(args) == args[i]
    decreases |args|
  {
    var n := |args| - 1;
    if i < n {
      assert args[n].typ != NewId && LastNewId(args[..n], i);
      ReturnIsLastNewId(args[..n], i);
    }
  }

  lemma {:induction false} ReturnedIsLast(args: seq<Argument>) returns (i: int)
    ensures if ReturnOf(args) == NO_ARGUMENT then forall a | a in args :: a.typ != NewId
            else LastNewId(args, i) && args[i] == ReturnOf(args)
  {
    i := |args| - 1;
    if args != [] && args[i].typ != NewId {
      assert args == args[..i] + [args[i]];
      i := ReturnedIsLast(args[..i]);
    }
  }

  function Numbered(descriptions: seq<Description>): (messages: seq<Message>)
    ensures |messages| == |descriptions|
    ensures forall k | 0 <= k < |messages| ::
      && messages[k].opcode == k
      && messages[k].name == descriptions[k].name
      && messages[k].since == descriptions[k].since
      && messages[k].args == descriptions[k].args
      && messages[k].ret == ReturnOf(descriptions[k].args)
  {
    seq(|descriptions|, k requires 0 <= k < |descriptions| =>
      var d := descriptions[k]; Message(d.name, d.since, d.args, ReturnOf(d.args), k))
  }

  // destroy_opcode is the number of the last request called "destroy", or -1.
  predicate IsDestroyOpcode(descriptions: seq<Description>, opcode: int) {
    && -1 <= opcode < |descriptions|
    && (opcode >= 0 ==> descriptions[opcode].name == "destroy")
    && (forall k | opcode < k < |descriptions| :: descriptions[k].name != "destroy")
  }

  method ParseMessage(d: Description, opcode: nat) returns (m: Message)
    ensures m == Message(d.name, d.since, d.args, ReturnOf(d.args), opcode)
  {
    var ret := NO_ARGUMENT;
    var args: seq<Argument> := [];
    for i := 0 to |d.args|
      invariant args == d.args[..i] && ret == ReturnOf(d.args[..i])
    {
      assert d.args[..i + 1][..i] == d.args[..i];
      if d.args[i].typ == NewId {
        ret := d.args[i];
      }
      args := args + [d.args[i]];
    }
    assert d.args[..|d.args|] == d.args;
    m := Message(d.name, d.since, args, ret, opcode);
  }

  // The loop over an interface's requests: opcodes in document order, and the
  // destroy opcode on the way.  Events go through the same loop.
  method ParseMessages(descriptions: seq<Description>) returns (messages: seq<Message>, destroyOpcode: int)
    ensures messages == Numbered(descriptions)
    ensures IsDestroyOpcode(descriptions, destroyOpcode)
  {
    var opcode := 0;
    messages, destroyOpcode := [], -1;
    for i := 0 to |descriptions|
      invariant opcode == i && messages == Numbered(descriptions)[..i]
      invariant IsDestroyOpcode(descriptions[..i], destroyOpcode)
    {
      var m := ParseMessage(descriptions[i], opcode);
      opcode := opcode + 1;
      if m.name == "destroy" {
        destroyOpcode := m.opcode;
      }
      messages := messages + [m];
    }
    assert descriptions[..|descriptions|] == descriptions;
  }

  // ----------------------------------------------------------- well-formedness

  predicate UntypedNewId(a: Argument) {
    a.typ == NewId && a.iface == ""
  }

  // A known type; an interface only on objects and new ids; an enumeration, fully
  // named, only on integers.
  predicate WellFormedArgument(a: Argument) {
    && !a.typ.Other?
    && (a.iface != "" ==> a.typ == Object || a.typ == NewId)
    && (a.enumName != "" <==> a.enumIface != "")
    && (a.enumName != "" ==> a.typ == Int || a.typ == Uint)
  }

  predicate WellFormedMessage(m: Message) {
    && (forall a | a in m.args :: WellFormedArgument(a))
    && m.ret == ReturnOf(m.args)
    && (forall a | a in m.args && a.typ == NewId :: a.name != "")
  }

  predicate WellFormedMessages(messages: seq<Message>) {
    && (forall k | 0 <= k < |messages| :: WellFormedMessage(messages[k]) && messages[k].opcode == k)
    && (forall j, k | 0 <= j < k < |messages| :: messages[j].name != messages[k].name)
  }

  // What the parser produces from a well-formed description is well-formed.
  lemma ParsedIsWellFormed(descriptions: seq<Description>)
    requires forall d | d in descriptions :: forall a | a in d.args ::
      WellFormedArgument(a) && (a.typ == NewId ==> a.name != "")
    requires forall j, k | 0 <= j < k < |descriptions| :: descriptions[j].name != descriptions[k].name
    ensures WellFormedMessages(Numbered(descriptions))
  {
    var messages := Numbered(descriptions);
    forall k | 0 <= k < |messages| ensures WellFormedMessage(messages[k]) {
      assert descriptions[k] in descriptions;
    }
  }
}
