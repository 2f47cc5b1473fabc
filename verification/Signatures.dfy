// What the signature printer writes can be read back: the dispatcher loop sees exactly
// the declared letters, and since-version and null marks are not lost either.

module Signatures {
  import opened Common
  import opened Protocol
  import opened Scanner
  import opened Dispatch

  // --------------------------------------------------- signatures and letters

  lemma {:induction false} LettersConcat(a: string, b: string)
    ensures Letters(a + b) == Letters(a) + Letters(b)
    decreases |b|
  {
    if b == [] {
      assert a + b == a;
    } else {
      var n := |b| - 1;
      assert (a + b)[..|a + b| - 1] == a + b[..n];
      LettersConcat(a, b[..n]);
    }
  }

  lemma {:induction false} DecimalIsSkipped(n: nat)
    ensures Letters(Decimal(n)) == [] && |Decimal(n)| > 0
    ensures forall i | 0 <= i < |Decimal(n)| :: IsDigit(Decimal(n)[i])
    decreases n
  {
    if n >= 10 {
      DecimalIsSkipped(n / 10);
      LettersConcat(Decimal(n / 10), [Digit(n % 10)]);
    }
  }

  // The letters of a declaration: those the dispatcher loop is meant to see.
  function DeclaredLetters(args: seq<Argument>): string {
    if args == [] then []
    else DeclaredLetters(args[..|args| - 1]) + ArgumentLetters(args[|args| - 1])
  }

  lemma LettersOfArgument(a: Argument)
    ensures Letters(ArgumentSignature(a)) == ArgumentLetters(a)
  {
    var letters := ArgumentLetters(a);
    assert Letters(letters) == letters by {
      LettersConcat(if UntypedNewId(a) then "su" else "", [PrintShort(a.typ)]);
      LettersConcat("s", "u");
      assert "su" == "s" + "u";
    }
    LettersConcat(if a.allowNull then "?" else "", letters);
  }

  lemma {:induction false} LettersOfArguments(args: seq<Argument>)
    ensures Letters(ArgumentsSignature(args)) == DeclaredLetters(args)
  {
    if args != [] {
      var n := |args| - 1;
      LettersOfArguments(args[..n]);
      LettersConcat(ArgumentsSignature(args[..n]), ArgumentSignature(args[n]));
      LettersOfArgument(args[n]);
    }
  }

  // The dispatcher loop skips exactly the version and the null marks, whatever the
  // version and wherever the marks.
  lemma LettersOfSignature(m: Message)
    ensures Letters(Signature(m)) == DeclaredLetters(m.args)
  {
    LettersOfArguments(m.args);
    if m.since > 1 {
      DecimalIsSkipped(m.since);
      LettersConcat(Decimal(m.since), ArgumentsSignature(m.args));
    } else {
      assert Signature(m) == ArgumentsSignature(m.args);
    }
  }

  function Untyped(args: seq<Argument>): nat {
    if args == [] then 0
    else Untyped(args[..|args| - 1]) + (if UntypedNewId(args[|args| - 1]) then 1 else 0)
  }

  predicate Typed(args: seq<Argument>) {
    forall a | a in args :: !UntypedNewId(a)
  }

  lemma {:induction false} UntypedCount(args: seq<Argument>)
    ensures |DeclaredLetters(args)| == |args| + 2 * Untyped(args)
    ensures Untyped(args) == 0 <==> Typed(args)
  {
    if args != [] {
      UntypedCount(args[..|args| - 1]);
      assert args == args[..|args| - 1] + [args[|args| - 1]];
    }
  }

  lemma {:induction false} TypedLetters(args: seq<Argument>)
    requires Typed(args)
    ensures |DeclaredLetters(args)| == |args|
    ensures forall i | 0 <= i < |args| :: DeclaredLetters(args)[i] == PrintShort(args[i].typ)
  {
    if args != [] {
      TypedLetters(args[..|args| - 1]);
    }
  }

  // The dispatcher's index runs over the types table in step with the letters exactly
  // when no new_id is untyped; then letter c and entry c are those of argument c.
  lemma TableAlignment(m: Message)
    ensures |TypesTable(m)| == |Letters(Signature(m))| <==> Typed(m.args)
    ensures Typed(m.args) ==> forall c | 0 <= c < |m.args| ::
      && Letters(Signature(m))[c] == PrintShort(m.args[c].typ)
      && (TypesTable(m)[c] == Some(m.args[c].iface) <==> m.args[c].iface != "")
  {
    LettersOfSignature(m);
    UntypedCount(m.args);
    if Typed(m.args) {
      TypedLetters(m.args);
    }
  }

  // A letter stands for one known type.
  function TypeOfLetter(ch: char): ArgType {
    match ch
    case 'i' => Int
    case 'u' => Uint
    case 'f' => Fixed
    case 's' => Text
    case 'o' => Object
    case 'n' => NewId
    case 'a' => Array
    case 'h' => Fd
    case _ => Other([ch])
  }

  // So the declared kinds can be read back from the signature.
  lemma KindsRecovered(m: Message)
    requires Typed(m.args) && (forall a | a in m.args :: !a.typ.Other?)
    ensures |Letters(Signature(m))| == |m.args|
    ensures forall c | 0 <= c < |m.args| :: TypeOfLetter(Letters(Signature(m))[c]) == m.args[c].typ
  {
    LettersOfSignature(m);
    TypedLetters(m.args);
    var letters := Letters(Signature(m));
    forall c | 0 <= c < |m.args| ensures TypeOfLetter(letters[c]) == m.args[c].typ {
      assert m.args[c] in m.args;
      KindRecovered(m.args[c].typ);
    }
  }

  lemma KindRecovered(t: ArgType)
    requires !t.Other?
    ensures TypeOfLetter(PrintShort(t)) == t
  {
  }

  // ----------------------------------------------- reading the rest back as well

  function DigitValue(ch: char): nat
    requires IsDigit(ch)
  {
    (ch - '0') as nat
  }

  // The number at the front of a signature; 1 if there is none.
  function LeadingDigits(s: string): string {
    if s == [] || !IsDigit(s[0]) then [] else [s[0]] + LeadingDigits(s[1..])
  }

  function ValueOf(digits: string): nat
    requires forall i | 0 <= i < |digits| :: IsDigit(digits[i])
  {
    if digits == [] then 0
    else ValueOf(digits[..|digits| - 1]) * 10 + DigitValue(digits[|digits| - 1])
  }

  lemma {:induction false} DecimalValue(n: nat)
    ensures forall i | 0 <= i < |Decimal(n)| :: IsDigit(Decimal(n)[i])
    ensures ValueOf(Decimal(n)) == n
  {
    DecimalIsSkipped(n);
    if n < 10 {
      assert Decimal(n)[..0] == [];
    } else {
      DecimalValue(n / 10);
      assert Decimal(n)[..|Decimal(n)| - 1] == Decimal(n / 10);
    }
  }

  lemma {:induction false} LeadingDigitsAre(digits: string, rest: string)
    requires forall i | 0 <= i < |digits| :: IsDigit(digits[i])
    requires rest == [] || !IsDigit(rest[0])
    ensures LeadingDigits(digits + rest) == digits
    decreases |digits|
  {
    if digits == [] {
      assert digits + rest == rest;
    } else {
      assert (digits + rest)[1..] == digits[1..] + rest;
      LeadingDigitsAre(digits[1..], rest);
    }
  }

  // The letters with their null marks, read from the end.
  function Items(s: string): seq<(bool, char)>
    decreases |s|
  {
    if s == [] then []
    else
      var n := |s| - 1;
      if Skipped(s[n]) then Items(s[..n])
      else if n > 0 && s[n - 1] == '?' then Items(s[..n - 1]) + [(true, s[n])]
      else Items(s[..n]) + [(false, s[n])]
  }

  function DeclaredItems(args: seq<Argument>): seq<(bool, char)> {
    if args == [] then []
    else DeclaredItems(args[..|args| - 1]) + ArgumentItems(args[|args| - 1])
  }

  lemma ItemsLetter(front: string, ch: char)
    requires !Skipped(ch) && (front == [] || front[|front| - 1] != '?')
    ensures Items(front + [ch]) == Items(front) + [(false, ch)]
  {
    assert (front + [ch])[..|front|] == front;
  }

  lemma ItemsMarkedLetter(front: string, ch: char)
    requires !Skipped(ch)
    ensures Items(front + ['?', ch]) == Items(front) + [(true, ch)]
  {
    assert (front + ['?', ch])[..|front|] == front;
  }

  // What one argument declares, and the first of it.
  function ArgumentItems(a: Argument): seq<(bool, char)> {
    [(a.allowNull, FirstLetter(a))] + (if UntypedNewId(a) then [(false, 'u'), (false, 'n')] else [])
  }

  function FirstLetter(a: Argument): char {
    if UntypedNewId(a) then 's' else PrintShort(a.typ)
  }

  lemma ArgumentShape(front: string, a: Argument)
    ensures front + ArgumentSignature(a)
      == front + (if a.allowNull then ['?', FirstLetter(a)] else [FirstLetter(a)])
         + (if UntypedNewId(a) then ['u', 'n'] else [])
  {
  }

  lemma ItemsOfFirst(front: string, a: Argument)
    requires front == [] || front[|front| - 1] != '?'
    ensures Items(front + (if a.allowNull then ['?', FirstLetter(a)] else [FirstLetter(a)]))
         == Items(front) + [(a.allowNull, FirstLetter(a))]
  {
    ItemsMarkedLetter(front, FirstLetter(a));
    ItemsLetter(front, FirstLetter(a));
  }

  lemma ItemsOfTail(one: string, two: string, three: string)
    requires one != [] && one[|one| - 1] != '?'
    requires two == one + ['u'] && three == two + ['n']
    ensures Items(three) == Items(one) + [(false, 'u'), (false, 'n')]
  {
    ItemsLetter(one, 'u');
    ItemsLetter(two, 'n');
  }

  // One more printed argument.
  lemma ItemsOfArgument(front: string, a: Argument, whole: string)
    requires front == [] || front[|front| - 1] != '?'
    requires whole == front + ArgumentSignature(a)
    ensures Items(whole) == Items(front) + ArgumentItems(a)
    ensures whole != [] && whole[|whole| - 1] != '?'
  {
    var one := front + (if a.allowNull then ['?', FirstLetter(a)] else [FirstLetter(a)]);
    ItemsOfFirst(front, a);
    WholeArgument(front, a, one, whole);
    if UntypedNewId(a) {
      ItemsOfTail(one, one + ['u'], whole);
    }
    ItemsJoin(Items(front), a, Items(one), Items(whole));
  }

  lemma ItemsJoin(front: seq<(bool, char)>, a: Argument, one: seq<(bool, char)>, whole: seq<(bool, char)>)
    requires one == front + [(a.allowNull, FirstLetter(a))]
    requires whole == if UntypedNewId(a) then one + [(false, 'u'), (false, 'n')] else one
    ensures whole == front + ArgumentItems(a)
  {
  }

  lemma WholeArgument(front: string, a: Argument, one: string, whole: string)
    requires one == front + (if a.allowNull then ['?', FirstLetter(a)] else [FirstLetter(a)])
    requires whole == front + ArgumentSignature(a)
    ensures one != [] && one[|one| - 1] != '?'
    ensures whole == if UntypedNewId(a) then one + ['u'] + ['n'] else one
  {
    ArgumentShape(front, a);
  }

  lemma {:induction false} ItemsOfArguments(prefix: string, args: seq<Argument>)
    requires prefix == [] || prefix[|prefix| - 1] != '?'
    requires Items(prefix) == []
    ensures Items(prefix + ArgumentsSignature(args)) == DeclaredItems(args)
    ensures var s := prefix + ArgumentsSignature(args); s == [] || s[|s| - 1] != '?'
  {
    var whole := prefix + ArgumentsSignature(args);
    if args == [] {
      assert whole == prefix;
    } else {
      var n := |args| - 1;
      ItemsOfArguments(prefix, args[..n]);
      SignatureAssociates(prefix, ArgumentsSignature(args[..n]), ArgumentSignature(args[n]));
      ItemsOfArgument(prefix + ArgumentsSignature(args[..n]), args[n], whole);
    }
  }

  lemma SignatureAssociates(a: string, b: string, c: string)
    ensures a + (b + c) == (a + b) + c
  {
  }

  lemma {:induction false} NoItemsInDigits(digits: string)
    requires forall i | 0 <= i < |digits| :: IsDigit(digits[i])
    ensures Items(digits) == []
    decreases |digits|
  {
    if digits != [] {
      NoItemsInDigits(digits[..|digits| - 1]);
    }
  }

  // The signature printer loses nothing: since-version, null marks and letters can
  // all be read back.
  lemma SignatureRoundTrip(m: Message)
    ensures Items(Signature(m)) == DeclaredItems(m.args)
    ensures m.since > 1 ==>
      && (forall i | 0 <= i < |LeadingDigits(Signature(m))| :: IsDigit(LeadingDigits(Signature(m))[i]))
      && ValueOf(LeadingDigits(Signature(m))) == m.since
    ensures m.since <= 1 ==> LeadingDigits(Signature(m)) == []
  {
    var rest := ArgumentsSignature(m.args);
    FirstIsNoDigit(m.args);
    if m.since > 1 {
      DecimalIsSkipped(m.since);
      DecimalValue(m.since);
      LeadingDigitsAre(Decimal(m.since), rest);
      NoItemsInDigits(Decimal(m.since));
      ItemsOfArguments(Decimal(m.since), m.args);
    } else {
      ItemsOfArguments([], m.args);
      assert [] + rest == rest;
    }
  }

  lemma {:induction false} FirstIsNoDigit(args: seq<Argument>)
    ensures var s := ArgumentsSignature(args); s == [] || !IsDigit(s[0])
  {
    if args != [] {
      FirstIsNoDigit(args[..|args| - 1]);
    }
  }
}
