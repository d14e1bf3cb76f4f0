// Freshness tokens: decimal text, the newer-than relation and the client that
// accepts only newer tokens.

module FreshnessTokens {
  import opened Common

  const U64: nat := 18446744073709551615

  // ---------------------------------------------------------- decimal text

  predicate Digit(c: char) { '0' <= c <= '9' }

  function Value(c: char): nat
    requires Digit(c)
  {
    c as int - '0' as int
  }

  function Figure(d: nat): char
    requires d < 10
  {
    (d + '0' as int) as char
  }

  predicate Digits(s: string) {
    forall i :: 0 <= i < |s| ==> Digit(s[i])
  }

  /** `String(n)` of a BigInt. */
  function Print(n: nat): string {
    if n < 10 then [Figure(n)] else Print(n / 10) + [Figure(n % 10)]
  }

  /** `BigInt(s)` of a digit string. */
  function Parse(s: string): nat
    requires Digits(s)
  {
    if s == "" then 0 else Parse(s[..|s| - 1]) * 10 + Value(s[|s| - 1])
  }

  /** The pattern [1-9][0-9]{0,19}. */
  predicate PositiveText(s: string) {
    1 <= |s| <= 20 && Digits(s) && s[0] != '0'
  }

  /** `readEpoch`: anything but canonical text of a positive 64-bit number fails. */
  function ReadEpoch(s: string): (r: Option<nat>)
  {
    if PositiveText(s) && Parse(s) <= U64 then Some(Parse(s)) else None
  }

  /** `decimal`: as above, with zero allowed. */
  predicate Decimal(s: string) {
    s == "0" || (PositiveText(s) && Parse(s) <= U64)
  }

  lemma {:induction false} PrintDigits(n: nat)
    ensures Digits(Print(n)) && |Print(n)| >= 1 && Parse(Print(n)) == n
    ensures n > 0 ==> Print(n)[0] != '0'
  {
    var s := Print(n);
    if n < 10 {
      assert s[..|s| - 1] == "";
    } else {
      PrintDigits(n / 10);
      assert s[..|s| - 1] == Print(n / 10);
    }
  }

  function Power10(k: nat): nat { if k == 0 then 1 else 10 * Power10(k - 1) }

  lemma {:induction false} PrintLength(n: nat, k: nat)
    requires k >= 1 && n < Power10(k)
    ensures |Print(n)| <= k
  {
    if n >= 10 {
      assert k >= 2;
      PrintLength(n / 10, k - 1);
    }
  }

  lemma U64Fits()
    ensures U64 < Power10(20)
  {
    assert Power10(5) == 100000;
    assert Power10(10) == 10000000000;
    assert Power10(15) == 1000000000000000;
  }

  lemma PrintDigit(c: char)
    requires '1' <= c <= '9'
    ensures Print(Value(c)) == [c]
  {
  }

  lemma PrintAppends(n: nat, c: char)
    requires n > 0 && '0' <= c <= '9'
    ensures Print(n * 10 + Value(c)) == Print(n) + [c]
  {
    assert (n * 10 + Value(c)) / 10 == n && (n * 10 + Value(c)) % 10 == Value(c);
  }

  lemma {:induction false} ParsePrints(s: string)
    requires 1 <= |s| && Digits(s) && s[0] != '0'
    ensures Parse(s) > 0 && Print(Parse(s)) == s
  {
    var front, last := s[..|s| - 1], s[|s| - 1];
    if |s| == 1 {
      assert front == "";
      PrintDigit(last);
    } else {
      assert front[0] == s[0];
      ParsePrints(front);
      PrintAppends(Parse(front), last);
      calc {
        Print(Parse(s));
        Print(Parse(front)) + [last];
        s;
      }
    }
  }

  /** Printing then reading is the identity on 1 to 2^64 - 1. */
  lemma PrintReads(n: nat)
    requires 1 <= n <= U64
    ensures ReadEpoch(Print(n)) == Some(n) && Decimal(Print(n))
  {
    PrintDigits(n);
    U64Fits();
    PrintLength(n, 20);
  }

  /** Accepted text is canonical: one text per value. */
  lemma ReadPrints(s: string)
    requires ReadEpoch(s).Some?
    ensures 1 <= ReadEpoch(s).value <= U64 && Print(ReadEpoch(s).value) == s
  {
    ParsePrints(s);
  }

  /** Text is accepted exactly when it is the printed form of a value in range. */
  lemma ReadableIff(s: string)
    ensures ReadEpoch(s).Some? <==> exists n: nat :: 1 <= n <= U64 && s == Print(n)
  {
    if ReadEpoch(s).Some? {
      ReadPrints(s);
    }
    forall n: nat | 1 <= n <= U64 && s == Print(n)
      ensures ReadEpoch(s).Some?
    {
      PrintReads(n);
    }
  }

  // ---------------------------------------------------------------- tokens

  datatype Token = Token(epoch: string, sequence: string)

  predicate ValidToken(t: Token) {
    && Decimal(t.epoch) && Decimal(t.sequence)
    && Parse(t.epoch) > 0 && Parse(t.sequence) > 0
  }

  /** Epochs are compared as numbers for order but as text for equality. */
  predicate IsNewer(next: Token, current: Option<Token>) {
    && ValidToken(next)
    && match current
       case None => true
       case Some(c) =>
         && ValidToken(c)
         && (Parse(next.epoch) > Parse(c.epoch)
             || (next.epoch == c.epoch && Parse(next.sequence) > Parse(c.sequence)))
  }

  predicate After(a: (nat, nat), b: (nat, nat)) {
    a.0 > b.0 || (a.0 == b.0 && a.1 > b.1)
  }

  function Values(t: Token): (nat, nat)
    requires ValidToken(t)
  {
    (Parse(t.epoch), Parse(t.sequence))
  }

  lemma DecimalCanonical(a: string, b: string)
    requires Decimal(a) && Decimal(b) && Parse(a) == Parse(b) && Parse(a) > 0
    ensures a == b
  {
    assert Parse("0") == 0 by { assert "0"[..0] == ""; }
    ReadPrints(a);
    ReadPrints(b);
  }

  /** Comparing epoch texts for equality does no harm: on valid tokens the
      relation is the lexicographic order of the two numbers. */
  lemma NewerIsLexicographic(a: Token, b: Token)
    requires ValidToken(a) && ValidToken(b)
    ensures IsNewer(a, Some(b)) <==> After(Values(a), Values(b))
    ensures Values(a) == Values(b) <==> a == b
  {
    if Parse(a.epoch) == Parse(b.epoch) {
      DecimalCanonical(a.epoch, b.epoch);
    }
    if Parse(a.sequence) == Parse(b.sequence) {
      DecimalCanonical(a.sequence, b.sequence);
    }
  }

  /** A strict total order on valid tokens. */
  lemma NewerIsStrictTotal(a: Token, b: Token, c: Token)
    requires ValidToken(a) && ValidToken(b) && ValidToken(c)
    ensures !IsNewer(a, Some(a))
    ensures IsNewer(a, Some(b)) && IsNewer(b, Some(c)) ==> IsNewer(a, Some(c))
    ensures a == b || IsNewer(a, Some(b)) || IsNewer(b, Some(a))
    ensures !(IsNewer(a, Some(b)) && IsNewer(b, Some(a)))
  {
    NewerIsLexicographic(a, b);
    NewerIsLexicographic(b, c);
    NewerIsLexicographic(a, c);
    NewerIsLexicographic(b, a);
    NewerIsLexicographic(a, a);
  }

  /** A token that is not valid never replaces anything. */
  lemma InvalidNeverNewer(t: Token, current: Option<Token>)
    requires !ValidToken(t)
    ensures !IsNewer(t, current)
  {
  }

  // ---------------------------------------------------------------- client

  datatype Availability = Available | Stale | Other(code: Id)

  datatype View = View(token: Token, incidentOverride: Option<bool>, sections: seq<Availability>)

  /** A message as it arrives. `wellFormed` stands for the checks that do not
      look at the token: contract name, timestamp, size and sections. */
  datatype Message = Message(wellFormed: bool, view: View)

  datatype Input = Arrives(m: Message) | GoesStale

  predicate Accepts(value: Option<View>, m: Message) {
    m.wellFormed && IsNewer(m.view.token, if value.Some? then Some(value.value.token) else None)
  }

  function Staled(sections: seq<Availability>): (r: seq<Availability>)
    ensures |r| == |sections|
  {
    seq(|sections|, i requires 0 <= i < |sections| => if sections[i] == Available then Stale else sections[i])
  }

  function Marked(value: Option<View>): Option<View> {
    match value
    case None => None
    case Some(v) => Some(View(v.token, if v.incidentOverride == Some(true) then Some(true) else None, Staled(v.sections)))
  }

  class OverviewState {
    var value: Option<View>

    constructor ()
      ensures value == None
    {
      value := None;
    }

    method Accept(m: Message) returns (accepted: bool)
      modifies this
      ensures accepted == Accepts(old(value), m)
      ensures value == if accepted then Some(m.view) else old(value)
    {
      var current := None;
      if value.Some? {
        current := Some(value.value.token);
      }
      if !m.wellFormed || !IsNewer(m.view.token, current) {
        return false;
      }
      value := Some(m.view);
      return true;
    }

    method MarkStale()
      modifies this
      ensures value == Marked(old(value))
    {
      if value.None? {
        return;
      }
      var v := value.value;
      var sections := [];
      for i := 0 to |v.sections|
        invariant sections == Staled(v.sections)[..i]
      {
        sections := sections + [if v.sections[i] == Available then Stale else v.sections[i]];
      }
      assert sections == Staled(v.sections);
      value := Some(View(v.token, if v.incidentOverride == Some(true) then Some(true) else None, sections));
    }
  }

  function Handle(value: Option<View>, input: Input): Option<View> {
    match input
    case Arrives(m) => if Accepts(value, m) then Some(m.view) else value
    case GoesStale => Marked(value)
  }

  function Shown(inputs: seq<Input>): Option<View> {
    if inputs == [] then None else Handle(Shown(inputs[..|inputs| - 1]), inputs[|inputs| - 1])
  }

  /** The tokens the client accepted, in order. */
  function Accepted(inputs: seq<Input>): seq<Token> {
    if inputs == [] then []
    else
      var before := inputs[..|inputs| - 1];
      match inputs[|inputs| - 1]
      case Arrives(m) => Accepted(before) + (if Accepts(Shown(before), m) then [m.view.token] else [])
      case GoesStale => Accepted(before)
  }

  ghost predicate Increasing(tokens: seq<Token>) {
    forall i, j :: 0 <= i < j < |tokens| ==> IsNewer(tokens[j], Some(tokens[i]))
  }

  /** Over any messages, duplicated, reordered or invalid, with staleness marks
      anywhere between, accepted tokens strictly increase and the view shown
      carries the last one. */
  lemma {:induction false} AcceptedIncrease(inputs: seq<Input>)
    ensures Increasing(Accepted(inputs))
    ensures forall t :: t in Accepted(inputs) ==> ValidToken(t)
    ensures var tokens, shown := Accepted(inputs), Shown(inputs);
      if tokens == [] then shown == None else shown.Some? && shown.value.token == tokens[|tokens| - 1]
    decreases |inputs|
  {
    if inputs != [] {
      var before, last := inputs[..|inputs| - 1], inputs[|inputs| - 1];
      AcceptedIncrease(before);
      var tokens := Accepted(before);
      if last.Arrives? && Accepts(Shown(before), last.m) && tokens != [] {
        var latest := last.m.view.token;
        var newest := tokens[|tokens| - 1];
        forall i | 0 <= i < |tokens|
          ensures IsNewer(latest, Some(tokens[i]))
        {
          NewerIsStrictTotal(latest, newest, tokens[i]);
        }
      }
    }
  }
}
