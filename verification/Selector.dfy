/**
 Device selectors such as "vendor=nvidia,vram>=40G" (internal/selector): the
 parser, the printer and the matcher. Text is a sequence of runes. The value a
 quantity suffix denotes is a parameter of the matcher (parseQuantity is
 floating point and stays abstract); everything else is concrete.
 */
module Selector {
  import opened Wrappers

  datatype Op = Ne | Gte | Lte | Eq

  datatype Term = Term(key: string, op: Op, value: string)

  type Terms = seq<Term>

  datatype Error = Empty | EmptyTerm | NeedsKeyAndValue | EmbeddedOperator | NoOperator

  /** The order the parser tries them in: ">=" must win over "=". */
  const OPERATORS: seq<Op> := [Ne, Gte, Lte, Eq]

  function OpText(o: Op): string {
    match o
    case Ne => "!="
    case Gte => ">="
    case Lte => "<="
    case Eq => "="
  }

  predicate IsOperatorChar(c: char) {
    c == '=' || c == '!' || c == '<' || c == '>'
  }

  predicate IsSpace(c: char) {
    || c == ' ' || '\t' <= c <= '\r'
    || c as int in {0x85, 0xA0, 0x1680, 0x2028, 0x2029, 0x202F, 0x205F, 0x3000}
    || 0x2000 <= c as int <= 0x200A
  }

  function TrimLeft(s: string): string {
    if s != [] && IsSpace(s[0]) then TrimLeft(s[1..]) else s
  }

  function TrimRight(s: string): string {
    if s != [] && IsSpace(s[|s| - 1]) then TrimRight(s[..|s| - 1]) else s
  }

  function Trim(s: string): string {
    TrimRight(TrimLeft(s))
  }

  /** strings.Split(s, ","): never empty. */
  function Split(s: string): (parts: seq<string>)
    ensures |parts| > 0
  {
    if s == [] then [""]
    else
      var rest := Split(s[1..]);
      if s[0] == ',' then [""] + rest else [[s[0]] + rest[0]] + rest[1..]
  }

  function Join(parts: seq<string>): string {
    if parts == [] then ""
    else if |parts| == 1 then parts[0]
    else parts[0] + "," + Join(parts[1..])
  }

  /** Where sep first occurs in s. */
  function Index(s: string, sep: string): (r: Option<nat>)
    ensures r.Some? ==> r.value + |sep| <= |s|
  {
    if |s| < |sep| then None
    else if s[..|sep|] == sep then Some(0)
    else if s == [] then None
    else
      match Index(s[1..], sep)
      case None => None
      case Some(i) => Some(i + 1)
  }

  function Finish(key: string, o: Op, value: string): Result<Term, Error> {
    if key == "" || value == "" then Err(NeedsKeyAndValue)
    else if HasOperatorChar(key) || HasOperatorChar(value) then Err(EmbeddedOperator)
    else Ok(Term(key, o, value))
  }

  predicate HasOperatorChar(s: string) {
    exists i :: 0 <= i < |s| && IsOperatorChar(s[i])
  }

  function ParseWith(part: string, operators: seq<Op>): Result<Term, Error> {
    if operators == [] then Err(NoOperator)
    else
      var sep := OpText(operators[0]);
      match Index(part, sep)
      case None => ParseWith(part, operators[1..])
      case Some(i) => Finish(Trim(part[..i]), operators[0], Trim(part[i + |sep|..]))
  }

  function ParseTerm(part: string): Result<Term, Error> {
    ParseWith(part, OPERATORS)
  }

  /** The terms of a list of raw parts: the first bad part decides the error. */
  function ParseParts(parts: seq<string>): Result<Terms, Error> {
    if parts == [] then Ok([])
    else
      var part := Trim(parts[0]);
      if part == "" then Err(EmptyTerm)
      else
        match ParseTerm(part)
        case Err(e) => Err(e)
        case Ok(t) =>
          match ParseParts(parts[1..])
          case Err(e) => Err(e)
          case Ok(ts) => Ok([t] + ts)
  }

  function Parse(s: string): Result<Terms, Error> {
    if Trim(s) == "" then Err(Empty) else ParseParts(Split(s))
  }

  function TermText(t: Term): string {
    t.key + OpText(t.op) + t.value
  }

  function Texts(ts: Terms): seq<string> {
    seq(|ts|, i requires 0 <= i < |ts| => TermText(ts[i]))
  }

  /** Selector.String */
  function Print(ts: Terms): string {
    Join(Texts(ts))
  }

  // ----- The loops of the source

  method ContainsOperatorChar(s: string) returns (found: bool)
    ensures found == HasOperatorChar(s)
  {
    for i := 0 to |s|
      invariant forall k :: 0 <= k < i ==> !IsOperatorChar(s[k])
    {
      if IsOperatorChar(s[i]) { return true; }
    }
    return false;
  }

  method ParseSelector(s: string) returns (r: Result<Terms, Error>)
    ensures r == Parse(s)
  {
    if Trim(s) == "" { return Err(Empty); }
    var parts, terms: Terms, i := Split(s), [], 0;
    assert parts[0..] == parts && forall ts: Terms :: [] + ts == ts;
    while i < |parts|
      invariant 0 <= i <= |parts|
      invariant ParseParts(parts) == match ParseParts(parts[i..])
                                     case Err(e) => Err(e)
                                     case Ok(ts) => Ok(terms + ts)
    {
      var part := Trim(parts[i]);
      if part == "" { return Err(EmptyTerm); }
      var t := ParseTerm(part);
      if t.Err? { return Err(t.error); }
      assert parts[i..][1..] == parts[i + 1..];
      assert forall ts: Terms :: terms + ([t.value] + ts) == (terms + [t.value]) + ts;
      terms, i := terms + [t.value], i + 1;
    }
    assert parts[i..] == [] && terms + [] == terms;
    return Ok(terms);
  }

  method PrintSelector(ts: Terms) returns (s: string)
    ensures s == Print(ts)
  {
    var parts := [];
    for i := 0 to |ts|
      invariant parts == Texts(ts[..i])
    {
      assert ts[..i + 1] == ts[..i] + [ts[i]];
      parts := parts + [ts[i].key + OpText(ts[i].op) + ts[i].value];
    }
    assert ts[..|ts|] == ts;
    s := Join(parts);
  }

  // ----- Matching

  /** What parseQuantity yields: an IEEE double, infinities and NaN included. */
  datatype Quantity = Finite(r: real) | PosInf | NegInf | NaN

  type Quantities = string -> Option<Quantity>

  predicate QuantityEq(a: Quantity, b: Quantity) { !a.NaN? && a == b }

  predicate QuantityGte(a: Quantity, b: Quantity) {
    && !a.NaN? && !b.NaN?
    && (a.PosInf? || b.NegInf? || (a.Finite? && b.Finite? && a.r >= b.r))
  }

  /** Go's <= on strings. */
  predicate TextLte(a: string, b: string) {
    a == [] || (b != [] && (a[0] < b[0] || (a[0] == b[0] && TextLte(a[1..], b[1..]))))
  }

  predicate TermMatches(q: Quantities, t: Term, have: string) {
    var a, b := q(have), q(t.value);
    if a.Some? && b.Some? then
      match t.op
      case Eq => QuantityEq(a.value, b.value)
      case Ne => !QuantityEq(a.value, b.value)
      case Gte => QuantityGte(a.value, b.value)
      case Lte => QuantityGte(b.value, a.value)
    else if (t.op.Gte? || t.op.Lte?) && a.Some? != b.Some? then false
    else
      match t.op
      case Eq => have == t.value
      case Ne => have != t.value
      case Gte => TextLte(t.value, have)
      case Lte => TextLte(have, t.value)
  }

  /** Every term must hold; a term whose label is absent never does. */
  predicate Matches(q: Quantities, ts: Terms, labels: map<string, string>) {
    forall i :: 0 <= i < |ts| ==> ts[i].key in labels && TermMatches(q, ts[i], labels[ts[i].key])
  }

  method Match(q: Quantities, ts: Terms, labels: map<string, string>) returns (ok: bool)
    ensures ok == Matches(q, ts, labels)
  {
    for i := 0 to |ts|
      invariant Matches(q, ts[..i], labels)
    {
      if ts[i].key !in labels { return false; }
      if !TermMatches(q, ts[i], labels[ts[i].key]) { return false; }
    }
    assert ts[..|ts|] == ts;
    return true;
  }

  // ----- Text lemmas

  lemma {:induction false} TrimLeftFacts(s: string)
    ensures var t := TrimLeft(s);
            && |t| <= |s| && t == s[|s| - |t|..] && (t == "" || !IsSpace(t[0]))
            && (forall i :: 0 <= i < |s| - |t| ==> IsSpace(s[i]))
  {
    if s != [] && IsSpace(s[0]) {
      TrimLeftFacts(s[1..]);
      var t := TrimLeft(s[1..]);
      assert t == s[|s| - |t|..];
      forall i | 0 <= i < |s| - |t| ensures IsSpace(s[i]) {
        if i > 0 { assert s[i] == s[1..][i - 1]; }
      }
    }
  }

  lemma {:induction false} TrimRightFacts(s: string)
    ensures var t := TrimRight(s);
            && |t| <= |s| && t == s[..|t|] && (t == "" || !IsSpace(t[|t| - 1]))
            && (forall i :: |t| <= i < |s| ==> IsSpace(s[i]))
  {
    if s != [] && IsSpace(s[|s| - 1]) { TrimRightFacts(s[..|s| - 1]); }
  }

  ghost predicate Trimmed(s: string) {
    s != "" && !IsSpace(s[0]) && !IsSpace(s[|s| - 1])
  }

  /** Trim yields nothing exactly when all is space, and otherwise a trimmed text of the same characters. */
  lemma TrimFacts(s: string)
    ensures Trim(s) == "" || Trimmed(Trim(s))
    ensures Trim(s) == "" <==> forall i :: 0 <= i < |s| ==> IsSpace(s[i])
    ensures forall c :: c in Trim(s) ==> c in s
  {
    TrimLeftFacts(s);
    TrimRightFacts(TrimLeft(s));
    var l, t := TrimLeft(s), Trim(s);
    if t != "" {
      assert l[0] == t[0];
      assert l[|t| - 1] == t[|t| - 1];
      assert s[|s| - |l|] == l[0];
    }
  }

  lemma TrimmedStays(s: string)
    requires Trimmed(s)
    ensures Trim(s) == s
  {
  }

  lemma TrimmedIsNotEmpty(s: string)
    ensures Trimmed(s) ==> s != ""
  {
  }

  lemma {:induction false} SplitHasNoComma(s: string)
    ensures forall p :: p in Split(s) ==> ',' !in p && forall c :: c in p ==> c in s
  {
    if s != [] { SplitHasNoComma(s[1..]); }
  }

  /** The parts of a text, given those of the text without its first rune c. */
  function Prepend(c: char, parts: seq<string>): seq<string>
    requires parts != []
  {
    if c == ',' then [""] + parts else [[c] + parts[0]] + parts[1..]
  }

  lemma SplitCons(s: string)
    requires s != []
    ensures Split(s) == Prepend(s[0], Split(s[1..]))
  {
  }

  lemma PrependConcat(c: char, x: seq<string>, y: seq<string>)
    requires x != []
    ensures Prepend(c, x + y) == Prepend(c, x) + y
  {
  }

  lemma {:induction false} SplitConcat(a: string, b: string)
    ensures Split(a + "," + b) == Split(a) + Split(b)
  {
    if a == [] {
      assert (a + "," + b)[1..] == b;
    } else {
      SplitConcat(a[1..], b);
      var s, ra, rb := a + "," + b, Split(a[1..]), Split(b);
      assert s[1..] == a[1..] + "," + b && s[0] == a[0];
      SplitCons(s);
      SplitCons(a);
      PrependConcat(a[0], ra, rb);
    }
  }

  lemma {:induction false} SplitPlain(s: string)
    requires ',' !in s
    ensures Split(s) == [s]
  {
    if s != [] {
      SplitPlain(s[1..]);
      assert s == [s[0]] + s[1..];
    }
  }

  lemma {:induction false} SplitJoin(parts: seq<string>)
    requires parts != [] && forall p :: p in parts ==> ',' !in p
    ensures Split(Join(parts)) == parts
  {
    SplitPlain(parts[0]);
    if |parts| > 1 {
      SplitJoin(parts[1..]);
      SplitConcat(parts[0], Join(parts[1..]));
      assert parts == [parts[0]] + parts[1..];
    }
  }

  lemma {:induction false} IndexAbsent(s: string, sep: string, c: char)
    requires c in sep && c !in s
    ensures Index(s, sep) == None
  {
    if |s| >= |sep| {
      assert forall x :: x in s[..|sep|] ==> x in s;
      if s != [] { IndexAbsent(s[1..], sep, c); }
    }
  }

  lemma {:induction false} IndexFirst(k: string, sep: string, v: string)
    requires sep != [] && sep[0] !in k
    ensures Index(k + sep + v, sep) == Some(|k|)
  {
    var s := k + sep + v;
    if k == [] {
      assert s[..|sep|] == sep;
    } else {
      IndexFirst(k[1..], sep, v);
      assert s[1..] == k[1..] + sep + v;
      assert s[..|sep|][0] == k[0];
    }
  }

  // ----- The round trip

  ghost predicate Atom(s: string) {
    Trimmed(s) && ',' !in s && !HasOperatorChar(s)
  }

  ghost predicate Canonical(t: Term) {
    Atom(t.key) && Atom(t.value)
  }

  lemma PartGivesCanonical(part: string)
    requires ',' !in part
    ensures var t := ParseTerm(Trim(part)); t.Ok? ==> Canonical(t.value)
  {
    TrimFacts(part);
    WithGivesCanonical(Trim(part), OPERATORS);
  }

  lemma {:induction false} WithGivesCanonical(part: string, operators: seq<Op>)
    requires ',' !in part
    ensures var t := ParseWith(part, operators); t.Ok? ==> Canonical(t.value)
  {
    if operators != [] {
      var sep := OpText(operators[0]);
      match Index(part, sep)
      case None => WithGivesCanonical(part, operators[1..]);
      case Some(i) =>
        TrimFacts(part[..i]);
        TrimFacts(part[i + |sep|..]);
    }
  }

  lemma NoOperatorCharIn(s: string, c: char)
    requires !HasOperatorChar(s) && IsOperatorChar(c)
    ensures c !in s
  {
  }

  lemma OneTermRoundTrip(t: Term)
    requires Canonical(t)
    ensures ParseTerm(TermText(t)) == Ok(t) && Trimmed(TermText(t)) && ',' !in TermText(t)
  {
    hide Index, ParseTerm;
    var s := TermText(t);
    forall c | IsOperatorChar(c) ensures c !in t.key && c !in t.value {
      NoOperatorCharIn(t.key, c);
      NoOperatorCharIn(t.value, c);
    }
    IndexFirst(t.key, OpText(t.op), t.value);
    if t.op != Ne {
      IndexAbsent(s, "!=", '!');
      if t.op != Gte {
        IndexAbsent(s, ">=", '>');
        if t.op != Lte { IndexAbsent(s, "<=", '<'); }
      }
    }
    var n, w := |t.key|, |OpText(t.op)|;
    assert s[..n] == t.key && s[n + w..] == t.value;
    TrimmedStays(t.key);
    TrimmedStays(t.value);
    SkipTo(s, t.op, n, w);
  }

  /** Once the operators before o are absent, the parser cuts at o. */
  lemma SkipTo(s: string, o: Op, n: nat, w: nat)
    requires Index(s, OpText(o)) == Some(n) && w == |OpText(o)|
    requires o != Ne ==> Index(s, "!=") == None
    requires o != Ne && o != Gte ==> Index(s, ">=") == None
    requires o == Eq ==> Index(s, "<=") == None
    ensures ParseTerm(s) == Finish(Trim(s[..n]), o, Trim(s[n + w..]))
  {
    hide Finish, Index, Trim;
    assert OPERATORS[1..] == [Gte, Lte, Eq];
    assert OPERATORS[1..][1..] == [Lte, Eq];
    assert OPERATORS[1..][1..][1..] == [Eq];
    match o {
      case Ne =>
      case Gte => assert ParseWith(s, OPERATORS) == ParseWith(s, OPERATORS[1..]);
      case Lte =>
        assert ParseWith(s, OPERATORS) == ParseWith(s, OPERATORS[1..]);
        assert ParseWith(s, OPERATORS[1..]) == ParseWith(s, OPERATORS[1..][1..]);
      case Eq =>
        assert ParseWith(s, OPERATORS) == ParseWith(s, OPERATORS[1..]);
        assert ParseWith(s, OPERATORS[1..]) == ParseWith(s, OPERATORS[1..][1..]);
        assert ParseWith(s, OPERATORS[1..][1..]) == ParseWith(s, OPERATORS[1..][1..][1..]);
    }
  }

  lemma {:induction false} PartsGiveCanonical(parts: seq<string>)
    requires forall p :: p in parts ==> ',' !in p
    ensures var r := ParseParts(parts);
            r.Ok? ==> |r.value| == |parts| && forall i :: 0 <= i < |r.value| ==> Canonical(r.value[i])
  {
    if parts != [] {
      PartGivesCanonical(parts[0]);
      PartsGiveCanonical(parts[1..]);
    }
  }

  lemma {:induction false} PartsRoundTrip(ts: Terms)
    requires forall i :: 0 <= i < |ts| ==> Canonical(ts[i])
    ensures ParseParts(Texts(ts)) == Ok(ts)
  {
    hide ParseTerm, TermText, Trim, Canonical, Trimmed;
    if ts != [] {
      OneTermRoundTrip(ts[0]);
      TrimmedStays(TermText(ts[0]));
      PartsRoundTrip(ts[1..]);
      TrimmedIsNotEmpty(TermText(ts[0]));
      assert Texts(ts)[0] == TermText(ts[0]);
      assert Texts(ts)[1..] == Texts(ts[1..]);
      assert ts == [ts[0]] + ts[1..];
    }
  }

  lemma JoinHead(parts: seq<string>)
    requires parts != [] && Trimmed(parts[0])
    ensures Trim(Join(parts)) != ""
  {
    TrimFacts(Join(parts));
    assert Join(parts)[0] == parts[0][0];
  }

  /** Printing a parsed selector and parsing it again gives the same selector. */
  lemma PrintParseRoundTrip(s: string)
    ensures Parse(s).Ok? ==> Parse(Print(Parse(s).value)) == Parse(s)
  {
    if Parse(s).Ok? {
      var ts := Parse(s).value;
      SplitHasNoComma(s);
      PartsGiveCanonical(Split(s));
      forall i | 0 <= i < |ts| ensures ',' !in Texts(ts)[i] { OneTermRoundTrip(ts[i]); }
      OneTermRoundTrip(ts[0]);
      SplitJoin(Texts(ts));
      PartsRoundTrip(ts);
      JoinHead(Texts(ts));
    }
  }

  lemma PrintIsNotEmpty(s: string)
    requires Parse(s).Ok?
    ensures Print(Parse(s).value) != ""
  {
    SplitHasNoComma(s);
    PartsGiveCanonical(Split(s));
    var ts := Parse(s).value;
    assert Canonical(ts[0]);
    assert Texts(ts)[0] == TermText(ts[0]);
    assert |Join(Texts(ts))| >= |Texts(ts)[0]|;
  }

  // ----- Conjunction

  lemma {:induction false} PartsConcat(a: seq<string>, b: seq<string>)
    ensures ParseParts(a + b).Ok? <==> ParseParts(a).Ok? && ParseParts(b).Ok?
    ensures ParseParts(a + b).Ok? ==> ParseParts(a + b).value == ParseParts(a).value + ParseParts(b).value
  {
    hide ParseTerm, Trim;
    if a == [] {
      assert a + b == b;
    } else {
      PartsConcat(a[1..], b);
      assert (a + b)[1..] == a[1..] + b;
    }
  }

  lemma BlankHasBlankParts(s: string)
    requires Trim(s) == ""
    ensures ParseParts(Split(s)).Err?
  {
    SplitHasNoComma(s);
    TrimFacts(s);
    TrimFacts(Split(s)[0]);
    var p := Split(s)[0];
    forall i | 0 <= i < |p| ensures IsSpace(p[i]) {
      assert p in Split(s) && p[i] in p;
      assert exists k :: 0 <= k < |s| && s[k] == p[i];
    }
  }

  lemma NotBlank(a: string, b: string)
    ensures Trim(a + "," + b) != ""
  {
    TrimFacts(a + "," + b);
    assert (a + "," + b)[|a|] == ',';
  }

  /**
   A comma is exactly conjunction: the joined text parses iff both halves do,
   its terms are theirs in order, and it matches a device iff both match.
   */
  lemma CommaIsConjunction(q: Quantities, a: string, b: string, labels: map<string, string>)
    ensures Parse(a + "," + b).Ok? <==> Parse(a).Ok? && Parse(b).Ok?
    ensures Parse(a + "," + b).Ok? ==>
              && Parse(a + "," + b).value == Parse(a).value + Parse(b).value
              && (Matches(q, Parse(a + "," + b).value, labels) <==>
                  Matches(q, Parse(a).value, labels) && Matches(q, Parse(b).value, labels))
  {
    NotBlank(a, b);
    SplitConcat(a, b);
    PartsConcat(Split(a), Split(b));
    if Trim(a) == "" { BlankHasBlankParts(a); }
    if Trim(b) == "" { BlankHasBlankParts(b); }
    if Parse(a + "," + b).Ok? {
      MatchesConcat(q, Parse(a).value, Parse(b).value, labels);
    }
  }

  lemma MatchesConcat(q: Quantities, x: Terms, y: Terms, labels: map<string, string>)
    ensures Matches(q, x + y, labels) <==> Matches(q, x, labels) && Matches(q, y, labels)
  {
    if Matches(q, x + y, labels) {
      forall i | 0 <= i < |x| ensures x[i].key in labels && TermMatches(q, x[i], labels[x[i].key]) {
        assert (x + y)[i] == x[i];
      }
      forall i | 0 <= i < |y| ensures y[i].key in labels && TermMatches(q, y[i], labels[y[i].key]) {
        assert (x + y)[|x| + i] == y[i];
      }
    }
  }

  // ----- What a term means

  /** Quantities other than NaN are in one total order that is that of the reals between the infinities; NaN is in none. */
  lemma QuantitiesAreOrdered(a: Quantity, b: Quantity, c: Quantity)
    ensures QuantityEq(a, b) <==> QuantityGte(a, b) && QuantityGte(b, a)
    ensures QuantityGte(a, b) && QuantityGte(b, c) ==> QuantityGte(a, c)
    ensures QuantityGte(a, b) || QuantityGte(b, a) <==> a != NaN && b != NaN
    ensures a != NaN ==> QuantityGte(PosInf, a) && QuantityGte(a, NegInf)
    ensures forall x: real, y: real :: QuantityGte(Finite(x), Finite(y)) <==> x >= y
  {
  }

  /** a and b agree on their first k runes, and then a has ended or has the smaller rune. */
  ghost predicate SmallerAt(a: string, b: string, k: nat) {
    k <= |a| && k <= |b| && a[..k] == b[..k] && (k == |a| || (k < |b| && a[k] < b[k]))
  }

  ghost predicate Precedes(a: string, b: string) {
    exists k: nat :: SmallerAt(a, b, k)
  }

  lemma SmallerInTails(a: string, b: string, k: nat)
    requires a != [] && b != [] && a[0] == b[0]
    ensures SmallerAt(a[1..], b[1..], k) ==> SmallerAt(a, b, k + 1)
    ensures k > 0 && SmallerAt(a, b, k) ==> SmallerAt(a[1..], b[1..], k - 1)
  {
    if k < |a| && k < |b| { assert a[..k + 1] == [a[0]] + a[1..][..k] && b[..k + 1] == [b[0]] + b[1..][..k]; }
    if 0 < k <= |a| && k <= |b| { assert a[1..][..k - 1] == a[..k][1..] && b[1..][..k - 1] == b[..k][1..]; }
  }

  lemma SmallerAtStart(a: string, b: string, k: nat)
    requires a != [] && b != [] && a[0] != b[0]
    ensures SmallerAt(a, b, k) <==> k == 0 && a[0] < b[0]
  {
    if 0 < k <= |a| && k <= |b| { assert a[..k][0] == a[0] && b[..k][0] == b[0]; }
    if k == 0 { assert a[..k] == b[..k]; }
  }

  lemma {:induction false} TextLteMeans(a: string, b: string)
    ensures TextLte(a, b) <==> Precedes(a, b)
  {
    if a == [] {
      assert SmallerAt(a, b, 0);
    } else if b != [] {
      if a[0] == b[0] {
        TextLteMeans(a[1..], b[1..]);
        forall k: nat ensures SmallerAt(a[1..], b[1..], k) ==> SmallerAt(a, b, k + 1) { SmallerInTails(a, b, k); }
        forall k: nat ensures SmallerAt(a, b, k) ==> k > 0 && SmallerAt(a[1..], b[1..], k - 1) { SmallerInTails(a, b, k); }
      } else {
        forall k: nat ensures SmallerAt(a, b, k) <==> k == 0 && a[0] < b[0] { SmallerAtStart(a, b, k); }
        assert a[0] < b[0] ==> SmallerAt(a, b, 0);
      }
    }
  }

  /** Two numbers compare as numbers. */
  lemma NumericTermMeans(q: Quantities, t: Term, have: string, x: real, y: real)
    requires q(have) == Some(Finite(x)) && q(t.value) == Some(Finite(y))
    ensures t.op == Eq ==> (TermMatches(q, t, have) <==> x == y)
    ensures t.op == Ne ==> (TermMatches(q, t, have) <==> x != y)
    ensures t.op == Gte ==> (TermMatches(q, t, have) <==> x >= y)
    ensures t.op == Lte ==> (TermMatches(q, t, have) <==> x <= y)
  {
  }

  /** A number against NaN satisfies nothing but !=. */
  lemma NaNTermMeans(q: Quantities, t: Term, have: string)
    requires q(have).Some? && q(t.value).Some? && (q(have).value == NaN || q(t.value).value == NaN)
    ensures TermMatches(q, t, have) <==> t.op == Ne
  {
  }

  /** Two infinite quantities, or one and a number, compare by the order of quantities. */
  lemma QuantityTermMeans(q: Quantities, t: Term, have: string, a: Quantity, b: Quantity)
    requires q(have) == Some(a) && q(t.value) == Some(b) && a != NaN && b != NaN
    ensures t.op == Eq ==> (TermMatches(q, t, have) <==> a == b)
    ensures t.op == Ne ==> (TermMatches(q, t, have) <==> a != b)
    ensures t.op == Gte ==> (TermMatches(q, t, have) <==> a == PosInf || b == NegInf || (a.Finite? && b.Finite? && a.r >= b.r))
    ensures t.op == Lte ==> (TermMatches(q, t, have) <==> b == PosInf || a == NegInf || (a.Finite? && b.Finite? && a.r <= b.r))
  {
  }

  /** A quantity against a text that is none: never in order, equal as texts. */
  lemma MixedTermMeans(q: Quantities, t: Term, have: string)
    requires q(have).Some? != q(t.value).Some?
    ensures t.op == Gte || t.op == Lte ==> !TermMatches(q, t, have)
    ensures t.op == Eq ==> (TermMatches(q, t, have) <==> have == t.value)
    ensures t.op == Ne ==> (TermMatches(q, t, have) <==> have != t.value)
  {
  }

  /** Two texts compare as texts, rune by rune. */
  lemma TextTermMeans(q: Quantities, t: Term, have: string)
    requires q(have) == None && q(t.value) == None
    ensures t.op == Eq ==> (TermMatches(q, t, have) <==> have == t.value)
    ensures t.op == Ne ==> (TermMatches(q, t, have) <==> have != t.value)
    ensures t.op == Gte ==> (TermMatches(q, t, have) <==> Precedes(t.value, have))
    ensures t.op == Lte ==> (TermMatches(q, t, have) <==> Precedes(have, t.value))
  {
    TextLteMeans(t.value, have);
    TextLteMeans(have, t.value);
  }

  // ----- What a selector of one term selects

  /** The text of a comparison is read as that comparison. */
  lemma ComparisonsParse(key: string, value: string)
    requires Atom(key) && Atom(value)
    ensures Parse(key + "=" + value) == Ok([Term(key, Eq, value)])
    ensures Parse(key + "!=" + value) == Ok([Term(key, Ne, value)])
    ensures Parse(key + ">=" + value) == Ok([Term(key, Gte, value)])
    ensures Parse(key + "<=" + value) == Ok([Term(key, Lte, value)])
  {
    OneTermParses(Term(key, Eq, value));
    OneTermParses(Term(key, Ne, value));
    OneTermParses(Term(key, Gte, value));
    OneTermParses(Term(key, Lte, value));
  }

  lemma OneTermParses(t: Term)
    requires Canonical(t)
    ensures Parse(TermText(t)) == Ok([t])
  {
    OneTermRoundTrip(t);
    SplitPlain(TermText(t));
    TrimmedStays(TermText(t));
    TrimmedIsNotEmpty(TermText(t));
    PartsRoundTrip([t]);
    hide ParseParts, TermText, Trim, Canonical, Trimmed;
    assert Texts([t]) == [TermText(t)];
  }

  lemma OneTermSelects(q: Quantities, t: Term, labels: map<string, string>)
    ensures Matches(q, [t], labels) <==> t.key in labels && TermMatches(q, t, labels[t.key])
  {
    assert [t][0] == t;
  }

  /**
   A device matches key OP number exactly when it has the label and the label's
   number stands in that relation to the number: vram>=40G selects the
   devices with 40G or more.
   */
  lemma ComparisonSelects(q: Quantities, key: string, value: string, y: real, labels: map<string, string>)
    requires Atom(key) && Atom(value) && q(value) == Some(Finite(y))
    requires key in labels ==> q(labels[key]).Some? && q(labels[key]).value.Finite?
    ensures Parse(key + "=" + value).Ok? && Parse(key + "!=" + value).Ok? && Parse(key + ">=" + value).Ok? && Parse(key + "<=" + value).Ok?
    ensures key !in labels ==>
              && !Matches(q, Parse(key + "=" + value).value, labels) && !Matches(q, Parse(key + "!=" + value).value, labels)
              && !Matches(q, Parse(key + ">=" + value).value, labels) && !Matches(q, Parse(key + "<=" + value).value, labels)
    ensures key in labels ==>
              var x := q(labels[key]).value.r;
              && (Matches(q, Parse(key + "=" + value).value, labels) <==> x == y)
              && (Matches(q, Parse(key + "!=" + value).value, labels) <==> x != y)
              && (Matches(q, Parse(key + ">=" + value).value, labels) <==> x >= y)
              && (Matches(q, Parse(key + "<=" + value).value, labels) <==> x <= y)
  {
    hide Parse, Matches, TermMatches, Atom;
    ComparisonsParse(key, value);
    OneTermSelects(q, Term(key, Eq, value), labels);
    OneTermSelects(q, Term(key, Ne, value), labels);
    OneTermSelects(q, Term(key, Gte, value), labels);
    OneTermSelects(q, Term(key, Lte, value), labels);
    if key in labels {
      var have := labels[key];
      NumericTermMeans(q, Term(key, Eq, value), have, q(have).value.r, y);
      NumericTermMeans(q, Term(key, Ne, value), have, q(have).value.r, y);
      NumericTermMeans(q, Term(key, Gte, value), have, q(have).value.r, y);
      NumericTermMeans(q, Term(key, Lte, value), have, q(have).value.r, y);
    }
  }

  // ----- What is not a selector

  lemma {:induction false} IndexFound(s: string, sep: string)
    requires sep != []
    ensures Index(s, sep).Some? ==> forall c :: c in sep ==> c in s
    ensures |sep| == 1 && sep[0] in s ==> Index(s, sep).Some?
  {
    if |s| >= |sep| {
      assert s[..|sep|] == sep ==> forall c :: c in sep ==> c in s[..|sep|];
      if s != [] {
        IndexFound(s[1..], sep);
        assert s == [s[0]] + s[1..];
      }
    }
  }

  /** A term is refused for want of an operator exactly when it has no equals sign. */
  lemma NoOperatorIff(part: string)
    ensures ParseTerm(part) == Err(NoOperator) <==> '=' !in part
  {
    WithNoOperator(part, OPERATORS);
    forall o: Op ensures Index(part, OpText(o)).Some? ==> '=' in part {
      IndexFound(part, OpText(o));
      assert OpText(o)[|OpText(o)| - 1] == '=';
    }
    IndexFound(part, OpText(Eq));
    assert OPERATORS[3] == Eq;
  }

  lemma {:induction false} WithNoOperator(part: string, operators: seq<Op>)
    ensures ParseWith(part, operators) == Err(NoOperator) <==> forall o :: o in operators ==> Index(part, OpText(o)) == None
  {
    hide Finish, Index, Trim, OpText;
    FinishNamesOther(part);
    if operators != [] {
      WithNoOperator(part, operators[1..]);
      assert operators == [operators[0]] + operators[1..];
    }
  }

  lemma FinishNamesOther(part: string)
    ensures forall key, o, value :: Finish(key, o, value) != Err(NoOperator)
  {
  }

  /** One operator, whatever space is around key and value: both must be there. */
  lemma OneOperatorParses(pre: string, o: Op, post: string)
    requires !HasOperatorChar(pre) && !HasOperatorChar(post)
    ensures ParseTerm(pre + OpText(o) + post) ==
            if Trim(pre) == "" || Trim(post) == "" then Err(NeedsKeyAndValue) else Ok(Term(Trim(pre), o, Trim(post)))
  {
    hide Index, ParseTerm, Trim;
    var s := pre + OpText(o) + post;
    forall c | IsOperatorChar(c) ensures c !in pre && c !in post {
      NoOperatorCharIn(pre, c);
      NoOperatorCharIn(post, c);
    }
    IndexFirst(pre, OpText(o), post);
    if o != Ne {
      IndexAbsent(s, "!=", '!');
      if o != Gte {
        IndexAbsent(s, ">=", '>');
        if o != Lte { IndexAbsent(s, "<=", '<'); }
      }
    }
    var n, w := |pre|, |OpText(o)|;
    assert s[..n] == pre && s[n + w..] == post;
    SkipTo(s, o, n, w);
    TrimKeepsClean(pre);
    TrimKeepsClean(post);
  }

  lemma TrimKeepsClean(s: string)
    requires !HasOperatorChar(s)
    ensures !HasOperatorChar(Trim(s))
  {
    TrimFacts(s);
    var t := Trim(s);
    forall i | 0 <= i < |t| ensures !IsOperatorChar(t[i]) {
      assert t[i] in t;
      var k :| 0 <= k < |s| && s[k] == t[i];
    }
  }

  /** The part is cut at an operator that stands in it. */
  ghost predicate CutAt(part: string, pre: string, o: Op, post: string) {
    part == pre + OpText(o) + post
  }

  /** A term with an operator is refused only for a side that is blank, or else for an operator too many. */
  lemma TermRefusalsAreTrue(part: string)
    ensures ParseTerm(part) == Err(NeedsKeyAndValue) ==> exists pre, o, post :: CutAt(part, pre, o, post) && (Trim(pre) == "" || Trim(post) == "")
    ensures ParseTerm(part) == Err(EmbeddedOperator) ==>
              exists pre, o, post :: CutAt(part, pre, o, post) && Trim(pre) != "" && Trim(post) != "" && (HasOperatorChar(pre) || HasOperatorChar(post))
    ensures ParseTerm(part).Err? ==> ParseTerm(part).error in {NoOperator, NeedsKeyAndValue, EmbeddedOperator}
  {
    WithRefusalsAreTrue(part, OPERATORS);
  }

  lemma {:induction false} IndexIsWhere(s: string, sep: string)
    ensures Index(s, sep).Some? ==> var i := Index(s, sep).value; s[i..i + |sep|] == sep
  {
    if |s| >= |sep| && s[..|sep|] != sep && s != [] {
      IndexIsWhere(s[1..], sep);
      var r := Index(s[1..], sep);
      if r.Some? { assert s[1..][r.value..r.value + |sep|] == s[r.value + 1..r.value + 1 + |sep|]; }
    }
  }

  lemma CutInThree(s: string, i: nat, k: nat)
    requires i <= k <= |s|
    ensures s == s[..i] + s[i..k] + s[k..]
  {
  }

  lemma IndexCuts(s: string, sep: string)
    ensures Index(s, sep).Some? ==> var i := Index(s, sep).value; s == s[..i] + sep + s[i + |sep|..]
  {
    IndexIsWhere(s, sep);
    var r := Index(s, sep);
    if r.Some? { CutInThree(s, r.value, r.value + |sep|); }
    hide Index;
  }

  lemma {:induction false} WithRefusalsAreTrue(part: string, operators: seq<Op>)
    ensures var r := ParseWith(part, operators);
            && (r == Err(NeedsKeyAndValue) ==> exists pre, o, post :: CutAt(part, pre, o, post) && (Trim(pre) == "" || Trim(post) == ""))
            && (r == Err(EmbeddedOperator) ==>
                  exists pre, o, post :: CutAt(part, pre, o, post) && Trim(pre) != "" && Trim(post) != ""
                                         && (HasOperatorChar(pre) || HasOperatorChar(post)))
            && (r.Err? ==> r.error in {NoOperator, NeedsKeyAndValue, EmbeddedOperator})
  {
    hide Trim, Index, HasOperatorChar;
    if operators != [] {
      var o := operators[0];
      WithRefusalsAreTrue(part, operators[1..]);
      IndexCuts(part, OpText(o));
      var r := Index(part, OpText(o));
      if r.Some? {
        var pre, post := part[..r.value], part[r.value + |OpText(o)|..];
        assert CutAt(part, pre, o, post);
        OperatorsInTrimmed(pre);
        OperatorsInTrimmed(post);
      }
    }
  }

  lemma OperatorsInTrimmed(s: string)
    ensures HasOperatorChar(Trim(s)) ==> HasOperatorChar(s)
  {
    if !HasOperatorChar(s) { TrimKeepsClean(s); }
  }

  /** The first bad part decides: that it is blank, or what is wrong with its term; a text that is all blank has no parts to speak of. */
  lemma FirstBadPartDecides(s: string)
    ensures Parse(s) == Err(Empty) <==> forall i :: 0 <= i < |s| ==> IsSpace(s[i])
    ensures Parse(s).Err? && Parse(s) != Err(Empty) ==>
              exists k :: 0 <= k < |Split(s)| && BadPart(Split(s)[k]) == Some(Parse(s).error)
                          && forall i :: 0 <= i < k ==> BadPart(Split(s)[i]) == None
  {
    TrimFacts(s);
    PartsFirstBad(Split(s));
  }

  /** What is wrong with a part. */
  function BadPart(part: string): Option<Error> {
    if forall i :: 0 <= i < |part| ==> IsSpace(part[i]) then Some(EmptyTerm)
    else if ParseTerm(Trim(part)).Err? then Some(ParseTerm(Trim(part)).error)
    else None
  }

  lemma {:induction false} PartsFirstBad(parts: seq<string>)
    ensures ParseParts(parts).Err? ==>
              && ParseParts(parts).error != Empty
              && exists k :: 0 <= k < |parts| && BadPart(parts[k]) == Some(ParseParts(parts).error) && forall i :: 0 <= i < k ==> BadPart(parts[i]) == None
  {
    hide ParseTerm, Trim, IsSpace;
    if parts != [] {
      BadPartMeans(parts[0]);
      TermRefusalsAreTrue(Trim(parts[0]));
      PartsFirstBad(parts[1..]);
      hide BadPart;
      if BadPart(parts[0]) == None && ParseParts(parts[1..]).Err? {
        var k :| 0 <= k < |parts| - 1 && BadPart(parts[1..][k]) == Some(ParseParts(parts[1..]).error)
                 && forall i :: 0 <= i < k ==> BadPart(parts[1..][i]) == None;
        assert parts[k + 1] == parts[1..][k];
        forall i | 0 <= i < k + 1 ensures BadPart(parts[i]) == None { assert i > 0 ==> parts[i] == parts[1..][i - 1]; }
      }
    }
  }

  lemma BadPartMeans(part: string)
    ensures BadPart(part) ==
            if Trim(part) == "" then Some(EmptyTerm) else if ParseTerm(Trim(part)).Err? then Some(ParseTerm(Trim(part)).error) else None
  {
    TrimFacts(part);
  }
}
