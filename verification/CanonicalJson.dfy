/** Canonical JSON (RFC 8785, sections 3.2.2 and 3.2.3): the printer whose output is hashed, a parser
    for its output, and the proof that a printed text identifies its value. */
module CanonicalJson {
  import opened Common

  /** A UTF-16 code unit; JavaScript strings and printed texts are sequences of them. */
  type Unit = u: int | 0 <= u < 0x1_0000

  type Text = seq<Unit>

  datatype Member<T> = Member(key: Text, value: T)

  /** What canonicalJson may be handed. Numbers are the integers that print without an exponent. */
  datatype Json =
    | Undefined | Null | Bool(b: bool) | Num(n: int) | Str(s: Text)
    | Arr(items: seq<Json>) | Obj(members: seq<Member<Json>>)

  predicate DistinctKeys<T>(ms: seq<Member<T>>) {
    forall i, j :: 0 <= i < j < |ms| ==> ms[i].key != ms[j].key
  }

  /** No object has two members of one name. */
  predicate Proper(v: Json) {
    match v
    case Arr(items) => forall i :: 0 <= i < |items| ==> Proper(items[i])
    case Obj(ms) => DistinctKeys(ms) && forall i :: 0 <= i < |ms| ==> Proper(ms[i].value)
    case _ => true
  }

  // ---- Characters --------------------------------------------------------------------------------

  const QUOTE: Unit := 0x22
  const BACKSLASH: Unit := 0x5C
  const COMMA: Unit := 0x2C
  const COLON: Unit := 0x3A
  const MINUS: Unit := 0x2D
  const LBRACKET: Unit := 0x5B
  const RBRACKET: Unit := 0x5D
  const LBRACE: Unit := 0x7B
  const RBRACE: Unit := 0x7D
  const NULL_TEXT: Text := [0x6E, 0x75, 0x6C, 0x6C]
  const TRUE_TEXT: Text := [0x74, 0x72, 0x75, 0x65]
  const FALSE_TEXT: Text := [0x66, 0x61, 0x6C, 0x73, 0x65]

  predicate Digit(u: Unit) { 0x30 <= u <= 0x39 }
  predicate Lead(u: Unit) { 0xD800 <= u <= 0xDBFF }
  predicate Trail(u: Unit) { 0xDC00 <= u <= 0xDFFF }
  predicate Surrogate(u: Unit) { Lead(u) || Trail(u) }

  function HexDigit(d: int): Unit
    requires 0 <= d < 16
  {
    if d < 10 then 0x30 + d else 0x61 + d - 10
  }

  function HexValue(u: Unit): Option<int> {
    if Digit(u) then Some(u - 0x30)
    else if 0x61 <= u <= 0x66 then Some(u - 0x61 + 10)
    else if 0x41 <= u <= 0x46 then Some(u - 0x41 + 10)
    else None
  }

  // ---- The printer -------------------------------------------------------------------------------

  function HexEscape(u: Unit): Text {
    [BACKSLASH, 0x75, HexDigit(u / 0x1000), HexDigit(u / 0x100 % 16), HexDigit(u / 16 % 16), HexDigit(u % 16)]
  }

  /** JSON.stringify on one unit that is not half of a surrogate pair. */
  function Escape(u: Unit): Text {
    if u == 0x08 then [BACKSLASH, 0x62]
    else if u == 0x09 then [BACKSLASH, 0x74]
    else if u == 0x0A then [BACKSLASH, 0x6E]
    else if u == 0x0C then [BACKSLASH, 0x66]
    else if u == 0x0D then [BACKSLASH, 0x72]
    else if u == QUOTE || u == BACKSLASH then [BACKSLASH, u]
    else if u < 0x20 || Surrogate(u) then HexEscape(u)
    else [u]
  }

  predicate PairAhead(s: Text) { |s| >= 2 && Lead(s[0]) && Trail(s[1]) }

  function Escaped(s: Text): Text {
    if s == [] then []
    else if PairAhead(s) then [s[0], s[1]] + Escaped(s[2..])
    else Escape(s[0]) + Escaped(s[1..])
  }

  function Quoted(s: Text): Text { [QUOTE] + Escaped(s) + [QUOTE] }

  function Digits(n: nat): (t: Text)
    ensures t != [] && forall i :: 0 <= i < |t| ==> Digit(t[i])
  {
    if n < 10 then [0x30 + n] else Digits(n / 10) + [0x30 + n % 10]
  }

  function Number(n: int): Text { if n < 0 then [MINUS] + Digits(-n) else Digits(n) }

  /** The order of Array.prototype.sort on strings: by code units, prefixes first. */
  predicate Before(a: Text, b: Text) {
    b != [] && (a == [] || a[0] < b[0] || (a[0] == b[0] && Before(a[1..], b[1..])))
  }

  function Insert<T>(m: Member<T>, ms: seq<Member<T>>): seq<Member<T>> {
    if ms == [] || !Before(ms[0].key, m.key) then [m] + ms else [ms[0]] + Insert(m, ms[1..])
  }

  function Sort<T>(ms: seq<Member<T>>): seq<Member<T>> {
    if ms == [] then [] else Insert(ms[0], Sort(ms[1..]))
  }

  function Joined(texts: seq<Text>): Text {
    if texts == [] then []
    else if |texts| == 1 then texts[0]
    else texts[0] + [COMMA] + Joined(texts[1..])
  }

  function Pairs(ms: seq<Member<Text>>): seq<Text> {
    seq(|ms|, i requires 0 <= i < |ms| => Quoted(ms[i].key) + [COLON] + ms[i].value)
  }

  /** The members that are defined, printed. */
  function PrintMembers(ms: seq<Member<Json>>): seq<Member<Text>> {
    if ms == [] then []
    else (if ms[0].value.Undefined? then [] else [Member(ms[0].key, Print(ms[0].value))]) + PrintMembers(ms[1..])
  }

  function PrintItems(items: seq<Json>): seq<Text> {
    if items == [] then [] else [Print(items[0])] + PrintItems(items[1..])
  }

  /** `Undefined` is printed only as an array item. */
  function Print(v: Json): Text {
    match v
    case Undefined => NULL_TEXT
    case Null => NULL_TEXT
    case Bool(b) => if b then TRUE_TEXT else FALSE_TEXT
    case Num(n) => Number(n)
    case Str(s) => Quoted(s)
    case Arr(items) => [LBRACKET] + Joined(PrintItems(items)) + [RBRACKET]
    case Obj(ms) => [LBRACE] + Joined(Pairs(Sort(PrintMembers(ms)))) + [RBRACE]
  }

  /** canonicalJson throws on an undefined value of its own. */
  function Canonical(v: Json): Option<Text> { if v.Undefined? then None else Some(Print(v)) }

  // ---- A parser ----------------------------------------------------------------------------------

  datatype Parsed<T> = Parsed(value: T, rest: Text)

  function Unescape(u: Unit): Option<Unit> {
    if u == QUOTE || u == BACKSLASH || u == 0x2F then Some(u)
    else if u == 0x62 then Some(0x08)
    else if u == 0x74 then Some(0x09)
    else if u == 0x6E then Some(0x0A)
    else if u == 0x66 then Some(0x0C)
    else if u == 0x72 then Some(0x0D)
    else None
  }

  function ParseHex(t: Text): Option<Unit> {
    if |t| < 4 then None
    else
      match (HexValue(t[0]), HexValue(t[1]), HexValue(t[2]), HexValue(t[3]))
      case (Some(a), Some(b), Some(c), Some(d)) =>
        var u := ((a * 16 + b) * 16 + c) * 16 + d;
        if 0 <= u < 0x1_0000 then Some(u) else None
      case _ => None
  }

  function Prepend(u: Unit, p: Option<Parsed<Text>>): Option<Parsed<Text>> {
    match p
    case Some(Parsed(s, rest)) => Some(Parsed([u] + s, rest))
    case None => None
  }

  /** The rest of a string after its opening quote. */
  function ParseString(t: Text): (p: Option<Parsed<Text>>)
    ensures p.Some? ==> |p.value.rest| < |t|
    decreases |t|
  {
    if t == [] then None
    else if t[0] == QUOTE then Some(Parsed([], t[1..]))
    else if t[0] == BACKSLASH then
      if |t| == 1 then None
      else if t[1] == 0x75 then
        match ParseHex(t[2..])
        case Some(u) => Prepend(u, ParseString(t[6..]))
        case None => None
      else
        match Unescape(t[1])
        case Some(u) => Prepend(u, ParseString(t[2..]))
        case None => None
    else if t[0] < 0x20 then None
    else Prepend(t[0], ParseString(t[1..]))
  }

  function DigitCount(t: Text): (n: nat)
    ensures n <= |t|
  {
    if t == [] || !Digit(t[0]) then 0 else 1 + DigitCount(t[1..])
  }

  function Value(t: Text): nat
    requires forall i :: 0 <= i < |t| ==> Digit(t[i])
  {
    if t == [] then 0
    else
      assert Digit(t[|t| - 1]);
      Value(t[..|t| - 1]) * 10 + (t[|t| - 1] as int - 0x30)
  }

  lemma DigitPrefix(t: Text)
    ensures forall i :: 0 <= i < DigitCount(t) ==> Digit(t[i])
  {
    if t != [] && Digit(t[0]) {
      DigitPrefix(t[1..]);
      forall i | 0 <= i < DigitCount(t) ensures Digit(t[i]) { if i > 0 { assert t[i] == t[1..][i - 1]; } }
    }
  }

  /** An integer without leading zeros. */
  function ParseNat(t: Text): (p: Option<Parsed<nat>>)
    ensures p.Some? ==> |p.value.rest| < |t|
  {
    var n := DigitCount(t);
    DigitPrefix(t);
    if n == 0 || (n > 1 && t[0] == 0x30) then None else Some(Parsed(Value(t[..n]), t[n..]))
  }

  function ParseNumber(t: Text): (p: Option<Parsed<Json>>)
    ensures p.Some? ==> |p.value.rest| < |t|
  {
    if t == [] then None
    else if t[0] == MINUS then
      match ParseNat(t[1..])
      case Some(Parsed(n, rest)) => Some(Parsed(Num(-(n as int)), rest))
      case None => None
    else
      match ParseNat(t)
      case Some(Parsed(n, rest)) => Some(Parsed(Num(n), rest))
      case None => None
  }

  function Parse(t: Text): (p: Option<Parsed<Json>>)
    ensures p.Some? ==> |p.value.rest| < |t|
    decreases |t|, 1
  {
    if NULL_TEXT <= t then Some(Parsed(Null, t[4..]))
    else if TRUE_TEXT <= t then Some(Parsed(Bool(true), t[4..]))
    else if FALSE_TEXT <= t then Some(Parsed(Bool(false), t[5..]))
    else if t == [] then None
    else if t[0] == QUOTE then
      match ParseString(t[1..])
      case Some(Parsed(s, rest)) => Some(Parsed(Str(s), rest))
      case None => None
    else if t[0] == LBRACKET then
      if |t| > 1 && t[1] == RBRACKET then Some(Parsed(Arr([]), t[2..]))
      else
        match ParseItems(t[1..])
        case Some(Parsed(items, rest)) => Some(Parsed(Arr(items), rest))
        case None => None
    else if t[0] == LBRACE then
      if |t| > 1 && t[1] == RBRACE then Some(Parsed(Obj([]), t[2..]))
      else
        match ParseMembers(t[1..])
        case Some(Parsed(ms, rest)) => Some(Parsed(Obj(ms), rest))
        case None => None
    else ParseNumber(t)
  }

  function ParseItems(t: Text): (p: Option<Parsed<seq<Json>>>)
    ensures p.Some? ==> |p.value.rest| < |t|
    decreases |t|, 2
  {
    match Parse(t)
    case None => None
    case Some(Parsed(v, rest)) =>
      if rest == [] then None
      else if rest[0] == RBRACKET then Some(Parsed([v], rest[1..]))
      else if rest[0] != COMMA then None
      else
        match ParseItems(rest[1..])
        case Some(Parsed(items, more)) => Some(Parsed([v] + items, more))
        case None => None
  }

  function ParseMember(t: Text): (p: Option<Parsed<Member<Json>>>)
    ensures p.Some? ==> |p.value.rest| < |t|
    decreases |t|, 2
  {
    if t == [] || t[0] != QUOTE then None
    else
      match ParseString(t[1..])
      case None => None
      case Some(Parsed(key, rest)) =>
        if rest == [] || rest[0] != COLON then None
        else
          match Parse(rest[1..])
          case Some(Parsed(v, more)) => Some(Parsed(Member(key, v), more))
          case None => None
  }

  function ParseMembers(t: Text): (p: Option<Parsed<seq<Member<Json>>>>)
    ensures p.Some? ==> |p.value.rest| < |t|
    decreases |t|, 3
  {
    match ParseMember(t)
    case None => None
    case Some(Parsed(m, rest)) =>
      if rest == [] then None
      else if rest[0] == RBRACE then Some(Parsed([m], rest[1..]))
      else if rest[0] != COMMA then None
      else
        match ParseMembers(rest[1..])
        case Some(Parsed(ms, more)) => Some(Parsed([m] + ms, more))
        case None => None
  }

  // ---- Parsing what was printed ------------------------------------------------------------------

  /** The value a canonical text stands for: members sorted, undefined dropped or null. */
  function Canon(v: Json): Json {
    match v
    case Undefined => Null
    case Arr(items) => Arr(CanonItems(items))
    case Obj(ms) => Obj(Sort(CanonMembers(ms)))
    case _ => v
  }

  function CanonItems(items: seq<Json>): seq<Json> {
    if items == [] then [] else [Canon(items[0])] + CanonItems(items[1..])
  }

  function CanonMembers(ms: seq<Member<Json>>): seq<Member<Json>> {
    if ms == [] then []
    else (if ms[0].value.Undefined? then [] else [Member(ms[0].key, Canon(ms[0].value))]) + CanonMembers(ms[1..])
  }

  /** What may follow a number without becoming part of it. */
  predicate Delimited(rest: Text) { rest == [] || !Digit(rest[0]) }

  ghost predicate Reads(t: Text, v: Json) {
    forall rest :: Delimited(rest) ==> Parse(t + rest) == Some(Parsed(v, rest))
  }

  lemma HexDigits(d: int)
    requires 0 <= d < 16
    ensures HexValue(HexDigit(d)) == Some(d)
  {}

  lemma FourDigits(u: Unit)
    ensures ((u / 0x1000 * 16 + u / 0x100 % 16) * 16 + u / 16 % 16) * 16 + u % 16 == u
  {
    LastDigit(u);
    LastDigit(u / 16);
    LastDigit(u / 0x100);
    assert u / 16 / 16 == u / 0x100 && u / 0x100 / 16 == u / 0x1000;
  }

  lemma LastDigit(n: nat)
    ensures n / 16 * 16 + n % 16 == n
  {}

  lemma HexParses(u: Unit)
    ensures ParseHex(HexEscape(u)[2..]) == Some(u)
  {
    HexDigits(u / 0x1000);
    HexDigits(u / 0x100 % 16);
    HexDigits(u / 16 % 16);
    HexDigits(u % 16);
    FourDigits(u);
    hide HexDigit, HexValue;
  }

  lemma HexPrefix(t: Text, more: Text)
    requires |t| == 4
    ensures ParseHex(t + more) == ParseHex(t)
  {}

  lemma HexReads(u: Unit, t: Text)
    ensures ParseString(HexEscape(u) + t) == Prepend(u, ParseString(t))
  {
    var e := HexEscape(u) + t;
    HexParses(u);
    HexPrefix(HexEscape(u)[2..], t);
    hide ParseHex, HexDigit;
    assert e[2..] == HexEscape(u)[2..] + t && e[6..] == t;
  }

  lemma LetterReads(u: Unit, letter: Unit, t: Text)
    requires Unescape(letter) == Some(u) && letter != 0x75
    ensures ParseString([BACKSLASH, letter] + t) == Prepend(u, ParseString(t))
  {
    assert ([BACKSLASH, letter] + t)[2..] == t;
  }

  lemma RawReads(u: Unit, t: Text)
    requires u >= 0x20 && u != QUOTE && u != BACKSLASH
    ensures ParseString([u] + t) == Prepend(u, ParseString(t))
  {
    assert ([u] + t)[1..] == t;
  }

  lemma EscapeReads(u: Unit, t: Text)
    ensures ParseString(Escape(u) + t) == Prepend(u, ParseString(t))
  {
    hide ParseString;
    if |Escape(u)| == 1 && Escape(u) == [u] {
      RawReads(u, t);
    } else if Escape(u) == HexEscape(u) {
      HexReads(u, t);
    } else {
      LetterReads(u, Escape(u)[1], t);
      assert Escape(u) == [BACKSLASH, Escape(u)[1]];
    }
  }

  lemma PairReads(a: Unit, b: Unit, t: Text)
    requires Lead(a) && Trail(b)
    ensures ParseString([a, b] + t) == Prepend(a, Prepend(b, ParseString(t)))
  {
    assert [a, b] + t == [a] + ([b] + t);
    RawReads(a, [b] + t);
    RawReads(b, t);
  }

  lemma QuoteEnds(rest: Text)
    ensures ParseString(Escaped([]) + [QUOTE] + rest) == Some(Parsed([], rest))
  {
    assert Escaped([]) + [QUOTE] + rest == [QUOTE] + rest;
  }

  lemma EscapedSplits(s: Text)
    requires s != []
    ensures if PairAhead(s) then Escaped(s) == [s[0], s[1]] + Escaped(s[2..])
            else Escaped(s) == Escape(s[0]) + Escaped(s[1..])
  {}

  lemma {:induction false} StringReads(s: Text, rest: Text)
    ensures ParseString(Escaped(s) + [QUOTE] + rest) == Some(Parsed(s, rest))
    decreases |s|
  {
    hide ParseString, Escape, Escaped;
    if s == [] {
      QuoteEnds(rest);
    } else {
      EscapedSplits(s);
      var n := if PairAhead(s) then 2 else 1;
      var tail := Escaped(s[n..]) + [QUOTE] + rest;
      StringReads(s[n..], rest);
      if PairAhead(s) {
        PairReads(s[0], s[1], tail);
        assert Escaped(s) + [QUOTE] + rest == [s[0], s[1]] + tail;
        assert s == [s[0]] + ([s[1]] + s[2..]);
      } else {
        EscapeReads(s[0], tail);
        assert Escaped(s) + [QUOTE] + rest == Escape(s[0]) + tail;
        assert s == [s[0]] + s[1..];
      }
    }
  }

  lemma {:induction false} DigitsCounted(ds: Text, rest: Text)
    requires (forall i :: 0 <= i < |ds| ==> Digit(ds[i])) && Delimited(rest)
    ensures DigitCount(ds + rest) == |ds|
    decreases |ds|
  {
    if ds == [] {
      assert ds + rest == rest;
    } else {
      assert (ds + rest)[1..] == ds[1..] + rest;
      DigitsCounted(ds[1..], rest);
    }
  }

  lemma {:induction false} DigitsValue(n: nat)
    ensures Value(Digits(n)) == n
    ensures |Digits(n)| > 1 ==> Digits(n)[0] != 0x30
  {
    if n >= 10 {
      DigitsValue(n / 10);
      var ds := Digits(n);
      assert ds[..|ds| - 1] == Digits(n / 10);
    } else {
      assert Digits(n)[..0] == [];
    }
  }

  lemma NatReads(n: nat, rest: Text)
    requires Delimited(rest)
    ensures ParseNat(Digits(n) + rest) == Some(Parsed(n, rest))
  {
    var ds := Digits(n);
    DigitsCounted(ds, rest);
    DigitsValue(n);
    assert (ds + rest)[..|ds|] == ds && (ds + rest)[|ds|..] == rest;
  }

  /** Which branch of the parser a text takes is settled by its first unit. */
  lemma TakesNumber(t: Text)
    requires t != [] && (Digit(t[0]) || t[0] == MINUS)
    ensures Parse(t) == ParseNumber(t)
  {}

  lemma TakesString(t: Text)
    requires t != [] && t[0] == QUOTE
    ensures Parse(t) == match ParseString(t[1..])
                        case Some(Parsed(s, rest)) => Some(Parsed(Str(s), rest))
                        case None => None
  {}

  lemma NegativeParses(ds: Text, n: nat, rest: Text)
    requires ParseNat(ds + rest) == Some(Parsed(n, rest))
    ensures ParseNumber([MINUS] + ds + rest) == Some(Parsed(Num(-(n as int)), rest))
  {
    hide ParseNat;
    var t := [MINUS] + ds + rest;
    assert t[0] == MINUS && t[1..] == ds + rest;
  }

  lemma NegativeReads(n: nat, rest: Text)
    requires Delimited(rest)
    ensures ParseNumber([MINUS] + Digits(n) + rest) == Some(Parsed(Num(-(n as int)), rest))
  {
    hide ParseNat, ParseNumber, Digits, Delimited;
    NatReads(n, rest);
    NegativeParses(Digits(n), n, rest);
  }

  lemma NumberReads(n: int)
    ensures Reads(Number(n), Num(n))
  {
    hide Parse, ParseNat, Digits;
    forall rest | Delimited(rest) ensures Parse(Number(n) + rest) == Some(Parsed(Num(n), rest)) {
      if n < 0 {
        NegativeReads(-n, rest);
      } else {
        NatReads(n, rest);
        assert Digit((Digits(n) + rest)[0]);
      }
      TakesNumber(Number(n) + rest);
    }
  }

  lemma QuotedReads(s: Text)
    ensures Reads(Quoted(s), Str(s))
  {
    hide Parse, ParseString, Escaped;
    forall rest | Delimited(rest) ensures Parse(Quoted(s) + rest) == Some(Parsed(Str(s), rest)) {
      TakesString(Quoted(s) + rest);
      StringReads(s, rest);
      assert (Quoted(s) + rest)[1..] == Escaped(s) + [QUOTE] + rest;
    }
  }

  // ---- Arrays and objects ------------------------------------------------------------------------

  lemma StartsValue(t: Text)
    requires Parse(t).Some?
    ensures t != [] && t[0] != RBRACKET
  {}

  lemma TakesArray(t: Text)
    requires |t| > 1 && t[0] == LBRACKET
    ensures Parse(t) == if t[1] == RBRACKET then Some(Parsed(Arr([]), t[2..])) else
      match ParseItems(t[1..])
      case Some(Parsed(items, rest)) => Some(Parsed(Arr(items), rest))
      case None => None
  {}

  lemma TakesObject(t: Text)
    requires |t| > 1 && t[0] == LBRACE
    ensures Parse(t) == if t[1] == RBRACE then Some(Parsed(Obj([]), t[2..])) else
      match ParseMembers(t[1..])
      case Some(Parsed(ms, rest)) => Some(Parsed(Obj(ms), rest))
      case None => None
  {}

  lemma LastItem(t: Text, v: Json, rest: Text)
    requires Parse(t) == Some(Parsed(v, [RBRACKET] + rest))
    ensures ParseItems(t) == Some(Parsed([v], rest))
  {
    hide Parse;
    assert ([RBRACKET] + rest)[1..] == rest;
  }

  lemma NextItem(t: Text, v: Json, more: Text, items: seq<Json>, rest: Text)
    requires Parse(t) == Some(Parsed(v, [COMMA] + more)) && ParseItems(more) == Some(Parsed(items, rest))
    ensures ParseItems(t) == Some(Parsed([v] + items, rest))
  {
    hide Parse;
    assert ([COMMA] + more)[1..] == more;
  }

  lemma {:induction false} ItemsRead(texts: seq<Text>, vs: seq<Json>, rest: Text)
    requires |texts| == |vs| > 0 && forall i :: 0 <= i < |texts| ==> Reads(texts[i], vs[i])
    ensures ParseItems(Joined(texts) + [RBRACKET] + rest) == Some(Parsed(vs, rest))
    decreases |texts|
  {
    hide Parse, ParseItems;
    var t := Joined(texts) + [RBRACKET] + rest;
    if |texts| == 1 {
      assert t == texts[0] + ([RBRACKET] + rest);
      LastItem(t, vs[0], rest);
      assert vs == [vs[0]];
    } else {
      var more := Joined(texts[1..]) + [RBRACKET] + rest;
      ItemsRead(texts[1..], vs[1..], rest);
      assert t == texts[0] + ([COMMA] + more);
      NextItem(t, vs[0], more, vs[1..], rest);
      assert vs == [vs[0]] + vs[1..];
    }
  }

  lemma Regroup(a: Text, b: Text, c: Text, d: Text, rest: Text)
    ensures a + d + rest == a + (d + rest)
    ensures a + b + c + d + rest == a + (b + (c + d + rest))
  {}

  lemma JoinedSplits(texts: seq<Text>, rest: Text)
    requires texts != []
    ensures Joined(texts) + [RBRACKET] + rest == texts[0] + if |texts| == 1 then [RBRACKET] + rest
            else [COMMA] + (Joined(texts[1..]) + [RBRACKET] + rest)
  {
    Regroup(texts[0], [COMMA], Joined(texts[1..]), [RBRACKET], rest);
  }

  lemma ItemsStart(texts: seq<Text>, vs: seq<Json>, rest: Text)
    requires |texts| == |vs| > 0 && Reads(texts[0], vs[0])
    ensures var t := Joined(texts) + [RBRACKET] + rest; t[0] != RBRACKET
  {
    hide Parse, Joined;
    JoinedSplits(texts, rest);
    StartsValue(Joined(texts) + [RBRACKET] + rest);
  }

  lemma EmptyArrayReads(rest: Text)
    ensures Parse([LBRACKET] + Joined([]) + [RBRACKET] + rest) == Some(Parsed(Arr([]), rest))
  {
    var t := [LBRACKET] + Joined([]) + [RBRACKET] + rest;
    assert t[1] == RBRACKET && t[2..] == rest;
    hide Parse, Joined;
    TakesArray(t);
  }

  lemma FullArrayReads(texts: seq<Text>, vs: seq<Json>, rest: Text)
    requires |texts| == |vs| > 0 && Delimited(rest) && forall i :: 0 <= i < |texts| ==> Reads(texts[i], vs[i])
    ensures Parse([LBRACKET] + Joined(texts) + [RBRACKET] + rest) == Some(Parsed(Arr(vs), rest))
  {
    hide Parse, ParseItems, Joined, Reads;
    var t := [LBRACKET] + Joined(texts) + [RBRACKET] + rest;
    ItemsRead(texts, vs, rest);
    ItemsStart(texts, vs, rest);
    assert t[1..] == Joined(texts) + [RBRACKET] + rest;
    assert t[1] == t[1..][0];
    TakesArray(t);
  }

  lemma ArrayReads(texts: seq<Text>, vs: seq<Json>)
    requires |texts| == |vs| && forall i :: 0 <= i < |texts| ==> Reads(texts[i], vs[i])
    ensures Reads([LBRACKET] + Joined(texts) + [RBRACKET], Arr(vs))
  {
    hide Parse, Joined;
    forall rest | Delimited(rest)
      ensures Parse([LBRACKET] + Joined(texts) + [RBRACKET] + rest) == Some(Parsed(Arr(vs), rest)) {
      if texts == [] { EmptyArrayReads(rest); } else { FullArrayReads(texts, vs, rest); }
    }
  }

  /** A printed member list and the members it stands for. */
  ghost predicate Matches(ts: seq<Member<Text>>, vs: seq<Member<Json>>) {
    |ts| == |vs| && forall i :: 0 <= i < |ts| ==> ts[i].key == vs[i].key && Reads(ts[i].value, vs[i].value)
  }

  lemma MemberReads(key: Text, t: Text, v: Json, rest: Text)
    requires Reads(t, v) && Delimited(rest)
    ensures ParseMember(Quoted(key) + [COLON] + t + rest) == Some(Parsed(Member(key, v), rest))
  {
    hide Parse, ParseString, Escaped;
    var all := Quoted(key) + [COLON] + t + rest;
    var tail := [COLON] + (t + rest);
    StringReads(key, tail);
    assert all[1..] == Escaped(key) + [QUOTE] + tail;
    assert tail[1..] == t + rest;
  }

  lemma LastMember(t: Text, m: Member<Json>, rest: Text)
    requires ParseMember(t) == Some(Parsed(m, [RBRACE] + rest))
    ensures ParseMembers(t) == Some(Parsed([m], rest))
  {
    hide ParseMember;
    assert ([RBRACE] + rest)[1..] == rest;
  }

  lemma NextMember(t: Text, m: Member<Json>, more: Text, ms: seq<Member<Json>>, rest: Text)
    requires ParseMember(t) == Some(Parsed(m, [COMMA] + more)) && ParseMembers(more) == Some(Parsed(ms, rest))
    ensures ParseMembers(t) == Some(Parsed([m] + ms, rest))
  {
    hide ParseMember;
    assert ([COMMA] + more)[1..] == more;
  }

  lemma PairsSplit(ts: seq<Member<Text>>)
    requires ts != []
    ensures Pairs(ts) == [Quoted(ts[0].key) + [COLON] + ts[0].value] + Pairs(ts[1..])
  {}

  lemma {:induction false} MembersRead(ts: seq<Member<Text>>, vs: seq<Member<Json>>, rest: Text)
    requires Matches(ts, vs) && ts != []
    ensures ParseMembers(Joined(Pairs(ts)) + [RBRACE] + rest) == Some(Parsed(vs, rest))
    decreases |ts|
  {
    hide ParseMember, ParseMembers, Quoted, Reads, Pairs;
    PairsSplit(ts);
    var t := Joined(Pairs(ts)) + [RBRACE] + rest;
    var first := Quoted(ts[0].key) + [COLON] + ts[0].value;
    var m := Member(ts[0].key, vs[0].value);
    if |ts| == 1 {
      assert Pairs(ts[1..]) == [] by { assert ts[1..] == []; EmptyPairs(); }
      assert t == first + ([RBRACE] + rest);
      MemberReads(m.key, ts[0].value, m.value, [RBRACE] + rest);
      LastMember(t, m, rest);
      assert vs == [m];
    } else {
      PairsSplit(ts[1..]);
      var more := Joined(Pairs(ts[1..])) + [RBRACE] + rest;
      MembersRead(ts[1..], vs[1..], rest);
      assert Pairs(ts)[1..] == Pairs(ts[1..]);
      assert t == first + ([COMMA] + more);
      MemberReads(m.key, ts[0].value, m.value, [COMMA] + more);
      NextMember(t, m, more, vs[1..], rest);
      assert vs == [m] + vs[1..];
    }
  }

  lemma EmptyPairs()
    ensures Pairs([]) == []
  {}

  lemma ObjectReads(ts: seq<Member<Text>>, vs: seq<Member<Json>>)
    requires Matches(ts, vs)
    ensures Reads([LBRACE] + Joined(Pairs(ts)) + [RBRACE], Obj(vs))
  {
    hide Parse, ParseMembers, Pairs, Escaped, Matches;
    forall rest | Delimited(rest)
      ensures Parse([LBRACE] + Joined(Pairs(ts)) + [RBRACE] + rest) == Some(Parsed(Obj(vs), rest)) {
      var t := [LBRACE] + Joined(Pairs(ts)) + [RBRACE] + rest;
      TakesObject(t);
      if ts == [] {
        EmptyPairs();
        assert t[2..] == rest;
        assert vs == [] by { NoMembers(ts, vs); }
      } else {
        PairsSplit(ts);
        MembersRead(ts, vs, rest);
        assert t[1..] == Joined(Pairs(ts)) + [RBRACE] + rest;
        assert t[1] == QUOTE;
      }
    }
  }

  lemma NoMembers(ts: seq<Member<Text>>, vs: seq<Member<Json>>)
    requires Matches(ts, vs) && ts == []
    ensures vs == []
  {}

  lemma {:induction false} InsertMatches(t: Member<Text>, m: Member<Json>, ts: seq<Member<Text>>, vs: seq<Member<Json>>)
    requires Matches(ts, vs) && t.key == m.key && Reads(t.value, m.value)
    ensures Matches(Insert(t, ts), Insert(m, vs))
    decreases |ts|
  {
    hide Reads;
    if ts != [] { InsertMatches(t, m, ts[1..], vs[1..]); }
  }

  lemma {:induction false} SortMatches(ts: seq<Member<Text>>, vs: seq<Member<Json>>)
    requires Matches(ts, vs)
    ensures Matches(Sort(ts), Sort(vs))
    decreases |ts|
  {
    hide Reads;
    if ts != [] {
      SortMatches(ts[1..], vs[1..]);
      InsertMatches(ts[0], vs[0], Sort(ts[1..]), Sort(vs[1..]));
    }
  }

  lemma LiteralReads(b: bool)
    ensures Reads(NULL_TEXT, Null) && Reads(if b then TRUE_TEXT else FALSE_TEXT, Bool(b))
  {
    forall rest ensures Parse(NULL_TEXT + rest) == Some(Parsed(Null, rest)) { assert (NULL_TEXT + rest)[4..] == rest; }
    forall rest ensures Parse((if b then TRUE_TEXT else FALSE_TEXT) + rest) == Some(Parsed(Bool(b), rest)) {
      assert (TRUE_TEXT + rest)[4..] == rest && (FALSE_TEXT + rest)[5..] == rest;
      assert TRUE_TEXT[0] == (TRUE_TEXT + rest)[0] && FALSE_TEXT[0] == (FALSE_TEXT + rest)[0];
    }
  }

  /** Reading a printed value gives its canonical form, wherever the text stands. */
  lemma {:induction false} PrintReads(v: Json)
    ensures Reads(Print(v), Canon(v))
    decreases v
  {
    hide Reads, Parse, Quoted;
    match v
    case Undefined => LiteralReads(true);
    case Null => LiteralReads(true);
    case Bool(b) => LiteralReads(b);
    case Num(n) => NumberReads(n);
    case Str(s) => QuotedReads(s);
    case Arr(items) =>
      ItemsPrinted(items);
      ArrayReads(PrintItems(items), CanonItems(items));
    case Obj(ms) =>
      MembersPrinted(ms);
      SortMatches(PrintMembers(ms), CanonMembers(ms));
      ObjectReads(Sort(PrintMembers(ms)), Sort(CanonMembers(ms)));
  }

  lemma {:induction false} ItemsPrinted(items: seq<Json>)
    ensures |PrintItems(items)| == |CanonItems(items)| == |items|
    ensures forall i :: 0 <= i < |items| ==> Reads(PrintItems(items)[i], CanonItems(items)[i])
    decreases items
  {
    hide Reads, Print, Canon;
    if items != [] {
      PrintReads(items[0]);
      ItemsPrinted(items[1..]);
    }
  }

  lemma {:induction false} MembersPrinted(ms: seq<Member<Json>>)
    ensures Matches(PrintMembers(ms), CanonMembers(ms))
    decreases ms
  {
    hide Reads, Print, Canon;
    if ms != [] {
      PrintReads(ms[0].value);
      MembersPrinted(ms[1..]);
    }
  }
}
