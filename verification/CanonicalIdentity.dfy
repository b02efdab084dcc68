/** What a canonical text says about its value: two values print alike exactly when they are the same
    JSON value up to the order of object members. */
module CanonicalIdentity {
  import opened Common
  import opened CanonicalJson

  /** The same document: undefined members are absent, undefined items are null. */
  ghost predicate Same(v: Json, w: Json)
    decreases v
  {
    match (v, w)
    case (Arr(xs), Arr(ys)) => |xs| == |ys| && forall i :: 0 <= i < |xs| ==> Same(xs[i], ys[i])
    case (Obj(ms), Obj(ns)) => Forth(ms, ns) && Back(ms, ns)
    case _ => Leaf(v) == Leaf(w)
  }

  ghost predicate Forth(ms: seq<Member<Json>>, ns: seq<Member<Json>>)
    decreases ms
  {
    forall i :: 0 <= i < |ms| && Defined(ms[i]) ==> exists j :: 0 <= j < |ns| && Twin(ms[i], ns[j])
  }

  ghost predicate Back(ms: seq<Member<Json>>, ns: seq<Member<Json>>)
    decreases ms
  {
    forall j :: 0 <= j < |ns| && Defined(ns[j]) ==> exists i :: 0 <= i < |ms| && Twin(ms[i], ns[j])
  }

  ghost predicate Twin(m: Member<Json>, n: Member<Json>)
    decreases m
  {
    Defined(m) && Defined(n) && m.key == n.key && Same(m.value, n.value)
  }

  predicate Defined(m: Member<Json>) { !m.value.Undefined? }

  function Leaf(v: Json): Json { if v.Undefined? then Null else v }

  // ---- Sorting -----------------------------------------------------------------------------------

  lemma {:induction false} BeforeIsStrict(a: Text)
    ensures !Before(a, a)
    decreases |a|
  {
    if a != [] { BeforeIsStrict(a[1..]); }
  }

  lemma {:induction false} BeforeIsTotal(a: Text, b: Text)
    ensures a == b || Before(a, b) || Before(b, a)
    decreases |a|
  {
    if a != [] && b != [] && a[0] == b[0] {
      BeforeIsTotal(a[1..], b[1..]);
      assert a == [a[0]] + a[1..] && b == [b[0]] + b[1..];
    }
  }

  lemma {:induction false} BeforeChains(a: Text, b: Text, c: Text)
    requires Before(a, b) && Before(b, c)
    ensures Before(a, c)
    decreases |a|
  {
    if a != [] && a[0] == b[0] && b[0] == c[0] { BeforeChains(a[1..], b[1..], c[1..]); }
  }

  predicate Ascending<T>(ms: seq<Member<T>>) {
    forall i, j :: 0 <= i < j < |ms| ==> Before(ms[i].key, ms[j].key)
  }

  lemma {:induction false} InsertElements<T>(m: Member<T>, ms: seq<Member<T>>, x: Member<T>)
    ensures x in Insert(m, ms) <==> x == m || x in ms
    decreases |ms|
  {
    if ms != [] {
      InsertElements(m, ms[1..], x);
      assert ms == [ms[0]] + ms[1..];
    }
  }

  lemma {:induction false} SortElements<T>(ms: seq<Member<T>>, x: Member<T>)
    ensures x in Sort(ms) <==> x in ms
    decreases |ms|
  {
    if ms != [] {
      SortElements(ms[1..], x);
      InsertElements(ms[0], Sort(ms[1..]), x);
      assert ms == [ms[0]] + ms[1..];
    }
  }

  lemma {:induction false} InsertAscends<T>(m: Member<T>, ms: seq<Member<T>>)
    requires Ascending(ms) && forall x :: x in ms ==> x.key != m.key
    ensures Ascending(Insert(m, ms))
    decreases |ms|
  {
    if ms != [] {
      if Before(ms[0].key, m.key) {
        InsertAscends(m, ms[1..]);
        forall x | x in Insert(m, ms[1..]) ensures Before(ms[0].key, x.key) { InsertElements(m, ms[1..], x); }
      } else {
        BeforeIsTotal(ms[0].key, m.key);
        forall x | x in ms ensures Before(m.key, x.key) {
          if x.key != ms[0].key { BeforeChains(m.key, ms[0].key, x.key); }
        }
      }
    }
  }

  lemma {:induction false} SortAscends<T>(ms: seq<Member<T>>)
    requires DistinctKeys(ms)
    ensures Ascending(Sort(ms))
    decreases |ms|
  {
    if ms != [] {
      SortAscends(ms[1..]);
      forall x | x in Sort(ms[1..]) ensures x.key != ms[0].key {
        SortElements(ms[1..], x);
        var i :| 0 <= i < |ms[1..]| && ms[1..][i] == x;
        assert ms[i + 1] == x;
      }
      InsertAscends(ms[0], Sort(ms[1..]));
    }
  }

  lemma {:induction false} AscendingIsUnique<T>(a: seq<Member<T>>, b: seq<Member<T>>)
    requires Ascending(a) && Ascending(b) && forall x :: x in a <==> x in b
    ensures a == b
    decreases |a|
  {
    assert b == [] || b[0] in a;
    if a != [] {
      assert a[0] in b && b[0] in a;
      var k :| 0 <= k < |b| && b[k] == a[0];
      var l :| 0 <= l < |a| && a[l] == b[0];
      if k > 0 && l > 0 { BeforeChains(a[0].key, b[0].key, a[0].key); }
      BeforeIsStrict(a[0].key);
      assert a[0] == b[0];
      forall x ensures x in a[1..] <==> x in b[1..] {
        assert x in a <==> x == a[0] || x in a[1..];
        assert x in b <==> x == b[0] || x in b[1..];
      }
      AscendingIsUnique(a[1..], b[1..]);
      assert a == [a[0]] + a[1..] && b == [b[0]] + b[1..];
    }
  }

  /** Sorting depends on the members alone, not on their order. */
  lemma SortIsCanonical<T>(a: seq<Member<T>>, b: seq<Member<T>>)
    requires DistinctKeys(a) && DistinctKeys(b) && forall x :: x in a <==> x in b
    ensures Sort(a) == Sort(b)
  {
    SortAscends(a);
    SortAscends(b);
    forall x ensures x in Sort(a) <==> x in Sort(b) {
      SortElements(a, x);
      SortElements(b, x);
    }
    AscendingIsUnique(Sort(a), Sort(b));
  }

  // ---- Members -----------------------------------------------------------------------------------

  lemma {:induction false} PrintedMember(ms: seq<Member<Json>>, i: nat)
    requires i < |ms| && Defined(ms[i])
    ensures Member(ms[i].key, Print(ms[i].value)) in PrintMembers(ms)
    decreases i
  {
    hide Print;
    if i > 0 { PrintedMember(ms[1..], i - 1); }
  }

  lemma {:induction false} PrintedFrom(ms: seq<Member<Json>>, x: Member<Text>) returns (i: nat)
    requires x in PrintMembers(ms)
    ensures i < |ms| && Defined(ms[i]) && x == Member(ms[i].key, Print(ms[i].value))
    decreases |ms|
  {
    hide Print;
    if Defined(ms[0]) && x == Member(ms[0].key, Print(ms[0].value)) {
      i := 0;
    } else {
      i := PrintedFrom(ms[1..], x);
      i := i + 1;
    }
  }

  lemma {:induction false} CanonMember(ms: seq<Member<Json>>, i: nat)
    requires i < |ms| && Defined(ms[i])
    ensures Member(ms[i].key, Canon(ms[i].value)) in CanonMembers(ms)
    decreases i
  {
    hide Canon;
    if i > 0 { CanonMember(ms[1..], i - 1); }
  }

  lemma {:induction false} CanonFrom(ms: seq<Member<Json>>, x: Member<Json>) returns (i: nat)
    requires x in CanonMembers(ms)
    ensures i < |ms| && Defined(ms[i]) && x == Member(ms[i].key, Canon(ms[i].value))
    decreases |ms|
  {
    hide Canon;
    if Defined(ms[0]) && x == Member(ms[0].key, Canon(ms[0].value)) {
      i := 0;
    } else {
      i := CanonFrom(ms[1..], x);
      i := i + 1;
    }
  }

  lemma {:induction false} PrintedKeys(ms: seq<Member<Json>>)
    requires DistinctKeys(ms)
    ensures DistinctKeys(PrintMembers(ms))
    decreases |ms|
  {
    hide Print;
    if ms != [] {
      PrintedKeys(ms[1..]);
      forall x | x in PrintMembers(ms[1..]) ensures x.key != ms[0].key {
        var i := PrintedFrom(ms[1..], x);
        assert ms[1..][i] == ms[i + 1];
      }
    }
  }

  lemma {:induction false} ItemAt(items: seq<Json>, i: nat)
    requires i < |items|
    ensures |PrintItems(items)| == |CanonItems(items)| == |items|
    ensures PrintItems(items)[i] == Print(items[i]) && CanonItems(items)[i] == Canon(items[i])
    decreases |items|
  {
    hide Print, Canon;
    if i > 0 { ItemAt(items[1..], i - 1); }
    else if |items| > 1 { ItemAt(items[1..], 0); }
  }

  // ---- Same value, same text ---------------------------------------------------------------------

  lemma {:induction false} SamePrints(v: Json, w: Json)
    requires Proper(v) && Proper(w) && Same(v, w)
    ensures Print(v) == Print(w)
    decreases v
  {
    match (v, w)
    case (Arr(xs), Arr(ys)) => SameItemsPrint(xs, ys);
    case (Obj(ms), Obj(ns)) => SameMembersPrint(ms, ns);
    case _ =>
  }

  lemma SameMembersPrint(ms: seq<Member<Json>>, ns: seq<Member<Json>>)
    requires Proper(Obj(ms)) && Proper(Obj(ns)) && Same(Obj(ms), Obj(ns))
    ensures Sort(PrintMembers(ms)) == Sort(PrintMembers(ns))
    decreases ms
  {
    hide Print, Twin, PrintMembers, Sort, Forth, Back;
    forall i, j | 0 <= i < |ms| && 0 <= j < |ns| && Twin(ms[i], ns[j])
      ensures Defined(ms[i]) && Defined(ns[j]) && ms[i].key == ns[j].key && Print(ms[i].value) == Print(ns[j].value) {
      TwinPrints(ms[i], ns[j]);
    }
    forall x ensures x in PrintMembers(ms) <==> x in PrintMembers(ns) {
      if x in PrintMembers(ms) { PrintedForth(ms, ns, x); }
      if x in PrintMembers(ns) { PrintedBack(ms, ns, x); }
    }
    PrintedKeys(ms);
    PrintedKeys(ns);
    SortIsCanonical(PrintMembers(ms), PrintMembers(ns));
  }

  ghost predicate TwinsAlike(ms: seq<Member<Json>>, ns: seq<Member<Json>>) {
    forall i, j :: 0 <= i < |ms| && 0 <= j < |ns| && Twin(ms[i], ns[j]) ==>
      Defined(ms[i]) && Defined(ns[j]) && ms[i].key == ns[j].key && Print(ms[i].value) == Print(ns[j].value)
  }

  lemma PrintedForth(ms: seq<Member<Json>>, ns: seq<Member<Json>>, x: Member<Text>)
    requires Forth(ms, ns) && TwinsAlike(ms, ns) && x in PrintMembers(ms)
    ensures x in PrintMembers(ns)
  {
    hide Print, PrintMembers, Same, Twin;
    var i := PrintedFrom(ms, x);
    var j :| 0 <= j < |ns| && Twin(ms[i], ns[j]);
    PrintedMember(ns, j);
  }

  lemma PrintedBack(ms: seq<Member<Json>>, ns: seq<Member<Json>>, x: Member<Text>)
    requires Back(ms, ns) && TwinsAlike(ms, ns) && x in PrintMembers(ns)
    ensures x in PrintMembers(ms)
  {
    hide Print, PrintMembers, Same, Twin;
    var j := PrintedFrom(ns, x);
    var i :| 0 <= i < |ms| && Twin(ms[i], ns[j]);
    PrintedMember(ms, i);
  }

  lemma TwinPrints(m: Member<Json>, n: Member<Json>)
    requires Proper(m.value) && Proper(n.value) && Twin(m, n)
    ensures Defined(m) && Defined(n) && m.key == n.key && Print(m.value) == Print(n.value)
    decreases m
  {
    SamePrints(m.value, n.value);
  }

  lemma {:induction false} SameItemsPrint(xs: seq<Json>, ys: seq<Json>)
    requires Proper(Arr(xs)) && Proper(Arr(ys)) && Same(Arr(xs), Arr(ys))
    ensures PrintItems(xs) == PrintItems(ys)
    decreases xs
  {
    if xs != [] {
      SamePrints(xs[0], ys[0]);
      assert forall i :: 0 <= i < |xs[1..]| ==> xs[1..][i] == xs[i + 1] && ys[1..][i] == ys[i + 1];
      SameItemsPrint(xs[1..], ys[1..]);
    }
  }

  // ---- Same canonical form, same value -----------------------------------------------------------

  lemma {:induction false} CanonSame(v: Json, w: Json)
    requires Canon(v) == Canon(w)
    ensures Same(v, w)
    decreases v
  {
    match (v, w)
    case (Arr(xs), Arr(ys)) =>
      if xs != [] { ItemAt(xs, 0); }
      if ys != [] { ItemAt(ys, 0); }
      forall i | 0 <= i < |xs| ensures Same(xs[i], ys[i]) {
        ItemAt(xs, i);
        ItemAt(ys, i);
        CanonSame(xs[i], ys[i]);
      }
    case (Obj(ms), Obj(ns)) =>
      forall i | 0 <= i < |ms| && Defined(ms[i])
        ensures exists j :: 0 <= j < |ns| && Twin(ms[i], ns[j]) {
        var j := Counterpart(ms, ns, i);
        CanonSame(ms[i].value, ns[j].value);
        assert Twin(ms[i], ns[j]);
      }
      forall j | 0 <= j < |ns| && Defined(ns[j])
        ensures exists i :: 0 <= i < |ms| && Twin(ms[i], ns[j]) {
        var i := Counterpart(ns, ms, j);
        CanonSame(ms[i].value, ns[j].value);
        assert Twin(ms[i], ns[j]);
      }
    case _ =>
  }

  lemma Counterpart(ms: seq<Member<Json>>, ns: seq<Member<Json>>, i: nat) returns (j: nat)
    requires Sort(CanonMembers(ms)) == Sort(CanonMembers(ns)) && i < |ms| && Defined(ms[i])
    ensures j < |ns| && Defined(ns[j]) && ns[j].key == ms[i].key && Canon(ns[j].value) == Canon(ms[i].value)
  {
    hide Canon;
    var x := Member(ms[i].key, Canon(ms[i].value));
    CanonMember(ms, i);
    SortElements(CanonMembers(ms), x);
    SortElements(CanonMembers(ns), x);
    j := CanonFrom(ns, x);
  }

  /** The value a text was printed from is the same as the value it parses to. */
  lemma {:induction false} SameAsCanon(v: Json)
    ensures Same(v, Canon(v))
    decreases v
  {
    match v
    case Arr(items) =>
      if items != [] { ItemAt(items, 0); }
      forall i | 0 <= i < |items| ensures Same(items[i], CanonItems(items)[i]) {
        ItemAt(items, i);
        SameAsCanon(items[i]);
      }
    case Obj(ms) =>
      var ns := Sort(CanonMembers(ms));
      forall i | 0 <= i < |ms| && Defined(ms[i])
        ensures exists j :: 0 <= j < |ns| && Twin(ms[i], ns[j]) {
        var x := Member(ms[i].key, Canon(ms[i].value));
        CanonMember(ms, i);
        SortElements(CanonMembers(ms), x);
        var j :| 0 <= j < |ns| && ns[j] == x;
        SameAsCanon(ms[i].value);
        assert Twin(ms[i], ns[j]);
      }
      forall j | 0 <= j < |ns| && Defined(ns[j])
        ensures exists i :: 0 <= i < |ms| && Twin(ms[i], ns[j]) {
        SortElements(CanonMembers(ms), ns[j]);
        var i := CanonFrom(ms, ns[j]);
        SameAsCanon(ms[i].value);
        assert Twin(ms[i], ns[j]);
      }
    case _ =>
  }

  // ---- Results -----------------------------------------------------------------------------------

  /** The output of canonicalJson parses, to its end, to the value it was made from. */
  lemma RoundTrip(v: Json)
    requires Canonical(v).Some?
    ensures exists w :: Parse(Canonical(v).value) == Some(Parsed(w, [])) && Same(v, w)
  {
    hide Parse, Print, Canon, Same;
    PrintReads(v);
    SameAsCanon(v);
    assert Print(v) + [] == Print(v);
  }

  /** Two values print alike exactly when they are the same up to the order of object members. */
  lemma PrintsAlike(v: Json, w: Json)
    requires Proper(v) && Proper(w) && Canonical(v).Some? && Canonical(w).Some?
    ensures Canonical(v) == Canonical(w) <==> Same(v, w)
  {
    hide Parse, Print, Canon, Same, Proper;
    if Print(v) == Print(w) {
      PrintReads(v);
      PrintReads(w);
      assert Parse(Print(v) + []) == Some(Parsed(Canon(v), [])) && Parse(Print(w) + []) == Some(Parsed(Canon(w), []));
      CanonSame(v, w);
    }
    if Same(v, w) { SamePrints(v, w); }
  }

  // ---- The text survives UTF-8 -------------------------------------------------------------------

  /** Every surrogate is half of a pair, so encoding to UTF-8 loses nothing. */
  predicate Paired(t: Text)
    decreases |t|
  {
    t == [] || (if PairAhead(t) then Paired(t[2..]) else !Surrogate(t[0]) && Paired(t[1..]))
  }

  lemma {:induction false} PairedConcat(a: Text, b: Text)
    requires Paired(a) && Paired(b)
    ensures Paired(a + b)
    decreases |a|
  {
    if a == [] {
      assert a + b == b;
    } else {
      var n := if PairAhead(a) then 2 else 1;
      PairedConcat(a[n..], b);
      assert (a + b)[n..] == a[n..] + b;
    }
  }

  lemma {:induction false} PlainIsPaired(t: Text)
    requires forall i :: 0 <= i < |t| ==> !Surrogate(t[i])
    ensures Paired(t)
    decreases |t|
  {
    if t != [] { PlainIsPaired(t[1..]); }
  }

  lemma {:induction false} EscapedIsPaired(s: Text)
    ensures Paired(Escaped(s))
    decreases |s|
  {
    hide Escape, Escaped;
    if s == [] {
      NothingEscaped();
    } else {
      EscapedSplits(s);
      if PairAhead(s) {
        EscapedIsPaired(s[2..]);
        assert Paired([s[0], s[1]]) by { assert [s[0], s[1]][2..] == []; }
        PairedConcat([s[0], s[1]], Escaped(s[2..]));
      } else {
        EscapedIsPaired(s[1..]);
        EscapeIsPlain(s[0]);
        PlainIsPaired(Escape(s[0]));
        PairedConcat(Escape(s[0]), Escaped(s[1..]));
      }
    }
  }

  lemma NothingEscaped()
    ensures Escaped([]) == []
  {}

  lemma EscapeIsPlain(u: Unit)
    ensures forall i :: 0 <= i < |Escape(u)| ==> !Surrogate(Escape(u)[i])
  {}

  lemma QuotedIsPaired(s: Text)
    ensures Paired(Quoted(s))
  {
    EscapedIsPaired(s);
    PlainIsPaired([QUOTE]);
    PairedConcat([QUOTE], Escaped(s));
    PairedConcat([QUOTE] + Escaped(s), [QUOTE]);
  }

  lemma {:induction false} JoinedIsPaired(texts: seq<Text>)
    requires forall i :: 0 <= i < |texts| ==> Paired(texts[i])
    ensures Paired(Joined(texts))
    decreases |texts|
  {
    if |texts| > 1 {
      JoinedIsPaired(texts[1..]);
      PlainIsPaired([COMMA]);
      PairedConcat(texts[0], [COMMA]);
      PairedConcat(texts[0] + [COMMA], Joined(texts[1..]));
    }
  }

  lemma WrappedIsPaired(open: Unit, t: Text, close: Unit)
    requires Paired(t) && !Surrogate(open) && !Surrogate(close)
    ensures Paired([open] + t + [close])
  {
    PlainIsPaired([open]);
    PlainIsPaired([close]);
    PairedConcat([open], t);
    PairedConcat([open] + t, [close]);
  }

  lemma NumberIsPlain(n: int)
    ensures Paired(Number(n))
  {
    PlainIsPaired(Number(n));
  }

  lemma PairIsPaired(m: Member<Text>)
    requires Paired(m.value)
    ensures Paired(Quoted(m.key) + [COLON] + m.value)
  {
    hide Quoted;
    QuotedIsPaired(m.key);
    PlainIsPaired([COLON]);
    PairedConcat(Quoted(m.key), [COLON]);
    PairedConcat(Quoted(m.key) + [COLON], m.value);
  }

  /** What is hashed is well-formed UTF-16, whatever strings the record holds. */
  lemma {:induction false} TextIsWellFormed(v: Json)
    ensures Paired(Print(v))
    decreases v
  {
    hide Quoted, Number, Paired;
    match v
    case Arr(items) =>
      forall i | 0 <= i < |PrintItems(items)| ensures Paired(PrintItems(items)[i]) {
        ItemCount(items);
        ItemAt(items, i);
        TextIsWellFormed(items[i]);
      }
      JoinedIsPaired(PrintItems(items));
      WrappedIsPaired(LBRACKET, Joined(PrintItems(items)), RBRACKET);
    case Obj(ms) =>
      var ts := Sort(PrintMembers(ms));
      forall i | 0 <= i < |ts| ensures Paired(Pairs(ts)[i]) {
        SortElements(PrintMembers(ms), ts[i]);
        var j := PrintedFrom(ms, ts[i]);
        TextIsWellFormed(ms[j].value);
        PairIsPaired(ts[i]);
      }
      JoinedIsPaired(Pairs(ts));
      WrappedIsPaired(LBRACE, Joined(Pairs(ts)), RBRACE);
    case Str(s) => QuotedIsPaired(s);
    case Num(n) => NumberIsPlain(n);
    case _ => LiteralsArePlain();
  }

  lemma LiteralsArePlain()
    ensures Paired(NULL_TEXT) && Paired(TRUE_TEXT) && Paired(FALSE_TEXT)
  {
    PlainIsPaired(NULL_TEXT);
    PlainIsPaired(TRUE_TEXT);
    PlainIsPaired(FALSE_TEXT);
  }

  lemma {:induction false} ItemCount(items: seq<Json>)
    ensures |PrintItems(items)| == |items|
    decreases |items|
  {
    hide Print;
    if items != [] { ItemCount(items[1..]); }
  }
}
