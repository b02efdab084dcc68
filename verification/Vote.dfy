/** The exact-match vote: normalizing answers, grouping them, and picking the largest group. */
module Vote {
  import opened Common
  import CanonicalJson

  /** A character of an answer: a letter or digit in some case, white space, or anything else. */
  datatype Glyph = Word(id: nat, upper: bool) | White(id: nat) | Mark(id: nat)

  type Text = seq<Glyph>

  const SPACE := White(0)

  // ---- normalize ---------------------------------------------------------------------------------

  function TrimStart(t: Text): Text { if t != [] && t[0].White? then TrimStart(t[1..]) else t }

  function TrimEnd(t: Text): Text { if t != [] && t[|t| - 1].White? then TrimEnd(t[..|t| - 1]) else t }

  function Trim(t: Text): Text { TrimEnd(TrimStart(t)) }

  function Lower(g: Glyph): Glyph { if g.Word? then g.(upper := false) else g }

  function LowerCase(t: Text): Text { if t == [] then [] else [Lower(t[0])] + LowerCase(t[1..]) }

  function Strip(t: Text): Text {
    if t == [] then [] else (if t[0].Mark? then [] else [t[0]]) + Strip(t[1..])
  }

  /** Every run of white space becomes one space. */
  function Collapse(t: Text): Text {
    if t == [] then []
    else if !t[0].White? then [t[0]] + Collapse(t[1..])
    else if |t| > 1 && t[1].White? then Collapse(t[1..])
    else [SPACE] + Collapse(t[1..])
  }

  function Normalize(t: Text): Text { Trim(Collapse(Strip(LowerCase(Trim(t))))) }

  /** The words of an answer, read in one pass: lower-case letters and digits between white space. */
  function Words(t: Text, word: Text): seq<Text> {
    if t == [] then (if word == [] then [] else [word])
    else if t[0].White? then (if word == [] then [] else [word]) + Words(t[1..], [])
    else Words(t[1..], if t[0].Mark? then word else word + [Lower(t[0])])
  }

  function Spaced(words: seq<Text>): Text {
    if words == [] then []
    else if |words| == 1 then words[0]
    else words[0] + [SPACE] + Spaced(words[1..])
  }

  lemma {:induction false} TrimStartWords(t: Text)
    ensures Words(TrimStart(t), []) == Words(t, [])
    decreases |t|
  {
    if t != [] && t[0].White? { TrimStartWords(t[1..]); }
  }

  lemma {:induction false} LastWhite(t: Text, g: Glyph, word: Text)
    requires g.White?
    ensures Words(t + [g], word) == Words(t, word)
    decreases |t|
  {
    if t == [] {
      assert t + [g] == [g] && [g][1..] == [];
    } else {
      assert (t + [g])[1..] == t[1..] + [g];
      LastWhite(t[1..], g, if t[0].White? then [] else if t[0].Mark? then word else word + [Lower(t[0])]);
    }
  }

  lemma {:induction false} TrimEndWords(t: Text)
    ensures Words(TrimEnd(t), []) == Words(t, [])
    decreases |t|
  {
    if t != [] && t[|t| - 1].White? {
      TrimEndWords(t[..|t| - 1]);
      LastWhite(t[..|t| - 1], t[|t| - 1], []);
      assert t == t[..|t| - 1] + [t[|t| - 1]];
    }
  }

  lemma {:induction false} LowerWords(t: Text, word: Text)
    ensures Words(LowerCase(t), word) == Words(t, word)
    decreases |t|
  {
    if t != [] {
      assert LowerCase(t)[1..] == LowerCase(t[1..]);
      LowerWords(t[1..], if t[0].White? then [] else if t[0].Mark? then word else word + [Lower(t[0])]);
    }
  }

  lemma {:induction false} StripWords(t: Text, word: Text)
    ensures Words(Strip(t), word) == Words(t, word)
    decreases |t|
  {
    if t != [] {
      StripWords(t[1..], if t[0].White? then [] else if t[0].Mark? then word else word + [Lower(t[0])]);
      if t[0].Mark? { assert Strip(t) == Strip(t[1..]); } else { assert Strip(t)[1..] == Strip(t[1..]); }
    }
  }

  lemma {:induction false} CollapseWords(t: Text, word: Text)
    ensures Words(Collapse(t), word) == Words(t, word)
    decreases |t|
  {
    if t == [] {
    } else if !t[0].White? {
      CollapseWords(t[1..], if t[0].Mark? then word else word + [Lower(t[0])]);
      assert Collapse(t)[1..] == Collapse(t[1..]);
    } else if |t| > 1 && t[1].White? {
      CollapseWords(t[1..], word);
      assert Words(t[1..], []) == Words(t[2..], []) by { assert t[1..][1..] == t[2..]; }
      assert Words(t[1..], word) == (if word == [] then [] else [word]) + Words(t[2..], []) by { assert t[1..][1..] == t[2..]; }
    } else {
      CollapseWords(t[1..], []);
      assert Collapse(t)[1..] == Collapse(t[1..]);
    }
  }

  /** Lower-case words, single spaces, and no space at either end. */
  predicate Tidy(t: Text) {
    && (forall i :: 0 <= i < |t| ==> t[i] == SPACE || (t[i].Word? && !t[i].upper))
    && (forall i :: 0 < i < |t| && t[i] == SPACE ==> t[i - 1] != SPACE)
  }

  predicate Normal(t: Text) {
    Tidy(t) && (t != [] ==> t[0] != SPACE && t[|t| - 1] != SPACE)
  }

  lemma {:induction false} LowerStripForm(t: Text)
    ensures forall g :: g in Strip(LowerCase(t)) ==> g.White? || (g.Word? && !g.upper)
    decreases |t|
  {
    if t != [] {
      LowerStripForm(t[1..]);
      assert LowerCase(t)[1..] == LowerCase(t[1..]);
    }
  }

  lemma {:induction false} CollapseForm(t: Text)
    requires forall g :: g in t ==> g.White? || (g.Word? && !g.upper)
    ensures Tidy(Collapse(t))
    ensures t != [] && !t[0].White? ==> Collapse(t) != [] && Collapse(t)[0] != SPACE
    decreases |t|
  {
    if t != [] {
      assert forall g :: g in t[1..] ==> g in t;
      CollapseForm(t[1..]);
      var c := Collapse(t[1..]);
      if t[0].White? && !(|t| > 1 && t[1].White?) { assert c == [] || c[0] != SPACE; }
    }
  }

  lemma {:induction false} TrimStartForm(t: Text)
    requires Tidy(t)
    ensures Tidy(TrimStart(t)) && (TrimStart(t) != [] ==> TrimStart(t)[0] != SPACE)
    decreases |t|
  {
    if t != [] && t[0].White? {
      assert Tidy(t[1..]) by { assert forall i :: 0 <= i < |t[1..]| ==> t[1..][i] == t[i + 1]; }
      TrimStartForm(t[1..]);
    }
  }

  lemma {:induction false} TrimEndForm(t: Text)
    requires Tidy(t) && (t != [] ==> t[0] != SPACE)
    ensures Normal(TrimEnd(t))
    decreases |t|
  {
    if t != [] && t[|t| - 1].White? { TrimEndForm(t[..|t| - 1]); }
  }

  lemma NormalizeForm(t: Text)
    ensures Normal(Normalize(t)) && Words(Normalize(t), []) == Words(t, [])
  {
    var a := Trim(t);
    TrimStartWords(t);
    TrimEndWords(TrimStart(t));
    var b := Strip(LowerCase(a));
    LowerWords(a, []);
    StripWords(LowerCase(a), []);
    LowerStripForm(a);
    var c := Collapse(b);
    CollapseWords(b, []);
    CollapseForm(b);
    TrimStartForm(c);
    TrimStartWords(c);
    TrimEndForm(TrimStart(c));
    TrimEndWords(TrimStart(c));
  }

  lemma NextWord(t: Text, word: Text)
    requires |t| > 1 && t[0] == SPACE && t[1].Word? && !t[1].upper && word != []
    ensures Words(t, word) == [word] + Words(t[2..], [t[1]])
  {
    assert t[1..][1..] == t[2..] && [] + [Lower(t[1])] == [t[1]];
    assert Words(t[1..], []) == Words(t[2..], [t[1]]);
  }

  lemma SpacedCons(word: Text, rest: seq<Text>)
    requires rest != []
    ensures Spaced([word] + rest) == word + [SPACE] + Spaced(rest)
  {
    assert ([word] + rest)[1..] == rest;
  }

  lemma TidyDrop(t: Text, n: nat)
    requires Tidy(t) && n <= |t|
    ensures Tidy(t[n..])
  {
    assert forall i :: 0 <= i < |t[n..]| ==> t[n..][i] == t[i + n];
  }

  lemma LastWord(word: Text)
    requires word != []
    ensures Words([], word) == [word] && Spaced([word]) == word
  {}

  lemma SameWord(t: Text, word: Text)
    requires t != [] && t[0].Word? && !t[0].upper
    ensures Words(t, word) == Words(t[1..], word + [t[0]])
  {}

  /** A normal text from inside a word on. */
  lemma {:induction false} TidyWords(t: Text, word: Text)
    requires Tidy(t) && (t != [] ==> t[|t| - 1] != SPACE) && word != []
    ensures Words(t, word) != [] && Spaced(Words(t, word)) == word + t
    decreases |t|
  {
    hide Words, Spaced;
    if t == [] {
      LastWord(word);
    } else if t[0].White? {
      TidyDrop(t, 2);
      TidyWords(t[2..], [t[1]]);
      NextWord(t, word);
      SpacedCons(word, Words(t[2..], [t[1]]));
      assert word + [SPACE] + ([t[1]] + t[2..]) == word + t;
    } else {
      TidyDrop(t, 1);
      TidyWords(t[1..], word + [t[0]]);
      SameWord(t, word);
      assert word + [t[0]] + t[1..] == word + t;
    }
  }

  lemma NormalIsSpaced(t: Text)
    requires Normal(t)
    ensures Spaced(Words(t, [])) == t
  {
    if t != [] {
      assert Tidy(t[1..]) by { assert forall i :: 0 <= i < |t[1..]| ==> t[1..][i] == t[i + 1]; }
      TidyWords(t[1..], [t[0]]);
      assert [] + [Lower(t[0])] == [t[0]];
    }
  }

  /** normalize gives the answer's words, joined by single spaces. */
  lemma NormalizeIsWords(t: Text)
    ensures Normalize(t) == Spaced(Words(t, []))
  {
    NormalizeForm(t);
    NormalIsSpaced(Normalize(t));
  }

  /** Two answers normalize alike exactly when they have the same words; normalize is idempotent. */
  lemma NormalizeIdentifiesWords(t: Text, u: Text)
    ensures Normalize(t) == Normalize(u) <==> Words(t, []) == Words(u, [])
    ensures Normalize(Normalize(t)) == Normalize(t)
  {
    NormalizeForm(t);
    NormalizeForm(u);
    NormalizeIsWords(t);
    NormalizeIsWords(u);
    NormalizeIsWords(Normalize(t));
  }

  // ---- Grouping ----------------------------------------------------------------------------------

  type WorkerId = CanonicalJson.Text

  datatype Submission = Submission(workerId: WorkerId, answer: Text, established: bool)

  /** One entry of the grouping Map, with its key. */
  datatype Group = Group(norm: Text, representative: Text, workerIds: seq<WorkerId>)

  datatype Tally = Tally(consensus: Text, confidence: real, matching: seq<WorkerId>, allAgree: bool)

  function Norm(s: Submission): Text { Normalize(s.answer) }

  /** The workers whose answers normalize to `n`, in order of submission. */
  function IdsWith(subs: seq<Submission>, n: Text): seq<WorkerId>
    decreases |subs|
  {
    if subs == [] then []
    else
      var last := subs[|subs| - 1];
      IdsWith(subs[..|subs| - 1], n) + if Norm(last) == n then [last.workerId] else []
  }

  /** Where a normalized answer was seen first; |subs| if nowhere. */
  function First(subs: seq<Submission>, n: Text): (f: nat)
    ensures f <= |subs|
    ensures f < |subs| ==> Norm(subs[f]) == n
    ensures forall i :: 0 <= i < f ==> Norm(subs[i]) != n
  {
    if subs == [] || Norm(subs[0]) == n then 0 else 1 + First(subs[1..], n)
  }

  ghost predicate GroupOf(subs: seq<Submission>, g: Group) {
    && First(subs, g.norm) < |subs|
    && g.representative == subs[First(subs, g.norm)].answer
    && g.workerIds == IdsWith(subs, g.norm)
  }

  ghost predicate AllGroups(subs: seq<Submission>, groups: seq<Group>) {
    forall g :: 0 <= g < |groups| ==> GroupOf(subs, groups[g])
  }

  ghost predicate FirstSeenOrder(subs: seq<Submission>, groups: seq<Group>) {
    forall g, h :: 0 <= g < h < |groups| ==> First(subs, groups[g].norm) < First(subs, groups[h].norm)
  }

  predicate Has(groups: seq<Group>, n: Text) { exists g :: 0 <= g < |groups| && groups[g].norm == n }

  /** One group per normalized answer, in first-seen order. */
  ghost predicate Grouping(subs: seq<Submission>, groups: seq<Group>) {
    && AllGroups(subs, groups) && FirstSeenOrder(subs, groups)
    && forall i :: 0 <= i < |subs| ==> Has(groups, Norm(subs[i]))
  }

  method Find(groups: seq<Group>, n: Text) returns (g: nat)
    ensures g <= |groups| && (g < |groups| ==> groups[g].norm == n)
    ensures forall h :: 0 <= h < g ==> groups[h].norm != n
  {
    g := 0;
    while g < |groups| && groups[g].norm != n
      invariant g <= |groups|
      invariant forall h :: 0 <= h < g ==> groups[h].norm != n
    {
      g := g + 1;
    }
  }

  lemma FirstExtends(subs: seq<Submission>, s: Submission, n: Text)
    ensures First(subs + [s], n) ==
      if First(subs, n) < |subs| then First(subs, n) else if Norm(s) == n then |subs| else |subs| + 1
    ensures IdsWith(subs + [s], n) == IdsWith(subs, n) + if Norm(s) == n then [s.workerId] else []
  {
    var t, f := subs + [s], First(subs, n);
    assert t[..|t| - 1] == subs && t[|subs|] == s;
    assert forall i :: 0 <= i < |subs| ==> t[i] == subs[i];
    hide First, Norm;
    if f < |subs| { assert Norm(t[f]) == n; }
  }

  lemma GroupExtends(subs: seq<Submission>, s: Submission, g: Group)
    requires GroupOf(subs, g)
    ensures GroupOf(subs + [s], if g.norm == Norm(s) then g.(workerIds := g.workerIds + [s.workerId]) else g)
    ensures First(subs + [s], g.norm) == First(subs, g.norm)
  {
    FirstExtends(subs, s, g.norm);
  }

  lemma GroupBegins(subs: seq<Submission>, s: Submission)
    requires First(subs, Norm(s)) == |subs|
    ensures GroupOf(subs + [s], Group(Norm(s), s.answer, [s.workerId]))
    ensures First(subs + [s], Norm(s)) == |subs|
  {
    FirstExtends(subs, s, Norm(s));
    NoneYet(subs, Norm(s));
  }

  lemma {:induction false} NoneYet(subs: seq<Submission>, n: Text)
    requires forall i :: 0 <= i < |subs| ==> Norm(subs[i]) != n
    ensures IdsWith(subs, n) == []
    decreases |subs|
  {
    if subs != [] { NoneYet(subs[..|subs| - 1], n); }
  }

  /** groupByNormalizedAnswer; exactMatchVote opens with the same loop. */
  method GroupByNormalizedAnswer(subs: seq<Submission>) returns (groups: seq<Group>)
    ensures Grouping(subs, groups)
  {
    hide Grouping, Normalize;
    groups := [];
    NothingGrouped();
    assert subs[..0] == [];
    for i := 0 to |subs|
      invariant Grouping(subs[..i], groups)
    {
      var s := subs[i];
      ghost var was := groups;
      var g := Find(groups, Norm(s));
      if g == |groups| {
        groups := groups + [Group(Norm(s), s.answer, [])];
      }
      groups := groups[g := groups[g].(workerIds := groups[g].workerIds + [s.workerId])];
      assert g == |was| ==> groups[g].workerIds == [s.workerId];
      assert g == |was| ==> groups == was + [Group(Norm(s), s.answer, [s.workerId])];
      assert subs[..i + 1] == subs[..i] + [s];
      GroupingExtends(subs[..i], s, was, g, groups);
    }
    assert subs[..|subs|] == subs;
  }

  lemma NothingGrouped()
    ensures Grouping([], [])
  {}

  lemma OthersDiffer(subs: seq<Submission>, was: seq<Group>, n: Text, g: nat, h: nat)
    requires Grouping(subs, was) && g <= |was| && (forall h :: 0 <= h < g ==> was[h].norm != n)
    requires (g < |was| ==> was[g].norm == n) && h < |was| && h != g
    ensures was[h].norm != n
  {
    if g < h { assert First(subs, was[g].norm) < First(subs, was[h].norm); }
  }

  lemma StillHas(was: seq<Group>, groups: seq<Group>, n: Text)
    requires Has(was, n) && |groups| >= |was| && forall h :: 0 <= h < |was| ==> groups[h].norm == was[h].norm
    ensures Has(groups, n)
  {
    var h :| 0 <= h < |was| && was[h].norm == n;
    assert groups[h].norm == n;
  }

  lemma GroupingExtends(subs: seq<Submission>, s: Submission, was: seq<Group>, g: nat, groups: seq<Group>)
    requires Grouping(subs, was) && g <= |was| && (forall h :: 0 <= h < g ==> was[h].norm != Norm(s))
    requires g < |was| ==> was[g].norm == Norm(s)
    requires groups == if g < |was| then was[g := was[g].(workerIds := was[g].workerIds + [s.workerId])]
                       else was + [Group(Norm(s), s.answer, [s.workerId])]
    ensures Grouping(subs + [s], groups)
  {
    hide Norm, GroupOf, IdsWith, Has, First;
    forall h | 0 <= h < |was|
      ensures GroupOf(subs + [s], groups[h]) && First(subs + [s], groups[h].norm) == First(subs, was[h].norm) < |subs| {
      if h != g { OthersDiffer(subs, was, Norm(s), g, h); }
      GroupExtends(subs, s, was[h]);
      SeenBefore(subs, was[h]);
    }
    if g == |was| {
      forall i | 0 <= i < |subs| ensures Norm(subs[i]) != Norm(s) { HasNot(was, Norm(s), Norm(subs[i])); }
      NotSeen(subs, Norm(s));
      GroupBegins(subs, s);
    }
    forall i | 0 <= i < |subs + [s]| ensures Has(groups, Norm((subs + [s])[i])) {
      if i < |subs| { StillHas(was, groups, Norm(subs[i])); } else { HasAt(groups, g); }
    }
  }

  lemma HasNot(was: seq<Group>, n: Text, m: Text)
    requires (forall h :: 0 <= h < |was| ==> was[h].norm != n) && Has(was, m)
    ensures m != n
  {}

  lemma HasAt(groups: seq<Group>, g: nat)
    requires g < |groups|
    ensures Has(groups, groups[g].norm)
  {}

  lemma NotSeen(subs: seq<Submission>, n: Text)
    requires forall i :: 0 <= i < |subs| ==> Norm(subs[i]) != n
    ensures First(subs, n) == |subs|
  {}

  lemma SeenBefore(subs: seq<Submission>, g: Group)
    requires GroupOf(subs, g)
    ensures First(subs, g.norm) < |subs|
  {}

  // ---- The vote ----------------------------------------------------------------------------------

  function Size(subs: seq<Submission>, i: nat): nat
    requires i < |subs|
  {
    |IdsWith(subs, Norm(subs[i]))|
  }

  /** The first of the first `k` submissions whose answer is given most often. */
  function Best(subs: seq<Submission>, k: nat): (b: nat)
    requires 0 < k <= |subs|
    ensures b < k
  {
    if k == 1 then 0
    else
      var b := Best(subs, k - 1);
      if Size(subs, k - 1) > Size(subs, b) then k - 1 else b
  }

  lemma {:induction false} BestIsBest(subs: seq<Submission>, k: nat)
    requires 0 < k <= |subs|
    ensures forall i :: 0 <= i < k ==> Size(subs, i) <= Size(subs, Best(subs, k))
    ensures forall i :: 0 <= i < Best(subs, k) ==> Size(subs, i) < Size(subs, Best(subs, k))
    decreases k
  {
    hide Size;
    if k > 1 { BestIsBest(subs, k - 1); }
  }

  function VoteOf(subs: seq<Submission>): Tally
    requires subs != []
  {
    var b := Best(subs, |subs|);
    var ids := IdsWith(subs, Norm(subs[b]));
    Tally(subs[b].answer, |ids| as real / |subs| as real, ids, |ids| == |subs|)
  }

  /** The winner so far, after looking at the first `k` groups: only a larger one replaces it. */
  function Winner(groups: seq<Group>, k: nat, start: Option<Group>): Option<Group>
    requires k <= |groups|
  {
    if k == 0 then start
    else
      var w := Winner(groups, k - 1, start);
      if w.None? || |groups[k - 1].workerIds| > |w.value.workerIds| then Some(groups[k - 1]) else w
  }

  /** Picks the first of the largest groups; without submissions the source throws. */
  method ExactMatchVote(subs: seq<Submission>) returns (r: Option<Tally>)
    ensures r == if subs == [] then None else Some(VoteOf(subs))
  {
    hide Grouping, Normalize, IdsWith;
    var groups := GroupByNormalizedAnswer(subs);
    var winner: Option<Group> := None;
    for g := 0 to |groups|
      invariant winner == Winner(groups, g, None)
    {
      if winner.None? || |groups[g].workerIds| > |winner.value.workerIds| { winner := Some(groups[g]); }
    }
    NoGroups(subs, groups);
    if winner.None? { return None; }
    var ids := winner.value.workerIds;
    WinnerIsBest(subs, groups);
    r := Some(Tally(winner.value.representative, |ids| as real / |subs| as real, ids, |ids| == |subs|));
  }

  /** The running winner is the first largest group. */
  lemma {:induction false} WinnerIsLargest(groups: seq<Group>, k: nat) returns (w: nat)
    requires 0 < k <= |groups|
    ensures w < k && Winner(groups, k, None) == Some(groups[w])
    ensures forall h :: 0 <= h < k ==> |groups[h].workerIds| <= |groups[w].workerIds|
    ensures forall h :: 0 <= h < w ==> |groups[h].workerIds| < |groups[w].workerIds|
  {
    w := 0;
    if k > 1 {
      w := WinnerIsLargest(groups, k - 1);
      if |groups[k - 1].workerIds| > |groups[w].workerIds| { w := k - 1; }
    }
  }

  /** Starting from a winner of its own, the loop only moves to a group that is larger. */
  lemma {:induction false} WinnerFrom(groups: seq<Group>, k: nat, start: Group)
    requires k <= |groups|
    ensures var w := Winner(groups, k, None);
      Winner(groups, k, Some(start)) ==
      if w.None? || |start.workerIds| >= |w.value.workerIds| then Some(start) else w
    ensures k > 0 ==> Winner(groups, k, None).Some?
  {
    if k > 0 { WinnerFrom(groups, k - 1, start); }
  }

  lemma NoGroups(subs: seq<Submission>, groups: seq<Group>)
    requires Grouping(subs, groups)
    ensures groups == [] <==> subs == []
  {
    hide Normalize;
    if groups != [] { assert GroupOf(subs, groups[0]); }
    if subs != [] {
      var n := Norm(subs[0]);
      assert Has(groups, n);
    }
  }

  lemma WinnerIsBest(subs: seq<Submission>, groups: seq<Group>)
    requires Grouping(subs, groups) && groups != []
    ensures subs != [] && var w, b := Winner(groups, |groups|, None), Best(subs, |subs|);
      w.Some? && w.value.representative == subs[b].answer && w.value.workerIds == IdsWith(subs, Norm(subs[b]))
  {
    var w := WinnerIsLargest(groups, |groups|);
    hide Norm, Winner, Has;
    assert GroupOf(subs, groups[w]);
    var f := First(subs, groups[w].norm);
    forall i | 0 <= i < |subs| ensures Size(subs, i) <= Size(subs, f) && (i < f ==> Size(subs, i) < Size(subs, f)) {
      var h := GroupAt(subs, groups, i);
      assert GroupOf(subs, groups[h]);
      assert First(subs, groups[h].norm) <= i;
      if h > w { assert First(subs, groups[w].norm) < First(subs, groups[h].norm); }
    }
    var b := Best(subs, |subs|);
    BestIsBest(subs, |subs|);
    assert Size(subs, b) <= Size(subs, f) <= Size(subs, b);
    assert f == b;
  }

  lemma GroupAt(subs: seq<Submission>, groups: seq<Group>, i: nat) returns (h: nat)
    requires Grouping(subs, groups) && i < |subs|
    ensures h < |groups| && groups[h].norm == Norm(subs[i])
  {
    hide Norm;
    assert Has(groups, Norm(subs[i]));
    h :| 0 <= h < |groups| && groups[h].norm == Norm(subs[i]);
  }

  // ---- What the vote means -----------------------------------------------------------------------

  lemma {:induction false} IdsWithMembers(subs: seq<Submission>, n: Text, id: WorkerId)
    ensures id in IdsWith(subs, n) <==> exists i :: 0 <= i < |subs| && Norm(subs[i]) == n && subs[i].workerId == id
    decreases |subs|
  {
    hide Norm;
    if subs != [] {
      var k := |subs| - 1;
      var front := subs[..k];
      IdsWithMembers(front, n, id);
      assert IdsWith(subs, n) == IdsWith(front, n) + if Norm(subs[k]) == n then [subs[k].workerId] else [];
      hide IdsWith;
      if i :| 0 <= i < k && Norm(front[i]) == n && front[i].workerId == id { assert subs[i] == front[i]; }
      if i :| 0 <= i < k && Norm(subs[i]) == n && subs[i].workerId == id { assert front[i] == subs[i]; }
    }
  }

  lemma {:induction false} IdsWithBound(subs: seq<Submission>, n: Text)
    ensures |IdsWith(subs, n)| <= |subs|
    ensures |IdsWith(subs, n)| == |subs| <==> forall i :: 0 <= i < |subs| ==> Norm(subs[i]) == n
    decreases |subs|
  {
    hide Normalize;
    if subs != [] { IdsWithBound(subs[..|subs| - 1], n); }
  }

  lemma VoteUnfolds(subs: seq<Submission>) returns (b: nat)
    requires subs != []
    ensures b < |subs| && (forall i :: 0 <= i < |subs| ==> Size(subs, i) <= Size(subs, b))
    ensures forall i :: 0 <= i < b ==> Size(subs, i) < Size(subs, b)
    ensures VoteOf(subs).consensus == subs[b].answer && VoteOf(subs).matching == IdsWith(subs, Norm(subs[b]))
  {
    b := Best(subs, |subs|);
    BestIsBest(subs, |subs|);
  }

  /** The consensus is somebody's answer, its workers are exactly those who gave it up to
      normalization, and no answer was given more often, or as often and earlier. */
  lemma VoteIsLargestClass(subs: seq<Submission>, id: WorkerId, i: nat)
    requires i < |subs|
    ensures var v := VoteOf(subs);
      && (id in v.matching <==>
           exists k :: 0 <= k < |subs| && Norm(subs[k]) == Normalize(v.consensus) && subs[k].workerId == id)
      && |IdsWith(subs, Norm(subs[i]))| <= |v.matching|
      && (|IdsWith(subs, Norm(subs[i]))| == |v.matching| ==>
           First(subs, Normalize(v.consensus)) <= First(subs, Norm(subs[i])))
  {
    var b := VoteUnfolds(subs);
    hide Normalize, VoteOf, IdsWith;
    IdsWithMembers(subs, Norm(subs[b]), id);
    var f, fb := First(subs, Norm(subs[i])), First(subs, Norm(subs[b]));
    assert f <= i && Norm(subs[f]) == Norm(subs[i]) && fb <= b && Norm(subs[fb]) == Norm(subs[b]);
    assert Size(subs, f) == Size(subs, i) <= Size(subs, b) == Size(subs, fb);
  }

  lemma Share(a: nat, n: nat)
    requires 0 < a <= n
    ensures 0.0 < a as real / n as real <= 1.0 && (a as real / n as real == 1.0 <==> a == n)
  {
    var x := a as real / n as real;
    assert x * n as real == a as real;
  }

  predicate AllAlike(subs: seq<Submission>) {
    forall i, j :: 0 <= i < j < |subs| ==> Norm(subs[i]) == Norm(subs[j])
  }

  lemma AlikeMeansOneClass(subs: seq<Submission>, b: nat)
    requires b < |subs|
    ensures AllAlike(subs) <==> forall i :: 0 <= i < |subs| ==> Norm(subs[i]) == Norm(subs[b])
  {
    hide Norm;
    if forall i :: 0 <= i < |subs| ==> Norm(subs[i]) == Norm(subs[b]) {
      forall i, j | 0 <= i < j < |subs| ensures Norm(subs[i]) == Norm(subs[j]) {
        assert Norm(subs[i]) == Norm(subs[b]) && Norm(subs[j]) == Norm(subs[b]);
      }
    }
  }

  /** The vote is unanimous exactly when all answers normalize alike, which is when its confidence is 1. */
  lemma VoteIsUnanimous(subs: seq<Submission>)
    requires subs != []
    ensures var v := VoteOf(subs);
      (v.allAgree <==> AllAlike(subs)) && (v.confidence == 1.0 <==> v.allAgree) && 0.0 < v.confidence <= 1.0
  {
    var b := VoteUnfolds(subs);
    hide Norm, IdsWith, Best, AllAlike;
    IdsWithBound(subs, Norm(subs[b]));
    IdsWithMembers(subs, Norm(subs[b]), subs[b].workerId);
    AlikeMeansOneClass(subs, b);
    Share(|VoteOf(subs).matching|, |subs|);
  }
}
