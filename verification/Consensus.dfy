/** Numeric-tolerance consensus: the largest cluster around some submitted value, against the groups
    of answers that are not numbers. */
module Consensus {
  import opened Common
  import opened Vote

  /** percent is relative to the center; both are non-negative in every accepted rule. */
  datatype Tolerance = Percent(p: real) | Absolute(d: real)

  datatype Entry = Entry(workerId: WorkerId, answer: Text, value: real)

  datatype Cluster = Cluster(center: Entry, members: seq<Entry>)

  function Abs(x: real): real { if x < 0.0 then -x else x }

  predicate WithinTolerance(value: real, center: real, t: Tolerance) {
    match t
    case Percent(p) => Abs(value - center) <= Abs(center) * p / 100.0
    case Absolute(d) => Abs(value - center) <= d
  }

  /** The entries within tolerance of `center`, in order of submission. */
  function Near(entries: seq<Entry>, center: real, t: Tolerance): seq<Entry>
    decreases |entries|
  {
    if entries == [] then []
    else
      var last := entries[|entries| - 1];
      Near(entries[..|entries| - 1], center, t) + if WithinTolerance(last.value, center, t) then [last] else []
  }

  function Spread(members: seq<Entry>, center: real): real
    decreases |members|
  {
    if members == [] then 0.0
    else Spread(members[..|members| - 1], center) + Abs(members[|members| - 1].value - center)
  }

  function NearOf(entries: seq<Entry>, t: Tolerance, i: nat): seq<Entry>
    requires i < |entries|
  {
    Near(entries, entries[i].value, t)
  }

  /** Center `i` beats center `j`: more members, or as many and a smaller spread. */
  predicate Beats(entries: seq<Entry>, t: Tolerance, i: nat, j: nat)
    requires i < |entries| && j < |entries|
  {
    var a, b := NearOf(entries, t, i), NearOf(entries, t, j);
    |a| > |b| || (|a| == |b| && Spread(a, entries[i].value) < Spread(b, entries[j].value))
  }

  lemma NewBest(entries: seq<Entry>, t: Tolerance, b: nat, i: nat)
    requires b < i < |entries| && Beats(entries, t, i, b)
    requires forall k: nat :: k < i ==> !Beats(entries, t, k, b)
    ensures forall k: nat :: k < i ==> Beats(entries, t, i, k)
    ensures forall k: nat :: k <= i ==> !Beats(entries, t, k, i)
  {
    hide NearOf, Spread;
    forall k: nat | k < i ensures Beats(entries, t, i, k) && !Beats(entries, t, k, i) {
      assert !Beats(entries, t, k, b);
    }
  }

  /** The first of the first `k` centers that none of them beats. */
  function BestCenter(entries: seq<Entry>, t: Tolerance, k: nat): (b: nat)
    requires 0 < k <= |entries|
    ensures b < k
    ensures forall i: nat :: i < k ==> !Beats(entries, t, i, b)
    ensures forall i: nat :: i < b ==> Beats(entries, t, b, i)
  {
    if k == 1 then 0
    else
      var b := BestCenter(entries, t, k - 1);
      if Beats(entries, t, k - 1, b) then NewBest(entries, t, b, k - 1); k - 1 else b
  }

  function ClusterOf(entries: seq<Entry>, t: Tolerance): Cluster
    requires entries != []
  {
    var b := BestCenter(entries, t, |entries|);
    Cluster(entries[b], NearOf(entries, t, b))
  }

  /** Tries every entry as the center and keeps the first that no other beats. */
  method LargestToleranceCluster(entries: seq<Entry>, t: Tolerance) returns (r: Option<Cluster>)
    ensures r == if entries == [] then None else Some(ClusterOf(entries, t))
  {
    hide Near, Spread;
    r := None;
    var spread := 0.0;
    ghost var b := 0;
    for i := 0 to |entries|
      invariant r.None? <==> i == 0
      invariant i > 0 ==> b == BestCenter(entries, t, i) && r.value == Cluster(entries[b], NearOf(entries, t, b))
                          && spread == Spread(r.value.members, entries[b].value)
    {
      var candidate := entries[i];
      var members := Near(entries, candidate.value, t);
      var s := Spread(members, candidate.value);
      if r.None? || |members| > |r.value.members| || (|members| == |r.value.members| && s < spread) {
        r, spread, b := Some(Cluster(candidate, members)), s, i;
      }
    }
  }

  // ---- The vote ----------------------------------------------------------------------------------

  /** parseNumericAnswer is left abstract: which texts are numbers, and which. */
  type Parser = Text -> Option<real>

  function Numeric(subs: seq<Submission>, parse: Parser): seq<Entry>
    decreases |subs|
  {
    if subs == [] then []
    else
      var s := subs[|subs| - 1];
      Numeric(subs[..|subs| - 1], parse)
      + match parse(s.answer) case Some(x) => [Entry(s.workerId, s.answer, x)] case None => []
  }

  function NonNumeric(subs: seq<Submission>, parse: Parser): seq<Submission>
    decreases |subs|
  {
    if subs == [] then []
    else
      var s := subs[|subs| - 1];
      NonNumeric(subs[..|subs| - 1], parse) + if parse(s.answer).None? then [s] else []
  }

  function Workers(es: seq<Entry>): seq<WorkerId> { seq(|es|, i requires 0 <= i < |es| => es[i].workerId) }

  lemma {:induction false} Partition(subs: seq<Submission>, parse: Parser)
    ensures |Numeric(subs, parse)| + |NonNumeric(subs, parse)| == |subs|
    decreases |subs|
  {
    if subs != [] { Partition(subs[..|subs| - 1], parse); }
  }

  /** The largest cluster, unless some group of equal texts is larger still. */
  predicate NumbersWin(subs: seq<Submission>, t: Tolerance, parse: Parser) {
    var numeric, rest := Numeric(subs, parse), NonNumeric(subs, parse);
    rest == [] || (numeric != [] && |ClusterOf(numeric, t).members| >= |VoteOf(rest).matching|)
  }

  function NumericVoteOf(subs: seq<Submission>, t: Tolerance, parse: Parser): Tally
    requires subs != []
  {
    Partition(subs, parse);
    var numeric, rest := Numeric(subs, parse), NonNumeric(subs, parse);
    var consensus := if NumbersWin(subs, t, parse) then ClusterOf(numeric, t).center.answer else VoteOf(rest).consensus;
    var ids := if NumbersWin(subs, t, parse) then Workers(ClusterOf(numeric, t).members) else VoteOf(rest).matching;
    Tally(consensus, |ids| as real / |subs| as real, ids, |ids| == |subs|)
  }

  lemma SplitNext(subs: seq<Submission>, parse: Parser, i: nat)
    requires i < |subs|
    ensures Numeric(subs[..i + 1], parse) == Numeric(subs[..i], parse)
      + match parse(subs[i].answer) case Some(x) => [Entry(subs[i].workerId, subs[i].answer, x)] case None => []
    ensures NonNumeric(subs[..i + 1], parse) == NonNumeric(subs[..i], parse)
      + if parse(subs[i].answer).None? then [subs[i]] else []
  {
    assert subs[..i + 1][..i] == subs[..i];
  }

  /** The first loop: answers that are numbers, and the rest. */
  method Split(subs: seq<Submission>, parse: Parser) returns (numeric: seq<Entry>, nonNumeric: seq<Submission>)
    ensures numeric == Numeric(subs, parse) && nonNumeric == NonNumeric(subs, parse)
  {
    numeric, nonNumeric := [], [];
    for i := 0 to |subs|
      invariant numeric == Numeric(subs[..i], parse) && nonNumeric == NonNumeric(subs[..i], parse)
    {
      SplitNext(subs, parse, i);
      match parse(subs[i].answer)
      case Some(x) => numeric := numeric + [Entry(subs[i].workerId, subs[i].answer, x)];
      case None => nonNumeric := nonNumeric + [subs[i]];
    }
    assert subs[..|subs|] == subs;
  }

  method NumericToleranceVote(subs: seq<Submission>, t: Tolerance, parse: Parser) returns (r: Option<Tally>)
    ensures r == if subs == [] then None else Some(NumericVoteOf(subs, t, parse))
  {
    hide ClusterOf, Normalize, Numeric, NonNumeric, IdsWith, Best, Grouping;
    var numeric, nonNumeric := Split(subs, parse);
    Partition(subs, parse);
    var winner: Option<Group> := None;
    var cluster := LargestToleranceCluster(numeric, t);
    if cluster.Some? { winner := Some(Group([], cluster.value.center.answer, Workers(cluster.value.members))); }
    var groups := GroupByNormalizedAnswer(nonNumeric);
    NoGroups(nonNumeric, groups);
    ghost var start := winner;
    for g := 0 to |groups|
      invariant winner == Winner(groups, g, start)
    {
      if winner.None? || |groups[g].workerIds| > |winner.value.workerIds| { winner := Some(groups[g]); }
    }
    if start.Some? { WinnerFrom(groups, |groups|, start.value); }
    if groups != [] { WinnerIsBest(nonNumeric, groups); }
    if winner.None? { return None; }
    var ids := winner.value.workerIds;
    r := Some(Tally(winner.value.representative, |ids| as real / |subs| as real, ids, |ids| == |subs|));
  }

  // ---- What a cluster is -------------------------------------------------------------------------

  lemma {:induction false} NearMembers(entries: seq<Entry>, center: real, t: Tolerance, e: Entry)
    ensures e in Near(entries, center, t) <==> e in entries && WithinTolerance(e.value, center, t)
    decreases |entries|
  {
    if entries != [] {
      var k := |entries| - 1;
      NearMembers(entries[..k], center, t, e);
      assert entries == entries[..k] + [entries[k]];
    }
  }

  /** The center belongs to its own cluster, so a cluster is never empty. */
  lemma CenterIsNear(entries: seq<Entry>, t: Tolerance, i: nat)
    requires i < |entries| && (if t.Percent? then t.p >= 0.0 else t.d >= 0.0)
    ensures entries[i] in NearOf(entries, t, i)
  {
    NearMembers(entries, entries[i].value, t, entries[i]);
    if t.Percent? { assert Abs(entries[i].value) * t.p >= 0.0; }
  }

  /** Members of an absolute cluster are within twice the tolerance of each other. */
  lemma AbsoluteClusterWidth(entries: seq<Entry>, d: real, center: real, a: Entry, b: Entry)
    requires a in Near(entries, center, Absolute(d)) && b in Near(entries, center, Absolute(d))
    ensures WithinTolerance(a.value, b.value, Absolute(2.0 * d))
  {
    NearMembers(entries, center, Absolute(d), a);
    NearMembers(entries, center, Absolute(d), b);
  }

  /** But not within the tolerance of each other, as the description shown to payers says; and a
      percentage of one value is not the same percentage of another. */
  lemma NotOfEachOther(lo: Entry, mid: Entry, hi: Entry)
    requires lo.value == 1.0 && mid.value == 2.0 && hi.value == 3.0
    ensures NearOf([lo, mid, hi], Absolute(1.0), 1) == [lo, mid, hi]
    ensures !WithinTolerance(lo.value, hi.value, Absolute(1.0))
    ensures WithinTolerance(90.0, 100.0, Percent(10.0)) && !WithinTolerance(100.0, 90.0, Percent(10.0))
  {
    var es, t := [lo, mid, hi], Absolute(1.0);
    assert es[..2] == [lo, mid] && [lo, mid][..1] == [lo] && [lo][..0] == [];
    assert Near([lo], 2.0, t) == [lo];
    assert Near([lo, mid], 2.0, t) == [lo, mid];
  }

  /** A center near everybody gathers everybody. */
  lemma {:induction false} AllNear(entries: seq<Entry>, t: Tolerance, center: real)
    requires forall e :: e in entries ==> WithinTolerance(e.value, center, t)
    ensures Near(entries, center, t) == entries
    decreases |entries|
  {
    if entries != [] {
      AllNear(entries[..|entries| - 1], t, center);
      assert entries == entries[..|entries| - 1] + [entries[|entries| - 1]];
    }
  }

  // ---- Results -----------------------------------------------------------------------------------

  /** The chosen cluster is exactly the entries within tolerance of its center; no other center has
      more, none with as many has a smaller spread, and none equal in both was submitted earlier. */
  lemma ClusterIsBest(entries: seq<Entry>, t: Tolerance, i: nat, e: Entry)
    requires i < |entries|
    ensures var c := ClusterOf(entries, t);
      && c.center in entries
      && (e in c.members <==> e in entries && WithinTolerance(e.value, c.center.value, t))
      && var other := NearOf(entries, t, i);
         |other| <= |c.members|
         && (|other| == |c.members| ==>
              && Spread(c.members, c.center.value) <= Spread(other, entries[i].value)
              && (Spread(c.members, c.center.value) == Spread(other, entries[i].value) ==> c.center in entries[..i + 1]))
  {
    var b := BestCenter(entries, t, |entries|);
    NearMembers(entries, entries[b].value, t, e);
    hide NearOf, Spread;
    assert !Beats(entries, t, i, b);
    if i < b { assert Beats(entries, t, b, i); } else { assert entries[..i + 1][b] == entries[b]; }
  }

  lemma {:induction false} NumericMembers(subs: seq<Submission>, parse: Parser, i: nat)
    requires i < |subs|
    ensures match parse(subs[i].answer)
      case Some(x) => Entry(subs[i].workerId, subs[i].answer, x) in Numeric(subs, parse)
      case None => subs[i] in NonNumeric(subs, parse)
    decreases |subs|
  {
    var k := |subs| - 1;
    if i < k { NumericMembers(subs[..k], parse, i); }
  }

  /** Against a number: the winner is at least as large as every cluster, and strictly larger when
      it is a class of equal texts. */
  lemma NumbersAreOutweighed(subs: seq<Submission>, t: Tolerance, parse: Parser, i: nat)
    requires i < |subs| && parse(subs[i].answer).Some?
    ensures var v, numeric := NumericVoteOf(subs, t, parse), Numeric(subs, parse);
      && |Near(numeric, parse(subs[i].answer).value, t)| <= |v.matching|
      && (if NumbersWin(subs, t, parse) then v.matching == Workers(ClusterOf(numeric, t).members)
          else |Near(numeric, parse(subs[i].answer).value, t)| < |v.matching|)
  {
    NumericMembers(subs, parse, i);
    var numeric := Numeric(subs, parse);
    var e := Entry(subs[i].workerId, subs[i].answer, parse(subs[i].answer).value);
    hide ClusterOf, VoteOf, Near, NonNumeric, Numeric;
    var k :| 0 <= k < |numeric| && numeric[k] == e;
    ClusterIsBest(numeric, t, k, e);
  }

  /** Against a text: the winner is at least as large as every class of equal texts. */
  lemma TextsAreOutweighed(subs: seq<Submission>, t: Tolerance, parse: Parser, i: nat)
    requires i < |subs| && parse(subs[i].answer).None?
    ensures var v, rest := NumericVoteOf(subs, t, parse), NonNumeric(subs, parse);
      && |IdsWith(rest, Norm(subs[i]))| <= |v.matching|
      && (!NumbersWin(subs, t, parse) ==> v.matching == VoteOf(rest).matching && v.consensus == VoteOf(rest).consensus)
  {
    NumericMembers(subs, parse, i);
    var rest := NonNumeric(subs, parse);
    hide Norm, IdsWith, ClusterOf, VoteOf, NonNumeric, Numeric;
    var k :| 0 <= k < |rest| && rest[k] == subs[i];
    VoteIsLargestClass(rest, subs[i].workerId, k);
  }

  /** The confidence is the winner's share of all submissions, numeric or not; it is 1 only when
      everybody matched. */
  lemma ConfidenceIsShareOfAll(subs: seq<Submission>, t: Tolerance, parse: Parser)
    requires subs != [] && (if t.Percent? then t.p >= 0.0 else t.d >= 0.0)
    ensures var v := NumericVoteOf(subs, t, parse);
      && 0 < |v.matching| <= |subs| && 0.0 < v.confidence <= 1.0
      && (v.confidence == 1.0 <==> v.allAgree)
      && (v.allAgree <==> |v.matching| == |subs|)
  {
    Partition(subs, parse);
    var numeric, rest := Numeric(subs, parse), NonNumeric(subs, parse);
    if numeric != [] { ClusterSize(numeric, t); }
    if rest != [] { VoteSize(rest); }
    hide ClusterOf, VoteOf, NonNumeric, Numeric;
    Share(|NumericVoteOf(subs, t, parse).matching|, |subs|);
  }

  lemma VoteSize(subs: seq<Submission>)
    requires subs != []
    ensures 0 < |VoteOf(subs).matching| <= |subs|
  {
    var b := VoteUnfolds(subs);
    hide Norm, VoteOf, IdsWith;
    IdsWithBound(subs, Norm(subs[b]));
    IdsWithMembers(subs, Norm(subs[b]), subs[b].workerId);
  }

  lemma {:induction false} NearBound(entries: seq<Entry>, center: real, t: Tolerance)
    ensures |Near(entries, center, t)| <= |entries|
    decreases |entries|
  {
    if entries != [] { NearBound(entries[..|entries| - 1], center, t); }
  }

  lemma ClusterSize(entries: seq<Entry>, t: Tolerance)
    requires entries != [] && (if t.Percent? then t.p >= 0.0 else t.d >= 0.0)
    ensures 0 < |ClusterOf(entries, t).members| <= |entries|
  {
    var b := BestCenter(entries, t, |entries|);
    CenterIsNear(entries, t, b);
    NearBound(entries, entries[b].value, t);
  }
}
