/** The deterministic part of reconciliation: answers that say nearly the same are clustered around the
    first of them, and the vote is taken on clusters. */
module Reconcile {
  import opened Common
  import opened Vote

  // ---- Similarity --------------------------------------------------------------------------------

  /** Which words carry no content. */
  type Stopwords = Text -> bool

  const CLUSTER_THRESHOLD := 0.6

  function Tokens(t: Text, stop: Stopwords): set<Text> { set w | w in Words(t, []) && !stop(w) }

  /** The share of content words two answers have in common. */
  function Similarity(a: Text, b: Text, stop: Stopwords): real {
    var ta, tb := Tokens(a, stop), Tokens(b, stop);
    if ta == {} && tb == {} then 1.0
    else if ta == {} || tb == {} then 0.0
    else Union(ta, tb); |ta * tb| as real / |ta + tb| as real
  }

  lemma Union(a: set<Text>, b: set<Text>)
    requires a != {}
    ensures |a + b| > 0
  {
    var x :| x in a;
    assert x in a + b;
  }

  predicate Similar(a: Text, b: Text, stop: Stopwords) { Similarity(a, b, stop) >= CLUSTER_THRESHOLD }

  /** Answers that normalize alike are alike to every other answer, and to each other. */
  lemma AlikeAreSimilar(a: Text, b: Text, x: Text, stop: Stopwords)
    requires Normalize(a) == Normalize(b)
    ensures Similar(a, x, stop) <==> Similar(b, x, stop)
    ensures Similar(a, b, stop)
  {
    NormalizeIdentifiesWords(a, b);
    hide Normalize, Words;
    var t := Tokens(a, stop);
    if t != {} {
      Union(t, t);
      assert t * t == t && t + t == t;
    }
  }

  // ---- Clusters ----------------------------------------------------------------------------------

  function FirstSimilar(a: Text, reps: seq<Text>, stop: Stopwords): (k: nat)
    ensures k <= |reps|
    ensures k < |reps| ==> Similar(a, reps[k], stop)
    ensures forall j :: 0 <= j < k ==> !Similar(a, reps[j], stop)
  {
    if reps == [] || Similar(a, reps[0], stop) then 0 else 1 + FirstSimilar(a, reps[1..], stop)
  }

  /** The representative an answer goes to, itself if it resembles none. */
  function Home(a: Text, reps: seq<Text>, stop: Stopwords): Text {
    var k := FirstSimilar(a, reps, stop);
    if k < |reps| then reps[k] else a
  }

  /** The answers that seeded a cluster, in order of submission. */
  function Representatives(subs: seq<Submission>, stop: Stopwords): seq<Text>
    decreases |subs|
  {
    if subs == [] then []
    else
      var reps, a := Representatives(subs[..|subs| - 1], stop), subs[|subs| - 1].answer;
      if FirstSimilar(a, reps, stop) < |reps| then reps else reps + [a]
  }

  /** Every answer replaced by the representative of its cluster. */
  function Relabeled(subs: seq<Submission>, stop: Stopwords): (r: seq<Submission>)
    ensures |r| == |subs|
    decreases |subs|
  {
    if subs == [] then []
    else
      var front, last := subs[..|subs| - 1], subs[|subs| - 1];
      Relabeled(front, stop) + [last.(answer := Home(last.answer, Representatives(front, stop), stop))]
  }

  datatype Cluster = Cluster(representative: Text, workerIds: seq<WorkerId>)

  function AsGroup(c: Cluster): Group { Group(Normalize(c.representative), c.representative, c.workerIds) }

  function AsGroups(cs: seq<Cluster>): seq<Group> { seq(|cs|, i requires 0 <= i < |cs| => AsGroup(cs[i])) }

  function Reps(cs: seq<Cluster>): seq<Text> { seq(|cs|, i requires 0 <= i < |cs| => cs[i].representative) }

  method FindSimilar(cs: seq<Cluster>, a: Text, stop: Stopwords) returns (k: nat)
    ensures k == FirstSimilar(a, Reps(cs), stop)
  {
    hide Similar;
    k := 0;
    while k < |cs| && !Similar(a, cs[k].representative, stop)
      invariant k <= |cs|
      invariant forall j :: 0 <= j < k ==> !Similar(a, Reps(cs)[j], stop)
    {
      k := k + 1;
    }
    if k < |cs| { assert Similar(a, Reps(cs)[k], stop); }
  }

  lemma Joins(subs: seq<Submission>, s: Submission, cs: seq<Cluster>, k: nat, cs': seq<Cluster>, stop: Stopwords)
    requires Grouping(Relabeled(subs, stop), AsGroups(cs)) && Reps(cs) == Representatives(subs, stop)
    requires k == FirstSimilar(s.answer, Reps(cs), stop)
    requires cs' == if k < |cs| then cs[k := cs[k].(workerIds := cs[k].workerIds + [s.workerId])]
                    else cs + [Cluster(s.answer, [s.workerId])]
    ensures Grouping(Relabeled(subs + [s], stop), AsGroups(cs')) && Reps(cs') == Representatives(subs + [s], stop)
  {
    hide Normalize, Grouping, Similar, First, IdsWith;
    var s' := s.(answer := Home(s.answer, Reps(cs), stop));
    var was := AsGroups(cs);
    forall h | 0 <= h < k ensures was[h].norm != Norm(s') {
      if k < |cs| { DifferentNorms(Relabeled(subs, stop), was, h, k); }
      else if was[h].norm == Norm(s) { AlikeAreSimilar(s.answer, Reps(cs)[h], s.answer, stop); }
    }
    OneMoreAnswer(subs, s, stop);
    ClusterExtends(cs, s, k, cs');
    hide Relabeled, Representatives, FirstSimilar, AsGroups, Reps, Home;
    GroupingExtends(Relabeled(subs, stop), s', was, k, AsGroups(cs'));
  }

  lemma ClusterExtends(cs: seq<Cluster>, s: Submission, k: nat, cs': seq<Cluster>)
    requires cs' == if k < |cs| then cs[k := cs[k].(workerIds := cs[k].workerIds + [s.workerId])]
                    else cs + [Cluster(s.answer, [s.workerId])]
    ensures var was := AsGroups(cs);
      AsGroups(cs') == if k < |was| then was[k := was[k].(workerIds := was[k].workerIds + [s.workerId])]
                       else was + [Group(Norm(s), s.answer, [s.workerId])]
    ensures Reps(cs') == if k < |cs| then Reps(cs) else Reps(cs) + [s.answer]
  {
    hide Normalize;
  }

  /** What one more answer adds to the clusters. */
  lemma OneMoreAnswer(subs: seq<Submission>, s: Submission, stop: Stopwords)
    ensures var reps := Representatives(subs, stop);
      && Relabeled(subs + [s], stop) == Relabeled(subs, stop) + [s.(answer := Home(s.answer, reps, stop))]
      && Representatives(subs + [s], stop) == if FirstSimilar(s.answer, reps, stop) < |reps| then reps else reps + [s.answer]
  {
    assert (subs + [s])[..|subs + [s]| - 1] == subs;
    hide FirstSimilar, Home;
  }

  lemma DifferentNorms(subs: seq<Submission>, groups: seq<Group>, g: nat, h: nat)
    requires Grouping(subs, groups) && g < h < |groups|
    ensures groups[g].norm != groups[h].norm
  {
    assert First(subs, groups[g].norm) < First(subs, groups[h].norm);
  }

  lemma NothingClustered(stop: Stopwords)
    ensures Relabeled([], stop) == [] && Representatives([], stop) == []
  {}

  /** Each answer joins the first cluster whose representative it resembles, or seeds one; the first of
      the largest clusters wins. That is the exact-match vote over the representatives. */
  method ClusterVote(subs: seq<Submission>, stop: Stopwords) returns (r: Option<Tally>)
    ensures r == if subs == [] then None else Some(VoteOf(Relabeled(subs, stop)))
  {
    hide Grouping, Normalize, IdsWith, Similar, Best, Relabeled, Representatives, FirstSimilar;
    NothingClustered(stop);
    var clusters: seq<Cluster> := [];
    NothingGrouped();
    assert subs[..0] == [] && AsGroups(clusters) == [];
    for i := 0 to |subs|
      invariant Grouping(Relabeled(subs[..i], stop), AsGroups(clusters))
      invariant Reps(clusters) == Representatives(subs[..i], stop)
    {
      var s := subs[i];
      ghost var was := clusters;
      var k := FindSimilar(clusters, s.answer, stop);
      if k < |clusters| {
        clusters := clusters[k := clusters[k].(workerIds := clusters[k].workerIds + [s.workerId])];
      } else {
        clusters := clusters + [Cluster(s.answer, [s.workerId])];
      }
      assert subs[..i + 1] == subs[..i] + [s];
      Joins(subs[..i], s, was, k, clusters, stop);
    }
    assert subs[..|subs|] == subs;
    ghost var groups := AsGroups(clusters);
    var winner: Option<Cluster> := None;
    for g := 0 to |clusters|
      invariant Winner(groups, g, None) == match winner case Some(c) => Some(AsGroup(c)) case None => None
    {
      if winner.None? || |clusters[g].workerIds| > |winner.value.workerIds| { winner := Some(clusters[g]); }
    }
    NoGroups(Relabeled(subs, stop), groups);
    if winner.None? { return None; }
    var ids := winner.value.workerIds;
    WinnerIsBest(Relabeled(subs, stop), groups);
    r := Some(Tally(winner.value.representative, |ids| as real / |subs| as real, ids, |ids| == |subs|));
  }

  // ---- What a cluster is -------------------------------------------------------------------------

  /** Later representatives change nothing for an answer that has found its own. */
  lemma {:induction false} HomeStays(a: Text, reps: seq<Text>, more: seq<Text>, stop: Stopwords)
    requires reps <= more && FirstSimilar(a, reps, stop) < |reps|
    ensures FirstSimilar(a, more, stop) == FirstSimilar(a, reps, stop)
  {
    hide Similar;
    var k := FirstSimilar(a, reps, stop);
    assert forall j :: 0 <= j <= k ==> more[j] == reps[j];
  }

  lemma SeedIsHome(a: Text, reps: seq<Text>, stop: Stopwords)
    requires FirstSimilar(a, reps, stop) == |reps|
    ensures FirstSimilar(a, reps + [a], stop) == |reps|
  {
    hide Similar;
    AlikeAreSimilar(a, a, a, stop);
    assert Similar(a, (reps + [a])[|reps|], stop);
    forall j | 0 <= j < |reps| ensures !Similar(a, (reps + [a])[j], stop) { assert (reps + [a])[j] == reps[j]; }
  }

  /** Every answer goes to the first representative it resembles, of those there will ever be. */
  lemma {:induction false} RelabeledAt(subs: seq<Submission>, stop: Stopwords, i: nat)
    requires i < |subs|
    ensures FirstSimilar(subs[i].answer, Representatives(subs, stop), stop) < |Representatives(subs, stop)|
    ensures Relabeled(subs, stop)[i] == subs[i].(answer := Home(subs[i].answer, Representatives(subs, stop), stop))
    decreases |subs|
  {
    hide Similar;
    var n := |subs| - 1;
    var before, reps := Representatives(subs[..n], stop), Representatives(subs, stop);
    if i < n {
      RelabeledAt(subs[..n], stop, i);
      HomeStays(subs[i].answer, before, reps, stop);
    } else if FirstSimilar(subs[n].answer, before, stop) == |before| {
      SeedIsHome(subs[n].answer, before, stop);
    }
  }

  /** A representative is somebody's answer, which is its own home, and was there before any answer
      that went to it. */
  lemma {:induction false} Seed(subs: seq<Submission>, stop: Stopwords, k: nat) returns (i: nat)
    requires k < |Representatives(subs, stop)|
    ensures i < |subs| && subs[i].answer == Representatives(subs, stop)[k] == Relabeled(subs, stop)[i].answer
    ensures forall j :: 0 <= j < i ==> FirstSimilar(subs[j].answer, Representatives(subs, stop), stop) != k
    decreases |subs|
  {
    hide Similar;
    var n := |subs| - 1;
    var before := Representatives(subs[..n], stop);
    if k < |before| {
      i := Seed(subs[..n], stop, k);
    } else {
      i := n;
    }
    RelabeledAt(subs, stop, i);
    forall j | 0 <= j < i ensures FirstSimilar(subs[j].answer, Representatives(subs, stop), stop) != k {
      RelabeledAt(subs[..n], stop, j);
      HomeStays(subs[j].answer, before, Representatives(subs, stop), stop);
    }
  }

  /** No representative resembles an earlier one, so different clusters have different norms. */
  lemma {:induction false} RepresentativesDiffer(subs: seq<Submission>, stop: Stopwords, j: nat, k: nat)
    requires j < k < |Representatives(subs, stop)|
    ensures var reps := Representatives(subs, stop);
      !Similar(reps[k], reps[j], stop) && Normalize(reps[k]) != Normalize(reps[j])
    decreases |subs|
  {
    hide Similar;
    var n := |subs| - 1;
    var before, reps := Representatives(subs[..n], stop), Representatives(subs, stop);
    if k < |before| { RepresentativesDiffer(subs[..n], stop, j, k); }
    hide Normalize;
    if Normalize(reps[k]) == Normalize(reps[j]) { AlikeAreSimilar(reps[k], reps[j], reps[j], stop); }
  }

  lemma AlikeShareHome(a: Text, b: Text, reps: seq<Text>, stop: Stopwords)
    requires Normalize(a) == Normalize(b)
    ensures FirstSimilar(a, reps, stop) == FirstSimilar(b, reps, stop)
  {
    hide Similar, Normalize;
    forall r | r in reps ensures Similar(a, r, stop) <==> Similar(b, r, stop) { AlikeAreSimilar(a, b, r, stop); }
  }

  /** Answers that normalize alike share a cluster: a cluster is made of whole classes. */
  lemma ClassStaysTogether(subs: seq<Submission>, stop: Stopwords, i: nat, j: nat)
    requires i < |subs| && j < |subs| && Norm(subs[i]) == Norm(subs[j])
    ensures Relabeled(subs, stop)[i].answer == Relabeled(subs, stop)[j].answer
  {
    hide Similar, Normalize;
    RelabeledAt(subs, stop, i);
    RelabeledAt(subs, stop, j);
    AlikeShareHome(subs[i].answer, subs[j].answer, Representatives(subs, stop), stop);
  }

  // ---- Clusters against exact classes ------------------------------------------------------------

  /** All the answers in the winning cluster normalize alike. */
  ghost predicate OneAnswer(subs: seq<Submission>, stop: Stopwords)
    requires subs != []
  {
    var n := Normalize(VoteOf(Relabeled(subs, stop)).consensus);
    forall i :: 0 <= i < |subs| && Norm(Relabeled(subs, stop)[i]) == n ==> Norm(subs[i]) == n
  }

  /** A class inside a class is smaller, unless it is the same. */
  lemma {:induction false} IdsWithin(a: seq<Submission>, n: Text, b: seq<Submission>, m: Text)
    requires |a| == |b| && forall i :: 0 <= i < |a| ==> a[i].workerId == b[i].workerId
    requires forall i :: 0 <= i < |a| && Norm(a[i]) == n ==> Norm(b[i]) == m
    ensures |IdsWith(a, n)| <= |IdsWith(b, m)|
    ensures |IdsWith(a, n)| == |IdsWith(b, m)| <==> forall i :: 0 <= i < |a| && Norm(b[i]) == m ==> Norm(a[i]) == n
    ensures |IdsWith(a, n)| == |IdsWith(b, m)| ==> IdsWith(a, n) == IdsWith(b, m)
    decreases |a|
  {
    hide Norm;
    if a != [] {
      var k := |a| - 1;
      IdsWithin(a[..k], n, b[..k], m);
      assert forall i :: 0 <= i < k ==> a[..k][i] == a[i] && b[..k][i] == b[i];
    }
  }

  lemma ClusterHoldsClass(subs: seq<Submission>, stop: Stopwords, i: nat)
    requires i < |subs|
    ensures Size(subs, i) <= Size(Relabeled(subs, stop), i)
  {
    hide Normalize, IdsWith, Relabeled;
    var r := Relabeled(subs, stop);
    forall j | 0 <= j < |subs| ensures subs[j].workerId == r[j].workerId && (Norm(subs[j]) == Norm(subs[i]) ==> Norm(r[j]) == Norm(r[i])) {
      RelabeledAt(subs, stop, j);
      if Norm(subs[j]) == Norm(subs[i]) { ClassStaysTogether(subs, stop, j, i); }
    }
    IdsWithin(subs, Norm(subs[i]), r, Norm(r[i]));
  }

  /** The first member of a cluster is the one that seeded it. */
  lemma FirstIsSeed(subs: seq<Submission>, stop: Stopwords, b: nat)
    requires b < |subs|
    requires forall i :: 0 <= i < b ==> Norm(Relabeled(subs, stop)[i]) != Norm(Relabeled(subs, stop)[b])
    ensures Relabeled(subs, stop)[b].answer == subs[b].answer
  {
    hide Similar, Normalize, Relabeled;
    RelabeledAt(subs, stop, b);
    var reps := Representatives(subs, stop);
    var k := FirstSimilar(subs[b].answer, reps, stop);
    var i := Seed(subs, stop, k);
    assert i <= b && Norm(Relabeled(subs, stop)[i]) == Norm(Relabeled(subs, stop)[b]);
  }

  /** The winner of the cluster vote: a seed, whose exact class lies within its cluster. */
  lemma WinningSeed(subs: seq<Submission>, stop: Stopwords) returns (b: nat)
    requires subs != []
    ensures b == Best(Relabeled(subs, stop), |subs|) && Relabeled(subs, stop)[b].answer == subs[b].answer
    ensures forall i :: 0 <= i < |subs| ==> Size(Relabeled(subs, stop), i) <= |VoteOf(Relabeled(subs, stop)).matching|
    ensures var c, n := VoteOf(Relabeled(subs, stop)), Norm(subs[b]);
      && c.consensus == subs[b].answer && c.matching == IdsWith(Relabeled(subs, stop), n)
      && |IdsWith(subs, n)| <= |c.matching|
      && (|IdsWith(subs, n)| == |c.matching| <==> OneAnswer(subs, stop))
      && (OneAnswer(subs, stop) ==> IdsWith(subs, n) == c.matching)
  {
    var r := Relabeled(subs, stop);
    b := Best(r, |subs|);
    BestIsBest(r, |subs|);
    hide Normalize, IdsWith, Relabeled;
    forall i | 0 <= i < b ensures Norm(r[i]) != Norm(r[b]) { assert Size(r, i) < Size(r, b); }
    FirstIsSeed(subs, stop, b);
    var n := Norm(subs[b]);
    forall i | 0 <= i < |subs| ensures subs[i].workerId == r[i].workerId && (Norm(subs[i]) == n ==> Norm(r[i]) == n) {
      RelabeledAt(subs, stop, i);
      if Norm(subs[i]) == n { ClassStaysTogether(subs, stop, i, b); }
    }
    IdsWithin(subs, n, r, n);
  }

  lemma SameWinner(subs: seq<Submission>, stop: Stopwords, b: nat, d: nat)
    requires subs != [] && b == Best(Relabeled(subs, stop), |subs|) && d == Best(subs, |subs|)
    requires Size(subs, b) == Size(Relabeled(subs, stop), b)
    ensures d == b
  {
    hide Relabeled, Size;
    var r := Relabeled(subs, stop);
    BestIsBest(subs, |subs|);
    BestIsBest(r, |subs|);
    ClusterHoldsClass(subs, stop, d);
    assert Size(subs, b) <= Size(subs, d) <= Size(r, d) <= Size(r, b);
  }

  /** The cluster vote is the exact-match vote precisely when the winning cluster is one answer; and
      agreeing on the consensus and on how many gave it is enough for that. */
  lemma VotesAgree(subs: seq<Submission>, stop: Stopwords)
    requires subs != []
    ensures var c, e := VoteOf(Relabeled(subs, stop)), VoteOf(subs);
      && (OneAnswer(subs, stop) <==> c == e)
      && (c.consensus == e.consensus && |c.matching| == |e.matching| ==> OneAnswer(subs, stop))
  {
    var b := WinningSeed(subs, stop);
    var d := Best(subs, |subs|);
    hide Normalize, IdsWith, Relabeled, OneAnswer, Best;
    if OneAnswer(subs, stop) { SameWinner(subs, stop, b, d); }
  }

  /** An exact agreement of all is an agreement of all. */
  lemma UnanimousBoth(subs: seq<Submission>, stop: Stopwords)
    requires subs != []
    ensures VoteOf(subs).allAgree ==> VoteOf(Relabeled(subs, stop)).allAgree
  {
    var r := Relabeled(subs, stop);
    VoteIsUnanimous(subs);
    VoteIsUnanimous(r);
    hide Normalize, VoteOf, Relabeled;
    if AllAlike(subs) {
      forall i, j | 0 <= i < j < |subs| ensures Norm(r[i]) == Norm(r[j]) { ClassStaysTogether(subs, stop, i, j); }
    }
  }

  // ---- What the cluster vote means ---------------------------------------------------------------

  ghost predicate Follows(subs: seq<Submission>, stop: Stopwords, rep: Text, k: nat, id: WorkerId) {
    k < |subs| && Home(subs[k].answer, Representatives(subs, stop), stop) == rep && subs[k].workerId == id
  }

  lemma FollowsIsNorm(subs: seq<Submission>, stop: Stopwords, b: nat, k: nat)
    requires b < |subs| && k < |subs| && Relabeled(subs, stop)[b].answer == subs[b].answer
    ensures var r := Relabeled(subs, stop);
      r[k].workerId == subs[k].workerId
      && (Norm(r[k]) == Norm(subs[b]) <==> Home(subs[k].answer, Representatives(subs, stop), stop) == subs[b].answer)
  {
    hide Normalize, Relabeled, Similar;
    var reps := Representatives(subs, stop);
    RelabeledAt(subs, stop, k);
    RelabeledAt(subs, stop, b);
    HomesDiffer(subs, stop, FirstSimilar(subs[k].answer, reps, stop), FirstSimilar(subs[b].answer, reps, stop));
  }

  lemma HomesDiffer(subs: seq<Submission>, stop: Stopwords, j: nat, k: nat)
    requires j < |Representatives(subs, stop)| && k < |Representatives(subs, stop)|
    ensures var reps := Representatives(subs, stop); Normalize(reps[j]) == Normalize(reps[k]) ==> j == k
  {
    hide Normalize, Similar;
    if j < k { RepresentativesDiffer(subs, stop, j, k); }
    if k < j { RepresentativesDiffer(subs, stop, k, j); }
  }

  /** The matching workers are exactly those for whom the consensus is the first representative that
      their answer resembles, and no cluster is larger. */
  lemma ClusterVoteIsLargest(subs: seq<Submission>, stop: Stopwords, id: WorkerId, i: nat)
    requires i < |subs|
    ensures var v := VoteOf(Relabeled(subs, stop));
      && (id in v.matching <==> exists k: nat :: Follows(subs, stop, v.consensus, k, id))
      && Size(Relabeled(subs, stop), i) <= |v.matching|
  {
    var b := WinningSeed(subs, stop);
    var r, rep := Relabeled(subs, stop), subs[b].answer;
    hide Normalize, IdsWith, Relabeled, VoteOf, OneAnswer, Best, Home, Representatives, Follows;
    IdsWithMembers(r, Norm(subs[b]), id);
    if k :| 0 <= k < |r| && Norm(r[k]) == Norm(subs[b]) && r[k].workerId == id {
      FollowsIsNorm(subs, stop, b, k);
      FollowsAt(subs, stop, rep, k, id);
    }
    if k: nat :| Follows(subs, stop, rep, k, id) {
      FollowsAt(subs, stop, rep, k, id);
      FollowsIsNorm(subs, stop, b, k);
    }
  }

  lemma FollowsAt(subs: seq<Submission>, stop: Stopwords, rep: Text, k: nat, id: WorkerId)
    ensures Follows(subs, stop, rep, k, id) <==>
      k < |subs| && Home(subs[k].answer, Representatives(subs, stop), stop) == rep && subs[k].workerId == id
  {}

  // ---- Paraphrases -------------------------------------------------------------------------------

  /** Letters or digits in lower case. */
  predicate IsWord(w: Text) { w != [] && forall i :: 0 <= i < |w| ==> w[i].Word? && !w[i].upper }

  lemma {:induction false} WordReads(w: Text, rest: Text, acc: Text)
    requires forall i :: 0 <= i < |w| ==> w[i].Word? && !w[i].upper
    ensures Words(w + rest, acc) == Words(rest, acc + w)
    decreases |w|
  {
    if w == [] {
      assert w + rest == rest && acc + w == acc;
    } else {
      assert (w + rest)[1..] == w[1..] + rest && acc + [w[0]] + w[1..] == acc + w;
      WordReads(w[1..], rest, acc + [w[0]]);
    }
  }

  /** Words joined by spaces read back. */
  lemma {:induction false} SpacedReads(words: seq<Text>)
    requires forall w :: w in words ==> IsWord(w)
    ensures Words(Spaced(words), []) == words
    decreases |words|
  {
    assert words != [] ==> words[0] in words;
    if |words| == 1 {
      WordReads(words[0], [], []);
      assert words[0] + [] == words[0] && [] + words[0] == words[0];
    } else if words != [] {
      var rest := Spaced(words[1..]);
      WordReads(words[0], [SPACE] + rest, []);
      assert words[0] + [SPACE] + rest == words[0] + ([SPACE] + rest) && [] + words[0] == words[0];
      assert ([SPACE] + rest)[1..] == rest;
      assert Words([SPACE] + rest, words[0]) == [words[0]] + Words(rest, []);
      SpacedReads(words[1..]);
    }
  }

  /** "42" and "the answer is 42": one content word behind any number of stop words. */
  lemma Paraphrase(fillers: seq<Text>, w: Text, stop: Stopwords)
    requires IsWord(w) && !stop(w) && fillers != [] && forall f :: f in fillers ==> IsWord(f) && stop(f)
    ensures var a, b := Spaced([w]), Spaced(fillers + [w]);
      Tokens(a, stop) == {w} == Tokens(b, stop) && Normalize(a) != Normalize(b)
  {
    hide Normalize, Spaced, IsWord;
    SpacedReads([w]);
    SpacedReads(fillers + [w]);
    NormalizeIdentifiesWords(Spaced([w]), Spaced(fillers + [w]));
    assert w in fillers + [w] by { assert (fillers + [w])[|fillers|] == w; }
    assert |fillers + [w]| != |[w]|;
  }

  lemma SameTokens(a: Text, b: Text, w: Text, stop: Stopwords)
    requires Tokens(a, stop) == {w} == Tokens(b, stop)
    ensures Similar(a, b, stop)
  {
    hide Words;
    assert {w} * {w} == {w} && {w} + {w} == {w};
  }

  lemma OtherToken(a: Text, b: Text, w: Text, v: Text, stop: Stopwords)
    requires Tokens(a, stop) == {w} && Tokens(b, stop) == {v} && v != w
    ensures !Similar(a, b, stop)
  {
    hide Words;
    assert {w} * {v} == {};
  }

  /** Where everybody resembles the first, there is one cluster, and it is one answer exactly when all
      normalize alike. */
  lemma {:induction false} OneCluster(subs: seq<Submission>, stop: Stopwords)
    requires subs != [] && forall i :: 0 <= i < |subs| ==> Similar(subs[i].answer, subs[0].answer, stop)
    ensures Representatives(subs, stop) == [subs[0].answer]
    decreases |subs|
  {
    hide Similar;
    var n := |subs| - 1;
    if n > 0 { OneCluster(subs[..n], stop); }
  }

  lemma ParaphrasesAgree(subs: seq<Submission>, stop: Stopwords)
    requires subs != [] && forall i :: 0 <= i < |subs| ==> Similar(subs[i].answer, subs[0].answer, stop)
    ensures VoteOf(Relabeled(subs, stop)).allAgree && (OneAnswer(subs, stop) <==> AllAlike(subs))
  {
    var r := Relabeled(subs, stop);
    OneCluster(subs, stop);
    var b := WinningSeed(subs, stop);
    VoteIsUnanimous(r);
    AlikeMeansOneClass(subs, b);
    hide Similar, Normalize, Relabeled, VoteOf, Best;
    forall i | 0 <= i < |subs| ensures r[i].answer == subs[0].answer { RelabeledAt(subs, stop, i); }
  }

  lemma PairRelabeled(subs: seq<Submission>, stop: Stopwords)
    requires |subs| == 3 && Similar(subs[1].answer, subs[0].answer, stop) && !Similar(subs[2].answer, subs[0].answer, stop)
    ensures var r := Relabeled(subs, stop);
      r[0] == subs[0] && r[1] == subs[1].(answer := subs[0].answer) && r[2] == subs[2]
  {
    hide Similar;
    var a, b, c := subs[0].answer, subs[1].answer, subs[2].answer;
    var one, two := subs[..1], subs[..2];
    assert two[..1] == one && one[..0] == [];
    assert Representatives(one, stop) == [a];
    assert Similar(b, [a][0], stop);
    assert FirstSimilar(b, [a], stop) == 0;
    assert Representatives(two, stop) == [a];
    assert !Similar(c, [a][0], stop) && [a][1..] == [];
    assert FirstSimilar(c, [a], stop) == 1;
    assert Relabeled(one, stop) == [subs[0]];
    assert Relabeled(two, stop) == [subs[0], subs[1].(answer := a)];
  }

  lemma ThreeIds(subs: seq<Submission>, n: Text)
    requires |subs| == 3
    ensures IdsWith(subs, n) ==
      (if Norm(subs[0]) == n then [subs[0].workerId] else []) + (if Norm(subs[1]) == n then [subs[1].workerId] else [])
      + (if Norm(subs[2]) == n then [subs[2].workerId] else [])
  {
    hide Norm;
    var one, two := subs[..1], subs[..2];
    assert two[..1] == one && one[..0] == [];
    assert IdsWith(one, n) == if Norm(subs[0]) == n then [subs[0].workerId] else [];
    assert IdsWith(two, n) == IdsWith(one, n) + if Norm(subs[1]) == n then [subs[1].workerId] else [];
  }

  lemma TwoToOne(subs: seq<Submission>)
    requires |subs| == 3 && Norm(subs[0]) == Norm(subs[1]) != Norm(subs[2])
    ensures var v := VoteOf(subs);
      v.consensus == subs[0].answer && v.matching == [subs[0].workerId, subs[1].workerId] && v.confidence == 2.0 / 3.0
      && !v.allAgree
  {
    hide Norm, IdsWith;
    ThreeIds(subs, Norm(subs[0]));
    ThreeIds(subs, Norm(subs[2]));
    assert Size(subs, 0) == 2 && Size(subs, 1) == 2 && Size(subs, 2) == 1;
    BestIsBest(subs, |subs|);
    hide Best;
  }

  /** The second resembles the first and the third does not: two against one, in one cluster. */
  lemma PairAgainstOne(subs: seq<Submission>, stop: Stopwords)
    requires |subs| == 3 && Similar(subs[1].answer, subs[0].answer, stop) && !Similar(subs[2].answer, subs[0].answer, stop)
    ensures var v := VoteOf(Relabeled(subs, stop));
      && v.matching == [subs[0].workerId, subs[1].workerId] && v.confidence == 2.0 / 3.0 && !v.allAgree
      && (OneAnswer(subs, stop) <==> Norm(subs[0]) == Norm(subs[1]))
  {
    hide Similar, Normalize, VoteOf, Relabeled;
    PairRelabeled(subs, stop);
    if Norm(subs[2]) == Norm(subs[0]) { AlikeAreSimilar(subs[2].answer, subs[0].answer, subs[0].answer, stop); }
    TwoToOne(Relabeled(subs, stop));
  }
}
