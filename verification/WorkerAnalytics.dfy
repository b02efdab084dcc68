/** Per-worker activity by UTC day: the pruned day buckets, and the streaks read from them. Days are
    numbered from the epoch. */
module WorkerAnalytics {
  import opened Common

  const MAX_DAYS_RETAINED := 400
  const DAY_MS := 24 * 60 * 60 * 1000

  type Days = map<int, Bucket>

  datatype Bucket = Bucket(answered: nat, matched: nat)

  datatype Activity = Activity(days: Days, firstSeenAt: Option<nat>, lastActiveAt: Option<nat>, longestStreak: nat)

  function DayOf(ts: nat): int { ts / DAY_MS }

  function Max(a: int, b: int): int { if a >= b then a else b }
  function Min(a: int, b: int): int { if a <= b then a else b }

  // ---- Streaks of a set of days ------------------------------------------------------------------

  /** The `n` days up to and including `d` are all in `s`. */
  ghost predicate Streak(s: set<int>, d: int, n: nat) { forall i :: d - n < i <= d ==> i in s }

  /** `n` is the length of a longest interval of days in `s`. */
  ghost predicate IsLongest(s: set<int>, n: nat) {
    (n > 0 ==> exists d :: Streak(s, d, n)) && forall d, k: nat :: k > 0 && Streak(s, d, k) ==> k <= n
  }

  /** How many days back from `d` without a gap. */
  function Run(s: set<int>, d: int): (n: nat)
    ensures Streak(s, d, n) && d - n !in s
    ensures n <= |s|
    decreases |s|
  {
    if d !in s then 0
    else
      var n := Run(s - {d}, d - 1);
      assert Streak(s, d, n + 1) by {
        forall i | d - (n + 1) < i <= d ensures i in s { if i < d { assert i in s - {d}; } }
      }
      n + 1
  }

  lemma RunIsLongestBack(s: set<int>, d: int, n: nat)
    requires Streak(s, d, n)
    ensures n <= Run(s, d)
  {
    assert d - Run(s, d) !in s;
  }

  lemma RunExtends(s: set<int>, m: int)
    requires forall x :: x in s ==> x < m
    ensures Run(s + {m}, m) == if m - 1 in s then Run(s, m - 1) + 1 else 1
  {
    assert s + {m} - {m} == s;
  }

  lemma LongestExtends(s: set<int>, m: int, n: nat)
    requires (forall x :: x in s ==> x < m) && IsLongest(s, n)
    ensures IsLongest(s + {m}, Max(n, Run(s + {m}, m)))
  {
    var t := s + {m};
    var r := Run(t, m);
    if n >= r {
      if n > 0 {
        var d :| Streak(s, d, n);
        assert Streak(t, d, n);
      }
    }
    forall d, k: nat | k > 0 && Streak(t, d, k) ensures k <= Max(n, r) {
      assert d in t && d - k + 1 in t;
      if d == m { RunIsLongestBack(t, m, k); } else { assert Streak(s, d, k); }
    }
  }

  lemma NoDays(s: set<int>)
    requires s == {}
    ensures IsLongest(s, 0)
  {
    assert forall d, k: nat :: k > 0 && Streak(s, d, k) ==> d in s;
  }

  lemma LongestIsUnique(s: set<int>, a: nat, b: nat)
    requires IsLongest(s, a) && IsLongest(s, b)
    ensures a == b
  {
    if a > 0 { var d :| Streak(s, d, a); assert a <= b; }
    if b > 0 { var d :| Streak(s, d, b); assert b <= a; }
  }

  // ---- Sorted keys -------------------------------------------------------------------------------

  predicate IsLeast(s: set<int>, m: int) { m in s && forall x :: x in s ==> m <= x }

  lemma {:induction false} HasLeast(s: set<int>, m: int)
    requires m in s
    ensures exists n :: IsLeast(s, n)
    decreases |s|
  {
    if x :| x in s && x < m {
      HasLeast(s - {m}, x);
      var n :| IsLeast(s - {m}, n);
      assert forall y :: y in s ==> y == m || y in s - {m};
      assert IsLeast(s, n);
    } else {
      assert IsLeast(s, m);
    }
  }

  function Least(s: set<int>): (m: int)
    requires exists x :: x in s
    ensures IsLeast(s, m)
  {
    assert exists m :: IsLeast(s, m) by { var x :| x in s; HasLeast(s, x); }
    var m :| IsLeast(s, m);
    m
  }

  predicate Increasing(ks: seq<int>) { forall i, j :: 0 <= i < j < |ks| ==> ks[i] < ks[j] }

  /** Object.keys(days).sort(): day keys sort as their dates do. */
  function SortedKeys(s: set<int>): (ks: seq<int>)
    ensures Increasing(ks) && |ks| == |s|
    ensures forall x :: x in ks <==> x in s
    decreases |s|
  {
    if exists x :: x in s then
      var m := Least(s);
      var rest := SortedKeys(s - {m});
      assert forall x :: x in rest ==> m < x;
      [m] + rest
    else
      assert s == {};
      []
  }

  // ---- computeStreak -----------------------------------------------------------------------------

  predicate IsActive(days: Days, d: int) { d in days && days[d].answered > 0 }

  function ActiveDays(days: Days): set<int> { set d | d in days && IsActive(days, d) }

  /** Today's streak, or yesterday's while today is still open. */
  function CurrentStreak(s: set<int>, today: int): nat {
    if today in s then Run(s, today) else Run(s, today - 1)
  }

  lemma RunGoesOn(s: set<int>, d: int, k: nat)
    requires k <= Run(s, d)
    ensures d - k in s <==> k < Run(s, d)
  {}

  /** What the sorted scan knows after some days: the last active day, and the run it ends. */
  ghost predicate Scanned(seen: set<int>, prev: Option<int>, run: nat, longest: nat) {
    && IsLongest(seen, longest)
    && match prev
       case None => seen == {}
       case Some(p) => p in seen && run == Run(seen, p) && forall x :: x in seen ==> x <= p
  }

  lemma ScanStep(seen: set<int>, prev: Option<int>, run: nat, longest: nat, d: int)
    requires Scanned(seen, prev, run, longest) && forall x :: x in seen ==> x < d
    ensures var r := if prev.Some? && d - prev.value == 1 then run + 1 else 1;
      Scanned(seen + {d}, Some(d), r, Max(longest, r))
  {
    hide Run;
    RunExtends(seen, d);
    LongestExtends(seen, d, longest);
  }

  lemma NothingScanned(run: nat)
    ensures Scanned({}, None, run, 0)
  {
    NoDays({});
  }

  lemma CurrentIsNoLonger(s: set<int>, d: int, longest: nat)
    requires IsLongest(s, longest)
    ensures Run(s, d) <= longest
  {
    assert Run(s, d) > 0 ==> Streak(s, d, Run(s, d));
  }

  /** `seen` is the active days among the first `i` keys. */
  ghost predicate SeenUpTo(days: Days, ks: seq<int>, i: nat, seen: set<int>)
    requires i <= |ks|
  {
    forall d :: d in seen <==> IsActive(days, d) && d in ks[..i]
  }

  lemma SeenNext(days: Days, ks: seq<int>, i: nat, seen: set<int>)
    requires i < |ks| && Increasing(ks) && SeenUpTo(days, ks, i, seen)
    ensures forall x :: x in seen ==> x < ks[i]
    ensures SeenUpTo(days, ks, i + 1, if IsActive(days, ks[i]) then seen + {ks[i]} else seen)
  {
    assert ks[..i + 1] == ks[..i] + [ks[i]];
  }

  lemma SeenAll(days: Days, ks: seq<int>, seen: set<int>)
    requires ks == SortedKeys(days.Keys) && SeenUpTo(days, ks, |ks|, seen)
    ensures seen == ActiveDays(days)
  {
    assert ks[..|ks|] == ks;
    var s := ActiveDays(days);
    forall d ensures d in seen <==> d in s { assert d in s ==> d in days.Keys && d in ks; }
  }

  lemma SeenNone(days: Days, ks: seq<int>)
    ensures SeenUpTo(days, ks, 0, {})
  {}

  /** The current streak is exact, and the longest is a longest interval of active days. */
  method ComputeStreak(days: Days, now: nat) returns (current: nat, longest: nat)
    ensures current == CurrentStreak(ActiveDays(days), DayOf(now))
    ensures IsLongest(ActiveDays(days), longest)
  {
    hide Run, IsLongest, Streak, Scanned, SeenUpTo, Increasing;
    ghost var s := ActiveDays(days);
    var cursor := DayOf(now);
    if !IsActive(days, cursor) { cursor := cursor - 1; }
    ghost var first := cursor;
    current := 0;
    while IsActive(days, cursor)
      invariant cursor == first - current && current <= Run(s, first)
      decreases Run(s, first) - current
    {
      RunGoesOn(s, first, current);
      current := current + 1;
      cursor := cursor - 1;
    }
    RunGoesOn(s, first, current);

    longest := 0;
    var run := 0;
    var prev: Option<int> := None;
    var ks := SortedKeys(days.Keys);
    ghost var seen: set<int> := {};
    NothingScanned(run);
    SeenNone(days, ks);
    for i := 0 to |ks|
      invariant SeenUpTo(days, ks, i, seen)
      invariant Scanned(seen, prev, run, longest)
    {
      var d := ks[i];
      SeenNext(days, ks, i, seen);
      if IsActive(days, d) {
        ScanStep(seen, prev, run, longest, d);
        run := if prev.Some? && d - prev.value == 1 then run + 1 else 1;
        longest := Max(longest, run);
        prev := Some(d);
        seen := seen + {d};
      }
    }
    SeenAll(days, ks, seen);
    ScannedAll(s, prev, run, longest);
    CurrentIsNoLonger(s, first, longest);
    longest := Max(longest, current);
  }

  lemma ScannedAll(seen: set<int>, prev: Option<int>, run: nat, longest: nat)
    requires Scanned(seen, prev, run, longest)
    ensures IsLongest(seen, longest)
  {}

  // ---- applyOutcome ------------------------------------------------------------------------------

  function Surplus(ks: seq<int>): nat { if |ks| > MAX_DAYS_RETAINED then |ks| - MAX_DAYS_RETAINED else 0 }

  function Without(days: Days, ks: seq<int>): Days {
    if ks == [] then days else Without(days, ks[..|ks| - 1]) - {ks[|ks| - 1]}
  }

  function Counted(days: Days, d: int, matched: bool): Days {
    var bucket := if d in days then days[d] else Bucket(0, 0);
    days[d := Bucket(bucket.answered + 1, bucket.matched + if matched then 1 else 0)]
  }

  /** The newest MAX_DAYS_RETAINED days. */
  function Trimmed(days: Days): Days {
    var ks := SortedKeys(days.Keys);
    Without(days, ks[..Surplus(ks)])
  }

  function Applied(a: Activity, matched: bool, ts: nat): Activity {
    var days := Trimmed(Counted(a.days, DayOf(ts), matched));
    Activity(days, if a.firstSeenAt.Some? then a.firstSeenAt else Some(ts), Some(ts),
             Max(a.longestStreak, CurrentStreak(ActiveDays(days), DayOf(ts))))
  }

  method ApplyOutcome(a: Activity, matched: bool, ts: nat) returns (next: Activity)
    ensures next == Applied(a, matched, ts)
  {
    hide CurrentStreak, SortedKeys, IsLongest, Without;
    var day := DayOf(ts);
    var days := a.days;
    var bucket := if day in days then days[day] else Bucket(0, 0);
    days := days[day := Bucket(bucket.answered + 1, bucket.matched + if matched then 1 else 0)];
    ghost var counted := days;

    var sortedKeys := SortedKeys(days.Keys);
    WithoutNone(counted, sortedKeys);
    for k := 0 to Surplus(sortedKeys)
      invariant days == Without(counted, sortedKeys[..k])
    {
      WithoutNext(counted, sortedKeys, k);
      days := days - {sortedKeys[k]};
    }
    var current, _ := ComputeStreak(days, ts);
    next := Activity(days, if a.firstSeenAt.Some? then a.firstSeenAt else Some(ts), Some(ts),
                     Max(a.longestStreak, current));
  }

  lemma WithoutNone(days: Days, ks: seq<int>)
    ensures Without(days, ks[..0]) == days
  {}

  lemma WithoutNext(days: Days, ks: seq<int>, k: nat)
    requires k < |ks|
    ensures Without(days, ks[..k + 1]) == Without(days, ks[..k]) - {ks[k]}
  {
    assert ks[..k + 1][..k] == ks[..k];
  }

  lemma {:induction false} WithoutKeys(days: Days, ks: seq<int>, d: int)
    ensures d in Without(days, ks) <==> d in days && d !in ks
    ensures d in Without(days, ks) ==> Without(days, ks)[d] == days[d]
    decreases |ks|
  {
    if ks != [] {
      WithoutKeys(days, ks[..|ks| - 1], d);
      assert ks == ks[..|ks| - 1] + [ks[|ks| - 1]];
    }
  }

  // ---- Pruned buckets against the full history ---------------------------------------------------

  datatype Outcome = Outcome(ts: nat, matched: bool)

  /** The record after a worker's outcomes, in the order they were applied. */
  function Replay(hist: seq<Outcome>): Activity
    decreases |hist|
  {
    if hist == [] then Activity(map[], None, None, 0)
    else Applied(Replay(hist[..|hist| - 1]), hist[|hist| - 1].matched, hist[|hist| - 1].ts)
  }

  /** Every day the worker ever answered on. */
  function History(hist: seq<Outcome>): set<int>
    decreases |hist|
  {
    if hist == [] then {} else History(hist[..|hist| - 1]) + {DayOf(hist[|hist| - 1].ts)}
  }

  predicate InOrder(hist: seq<Outcome>) { forall i, j :: 0 <= i < j < |hist| ==> hist[i].ts <= hist[j].ts }

  /** `kept` holds the newest days of `all`. */
  ghost predicate Newest(kept: set<int>, all: set<int>) {
    && kept <= all && |kept| <= MAX_DAYS_RETAINED
    && (|kept| == MAX_DAYS_RETAINED || kept == all)
    && forall x, y :: x in all && x !in kept && y in kept ==> x < y
  }

  lemma {:induction false} IntervalSize(s: set<int>, lo: int, hi: int)
    requires lo <= hi && forall x :: x in s ==> lo < x <= hi
    ensures |s| <= hi - lo
    decreases hi - lo
  {
    if lo == hi {
      assert forall x :: x !in s;
      assert s == {};
    } else {
      IntervalSize(s - {hi}, lo, hi - 1);
    }
  }

  lemma TrimmedDay(days: Days, d: int)
    ensures var ks := SortedKeys(days.Keys);
      && (d in Trimmed(days) <==> d in days && d !in ks[..Surplus(ks)])
      && (d in Trimmed(days) <==> d in ks[Surplus(ks)..])
      && (d in Trimmed(days) ==> Trimmed(days)[d] == days[d])
  {
    hide SortedKeys, Without;
    var ks := SortedKeys(days.Keys);
    WithoutKeys(days, ks[..Surplus(ks)], d);
    TailMember(ks, Surplus(ks), d);
    assert d in ks <==> d in days.Keys;
  }

  /** Trimming keeps the newest of the counted days. */
  lemma TrimmedIsNewest(days: Days)
    ensures Newest(Trimmed(days).Keys, days.Keys)
  {
    hide SortedKeys, Trimmed, Increasing;
    var ks := SortedKeys(days.Keys);
    var n := Surplus(ks);
    var kept := Trimmed(days).Keys;
    forall d ensures d in kept <==> d in ks[n..] { TrimmedDay(days, d); }
    TailSorted(ks, n);
    TailSize(ks[n..], kept);
    forall d | d in kept ensures d in days.Keys { TrimmedDay(days, d); }
    if n == 0 { forall d ensures d in kept <==> d in days.Keys { TrimmedDay(days, d); } }
    forall x, y | x in days.Keys && x !in kept && y in kept ensures x < y {
      TrimmedDay(days, x);
      TrimmedDay(days, y);
      Separated(ks, n, x, y);
    }
  }

  lemma TailSorted(ks: seq<int>, n: nat)
    requires Increasing(ks) && n <= |ks|
    ensures Increasing(ks[n..])
  {}

  lemma TailMember(ks: seq<int>, n: nat, d: int)
    requires Increasing(ks) && n <= |ks|
    ensures d in ks[n..] <==> d in ks && d !in ks[..n]
  {
    assert ks == ks[..n] + ks[n..];
    if d in ks[n..] {
      var i :| 0 <= i < |ks[n..]| && ks[n..][i] == d;
      assert ks[i + n] == d;
      forall k | 0 <= k < n ensures ks[..n][k] != d { assert ks[k] < ks[i + n]; }
    }
  }

  lemma Separated(ks: seq<int>, n: nat, x: int, y: int)
    requires Increasing(ks) && n <= |ks| && x in ks[..n] && y in ks[n..]
    ensures x < y
  {
    var i :| 0 <= i < n && ks[..n][i] == x;
    var j :| 0 <= j < |ks| - n && ks[n..][j] == y;
    assert ks[i] < ks[j + n];
  }

  lemma {:induction false} TailSize(ks: seq<int>, s: set<int>)
    requires Increasing(ks) && forall d :: d in s <==> d in ks
    ensures |s| == |ks|
    decreases |ks|
  {
    if ks == [] {
      forall d ensures d !in s {}
      assert s == {};
    } else {
      var first, rest := ks[0], s - {ks[0]};
      assert first in ks && first in s;
      forall d ensures d in rest <==> d in ks[1..] { FirstOrRest(ks, d); }
      TailSize(ks[1..], rest);
    }
  }

  lemma FirstOrRest(ks: seq<int>, d: int)
    requires ks != [] && Increasing(ks)
    ensures d in ks[1..] <==> d in ks && d != ks[0]
  {
    assert ks == [ks[0]] + ks[1..];
    if d in ks[1..] {
      var i :| 0 <= i < |ks[1..]| && ks[1..][i] == d;
      assert ks[i + 1] == d;
    }
  }

  /** Every bucket was counted into, so every retained day is active. */
  lemma {:induction false} ReplayedDays(hist: seq<Outcome>)
    ensures var a := Replay(hist);
      && (forall d :: d in a.days ==> a.days[d].answered > 0 && d in History(hist))
      && |a.days.Keys| <= MAX_DAYS_RETAINED
    decreases |hist|
  {
    if hist != [] {
      var prior, o := Replay(hist[..|hist| - 1]), hist[|hist| - 1];
      ReplayedDays(hist[..|hist| - 1]);
      hide Trimmed, Replay, CurrentStreak;
      var counted := Counted(prior.days, DayOf(o.ts), o.matched);
      TrimmedIsNewest(counted);
      forall d | d in Trimmed(counted) ensures Trimmed(counted)[d].answered > 0 && d in History(hist) {
        TrimmedDay(counted, d);
        assert d in counted.Keys;
      }
      ReplayUnfolds(hist);
    }
  }

  lemma ReplayUnfolds(hist: seq<Outcome>)
    requires hist != []
    ensures var o, prior := hist[|hist| - 1], Replay(hist[..|hist| - 1]);
      && Replay(hist) == Applied(prior, o.matched, o.ts)
      && Replay(hist).days == Trimmed(Counted(prior.days, DayOf(o.ts), o.matched))
      && Replay(hist).longestStreak
         == Max(prior.longestStreak, CurrentStreak(ActiveDays(Replay(hist).days), DayOf(o.ts)))
      && History(hist) == History(hist[..|hist| - 1]) + {DayOf(o.ts)}
  {}

  lemma StreakGrows(s: set<int>, t: set<int>, d: int, n: nat)
    requires Streak(s, d, n) && forall x :: x in s ==> x in t
    ensures Streak(t, d, n)
  {}

  /** The current streak never exceeds the longest of a larger set, nor the number of days kept. */
  lemma CurrentIsBounded(kept: set<int>, all: set<int>, today: int, n: nat)
    requires (forall x :: x in kept ==> x in all) && IsLongest(all, n)
    ensures CurrentStreak(kept, today) <= n && CurrentStreak(kept, today) <= |kept|
  {
    var d := if today in kept then today else today - 1;
    var r := Run(kept, d);
    StreakGrows(kept, all, d, r);
    if r > 0 { assert Streak(all, d, r); }
  }

  lemma {:induction false} HasLongest(hist: seq<Outcome>) returns (n: nat)
    ensures IsLongest(History(hist), n)
  {
    n := LongestOf(History(hist), |History(hist)|);
  }

  /** A finite set of days has a longest streak. */
  lemma {:induction false} LongestOf(s: set<int>, k: nat) returns (n: nat)
    requires |s| <= k
    ensures IsLongest(s, n)
    decreases k
  {
    if m :| m in s && forall x :: x in s ==> x <= m {
      var rest := s - {m};
      n := LongestOf(rest, k - 1);
      forall x | x in rest ensures x < m {}
      LongestExtends(rest, m, n);
      assert rest + {m} == s;
      n := Max(n, Run(s, m));
    } else {
      if x :| x in s { HasGreatest(s, x); }
      forall x ensures x !in s {}
      assert s == {};
      NoDays(s);
      n := 0;
    }
  }

  lemma {:induction false} HasGreatest(s: set<int>, m: int)
    requires m in s
    ensures exists n :: n in s && forall x :: x in s ==> x <= n
    decreases |s|
  {
    if x :| x in s && x > m {
      HasGreatest(s - {m}, x);
      var n :| n in s - {m} && forall y :: y in s - {m} ==> y <= n;
      forall y | y in s ensures y <= n { if y != m { assert y in s - {m}; } }
      assert n in s;
    }
  }

  lemma NewestExtends(kept: set<int>, prior: set<int>, all: set<int>, d: int)
    requires Newest(prior, all) && Newest(kept, prior + {d}) && forall x :: x in all ==> x <= d
    ensures Newest(kept, all + {d})
  {
    forall x | x in kept ensures x in all + {d} {}
    if kept == prior + {d} && prior != all {
      assert d in prior;
      assert prior + {d} == prior;
    }
    if prior == all { assert prior + {d} == all + {d}; }
    forall x, y | x in all + {d} && x !in kept && y in kept ensures x < y {
      assert x in prior + {d} || x in all;
    }
  }

  lemma {:induction false} BeforeLast(hist: seq<Outcome>, d: int)
    requires InOrder(hist) && hist != [] && d in History(hist)
    ensures d <= DayOf(hist[|hist| - 1].ts)
    decreases |hist|
  {
    var k := |hist| - 1;
    if k > 0 && d != DayOf(hist[k].ts) {
      BeforeLast(hist[..k], d);
      assert hist[k - 1].ts <= hist[k].ts;
    }
  }

  /** With timestamps in order the buckets are the newest days of the full history. */
  lemma {:induction false} KeptIsNewest(hist: seq<Outcome>)
    requires InOrder(hist)
    ensures Newest(Replay(hist).days.Keys, History(hist))
    decreases |hist|
  {
    if hist != [] {
      var rest, o := hist[..|hist| - 1], hist[|hist| - 1];
      var d := DayOf(o.ts);
      KeptIsNewest(rest);
      ReplayUnfolds(hist);
      hide Replay, Trimmed, History, Newest;
      var counted := Counted(Replay(rest).days, d, o.matched);
      TrimmedIsNewest(counted);
      assert counted.Keys == Replay(rest).days.Keys + {d};
      forall x | x in History(rest) ensures x <= d { BeforeLast(hist, x); }
      NewestExtends(Trimmed(counted).Keys, Replay(rest).days.Keys, History(rest), d);
    }
  }

  lemma Emptiness(s: set<int>)
    ensures (forall y :: y !in s) ==> |s| == 0
  {
    if forall y :: y !in s {
      forall y ensures y !in s {}
      assert s == {};
    }
  }

  /** The streak read from the newest days is the true one, up to the number of days kept. */
  lemma RunOfNewest(kept: set<int>, all: set<int>, d: int)
    requires Newest(kept, all) && d in all && forall x :: x in all ==> x <= d
    ensures d in kept && Run(kept, d) == Min(MAX_DAYS_RETAINED, Run(all, d))
  {
    Emptiness(kept);
    var y :| y in kept;
    assert y in all && y <= d;
    var r := Run(kept, d);
    StreakGrows(kept, all, d, r);
    RunIsLongestBack(all, d, r);
    if r < Run(all, d) {
      RunGoesOn(all, d, r);
      forall y | y in kept ensures d - r < y <= d { assert d - r in all && d - r !in kept; }
      IntervalSize(kept, d - r, d);
    }
  }

  /** For outcomes with non-decreasing timestamps the stored longestStreak is the longest run of
      consecutive days in the full, unpruned history, up to the number of days retained. */
  lemma {:induction false} StoredLongestStreak(hist: seq<Outcome>, n: nat)
    requires InOrder(hist) && IsLongest(History(hist), n)
    ensures Replay(hist).longestStreak == Min(MAX_DAYS_RETAINED, n)
    decreases |hist|
  {
    if hist == [] {
      NoDays(History(hist));
      LongestIsUnique(History(hist), n, 0);
    } else {
      var rest, o := hist[..|hist| - 1], hist[|hist| - 1];
      var d, all, before := DayOf(o.ts), History(hist), History(rest);
      var m := HasLongest(rest);
      StoredLongestStreak(rest, m);
      KeptIsNewest(hist);
      ReplayedDays(hist);
      ReplayUnfolds(hist);
      hide Replay, History, Newest, IsLongest, Run;
      forall x | x in all ensures x <= d { BeforeLast(hist, x); }
      assert d in all;
      AllActive(Replay(hist).days);
      RunOfNewest(Replay(hist).days.Keys, all, d);
      LongestWithLast(before, all, d, m, n);
    }
  }

  lemma AllActive(days: Days)
    requires forall d :: d in days ==> days[d].answered > 0
    ensures ActiveDays(days) == days.Keys
  {
    forall d ensures d in ActiveDays(days) <==> d in days.Keys {}
  }

  /** A longest streak after a last day is a longest one before it, or the one that day ends. */
  lemma LongestWithLast(before: set<int>, all: set<int>, d: int, m: nat, n: nat)
    requires all == before + {d} && (forall x :: x in all ==> x <= d) && IsLongest(before, m) && IsLongest(all, n)
    ensures n == Max(m, Run(all, d))
  {
    if d in before {
      assert all == before;
      LongestIsUnique(all, m, n);
      CurrentIsNoLonger(all, d, m);
    } else {
      forall x | x in before ensures x < d { assert x in all; }
      LongestExtends(before, d, m);
      LongestIsUnique(all, n, Max(m, Run(all, d)));
    }
  }

  /** In whatever order outcomes arrive, the stored streak is never overstated. */
  lemma {:induction false} NeverOverstated(hist: seq<Outcome>, n: nat)
    requires IsLongest(History(hist), n)
    ensures Replay(hist).longestStreak <= Min(MAX_DAYS_RETAINED, n)
    decreases |hist|
  {
    if hist != [] {
      var rest, o := hist[..|hist| - 1], hist[|hist| - 1];
      var m := HasLongest(rest);
      NeverOverstated(rest, m);
      ReplayedDays(hist);
      ReplayUnfolds(hist);
      hide Replay, History, Run;
      AllActive(Replay(hist).days);
      CurrentIsBounded(Replay(hist).days.Keys, History(hist), DayOf(o.ts), n);
      if m > 0 {
        var d :| Streak(History(rest), d, m);
        StreakGrows(History(rest), History(hist), d, m);
      }
    }
  }

  lemma {:induction false} CountedKeys(days: Days, d: int, matched: bool)
    requires |days.Keys| < MAX_DAYS_RETAINED
    ensures Trimmed(Counted(days, d, matched)) == Counted(days, d, matched)
  {
    var counted := Counted(days, d, matched);
    assert counted.Keys == days.Keys + {d};
    WithoutNone(counted, SortedKeys(counted.Keys));
  }

  /** The days counted, the longest streak stored, and the full history, all as given. */
  ghost predicate Stands(hist: seq<Outcome>, days: set<int>, longest: nat) {
    && Replay(hist).days.Keys == days && Replay(hist).longestStreak == longest && History(hist) == days
    && forall d :: d in Replay(hist).days ==> Replay(hist).days[d].answered > 0
  }

  lemma CountedActive(days: Days, d: int, matched: bool)
    requires forall x :: x in days ==> days[x].answered > 0
    ensures var next := Counted(days, d, matched);
      ActiveDays(next) == next.Keys == days.Keys + {d} && forall x :: x in next ==> next[x].answered > 0
  {
    AllActive(Counted(days, d, matched));
  }

  lemma ReplayNext(rest: seq<Outcome>, o: Outcome, days: set<int>, longest: nat, more: set<int>, hist: seq<Outcome>)
    requires Stands(rest, days, longest) && |days| < MAX_DAYS_RETAINED
    requires hist == rest + [o] && more == days + {DayOf(o.ts)}
    ensures Stands(hist, more, Max(longest, CurrentStreak(more, DayOf(o.ts))))
  {
    hide Replay, History, Counted, Trimmed, CurrentStreak;
    assert hist[..|hist| - 1] == rest;
    ReplayUnfolds(hist);
    CountedKeys(Replay(rest).days, DayOf(o.ts), o.matched);
    CountedActive(Replay(rest).days, DayOf(o.ts), o.matched);
  }

  /** A day, and the second day after it. */
  lemma WithAGap(ts: nat, hist: seq<Outcome>, d: int)
    requires hist == [Outcome(ts, true), Outcome(ts + 2 * DAY_MS, true)] && d == DayOf(ts)
    ensures Stands(hist, {d, d + 2}, 1)
  {
    hide Stands, CurrentStreak, IsLongest, Replay, History, DayOf;
    var none: seq<Outcome> := [];
    DaysApart(ts);
    NothingStands(none);
    ThreeDays(d);
    ReplayNext(none, hist[0], {}, 0, {d}, [hist[0]]);
    ReplayNext([hist[0]], hist[1], {d}, 1, {d, d + 2}, hist);
  }

  /** Applied out of order it can be understated: a day, the second day after it, and only then the
      day between make a run of three, of which no current streak ever shows more than two. */
  lemma OutOfOrderUnderstates(ts: nat)
    ensures var hist := [Outcome(ts, true), Outcome(ts + 2 * DAY_MS, true), Outcome(ts + DAY_MS, true)];
      IsLongest(History(hist), 3) && Replay(hist).longestStreak == 2
  {
    hide Stands, CurrentStreak, IsLongest, Replay, History, DayOf;
    var d := DayOf(ts);
    var two := [Outcome(ts, true), Outcome(ts + 2 * DAY_MS, true)];
    var last := Outcome(ts + DAY_MS, true);
    WithAGap(ts, two, d);
    DaysApart(ts);
    ThreeDays(d);
    ReplayNext(two, last, {d, d + 2}, 1, {d, d + 1, d + 2}, two + [last]);
    StandsAsSaid(two + [last], {d, d + 1, d + 2}, 2);
    assert two + [last] == [Outcome(ts, true), Outcome(ts + 2 * DAY_MS, true), last];
  }

  lemma DaysApart(ts: nat)
    ensures DayOf(ts + DAY_MS) == DayOf(ts) + 1 && DayOf(ts + 2 * DAY_MS) == DayOf(ts) + 2
  {}

  lemma NothingStands(none: seq<Outcome>)
    requires none == []
    ensures Stands(none, {}, 0)
  {}

  lemma StandsAsSaid(hist: seq<Outcome>, days: set<int>, longest: nat)
    requires Stands(hist, days, longest)
    ensures History(hist) == days && Replay(hist).longestStreak == longest
  {}

  lemma StreakEnds(s: set<int>, d: int, k: nat)
    requires k > 0 && Streak(s, d, k)
    ensures d in s && d - k + 1 in s
  {}

  lemma ThreeDays(d: int)
    ensures CurrentStreak({d}, d) == 1 && CurrentStreak({d, d + 2}, d + 2) == 1
    ensures CurrentStreak({d, d + 1, d + 2}, d + 1) == 2 && IsLongest({d, d + 1, d + 2}, 3)
  {
    var s := {d, d + 1, d + 2};
    RunBetween({d}, d, 1);
    RunBetween({d, d + 2}, d + 2, 1);
    RunBetween(s, d + 1, 2);
    assert Streak(s, d + 2, 3);
    forall x, k: nat | k > 0 && Streak(s, x, k) ensures k <= 3 { StreakEnds(s, x, k); }
  }

  lemma RunBetween(s: set<int>, d: int, n: nat)
    requires Streak(s, d, n) && d - n !in s
    ensures Run(s, d) == n
  {
    RunIsLongestBack(s, d, n);
    RunGoesOn(s, d, n);
  }
}
