/** Worker earnings: how a payout splits, the per-year ledger of credits and withdrawals with its two
    indexes, and the totals of an annual summary. Amounts are stroops. */
module Earnings {
  import opened Common

  const PLATFORM_FEE_BPS := 2000
  const BPS_DENOM := 10_000
  const STROOPS_PER_CENT := 100_000

  // ---- The payout split --------------------------------------------------------------------------

  function Fee(amount: nat): nat { amount * PLATFORM_FEE_BPS / BPS_DENOM }

  function WorkerShare(amount: nat, matching: nat): nat {
    if matching == 0 then 0 else (amount - Fee(amount)) / matching
  }

  /** Nothing is lost in a split but the fee and less than one stroop a worker: and no larger equal
      share would fit. */
  lemma SplitConserves(amount: nat, matching: nat)
    requires matching > 0
    ensures var dust := amount - Fee(amount) - matching * WorkerShare(amount, matching);
      0 <= dust < matching && Fee(amount) + matching * WorkerShare(amount, matching) + dust == amount
    ensures matching * (WorkerShare(amount, matching) + 1) > amount - Fee(amount)
    ensures 5 * Fee(amount) <= amount < 5 * (Fee(amount) + 1)
  {
    var net := amount - Fee(amount);
    assert net == matching * (net / matching) + net % matching;
    assert matching * (net / matching + 1) == matching * (net / matching) + matching;
  }

  // ---- The ledger --------------------------------------------------------------------------------

  type WorkerId = string

  /** A UTC time, to the month. */
  datatype Moment = Moment(year: int, month: nat)

  datatype Credit = Credit(questionId: nat, amount: nat, at: Moment)

  datatype Withdrawal = Withdrawal(txHash: string, amount: nat, at: Moment)

  datatype Key = Key(worker: WorkerId, year: int)

  datatype Ledger = Ledger(
    credits: map<Key, seq<Credit>>, withdrawals: map<Key, seq<Withdrawal>>,
    years: map<WorkerId, seq<int>>, earners: map<int, seq<WorkerId>>)

  function Get<K, V>(m: map<K, seq<V>>, k: K): seq<V> { if k in m then m[k] else [] }

  predicate HasCredit(s: Ledger, k: Key, q: nat) { exists c :: c in Get(s.credits, k) && c.questionId == q }

  predicate HasWithdrawal(s: Ledger, k: Key, tx: string) { exists w :: w in Get(s.withdrawals, k) && w.txHash == tx }

  /** [...years, year].sort(), on years of four digits. */
  function InsertYear(years: seq<int>, y: int): seq<int> {
    if years == [] || y <= years[0] then [y] + years else [years[0]] + InsertYear(years[1..], y)
  }

  function WithYear(s: Ledger, k: Key): Ledger {
    if k.year in Get(s.years, k.worker) then s
    else s.(years := s.years[k.worker := InsertYear(Get(s.years, k.worker), k.year)])
  }

  function WithEarner(s: Ledger, k: Key): Ledger {
    if k.worker in Get(s.earners, k.year) then s
    else s.(earners := s.earners[k.year := Get(s.earners, k.year) + [k.worker]])
  }

  function Indexed(s: Ledger, k: Key): Ledger { WithEarner(WithYear(s, k), k) }

  /** indexWorkerYear after a record was appended, cut short when only `steps` of the three writes of
      record, year and earner were done. */
  function IndexedPart(s: Ledger, k: Key, steps: nat): Ledger {
    if steps >= 3 then Indexed(s, k) else if steps == 2 then WithYear(s, k) else s
  }

  function Credited(s: Ledger, worker: WorkerId, c: Credit): Ledger {
    var k := Key(worker, c.at.year);
    if HasCredit(s, k, c.questionId) then s
    else Indexed(s.(credits := s.credits[k := Get(s.credits, k) + [c]]), k)
  }

  function CreditedPart(s: Ledger, worker: WorkerId, c: Credit, steps: nat): Ledger {
    var k := Key(worker, c.at.year);
    if HasCredit(s, k, c.questionId) || steps == 0 then s
    else IndexedPart(s.(credits := s.credits[k := Get(s.credits, k) + [c]]), k, steps)
  }

  function Withdrawn(s: Ledger, worker: WorkerId, w: Withdrawal, steps: nat): Ledger {
    var k := Key(worker, w.at.year);
    if HasWithdrawal(s, k, w.txHash) || steps == 0 then s
    else IndexedPart(s.(withdrawals := s.withdrawals[k := Get(s.withdrawals, k) + [w]]), k, steps)
  }

  function AllCredited(s: Ledger, workers: seq<WorkerId>, c: Credit): Ledger
    decreases |workers|
  {
    if workers == [] then s else Credited(AllCredited(s, workers[..|workers| - 1], c), workers[|workers| - 1], c)
  }

  function Recorded(s: Ledger, q: nat, workers: seq<WorkerId>, amount: nat, at: Moment): Ledger {
    var share := WorkerShare(amount, |workers|);
    if share == 0 then s else AllCredited(s, workers, Credit(q, share, at))
  }

  /** The store throws while the credit of `workers[upTo]` is being recorded, after `steps` of its
      writes; not at all if there is no such worker. */
  function RecordedPart(s: Ledger, q: nat, workers: seq<WorkerId>, amount: nat, at: Moment, upTo: nat, steps: nat): Ledger {
    var share := WorkerShare(amount, |workers|);
    if share == 0 || upTo >= |workers| then Recorded(s, q, workers, amount, at)
    else CreditedPart(AllCredited(s, workers[..upTo], Credit(q, share, at)), workers[upTo], Credit(q, share, at), steps)
  }

  // ---- What recording does -----------------------------------------------------------------------

  lemma CreditedList(s: Ledger, worker: WorkerId, c: Credit, k: Key)
    ensures var t := Credited(s, worker, c);
      && Get(t.credits, k) == (if k == Key(worker, c.at.year) && !HasCredit(s, k, c.questionId)
                               then Get(s.credits, k) + [c] else Get(s.credits, k))
      && t.withdrawals == s.withdrawals
  {}

  /** One record for each matching worker that has none of this question in that year, and nothing
      else. */
  lemma {:induction false} AllCreditedList(s: Ledger, workers: seq<WorkerId>, c: Credit, k: Key)
    ensures var t := AllCredited(s, workers, c);
      && Get(t.credits, k) == (if k.worker in workers && k.year == c.at.year && !HasCredit(s, k, c.questionId)
                               then Get(s.credits, k) + [c] else Get(s.credits, k))
      && t.withdrawals == s.withdrawals
    decreases |workers|
  {
    if workers != [] {
      var n := |workers| - 1;
      AllCreditedList(s, workers[..n], c, k);
      CreditedList(AllCredited(s, workers[..n], c), workers[n], c, k);
      assert workers == workers[..n] + [workers[n]];
      assert c in Get(s.credits, k) + [c];
    }
  }

  lemma {:induction false} NothingToCredit(s: Ledger, workers: seq<WorkerId>, c: Credit)
    requires forall w :: w in workers ==> HasCredit(s, Key(w, c.at.year), c.questionId)
    ensures AllCredited(s, workers, c) == s
    decreases |workers|
  {
    if workers != [] {
      var n := |workers| - 1;
      assert workers[n] in workers;
      NothingToCredit(s, workers[..n], c);
    }
  }

  /** Recording a question's payout again adds nothing if and only if it falls into the same year, or
      that year already had it: the check for duplicates looks at one year. */
  lemma RecordingAgain(s: Ledger, q: nat, workers: seq<WorkerId>, amount: nat, at: Moment, again: Moment)
    ensures var t := Recorded(s, q, workers, amount, at);
      Recorded(t, q, workers, amount, again) == t <==>
        || WorkerShare(amount, |workers|) == 0 || at.year == again.year
        || forall w :: w in workers ==> HasCredit(s, Key(w, again.year), q)
  {
    var share := WorkerShare(amount, |workers|);
    if share > 0 {
      var c, d := Credit(q, share, at), Credit(q, share, again);
      var t := Recorded(s, q, workers, amount, at);
      forall w | w in workers
        ensures HasCredit(t, Key(w, again.year), q) <==> at.year == again.year || HasCredit(s, Key(w, again.year), q) {
        AllCreditedList(s, workers, c, Key(w, again.year));
        assert c in Get(s.credits, Key(w, again.year)) + [c];
      }
      if forall w :: w in workers ==> HasCredit(t, Key(w, again.year), q) {
        NothingToCredit(t, workers, d);
      } else {
        var w :| w in workers && !HasCredit(t, Key(w, again.year), q);
        AllCreditedList(t, workers, d, Key(w, again.year));
        assert |Get(t.credits, Key(w, again.year)) + [d]| > |Get(t.credits, Key(w, again.year))|;
      }
    }
  }

  // ---- The two indexes ---------------------------------------------------------------------------

  predicate HasRecords(s: Ledger, k: Key) { Get(s.credits, k) != [] || Get(s.withdrawals, k) != [] }

  predicate Increasing(years: seq<int>) { forall i, j :: 0 <= i < j < |years| ==> years[i] < years[j] }

  predicate Distinct(workers: seq<WorkerId>) { forall i, j :: 0 <= i < j < |workers| ==> workers[i] != workers[j] }

  /** Both indexes hold exactly the pairs of worker and year with a record. */
  ghost predicate Exact(s: Ledger, k: Key) {
    && (k.worker in Get(s.earners, k.year) <==> HasRecords(s, k))
    && (k.year in Get(s.years, k.worker) <==> HasRecords(s, k))
  }

  /** Every credit is filed under its year, each question once. */
  ghost predicate Filed(s: Ledger, k: Key) {
    var cs := Get(s.credits, k);
    && (forall c :: c in cs ==> c.at.year == k.year)
    && (forall i, j :: 0 <= i < j < |cs| ==> cs[i].questionId != cs[j].questionId)
  }

  ghost predicate Inv(s: Ledger) {
    && (forall k :: Filed(s, k))
    && (forall w :: Increasing(Get(s.years, w))) && (forall y :: Distinct(Get(s.earners, y)))
  }

  lemma {:induction false} YearInserted(years: seq<int>, y: int, x: int)
    ensures x in InsertYear(years, y) <==> x == y || x in years
    decreases |years|
  {
    if years != [] && y > years[0] {
      YearInserted(years[1..], y, x);
      assert years == [years[0]] + years[1..];
    }
  }

  lemma {:induction false} InsertYearIncreases(years: seq<int>, y: int)
    requires Increasing(years) && y !in years
    ensures Increasing(InsertYear(years, y))
    decreases |years|
  {
    if years != [] {
      var first := years[0];
      assert first in years;
      if y > first {
        assert years == [first] + years[1..];
        InsertYearIncreases(years[1..], y);
        var rest := InsertYear(years[1..], y);
        forall j | 0 <= j < |rest| ensures first < rest[j] {
          var x := rest[j];
          assert x in rest;
          YearInserted(years[1..], y, x);
          if x in years[1..] { var i :| 0 <= i < |years[1..]| && years[1..][i] == x; assert years[i + 1] == x; }
        }
      }
    }
  }

  lemma YearAdded(s: Ledger, k: Key)
    ensures var t := WithYear(s, k);
      && t.credits == s.credits && t.withdrawals == s.withdrawals && t.earners == s.earners
      && forall w :: Get(t.years, w) ==
           if w == k.worker && k.year !in Get(s.years, w) then InsertYear(Get(s.years, w), k.year) else Get(s.years, w)
  {}

  lemma EarnerAdded(s: Ledger, k: Key)
    ensures var t := WithEarner(s, k);
      && t.credits == s.credits && t.withdrawals == s.withdrawals && t.years == s.years
      && forall y :: Get(t.earners, y) ==
           if y == k.year && k.worker !in Get(s.earners, y) then Get(s.earners, y) + [k.worker] else Get(s.earners, y)
  {}

  lemma IndexedKeeps(s: Ledger, k: Key, steps: nat)
    requires Inv(s)
    ensures Inv(IndexedPart(s, k, steps))
  {
    hide WithYear, WithEarner;
    var u := IndexedPart(s, k, steps);
    YearAdded(s, k);
    EarnerAdded(WithYear(s, k), k);
    forall x ensures Filed(u, x) { assert Filed(s, x); }
    forall w ensures Increasing(Get(u.years, w)) {
      assert Increasing(Get(s.years, w));
      if w == k.worker && k.year !in Get(s.years, w) { InsertYearIncreases(Get(s.years, w), k.year); }
    }
    forall y ensures Distinct(Get(u.earners, y)) { assert Distinct(Get(s.earners, y)); }
  }

  lemma CreditedKeeps(s: Ledger, worker: WorkerId, c: Credit, steps: nat)
    requires Inv(s)
    ensures Inv(CreditedPart(s, worker, c, steps))
  {
    var k := Key(worker, c.at.year);
    if !HasCredit(s, k, c.questionId) {
      var t := s.(credits := s.credits[k := Get(s.credits, k) + [c]]);
      assert Filed(s, k);
      var cs := Get(s.credits, k);
      forall i | 0 <= i < |cs| ensures cs[i].questionId != c.questionId { assert cs[i] in cs; }
      forall x ensures Filed(t, x) { assert Filed(s, x); }
      IndexedKeeps(t, k, steps);
    }
  }

  lemma {:induction false} AllCreditedKeeps(s: Ledger, workers: seq<WorkerId>, c: Credit)
    requires Inv(s)
    ensures Inv(AllCredited(s, workers, c))
    decreases |workers|
  {
    hide Inv;
    if workers != [] {
      AllCreditedKeeps(s, workers[..|workers| - 1], c);
      CreditedKeeps(AllCredited(s, workers[..|workers| - 1], c), workers[|workers| - 1], c, 3);
    }
  }

  lemma RecordedKeeps(s: Ledger, q: nat, workers: seq<WorkerId>, amount: nat, at: Moment, upTo: nat, steps: nat)
    requires Inv(s)
    ensures Inv(RecordedPart(s, q, workers, amount, at, upTo, steps))
  {
    hide Inv;
    var c := Credit(q, WorkerShare(amount, |workers|), at);
    if upTo < |workers| {
      AllCreditedKeeps(s, workers[..upTo], c);
      CreditedKeeps(AllCredited(s, workers[..upTo], c), workers[upTo], c, steps);
    }
    AllCreditedKeeps(s, workers, c);
  }

  lemma WithdrawnKeeps(s: Ledger, worker: WorkerId, w: Withdrawal, steps: nat)
    requires Inv(s)
    ensures Inv(Withdrawn(s, worker, w, steps))
  {
    var k := Key(worker, w.at.year);
    if !HasWithdrawal(s, k, w.txHash) {
      var t := s.(withdrawals := s.withdrawals[k := Get(s.withdrawals, k) + [w]]);
      forall x ensures Filed(t, x) { assert Filed(s, x); }
      IndexedKeeps(t, k, steps);
    }
  }

  // ---- How far a record gets -----------------------------------------------------------------------

  /** `upTo` and `steps` say where the store throws, if it does. */
  datatype Event =
    | Settle(questionId: nat, workers: seq<WorkerId>, amount: nat, at: Moment, upTo: nat, steps: nat)
    | Withdraw(worker: WorkerId, withdrawal: Withdrawal, steps: nat)

  function Step(s: Ledger, e: Event): Ledger {
    match e
    case Settle(q, workers, amount, at, upTo, steps) => RecordedPart(s, q, workers, amount, at, upTo, steps)
    case Withdraw(worker, w, steps) => Withdrawn(s, worker, w, steps)
  }

  function Exec(es: seq<Event>): Ledger
    decreases |es|
  {
    if es == [] then Ledger(map[], map[], map[], map[]) else Step(Exec(es[..|es| - 1]), es[|es| - 1])
  }

  /** How many of the three writes an event makes for a new record of `k`. */
  function Writes(s: Ledger, e: Event, k: Key): nat {
    match e
    case Settle(q, workers, amount, at, upTo, steps) =>
      if WorkerShare(amount, |workers|) == 0 || k.year != at.year || HasCredit(s, k, q) then 0
      else if k.worker in (if upTo < |workers| then workers[..upTo] else workers) then 3
      else if upTo < |workers| && workers[upTo] == k.worker then steps
      else 0
    case Withdraw(worker, w, steps) =>
      if k == Key(worker, w.at.year) && !HasWithdrawal(s, k, w.txHash) then steps else 0
  }

  /** The record, the year of the worker and the earner of the year are there, as far as `n` goes. */
  ghost predicate Grew(s: Ledger, t: Ledger, k: Key, n: nat) {
    && (HasRecords(t, k) <==> HasRecords(s, k) || n >= 1)
    && (k.year in Get(t.years, k.worker) <==> k.year in Get(s.years, k.worker) || n >= 2)
    && (k.worker in Get(t.earners, k.year) <==> k.worker in Get(s.earners, k.year) || n >= 3)
  }

  lemma IndexedGrew(s: Ledger, k: Key, steps: nat, x: Key)
    ensures var t := IndexedPart(s, k, steps);
      && t.credits == s.credits && t.withdrawals == s.withdrawals
      && (x.year in Get(t.years, x.worker) <==> x.year in Get(s.years, x.worker) || (x == k && steps >= 2))
      && (x.worker in Get(t.earners, x.year) <==> x.worker in Get(s.earners, x.year) || (x == k && steps >= 3))
  {
    hide WithYear, WithEarner;
    YearAdded(s, k);
    EarnerAdded(WithYear(s, k), k);
    YearInserted(Get(s.years, k.worker), k.year, x.year);
  }

  lemma CreditedGrew(s: Ledger, worker: WorkerId, c: Credit, steps: nat, x: Key)
    ensures var t, isNew := CreditedPart(s, worker, c, steps), x == Key(worker, c.at.year) && !HasCredit(s, x, c.questionId);
      && Grew(s, t, x, if isNew then steps else 0)
      && (HasCredit(t, x, c.questionId) <==> HasCredit(s, x, c.questionId) || (isNew && steps >= 1))
      && t.withdrawals == s.withdrawals
  {
    var k := Key(worker, c.at.year);
    var t := s.(credits := s.credits[k := Get(s.credits, k) + [c]]);
    IndexedGrew(t, k, steps, x);
    assert c in Get(s.credits, k) + [c];
  }

  lemma {:induction false} AllCreditedGrew(s: Ledger, workers: seq<WorkerId>, c: Credit, x: Key)
    ensures var t, isNew := AllCredited(s, workers, c), x.worker in workers && x.year == c.at.year && !HasCredit(s, x, c.questionId);
      && Grew(s, t, x, if isNew then 3 else 0)
      && (HasCredit(t, x, c.questionId) <==> HasCredit(s, x, c.questionId) || isNew)
    decreases |workers|
  {
    hide Credited, CreditedPart, HasCredit;
    if workers != [] {
      var n := |workers| - 1;
      AllCreditedGrew(s, workers[..n], c, x);
      CreditedIsWhole(AllCredited(s, workers[..n], c), workers[n], c);
      CreditedGrew(AllCredited(s, workers[..n], c), workers[n], c, 3, x);
      assert workers == workers[..n] + [workers[n]];
    }
  }

  lemma CreditedIsWhole(s: Ledger, worker: WorkerId, c: Credit)
    ensures Credited(s, worker, c) == CreditedPart(s, worker, c, 3)
  {}

  lemma SettleGrew(s: Ledger, q: nat, workers: seq<WorkerId>, amount: nat, at: Moment, upTo: nat, steps: nat, k: Key)
    requires WorkerShare(amount, |workers|) != 0
    ensures var e := Settle(q, workers, amount, at, upTo, steps); Grew(s, Step(s, e), k, Writes(s, e, k))
  {
    var c := Credit(q, WorkerShare(amount, |workers|), at);
    hide AllCredited, CreditedPart, HasCredit, WorkerShare, Grew;
    if upTo < |workers| {
      var before := AllCredited(s, workers[..upTo], c);
      AllCreditedGrew(s, workers[..upTo], c, k);
      CreditedGrew(before, workers[upTo], c, steps, k);
      GrewTwice(s, before, CreditedPart(before, workers[upTo], c, steps), k);
    } else {
      AllCreditedGrew(s, workers, c, k);
    }
  }

  /** Of two stages in a row only one can be the first to record anything. */
  lemma GrewTwice(s: Ledger, t: Ledger, u: Ledger, k: Key)
    ensures forall m: nat, n: nat :: Grew(s, t, k, m) && Grew(t, u, k, n) ==> Grew(s, u, k, if m > n then m else n)
  {}

  lemma StepGrew(s: Ledger, e: Event, k: Key)
    ensures Grew(s, Step(s, e), k, Writes(s, e, k))
  {
    match e
    case Settle(q, workers, amount, at, upTo, steps) =>
      if WorkerShare(amount, |workers|) != 0 { SettleGrew(s, q, workers, amount, at, upTo, steps, k); }
    case Withdraw(worker, w, steps) =>
      var x := Key(worker, w.at.year);
      IndexedGrew(s.(withdrawals := s.withdrawals[x := Get(s.withdrawals, x) + [w]]), x, steps, k);
  }

  /** Some event of the run made at least `n` writes for a new record of `k`. */
  predicate Reached(es: seq<Event>, k: Key, n: nat)
    decreases |es|
  {
    es != [] && (Reached(es[..|es| - 1], k, n) || Writes(Exec(es[..|es| - 1]), es[|es| - 1], k) >= n)
  }

  lemma {:induction false} RunGrew(es: seq<Event>, k: Key)
    ensures var s := Exec(es);
      && (HasRecords(s, k) <==> Reached(es, k, 1))
      && (k.year in Get(s.years, k.worker) <==> Reached(es, k, 2))
      && (k.worker in Get(s.earners, k.year) <==> Reached(es, k, 3))
    ensures (Reached(es, k, 3) ==> Reached(es, k, 2)) && (Reached(es, k, 2) ==> Reached(es, k, 1))
    decreases |es|
  {
    hide Step, Writes, HasRecords;
    if es == [] {
      NoRecords(k);
    } else {
      RunGrew(es[..|es| - 1], k);
      StepGrew(Exec(es[..|es| - 1]), es[|es| - 1], k);
    }
  }

  lemma NoRecords(k: Key)
    ensures !HasRecords(Exec([]), k)
  {}

  /** After any calls, complete or cut short, in any order and repeated at will, no question is credited
      to a worker twice in one year; and the indexes are exact for a worker and a year if and only if
      some call that added a record there, if any did, got to the end of indexing it. */
  lemma {:induction false} IndexesAreExactWhere(es: seq<Event>, k: Key)
    ensures Inv(Exec(es))
    ensures Exact(Exec(es), k) <==> (Reached(es, k, 1) ==> Reached(es, k, 3))
    decreases |es|
  {
    RunGrew(es, k);
    if es != [] {
      IndexesAreExactWhere(es[..|es| - 1], k);
      var s, e := Exec(es[..|es| - 1]), es[|es| - 1];
      hide Inv, Exec, Exact, Reached;
      match e
      case Settle(q, workers, amount, at, upTo, steps) => RecordedKeeps(s, q, workers, amount, at, upTo, steps);
      case Withdraw(worker, w, steps) => WithdrawnKeeps(s, worker, w, steps);
    }
  }

  predicate Whole(e: Event) { if e.Settle? then e.upTo >= |e.workers| else e.steps >= 3 }

  lemma {:induction false} WholeReaches(es: seq<Event>, k: Key)
    requires forall i :: 0 <= i < |es| ==> Whole(es[i])
    ensures Reached(es, k, 1) ==> Reached(es, k, 3)
    decreases |es|
  {
    hide Exec;
    if es != [] { WholeReaches(es[..|es| - 1], k); }
  }

  /** So they are exact throughout while no store call fails. */
  lemma IndexesAreExact(es: seq<Event>, k: Key)
    requires forall i :: 0 <= i < |es| ==> Whole(es[i])
    ensures Exact(Exec(es), k)
  {
    WholeReaches(es, k);
    IndexesAreExactWhere(es, k);
  }

  /** A call cut short between record and index is not repaired by calling again: the retry finds the
      record and leaves the index alone. */
  lemma RetryDoesNotIndex(q: nat, worker: WorkerId, amount: nat, at: Moment)
    requires WorkerShare(amount, 1) > 0
    ensures var s := Step(Step(Exec([]), Settle(q, [worker], amount, at, 0, 1)), Settle(q, [worker], amount, at, 1, 0));
      HasRecords(s, Key(worker, at.year)) && worker !in Get(s.earners, at.year) && at.year !in Get(s.years, worker)
  {
    hide Step;
    var cut, retry := Settle(q, [worker], amount, at, 0, 1), Settle(q, [worker], amount, at, 1, 0);
    var k := Key(worker, at.year);
    NoRecords(k);
    StepGrew(Exec([]), cut, k);
    StepGrew(Step(Exec([]), cut), retry, k);
    CutCredits(q, worker, amount, at);
  }

  lemma CutCredits(q: nat, worker: WorkerId, amount: nat, at: Moment)
    requires WorkerShare(amount, 1) > 0
    ensures HasCredit(Step(Exec([]), Settle(q, [worker], amount, at, 0, 1)), Key(worker, at.year), q)
  {
    var c := Credit(q, WorkerShare(amount, 1), at);
    assert [worker][..0] == [];
    assert AllCredited(Exec([]), [], c) == Exec([]);
    CreditedGrew(Exec([]), worker, c, 1, Key(worker, at.year));
  }

  // ---- The annual summary ------------------------------------------------------------------------

  const MONTHS := 12

  function Sum(cs: seq<Credit>): nat
    decreases |cs|
  {
    if cs == [] then 0 else Sum(cs[..|cs| - 1]) + cs[|cs| - 1].amount
  }

  function SumOfMonth(cs: seq<Credit>, m: nat): nat
    decreases |cs|
  {
    if cs == [] then 0
    else SumOfMonth(cs[..|cs| - 1], m) + if cs[|cs| - 1].at.month == m then cs[|cs| - 1].amount else 0
  }

  function SumWithdrawn(ws: seq<Withdrawal>): nat
    decreases |ws|
  {
    if ws == [] then 0 else SumWithdrawn(ws[..|ws| - 1]) + ws[|ws| - 1].amount
  }

  function Total(xs: seq<nat>): nat
    decreases |xs|
  {
    if xs == [] then 0 else Total(xs[..|xs| - 1]) + xs[|xs| - 1]
  }

  function Months(cs: seq<Credit>): seq<nat> { seq(MONTHS, m requires 0 <= m < MONTHS => SumOfMonth(cs, m)) }

  /** Cents, rounded half up. */
  function Cents(stroops: nat): nat { (stroops + STROOPS_PER_CENT / 2) / STROOPS_PER_CENT }

  function AllCents(xs: seq<nat>): seq<nat> { seq(|xs|, i requires 0 <= i < |xs| => Cents(xs[i])) }

  datatype Summary = Summary(gross: nat, monthly: seq<nat>, withdrawn: nat, meetsThreshold: bool)

  predicate RealMonths(cs: seq<Credit>) { forall c :: c in cs ==> c.at.month < MONTHS }

  method BuildTaxSummary(credits: seq<Credit>, withdrawals: seq<Withdrawal>, thresholdCents: nat) returns (r: Summary)
    requires RealMonths(credits)
    ensures r == Summary(Sum(credits), Months(credits), SumWithdrawn(withdrawals), Cents(Sum(credits)) >= thresholdCents)
  {
    var monthly := new nat[MONTHS](_ => 0);
    var gross := 0;
    for i := 0 to |credits|
      invariant gross == Sum(credits[..i])
      invariant forall m :: 0 <= m < MONTHS ==> monthly[m] == SumOfMonth(credits[..i], m)
    {
      assert credits[..i + 1][..i] == credits[..i];
      var c := credits[i];
      assert c in credits;
      gross := gross + c.amount;
      monthly[c.at.month] := monthly[c.at.month] + c.amount;
    }
    assert credits[..|credits|] == credits;
    var withdrawn := 0;
    for i := 0 to |withdrawals|
      invariant withdrawn == SumWithdrawn(withdrawals[..i])
    {
      assert withdrawals[..i + 1][..i] == withdrawals[..i];
      withdrawn := withdrawn + withdrawals[i].amount;
    }
    assert withdrawals[..|withdrawals|] == withdrawals;
    assert monthly[..] == Months(credits);
    r := Summary(gross, monthly[..], withdrawn, Cents(gross) >= thresholdCents);
  }

  lemma {:induction false} TotalUpdate(xs: seq<nat>, i: nat, more: nat)
    requires i < |xs|
    ensures Total(xs[i := xs[i] + more]) == Total(xs) + more
    decreases |xs|
  {
    var k := |xs| - 1;
    if i < k {
      TotalUpdate(xs[..k], i, more);
      assert xs[i := xs[i] + more][..k] == xs[..k][i := xs[i] + more];
    } else {
      assert xs[i := xs[i] + more][..k] == xs[..k];
    }
  }

  lemma {:induction false} NoMonths(xs: seq<nat>)
    requires forall i :: 0 <= i < |xs| ==> xs[i] == 0
    ensures Total(xs) == 0
    decreases |xs|
  {
    if xs != [] { NoMonths(xs[..|xs| - 1]); }
  }

  /** The months add up to the gross, to the stroop. */
  lemma {:induction false} MonthsSumToGross(cs: seq<Credit>)
    requires RealMonths(cs)
    ensures Total(Months(cs)) == Sum(cs)
    decreases |cs|
  {
    if cs == [] {
      NoMonths(Months(cs));
    } else {
      var k := |cs| - 1;
      MonthsSumToGross(cs[..k]);
      assert cs[k] in cs;
      TotalUpdate(Months(cs[..k]), cs[k].at.month, cs[k].amount);
      var was := Months(cs[..k]);
      assert Months(cs) == was[cs[k].at.month := was[cs[k].at.month] + cs[k].amount];
    }
  }

  /** Rounding loses at most half a cent up, and less than half a cent down. */
  lemma CentsBound(x: nat)
    ensures x < STROOPS_PER_CENT * Cents(x) + STROOPS_PER_CENT / 2 <= x + STROOPS_PER_CENT
  {}

  lemma TotalSplits(xs: seq<nat>)
    requires xs != []
    ensures Total(xs) == Total(xs[..|xs| - 1]) + xs[|xs| - 1]
    ensures Total(AllCents(xs)) == Total(AllCents(xs[..|xs| - 1])) + Cents(xs[|xs| - 1])
  {
    hide Cents;
    assert AllCents(xs)[..|xs| - 1] == AllCents(xs[..|xs| - 1]);
  }

  lemma {:induction false} AllCentsBound(xs: seq<nat>)
    ensures Total(xs) <= STROOPS_PER_CENT * Total(AllCents(xs)) + |xs| * (STROOPS_PER_CENT / 2 - 1)
    ensures STROOPS_PER_CENT * Total(AllCents(xs)) <= Total(xs) + |xs| * (STROOPS_PER_CENT / 2)
    decreases |xs|
  {
    hide Cents, Total, AllCents;
    if xs == [] {
      NoCents(xs);
    } else {
      AllCentsBound(xs[..|xs| - 1]);
      CentsBound(xs[|xs| - 1]);
      TotalSplits(xs);
    }
  }

  lemma NoCents(xs: seq<nat>)
    requires xs == []
    ensures Total(xs) == 0 && Total(AllCents(xs)) == 0
  {}

  /** The twelve rounded months differ from the rounded gross by at most six cents. */
  lemma RoundedMonths(cs: seq<Credit>)
    requires RealMonths(cs)
    ensures -6 <= Total(AllCents(Months(cs))) - Cents(Sum(cs)) <= 6
  {
    MonthsSumToGross(cs);
    AllCentsBound(Months(cs));
    CentsBound(Sum(cs));
  }

  function EveryMonth(n: nat, amount: nat): seq<Credit>
  {
    if n == 0 then [] else EveryMonth(n - 1, amount) + [Credit(n - 1, amount, Moment(2025, n - 1))]
  }

  lemma {:induction false} EveryMonthSums(n: nat, amount: nat, m: nat)
    ensures var cs := EveryMonth(n, amount);
      |cs| == n && Sum(cs) == n * amount && SumOfMonth(cs, m) == if m < n then amount else 0
    ensures forall c :: c in EveryMonth(n, amount) ==> c.at.month < n
    decreases n
  {
    hide Sum, SumOfMonth;
    if n == 0 {
      NoSums(m);
    } else {
      EveryMonthSums(n - 1, amount, m);
      LastSums(EveryMonth(n - 1, amount), Credit(n - 1, amount, Moment(2025, n - 1)), m);
      OneTimeMore(n - 1, amount);
    }
  }

  lemma OneTimeMore(n: nat, amount: nat)
    ensures (n + 1) * amount == n * amount + amount && 0 * amount == 0
  {}

  lemma NoSums(m: nat)
    ensures Sum([]) == 0 && SumOfMonth([], m) == 0
  {}

  lemma LastSums(front: seq<Credit>, last: Credit, m: nat)
    ensures Sum(front + [last]) == Sum(front) + last.amount
    ensures SumOfMonth(front + [last], m) == SumOfMonth(front, m) + if last.at.month == m then last.amount else 0
  {
    assert (front + [last])[..|front|] == front;
  }

  lemma {:induction false} TotalSame(xs: seq<nat>, x: nat)
    requires forall i :: 0 <= i < |xs| ==> xs[i] == x
    ensures Total(xs) == |xs| * x
    decreases |xs|
  {
    if xs != [] { TotalSame(xs[..|xs| - 1], x); }
  }

  /** The bound is reached on both sides: half a cent a month rounds up to twelve cents of six, a
      stroop less rounds down to none. */
  lemma SixCentsIsTight(n: nat, amount: nat)
    requires n == MONTHS && (amount == 50_000 || amount == 49_999)
    ensures var cs := EveryMonth(n, amount);
      RealMonths(cs) && Total(AllCents(Months(cs))) - Cents(Sum(cs)) == if amount == 50_000 then 6 else -6
  {
    hide EveryMonth, Sum, SumOfMonth, Total;
    var cs := EveryMonth(n, amount);
    forall m: nat | m < n ensures Months(cs)[m] == amount { EveryMonthSums(n, amount, m); }
    EveryMonthSums(n, amount, 0);
    TotalSame(AllCents(Months(cs)), Cents(amount));
    assert Sum(cs) == 12 * amount && Total(AllCents(Months(cs))) == 12 * Cents(amount);
  }

  // ---- The store-backed operations ---------------------------------------------------------------

  class EarningsStore {
    var ledger: Ledger

    constructor ()
      ensures ledger == Exec([]) && Inv(ledger)
    {
      ledger := Ledger(map[], map[], map[], map[]);
    }

    /** The store fails after `steps` of the three writes of a record and its indexes. */
    method IndexWorkerYear(worker: WorkerId, year: int, steps: nat)
      modifies this
      ensures ledger == IndexedPart(old(ledger), Key(worker, year), steps)
    {
      if steps < 2 { return; }
      var years := Get(ledger.years, worker);
      if year !in years { ledger := ledger.(years := ledger.years[worker := InsertYear(years, year)]); }
      if steps < 3 { return; }
      var earners := Get(ledger.earners, year);
      if worker !in earners { ledger := ledger.(earners := ledger.earners[year := earners + [worker]]); }
    }

    method AppendCredit(k: Key, c: Credit) returns (added: bool)
      modifies this
      ensures added <==> !HasCredit(old(ledger), k, c.questionId)
      ensures ledger == if added then old(ledger).(credits := old(ledger).credits[k := Get(old(ledger).credits, k) + [c]])
                        else old(ledger)
    {
      var existing := Get(ledger.credits, k);
      if exists r :: r in existing && r.questionId == c.questionId { return false; }
      ledger := ledger.(credits := ledger.credits[k := existing + [c]]);
      return true;
    }

    method CreditOne(worker: WorkerId, c: Credit, steps: nat)
      modifies this
      ensures ledger == CreditedPart(old(ledger), worker, c, steps)
    {
      if steps == 0 { return; }
      var added := AppendCredit(Key(worker, c.at.year), c);
      if added { IndexWorkerYear(worker, c.at.year, steps); }
    }

    /** One credit per matching worker of the question's year; the store throws while that of
        `workers[upTo]` is being recorded, after `steps` of its writes. */
    method RecordWorkerCredits(q: nat, workers: seq<WorkerId>, amount: nat, at: Moment, upTo: nat, steps: nat)
      requires Inv(ledger)
      modifies this
      ensures Inv(ledger) && ledger == RecordedPart(old(ledger), q, workers, amount, at, upTo, steps)
    {
      hide Inv, AllCredited, CreditedPart, Credited;
      RecordedKeeps(ledger, q, workers, amount, at, upTo, steps);
      var share := WorkerShare(amount, |workers|);
      if share <= 0 { return; }
      ghost var before := ledger;
      var c := Credit(q, share, at);
      AllCreditedNone(before, workers, c);
      for i := 0 to |workers|
        invariant ledger == AllCredited(before, workers[..i], c) && i <= upTo
      {
        AllCreditedNext(before, workers, i, c);
        CreditedIsWhole(ledger, workers[i], c);
        if i == upTo {
          CreditOne(workers[i], c, steps);
          return;
        }
        CreditOne(workers[i], c, 3);
      }
      assert workers[..|workers|] == workers;
    }

    method RecordWorkerWithdrawal(worker: WorkerId, w: Withdrawal, steps: nat)
      requires Inv(ledger)
      modifies this
      ensures Inv(ledger) && ledger == Withdrawn(old(ledger), worker, w, steps)
    {
      WithdrawnKeeps(ledger, worker, w, steps);
      hide Inv;
      if steps == 0 { return; }
      var k := Key(worker, w.at.year);
      var existing := Get(ledger.withdrawals, k);
      if exists r :: r in existing && r.txHash == w.txHash { return; }
      ledger := ledger.(withdrawals := ledger.withdrawals[k := existing + [w]]);
      IndexWorkerYear(worker, w.at.year, steps);
    }
  }

  lemma AllCreditedNone(s: Ledger, workers: seq<WorkerId>, c: Credit)
    ensures AllCredited(s, workers[..0], c) == s
  {}

  lemma AllCreditedNext(s: Ledger, workers: seq<WorkerId>, i: nat, c: Credit)
    requires i < |workers|
    ensures AllCredited(s, workers[..i + 1], c) == Credited(AllCredited(s, workers[..i], c), workers[i], c)
  {
    assert workers[..i + 1][..i] == workers[..i];
  }
}
