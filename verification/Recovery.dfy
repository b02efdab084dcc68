/** Disaster recovery: reading the on-chain index of pending questions, and the sweep that refunds
    those nothing local can settle any more. */
module Recovery {
  import opened Common

  type Id = nat

  datatype ChainStatus = Pending | Resolved | Refunded

  datatype JobStatus = Holding | AwaitingWorkers | Reconciling | Cancelling | JobSettled | Other

  datatype Outcome = RefundPendingTimeout | AnyOther

  datatype Question = Question(status: ChainStatus, createdAt: Option<nat>)

  datatype Job = Job(status: JobStatus, outcome: Outcome, updatedAt: Option<nat>, createdAt: Option<nat>)

  datatype Action = Skip | Refund | Flag

  datatype Reason =
    | NotPending | Inflight | StaleInflight | FailedSettlement | Inconsistent | AwaitingSubmission | TooYoung | Orphaned

  datatype Options = Options(minAgeLedgers: nat, staleInflightMs: nat, maxRefundsPerSweep: nat, pageSize: nat, dryRun: bool)

  const DEFAULT_SWEEP_OPTIONS := Options(12, 30 * 60 * 1000, 50, 100, false)

  // ---- classifyPendingQuestion -------------------------------------------------------------------

  predicate InFlight(s: JobStatus) { s.Holding? || s.AwaitingWorkers? || s.Reconciling? || s.Cancelling? }

  function LastTouched(j: Job): nat {
    if j.updatedAt.Some? then j.updatedAt.value else if j.createdAt.Some? then j.createdAt.value else 0
  }

  function Classify(question: Option<Question>, job: Option<Job>, stash: bool, ledger: Option<int>, o: Options, now: int)
    : (Action, Reason)
  {
    if question.None? || !question.value.status.Pending? then (Skip, NotPending)
    else
      match job
      case Some(j) =>
        if InFlight(j.status) then
          if now - LastTouched(j) >= o.staleInflightMs then (Refund, StaleInflight) else (Skip, Inflight)
        else if j.status.JobSettled? then
          if j.outcome.RefundPendingTimeout? then (Refund, FailedSettlement) else (Flag, Inconsistent)
        else (Flag, Inconsistent)
      case None =>
        if stash then (Skip, AwaitingSubmission)
        else if ledger.Some? && question.value.createdAt.Some?
                && ledger.value - question.value.createdAt.value < o.minAgeLedgers then (Skip, TooYoung)
        else (Refund, Orphaned)
  }

  /** Something local can still settle the question, or says it did. */
  predicate Served(job: Option<Job>, stash: bool, o: Options, now: int) {
    match job
    case Some(j) =>
      || (InFlight(j.status) && now - LastTouched(j) < o.staleInflightMs)
      || (!InFlight(j.status) && !(j.status.JobSettled? && j.outcome.RefundPendingTimeout?))
    case None => stash
  }

  /** A refund is only ever for a question that is pending on chain and that nothing local serves; the
      converse holds but for orphans too young to judge. */
  lemma RefundsTheUnserved(q: Option<Question>, job: Option<Job>, stash: bool, ledger: Option<int>, o: Options, now: int)
    ensures var (action, reason) := Classify(q, job, stash, ledger, o, now);
      && (action.Refund? ==> q.Some? && q.value.status.Pending? && !Served(job, stash, o, now))
      && (q.Some? && q.value.status.Pending? && !Served(job, stash, o, now) ==> action.Refund? || reason.TooYoung?)
  {}

  // ---- snapshotPendingIds ------------------------------------------------------------------------

  /** A question arrives at the end of the index, or leaves it by swap-remove: the last one takes the
      place that becomes free. */
  datatype Change = Arrive(id: Id) | Settle(at: nat)

  function Apply(index: seq<Id>, c: Change): seq<Id> {
    match c
    case Arrive(id) => if id in index then index else index + [id]
    case Settle(p) => if p < |index| then index[p := index[|index| - 1]][..|index| - 1] else index
  }

  function ApplyAll(index: seq<Id>, cs: seq<Change>): seq<Id>
    decreases |cs|
  {
    if cs == [] then index else Apply(ApplyAll(index, cs[..|cs| - 1]), cs[|cs| - 1])
  }

  /** What the k-th read of the chain finds, and what changes before the next. */
  type Chain = nat -> seq<Id>
  type Changes = nat -> seq<Change>

  predicate Distinct(index: seq<Id>) { forall i, j :: 0 <= i < j < |index| ==> index[i] != index[j] }

  ghost predicate Evolves(chain: Chain, changes: Changes) {
    Distinct(chain(0)) && forall k: nat :: chain(k + 1) == ApplyAll(chain(k), changes(k))
  }

  predicate Settles(cs: seq<Change>) { forall c :: c in cs ==> c.Settle? }

  predicate Arrives(cs: seq<Change>) { forall c :: c in cs ==> c.Arrive? }

  /** Between two reads questions only settle, or only arrive. */
  ghost predicate OneWay(changes: Changes, from: nat, to: nat) {
    || (forall k: nat :: from <= k < to ==> Settles(changes(k)))
    || (forall k: nat :: from <= k < to ==> Arrives(changes(k)))
  }

  function Page(index: seq<Id>, start: nat, size: nat): seq<Id> {
    if start >= |index| then [] else if start + size <= |index| then index[start..start + size] else index[start..]
  }

  function Ids(s: seq<Id>): set<Id> { set x | x in s }

  /** The ids of the pages from `start` up to `count`, the k-th read on. */
  function ReadPages(chain: Chain, k: nat, start: nat, count: nat, size: nat): set<Id>
    requires size > 0
    decreases count - start
  {
    if start >= count then {} else Ids(Page(chain(k), start, size)) + ReadPages(chain, k + 1, start + size, count, size)
  }

  function Reads(start: nat, count: nat, size: nat): nat
    requires size > 0
    decreases count - start
  {
    if start >= count then 0 else 1 + Reads(start + size, count, size)
  }

  datatype Snapshot = Snapshot(ids: set<Id>, count: nat, consistent: bool, first: nat, last: nat)

  lemma NextPage(chain: Chain, k: nat, start: nat, count: nat, size: nat, ids: set<Id>)
    requires size > 0 && start < count
    ensures ids + ReadPages(chain, k, start, count, size)
         == (ids + Ids(Page(chain(k), start, size))) + ReadPages(chain, k + 1, start + size, count, size)
    ensures Reads(start, count, size) == 1 + Reads(start + size, count, size)
  {}

  /** One scan: every page in turn, each a read of its own. */
  method ScanPages(chain: Chain, first: nat, count: nat, size: nat) returns (ids: set<Id>, next: nat)
    requires size > 0
    ensures ids == ReadPages(chain, first, 0, count, size) && next == first + Reads(0, count, size)
  {
    hide Ids, Page;
    ids, next := {}, first;
    var start := 0;
    while start < count
      invariant ReadPages(chain, first, 0, count, size) == ids + ReadPages(chain, next, start, count, size)
      invariant first + Reads(0, count, size) == next + Reads(start, count, size)
      decreases count - start
    {
      NextPage(chain, next, start, count, size, ids);
      ids := ids + Ids(Page(chain(next), start, size));
      start, next := start + size, next + 1;
    }
  }

  /** Pages through the index until the count is the same before and after, at most `attempts` times. */
  method SnapshotPendingIds(chain: Chain, changes: Changes, size: nat, attempts: nat) returns (s: Snapshot)
    requires size > 0 && Evolves(chain, changes)
    ensures s.consistent ==>
      && s.count == |chain(s.first)| == |chain(s.last)|
      && s.last == s.first + 1 + Reads(0, s.count, size)
      && s.ids == ReadPages(chain, s.first + 1, 0, s.count, size)
    ensures s.consistent && OneWay(changes, s.first, s.last) ==> s.ids == Ids(chain(s.last))
  {
    hide ReadPages, Reads, Evolves, OneWay;
    var k := 0;
    s := Snapshot({}, 0, false, 0, 0);
    for attempt := 0 to attempts
      invariant !s.consistent
    {
      var first := k;
      var before := |chain(first)|;
      var ids, last := ScanPages(chain, first + 1, before, size);
      var after := |chain(last)|;
      s := Snapshot(ids, after, before == after, first, last);
      if before == after {
        if OneWay(changes, first, last) { SnapshotIsWhole(chain, changes, first, last, size); }
        return s;
      }
      k := last + 1;
    }
  }

  // ---- How the index moves -----------------------------------------------------------------------

  lemma {:induction false} SettlingShrinks(index: seq<Id>, cs: seq<Change>)
    requires Settles(cs)
    ensures |ApplyAll(index, cs)| <= |index|
    ensures |ApplyAll(index, cs)| == |index| ==> ApplyAll(index, cs) == index
    decreases |cs|
  {
    if cs != [] {
      assert cs[|cs| - 1] in cs && forall c :: c in cs[..|cs| - 1] ==> c in cs;
      SettlingShrinks(index, cs[..|cs| - 1]);
    }
  }

  lemma {:induction false} ArrivingGrows(index: seq<Id>, cs: seq<Change>)
    requires Arrives(cs)
    ensures |ApplyAll(index, cs)| >= |index|
    ensures |ApplyAll(index, cs)| == |index| ==> ApplyAll(index, cs) == index
    decreases |cs|
  {
    if cs != [] {
      assert cs[|cs| - 1] in cs && forall c :: c in cs[..|cs| - 1] ==> c in cs;
      ArrivingGrows(index, cs[..|cs| - 1]);
    }
  }

  lemma {:induction false} ShrinkingIsMonotone(chain: Chain, changes: Changes, i: nat, j: nat)
    requires Evolves(chain, changes) && i <= j && forall k: nat :: i <= k < j ==> Settles(changes(k))
    ensures |chain(j)| <= |chain(i)| && (|chain(j)| == |chain(i)| ==> chain(j) == chain(i))
    decreases j - i
  {
    if i < j {
      ShrinkingIsMonotone(chain, changes, i, j - 1);
      SettlingShrinks(chain(j - 1), changes(j - 1));
      assert chain(j - 1 + 1) == ApplyAll(chain(j - 1), changes(j - 1));
    }
  }

  lemma {:induction false} GrowingIsMonotone(chain: Chain, changes: Changes, i: nat, j: nat)
    requires Evolves(chain, changes) && i <= j && forall k: nat :: i <= k < j ==> Arrives(changes(k))
    ensures |chain(j)| >= |chain(i)| && (|chain(j)| == |chain(i)| ==> chain(j) == chain(i))
    decreases j - i
  {
    if i < j {
      GrowingIsMonotone(chain, changes, i, j - 1);
      ArrivingGrows(chain(j - 1), changes(j - 1));
      assert chain(j - 1 + 1) == ApplyAll(chain(j - 1), changes(j - 1));
    }
  }

  /** Equal counts at both ends mean nothing changed in between. */
  lemma EqualCountsMeanStill(chain: Chain, changes: Changes, first: nat, last: nat, k: nat)
    requires Evolves(chain, changes) && first <= k <= last && OneWay(changes, first, last)
    requires |chain(first)| == |chain(last)|
    ensures chain(k) == chain(first)
  {
    hide Evolves;
    if forall k: nat :: first <= k < last ==> Settles(changes(k)) {
      ShrinkingIsMonotone(chain, changes, first, k);
      ShrinkingIsMonotone(chain, changes, k, last);
    } else {
      GrowingIsMonotone(chain, changes, first, k);
      GrowingIsMonotone(chain, changes, k, last);
    }
  }

  /** The ids from `start` on: a page of them, and the rest. */
  lemma PageAndRest(index: seq<Id>, start: nat, size: nat)
    requires size > 0 && start < |index|
    ensures Ids(index[start..]) == Ids(Page(index, start, size)) + if start + size >= |index| then {} else Ids(index[start + size..])
  {
    if start + size < |index| {
      assert index[start..] == index[start..start + size] + index[start + size..];
    }
  }

  lemma {:induction false} PagesCover(chain: Chain, index: seq<Id>, k: nat, start: nat, size: nat)
    requires size > 0 && forall j: nat :: k <= j < k + Reads(start, |index|, size) ==> chain(j) == index
    ensures ReadPages(chain, k, start, |index|, size) == if start >= |index| then {} else Ids(index[start..])
    decreases |index| - start
  {
    hide Ids, Page;
    if start < |index| {
      assert chain(k) == index;
      PagesCover(chain, index, k + 1, start + size, size);
      PageAndRest(index, start, size);
    }
  }

  /** While the index only shrinks, or only grows, during a scan, equal counts before and after mean
      the snapshot is the whole pending set. */
  lemma SnapshotIsWhole(chain: Chain, changes: Changes, first: nat, last: nat, size: nat)
    requires Evolves(chain, changes) && size > 0 && last == first + 1 + Reads(0, |chain(first)|, size) && |chain(last)| == |chain(first)|
    requires OneWay(changes, first, last)
    ensures ReadPages(chain, first + 1, 0, |chain(first)|, size) == Ids(chain(first)) == Ids(chain(last))
  {
    var index := chain(first);
    forall j: nat | first <= j <= last ensures chain(j) == index { EqualCountsMeanStill(chain, changes, first, last, j); }
    PagesCover(chain, index, first + 1, 0, size);
    assert index[0..] == index;
    if index == [] { assert Ids(index) == {}; }
  }

  // ---- What a scan finds in an index that moves under it -----------------------------------------

  function PosOf(index: seq<Id>, x: Id): (p: nat)
    ensures p <= |index| && (p < |index| <==> x in index) && (p < |index| ==> index[p] == x)
    ensures forall j :: 0 <= j < p ==> index[j] != x
  {
    if index == [] then 0 else if index[0] == x then 0 else 1 + PosOf(index[1..], x)
  }

  lemma Unique(index: seq<Id>, x: Id, p: nat)
    requires Distinct(index) && p < |index| && index[p] == x
    ensures PosOf(index, x) == p
  {}

  /** No change moves a question further back, and none makes it appear twice. */
  lemma NobodyMovesBack(index: seq<Id>, c: Change, x: Id)
    requires Distinct(index)
    ensures Distinct(Apply(index, c))
    ensures x in index && x in Apply(index, c) ==> PosOf(Apply(index, c), x) <= PosOf(index, x)
  {
    var after := Apply(index, c);
    if x in index && x in after {
      var p := PosOf(index, x);
      if p < |after| && after[p] == x { Unique(after, x, p); }
    }
  }

  lemma {:induction false} NobodyMovesBackAll(index: seq<Id>, cs: seq<Change>, x: Id)
    requires Distinct(index)
    ensures Distinct(ApplyAll(index, cs))
    ensures (forall n :: 0 <= n <= |cs| ==> x in ApplyAll(index, cs[..n])) ==> PosOf(ApplyAll(index, cs), x) <= PosOf(index, x)
    decreases |cs|
  {
    if cs != [] {
      var front := cs[..|cs| - 1];
      NobodyMovesBackAll(index, front, x);
      NobodyMovesBack(ApplyAll(index, front), cs[|cs| - 1], x);
      assert cs[..|cs|] == cs && forall n :: 0 <= n <= |front| ==> front[..n] == cs[..n];
    }
  }

  /** Question `x` is pending from read `from` on, for `rounds` reads. */
  ghost predicate Stays(chain: Chain, changes: Changes, x: Id, from: nat, rounds: nat) {
    forall k: nat, n: nat :: from <= k < from + rounds && n <= |changes(k)| ==> x in ApplyAll(chain(k), changes(k)[..n])
  }

  /** Some swap-remove takes it from a page still to be read to one that has been. */
  predicate MovedBehind(chain: Chain, k: nat, start: nat, count: nat, size: nat, x: Id)
    requires size > 0
    decreases count - start
  {
    start + size < count
    && (PosOf(chain(k), x) >= start + size > PosOf(chain(k + 1), x) || MovedBehind(chain, k + 1, start + size, count, size, x))
  }

  lemma {:induction false} DistinctAt(chain: Chain, changes: Changes, k: nat)
    requires Evolves(chain, changes)
    ensures Distinct(chain(k))
  {
    if k > 0 {
      DistinctAt(chain, changes, k - 1);
      NobodyMovesBackAll(chain(k - 1), changes(k - 1), 0);
      assert chain(k - 1 + 1) == ApplyAll(chain(k - 1), changes(k - 1));
    }
  }

  lemma NextRead(chain: Chain, changes: Changes, x: Id, k: nat, rounds: nat)
    requires Evolves(chain, changes) && Stays(chain, changes, x, k, rounds) && rounds > 0
    ensures x in chain(k) && PosOf(chain(k + 1), x) <= PosOf(chain(k), x) && Distinct(chain(k))
    ensures Stays(chain, changes, x, k + 1, rounds - 1)
  {
    DistinctAt(chain, changes, k);
    NobodyMovesBackAll(chain(k), changes(k), x);
    assert changes(k)[..0] == [] && changes(k)[..|changes(k)|] == changes(k);
    assert x in ApplyAll(chain(k), changes(k)[..0]);
    forall n | 0 <= n <= |changes(k)| ensures x in ApplyAll(chain(k), changes(k)[..n]) { var m: nat := n; }
  }

  lemma OnPage(index: seq<Id>, start: nat, size: nat, x: Id)
    requires Distinct(index) && x in index
    ensures x in Ids(Page(index, start, size)) <==> start <= PosOf(index, x) < start + size
  {
    var page, p := Page(index, start, size), PosOf(index, x);
    if start <= p < start + size { assert page[p - start] == x; }
    if x in page {
      var i :| 0 <= i < |page| && page[i] == x;
      Unique(index, x, start + i);
    }
  }

  /** What is behind the scan stays behind it. */
  lemma {:induction false} BehindIsLost(chain: Chain, changes: Changes, k: nat, start: nat, count: nat, size: nat, x: Id)
    requires Evolves(chain, changes) && size > 0 && Stays(chain, changes, x, k, Reads(start, count, size))
    requires start < count ==> PosOf(chain(k), x) < start
    ensures x !in ReadPages(chain, k, start, count, size) && !MovedBehind(chain, k, start, count, size, x)
    decreases count - start
  {
    hide Evolves, Stays, Distinct, Ids, Page;
    if start < count {
      NextRead(chain, changes, x, k, Reads(start, count, size));
      OnPage(chain(k), start, size, x);
      BehindIsLost(chain, changes, k + 1, start + size, count, size, x);
    } else {
      NothingRead(chain, k, start, count, size, x);
    }
  }

  lemma NothingRead(chain: Chain, k: nat, start: nat, count: nat, size: nat, x: Id)
    requires size > 0 && start >= count
    ensures x !in ReadPages(chain, k, start, count, size) && !MovedBehind(chain, k, start, count, size, x)
  {}

  /** Whatever settles and arrives while the pages are read, in any mixture, a question that was in the
      index when it was counted and stays pending is found exactly unless it is moved behind the scan. */
  lemma {:induction false} FoundUnlessMovedBehind(chain: Chain, changes: Changes, k: nat, start: nat, count: nat, size: nat, x: Id)
    requires Evolves(chain, changes) && size > 0 && Stays(chain, changes, x, k, Reads(start, count, size))
    requires start <= PosOf(chain(k), x) < count
    ensures x in ReadPages(chain, k, start, count, size) <==> !MovedBehind(chain, k, start, count, size, x)
    decreases count - start
  {
    hide Evolves, Stays, Distinct, Ids, Page;
    NextRead(chain, changes, x, k, Reads(start, count, size));
    OnPage(chain(k), start, size, x);
    if PosOf(chain(k), x) < start + size {
      AheadOnly(chain, changes, k, start, count, size, x);
    } else if PosOf(chain(k + 1), x) >= start + size {
      FoundUnlessMovedBehind(chain, changes, k + 1, start + size, count, size, x);
    } else {
      BehindIsLost(chain, changes, k + 1, start + size, count, size, x);
    }
  }

  /** A question on the page being read cannot be moved behind the scan later on. */
  lemma AheadOnly(chain: Chain, changes: Changes, k: nat, start: nat, count: nat, size: nat, x: Id)
    requires Evolves(chain, changes) && size > 0 && start < count && Stays(chain, changes, x, k, Reads(start, count, size))
    requires PosOf(chain(k), x) < start + size
    ensures !MovedBehind(chain, k, start, count, size, x)
  {
    hide Evolves, Stays, Distinct;
    NextRead(chain, changes, x, k, Reads(start, count, size));
    BehindIsLost(chain, changes, k + 1, start + size, count, size, x);
  }

  /** The counts need not show it: one question settles and another arrives during a scan of pages of
      one, the counts agree, and the question that was moved is missing from the snapshot. */
  lemma MixedChangesCancel(a: Id, b: Id, c: Id, chain: Chain, changes: Changes)
    requires a != b && b != c && a != c && Evolves(chain, changes)
    requires chain(0) == [a, b] && changes(0) == [] && changes(1) == [Settle(0)] && changes(2) == [Arrive(c)]
    ensures |chain(0)| == |chain(3)| && 3 == 0 + 1 + Reads(0, 2, 1)
    ensures b in chain(3) && b !in ReadPages(chain, 1, 0, 2, 1)
  {
    assert chain(0 + 1) == ApplyAll(chain(0), changes(0));
    assert chain(1 + 1) == ApplyAll(chain(1), changes(1));
    assert chain(2 + 1) == ApplyAll(chain(2), changes(2));
    assert chain(1) == [a, b] && chain(2) == [b] && chain(3) == [b, c];
    assert Page(chain(1), 0, 1) == [a] && Page(chain(2), 1, 1) == [];
    assert ReadPages(chain, 3, 2, 2, 1) == {};
    assert ReadPages(chain, 2, 1, 2, 1) == {};
  }

  // ---- sweepPendingQuestions ---------------------------------------------------------------------

  /** The world at the k-th call: chain and store; a call to something that is down throws. */
  datatype World = World(questions: map<Id, Question>, jobs: map<Id, Job>, stashes: set<Id>, now: int, down: bool)

  datatype ItemResult = Nothing | Deferred | AlreadySettled | RefundSent | Failed

  datatype Item = Item(id: Id, action: Option<Action>, result: ItemResult)

  /** A refund() call: the classification read the chain at `readAt` and the store right after. */
  datatype Call = Call(id: Id, readAt: nat, calledAt: nat)

  function Find<V>(m: map<Id, V>, id: Id): Option<V> { if id in m then Some(m[id]) else None }

  /** What the sweep decides on, for a question read at `k`. */
  function Judge(world: nat -> World, k: nat, id: Id, ledger: Option<int>, o: Options): (Action, Reason) {
    Classify(Find(world(k).questions, id), Find(world(k + 1).jobs, id), id in world(k + 1).stashes, ledger, o, world(k + 1).now)
  }

  predicate PendingAt(w: World, id: Id) { id in w.questions && w.questions[id].status.Pending? }

  /** A refund is justified: judged unserved, and read pending once more by the call just before. */
  ghost predicate Justified(world: nat -> World, ledger: Option<int>, o: Options, c: Call) {
    && !o.dryRun
    && Judge(world, c.readAt, c.id, ledger, o).0.Refund?
    && !Served(Find(world(c.readAt + 1).jobs, c.id), c.id in world(c.readAt + 1).stashes, o, world(c.readAt + 1).now)
    && c.calledAt == c.readAt + 3
    && PendingAt(world(c.readAt + 2), c.id)
  }

  predicate DistinctIds(ids: seq<Id>) { forall i, j :: 0 <= i < j < |ids| ==> ids[i] != ids[j] }

  /** Nothing is left undone but what was not to be refunded, or not in this run. */
  predicate Handled(item: Item, o: Options) {
    item.result.Nothing? <==> item.action.Some? && (!item.action.value.Refund? || o.dryRun)
  }

  /** One item: at most one attempt, and what it came to. */
  method SweepOne(id: Id, world: nat -> World, k: nat, ledger: Option<int>, o: Options, attempted: nat)
    returns (item: Item, call: Option<Call>, more: nat, next: nat)
    ensures item.id == id && next > k && attempted <= more <= attempted + 1
    ensures more > attempted ==> !o.dryRun && attempted < o.maxRefundsPerSweep && item.action == Some(Refund)
    ensures call.Some? ==> more == attempted + 1 && call.value.id == id && k <= call.value.readAt && call.value.calledAt < next
                           && Justified(world, ledger, o, call.value)
    ensures item.result.Deferred? ==> attempted >= o.maxRefundsPerSweep
    ensures item.action == Some(Refund) && !o.dryRun && !item.result.Deferred? ==> more == attempted + 1
    ensures item.action.None? ==> item.result.Failed?
    ensures item.action.Some? ==> item.action.value == Judge(world, k, id, ledger, o).0
    ensures Handled(item, o) && (item.result.RefundSent? <==> call.Some? && !world(call.value.calledAt).down)
  {
    item, call, more, next := Item(id, None, Failed), None, attempted, k + 1;
    if world(k).down { return; }
    next := k + 2;
    if world(k + 1).down { return; }
    var (action, reason) := Judge(world, k, id, ledger, o);
    item := Item(id, Some(action), Nothing);
    if !action.Refund? || o.dryRun { return; }
    if attempted >= o.maxRefundsPerSweep {
      item := item.(result := Deferred);
      return;
    }
    more, next := attempted + 1, k + 3;
    if world(k + 2).down {
      item := item.(result := Failed);
      return;
    }
    if !PendingAt(world(k + 2), id) {
      item := item.(result := AlreadySettled);
      return;
    }
    RefundsTheUnserved(Find(world(k).questions, id), Find(world(k + 1).jobs, id), id in world(k + 1).stashes, ledger, o,
                       world(k + 1).now);
    call, next := Some(Call(id, k, k + 3)), k + 4;
    item := item.(result := if world(k + 3).down then Failed else RefundSent);
  }

  ghost predicate Swept(ids: seq<Id>, items: seq<Item>, calls: seq<Call>, attempted: nat, o: Options) {
    && |items| == |ids| && (forall i :: 0 <= i < |ids| ==> items[i].id == ids[i])
    && |calls| <= attempted <= o.maxRefundsPerSweep && (o.dryRun ==> attempted == 0)
    && (forall i :: 0 <= i < |items| && items[i].result.Deferred? ==> attempted == o.maxRefundsPerSweep)
    && (forall i :: 0 <= i < |items| ==> Handled(items[i], o))
    && (forall c :: c in calls ==> c.id in ids)
    && (DistinctIds(ids) ==> forall i, j :: 0 <= i < j < |calls| ==> calls[i].id != calls[j].id)
  }

  lemma SweptNext(ids: seq<Id>, items: seq<Item>, calls: seq<Call>, attempted: nat, o: Options, item: Item,
                  call: Option<Call>, more: nat)
    requires Swept(ids, items, calls, attempted, o) && attempted <= more <= attempted + 1
    requires more > attempted ==> !o.dryRun && attempted < o.maxRefundsPerSweep
    requires call.Some? ==> more == attempted + 1 && call.value.id == item.id
    requires item.result.Deferred? ==> attempted >= o.maxRefundsPerSweep
    requires Handled(item, o)
    ensures Swept(ids + [item.id], items + [item], calls + (if call.Some? then [call.value] else []), more, o)
  {
    var all, after := ids + [item.id], calls + (if call.Some? then [call.value] else []);
    if DistinctIds(all) {
      assert DistinctIds(ids) by { assert forall i :: 0 <= i < |ids| ==> all[i] == ids[i]; }
      assert item.id !in ids by { NotAmong(ids, item.id); }
      forall i, j | 0 <= i < j < |after| ensures after[i].id != after[j].id {
        if j == |calls| { assert calls[i] in calls; }
      }
    }
    forall c | c in after ensures c.id in all { if c in calls { assert c.id in ids; } }
  }

  lemma NotAmong(ids: seq<Id>, id: Id)
    requires DistinctIds(ids + [id])
    ensures id !in ids
  {
    var all := ids + [id];
    forall i | 0 <= i < |ids| ensures ids[i] != id { assert all[i] != all[|ids|]; }
  }

  /** One sweep over the ids of a snapshot: every id gets an item; at most the configured number of
      refunds is attempted, none in a dry run; each is justified and for a question of its own; and a
      refund is put off only when the limit is used up. */
  method SweepIds(ids: seq<Id>, world: nat -> World, ledger: Option<int>, o: Options)
    returns (items: seq<Item>, calls: seq<Call>, attempted: nat)
    ensures Swept(ids, items, calls, attempted, o)
    ensures forall c :: c in calls ==> Justified(world, ledger, o, c)
    ensures forall i, j :: 0 <= i < j < |calls| ==> calls[i].calledAt < calls[j].readAt
  {
    hide Swept, Justified;
    items, calls, attempted := [], [], 0;
    var k := 0;
    NothingSwept(o);
    assert ids[..0] == [];
    for i := 0 to |ids|
      invariant Swept(ids[..i], items, calls, attempted, o)
      invariant forall c :: c in calls ==> Justified(world, ledger, o, c) && c.calledAt < k
      invariant forall i, j :: 0 <= i < j < |calls| ==> calls[i].calledAt < calls[j].readAt
    {
      var item, call, more, next := SweepOne(ids[i], world, k, ledger, o, attempted);
      SweptNext(ids[..i], items, calls, attempted, o, item, call, more);
      assert ids[..i + 1] == ids[..i] + [item.id];
      assert forall j :: 0 <= j < |calls| ==> calls[j] in calls;
      items := items + [item];
      calls := calls + if call.Some? then [call.value] else [];
      attempted, k := more, next;
    }
    assert ids[..|ids|] == ids;
  }

  lemma NothingSwept(o: Options)
    ensures Swept([], [], [], 0, o)
  {}

  /** The ids of a set, each once, in some order. */
  method Listed(ids: set<Id>) returns (list: seq<Id>)
    ensures DistinctIds(list) && Ids(list) == ids && |list| == |ids|
  {
    list := [];
    var rest := ids;
    while rest != {}
      invariant DistinctIds(list) && |list| + |rest| == |ids| && rest <= ids && forall x :: x in list <==> x in ids && x !in rest
      decreases |rest|
    {
      var id :| id in rest;
      list, rest := list + [id], rest - {id};
    }
  }

  const SNAPSHOT_ATTEMPTS := 3

  predicate HasItem(items: seq<Item>, id: Id) { exists i :: 0 <= i < |items| && items[i].id == id }

  lemma ItemsOfIds(ids: seq<Id>, items: seq<Item>, calls: seq<Call>, attempted: nat, o: Options, id: Id)
    requires Swept(ids, items, calls, attempted, o)
    ensures HasItem(items, id) <==> id in Ids(ids)
  {
    if id in Ids(ids) {
      var i :| 0 <= i < |ids| && ids[i] == id;
      assert items[i].id == id;
    }
  }

  /** One sweep. On a snapshot that stayed inconsistent it does nothing at all; otherwise every id the
      snapshot found gets an item, which is every pending question if the index moved only one way. */
  method SweepPendingQuestions(chain: Chain, changes: Changes, world: nat -> World, ledger: Option<int>, o: Options)
    returns (snapshot: Snapshot, items: seq<Item>, calls: seq<Call>, attempted: nat)
    requires o.pageSize > 0 && Evolves(chain, changes)
    ensures !snapshot.consistent ==> items == [] && calls == [] && attempted == 0
    ensures snapshot.consistent ==> forall id :: HasItem(items, id) <==> id in snapshot.ids
    ensures snapshot.consistent && OneWay(changes, snapshot.first, snapshot.last) ==>
      forall id :: HasItem(items, id) <==> id in chain(snapshot.last)
    ensures exists ids :: DistinctIds(ids) && Swept(ids, items, calls, attempted, o)
    ensures forall c :: c in calls ==> Justified(world, ledger, o, c)
    ensures forall i, j :: 0 <= i < j < |calls| ==> calls[i].calledAt < calls[j].readAt
  {
    hide Swept, Justified, Evolves, OneWay, ReadPages, Reads, HasItem, DistinctIds;
    snapshot := SnapshotPendingIds(chain, changes, o.pageSize, SNAPSHOT_ATTEMPTS);
    items, calls, attempted := [], [], 0;
    var ids := Listed(if snapshot.consistent then snapshot.ids else {});
    if snapshot.consistent {
      items, calls, attempted := SweepIds(ids, world, ledger, o);
      forall id ensures HasItem(items, id) <==> id in snapshot.ids { ItemsOfIds(ids, items, calls, attempted, o, id); }
    } else {
      NothingSwept(o);
    }
    assert DistinctIds(ids) && Swept(ids, items, calls, attempted, o);
  }
}
