/** Where the settlement promises end: concrete runs that break them once their condition is dropped,
    and the lift from one question to all of them. */
module SettlementLimits {
  import opened Common
  import opened Settlement
  import opened SettlementInvariant

  const QUIET := Choice(false, false, false, false, false, false, false, false, false, [], [])
  const OPEN_QUESTION := Args(false, false, false, false)

  /** One more event at the end of a run. */
  lemma Then(es: seq<Event>, w: World, e: Event) returns (es': seq<Event>, w': World)
    requires w == Exec(Init(), es)
    ensures es' == es + [e] && w' == Step(w, e) && w' == Exec(Init(), es')
  {
    es', w' := es + [e], Step(w, e);
    assert es'[..|es'| - 1] == es;
  }

  lemma Acts(es: seq<Event>, w: World, p: Pid, c: Choice) returns (es': seq<Event>, w': World)
    requires w == Exec(Init(), es) && p in w.procs
    ensures w' == Exec(Init(), es') && w'.next == w.next
    ensures var m := ActStep(w.sh, p, w.procs[p], c); w'.sh == m.sh && w'.procs == w.procs[p := m.s]
  {
    hide Exec;
    es', w' := Then(es, w, Act(p, c));
  }

  /** An unheld question whose quorum is being collected by process 0. */
  predicate Collects(w: World, a: Args) {
    && w.procs.Keys == {0} && w.next == 1
    && w.procs[0].at == Work(Collecting) && w.procs[0].path == Fulfilling && w.procs[0].a == a && !w.procs[0].flag
    && w.sh.job == Job(AwaitingWorkers, NoOutcome, false) && w.sh.ownerKey == a.apiKey
    && w.sh.chain == Pending && w.sh.sent == {} && w.sh.settlements == 0 && w.sh.books == NOTHING
    && w.sh.core.restored == 0 && w.sh.falls == NO_FALLS && w.sh.races == NO_RACES && !w.sh.threw
  }

  lemma NoEvents()
    ensures Exec(Init(), []) == Init()
  {}

  lemma ReachCollecting(a: Args) returns (es: seq<Event>, w: World)
    requires !a.held && !a.instant
    ensures w == Exec(Init(), es) && Collects(w, a)
  {
    hide Exec;
    es, w := [], Init();
    NoEvents();
    es, w := Then(es, w, Spawn(Start(false, 0, a.apiKey, a.pool)));
    es, w := Acts(es, w, 0, QUIET);
    es, w := Acts(es, w, 0, QUIET);
    es, w := Acts(es, w, 0, QUIET);
    assert w.procs[0].at == Begin(Checking);
    es, w := Acts(es, w, 0, QUIET);
    es, w := Acts(es, w, 0, QUIET);
  }

  /** What the workers returned is about to be judged. */
  lemma ReachJudging(a: Args, subs: seq<Worker>) returns (es: seq<Event>, w: World)
    requires !a.held && !a.instant
    ensures w == Exec(Init(), es) && w.procs.Keys == {0} && w.next == 1
    ensures w.procs[0].at == Work(Judging) && w.procs[0].path == Fulfilling && !w.procs[0].flag
    ensures w.procs[0].rating == Pass(subs, []) == w.sh.verdict && w.procs[0].a == a
    ensures w.sh.chain == Pending && w.sh.sent == {} && w.sh.settlements == 0 && w.sh.books == NOTHING
    ensures w.sh.job == Job(Reconciling, NoOutcome, false) && w.sh.ownerKey == a.apiKey
    ensures w.sh.core.restored == 0 && w.sh.falls == NO_FALLS && w.sh.races == NO_RACES && !w.sh.threw
  {
    hide Exec;
    es, w := ReachCollecting(a);
    es, w := Acts(es, w, 0, QUIET.(subs := subs));
    es, w := Acts(es, w, 0, QUIET);
    es, w := Acts(es, w, 0, QUIET);
  }

  // ---- Sweeps ----------------------------------------------------------------------------------

  /** A live driver, alone so far, on a question that is open on chain. */
  predicate Lively(w: World) {
    w.procs.Keys == {0} && w.next == 1 && w.sh.chain == Pending && w.sh.job.Job? && InFlight(w.sh.job.status)
  }

  /** Process 1 is a sweep that takes the job for a dead one and sends its refund. */
  lemma SweepSends(es0: seq<Event>, w0: World) returns (es: seq<Event>, w: World)
    requires w0 == Exec(Init(), es0) && Lively(w0)
    ensures w == Exec(Init(), es)
    ensures w.procs.Keys == {0, 1} && w.procs[0] == w0.procs[0]
    ensures w.procs[1].at == Scan(SweepWait) && w.procs[1].path == Sweeping
    ensures w.sh == w0.sh.(sent := w0.sh.sent + {Tx(1, RefundTx)})
  {
    hide Exec;
    es, w := Then(es0, w0, Spawn(Sweep));
    es, w := Acts(es, w, 1, QUIET);
    es, w := Acts(es, w, 1, QUIET);
    assert w.procs[1].at == Scan(SweepStash) && w.procs[1].read == w0.sh.job && w.sh == w0.sh;
    es, w := Acts(es, w, 1, QUIET.(stale := true));
    es, w := Acts(es, w, 1, QUIET);
    es, w := Acts(es, w, 1, QUIET);
  }

  lemma RefundLands(es0: seq<Event>, w0: World) returns (es: seq<Event>, w: World)
    requires w0 == Exec(Init(), es0) && w0.procs.Keys == {0, 1} && w0.sh.chain == Pending
    requires w0.procs[1].at == Scan(SweepWait) && w0.procs[1].path == Sweeping && Tx(1, RefundTx) in w0.sh.sent
    ensures w == Exec(Init(), es) && w.procs.Keys == {0, 1} && w.procs[0] == w0.procs[0]
    ensures w.procs[1].at == Patching(UpdateRead) && w.procs[1].path == Sweeping
    ensures w.procs[1].patch == Settle(WasRefunded)
    ensures w.sh == w0.sh.(chain := Refunded, landedBy := Some(1))
  {
    hide Exec;
    es, w := Then(es0, w0, Land(Tx(1, RefundTx)));
    es, w := Acts(es, w, 1, QUIET.(ok := true));
  }

  /** The refund lands and the sweep records it. */
  lemma SweepRecords(es0: seq<Event>, w0: World) returns (es: seq<Event>, w: World)
    requires w0 == Exec(Init(), es0) && w0.procs.Keys == {0, 1} && w0.sh.chain == Pending
    requires w0.procs[1].at == Scan(SweepWait) && w0.procs[1].path == Sweeping && Tx(1, RefundTx) in w0.sh.sent
    requires w0.sh.job.Job? && InFlight(w0.sh.job.status) && w0.sh.settlements == 0 && w0.sh.races == NO_RACES
    ensures w == Exec(Init(), es)
    ensures 0 in w.procs && w.procs[0] == w0.procs[0]
    ensures w.sh.job == w0.sh.job.(status := Settled, outcome := WasRefunded) && w.sh.settlements == 1
    ensures !w.sh.races.reopened && !w.sh.races.recounted
  {
    hide Exec;
    es, w := RefundLands(es0, w0);
    es, w := Acts(es, w, 1, QUIET);
    es, w := Acts(es, w, 1, QUIET);
  }

  /** A settlement can be taken back: a sweep that takes a slow job for a dead one settles it under
      its live driver, which then writes 'reconciling' over the settled record. */
  lemma StaleSweepUnsettles() returns (es: seq<Event>, e: Event)
    ensures var w, w' := Exec(Init(), es).sh, Exec(Init(), es + [e]).sh;
      IsSettled(w.job) && !IsSettled(w'.job) && w'.settlements == 1
  {
    hide Exec;
    var w;
    es, w := ReachCollecting(OPEN_QUESTION);
    es, w := SweepSends(es, w);
    es, w := SweepRecords(es, w);
    es, w := Acts(es, w, 0, QUIET);
    es, w := Acts(es, w, 0, QUIET);
    e := Act(0, QUIET);
    var es', w' := Then(es, w, e);
  }

  /** A driver without answers is about to refund. */
  lemma ReachRefunding() returns (es: seq<Event>, w: World)
    ensures w == Exec(Init(), es) && Lively(w) && w.procs[0].at == Give(RefundCall) && w.procs[0].path == Fulfilling
    ensures w.sh.settlements == 0 && w.sh.races == NO_RACES
  {
    hide Exec;
    es, w := ReachJudging(OPEN_QUESTION, []);
    es, w := Acts(es, w, 0, QUIET);
    es, w := Acts(es, w, 0, QUIET);
  }

  /** A driver without answers, whose refund has not landed, has read the record to settle it. */
  lemma ReachSettling() returns (es: seq<Event>, w: World)
    ensures w == Exec(Init(), es) && Lively(w) && w.procs[0].at == Patching(UpdateWrite)
    ensures w.procs[0].patch == Settle(RefundPendingTimeout) && w.procs[0].path == Fulfilling
    ensures w.procs[0].read == w.sh.job && w.sh.settlements == 0 && w.sh.races == NO_RACES
  {
    hide Exec;
    es, w := ReachRefunding();
    es, w := Acts(es, w, 0, QUIET);
    es, w := Acts(es, w, 0, QUIET);
    es, w := Acts(es, w, 0, QUIET);
    es, w := Acts(es, w, 0, QUIET);
  }

  /** A settlement can be counted twice although it is never taken back: the sweep settles the record
      between the driver's read and its write. */
  lemma SettlementCountedTwice() returns (es: seq<Event>)
    ensures var w := Exec(Init(), es).sh; IsSettled(w.job) && w.settlements == 2 && !w.races.reopened
  {
    hide Exec;
    var w;
    es, w := ReachSettling();
    es, w := SweepSends(es, w);
    es, w := SweepRecords(es, w);
    es, w := Acts(es, w, 0, QUIET);
  }

  // ---- Leaving the status graph ----------------------------------------------------------------

  /** A held question whose timer has won the undo decision. */
  lemma ReachHeld() returns (es: seq<Event>, w: World)
    ensures w == Exec(Init(), es) && w.procs.Keys == {0} && w.procs[0].at == Begin(Checking) && w.procs[0].path == Starting
    ensures w.sh.job == Job(Holding, NoOutcome, false) && w.sh.races == NO_RACES
  {
    hide Exec;
    es, w := [], Init();
    NoEvents();
    es, w := Then(es, w, Spawn(Start(false, 30000, false, false)));
    es, w := Acts(es, w, 0, QUIET);
    es, w := Acts(es, w, 0, QUIET);
    es, w := Acts(es, w, 0, QUIET);
    assert w.procs[0].at == Begin(Armed);
    es, w := Acts(es, w, 0, QUIET);
    es, w := Acts(es, w, 0, QUIET);
  }

  /** A pause that opens during the hold takes the held job straight to 'reconciling'. */
  lemma PauseSkipsAwaiting() returns (es: seq<Event>, e: Event)
    ensures var w, w' := Exec(Init(), es).sh, Exec(Init(), es + [e]).sh;
      w.job == Job(Holding, NoOutcome, false) && w'.job == Job(Reconciling, NoOutcome, false) && w'.races == NO_RACES
  {
    hide Exec;
    var w;
    es, w := ReachHeld();
    es, w := Acts(es, w, 0, QUIET.(paused := true));
    es, w := Acts(es, w, 0, QUIET);
    e := Act(0, QUIET);
    var es', w' := Then(es, w, e);
  }

  /** The 'reconciling' write throws: the safety net settles a job that still awaits workers. */
  lemma ThrowSkipsReconciling() returns (es: seq<Event>, e: Event)
    ensures var w, w' := Exec(Init(), es).sh, Exec(Init(), es + [e]).sh;
      && w.job == Job(AwaitingWorkers, NoOutcome, false)
      && w'.job == Job(Settled, RefundPendingTimeout, false) && w'.races == NO_RACES
  {
    hide Exec;
    var w;
    es, w := ReachCollecting(OPEN_QUESTION);
    es, w := Acts(es, w, 0, QUIET);
    es, w := Then(es, w, Throw(0, multiset{}));
    assert w.procs[0].at == Patching(UpdateRead) && w.procs[0].path == SafetyNet;
    es, w := Acts(es, w, 0, QUIET);
    e := Act(0, QUIET);
    var es', w' := Then(es, w, e);
  }

  /** A sweep settles a paid question that never got a record. */
  lemma SweepSettlesNothing() returns (es: seq<Event>, e: Event)
    ensures var w, w' := Exec(Init(), es).sh, Exec(Init(), es + [e]).sh;
      w.job == NoJob && w'.job == Job(Settled, WasRefunded, false) && !w'.races.reopened
  {
    hide Exec;
    var w;
    es, w := ReachOrphan();
    es, w := Acts(es, w, 0, QUIET);
    es, w := Acts(es, w, 0, QUIET);
    es, w := Then(es, w, Land(Tx(0, RefundTx)));
    es, w := Acts(es, w, 0, QUIET.(ok := true));
    assert w.procs[0].at == Patching(UpdateRead) && w.procs[0].patch == Settle(WasRefunded) && w.procs[0].path == Sweeping;
    es, w := Acts(es, w, 0, QUIET);
    e := Act(0, QUIET);
    var es', w' := Then(es, w, e);
  }

  /** Its stash has expired, so the sweep takes it for an orphan. */
  lemma ReachOrphan() returns (es: seq<Event>, w: World)
    ensures w == Exec(Init(), es) && w.procs.Keys == {0} && w.procs[0].at == Scan(SweepFresh) && w.procs[0].path == Sweeping
    ensures w.sh == Init().sh.(stash := false)
  {
    hide Exec;
    es, w := [], Init();
    NoEvents();
    es, w := Then(es, w, Spawn(Sweep));
    es, w := Then(es, w, ExpireStash);
    es, w := Acts(es, w, 0, QUIET);
    es, w := Acts(es, w, 0, QUIET);
    es, w := Acts(es, w, 0, QUIET);
  }

  // ---- Exceptions ------------------------------------------------------------------------------

  /** Worker 7's answer became the consensus, and resolve() landed on chain. */
  lemma ReachLanded() returns (es: seq<Event>, w: World)
    ensures w == Exec(Init(), es) && 0 in w.procs
    ensures w.procs[0].at == Pay(ResolveWait) && w.procs[0].path == Attempting
    ensures w.procs[0].rating == Pass([7], [7]) == w.sh.verdict && w.procs[0].a == OPEN_QUESTION
    ensures w.sh.chain == Resolved && w.sh.landedBy == Some(0) && w.sh.books == NOTHING && !w.sh.committed
    ensures w.sh.job == Job(Reconciling, NoOutcome, false) && !w.sh.threw && w.sh.races == NO_RACES
  {
    hide Exec;
    es, w := ReachJudging(OPEN_QUESTION, [7]);
    es, w := Acts(es, w, 0, QUIET);
    es, w := Acts(es, w, 0, QUIET.(matching := [7], confident := true));
    es, w := Acts(es, w, 0, QUIET);
    es, w := Then(es, w, Land(Tx(0, ResolveTx)));
  }

  /** The commitment may fail: that stops nothing, and the question resolves without one. */
  lemma ResolvedUncommitted() returns (es: seq<Event>)
    ensures Exec(Init(), es).sh.chain == Resolved && !Exec(Init(), es).sh.committed
  {
    var w;
    es, w := ReachLanded();
  }

  /** The one answer is recorded, then the rest of the pass throws. */
  lemma ReachLate() returns (es: seq<Event>, w: World)
    ensures w == Exec(Init(), es) && 0 in w.procs && w.procs[0].at == Pay(Reread)
    ensures w.procs[0].rating.subs == [7] == w.sh.verdict.subs
    ensures w.sh.chain == Resolved && w.sh.books.recorded == multiset{7}
  {
    hide Exec, Also;
    es, w := ReachLanded();
    es, w := Acts(es, w, 0, QUIET.(ok := true));
    assert w.procs[0].at == Pay(CreditReputation) && Partly(w.procs[0], multiset{7});
    es, w := Then(es, w, Throw(0, multiset{7}));
  }

  /** The handler then re-reads a resolved question, falls back to a refund and records it again. */
  lemma ThrowDoublesReputation() returns (es: seq<Event>)
    ensures var w := Exec(Init(), es).sh; w.verdict.subs == [7] && w.books.recorded == multiset{7, 7} && w.chain == Resolved
  {
    hide Exec, Also;
    var w;
    es, w := ReachLate();
    es, w := Acts(es, w, 0, QUIET.(readable := true));
    assert w.procs[0].at == Give(RefundCall) && w.procs[0].rating.subs == [7];
    es, w := Acts(es, w, 0, QUIET);
    es, w := Acts(es, w, 0, QUIET);
    es, w := Acts(es, w, 0, QUIET);
    AlsoAgain(7, w.sh.books.recorded);
  }

  lemma AlsoAgain(x: Worker, r: multiset<Worker>)
    requires r == Also(multiset{x}, Each([x]))
    ensures r == multiset{x, x}
  {
    assert [x] != [];
  }

  /** A private pool with nobody online: the refund is sent and lands. */
  lemma ReachPoolRefund() returns (es: seq<Event>, w: World)
    ensures w == Exec(Init(), es) && 0 in w.procs && w.procs[0].at == Give(RefundReputation)
    ensures w.procs[0].path == PoolOffline && w.procs[0].outcome == WasRefunded
    ensures w.sh.chain == Refunded && w.sh.books.writes == 0 && w.sh.core.restored == 0
    ensures w.sh.job == Job(Reconciling, NoOutcome, false)
  {
    hide Exec;
    es, w := ReachJudging(Args(false, true, false, true), []);
    es, w := Acts(es, w, 0, QUIET.(offline := true));
    assert w.procs[0].at == Give(RefundCall) && w.procs[0].path == PoolOffline;
    es, w := Acts(es, w, 0, QUIET);
    es, w := Then(es, w, Land(Tx(0, RefundTx)));
    es, w := Acts(es, w, 0, QUIET.(ok := true));
  }

  /** It is recorded. */
  lemma ReachPoolSettled() returns (es: seq<Event>, w: World)
    ensures w == Exec(Init(), es) && 0 in w.procs && w.procs[0].at == Give(ReadOwner)
    ensures w.procs[0].path == PoolOffline
    ensures w.sh.chain == Refunded && w.sh.books.writes == 1 && w.sh.core.restored == 0
    ensures w.sh.job == Job(Settled, WasRefunded, false)
  {
    hide Exec, Also, Each;
    es, w := ReachPoolRefund();
    es, w := Acts(es, w, 0, QUIET);
    es, w := Acts(es, w, 0, QUIET);
    es, w := Acts(es, w, 0, QUIET);
    assert w.procs[0].at == Patching(UpdateRead) && w.procs[0].patch == Settle(WasRefunded);
    es, w := Acts(es, w, 0, QUIET);
    es, w := Acts(es, w, 0, QUIET);
  }

  /** The owner of its credit cannot be read: the safety net settles the refunded question a second
      time, as 'refund_pending_timeout', and the credit is never restored. */
  lemma PoolRefundSettlesTwice() returns (es: seq<Event>)
    ensures var w := Exec(Init(), es).sh;
      w.chain == Refunded && w.books.writes == 2 && w.core.restored == 0
      && w.job == Job(Settled, RefundPendingTimeout, false)
  {
    hide Exec, Also;
    var w;
    es, w := ReachPoolSettled();
    es, w := Then(es, w, Throw(0, multiset{}));
    es, w := Acts(es, w, 0, QUIET);
    es, w := Acts(es, w, 0, QUIET);
  }

  /** The reply is lost, the question is re-read as resolved, and the refund is refused. */
  lemma ReachPending() returns (es: seq<Event>, w: World)
    ensures w == Exec(Init(), es) && 0 in w.procs
    ensures w.procs[0].at == Patching(UpdateRead) && w.procs[0].path == Fulfilling
    ensures w.procs[0].patch == Settle(RefundPendingTimeout)
    ensures w.sh.chain == Resolved && w.sh.job == Job(Reconciling, NoOutcome, false) && !w.sh.threw && w.sh.races == NO_RACES
  {
    hide Exec;
    es, w := ReachLanded();
    es, w := Acts(es, w, 0, QUIET);
    es, w := Acts(es, w, 0, QUIET.(readable := true));
    assert w.procs[0].at == Give(RefundCall);
    es, w := Acts(es, w, 0, QUIET);
    es, w := Acts(es, w, 0, QUIET);
    es, w := Acts(es, w, 0, QUIET);
  }

  /** Honesty goes one way only: with nothing thrown and nothing swept, a resolve() that landed but
      whose reply was lost ends as 'refund_pending_timeout' although the chain resolved. */
  lemma LostReplyEndsAsPendingTimeout() returns (es: seq<Event>)
    ensures var w := Exec(Init(), es).sh;
      && w.chain == Resolved && w.job == Job(Settled, RefundPendingTimeout, false)
      && !w.threw && w.races == NO_RACES
  {
    hide Exec;
    var w;
    es, w := ReachPending();
    es, w := Acts(es, w, 0, QUIET);
    es, w := Acts(es, w, 0, QUIET);
  }

  /** A third party's refund_timeout() beats resolve(); the failed call re-reads the question. */
  lemma ReachLost() returns (es: seq<Event>, w: World)
    ensures w == Exec(Init(), es) && 0 in w.procs
    ensures w.procs[0].at == Pay(LostReputation) && w.procs[0].path == Attempting
    ensures w.sh.job == Job(Reconciling, NoOutcome, false) && !w.sh.threw && w.sh.races == NO_RACES
  {
    hide Exec;
    es, w := ReachJudging(OPEN_QUESTION, [7]);
    es, w := Acts(es, w, 0, QUIET);
    es, w := Acts(es, w, 0, QUIET.(matching := [7], confident := true));
    es, w := Acts(es, w, 0, QUIET);
    es, w := Then(es, w, TimeoutRefund);
    es, w := Acts(es, w, 0, QUIET);
    es, w := Acts(es, w, 0, QUIET.(readable := true));
  }

  /** The job is settled with a fourth outcome, neither 'resolved' nor 'refunded'. */
  lemma LostRaceIsItsOwnOutcome() returns (es: seq<Event>)
    ensures var w := Exec(Init(), es).sh; w.job == Job(Settled, LostRace, false) && !w.threw && w.races == NO_RACES
  {
    hide Exec, Also, Each;
    var w;
    es, w := ReachLost();
    es, w := Acts(es, w, 0, QUIET);
    es, w := Acts(es, w, 0, QUIET);
    es, w := Acts(es, w, 0, QUIET);
    es, w := Acts(es, w, 0, QUIET);
  }

  // ---- Many questions --------------------------------------------------------------------------

  type QuestionId = nat

  /** Every record, claim and transaction is keyed by question id: an event concerns one question. */
  function ExecAll(ws: map<QuestionId, World>, es: seq<(QuestionId, Event)>): map<QuestionId, World>
    decreases |es|
  {
    if es == [] then ws
    else
      var before := ExecAll(ws, es[..|es| - 1]);
      var (q, e) := es[|es| - 1];
      if q in before then before[q := Step(before[q], e)] else before
  }

  function Project(q: QuestionId, es: seq<(QuestionId, Event)>): seq<Event>
    decreases |es|
  {
    if es == [] then []
    else
      var before := Project(q, es[..|es| - 1]);
      if es[|es| - 1].0 == q then before + [es[|es| - 1].1] else before
  }

  /** Whatever is proved of every run of one question holds of every question in every interleaving
      of all of them: each one sees just its own events. */
  lemma {:induction false} QuestionsAreIndependent(ws: map<QuestionId, World>, es: seq<(QuestionId, Event)>, q: QuestionId)
    requires q in ws
    ensures ExecAll(ws, es).Keys == ws.Keys && ExecAll(ws, es)[q] == Exec(ws[q], Project(q, es))
    decreases |es|
  {
    if es != [] {
      var front, last := es[..|es| - 1], es[|es| - 1];
      QuestionsAreIndependent(ws, front, q);
      var mine := Project(q, front);
      assert (mine + [last.1])[..|mine|] == mine;
    }
  }
}
