/** The promises of the settlement pipeline, for every run of the machine: any number of step-2
    retries, hold timers, cancels, sweeps, crashes, exceptions and third-party refunds in any order. */
module SettlementTheorems {
  import opened Common
  import opened Settlement
  import opened SettlementInvariant
  import opened SettlementBooks
  import opened SettlementRecords

  // ---- One driver, one decision ----------------------------------------------------------------

  /** A question has at most one process acting on it, is dispatched at most once, is
      cancel-refunded at most once, and never both. */
  lemma OneDriver(es: seq<Event>)
    ensures var w := Exec(Init(), es);
      && w.sh.core.dispatches + w.sh.core.cancels <= 1
      && forall p, q :: p in w.procs && q in w.procs && Acting(w.procs[p]) && Acting(w.procs[q]) ==> p == q
  {
    RunKeeps(es);
    var w := Exec(Init(), es);
    forall p, q | p in w.procs && q in w.procs && Acting(w.procs[p]) && Acting(w.procs[q]) ensures p == q {
      assert Good(w.sh, p, w.procs[p]) && Good(w.sh, q, w.procs[q]);
    }
  }

  // ---- Outcomes and the chain ------------------------------------------------------------------

  /** 'resolved' is recorded only for a question the chain resolved; 'refunded' and
      'lost_race_to_timeout_refund' only for one the chain refunded. */
  lemma OutcomesAreHonest(es: seq<Event>)
    ensures var w := Exec(Init(), es);
      && HonestJob(w.sh.job, w.sh.chain)
      && forall p :: p in w.procs && w.procs[p].at.Done? ==> Honest(w.procs[p].outcome, w.sh.chain)
  {
    RunKeeps(es);
    var w := Exec(Init(), es);
    forall p | p in w.procs && w.procs[p].at.Done? ensures Honest(w.procs[p].outcome, w.sh.chain) {
      assert Good(w.sh, p, w.procs[p]);
    }
  }

  lemma {:induction false} RestoredStays(es: seq<Event>, later: seq<Event>)
    ensures Exec(Init(), es).sh.core.restored <= Exec(Init(), es + later).sh.core.restored
    decreases |later|
  {
    if later == [] {
      assert es + later == es;
    } else {
      var n := |later| - 1;
      RestoredStays(es, later[..n]);
      assert (es + later)[..|es + later| - 1] == es + later[..n];
      RunKeeps(es + later[..n]);
      StepKeeps(Exec(Init(), es + later[..n]), later[n]);
    }
  }

  /** API-key credit is restored at most once, and a question whose credit was restored is not
      resolved on chain, then or ever after. */
  lemma CreditRestoredOnce(es: seq<Event>, later: seq<Event>)
    ensures Exec(Init(), es + later).sh.core.restored <= 1
    ensures Exec(Init(), es).sh.core.restored == 1 ==> Exec(Init(), es + later).sh.chain != Resolved
  {
    RunKeeps(es + later);
    RestoredStays(es, later);
  }

  // ---- Reputation, settled writes and counters --------------------------------------------------

  /** In every state of every run no answer was recorded more often than it was given, unless an
      exception came between the landing of resolve() and the settled write; and there is one settled
      write, or two when the credit of a private-pool refund could not be restored. */
  lemma BookedOnce(es: seq<Event>)
    ensures var w := Exec(Init(), es).sh;
      && (!w.falls.late ==> w.books.recorded <= multiset(w.verdict.subs))
      && w.books.writes <= if w.falls.again then 2 else 1
  {
    hide BookedAs, Inv;
    RunBooks(es);
    var w := Exec(Init(), es).sh;
    assert w.verdict.subs == [] ==> multiset(w.verdict.subs) == multiset{};
  }

  /** A driver that settled the question, and did not leave it to the safety net, recorded every
      collected answer exactly once exactly when no exception came too late. */
  predicate RatedOnce(w: Shared, o: Outcome) {
    && (w.books.recorded == multiset(w.verdict.subs) <==> !w.falls.late)
    && (w.verdict.subs != [] ==> w.books.rated == Pass(w.verdict.subs, if o == LostRace then [] else w.verdict.m))
  }

  predicate StatsMatch(b: Books, o: Outcome) {
    && b.resolvedStat == (if o == WasResolved then 1 else 0)
    && b.refundedStat == (if o == WasRefunded || o == LostRace then 1 else 0)
  }

  lemma DoneIsBooked(w: Shared, p: Pid, s: Proc)
    requires Good(w, p, s) && Booked(w, s) && s.at.Done?
    ensures w.books.written == s.outcome && w.books.writes == if w.falls.again then 2 else 1
    ensures StatsMatch(w.books, s.outcome) <==> !w.falls.drifted
  {
    hide Also, Each, Within, RatingAt;
  }

  lemma DoneIsRated(w: Shared, p: Pid, s: Proc)
    requires Good(w, p, s) && Booked(w, s) && s.at.Done? && s.path != SafetyNet
    ensures RatedOnce(w, s.outcome)
  {
    RecordedTwice(w.falls.before.recorded, s.rating.subs);
    hide Also, Each, Within;
  }

  /** What was recorded before the fall is one too many. */
  lemma RecordedTwice(b: multiset<Worker>, subs: seq<Worker>)
    ensures Also(b, Each(subs)) == multiset(subs) <==> b == multiset{}
  {
    var e := multiset(subs);
    assert Each(subs) == e by { assert subs == [] ==> e == multiset{}; }
    assert |b + e| == |b| + |e|;
  }

  /** However a driver's run went, exceptions included, at its end the last settled write is its
      outcome; it is the only one exactly when the safety net did not run again; the public counters
      moved by that outcome alone exactly when no exception followed a count; and every answer was
      recorded once exactly when no exception came too late. */
  lemma CompletedRunsBalance(es: seq<Event>, p: Pid)
    requires var w := Exec(Init(), es); p in w.procs && w.procs[p].at.Done?
    ensures var w, s := Exec(Init(), es).sh, Exec(Init(), es).procs[p];
      && w.books.written == s.outcome && w.books.writes == (if w.falls.again then 2 else 1)
      && (StatsMatch(w.books, s.outcome) <==> !w.falls.drifted)
      && (s.path != SafetyNet ==> RatedOnce(w, s.outcome))
      && (!w.races.reopened ==> IsSettled(w.job))
  {
    RunBooks(es);
    RunRecords(es);
    var w := Exec(Init(), es);
    GoodOf(w, p);
    hide Exec, Inv, BookedAs, RatedOnce;
    DoneIsBooked(w.sh, p, w.procs[p]);
    if w.procs[p].path != SafetyNet { DoneIsRated(w.sh, p, w.procs[p]); }
    if !w.sh.races.reopened { DoneIsSettled(w.sh, p, w.procs[p]); }
  }

  lemma DoneIsSettled(w: Shared, p: Pid, s: Proc)
    requires Good(w, p, s) && JobAt(w, s) && s.at.Done?
    ensures IsSettled(w.job)
  {}

  // ---- The status graph ------------------------------------------------------------------------

  /** In every run that has not taken a settlement back, a settled record stays settled, and the
      settlement is counted once as long as no write counted it again. Without a sweep that settles the
      record under its driver both always hold. */
  lemma SettledOnce(es: seq<Event>, e: Event)
    ensures var w, w' := Exec(Init(), es).sh, Exec(Init(), es + [e]).sh;
      && (!w'.races.reopened ==>
           && (IsSettled(w.job) ==> IsSettled(w'.job))
           && (!w'.races.recounted ==> w'.settlements == if IsSettled(w'.job) then 1 else 0))
      && (!w'.races.swept ==> !w'.races.reopened && !w'.races.recounted)
  {
    RunRecords(es);
    RunRecords(es + [e]);
    assert (es + [e])[..|es + [e]| - 1] == es;
    hide Exec, Inv, JobAt, Step;
    if !Exec(Init(), es + [e]).sh.races.reopened { StepStrays(Exec(Init(), es), e); }
  }

  /** And the status follows the documented graph, but for exactly three writes: a pause that takes a
      held job straight to 'reconciling', the safety net that settles a job still awaiting workers, and
      a sweep that settles a job that is neither reconciling nor cancelling, or none at all. */
  lemma StatusFollowsGraph(es: seq<Event>, e: Event)
    requires !Exec(Init(), es + [e]).sh.races.reopened
    ensures var w := Exec(Init(), es);
      Documented(w.sh.job, Exec(Init(), es + [e]).sh.job)
      <==> !(e.Act? && e.p in w.procs && Strays(w.procs[e.p], w.sh.job))
  {
    RunRecords(es);
    assert (es + [e])[..|es + [e]| - 1] == es;
    hide Exec, RecordsInv, Step, Documented, Strays;
    StepStrays(Exec(Init(), es), e);
  }

  lemma ActStrays(w: World, p: Pid, c: Choice)
    requires RecordsInv(w) && p in w.procs && !ActStep(w.sh, p, w.procs[p], c).sh.races.reopened
    ensures var j := ActStep(w.sh, p, w.procs[p], c).sh.job;
      && (Documented(w.sh.job, j) <==> !Strays(w.procs[p], w.sh.job))
      && (IsSettled(w.sh.job) ==> IsSettled(j))
  {
    GoodOf(w, p);
    hide Inv, Global, Good, JobAt, Recorded, Calm, Reopens, Documented, Strays, ActStep;
    RacesGrow(w.sh, p, w.procs[p], c);
    WriteStrays(w.sh, p, w.procs[p], c);
    if IsSettled(w.sh.job) { WriteReopens(w.sh, p, w.procs[p], c); }
  }

  lemma StepStrays(w: World, e: Event)
    requires RecordsInv(w) && !Step(w, e).sh.races.reopened
    ensures var j := Step(w, e).sh.job;
      && (Documented(w.sh.job, j) <==> !(e.Act? && e.p in w.procs && Strays(w.procs[e.p], w.sh.job)))
      && (IsSettled(w.sh.job) ==> IsSettled(j))
  {
    hide RecordsInv, Strays, ActStep, Handler, Partly, LateAt, AgainAt, DriftsAt;
    match e
    case Act(p, c) => if p in w.procs { ActStrays(w, p, c); }
    case _ =>
  }

  /** A settled record becomes unsettled by exactly these writes: the creation of the record, a status
      write of the driver, and a write of other fields over a copy read before the settlement. */
  lemma ReopenedExactly(es: seq<Event>, e: Event)
    requires IsSettled(Exec(Init(), es).sh.job)
    ensures var w := Exec(Init(), es);
      !IsSettled(Exec(Init(), es + [e]).sh.job) <==> e.Act? && e.p in w.procs && Reopens(w.procs[e.p], w.sh.job)
  {
    RunKeeps(es);
    assert (es + [e])[..|es + [e]| - 1] == es;
    hide Exec;
    StepReopens(Exec(Init(), es), e);
  }

  lemma StepReopens(w: World, e: Event)
    requires Inv(w) && IsSettled(w.sh.job)
    ensures !IsSettled(Step(w, e).sh.job) <==> e.Act? && e.p in w.procs && Reopens(w.procs[e.p], w.sh.job)
  {
    hide Inv, Global, Good, Reopens, ActStep, Handler, Partly, LateAt, AgainAt, DriftsAt;
    match e
    case Act(p, c) =>
      if p in w.procs {
        GoodOf(w, p);
        WriteReopens(w.sh, p, w.procs[p], c);
      }
    case _ =>
  }

  /** And the counter moves with the record, one too much at exactly the settled writes over a copy
      read before somebody else settled it. */
  lemma CountedExactly(es: seq<Event>, e: Event)
    requires !Exec(Init(), es + [e]).sh.races.reopened
    ensures var w, w' := Exec(Init(), es), Exec(Init(), es + [e]).sh;
      w'.settlements == w.sh.settlements + Newly(w.sh.job, w'.job)
        + if e.Act? && e.p in w.procs && Recounts(w.procs[e.p], w.sh.job) then 1 else 0
  {
    RunRecords(es);
    assert (es + [e])[..|es + [e]| - 1] == es;
    hide Exec, RecordsInv, Step, Recounts, Newly;
    StepCounts(Exec(Init(), es), e);
  }

  lemma ActCounts(w: World, p: Pid, c: Choice)
    requires RecordsInv(w) && p in w.procs && !ActStep(w.sh, p, w.procs[p], c).sh.races.reopened
    ensures var w' := ActStep(w.sh, p, w.procs[p], c).sh;
      w'.settlements == w.sh.settlements + Newly(w.sh.job, w'.job) + if Recounts(w.procs[p], w.sh.job) then 1 else 0
  {
    GoodOf(w, p);
    hide Inv, Global, Good, JobAt, Recorded, Calm, Reopens, Recounts, ActStep;
    RacesGrow(w.sh, p, w.procs[p], c);
    WriteCounts(w.sh, p, w.procs[p], c);
  }

  lemma StepCounts(w: World, e: Event)
    requires RecordsInv(w) && !Step(w, e).sh.races.reopened
    ensures var w' := Step(w, e).sh;
      w'.settlements == w.sh.settlements + Newly(w.sh.job, w'.job)
        + if e.Act? && e.p in w.procs && Recounts(w.procs[e.p], w.sh.job) then 1 else 0
  {
    hide RecordsInv, Recounts, ActStep, Handler, Partly, LateAt, AgainAt, DriftsAt;
    match e
    case Act(p, c) => if p in w.procs { ActCounts(w, p, c); }
    case _ =>
  }

  // ---- The commitment ----------------------------------------------------------------------------

  /** When a driver is about to broadcast its settlement, the inputs have been committed, or the attempt
      to do so has failed, exactly on the way of the quorum and the instant tier: never on the refunds
      for a pause, for a cancel or for an offline private pool. And no resolve() is sent before. */
  lemma CommittedFirst(es: seq<Event>, p: Pid)
    requires var w := Exec(Init(), es); p in w.procs
    requires var s := Exec(Init(), es).procs[p]; s.at == Pay(ResolveCall) || s.at == Give(RefundCall)
    ensures var w, s := Exec(Init(), es).sh, Exec(Init(), es).procs[p];
      && (w.tried <==> s.path == Fulfilling || s.path == Attempting)
      && (w.committed ==> w.tried) && (w.resolveSent ==> w.tried)
  {
    RunKeeps(es);
    GoodOf(Exec(Init(), es), p);
    hide Exec;
  }
}
