/** What every run of the settlement machine keeps, process by process. */
module SettlementInvariant {
  import opened Common
  import opened Settlement

  // ---- Classifying positions -----------------------------------------------------------------

  /** Starter states after a won job claim. */
  predicate Claimed(s: Proc) {
    match s.at
    case Begin(b) => !b.Claiming?
    case Undo(_) => false
    case Scan(_) => false
    case Gone => false
    case _ => s.path != Undoing && s.path != Sweeping
  }

  /** The process that alone drives the question: an unheld starter from its claim on, a held
      starter once its timer won the undo decision, or the canceller that won it. */
  predicate Acting(s: Proc) {
    match s.at
    case Begin(b) => b.Winning? || b.Checking? || ((b.Creating? || b.Owning?) && !s.a.held)
    case Undo(u) => u.CancelWinning?
    case Scan(_) => false
    case Gone => false
    case _ => s.path != Sweeping
  }

  predicate FulfilPath(p: Path) { p == Fulfilling || p == Attempting || p == PoolOffline || p == SafetyNet }
  predicate RefundPath(p: Path) { p == Pausing || p == Fulfilling || p == PoolOffline || p == Undoing }
  predicate RestorePath(p: Path) { p == Pausing || p == PoolOffline || p == Undoing }

  predicate RefundOutcome(o: Outcome) { o == WasRefunded || o == RefundPendingTimeout }

  /** Outcomes a path can end with. */
  predicate OutcomeOf(p: Path, o: Outcome) {
    if p == Attempting then o == WasResolved || o == LostRace
    else if p == SafetyNet then o == RefundPendingTimeout
    else if p == Sweeping then o == WasRefunded
    else RefundPath(p) && RefundOutcome(o)
  }

  /** The combinations of position, path and patch that exist. */
  predicate Shape(s: Proc) {
    match s.at
    case Begin(b) => s.path == Starting && (b.Armed? ==> s.a.held)
    case Work(f) => s.path == if f.Dispatching? then Starting else Fulfilling
    case Pay(_) => s.path == Attempting
    case Give(r) =>
      && RefundPath(s.path)
      && (r.RefundReputation? || r.ReadOwner? || r.Restoring? ==> RefundOutcome(s.outcome))
      && (r.DropRefunded? || r.CountRefunded? ==> s.outcome == WasRefunded)
      && (r.ReadOwner? || r.Restoring? ==> RestorePath(s.path))
    case Patching(_) => UpdateShape(s)
    case Undo(_) => s.path == Undoing
    case Scan(_) => s.path == Sweeping
    case Done => OutcomeOf(s.path, s.outcome) && s.path != Sweeping
    case Gone => true
  }

  predicate UpdateShape(s: Proc) {
    match s.patch
    case Settle(o) => OutcomeOf(s.path, o)
    case SetStatus(st) =>
      || (s.path == Starting && st == AwaitingWorkers && s.a.held)
      || (s.path == Pausing && st == Reconciling)
      || (s.path == Fulfilling && st == Reconciling)
      || (s.path == Undoing && st == Cancelling)
    case Touch => s.path == Fulfilling
  }

  // ---- What is known while the acting process stands at `s` ------------------------------------

  function ExpectedCore(s: Proc): Core {
    Core(if FulfilPath(s.path) then 1 else 0,
         if s.path == Undoing && !s.at.Undo? then 1 else 0,
         if s.at.Done? && RestorePath(s.path) && s.flag then 1 else 0)
  }

  /** The lost race records every answer as unmatched. */
  predicate Lost(s: Proc) {
    match s.at
    case Pay(r) => r.LostReputation? || r.LostCount?
    case Patching(_) => s.patch == Settle(LostRace)
    case Done => s.outcome == LostRace
    case _ => false
  }

  /** The reputation pass a process will record is the one the collected answers call for. */
  predicate RatingAt(s: Proc, verdict: Pass) {
    match s.path
    case Starting => verdict == NO_PASS && s.rating == NO_PASS
    case Pausing => verdict == NO_PASS && s.rating == NO_PASS
    case Undoing => verdict == NO_PASS && s.rating == NO_PASS
    case Fulfilling =>
      && s.rating == verdict
      && (s.at.Work? || (s.at.Patching? && !s.patch.Settle?) ==> verdict.m == [])
    case Attempting => s.rating == if Lost(s) then Pass(verdict.subs, []) else verdict
    case PoolOffline => verdict == NO_PASS && s.rating == NO_PASS
    case _ => true
  }

  /** The commitment to the inputs has been tried: on the quorum's and the instant tier's way to a
      settlement always, on the other ways to a refund never. */
  predicate TriedAt(s: Proc, tried: bool) {
    match s.path
    case Fulfilling => tried == (if s.at.Work? || (s.at.Patching? && !s.patch.Settle?) then s.flag else true)
    case Attempting => tried
    case SafetyNet => true
    case Starting => !tried && !s.flag
    case _ => !tried
  }

  /** Acting positions before any resolve transaction was broadcast. */
  predicate NoResolveYet(s: Proc) {
    match s.at
    case Work(_) => true
    case Pay(r) => r.ResolveCall?
    case Patching(_) => s.path == Starting || RestorePath(s.path) || (s.path == Fulfilling && !s.patch.Settle?)
    case _ => s.path == Starting || RestorePath(s.path)
  }

  /** An outcome that claims something about the chain claims only what is so. */
  predicate Honest(o: Outcome, chain: Chain) {
    && (o == WasResolved ==> chain == Resolved)
    && (o == WasRefunded || o == LostRace ==> chain == Refunded)
  }

  predicate HonestJob(j: Job, chain: Chain) { j.Job? ==> Honest(j.outcome, chain) }

  predicate HonestAt(s: Proc, chain: Chain) {
    match s.at
    case Pay(r) =>
      && (r.CreditReputation? || r.DropResolved? || r.CountResolved? ==> chain == Resolved)
      && (r.LostReputation? || r.LostCount? ==> chain == Refunded)
    case Give(r) => r.RefundCall? || r.RefundWait? || Honest(s.outcome, chain)
    case Patching(u) =>
      && (s.patch.Settle? ==> Honest(s.patch.outcome, chain))
      && (u.UpdateWrite? ==> HonestJob(s.read, chain))
    case Done => Honest(s.outcome, chain)
    case _ => true
  }

  /** The record exists, created by a held starter. */
  predicate HeldDriver(w: Shared) { w.created && w.driver.Driver? && w.driver.args.held }

  /** A copy of the record says 'holding' only if a held starter created it. */
  predicate HoldingImpliesHeld(w: Shared, j: Job) {
    j.Job? && j.status == Holding ==> HeldDriver(w)
  }

  predicate Driving(w: Shared, p: Pid, s: Proc) {
    && w.actor == Some(p)
    && w.core == ExpectedCore(s)
    && RatingAt(s, w.verdict)
    && TriedAt(s, w.tried)
    && (NoResolveYet(s) ==> !w.resolveSent)
    && (s.path == SafetyNet ==> w.threw)
    && (w.created <==> s.at != Begin(Creating))
  }

  predicate Good(w: Shared, p: Pid, s: Proc) {
    && Shape(s)
    && (Claimed(s) ==> w.driver == Driver(p, s.a))
    && (Acting(s) ==> Driving(w, p, s))
    && HonestAt(s, w.chain)
    && (s.at.Begin? ==> s.rating == NO_PASS && !s.flag && BeginAt(w, s))
    && (s.at.Undo? ==> s.rating == NO_PASS && UndoAt(w, s))
    && (s.at == Patching(UpdateWrite) ==> HoldingImpliesHeld(w, s.read))
  }

  predicate BeginAt(w: Shared, s: Proc)
    requires s.at.Begin?
  {
    && (s.at.start.Creating? ==> !w.created)
    && (s.at.start.Owning? || s.at.start.Armed? ==> w.created)
  }

  predicate UndoAt(w: Shared, s: Proc)
    requires s.at.Undo?
  {
    && (s.at.cancel.CancelAuth? ==> HoldingImpliesHeld(w, s.read))
    && (s.at.cancel.CancelClaim? ==> HeldDriver(w))
  }

  predicate Untouched(w: Shared) {
    w.core == Core(0, 0, 0) && w.verdict == NO_PASS && !w.resolveSent && !w.tried
  }

  ghost predicate Global(w: Shared) {
    && (w.claims == 0 <==> w.driver.NoDriver?)
    && (w.actor.Some? ==> w.driver.Driver?)
    && (w.driver.Driver? && !w.driver.args.held ==> w.actor == Some(w.driver.pid))
    && (w.decisions == 0 && w.driver.Driver? && w.driver.args.held ==> w.actor.None?)
    && (w.created ==> w.driver.Driver?)
    && (w.decisions > 0 ==> HeldDriver(w))
    && (w.actor.None? ==> Untouched(w))
    && w.core.dispatches + w.core.cancels <= 1
    && w.core.restored <= 1
    && (w.core.restored == 1 ==> !w.resolveSent)
    && (w.chain == Resolved ==> w.resolveSent)
    && (forall tx :: tx in w.sent && tx.kind.ResolveTx? ==> w.resolveSent)
    && HonestJob(w.job, w.chain)
    && HoldingImpliesHeld(w, w.job)
    && (w.resolveSent ==> w.tried)
    && (w.committed ==> w.tried)
  }

  ghost predicate Inv(w: World) {
    && Global(w.sh)
    && (w.sh.driver.Driver? ==> w.sh.driver.pid < w.next)
    && (w.sh.actor.Some? ==> w.sh.actor.value < w.next)
    && forall p :: p in w.procs ==> p < w.next && Good(w.sh, p, w.procs[p])
  }

  // ---- Preservation --------------------------------------------------------------------------

  /** What never goes back. */
  predicate Onward(w: Shared, w': Shared) {
    && w.core.restored <= w'.core.restored
    && (w'.chain == w.chain || w.chain == Pending)
    && (w.threw ==> w'.threw)
    && (w.tried ==> w'.tried)
    && (w.created ==> w'.created)
  }

  /** The parts that only the acting process changes. */
  predicate SameDriving(w: Shared, w': Shared) {
    w.core == w'.core && w.verdict == w'.verdict && w.resolveSent == w'.resolveSent && w.tried == w'.tried
  }

  /** How much of the world process `p` may change under the eyes of the others: the exclusive parts
      only while it is the acting process, the rest only forwards. */
  predicate Forward(w: Shared, w': Shared, p: Pid) {
    && Onward(w, w')
    && (w'.driver == w.driver || (w.driver.NoDriver? && w'.driver.Driver? && w'.driver.pid == p))
    && (w'.actor == w.actor || (w.actor.None? && w'.actor == Some(p)))
    && (w'.actor == Some(p) || SameDriving(w, w'))
    && (w'.created ==> w.created || (w'.driver.Driver? && w'.driver.pid == p))
  }

  lemma Bystander(w: Shared, w': Shared, p: Pid, q: Pid, s: Proc)
    requires Global(w) && Global(w') && Forward(w, w', p) && q != p && Good(w, q, s)
    ensures Good(w', q, s)
  {}

  /** What judging the answers leaves alone, and where it can lead. */
  predicate LeftAlone(w: Shared, w': Shared) {
    && w'.job == w.job && w'.races == w.races && w'.settlements == w.settlements && w'.created == w.created
    && w'.actor == w.actor && w'.books == w.books && w'.falls == w.falls && w'.chain == w.chain
  }

  lemma LeavesAlone(w: Shared, verdict: Pass, committed: bool)
    ensures LeftAlone(w, w) && LeftAlone(w, w.(verdict := verdict)) && LeftAlone(w, w.(tried := true, committed := committed))
  {}

  lemma JudgedLeaves(w: Shared, s: Proc, c: Choice)
    ensures LeftAlone(w, Judge(w, s, c).sh)
  {
    LeavesAlone(w, Pass(s.rating.subs, c.matching), c.ok);
    hide LeftAlone, ShouldResolve, Update;
  }

  predicate AfterJudging(s: Proc) {
    match s.path
    case Fulfilling => s.at == Work(Judging) || s.at == Give(RefundCall) || (s.at == Patching(UpdateRead) && s.patch == Touch)
    case Attempting => s.at == Pay(ResolveCall)
    case PoolOffline => s.at == Give(RefundCall)
    case _ => false
  }

  lemma JudgedLeads(w: Shared, s: Proc, c: Choice)
    requires s.at == Work(Judging) && s.path == Fulfilling
    ensures AfterJudging(Judge(w, s, c).s)
  {
    hide ShouldResolve;
  }

  /** One process moved: enough to know for the whole invariant. */
  ghost predicate Kept(w: Shared, p: Pid, m: Move) {
    Global(m.sh) && Forward(w, m.sh, p) && Good(m.sh, p, m.s)
  }

  lemma Compose(w: World, p: Pid, m: Move)
    requires Inv(w) && p in w.procs && Kept(w.sh, p, m)
    ensures Inv(World(m.sh, w.procs[p := m.s], w.next))
  {
    var w' := World(m.sh, w.procs[p := m.s], w.next);
    forall q | q in w'.procs ensures q < w'.next && Good(w'.sh, q, w'.procs[q]) {
      if q != p { Bystander(w.sh, w'.sh, p, q, w.procs[q]); }
    }
  }

  lemma ClaimKeeps(w: Shared, p: Pid, s: Proc, c: Choice)
    requires Global(w) && Good(w, p, s) && s.at.Begin? && (s.at.start.Claiming? || s.at.start.Creating?)
    ensures Kept(w, p, StepStart(w, p, s, c))
  {}

  lemma HoldKeeps(w: Shared, p: Pid, s: Proc, c: Choice)
    requires Global(w) && Good(w, p, s) && s.at.Begin? && (s.at.start.Owning? || s.at.start.Armed?)
    ensures Kept(w, p, StepStart(w, p, s, c))
  {}

  lemma CheckKeeps(w: Shared, p: Pid, s: Proc, c: Choice)
    requires Global(w) && Good(w, p, s) && s.at.Begin? && (s.at.start.Winning? || s.at.start.Checking?)
    ensures Kept(w, p, StepStart(w, p, s, c))
  {}

  lemma CollectKeeps(w: Shared, p: Pid, s: Proc, c: Choice)
    requires Global(w) && Good(w, p, s) && s.at.Work? && (s.at.fulfil.Dispatching? || s.at.fulfil.Collecting?)
    ensures Kept(w, p, StepFulfil(w, p, s, c))
  {}

  lemma JudgeKeeps(w: Shared, p: Pid, s: Proc, c: Choice)
    requires Global(w) && Good(w, p, s) && s.at.Work? && s.at.fulfil.Judging?
    ensures Kept(w, p, StepFulfil(w, p, s, c))
  {}

  lemma ResolveKeeps(w: Shared, p: Pid, s: Proc, c: Choice)
    requires Global(w) && Good(w, p, s) && s.at.Pay? && (s.at.resolve.ResolveCall? || s.at.resolve.ResolveWait?)
    ensures Kept(w, p, StepResolve(w, p, s, c))
  {}

  lemma CreditKeeps(w: Shared, p: Pid, s: Proc, c: Choice)
    requires Global(w) && Good(w, p, s) && s.at.Pay? && (s.at.resolve.CreditReputation? || s.at.resolve.DropResolved? || s.at.resolve.CountResolved?)
    ensures Kept(w, p, StepResolve(w, p, s, c))
  {}

  lemma RereadKeeps(w: Shared, p: Pid, s: Proc, c: Choice)
    requires Global(w) && Good(w, p, s) && s.at.Pay? && s.at.resolve.Reread?
    ensures Kept(w, p, StepResolve(w, p, s, c))
  {}

  lemma LostKeeps(w: Shared, p: Pid, s: Proc, c: Choice)
    requires Global(w) && Good(w, p, s) && s.at.Pay? && (s.at.resolve.LostReputation? || s.at.resolve.LostCount?)
    ensures Kept(w, p, StepResolve(w, p, s, c))
  {}

  lemma RefundCallKeeps(w: Shared, p: Pid, s: Proc, c: Choice)
    requires Global(w) && Good(w, p, s) && s.at.Give? && s.at.refund.RefundCall?
    ensures Kept(w, p, StepRefund(w, p, s, c))
  {}

  lemma RefundWaitKeeps(w: Shared, p: Pid, s: Proc, c: Choice)
    requires Global(w) && Good(w, p, s) && s.at.Give? && s.at.refund.RefundWait?
    ensures Kept(w, p, StepRefund(w, p, s, c))
  {}

  lemma DropKeeps(w: Shared, p: Pid, s: Proc, c: Choice)
    requires Global(w) && Good(w, p, s) && s.at.Give? && s.at.refund.DropRefunded?
    ensures Kept(w, p, StepRefund(w, p, s, c))
  {}

  lemma CountKeeps(w: Shared, p: Pid, s: Proc, c: Choice)
    requires Global(w) && Good(w, p, s) && s.at.Give? && s.at.refund.CountRefunded?
    ensures Kept(w, p, StepRefund(w, p, s, c))
  {}

  lemma OwnerKeeps(w: Shared, p: Pid, s: Proc, c: Choice)
    requires Global(w) && Good(w, p, s) && s.at.Give? && s.at.refund.ReadOwner?
    ensures Kept(w, p, StepRefund(w, p, s, c))
  {}

  lemma RestoreKeeps(w: Shared, p: Pid, s: Proc, c: Choice)
    requires Global(w) && Good(w, p, s) && s.at.Give? && s.at.refund.Restoring?
    ensures Kept(w, p, StepRefund(w, p, s, c))
  {}

  lemma ReadKeeps(w: Shared, p: Pid, s: Proc, c: Choice)
    requires Global(w) && Good(w, p, s) && s.at.Patching? && s.at.update.UpdateRead?
    ensures Kept(w, p, StepUpdate(w, p, s))
  {}

  lemma CancelKeeps(w: Shared, p: Pid, s: Proc, c: Choice)
    requires Global(w) && Good(w, p, s) && s.at.Undo? && (s.at.cancel.CancelRead? || s.at.cancel.CancelAuth?)
    ensures Kept(w, p, StepCancel(w, p, s, c))
  {}

  lemma UndoKeeps(w: Shared, p: Pid, s: Proc, c: Choice)
    requires Global(w) && Good(w, p, s) && s.at.Undo? && (s.at.cancel.CancelClaim? || s.at.cancel.CancelWinning?)
    ensures Kept(w, p, StepCancel(w, p, s, c))
  {}

  lemma ScanKeeps(w: Shared, p: Pid, s: Proc, c: Choice)
    requires Global(w) && Good(w, p, s) && s.at.Scan? && (s.at.sweep.SweepRead? || s.at.sweep.SweepJob? || s.at.sweep.SweepFresh?)
    ensures Kept(w, p, StepSweep(w, p, s, c))
  {}

  lemma SweepCallKeeps(w: Shared, p: Pid, s: Proc, c: Choice)
    requires Global(w) && Good(w, p, s) && s.at == Scan(SweepCall)
    ensures Kept(w, p, StepSweep(w, p, s, c))
  {}

  lemma SweepWaitKeeps(w: Shared, p: Pid, s: Proc, c: Choice)
    requires Global(w) && Good(w, p, s) && s.at == Scan(SweepWait)
    ensures Kept(w, p, StepSweep(w, p, s, c))
  {}

  lemma SweepWriteKeeps(w: Shared, p: Pid, s: Proc)
    requires Global(w) && Good(w, p, s) && s.at == Patching(UpdateWrite) && s.path == Sweeping
    ensures Kept(w, p, StepUpdate(w, p, s))
  {}

  lemma RestoreWriteKeeps(w: Shared, p: Pid, s: Proc)
    requires Global(w) && Good(w, p, s) && s.at == Patching(UpdateWrite) && RestorePath(s.path) && s.patch.Settle?
    ensures Kept(w, p, StepUpdate(w, p, s))
  {}

  lemma FinalWriteKeeps(w: Shared, p: Pid, s: Proc)
    requires Global(w) && Good(w, p, s) && s.at == Patching(UpdateWrite) && s.patch.Settle?
    requires s.path != Sweeping && !RestorePath(s.path)
    ensures Kept(w, p, StepUpdate(w, p, s))
  {}

  lemma SettleWriteKeeps(w: Shared, p: Pid, s: Proc)
    requires Global(w) && Good(w, p, s) && s.at == Patching(UpdateWrite) && s.path != Sweeping && s.patch.Settle?
    ensures Kept(w, p, StepUpdate(w, p, s))
  {
    if RestorePath(s.path) { RestoreWriteKeeps(w, p, s); } else { FinalWriteKeeps(w, p, s); }
  }

  lemma StatusWriteKeeps(w: Shared, p: Pid, s: Proc)
    requires Global(w) && Good(w, p, s) && s.at == Patching(UpdateWrite) && s.path != Sweeping && !s.patch.Settle?
    ensures Kept(w, p, StepUpdate(w, p, s))
  {}

  lemma SkipKeeps(w: Shared, p: Pid, s: Proc, c: Choice)
    requires Global(w) && Good(w, p, s) && s.at == Scan(SweepStash)
    requires var v := Classify(s.read, w.stash, c.stale, c.young); !v.RefundIt?
    ensures Kept(w, p, StepSweep(w, p, s, c))
  {}

  lemma ClassifyKeeps(w: Shared, p: Pid, s: Proc, c: Choice)
    requires Global(w) && Good(w, p, s) && s.at == Scan(SweepStash)
    requires var v := Classify(s.read, w.stash, c.stale, c.young); v.RefundIt?
    ensures Kept(w, p, StepSweep(w, p, s, c))
  {}

  lemma RateRefundedKeeps(w: Shared, p: Pid, s: Proc, c: Choice)
    requires Global(w) && Good(w, p, s) && s.at == Give(RefundReputation) && s.outcome == WasRefunded
    ensures Kept(w, p, StepRefund(w, p, s, c))
  {}

  lemma RatePendingKeeps(w: Shared, p: Pid, s: Proc, c: Choice)
    requires Global(w) && Good(w, p, s) && s.at == Give(RefundReputation) && s.outcome != WasRefunded
    ensures Kept(w, p, StepRefund(w, p, s, c))
  {}

  /** An exception books nothing by itself. */
  lemma ThrownKeeps(w: Shared, p: Pid, s: Proc, some: multiset<Worker>)
    requires Global(w) && Good(w, p, s)
    ensures Global(Thrown(w, s, some)) && Forward(w, Thrown(w, s, some), p)
  {
    hide Handler, LateAt, AgainAt, DriftsAt, FallsBack;
  }

  lemma ThrowAttemptKeeps(w: Shared, p: Pid, s: Proc)
    requires Global(w) && Good(w, p, s) && s.at.Patching? && s.path == Attempting
    ensures Good(w.(threw := true), p, Handler(s))
  {}

  lemma ThrowUpdateKeeps(w: Shared, p: Pid, s: Proc)
    requires Global(w) && Good(w, p, s) && s.at.Patching? && (s.path == Fulfilling || s.path == PoolOffline)
    ensures Good(w.(threw := true), p, Handler(s))
  {}

  lemma ThrowQuietKeeps(w: Shared, p: Pid, s: Proc)
    requires Global(w) && Good(w, p, s) && Handler(s).at.Gone?
    ensures Good(w.(threw := true), p, Handler(s))
  {}

  lemma ThrowJudgingKeeps(w: Shared, p: Pid, s: Proc)
    requires Global(w) && Good(w, p, s) && s.at.Work? && Handler(s) != s
    ensures Good(w.(threw := true), p, Handler(s))
  {}

  lemma ThrowPayKeeps(w: Shared, p: Pid, s: Proc)
    requires Global(w) && Good(w, p, s) && s.at.Pay? && Handler(s) != s
    ensures Good(w.(threw := true), p, Handler(s))
  {}

  lemma ThrowGiveKeeps(w: Shared, p: Pid, s: Proc)
    requires Global(w) && Good(w, p, s) && s.at.Give? && Handler(s) != s
    ensures Good(w.(threw := true), p, Handler(s))
  {}

  lemma HandlerKeeps(w: Shared, p: Pid, s: Proc)
    requires Global(w) && Good(w, p, s) && Handler(s) != s
    ensures Good(w.(threw := true), p, Handler(s))
  {
    hide Good, Global;
    if Handler(s).at.Gone? { ThrowQuietKeeps(w, p, s); }
    else if s.at.Pay? { ThrowPayKeeps(w, p, s); }
    else if s.at.Give? { ThrowGiveKeeps(w, p, s); }
    else if s.at.Work? { ThrowJudgingKeeps(w, p, s); }
    else if s.path == Attempting { ThrowAttemptKeeps(w, p, s); }
    else { ThrowUpdateKeeps(w, p, s); }
  }

  lemma GoodAside(w: Shared, w': Shared, p: Pid, s: Proc)
    requires Good(w, p, s) && w' == w.(books := w'.books, falls := w'.falls)
    ensures Good(w', p, s)
  {}

  lemma ThrowKeeps(w: Shared, p: Pid, s: Proc, some: multiset<Worker>)
    requires Global(w) && Good(w, p, s) && Handler(s) != s
    ensures Kept(w, p, Move(Thrown(w, s, some), Handler(s)))
  {
    hide Handler, LateAt, AgainAt, DriftsAt, FallsBack, Good, Global, Forward;
    ThrownKeeps(w, p, s, some);
    HandlerKeeps(w, p, s);
    GoodAside(w.(threw := true), Thrown(w, s, some), p, Handler(s));
  }

  lemma UpdateKeeps(w: Shared, p: Pid, s: Proc, c: Choice)
    requires Global(w) && Good(w, p, s) && s.at.Patching?
    ensures Kept(w, p, StepUpdate(w, p, s))
  {
    if s.at.update.UpdateRead? { ReadKeeps(w, p, s, c); }
    else if s.path == Sweeping { SweepWriteKeeps(w, p, s); }
    else if s.patch.Settle? { SettleWriteKeeps(w, p, s); }
    else { StatusWriteKeeps(w, p, s); }
  }

  lemma GiveKeeps(w: Shared, p: Pid, s: Proc, c: Choice)
    requires Global(w) && Good(w, p, s) && s.at.Give?
    ensures Kept(w, p, StepRefund(w, p, s, c))
  {
    match s.at.refund
    case RefundCall => RefundCallKeeps(w, p, s, c);
    case RefundWait => RefundWaitKeeps(w, p, s, c);
    case RefundReputation =>
      if s.outcome == WasRefunded { RateRefundedKeeps(w, p, s, c); } else { RatePendingKeeps(w, p, s, c); }
    case DropRefunded => DropKeeps(w, p, s, c);
    case CountRefunded => CountKeeps(w, p, s, c);
    case ReadOwner => OwnerKeeps(w, p, s, c);
    case Restoring => RestoreKeeps(w, p, s, c);
  }

  lemma PayKeeps(w: Shared, p: Pid, s: Proc, c: Choice)
    requires Global(w) && Good(w, p, s) && s.at.Pay?
    ensures Kept(w, p, StepResolve(w, p, s, c))
  {
    var r := s.at.resolve;
    if r.ResolveCall? || r.ResolveWait? { ResolveKeeps(w, p, s, c); }
    else if r.Reread? { RereadKeeps(w, p, s, c); }
    else if r.LostReputation? || r.LostCount? { LostKeeps(w, p, s, c); }
    else { CreditKeeps(w, p, s, c); }
  }

  lemma ScanningKeeps(w: Shared, p: Pid, s: Proc, c: Choice)
    requires Global(w) && Good(w, p, s) && s.at.Scan?
    ensures Kept(w, p, StepSweep(w, p, s, c))
  {
    var x := s.at.sweep;
    if x.SweepCall? { SweepCallKeeps(w, p, s, c); } else if x.SweepWait? { SweepWaitKeeps(w, p, s, c); }
    else if !x.SweepStash? { ScanKeeps(w, p, s, c); }
    else if Classify(s.read, w.stash, c.stale, c.young).RefundIt? { ClassifyKeeps(w, p, s, c); }
    else { SkipKeeps(w, p, s, c); }
  }

  lemma IdleKeeps(w: Shared, p: Pid, s: Proc)
    requires Global(w) && Good(w, p, s)
    ensures Kept(w, p, Move(w, s))
  {}

  /** Whatever position a process is in, its step keeps the invariant. */
  lemma ActKeeps(w: Shared, p: Pid, s: Proc, c: Choice)
    requires Global(w) && Good(w, p, s)
    ensures Kept(w, p, ActStep(w, p, s, c))
  {
    hide Good, Global, Forward, Kept;
    match s.at
    case Begin(b) =>
      if b.Claiming? || b.Creating? { ClaimKeeps(w, p, s, c); }
      else if b.Owning? || b.Armed? { HoldKeeps(w, p, s, c); }
      else { CheckKeeps(w, p, s, c); }
    case Work(f) => if f.Judging? { JudgeKeeps(w, p, s, c); } else { CollectKeeps(w, p, s, c); }
    case Pay(_) => PayKeeps(w, p, s, c);
    case Give(_) => GiveKeeps(w, p, s, c);
    case Patching(_) => UpdateKeeps(w, p, s, c);
    case Undo(u) =>
      if u.CancelRead? || u.CancelAuth? { CancelKeeps(w, p, s, c); } else { UndoKeeps(w, p, s, c); }
    case Scan(_) => ScanningKeeps(w, p, s, c);
    case _ => IdleKeeps(w, p, s);
  }

  lemma LandKeeps(w: Shared, tx: Tx)
    requires Global(w)
    ensures Global(Outside(w, Land(tx)))
  {}

  lemma OutsideKeeps(w: Shared, e: Event, p: Pid)
    requires Global(w)
    ensures Global(Outside(w, e)) && Forward(w, Outside(w, e), p)
  {
    OutsideForward(w, e, p);
    hide Global, Forward;
    match e
    case Land(tx) => LandKeeps(w, tx);
    case TimeoutRefund => TimeoutKeeps(w);
    case ExpireStash => ExpireKeeps(w);
    case _ =>
  }

  lemma TimeoutKeeps(w: Shared)
    requires Global(w)
    ensures Global(Outside(w, TimeoutRefund))
  {}

  lemma ExpireKeeps(w: Shared)
    requires Global(w)
    ensures Global(Outside(w, ExpireStash))
  {}

  lemma OutsideForward(w: Shared, e: Event, p: Pid)
    ensures Forward(w, Outside(w, e), p)
  {}

  lemma OutsideStepKeeps(w: World, e: Event)
    requires Inv(w)
    ensures Inv(w.(sh := Outside(w.sh, e))) && Onward(w.sh, Outside(w.sh, e))
  {
    OutsideKeeps(w.sh, e, w.next);
    forall q | q in w.procs ensures Good(Outside(w.sh, e), q, w.procs[q]) {
      Bystander(w.sh, Outside(w.sh, e), w.next, q, w.procs[q]);
    }
  }

  lemma GoodOf(w: World, p: Pid)
    requires Inv(w) && p in w.procs
    ensures Good(w.sh, p, w.procs[p]) && Global(w.sh)
  {}

  /** Whoever is about to win the right to act finds nobody acting. */
  predicate Vacant(w: Shared, s: Proc) {
    && (s.at == Begin(Claiming) && w.claims == 0 ==> w.actor.None? && !w.created)
    && (s.at == Begin(Armed) && w.decisions == 0 ==> w.actor.None?)
    && (s.at == Undo(CancelClaim) && w.decisions == 0 ==> w.actor.None?)
  }

  lemma IsVacant(w: Shared, p: Pid, s: Proc)
    requires Global(w) && Good(w, p, s)
    ensures Vacant(w, s)
  {}

  lemma InitHolds()
    ensures Inv(Init())
  {}

  lemma SpawnKeeps(w: World, k: Kind)
    requires Inv(w)
    ensures Inv(World(w.sh, w.procs[w.next := First(k)], w.next + 1))
  {
    assert Good(w.sh, w.next, First(k));
  }

  lemma ThrowStepKeeps(w: World, p: Pid, some: multiset<Worker>)
    requires Inv(w) && p in w.procs && Handler(w.procs[p]) != w.procs[p] && Partly(w.procs[p], some)
    ensures var w' := World(Thrown(w.sh, w.procs[p], some), w.procs[p := Handler(w.procs[p])], w.next);
      Inv(w') && Onward(w.sh, w'.sh)
  {
    ThrowKeeps(w.sh, p, w.procs[p], some);
    Compose(w, p, Move(Thrown(w.sh, w.procs[p], some), Handler(w.procs[p])));
  }

  /** A process that dies while it records outcomes leaves a part of them. */
  lemma CrashKeeps(w: Shared, p: Pid, s: Proc, some: multiset<Worker>)
    requires Global(w) && Good(w, p, s) && Partly(s, some)
    ensures Global(Record(w, some)) && Forward(w, Record(w, some), p)
  {
    if !Recording(s) { assert Record(w, some) == w; }
  }

  lemma CrashStepKeeps(w: World, p: Pid, some: multiset<Worker>)
    requires Inv(w) && p in w.procs && Partly(w.procs[p], some)
    ensures var w' := World(Record(w.sh, some), w.procs - {p}, w.next);
      Inv(w') && Onward(w.sh, w'.sh)
  {
    CrashKeeps(w.sh, p, w.procs[p], some);
    forall q | q in w.procs && q != p ensures Good(Record(w.sh, some), q, w.procs[q]) {
      Bystander(w.sh, Record(w.sh, some), p, q, w.procs[q]);
    }
  }

  lemma ActStepKeeps(w: World, p: Pid, c: Choice)
    requires Inv(w) && p in w.procs
    ensures var m := ActStep(w.sh, p, w.procs[p], c);
      Inv(World(m.sh, w.procs[p := m.s], w.next)) && Onward(w.sh, m.sh)
  {
    ActKeeps(w.sh, p, w.procs[p], c);
    Compose(w, p, ActStep(w.sh, p, w.procs[p], c));
  }

  lemma StepKeeps(w: World, e: Event)
    requires Inv(w)
    ensures Inv(Step(w, e)) && Onward(w.sh, Step(w, e).sh)
  {
    match e
    case Spawn(k) => SpawnKeeps(w, k);
    case Crash(p, some) => if p in w.procs && Partly(w.procs[p], some) { CrashStepKeeps(w, p, some); }
    case Act(p, c) => if p in w.procs { ActStepKeeps(w, p, c); }
    case Throw(p, some) =>
      if p in w.procs && Handler(w.procs[p]) != w.procs[p] && Partly(w.procs[p], some) { ThrowStepKeeps(w, p, some); }
    case _ => OutsideStepKeeps(w, e);
  }

  /** Every state that any run can reach satisfies the invariant. */
  lemma {:induction false} RunKeeps(es: seq<Event>)
    ensures Inv(Exec(Init(), es))
    decreases |es|
  {
    if es == [] {
      InitHolds();
    } else {
      RunKeeps(es[..|es| - 1]);
      StepKeeps(Exec(Init(), es[..|es| - 1]), es[|es| - 1]);
    }
  }
}
