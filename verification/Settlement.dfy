/** The life of one paid question as a state machine over atomic store and chain steps.

    Any number of duplicate `startFulfillment` calls, `cancelJob` calls and recovery sweeps run
    against the same records. Every store read or write, every broadcast of a transaction and every
    reply from the chain is a step of its own; between two steps of one process any other process,
    the chain or a third party may move. A process may crash before any step, a store step may
    throw, and a transaction that was broadcast may land at any later time, or never. Reputation is
    written for all workers at once: a crash or an exception in there leaves any part of it written.

    Claim keys and job records do not expire in this model. */
module Settlement {

  import opened Common

  type Pid = nat
  type Worker = nat

  // ---- Records -------------------------------------------------------------------------------

  /** On-chain status. Both settled statuses are terminal: the contract rejects resolve() and
      refund() on a question that is not pending. */
  datatype Chain = Pending | Resolved | Refunded

  datatype TxKind = ResolveTx | RefundTx
  datatype Tx = Tx(sender: Pid, kind: TxKind)

  /** `Unset` is the status of a record that was patched into existence without one. */
  datatype Status = Unset | Holding | AwaitingWorkers | Reconciling | Cancelling | Settled

  datatype Outcome = NoOutcome | WasResolved | WasRefunded | LostRace | RefundPendingTimeout

  datatype Job = NoJob | Job(status: Status, outcome: Outcome, instant: bool)

  datatype Patch = SetStatus(status: Status) | Settle(outcome: Outcome) | Touch

  /** updateJob merges the patch over whatever was read, `{}` when nothing was. */
  function Merge(j: Job, patch: Patch): Job {
    var base := if j.NoJob? then Job(Unset, NoOutcome, false) else j;
    match patch
    case SetStatus(s) => base.(status := s)
    case Settle(o) => base.(status := Settled, outcome := o)
    case Touch => base
  }

  predicate IsSettled(j: Job) { j.Job? && j.status == Settled }

  // ---- Processes -----------------------------------------------------------------------------

  /** What one `startFulfillment` call was given. */
  datatype Args = Args(held: bool, apiKey: bool, instant: bool, pool: bool)

  /** Instant questions are never held, and a non-positive hold disables the window. */
  function UndoWindowFor(instant: bool, holdMs: int): (ms: nat)
    ensures ms > 0 <==> !instant && holdMs > 0
    ensures ms > 0 ==> ms == holdMs
  {
    if instant || holdMs <= 0 then 0 else holdMs
  }

  /** The piece of code a step belongs to; decides what follows and who catches an exception. */
  datatype Path =
    | Starting       // startFulfillment, the hold timer, dispatchUnlessPaused
    | Pausing        // refundForDispatchPause
    | Fulfilling     // fulfillOracleCall
    | Attempting     // settleResolved's try block
    | PoolOffline    // the private-pool refund inside fulfillOracleCall
    | SafetyNet      // runFulfillment's last-resort catch
    | Undoing    // cancelJob
    | Sweeping       // the recovery sweep

  /** Program counters, by procedure. */
  datatype StartAt = Claiming | Creating | Owning | Armed | Winning | Checking
  datatype FulfilAt = Dispatching | Collecting | Judging
  datatype ResolveAt = ResolveCall | ResolveWait | CreditReputation | DropResolved | CountResolved
                     | Reread | LostReputation | LostCount
  datatype RefundAt = RefundCall | RefundWait | RefundReputation | DropRefunded | CountRefunded
                    | ReadOwner | Restoring
  datatype UpdateAt = UpdateRead | UpdateWrite
  datatype CancelAt = CancelRead | CancelAuth | CancelClaim | CancelWinning
  datatype SweepAt = SweepRead | SweepJob | SweepStash | SweepFresh | SweepCall | SweepWait

  datatype At =
    | Begin(start: StartAt)      // startFulfillment and the hold timer
    | Work(fulfil: FulfilAt)     // fulfillOracleCall
    | Pay(resolve: ResolveAt)    // settleResolved, settleInstantResolved
    | Give(refund: RefundAt)     // settleRefunded, then restoreCredit where it applies
    | Patching(update: UpdateAt) // updateJob: a read, then a write
    | Undo(cancel: CancelAt)     // cancelJob
    | Scan(sweep: SweepAt)       // sweepPendingQuestions, one question
    | Done                       // ran to its end
    | Gone                       // lost a claim, or threw

  /** Reputation is recorded once per submission: worker in `m` or not. */
  datatype Pass = Pass(subs: seq<Worker>, m: seq<Worker>)

  /** One process: where it stands and its local variables. */
  datatype Proc = Proc(
    at: At, path: Path, a: Args,
    rating: Pass,          // submissions and matching workers
    patch: Patch,          // what updateJob is called with
    read: Job,             // the record it read
    outcome: Outcome,      // the outcome written
    flag: bool)            // provenance committed; owner key seen; credit restored

  /** Everything the environment decides about one step; each step looks only at its own part. */
  datatype Choice = Choice(
    ok: bool,            // a call replies with success
    paused: bool,        // a maintenance window is open
    authorized: bool,    // the canceller proved who they are
    readable: bool,      // the chain re-read succeeds
    offline: bool,       // nobody of the private pool is connected
    touch: bool,         // write job metadata that changes neither status nor outcome
    confident: bool,     // confidence clears the bar; instant tier: a draft was produced
    stale: bool,         // untouched for staleInflightMs
    young: bool,         // opened less than minAgeLedgers ago
    subs: seq<Worker>,   // what the quorum collector returned
    matching: seq<Worker>)

  datatype Kind = Start(instant: bool, holdMs: int, apiKey: bool, pool: bool) | Cancel | Sweep

  datatype Event =
    | Spawn(kind: Kind)
    | Act(p: Pid, c: Choice)
    | Throw(p: Pid, some: multiset<Worker>)
    | Crash(p: Pid, some: multiset<Worker>)
    | Land(tx: Tx)
    | TimeoutRefund
    | ExpireStash

  /** How often the irreversible things happened. */
  datatype Core = Core(dispatches: nat, cancels: nat, restored: nat)

  /** What the driver of the question has booked: an outcome recorded for each worker and the last
      complete pass over them, how many settled writes and the last one, and the two public counters. */
  datatype Books = Books(recorded: multiset<Worker>, rated: Pass, writes: nat, written: Outcome,
                         resolvedStat: nat, refundedStat: nat)

  /** History of exceptions, read by no step: what was booked when one last made the driver fall back,
      and whether one ever came after reputation was written, after the settled write, after a count. */
  datatype Falls = Falls(before: Books, late: bool, again: bool, drifted: bool)

  /** History of the record: a sweep settled it, a write took a settlement back, or counted it again. */
  datatype Races = Races(swept: bool, reopened: bool, recounted: bool)

  datatype Driver = NoDriver | Driver(pid: Pid, args: Args)

  /** Everything the processes share. */
  datatype Shared = Shared(
    // store records
    claims: nat, decisions: nat, job: Job, ownerKey: bool, stash: bool, committed: bool,
    // chain
    chain: Chain, sent: set<Tx>, landedBy: Option<Pid>,
    // counters the code keeps or that its effects amount to
    settlements: nat, core: Core, books: Books,
    verdict: Pass,       // submissions collected, workers judged to match
    // history, read by no step
    driver: Driver, created: bool, actor: Option<Pid>, resolveSent: bool, tried: bool, threw: bool,
    falls: Falls, races: Races)

  datatype World = World(sh: Shared, procs: map<Pid, Proc>, next: Pid)

  const NO_ARGS := Args(false, false, false, false)
  const NO_PASS := Pass([], [])
  const NOTHING := Books(multiset{}, NO_PASS, 0, NoOutcome, 0, 0)
  const NO_FALLS := Falls(NOTHING, false, false, false)
  const NO_RACES := Races(false, false, false)

  function Init(): World {
    World(Shared(0, 0, NoJob, false, true, false, Pending, {}, None, 0, Core(0, 0, 0), NOTHING, NO_PASS,
                 NoDriver, false, None, false, false, false, NO_FALLS, NO_RACES),
          map[], 0)
  }

  // ---- Steps ---------------------------------------------------------------------------------

  /** The result of one process's step: the shared state and the process itself. */
  datatype Move = Move(sh: Shared, s: Proc)

  function To(s: Proc, at: At): Proc { s.(at := at) }

  function Update(s: Proc, path: Path, patch: Patch): Proc {
    s.(at := Patching(UpdateRead), path := path, patch := patch)
  }

  /** What runs after an updateJob call. */
  function After(s: Proc): Proc {
    match s.patch
    case Settle(o) =>
      var t := s.(outcome := o);
      if s.path == Sweeping then To(t, Gone)
      else if s.path == Pausing || s.path == PoolOffline then To(t, Give(ReadOwner))
      else if s.path == Undoing then To(t, Give(Restoring))
      else t.(at := Done, flag := false)
    case _ =>
      if s.path == Starting then To(s, Work(Dispatching))
      else if s.path == Fulfilling then To(s, Work(Judging))
      else if s.path == Sweeping then To(s, Gone)
      else To(s, Give(RefundCall))
  }

  /** Only fulfillOracleCall runs under the safety net; elsewhere the exception is just logged. */
  function Net(s: Proc): Proc {
    if s.path == Fulfilling || s.path == Attempting || s.path == PoolOffline
    then Update(s, SafetyNet, Settle(RefundPendingTimeout))
    else To(s, Gone)
  }

  /** Where control goes when a store call throws at `s`; calls that cannot throw stay. */
  function Handler(s: Proc): Proc {
    match s.at
    case Begin(b) => if b.Armed? then s else To(s, Gone)
    case Work(f) => if f.Judging? then Net(s) else s
    case Pay(r) =>
      if r.LostReputation? || r.LostCount? then Net(s)
      else if r.CreditReputation? || r.DropResolved? || r.CountResolved? then To(s, Pay(Reread))
      else s
    case Give(r) => if r.RefundCall? || r.RefundWait? then s else Net(s)
    case Patching(_) =>
      if s.path == Attempting && s.patch == Settle(WasResolved) then To(s, Pay(Reread))
      else if s.path == Fulfilling && s.patch.Touch? && s.flag then To(s, Work(Judging))
      else Net(s)
    case Undo(_) => To(s, Gone)
    case Scan(x) => if x.SweepJob? || x.SweepStash? then To(s, Gone) else s
    case _ => s
  }

  // ---- Exceptions that leave a trace -----------------------------------------------------------

  /** One outcome recorded for each submission. */
  function Each(subs: seq<Worker>): (r: multiset<Worker>)
    ensures r == multiset{} <==> subs == []
  {
    if subs != [] then assert subs[0] in multiset(subs); multiset(subs) else multiset{}
  }

  function Also(a: multiset<Worker>, b: multiset<Worker>): (r: multiset<Worker>)
    ensures a == multiset{} ==> r == b
    ensures b == multiset{} ==> r == a
  {
    a + b
  }

  predicate Within(a: multiset<Worker>, b: multiset<Worker>)
    ensures a == multiset{} || a == b ==> Within(a, b)
    ensures b == multiset{} && Within(a, b) ==> a == multiset{}
  {
    a <= b
  }

  predicate Recording(s: Proc) {
    s.at == Pay(CreditReputation) || s.at == Pay(LostReputation) || s.at == Give(RefundReputation)
  }

  /** What may have been recorded when the process dies at `s`. */
  predicate Partly(s: Proc, some: multiset<Worker>) {
    if Recording(s) then Within(some, Each(s.rating.subs)) else some == multiset{}
  }

  /** resolve() landed and outcomes were recorded: the handler falls back to a refund, which records
      every outcome. */
  predicate LateAt(s: Proc, some: multiset<Worker>) {
    || (s.at == Pay(CreditReputation) && some != multiset{})
    || (s.rating.subs != []
        && (s.at == Pay(DropResolved) || s.at == Pay(CountResolved)
            || (s.at.Patching? && s.path == Attempting && s.patch == Settle(WasResolved))))
  }

  /** The private-pool refund is recorded, its credit not yet restored: the safety net settles again. */
  predicate AgainAt(s: Proc) {
    s.path == PoolOffline && (s.at == Give(ReadOwner) || s.at == Give(Restoring))
  }

  predicate Counts(o: Outcome) { o == WasResolved || o == WasRefunded || o == LostRace }

  /** An outcome was counted that will not be the one recorded. */
  predicate DriftsAt(s: Proc) {
    && (s.path == Fulfilling || s.path == Attempting || s.path == PoolOffline)
    && ((s.at.Patching? && s.patch.Settle? && Counts(s.patch.outcome))
        || (AgainAt(s) && s.outcome == WasRefunded))
  }

  function Record(w: Shared, some: multiset<Worker>): Shared {
    w.(books := w.books.(recorded := Also(w.books.recorded, some)))
  }

  /** The exception is caught and the question settled in another way. */
  predicate FallsBack(s: Proc) {
    Handler(s).at == Pay(Reread) || (Handler(s).path == SafetyNet && Handler(s).at.Patching?)
  }

  /** The driver falls back: what is booked by now is what was booked before. */
  function Fallen(w: Shared, late: bool, again: bool, drifted: bool): Shared {
    w.(falls := Falls(w.books, w.falls.late || late, w.falls.again || again, w.falls.drifted || drifted))
  }

  /** Process `s` throws, having recorded `some`. */
  function Thrown(w: Shared, s: Proc, some: multiset<Worker>): Shared {
    var w1 := Record(w, some).(threw := true);
    if FallsBack(s) then Fallen(w1, LateAt(s, some), AgainAt(s), DriftsAt(s)) else w1
  }

  // ---- Writes that race with a sweep -----------------------------------------------------------

  /** The writes that take a settled record out of 'settled'. */
  predicate Reopens(s: Proc, j: Job) {
    && IsSettled(j)
    && (s.at == Begin(Creating)
        || (s.at == Patching(UpdateWrite) && s.path != Sweeping
            && (s.patch.SetStatus? || (s.patch.Touch? && !IsSettled(s.read)))))
  }

  /** The writes that count a settlement that was counted before. */
  predicate Recounts(s: Proc, j: Job) {
    s.at == Patching(UpdateWrite) && s.patch.Settle? && IsSettled(j) && !IsSettled(s.read)
  }

  function Raced(w: Shared, s: Proc): Races {
    Races(w.races.swept || (s.at == Patching(UpdateWrite) && s.path == Sweeping && !(IsSettled(s.read) && IsSettled(w.job))),
          w.races.reopened || Reopens(s, w.job), w.races.recounted || Recounts(s, w.job))
  }

  // ---- Steps of each procedure -----------------------------------------------------------------

  predicate ShouldResolve(instant: bool, subs: seq<Worker>, m: seq<Worker>, confident: bool) {
    if instant then confident else |subs| > 0 && |m| > 0 && confident
  }

  /** The reply to p's own transaction can only be a success once that transaction has landed. */
  predicate Replied(w: Shared, p: Pid, kind: Chain, c: Choice) {
    c.ok && w.chain == kind && w.landedBy == Some(p)
  }

  function Rate(w: Shared, pass: Pass): Shared {
    w.(books := w.books.(recorded := Also(w.books.recorded, Each(pass.subs)), rated := pass))
  }

  function StepStart(w: Shared, p: Pid, s: Proc, c: Choice): Move
    requires s.at.Begin?
  {
    match s.at.start
    case Claiming =>
      var w1 := w.(claims := w.claims + 1);
      if w1.claims != 1 then Move(w1, To(s, Gone))
      else Move(w1.(driver := Driver(p, s.a), actor := if s.a.held then w.actor else Some(p)), To(s, Begin(Creating)))
    case Creating =>
      var record := Job(if s.a.held then Holding else AwaitingWorkers, NoOutcome, s.a.instant);
      Move(w.(job := record, created := true, races := Raced(w, s)), To(s, Begin(Owning)))
    case Owning =>
      Move(w.(ownerKey := w.ownerKey || s.a.apiKey), To(s, if s.a.held then Begin(Armed) else Begin(Checking)))
    case Armed =>
      var w1 := w.(decisions := w.decisions + 1);
      if w1.decisions != 1 then Move(w1, To(s, Gone)) else Move(w1.(actor := Some(p)), To(s, Begin(Winning)))
    case Winning => Move(w, To(s, Begin(Checking)))
    case Checking =>
      if c.paused then Move(w, Update(s, Pausing, SetStatus(Reconciling)))
      else if s.a.held then Move(w, Update(s, Starting, SetStatus(AwaitingWorkers)))
      else Move(w, To(s, Work(Dispatching)))
  }

  /** From the collected answers, or the draft, to the decision. */
  function Judge(w: Shared, s: Proc, c: Choice): Move {
    var judged := s.(rating := Pass(s.rating.subs, c.matching));
    var w1 := w.(verdict := judged.rating);
    if s.a.pool && !s.a.instant && s.rating.subs == [] && c.offline && !s.flag
    then Move(w, s.(at := Give(RefundCall), path := PoolOffline, rating := NO_PASS))
    else if c.touch && !s.flag then Move(w, Update(s, Fulfilling, Touch))
    else if !s.flag then
      // commitProvenance: a failure to save is logged, a success is published on the record
      Move(w.(tried := true, committed := c.ok),
           if c.ok then Update(s.(flag := true), Fulfilling, Touch) else s.(flag := true))
    else if ShouldResolve(s.a.instant, s.rating.subs, c.matching, c.confident)
    then Move(w1, judged.(at := Pay(ResolveCall), path := Attempting))
    else Move(w1, To(judged, Give(RefundCall)))
  }

  function StepFulfil(w: Shared, p: Pid, s: Proc, c: Choice): Move
    requires s.at.Work?
  {
    match s.at.fulfil
    case Dispatching =>
      var w1 := w.(core := w.core.(dispatches := w.core.dispatches + 1));
      var t := s.(path := Fulfilling, rating := NO_PASS);
      Move(w1, if s.a.instant then Update(t, Fulfilling, SetStatus(Reconciling)) else To(t, Work(Collecting)))
    case Collecting =>
      var w1 := w.(verdict := Pass(c.subs, []));
      Move(w1, Update(s.(rating := w1.verdict), Fulfilling, SetStatus(Reconciling)))
    case Judging => Judge(w, s, c)
  }

  function StepResolve(w: Shared, p: Pid, s: Proc, c: Choice): Move
    requires s.at.Pay?
  {
    match s.at.resolve
    case ResolveCall =>
      Move(w.(sent := w.sent + {Tx(p, ResolveTx)}, resolveSent := true), To(s, Pay(ResolveWait)))
    case ResolveWait => Move(w, To(s, if Replied(w, p, Resolved, c) then Pay(CreditReputation) else Pay(Reread)))
    case CreditReputation => Move(Rate(w, s.rating), To(s, Pay(DropResolved)))
    case DropResolved => Move(w.(stash := false), To(s, Pay(CountResolved)))
    case CountResolved =>
      var w1 := w.(books := w.books.(resolvedStat := w.books.resolvedStat + 1));
      Move(w1, Update(s, Attempting, Settle(WasResolved)))
    case Reread =>
      if c.readable && w.chain == Refunded
      then Move(w, s.(at := Pay(LostReputation), rating := Pass(s.rating.subs, [])))
      else Move(w, s.(at := Give(RefundCall), path := Fulfilling))
    case LostReputation => Move(Rate(w, s.rating), To(s, Pay(LostCount)))
    case LostCount =>
      var w1 := w.(books := w.books.(refundedStat := w.books.refundedStat + 1));
      Move(w1, Update(s, Attempting, Settle(LostRace)))
  }

  function StepRefund(w: Shared, p: Pid, s: Proc, c: Choice): Move
    requires s.at.Give?
  {
    match s.at.refund
    case RefundCall => Move(w.(sent := w.sent + {Tx(p, RefundTx)}), To(s, Give(RefundWait)))
    case RefundWait =>
      Move(w, s.(at := Give(RefundReputation),
                  outcome := if Replied(w, p, Refunded, c) then WasRefunded else RefundPendingTimeout))
    case RefundReputation =>
      Move(Rate(w, s.rating),
         if s.outcome == WasRefunded then To(s, Give(DropRefunded))
         else Update(s, s.path, Settle(RefundPendingTimeout)))
    case DropRefunded => Move(w.(stash := false), To(s, Give(CountRefunded)))
    case CountRefunded =>
      var w1 := w.(books := w.books.(refundedStat := w.books.refundedStat + 1));
      Move(w1, Update(s, s.path, Settle(WasRefunded)))
    case ReadOwner =>
      Move(w, if w.ownerKey then To(s, Give(Restoring)) else s.(at := Done, flag := false))
    case Restoring =>
      if s.path == Undoing && !s.flag then Move(w, To(s, Done))
      else Move(w.(core := w.core.(restored := w.core.restored + 1)), s.(at := Done, flag := true))
  }

  function StepUpdate(w: Shared, p: Pid, s: Proc): Move
    requires s.at.Patching?
  {
    match s.at.update
    case UpdateRead => Move(w, s.(at := Patching(UpdateWrite), read := w.job))
    case UpdateWrite =>
      var merged := Merge(s.read, s.patch);
      var w1 := w.(job := merged,
                   settlements := w.settlements + if IsSettled(merged) && !IsSettled(s.read) then 1 else 0,
                   races := Raced(w, s),
                   books := if s.patch.Settle? && s.path != Sweeping
                            then w.books.(writes := w.books.writes + 1, written := s.patch.outcome)
                            else w.books);
      Move(w1, After(s))
  }

  function StepCancel(w: Shared, p: Pid, s: Proc, c: Choice): Move
    requires s.at.Undo?
  {
    match s.at.cancel
    case CancelRead => Move(w, s.(at := if w.job.NoJob? then Gone else Undo(CancelAuth), read := w.job))
    case CancelAuth =>
      var j := s.read;
      Move(w, s.(at := if c.authorized && j.Job? && !j.instant && j.status == Holding then Undo(CancelClaim) else Gone,
                  flag := w.ownerKey))
    case CancelClaim =>
      var w1 := w.(decisions := w.decisions + 1);
      if w1.decisions != 1 then Move(w1, To(s, Gone)) else Move(w1.(actor := Some(p)), To(s, Undo(CancelWinning)))
    case CancelWinning =>
      var w1 := w.(core := w.core.(cancels := w.core.cancels + 1));
      Move(w1, Update(s, Undoing, SetStatus(Cancelling)))
  }

  predicate InFlight(s: Status) {
    s == Holding || s == AwaitingWorkers || s == Reconciling || s == Cancelling
  }

  datatype Verdict = Skip | Flag | RefundIt

  /** classifyPendingQuestion for a question that was read as pending. */
  function Classify(j: Job, stash: bool, stale: bool, young: bool): Verdict {
    if j.Job? then
      if InFlight(j.status) then if stale then RefundIt else Skip
      else if j.status == Settled && j.outcome == RefundPendingTimeout then RefundIt
      else Flag
    else if stash || young then Skip
    else RefundIt
  }

  function StepSweep(w: Shared, p: Pid, s: Proc, c: Choice): Move
    requires s.at.Scan?
  {
    match s.at.sweep
    case SweepRead => Move(w, To(s, if w.chain == Pending then Scan(SweepJob) else Gone))
    case SweepJob => Move(w, s.(at := Scan(SweepStash), read := w.job))
    case SweepStash =>
      var v := Classify(s.read, w.stash, c.stale, c.young);
      if v.RefundIt? then Move(w, To(s, Scan(SweepFresh)))
      else Move(w, To(s, Gone))
    case SweepFresh => Move(w, To(s, if w.chain == Pending then Scan(SweepCall) else Gone))
    case SweepCall => Move(w.(sent := w.sent + {Tx(p, RefundTx)}), To(s, Scan(SweepWait)))
    case SweepWait =>
      Move(w, if Replied(w, p, Refunded, c) then Update(s, Sweeping, Settle(WasRefunded)) else To(s, Gone))
  }

  function ActStep(w: Shared, p: Pid, s: Proc, c: Choice): Move {
    if s.at.Begin? then StepStart(w, p, s, c)
    else if s.at.Work? then StepFulfil(w, p, s, c)
    else if s.at.Pay? then StepResolve(w, p, s, c)
    else if s.at.Give? then StepRefund(w, p, s, c)
    else if s.at.Patching? then StepUpdate(w, p, s)
    else if s.at.Undo? then StepCancel(w, p, s, c)
    else if s.at.Scan? then StepSweep(w, p, s, c)
    else Move(w, s)
  }

  function First(k: Kind): Proc {
    match k
    case Start(instant, holdMs, apiKey, pool) =>
      var a := Args(UndoWindowFor(instant, holdMs) > 0, apiKey, instant, pool);
      Proc(Begin(Claiming), Starting, a, NO_PASS, Touch, NoJob, NoOutcome, false)
    case Cancel => Proc(Undo(CancelRead), Undoing, NO_ARGS, NO_PASS, Touch, NoJob, NoOutcome, false)
    case Sweep => Proc(Scan(SweepRead), Sweeping, NO_ARGS, NO_PASS, Touch, NoJob, NoOutcome, false)
  }

  function Step(w: World, e: Event): World {
    match e
    case Spawn(k) => World(w.sh, w.procs[w.next := First(k)], w.next + 1)
    case Act(p, c) =>
      if p in w.procs then
        var m := ActStep(w.sh, p, w.procs[p], c);
        World(m.sh, w.procs[p := m.s], w.next)
      else w
    case Throw(p, some) =>
      if p in w.procs && Handler(w.procs[p]) != w.procs[p] && Partly(w.procs[p], some)
      then World(Thrown(w.sh, w.procs[p], some), w.procs[p := Handler(w.procs[p])], w.next) else w
    case Crash(p, some) =>
      if p in w.procs && Partly(w.procs[p], some)
      then World(Record(w.sh, some), w.procs - {p}, w.next) else w
    case _ => w.(sh := Outside(w.sh, e))
  }

  /** Moves of the chain, third parties and time. */
  function Outside(w: Shared, e: Event): Shared {
    match e
    case Land(tx) =>
      if tx in w.sent && w.chain == Pending
      then w.(chain := if tx.kind.ResolveTx? then Resolved else Refunded, landedBy := Some(tx.sender))
      else w
    case TimeoutRefund => if w.chain == Pending then w.(chain := Refunded, landedBy := None) else w
    case ExpireStash => w.(stash := false)
    case _ => w
  }

  function Exec(w: World, es: seq<Event>): World
    decreases |es|
  {
    if es == [] then w else Step(Exec(w, es[..|es| - 1]), es[|es| - 1])
  }
}
