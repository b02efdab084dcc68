/** What happens to the job record while its driver and recovery sweeps write it by turns: which
    changes of status there are, which writes take a settlement back, and which count it twice. */
module SettlementRecords {
  import opened Common
  import opened Settlement
  import opened SettlementInvariant

  // ---- The status graph ----------------------------------------------------------------------------

  /** The documented graph: [holding ->] awaiting_workers -> reconciling -> settled, and
      holding -> cancelling -> settled for a cancelled job. */
  predicate StatusEdge(from: Status, to: Status) {
    match from
    case Holding => to == AwaitingWorkers || to == Cancelling
    case AwaitingWorkers => to == Reconciling
    case Reconciling => to == Settled
    case Cancelling => to == Settled
    case _ => false
  }

  /** The status is kept, given by the creation of the record, or changed along the graph. */
  predicate Documented(from: Job, to: Job) {
    if from.NoJob? then to.NoJob? || to.status == Holding || to.status == AwaitingWorkers
    else to.Job? && (from.status == to.status || StatusEdge(from.status, to.status))
  }

  /** The writes that leave the graph: a pause that opened during the hold, the safety net of a driver
      whose 'reconciling' write threw, and the refund of a sweep that found anything but a job on its
      last edge. */
  predicate Strays(s: Proc, j: Job) {
    && s.at == Patching(UpdateWrite)
    && match s.path
       case Pausing => s.patch.SetStatus? && j.Job? && j.status == Holding
       case SafetyNet => j.Job? && j.status == AwaitingWorkers
       case Sweeping => j.NoJob? || (j.status != Reconciling && j.status != Cancelling && j.status != Settled)
       case _ => false
  }

  /** Which statuses the record can have while the acting process stands at `s`. */
  predicate StatusAt(s: Proc, st: Status) {
    match s.at
    case Begin(b) => st == if s.a.held then Holding else AwaitingWorkers
    case Work(f) => st == if f.Judging? then Reconciling else AwaitingWorkers
    case Pay(_) => st == Reconciling
    case Give(r) =>
      st == if r.ReadOwner? || r.Restoring? then Settled
            else if s.path == Undoing then Cancelling else Reconciling
    case Patching(_) => StatusBeforeUpdate(s, st)
    case Undo(_) => st == Holding
    case Done => st == Settled
    case _ => true
  }

  predicate StatusBeforeUpdate(s: Proc, st: Status) {
    if s.path == SafetyNet then st == AwaitingWorkers || st == Reconciling || st == Settled
    else if s.patch.SetStatus? then
      if s.path == Starting || s.path == Undoing then st == Holding
      else if s.path == Pausing then st == if s.a.held then Holding else AwaitingWorkers
      else st == AwaitingWorkers
    else st == if s.path == Undoing then Cancelling else Reconciling
  }

  // ---- The invariant -------------------------------------------------------------------------------

  predicate SweptUp(w: Shared) { w.races.swept && IsSettled(w.job) }

  /** What a process knows of the record, as long as no settlement was taken back. */
  predicate JobAt(w: Shared, s: Proc) {
    && (Acting(s) && w.created ==> w.job.Job? && (SweptUp(w) || StatusAt(s, w.job.status)))
    && (s.at == Patching(UpdateWrite) && Acting(s) ==>
        s.read.Job? && w.job.Job? && (SweptUp(w) || s.read.status == w.job.status))
    && (s.at == Patching(UpdateWrite) && IsSettled(s.read) ==> IsSettled(w.job))
  }

  predicate Recorded(w: Shared) {
    && (w.created ==> w.job.Job?)
    && (w.job.Job? ==> w.created || SweptUp(w))
    && (w.actor.None? && w.job.Job? ==> w.job.status == Holding || SweptUp(w))
    && (!w.races.recounted ==> w.settlements == if IsSettled(w.job) then 1 else 0)
  }

  /** Only a sweep that settles a record under its driver makes writes race. */
  predicate Calm(w: Shared) { w.races.swept || (!w.races.reopened && !w.races.recounted) }

  predicate RecordForward(w: Shared, w': Shared, p: Pid) {
    && (w.races.swept ==> w'.races.swept)
    && (w.races.reopened ==> w'.races.reopened)
    && (w.races.recounted ==> w'.races.recounted)
    && (!w'.races.reopened ==>
         && (IsSettled(w.job) ==> IsSettled(w'.job))
         && (w'.job == w.job || w'.actor == Some(p) || SweptUp(w') || (IsSettled(w.job) && IsSettled(w'.job))
             || (w'.driver.Driver? && w'.driver.pid == p && !w.created)))
  }

  ghost predicate RecordsInv(w: World) {
    && Inv(w) && Calm(w.sh)
    && (!w.sh.races.reopened ==> Recorded(w.sh) && forall p :: p in w.procs ==> JobAt(w.sh, w.procs[p]))
  }

  // ---- Preservation ----------------------------------------------------------------------------------

  /** A step that leaves the record alone. */
  predicate Silent(w: Shared, s: Proc, m: Move) {
    && m.sh.job == w.job && m.sh.races == w.races && m.sh.settlements == w.settlements && m.sh.created == w.created
    && (Acting(m.s) && !Acting(s) ==> w.actor.None? && (w.created ==> StatusAt(m.s, Holding)))
    && (Acting(m.s) && Acting(s) && w.job.Job? && StatusAt(s, w.job.status) ==> StatusAt(m.s, w.job.status))
    && (m.s.at == Patching(UpdateWrite) ==> m.s.read == w.job && s.at == Patching(UpdateRead))
  }

  lemma ClaimSilent(w: Shared, p: Pid, s: Proc, c: Choice)
    requires Shape(s) && Vacant(w, s) && (s.at == Begin(Claiming) || s.at == Begin(Armed))
    ensures Silent(w, s, StepStart(w, p, s, c))
  {}

  lemma StartSilent(w: Shared, p: Pid, s: Proc, c: Choice)
    requires Shape(s) && (s.at == Begin(Owning) || s.at == Begin(Winning))
    ensures Silent(w, s, StepStart(w, p, s, c))
  {}

  lemma CheckSilent(w: Shared, p: Pid, s: Proc, c: Choice)
    requires Shape(s) && s.at == Begin(Checking)
    ensures Silent(w, s, StepStart(w, p, s, c))
  {}

  lemma DispatchSilent(w: Shared, p: Pid, s: Proc, c: Choice)
    requires Shape(s) && s.at == Work(Dispatching)
    ensures Silent(w, s, StepFulfil(w, p, s, c))
  {
    hide Replied, ShouldResolve, Each, Also;
  }

  lemma CollectSilent(w: Shared, p: Pid, s: Proc, c: Choice)
    requires Shape(s) && s.at == Work(Collecting)
    ensures Silent(w, s, StepFulfil(w, p, s, c))
  {
    hide Replied, ShouldResolve, Each, Also;
  }

  lemma JudgeSilent(w: Shared, p: Pid, s: Proc, c: Choice)
    requires Shape(s) && s.at == Work(Judging)
    ensures Silent(w, s, StepFulfil(w, p, s, c))
  {
    JudgedLeaves(w, s, c);
    JudgedLeads(w, s, c);
    hide Judge;
  }

  lemma ResolveSilent(w: Shared, p: Pid, s: Proc, c: Choice)
    requires Shape(s) && s.at.Pay? && (s.at.resolve.ResolveCall? || s.at.resolve.ResolveWait? || s.at.resolve.Reread?)
    ensures Silent(w, s, StepResolve(w, p, s, c))
  {
    hide Replied, ShouldResolve, Each, Also;
  }

  lemma LostSilent(w: Shared, p: Pid, s: Proc, c: Choice)
    requires Shape(s) && s.at.Pay? && (s.at.resolve.LostReputation? || s.at.resolve.LostCount?)
    ensures Silent(w, s, StepResolve(w, p, s, c))
  {
    hide Replied, ShouldResolve, Each, Also;
  }

  lemma CreditSilent(w: Shared, p: Pid, s: Proc, c: Choice)
    requires Shape(s) && s.at.Pay? && (s.at.resolve.CreditReputation? || s.at.resolve.DropResolved? || s.at.resolve.CountResolved?)
    ensures Silent(w, s, StepResolve(w, p, s, c))
  {
    hide Replied, ShouldResolve, Each, Also;
  }

  lemma RefundSilent(w: Shared, p: Pid, s: Proc, c: Choice)
    requires Shape(s) && (s.at == Give(RefundCall) || s.at == Give(RefundWait))
    ensures Silent(w, s, StepRefund(w, p, s, c))
  {
    hide Replied, ShouldResolve, Each, Also;
  }

  lemma RateSilent(w: Shared, p: Pid, s: Proc, c: Choice)
    requires Shape(s) && (s.at == Give(RefundReputation) || s.at == Give(DropRefunded))
    ensures Silent(w, s, StepRefund(w, p, s, c))
  {
    hide Replied, ShouldResolve, Each, Also;
  }

  lemma CountSilent(w: Shared, p: Pid, s: Proc, c: Choice)
    requires Shape(s) && s.at == Give(CountRefunded)
    ensures Silent(w, s, StepRefund(w, p, s, c))
  {
    hide Replied, ShouldResolve, Each, Also;
  }

  lemma OwnerSilent(w: Shared, p: Pid, s: Proc, c: Choice)
    requires Shape(s) && s.at == Give(ReadOwner)
    ensures Silent(w, s, StepRefund(w, p, s, c))
  {
    hide Replied, ShouldResolve, Each, Also;
  }

  lemma RestoreSilent(w: Shared, p: Pid, s: Proc, c: Choice)
    requires Shape(s) && s.at == Give(Restoring)
    ensures Silent(w, s, StepRefund(w, p, s, c))
  {
    hide Replied, ShouldResolve, Each, Also;
  }

  lemma ReadSilent(w: Shared, p: Pid, s: Proc, c: Choice)
    requires Shape(s) && s.at == Patching(UpdateRead)
    ensures Silent(w, s, StepUpdate(w, p, s))
  {}

  lemma UndoSilent(w: Shared, p: Pid, s: Proc, c: Choice)
    requires Shape(s) && Vacant(w, s) && (s.at == Undo(CancelClaim) || s.at == Undo(CancelWinning))
    ensures Silent(w, s, StepCancel(w, p, s, c))
  {}

  lemma CancelSilent(w: Shared, p: Pid, s: Proc, c: Choice)
    requires Shape(s) && (s.at == Undo(CancelRead) || s.at == Undo(CancelAuth))
    ensures Silent(w, s, StepCancel(w, p, s, c))
  {}

  lemma ScanSilent(w: Shared, p: Pid, s: Proc, c: Choice)
    requires s.path == Sweeping && s.at.Scan?
    ensures Silent(w, s, StepSweep(w, p, s, c))
  {
    assert !Acting(StepSweep(w, p, s, c).s);
    hide StatusAt, Replied, Classify, Acting;
  }

  lemma SilentKeeps(w: Shared, p: Pid, s: Proc, m: Move)
    requires Recorded(w) && JobAt(w, s) && Silent(w, s, m)
    requires (Acting(m.s) ==> m.sh.actor.Some?) && (m.sh.actor.None? ==> w.actor.None?)
    requires Acting(m.s) && m.s.at.Patching? ==> w.created
    ensures Recorded(m.sh) && JobAt(m.sh, m.s)
  {
    hide StatusAt, Acting;
  }

  lemma SilentForward(w: Shared, p: Pid, s: Proc, m: Move)
    requires Calm(w) && Silent(w, s, m)
    ensures Calm(m.sh) && RecordForward(w, m.sh, p)
  {
    hide Acting, StatusAt;
  }

  /** The writes. None of them is harmful while no sweep has settled the record. */
  lemma CreateKeeps(w: Shared, p: Pid, s: Proc, c: Choice)
    requires Good(w, p, s) && Calm(w) && s.at == Begin(Creating)
    requires !w.races.reopened ==> Recorded(w) && JobAt(w, s)
    ensures var m := StepStart(w, p, s, c);
      && Calm(m.sh) && RecordForward(w, m.sh, p)
      && (!m.sh.races.reopened ==> Recorded(m.sh) && JobAt(m.sh, m.s))
  {}

  lemma SetStatusKeeps(w: Shared, p: Pid, s: Proc)
    requires Good(w, p, s) && Calm(w) && s.at == Patching(UpdateWrite) && !s.patch.Settle?
    requires !w.races.reopened ==> Recorded(w) && JobAt(w, s)
    ensures var m := StepUpdate(w, p, s);
      && Calm(m.sh) && RecordForward(w, m.sh, p)
      && (!m.sh.races.reopened ==> Recorded(m.sh) && JobAt(m.sh, m.s))
  {}

  lemma SettleKeeps(w: Shared, p: Pid, s: Proc)
    requires Good(w, p, s) && Calm(w) && s.at == Patching(UpdateWrite) && s.patch.Settle? && s.path != Sweeping
    requires !w.races.reopened ==> Recorded(w) && JobAt(w, s)
    ensures var m := StepUpdate(w, p, s);
      && Calm(m.sh) && RecordForward(w, m.sh, p)
      && (!m.sh.races.reopened ==> Recorded(m.sh) && JobAt(m.sh, m.s))
  {}

  lemma SweepKeeps(w: Shared, p: Pid, s: Proc)
    requires Good(w, p, s) && Calm(w) && s.at == Patching(UpdateWrite) && s.path == Sweeping
    requires !w.races.reopened ==> Recorded(w) && JobAt(w, s)
    ensures var m := StepUpdate(w, p, s);
      && Calm(m.sh) && RecordForward(w, m.sh, p)
      && (!m.sh.races.reopened ==> Recorded(m.sh) && JobAt(m.sh, m.s))
  {}

  lemma RecordsBystander(w: Shared, w': Shared, p: Pid, q: Pid, s: Proc)
    requires Good(w, q, s) && Forward(w, w', p) && RecordForward(w, w', p) && q != p && JobAt(w, s) && Recorded(w')
    requires !w'.races.reopened
    ensures JobAt(w', s)
  {}

  // ---- Every step ------------------------------------------------------------------------------------

  predicate WritesRecord(s: Proc) { s.at == Begin(Creating) || s.at == Patching(UpdateWrite) }

  lemma PaySilent(w: Shared, p: Pid, s: Proc, c: Choice)
    requires Shape(s) && s.at.Pay?
    ensures Silent(w, s, StepResolve(w, p, s, c))
  {
    hide Shape, Silent, StepResolve;
    var r := s.at.resolve;
    if r.ResolveCall? || r.ResolveWait? || r.Reread? { ResolveSilent(w, p, s, c); }
    else if r.LostReputation? || r.LostCount? { LostSilent(w, p, s, c); }
    else { CreditSilent(w, p, s, c); }
  }

  lemma GiveSilent(w: Shared, p: Pid, s: Proc, c: Choice)
    requires Shape(s) && s.at.Give?
    ensures Silent(w, s, StepRefund(w, p, s, c))
  {
    hide Shape, Silent, StepRefund;
    match s.at.refund
    case ReadOwner => OwnerSilent(w, p, s, c);
    case Restoring => RestoreSilent(w, p, s, c);
    case CountRefunded => CountSilent(w, p, s, c);
    case RefundReputation => RateSilent(w, p, s, c);
    case DropRefunded => RateSilent(w, p, s, c);
    case _ => RefundSilent(w, p, s, c);
  }

  lemma WorkSilent(w: Shared, p: Pid, s: Proc, c: Choice)
    requires Shape(s) && s.at.Work?
    ensures Silent(w, s, StepFulfil(w, p, s, c))
  {
    hide Shape, Silent, StepFulfil;
    match s.at.fulfil
    case Dispatching => DispatchSilent(w, p, s, c);
    case Collecting => CollectSilent(w, p, s, c);
    case Judging => JudgeSilent(w, p, s, c);
  }

  lemma IdleSilent(w: Shared, s: Proc)
    requires s.at.Done? || s.at.Gone?
    ensures Silent(w, s, Move(w, s))
  {}

  lemma StepSilent(w: Shared, p: Pid, s: Proc, c: Choice)
    requires Global(w) && Good(w, p, s) && !WritesRecord(s)
    ensures Silent(w, s, ActStep(w, p, s, c))
  {
    assert Shape(s);
    assert s.at.Scan? ==> s.path == Sweeping;
    assert s.at.Patching? ==> s.at.update == UpdateRead;
    IsVacant(w, p, s);
    hide Global, Good, Shape, Vacant, Silent, StepStart, StepFulfil, StepResolve, StepRefund, StepUpdate, StepCancel, StepSweep;
    match s.at
    case Begin(b) =>
      if b.Checking? { CheckSilent(w, p, s, c); }
      else if b.Claiming? || b.Armed? { ClaimSilent(w, p, s, c); }
      else { StartSilent(w, p, s, c); }
    case Work(_) => WorkSilent(w, p, s, c);
    case Pay(_) => PaySilent(w, p, s, c);
    case Give(_) => GiveSilent(w, p, s, c);
    case Patching(_) => ReadSilent(w, p, s, c);
    case Undo(u) => if u.CancelRead? || u.CancelAuth? { CancelSilent(w, p, s, c); } else { UndoSilent(w, p, s, c); }
    case Scan(_) => ScanSilent(w, p, s, c);
    case _ => IdleSilent(w, s);
  }

  lemma WriteKeeps(w: Shared, p: Pid, s: Proc, c: Choice)
    requires Good(w, p, s) && Calm(w) && WritesRecord(s)
    requires !w.races.reopened ==> Recorded(w) && JobAt(w, s)
    ensures var m := ActStep(w, p, s, c);
      && Calm(m.sh) && RecordForward(w, m.sh, p)
      && (!m.sh.races.reopened ==> Recorded(m.sh) && JobAt(m.sh, m.s))
  {
    hide Good, Recorded, JobAt, Calm, RecordForward, StepStart, StepUpdate;
    if s.at.Begin? { CreateKeeps(w, p, s, c); }
    else if s.path == Sweeping { SweepKeeps(w, p, s); }
    else if s.patch.Settle? { SettleKeeps(w, p, s); }
    else { SetStatusKeeps(w, p, s); }
  }

  lemma ActorIsThere(w: Shared, p: Pid, s: Proc)
    requires Good(w, p, s) && Acting(s)
    ensures w.actor.Some? && (s.at.Patching? ==> w.created)
  {}

  lemma ActRecords(w: Shared, p: Pid, s: Proc, c: Choice)
    requires Global(w) && Good(w, p, s) && Calm(w) && Kept(w, p, ActStep(w, p, s, c))
    requires !w.races.reopened ==> Recorded(w) && JobAt(w, s)
    ensures var m := ActStep(w, p, s, c);
      && Calm(m.sh) && RecordForward(w, m.sh, p)
      && (!m.sh.races.reopened ==> Recorded(m.sh) && JobAt(m.sh, m.s))
  {
    var m := ActStep(w, p, s, c);
    if WritesRecord(s) {
      WriteKeeps(w, p, s, c);
    } else {
      StepSilent(w, p, s, c);
      SilentForward(w, p, s, m);
      hide Global, Good, Shape, Acting, Recorded, JobAt, ActStep, WritesRecord, StatusAt, Onward;
      if Acting(m.s) { ActorIsThere(m.sh, p, m.s); }
      if !w.races.reopened { SilentKeeps(w, p, s, m); }
    }
  }

  /** Where an exception leads, the record is as it was. */
  lemma HandlerSilent(w: Shared, p: Pid, s: Proc)
    requires Good(w, p, s) && Handler(s) != s
    ensures Silent(w, s, Move(w, Handler(s)))
  {
    hide RatingAt, HonestAt, TriedAt, NoResolveYet, ExpectedCore, HoldingImpliesHeld, UndoAt, BeginAt;
  }

  lemma ThrowRecords(w: Shared, p: Pid, s: Proc, some: multiset<Worker>)
    requires Good(w, p, s) && Calm(w) && Handler(s) != s && Kept(w, p, Move(Thrown(w, s, some), Handler(s)))
    requires !w.races.reopened ==> Recorded(w) && JobAt(w, s)
    ensures var w' := Thrown(w, s, some);
      && Calm(w') && RecordForward(w, w', p)
      && (!w'.races.reopened ==> Recorded(w') && JobAt(w', Handler(s)))
  {
    HandlerSilent(w, p, s);
    var m := Move(Thrown(w, s, some), Handler(s));
    hide Global, Good, Shape, Acting, Recorded, JobAt, Handler, LateAt, AgainAt, DriftsAt, StatusAt, Onward;
    SilentForward(w, p, s, m);
    if Acting(m.s) { ActorIsThere(m.sh, p, m.s); }
    if !w.races.reopened { SilentKeeps(w, p, s, m); }
  }

  lemma {:induction false} RecordsOthers(w: World, w': World, p: Pid)
    requires RecordsInv(w) && Inv(w') && Forward(w.sh, w'.sh, p) && RecordForward(w.sh, w'.sh, p) && Calm(w'.sh)
    requires forall q :: q in w'.procs && q != p ==> q in w.procs && w'.procs[q] == w.procs[q]
    requires !w'.sh.races.reopened ==> Recorded(w'.sh) && (p in w'.procs ==> JobAt(w'.sh, w'.procs[p]))
    ensures RecordsInv(w')
  {
    hide Inv, Forward, JobAt, Recorded;
    if !w'.sh.races.reopened {
      forall q | q in w'.procs ensures JobAt(w'.sh, w'.procs[q]) {
        if q != p { GoodOf(w, q); RecordsBystander(w.sh, w'.sh, p, q, w.procs[q]); }
      }
    }
  }

  lemma ActRecordsStep(w: World, p: Pid, c: Choice)
    requires RecordsInv(w) && p in w.procs
    ensures RecordsInv(Step(w, Act(p, c)))
  {
    var s, m := w.procs[p], ActStep(w.sh, p, w.procs[p], c);
    GoodOf(w, p);
    ActKeeps(w.sh, p, s, c);
    Compose(w, p, m);
    ActRecords(w.sh, p, s, c);
    hide Inv, Global, Good, Forward, RecordForward, JobAt, Recorded, Calm, ActStep;
    RecordsOthers(w, Step(w, Act(p, c)), p);
  }

  lemma ThrowRecordsStep(w: World, p: Pid, some: multiset<Worker>)
    requires RecordsInv(w) && p in w.procs && Handler(w.procs[p]) != w.procs[p] && Partly(w.procs[p], some)
    ensures RecordsInv(Step(w, Throw(p, some)))
  {
    var s := w.procs[p];
    GoodOf(w, p);
    ThrowKeeps(w.sh, p, s, some);
    Compose(w, p, Move(Thrown(w.sh, s, some), Handler(s)));
    ThrowRecords(w.sh, p, s, some);
    hide Inv, Global, Good, Forward, RecordForward, JobAt, Recorded, Calm, Thrown, Partly, Handler;
    RecordsOthers(w, Step(w, Throw(p, some)), p);
  }

  /** A crash, and the moves of the chain, of third parties and of time, leave the record alone. */
  lemma AsideRecords(w: World, w': World, p: Pid)
    requires RecordsInv(w) && Inv(w') && Forward(w.sh, w'.sh, p)
    requires w'.sh.job == w.sh.job && w'.sh.races == w.sh.races && w'.sh.settlements == w.sh.settlements
    requires w'.sh.created == w.sh.created && w'.sh.actor == w.sh.actor
    requires forall q :: q in w'.procs ==> q in w.procs && w'.procs[q] == w.procs[q]
    ensures RecordsInv(w')
  {
    hide Inv, Acting, StatusAt;
  }

  lemma SpawnRecordsStep(w: World, k: Kind)
    requires RecordsInv(w)
    ensures RecordsInv(Step(w, Spawn(k)))
  {
    SpawnKeeps(w, k);
    hide Inv, Recorded;
  }

  lemma CrashRecordsStep(w: World, p: Pid, some: multiset<Worker>)
    requires RecordsInv(w) && p in w.procs && Partly(w.procs[p], some)
    ensures RecordsInv(Step(w, Crash(p, some)))
  {
    StepKeeps(w, Crash(p, some));
    GoodOf(w, p);
    CrashKeeps(w.sh, p, w.procs[p], some);
    hide Inv, Recorded, JobAt, Forward, Good, Global;
    AsideRecords(w, Step(w, Crash(p, some)), p);
  }

  lemma OutsideRecordsStep(w: World, e: Event)
    requires RecordsInv(w) && !e.Spawn? && !e.Act? && !e.Throw? && !e.Crash?
    ensures RecordsInv(Step(w, e))
  {
    StepKeeps(w, e);
    OutsideKeeps(w.sh, e, w.next);
    hide Inv, Recorded, JobAt, Forward, Good, Global;
    AsideRecords(w, Step(w, e), w.next);
  }

  lemma RecordsStep(w: World, e: Event)
    requires RecordsInv(w)
    ensures RecordsInv(Step(w, e))
  {
    StepKeeps(w, e);
    hide RecordsInv, Handler, Partly;
    match e
    case Spawn(k) => SpawnRecordsStep(w, k);
    case Act(p, c) => if p in w.procs { ActRecordsStep(w, p, c); }
    case Throw(p, some) =>
      if p in w.procs && Handler(w.procs[p]) != w.procs[p] && Partly(w.procs[p], some) { ThrowRecordsStep(w, p, some); }
    case Crash(p, some) =>
      if p in w.procs && Partly(w.procs[p], some) { CrashRecordsStep(w, p, some); }
    case _ => OutsideRecordsStep(w, e);
  }

  /** In every run. */
  lemma {:induction false} RunRecords(es: seq<Event>)
    ensures RecordsInv(Exec(Init(), es))
    decreases |es|
  {
    hide Step, JobAt;
    if es == [] {
      InitHolds();
    } else {
      RunRecords(es[..|es| - 1]);
      RecordsStep(Exec(Init(), es[..|es| - 1]), es[|es| - 1]);
    }
  }

  // ---- Single steps ----------------------------------------------------------------------------------

  /** What is written, given what was read. */
  function Written(s: Proc): Job
    requires WritesRecord(s)
  {
    if s.at.Begin? then Job(if s.a.held then Holding else AwaitingWorkers, NoOutcome, s.a.instant)
    else Merge(s.read, s.patch)
  }

  lemma Creates(w: Shared, p: Pid, s: Proc, c: Choice)
    requires s.at == Begin(Creating)
    ensures var w' := StepStart(w, p, s, c).sh;
      w'.job == Written(s) && w'.races == Raced(w, s) && w'.settlements == w.settlements
  {}

  lemma Updates(w: Shared, p: Pid, s: Proc)
    requires s.at == Patching(UpdateWrite)
    ensures var w' := StepUpdate(w, p, s).sh;
      w'.job == Written(s) && w'.races == Raced(w, s) && w'.settlements == w.settlements + Newly(s.read, Written(s))
  {
    hide After, Merge, Reopens, Recounts;
  }

  lemma Writes(w: Shared, p: Pid, s: Proc, c: Choice)
    requires WritesRecord(s)
    ensures var w' := ActStep(w, p, s, c).sh;
      && w'.job == Written(s) && w'.races == Raced(w, s)
      && w'.settlements == w.settlements + if s.at.Patching? then Newly(s.read, Written(s)) else 0
  {
    hide StepStart, StepUpdate, Written, Raced;
    if s.at.Begin? { Creates(w, p, s, c); } else { Updates(w, p, s); }
  }

  lemma WrittenReopens(s: Proc, j: Job)
    requires Shape(s) && WritesRecord(s) && IsSettled(j)
    ensures !IsSettled(Written(s)) <==> Reopens(s, j)
  {}

  lemma WriteReopens(w: Shared, p: Pid, s: Proc, c: Choice)
    requires Global(w) && Good(w, p, s) && IsSettled(w.job)
    ensures !IsSettled(ActStep(w, p, s, c).sh.job) <==> Reopens(s, w.job)
  {
    assert Shape(s);
    hide Global, Good, Shape, ActStep, Written, WritesRecord;
    if WritesRecord(s) {
      Writes(w, p, s, c);
      WrittenReopens(s, w.job);
    } else {
      StepSilent(w, p, s, c);
      OnlyWritesReopen(s, w.job);
    }
  }

  lemma OnlyWritesReopen(s: Proc, j: Job)
    requires !WritesRecord(s)
    ensures !Reopens(s, j) && !Recounts(s, j)
  {}

  lemma RacesGrow(w: Shared, p: Pid, s: Proc, c: Choice)
    requires Global(w) && Good(w, p, s)
    ensures ActStep(w, p, s, c).sh.races.reopened <==> w.races.reopened || Reopens(s, w.job)
  {
    hide Global, Good, ActStep, WritesRecord, Reopens, Recounts;
    if WritesRecord(s) {
      Writes(w, p, s, c);
    } else {
      StepSilent(w, p, s, c);
      OnlyWritesReopen(s, w.job);
    }
  }

  function Newly(from: Job, to: Job): nat { if IsSettled(to) && !IsSettled(from) then 1 else 0 }

  lemma WrittenCounts(s: Proc, j: Job)
    requires Shape(s) && WritesRecord(s) && !Reopens(s, j)
    requires s.at.Patching? && IsSettled(s.read) ==> IsSettled(j)
    ensures (if s.at.Patching? then Newly(s.read, Written(s)) else 0)
      == Newly(j, Written(s)) + if Recounts(s, j) then 1 else 0
  {}

  lemma WriteCounts(w: Shared, p: Pid, s: Proc, c: Choice)
    requires Global(w) && Good(w, p, s) && JobAt(w, s) && !Reopens(s, w.job)
    ensures var w' := ActStep(w, p, s, c).sh;
      w'.settlements == w.settlements + Newly(w.job, w'.job) + if Recounts(s, w.job) then 1 else 0
  {
    assert Shape(s);
    hide Global, Good, Shape, ActStep, Written, Reopens, Recounts, StatusAt;
    if WritesRecord(s) {
      Writes(w, p, s, c);
      WrittenCounts(s, w.job);
    } else {
      StepSilent(w, p, s, c);
      OnlyWritesReopen(s, w.job);
    }
  }

  lemma CreationDocumented(w: Shared, p: Pid, s: Proc)
    requires Good(w, p, s) && Recorded(w) && s.at == Begin(Creating) && !Reopens(s, w.job)
    ensures Documented(w.job, Written(s))
  {
    hide RatingAt, HonestAt, TriedAt, NoResolveYet, ExpectedCore, HoldingImpliesHeld;
  }

  lemma UpdateStrays(w: Shared, p: Pid, s: Proc)
    requires Good(w, p, s) && JobAt(w, s) && s.at == Patching(UpdateWrite) && !Reopens(s, w.job)
    ensures Documented(w.job, Written(s)) <==> !Strays(s, w.job)
  {
    hide RatingAt, HonestAt, TriedAt, NoResolveYet, ExpectedCore, HoldingImpliesHeld;
  }

  /** A write leaves the graph exactly when it strays. */
  lemma WriteStrays(w: Shared, p: Pid, s: Proc, c: Choice)
    requires Global(w) && Good(w, p, s) && Recorded(w) && JobAt(w, s) && !Reopens(s, w.job)
    ensures Documented(w.job, ActStep(w, p, s, c).sh.job) <==> !Strays(s, w.job)
  {
    hide Global, Good, ActStep, Written, Reopens, Recorded, JobAt;
    if WritesRecord(s) {
      Writes(w, p, s, c);
      if s.at.Begin? { CreationDocumented(w, p, s); } else { UpdateStrays(w, p, s); }
    } else {
      StepSilent(w, p, s, c);
    }
  }
}
