/** What the driver of a question books, exceptions included: reputation, settled writes and the two
    public counters, each relative to what was booked when an exception last made it fall back. */
module SettlementBooks {
  import opened Common
  import opened Settlement
  import opened SettlementInvariant

  function Resolves(o: Outcome): nat { if o == WasResolved then 1 else 0 }
  function Refunds(o: Outcome): nat { if o == WasRefunded || o == LostRace then 1 else 0 }

  /** The books before the settled write, and after it. */
  function Open(pass: Pass, o: Outcome): Books {
    Books(Each(pass.subs), pass, 0, NoOutcome, Resolves(o), Refunds(o))
  }

  function Closed(pass: Pass, o: Outcome): Books { Open(pass, o).(writes := 1, written := o) }

  /** What the process has booked since it last fell back. The safety net books its write only. */
  function ExpectedBooks(s: Proc): Books {
    if s.path == SafetyNet then
      if s.at.Done? then NOTHING.(writes := 1, written := s.outcome) else NOTHING
    else DriverBooks(s)
  }

  function DriverBooks(s: Proc): Books {
    match s.at
    case Pay(r) =>
      if r.DropResolved? || r.CountResolved? || r.LostCount? then Open(s.rating, NoOutcome) else NOTHING
    case Give(r) =>
      if r.DropRefunded? || r.CountRefunded? then Open(s.rating, NoOutcome)
      else if r.ReadOwner? || r.Restoring? then Closed(s.rating, s.outcome)
      else NOTHING
    case Patching(_) => if s.patch.Settle? then Open(s.rating, s.patch.outcome) else NOTHING
    case Done => Closed(s.rating, s.outcome)
    case _ => NOTHING
  }

  /** Where a driver can be after it fell back with something on the books. */
  predicate Fell(s: Proc) {
    || s.at == Pay(Reread) || s.path == SafetyNet
    || (s.path == Fulfilling && (s.at.Give? || s.at.Done? || (s.at.Patching? && s.patch.Settle?)))
  }

  /** All that the books depend on where the driver stands. */
  datatype View = View(books: Books, net: bool, fell: bool)

  function ViewOf(s: Proc): View { View(ExpectedBooks(s), s.path == SafetyNet, Fell(s)) }

  /** Everything booked is what was booked before the last fall and what was booked since; the last
      pass and the last outcome are those of the present attempt; and each flag says exactly whether
      there was something on the books before the fall. */
  predicate BookedAs(w: Shared, v: View) {
    var b, f, e := w.falls.before, w.falls, v.books;
    && w.books.recorded == Also(b.recorded, e.recorded)
    && w.books.writes == b.writes + e.writes
    && w.books.resolvedStat == b.resolvedStat + e.resolvedStat
    && w.books.refundedStat == b.refundedStat + e.refundedStat
    && (e.writes > 0 ==> w.books.written == e.written)
    && (e.recorded != multiset{} ==> w.books.rated == e.rated)
    && b.writes <= 1 && (f.again <==> b.writes == 1) && (f.again ==> v.net)
    && (f.drifted <==> b.resolvedStat + b.refundedStat > 0)
    && (f.late || f.drifted ==> v.fell && (!v.net ==> w.chain == Resolved))
    && (!v.net ==> (f.late <==> b.recorded != multiset{}))
    && (v.net && !f.late ==> Within(b.recorded, Each(w.verdict.subs)))
  }

  predicate Booked(w: Shared, s: Proc) { Acting(s) ==> BookedAs(w, ViewOf(s)) }

  /** What the books never exceed unless an exception came too late. */
  predicate Bounded(w: Shared) {
    && (!w.falls.late ==> Within(w.books.recorded, Each(w.verdict.subs)))
    && w.books.writes <= (if w.falls.again then 2 else 1)
    && (w.actor.None? ==> w.books == NOTHING && w.falls == NO_FALLS)
  }

  predicate BooksForward(w: Shared, w': Shared, p: Pid) {
    w'.actor == Some(p) || (w.books == w'.books && w.falls == w'.falls)
  }

  // ---- One entry at a time -----------------------------------------------------------------------

  lemma Rates(w: Shared, pass: Pass, fell: bool)
    requires BookedAs(w, View(NOTHING, false, fell))
    ensures BookedAs(Rate(w, pass), View(Open(pass, NoOutcome), false, fell))
  {
    hide Also, Each, Within;
  }

  lemma CountsOutcome(w: Shared, pass: Pass, o: Outcome, fell: bool)
    requires BookedAs(w, View(Open(pass, NoOutcome), false, fell))
    ensures BookedAs(w.(books := w.books.(resolvedStat := w.books.resolvedStat + Resolves(o),
                                          refundedStat := w.books.refundedStat + Refunds(o))),
                     View(Open(pass, o), false, fell))
  {
    hide Also, Each, Within;
  }

  lemma Writes(w: Shared, e: Books, o: Outcome, net: bool, fell: bool)
    requires BookedAs(w, View(e, net, fell)) && e.writes == 0
    ensures BookedAs(w.(books := w.books.(writes := w.books.writes + 1, written := o)),
                     View(e.(writes := 1, written := o), net, fell))
  {
    hide Also, Each, Within;
  }

  // ---- Preservation ------------------------------------------------------------------------------

  /** A step that books nothing. */
  predicate Quiet(w: Shared, s: Proc, m: Move) {
    && m.sh.books == w.books && m.sh.falls == w.falls && m.sh.chain == w.chain
    && (Acting(m.s) ==> if Acting(s) then QuietView(w, m.sh, ViewOf(s), ViewOf(m.s))
                        else w.actor.None? && ViewOf(m.s) == View(NOTHING, false, false))
    && (!Acting(m.s) ==> m.sh.verdict == w.verdict && m.sh.actor == w.actor)
  }

  predicate QuietView(w: Shared, w': Shared, v: View, v': View) {
    && v.books == v'.books && v.net == v'.net
    && (v.fell ==> v'.fell || (!v.net && w.chain != Resolved))
    && (v.net ==> w.verdict == w'.verdict)
  }

  lemma QuietBooks(w: Shared, p: Pid, s: Proc, m: Move)
    requires Bounded(w) && Booked(w, s) && Quiet(w, s, m)
    ensures Booked(m.sh, m.s)
  {
    hide ViewOf, Acting, Also, Each, Within;
  }

  lemma ClaimQuiet(w: Shared, p: Pid, s: Proc, c: Choice)
    requires Shape(s) && Vacant(w, s) && s.at == Begin(Claiming)
    ensures Quiet(w, s, StepStart(w, p, s, c))
  {
    hide Each;
  }

  lemma ArmedQuiet(w: Shared, p: Pid, s: Proc, c: Choice)
    requires s.path == Starting && (w.decisions == 0 ==> w.actor.None?) && s.at == Begin(Armed)
    ensures Quiet(w, s, StepStart(w, p, s, c))
  {
    hide Each, BookedAs, After, Handler;
    var m := StepStart(w, p, s, c);
    assert m.s == s.(at := if w.decisions == 0 then Begin(Winning) else Gone);
    assert ViewOf(m.s) == View(NOTHING, false, false);
  }

  lemma StartQuiet(w: Shared, p: Pid, s: Proc, c: Choice)
    requires Shape(s) && (s.at == Begin(Creating) || s.at == Begin(Owning) || s.at == Begin(Winning))
    ensures Quiet(w, s, StepStart(w, p, s, c))
  {
    hide Each;
  }

  lemma CheckQuiet(w: Shared, p: Pid, s: Proc, c: Choice)
    requires Shape(s) && s.at == Begin(Checking)
    ensures Quiet(w, s, StepStart(w, p, s, c))
  {
    hide BookedAs, Each;
  }

  lemma UndoQuiet(w: Shared, p: Pid, s: Proc, c: Choice)
    requires s.path == Undoing && s.at == Undo(CancelClaim) && (w.decisions == 0 ==> w.actor.None?)
    ensures Quiet(w, s, StepCancel(w, p, s, c))
  {
    hide Each, QuietView;
    if w.decisions == 0 { assert ViewOf(StepCancel(w, p, s, c).s) == View(NOTHING, false, false); }
  }

  lemma UndoneQuiet(w: Shared, p: Pid, s: Proc, c: Choice)
    requires s.path == Undoing && s.at == Undo(CancelWinning)
    ensures Quiet(w, s, StepCancel(w, p, s, c))
  {
    hide Each;
  }

  lemma CancelQuiet(w: Shared, p: Pid, s: Proc, c: Choice)
    requires Shape(s) && (s.at == Undo(CancelRead) || s.at == Undo(CancelAuth))
    ensures Quiet(w, s, StepCancel(w, p, s, c))
  {
    hide Each;
  }

  lemma ScanQuiet(w: Shared, p: Pid, s: Proc, c: Choice)
    requires s.path == Sweeping && s.at.Scan?
    ensures Quiet(w, s, StepSweep(w, p, s, c))
  {
    hide ViewOf, Classify, Replied;
    var m := StepSweep(w, p, s, c);
    assert m.sh == w || m.sh == w.(sent := w.sent + {Tx(p, RefundTx)});
    assert m.s.path == Sweeping && (m.s.at.Scan? || m.s.at.Gone? || m.s.at.Patching?);
  }

  lemma RefundQuiet(w: Shared, p: Pid, s: Proc, c: Choice)
    requires Shape(s) && (s.at == Give(RefundCall) || s.at == Give(RefundWait) || s.at == Give(DropRefunded))
    ensures Quiet(w, s, StepRefund(w, p, s, c))
  {
    hide Each, Replied;
  }

  lemma OwnerQuiet(w: Shared, p: Pid, s: Proc, c: Choice)
    requires Shape(s) && s.at == Give(ReadOwner)
    ensures Quiet(w, s, StepRefund(w, p, s, c))
  {
    hide Each;
  }

  lemma RestoreQuiet(w: Shared, p: Pid, s: Proc, c: Choice)
    requires Shape(s) && s.at == Give(Restoring)
    ensures Quiet(w, s, StepRefund(w, p, s, c))
  {
    hide Open;
    var m := StepRefund(w, p, s, c);
    assert s.path != Fulfilling && s.path != SafetyNet && s.path != Sweeping;
    assert m.s == s.(at := Done, flag := m.s.flag);
  }

  lemma PayQuiet(w: Shared, p: Pid, s: Proc, c: Choice)
    requires Shape(s) && (s.at == Pay(ResolveCall) || s.at == Pay(DropResolved))
    ensures Quiet(w, s, StepResolve(w, p, s, c))
  {
    hide Each;
  }

  lemma PatchQuiet(w: Shared, p: Pid, s: Proc)
    requires Shape(s) && s.at.Patching? && (s.at.update.UpdateRead? || !s.patch.Settle? || s.path == Sweeping)
    ensures Quiet(w, s, StepUpdate(w, p, s))
  {
    hide Each;
  }

  lemma DispatchQuiet(w: Shared, p: Pid, s: Proc, c: Choice)
    requires Shape(s) && s.at == Work(Dispatching)
    ensures Quiet(w, s, StepFulfil(w, p, s, c))
  {
    hide Each;
  }

  lemma CollectQuiet(w: Shared, p: Pid, s: Proc, c: Choice)
    requires Shape(s) && s.at == Work(Collecting)
    ensures Quiet(w, s, StepFulfil(w, p, s, c))
  {
    hide Each;
  }

  lemma JudgeQuiet(w: Shared, p: Pid, s: Proc, c: Choice)
    requires Shape(s) && s.at == Work(Judging)
    ensures Quiet(w, s, StepFulfil(w, p, s, c))
  {
    JudgedLeaves(w, s, c);
    JudgedLeads(w, s, c);
    NothingYet(s);
    NothingYet(StepFulfil(w, p, s, c).s);
    hide Judge, ViewOf;
  }

  /** Before the settlement is broadcast nothing is booked. */
  lemma NothingYet(s: Proc)
    requires s.at == Work(Judging) || s.at == Pay(ResolveCall) || s.at == Give(RefundCall)
             || (s.at == Patching(UpdateRead) && s.patch == Touch)
    requires s.path != SafetyNet
    ensures ViewOf(s) == View(NOTHING, false, s.path == Fulfilling && s.at.Give?)
  {}

  lemma AttemptQuiet(w: Shared, p: Pid, s: Proc, c: Choice)
    requires Shape(s) && (s.at == Pay(ResolveWait) || s.at == Pay(Reread))
    ensures Quiet(w, s, StepResolve(w, p, s, c))
  {
    hide Each, Replied;
  }

  lemma RateBooks(w: Shared, p: Pid, s: Proc, c: Choice)
    requires Shape(s) && Booked(w, s)
    requires s.at == Pay(CreditReputation) || s.at == Pay(LostReputation)
    ensures var m := StepResolve(w, p, s, c); Booked(m.sh, m.s) && Acting(m.s)
  {
    hide BookedAs, Each, Also, Within, Rate;
    Rates(w, s.rating, false);
  }

  lemma RefundBooks(w: Shared, p: Pid, s: Proc, c: Choice)
    requires Shape(s) && Booked(w, s) && s.at == Give(RefundReputation)
    ensures var m := StepRefund(w, p, s, c); Booked(m.sh, m.s) && Acting(m.s)
  {
    hide BookedAs, Each, Also, Within, Rate;
    Rates(w, s.rating, s.path == Fulfilling);
  }

  lemma CountBooks(w: Shared, p: Pid, s: Proc, c: Choice)
    requires Shape(s) && Booked(w, s) && (s.at == Pay(CountResolved) || s.at == Pay(LostCount))
    ensures var m := StepResolve(w, p, s, c); Booked(m.sh, m.s) && Acting(m.s)
  {
    hide BookedAs, Each;
    CountsOutcome(w, s.rating, if s.at == Pay(LostCount) then LostRace else WasResolved, false);
  }

  lemma CountRefundBooks(w: Shared, p: Pid, s: Proc, c: Choice)
    requires Shape(s) && Booked(w, s) && s.at == Give(CountRefunded)
    ensures var m := StepRefund(w, p, s, c); Booked(m.sh, m.s) && Acting(m.s)
  {
    hide BookedAs, Each;
    CountsOutcome(w, s.rating, WasRefunded, s.path == Fulfilling);
  }

  lemma WriteBooks(w: Shared, p: Pid, s: Proc)
    requires Shape(s) && Booked(w, s) && s.at == Patching(UpdateWrite) && s.patch.Settle? && s.path != Sweeping
    ensures var m := StepUpdate(w, p, s); Booked(m.sh, m.s) && Acting(m.s)
  {
    hide BookedAs, Each;
    Writes(w, ExpectedBooks(s), s.patch.outcome, s.path == SafetyNet, Fell(s));
    RecordAside(w, StepUpdate(w, p, s).sh, ViewOf(After(s)));
  }

  lemma RecordAside(w: Shared, w': Shared, v: View)
    requires w' == w.(job := w'.job, settlements := w'.settlements, races := w'.races, books := w'.books)
    ensures BookedAs(w', v) <==> BookedAs(w.(books := w'.books), v)
  {
    hide Also, Each, Within;
  }

  // ---- Every step ----------------------------------------------------------------------------------

  /** The steps that book something. */
  predicate Enters(s: Proc) {
    || s.at == Pay(CreditReputation) || s.at == Pay(LostReputation) || s.at == Give(RefundReputation)
    || s.at == Pay(CountResolved) || s.at == Pay(LostCount) || s.at == Give(CountRefunded)
    || (s.at == Patching(UpdateWrite) && s.patch.Settle? && s.path != Sweeping)
  }

  lemma StepBooks(w: Shared, p: Pid, s: Proc, c: Choice)
    requires Shape(s) && Booked(w, s) && Enters(s)
    ensures var m := ActStep(w, p, s, c); Booked(m.sh, m.s) && Acting(m.s)
  {
    hide Shape, Booked, Acting, StepResolve, StepRefund, StepUpdate;
    if s.at == Pay(CreditReputation) || s.at == Pay(LostReputation) { RateBooks(w, p, s, c); }
    else if s.at == Give(RefundReputation) { RefundBooks(w, p, s, c); }
    else if s.at == Give(CountRefunded) { CountRefundBooks(w, p, s, c); }
    else if s.at.Pay? { CountBooks(w, p, s, c); }
    else { WriteBooks(w, p, s); }
  }

  lemma GiveQuiet(w: Shared, p: Pid, s: Proc, c: Choice)
    requires Shape(s) && s.at.Give? && !Enters(s)
    ensures Quiet(w, s, StepRefund(w, p, s, c))
  {
    hide Shape, Quiet, StepRefund;
    match s.at.refund
    case ReadOwner => OwnerQuiet(w, p, s, c);
    case Restoring => RestoreQuiet(w, p, s, c);
    case _ => RefundQuiet(w, p, s, c);
  }

  lemma WorkQuiet(w: Shared, p: Pid, s: Proc, c: Choice)
    requires Shape(s) && s.at.Work?
    ensures Quiet(w, s, StepFulfil(w, p, s, c))
  {
    hide Shape, Quiet, StepFulfil;
    match s.at.fulfil
    case Dispatching => DispatchQuiet(w, p, s, c);
    case Collecting => CollectQuiet(w, p, s, c);
    case Judging => JudgeQuiet(w, p, s, c);
  }

  lemma StepQuiet(w: Shared, p: Pid, s: Proc, c: Choice)
    requires Global(w) && Good(w, p, s) && !Enters(s)
    ensures Quiet(w, s, ActStep(w, p, s, c))
  {
    assert Shape(s);
    assert s.at.Scan? ==> s.path == Sweeping;
    IsVacant(w, p, s);
    assert (s.at.Begin? ==> s.path == Starting) && (s.at.Undo? ==> s.path == Undoing);
    assert (s.at == Begin(Armed) || s.at == Undo(CancelClaim)) && w.decisions == 0 ==> w.actor.None?;
    hide Global, Good, Shape, Vacant, Quiet, StepStart, StepFulfil, StepResolve, StepRefund, StepUpdate, StepCancel, StepSweep;
    match s.at
    case Begin(b) =>
      if b.Checking? { CheckQuiet(w, p, s, c); }
      else if b.Claiming? { ClaimQuiet(w, p, s, c); }
      else if b.Armed? { ArmedQuiet(w, p, s, c); }
      else { StartQuiet(w, p, s, c); }
    case Work(_) => WorkQuiet(w, p, s, c);
    case Pay(r) => if r.ResolveWait? || r.Reread? { AttemptQuiet(w, p, s, c); } else { PayQuiet(w, p, s, c); }
    case Give(_) => GiveQuiet(w, p, s, c);
    case Patching(_) => PatchQuiet(w, p, s);
    case Undo(u) =>
      if u.CancelClaim? { UndoQuiet(w, p, s, c); }
      else if u.CancelWinning? { UndoneQuiet(w, p, s, c); }
      else { CancelQuiet(w, p, s, c); }
    case Scan(_) => ScanQuiet(w, p, s, c);
    case _ => IdleQuiet(w, s);
  }

  lemma IdleQuiet(w: Shared, s: Proc)
    ensures Quiet(w, s, Move(w, s))
  {}

  /** The books of the driver are bounded wherever it stands. */
  lemma DriverIsBounded(w: Shared, p: Pid, s: Proc)
    requires Good(w, p, s) && Acting(s) && Booked(w, s)
    ensures Bounded(w)
  {
    hide Also, Each, Within;
  }

  lemma DriverIsActor(w: Shared, p: Pid, s: Proc)
    requires Good(w, p, s) && Acting(s)
    ensures w.actor == Some(p)
  {}

  lemma ActBooks(w: Shared, p: Pid, s: Proc, c: Choice)
    requires Global(w) && Good(w, p, s) && Bounded(w) && Booked(w, s)
    requires Good(ActStep(w, p, s, c).sh, p, ActStep(w, p, s, c).s)
    ensures var m := ActStep(w, p, s, c); Booked(m.sh, m.s) && Bounded(m.sh) && BooksForward(w, m.sh, p)
  {
    var m := ActStep(w, p, s, c);
    if Enters(s) {
      assert Shape(s);
      StepBooks(w, p, s, c);
    } else {
      StepQuiet(w, p, s, c);
      QuietBooks(w, p, s, m);
    }
    hide Global, Good, Shape, Acting, Booked, ActStep, Enters, BookedAs;
    if Acting(m.s) { DriverIsBounded(m.sh, p, m.s); DriverIsActor(m.sh, p, m.s); }
  }

  // ---- Exceptions and crashes ----------------------------------------------------------------------

  /** The flags keep saying exactly what is on the books before the fall. */
  lemma FallBooks(w: Shared, e: Books, fell: bool, some: multiset<Worker>, late: bool, again: bool, drifted: bool, net: bool)
    requires BookedAs(w, View(e, false, fell))
    requires again == (e.writes == 1) && e.writes <= 1 && drifted == (e.resolvedStat + e.refundedStat > 0)
    requires some == multiset{} || e.recorded == multiset{}
    requires net ==> !late && Within(Also(e.recorded, some), Each(w.verdict.subs))
    requires !net ==> !fell && !again && late == (e.recorded != multiset{} || some != multiset{})
                      && (late || drifted ==> w.chain == Resolved)
    ensures BookedAs(Fallen(Record(w, some).(threw := true), late, again, drifted), View(NOTHING, net, true))
  {
    hide Also, Each, Within;
  }

  /** Which exceptions make the driver settle in another way, and with what already booked. */
  lemma RereadPosition(s: Proc, chain: Chain, some: multiset<Worker>)
    requires Shape(s) && HonestAt(s, chain) && Partly(s, some) && Handler(s).at == Pay(Reread) != s.at
    ensures var e := ExpectedBooks(s);
      && ViewOf(s) == View(e, false, false) && e.writes == 0
      && (some == multiset{} || e.recorded == multiset{})
      && (LateAt(s, some) <==> e.recorded != multiset{} || some != multiset{})
      && (DriftsAt(s) <==> e.resolvedStat + e.refundedStat > 0)
      && !AgainAt(s) && (LateAt(s, some) || DriftsAt(s) ==> chain == Resolved)
  {
    RereadFrom(s);
    hide Also, Within, Handler, Shape;
  }

  lemma RereadFrom(s: Proc)
    requires Shape(s) && Handler(s).at == Pay(Reread) != s.at
    ensures s.path == Attempting
    ensures s.at == Pay(CreditReputation) || s.at == Pay(DropResolved) || s.at == Pay(CountResolved)
      || (s.at.Patching? && s.patch == Settle(WasResolved))
  {}

  lemma NetPosition(s: Proc, some: multiset<Worker>)
    requires Shape(s) && Partly(s, some) && FallsBack(s) && Handler(s).path == SafetyNet
    ensures var e := ExpectedBooks(s);
      && ViewOf(s) == View(e, false, Fell(s))
      && (DriftsAt(s) <==> e.resolvedStat + e.refundedStat > 0)
      && e.writes <= 1 && (AgainAt(s) <==> e.writes == 1) && !LateAt(s, some)
  {
    hide Also, Each, Within;
  }

  lemma NetRecorded(s: Proc, verdict: Pass, some: multiset<Worker>)
    requires Shape(s) && RatingAt(s, verdict) && Partly(s, some) && FallsBack(s) && Handler(s).path == SafetyNet
    ensures var e := ExpectedBooks(s);
      (some == multiset{} || e.recorded == multiset{}) && Within(Also(e.recorded, some), Each(verdict.subs))
  {
    hide Also, Each, Within;
  }

  /** Nothing is on the books of a process that an exception ends, or that catches it. */
  lemma GonePosition(w: Shared, p: Pid, s: Proc, some: multiset<Worker>)
    requires Good(w, p, s) && Partly(s, some) && Handler(s) != s && !FallsBack(s)
    ensures some == multiset{} && (Handler(s).at.Gone? || (ViewOf(Handler(s)) == ViewOf(s) && Acting(s)))
  {
    hide Each, Within, Also;
  }

  lemma FellBooks(w: Shared, p: Pid, s: Proc, some: multiset<Worker>)
    requires Good(w, p, s) && Booked(w, s) && Partly(s, some) && Handler(s) != s && FallsBack(s)
    ensures Booked(Thrown(w, s, some), Handler(s))
  {
    var net := Handler(s).path == SafetyNet;
    FallsAreActing(w, p, s);
    hide Good;
    FallenView(s);
    if net { NetPosition(s, some); NetRecorded(s, w.verdict, some); } else { RereadPosition(s, w.chain, some); }
    hide Shape, BookedAs, ExpectedBooks, Partly, Also, Each, Within, LateAt, AgainAt, DriftsAt, Fallen, Handler, FallsBack, HonestAt;
    FallBooks(w, ExpectedBooks(s), Fell(s), some, LateAt(s, some), AgainAt(s), DriftsAt(s), net);
  }

  lemma ThrowBooks(w: Shared, p: Pid, s: Proc, some: multiset<Worker>)
    requires Good(w, p, s) && Bounded(w) && Booked(w, s) && Partly(s, some) && Handler(s) != s
    requires Good(Thrown(w, s, some), p, Handler(s))
    ensures Booked(Thrown(w, s, some), Handler(s)) && Bounded(Thrown(w, s, some))
    ensures BooksForward(w, Thrown(w, s, some), p)
  {
    if FallsBack(s) {
      FellBooks(w, p, s, some);
      FallenView(s);
      hide Good, Bounded, Shape, BookedAs, ExpectedBooks, Acting, Thrown, Handler, FallsBack;
      DriverIsBounded(Thrown(w, s, some), p, Handler(s));
      DriverIsActor(Thrown(w, s, some), p, Handler(s));
    } else {
      GonePosition(w, p, s, some);
      StillBooked(w, p, s, Handler(s));
    }
  }

  lemma FallsAreActing(w: Shared, p: Pid, s: Proc)
    requires Good(w, p, s) && Handler(s) != s && FallsBack(s)
    ensures Shape(s) && HonestAt(s, w.chain) && Acting(s) && RatingAt(s, w.verdict) && s.at != Pay(Reread)
  {
    hide RatingAt, HonestAt;
  }

  lemma FallenView(s: Proc)
    requires Shape(s) && FallsBack(s) && Handler(s) != s
    ensures Acting(Handler(s)) && ViewOf(Handler(s)) == View(NOTHING, Handler(s).path == SafetyNet, true)
  {
    hide Each;
  }

  lemma StillBooked(w: Shared, p: Pid, s: Proc, s': Proc)
    requires Bounded(w) && Booked(w, s) && (s'.at.Gone? || (ViewOf(s') == ViewOf(s) && Acting(s)))
    ensures var w' := Record(w, multiset{}).(threw := true); Booked(w', s') && Bounded(w')
  {
    hide ViewOf, Also, Each, Within;
  }

  lemma CrashBooks(w: Shared, p: Pid, s: Proc, some: multiset<Worker>)
    requires Good(w, p, s) && Bounded(w) && Booked(w, s) && Partly(s, some)
    ensures Bounded(Record(w, some)) && BooksForward(w, Record(w, some), p)
  {
    hide Also, Each, Within;
  }

  // ---- Runs ----------------------------------------------------------------------------------------

  ghost predicate BooksInv(w: World) {
    Inv(w) && Bounded(w.sh) && forall p :: p in w.procs ==> Booked(w.sh, w.procs[p])
  }

  lemma BooksBystander(w: Shared, w': Shared, p: Pid, q: Pid, s: Proc)
    requires Good(w', q, s) && Forward(w, w', p) && BooksForward(w, w', p) && q != p && Booked(w, s)
    ensures Booked(w', s)
  {
    hide ViewOf, Also, Each, Within;
    if Acting(s) { DriverIsActor(w', q, s); }
  }

  lemma Others(w: World, w': World, p: Pid)
    requires BooksInv(w) && Inv(w') && Forward(w.sh, w'.sh, p) && BooksForward(w.sh, w'.sh, p) && Bounded(w'.sh)
    requires forall q :: q in w'.procs && q != p ==> q in w.procs && w'.procs[q] == w.procs[q]
    requires p in w'.procs ==> Booked(w'.sh, w'.procs[p])
    ensures BooksInv(w')
  {
    hide Inv, Forward, BooksForward, Booked, Bounded;
    forall q | q in w'.procs ensures Booked(w'.sh, w'.procs[q]) {
      if q != p { GoodOf(w', q); BooksBystander(w.sh, w'.sh, p, q, w.procs[q]); }
    }
  }

  lemma ActBooksStep(w: World, p: Pid, c: Choice)
    requires BooksInv(w) && p in w.procs
    ensures BooksInv(Step(w, Act(p, c)))
  {
    var s, m := w.procs[p], ActStep(w.sh, p, w.procs[p], c);
    GoodOf(w, p);
    ActKeeps(w.sh, p, s, c);
    Compose(w, p, m);
    hide Inv, Global, Good, Forward, BooksForward, Booked, Bounded, ActStep;
    ActBooks(w.sh, p, s, c);
    Others(w, Step(w, Act(p, c)), p);
  }

  lemma ThrowBooksStep(w: World, p: Pid, some: multiset<Worker>)
    requires BooksInv(w) && p in w.procs && Handler(w.procs[p]) != w.procs[p] && Partly(w.procs[p], some)
    ensures BooksInv(Step(w, Throw(p, some)))
  {
    var s, w' := w.procs[p], Thrown(w.sh, w.procs[p], some);
    GoodOf(w, p);
    ThrowKeeps(w.sh, p, s, some);
    Compose(w, p, Move(w', Handler(s)));
    hide Inv, Global, Good, Forward, BooksForward, Booked, Bounded, Thrown, Partly, Handler;
    ThrowBooks(w.sh, p, s, some);
    Others(w, Step(w, Throw(p, some)), p);
  }

  lemma CrashBooksStep(w: World, p: Pid, some: multiset<Worker>)
    requires BooksInv(w) && p in w.procs && Partly(w.procs[p], some)
    ensures BooksInv(Step(w, Crash(p, some)))
  {
    GoodOf(w, p);
    CrashKeeps(w.sh, p, w.procs[p], some);
    CrashStepKeeps(w, p, some);
    hide Inv, Global, Good, Forward, BooksForward, Booked, Bounded, Partly, Record;
    CrashBooks(w.sh, p, w.procs[p], some);
    Others(w, Step(w, Crash(p, some)), p);
  }

  lemma SpawnBooksStep(w: World, k: Kind)
    requires BooksInv(w)
    ensures BooksInv(Step(w, Spawn(k)))
  {
    SpawnKeeps(w, k);
    hide Inv, Bounded, BookedAs;
  }

  lemma OutsideBooksStep(w: World, e: Event)
    requires BooksInv(w) && !e.Spawn? && !e.Act? && !e.Throw? && !e.Crash?
    ensures BooksInv(Step(w, e))
  {
    var w' := Outside(w.sh, e);
    OutsideStepKeeps(w, e);
    OutsideBooks(w.sh, e);
    hide Inv, Bounded, Booked, Outside;
    forall q | q in w.procs ensures Booked(w', w.procs[q]) { OutsideBooked(w.sh, e, w.procs[q]); }
  }

  lemma OutsideBooks(w: Shared, e: Event)
    requires Bounded(w)
    ensures Bounded(Outside(w, e))
  {}

  lemma OutsideBooked(w: Shared, e: Event, s: Proc)
    requires Booked(w, s)
    ensures Booked(Outside(w, e), s)
  {
    hide ViewOf, Acting, Also, Each, Within;
  }

  lemma BooksStep(w: World, e: Event)
    requires BooksInv(w)
    ensures BooksInv(Step(w, e))
  {
    hide BooksInv, Handler, Partly;
    match e
    case Spawn(k) => SpawnBooksStep(w, k);
    case Act(p, c) => if p in w.procs { ActBooksStep(w, p, c); }
    case Throw(p, some) =>
      if p in w.procs && Handler(w.procs[p]) != w.procs[p] && Partly(w.procs[p], some) { ThrowBooksStep(w, p, some); }
    case Crash(p, some) => if p in w.procs && Partly(w.procs[p], some) { CrashBooksStep(w, p, some); }
    case _ => OutsideBooksStep(w, e);
  }

  /** In every run. */
  lemma {:induction false} RunBooks(es: seq<Event>)
    ensures BooksInv(Exec(Init(), es))
    decreases |es|
  {
    hide Step, BookedAs;
    if es == [] {
      InitHolds();
    } else {
      RunBooks(es[..|es| - 1]);
      BooksStep(Exec(Init(), es[..|es| - 1]), es[|es| - 1]);
    }
  }
}
