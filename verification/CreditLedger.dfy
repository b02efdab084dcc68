/** The credit ledger under concurrency: reservations, settlements, restores, checkout credits and
    clawbacks of any number of accounts, interleaved store call by store call, with crashes and a clock
    against which the claims on Stripe events expire. */
module CreditLedger {
  import opened Common
  import Billing

  const EVENT_TTL := Billing.THIRTY_DAYS_MS

  type AccountId = Billing.AccountId
  type EventId = string

  /** One API-key request: reserve the ceiling, charge on chain, settle the difference, answer.
      `Settling` follows a charge of `actual` stroops. An exception gives the whole reservation back,
      for the second time if the difference was settled before. */
  datatype AskPhase = Reserving | Charging | Settling | Settled | Answered | GivenBack | GivenTwice | Refused

  /** One webhook delivery. */
  datatype HookPhase = Arrived | Applying(attempt: nat) | Taking(attempt: nat, take: nat) | Applied(moved: nat) | Duplicate

  datatype Op =
    | Ask(account: AccountId, max: nat, actual: nat, restored: bool, ask: AskPhase)
    | Hook(account: AccountId, id: EventId, credit: bool, amount: nat, claimed: nat, hook: HookPhase)

  datatype Slot = Slot(op: Op, alive: bool)

  /** `seen` holds the claim on each Stripe event, with the last moment it lives. */
  datatype Ledger = Ledger(balance: map<AccountId, int>, seen: map<EventId, nat>, now: nat, ops: seq<Slot>)

  datatype Event =
    | Request(account: AccountId, max: nat)
    | Deliver(account: AccountId, id: EventId, credit: bool, amount: nat)
    | Act(i: nat, actual: nat)
    | Throw(i: nat)
    | Restore(i: nat)
    | Crash(i: nat)
    | Tick(ms: nat)

  function Bal(s: Ledger, a: AccountId): int {
    if a in s.balance then s.balance[a] else 0
  }

  function Put(s: Ledger, i: nat, op: Op, delta: int): Ledger
    requires i < |s.ops|
  {
    Ledger(s.balance[op.account := Bal(s, op.account) + delta], s.seen, s.now, s.ops[i := Slot(op, s.ops[i].alive)])
  }

  function AskStep(s: Ledger, i: nat, actual: nat): Ledger
    requires i < |s.ops| && s.ops[i].op.Ask?
  {
    var op := s.ops[i].op;
    match op.ask
    case Reserving =>
      if Bal(s, op.account) >= op.max then Put(s, i, op.(ask := Charging), -(op.max as int))
      else Put(s, i, op.(ask := Refused), 0)
    case Charging => Put(s, i, op.(ask := Settling, actual := actual), 0)
    case Settling =>
      Put(s, i, op.(ask := Settled), if op.max > op.actual then op.max - op.actual else 0)
    case Settled => Put(s, i, op.(ask := Answered), 0)
    case _ => s
  }

  /** A charge that fails, a store call that throws after it, a reply of the store that is lost: they
      all end in the catch, which settles the reservation as if nothing had been charged. */
  function ThrowStep(s: Ledger, i: nat): Ledger
    requires i < |s.ops| && s.ops[i].op.Ask?
  {
    var op := s.ops[i].op;
    match op.ask
    case Reserving => Put(s, i, op.(ask := Refused), 0)
    case Charging => Put(s, i, op.(ask := GivenBack), op.max)
    case Settling => Put(s, i, op.(ask := GivenBack), op.max)
    case Settled => Put(s, i, op.(ask := GivenTwice), op.max)
    case _ => s
  }

  predicate Seen(s: Ledger, id: EventId) { id in s.seen && s.now <= s.seen[id] }

  function HookStep(s: Ledger, i: nat): Ledger
    requires i < |s.ops| && s.ops[i].op.Hook?
  {
    var op := s.ops[i].op;
    match op.hook
    case Arrived =>
      if Seen(s, op.id) then Put(s, i, op.(hook := Duplicate), 0)
      else Put(s, i, op.(hook := Applying(0), claimed := s.now), 0).(seen := s.seen[op.id := s.now + EVENT_TTL])
    case Applying(n) =>
      if op.credit then Put(s, i, op.(hook := Applied(op.amount)), op.amount)
      else
        var take := Billing.Min(Bal(s, op.account), op.amount);
        if n >= 5 || take <= 0 then Put(s, i, op.(hook := Applied(0)), 0)
        else Put(s, i, op.(hook := Taking(n, take)), 0)
    case Taking(n, take) =>
      if Bal(s, op.account) >= take then Put(s, i, op.(hook := Applied(take)), -(take as int))
      else Put(s, i, op.(hook := Applying(n + 1)), 0)
    case _ => s
  }

  predicate PastCharge(phase: AskPhase) {
    phase.Settling? || phase.Settled? || phase.Answered? || phase.GivenBack? || phase.GivenTwice?
  }

  /** cancelJob and the pause and pool refunds restore what was charged, at most once a question. */
  predicate CanRestore(op: Op) {
    op.Ask? && PastCharge(op.ask) && !op.restored
  }

  function Step(s: Ledger, e: Event): Ledger {
    match e
    case Request(a, max) => s.(ops := s.ops + [Slot(Ask(a, max, 0, false, Reserving), true)])
    case Deliver(a, id, credit, amount) => s.(ops := s.ops + [Slot(Hook(a, id, credit, amount, 0, Arrived), true)])
    case Act(i, actual) =>
      if i < |s.ops| && s.ops[i].alive then
        if s.ops[i].op.Ask? then AskStep(s, i, actual) else HookStep(s, i)
      else s
    case Throw(i) => if i < |s.ops| && s.ops[i].alive && s.ops[i].op.Ask? then ThrowStep(s, i) else s
    case Restore(i) =>
      if i < |s.ops| && CanRestore(s.ops[i].op)
      then Put(s, i, s.ops[i].op.(restored := true), s.ops[i].op.actual) else s
    case Crash(i) => if i < |s.ops| then s.(ops := s.ops[i := s.ops[i].(alive := false)]) else s
    case Tick(ms) => s.(now := s.now + ms)
  }

  function Exec(es: seq<Event>): Ledger
    decreases |es|
  {
    if es == [] then Ledger(map[], map[], 0, []) else Step(Exec(es[..|es| - 1]), es[|es| - 1])
  }

  // ---- What one operation contributes -----------------------------------------------------------

  /** The net effect of an operation on its account, judged by where it stands. */
  function Net(op: Op): int {
    match op
    case Ask(_, max, actual, restored, phase) =>
      (match phase
       case Charging => -(max as int)
       case Settling => -(max as int)
       case Settled => -Billing.Min(max, actual)
       case Answered => -Billing.Min(max, actual)
       case GivenTwice => max - Billing.Min(max, actual)
       case _ => 0)
      + (if restored then actual else 0)
    case Hook(_, _, credit, _, _, phase) =>
      if phase.Applied? then (if credit then phase.moved else -(phase.moved as int)) else 0
  }

  function Total(ops: seq<Slot>, a: AccountId): int
    decreases |ops|
  {
    if ops == [] then 0
    else Total(ops[..|ops| - 1], a) + (var op := ops[|ops| - 1].op; if op.account == a then Net(op) else 0)
  }

  predicate WellFormed(op: Op) {
    match op
    case Ask(_, _, _, restored, phase) => restored ==> PastCharge(phase)
    case Hook(_, _, credit, amount, _, phase) =>
      && (phase.Applied? ==> (if credit then phase.moved == amount else phase.moved <= amount))
      && (phase.Taking? ==> !credit && phase.take <= amount)
  }

  /** The delivery that won the claim on its event id. */
  predicate Claimant(op: Op) {
    op.Hook? && (op.hook.Applying? || op.hook.Taking? || op.hook.Applied?)
  }

  /** A claim lives as long as its entry, and two claims on one event are more than a ttl apart. */
  ghost predicate ClaimsApart(s: Ledger) {
    && (forall i :: 0 <= i < |s.ops| && Claimant(s.ops[i].op) ==>
          var op := s.ops[i].op; op.id in s.seen && op.claimed + EVENT_TTL <= s.seen[op.id] && op.claimed <= s.now)
    && (forall i, j :: 0 <= i < j < |s.ops| && SameEvent(s.ops[i].op, s.ops[j].op) ==>
          Apart(s.ops[i].op.claimed, s.ops[j].op.claimed))
  }

  /** Two deliveries of one event that both got past the claim. */
  predicate SameEvent(a: Op, b: Op) { Claimant(a) && Claimant(b) && a.id == b.id }

  predicate Apart(t: nat, u: nat) { t + EVENT_TTL < u || u + EVENT_TTL < t }

  ghost predicate Inv(s: Ledger) {
    && (forall i :: 0 <= i < |s.ops| ==> WellFormed(s.ops[i].op))
    && (forall a :: Bal(s, a) >= 0)
    && (forall a :: Bal(s, a) == Total(s.ops, a))
  }

  lemma {:induction false} TotalUpdate(ops: seq<Slot>, i: nat, x: Slot, a: AccountId)
    requires i < |ops| && ops[i].op.account == x.op.account
    ensures Total(ops[i := x], a) == Total(ops, a) + if x.op.account == a then Net(x.op) - Net(ops[i].op) else 0
    decreases |ops|
  {
    var n := |ops| - 1;
    if i < n {
      TotalUpdate(ops[..n], i, x, a);
      assert ops[i := x][..n] == ops[..n][i := x];
    } else {
      assert ops[i := x][..n] == ops[..n];
    }
  }

  lemma TotalAppend(ops: seq<Slot>, x: Slot, a: AccountId)
    requires Net(x.op) == 0
    ensures Total(ops + [x], a) == Total(ops, a)
  {
    assert (ops + [x])[..|ops|] == ops;
  }

  /** A store write that moves the balance by what it moves the operation's contribution. */
  lemma PutKeeps(s: Ledger, i: nat, op: Op, delta: int)
    requires Inv(s) && i < |s.ops| && op.account == s.ops[i].op.account && WellFormed(op)
    requires delta == Net(op) - Net(s.ops[i].op) && Bal(s, op.account) + delta >= 0
    ensures Inv(Put(s, i, op, delta))
  {
    var s' := Put(s, i, op, delta);
    forall a ensures Bal(s', a) >= 0 && Bal(s', a) == Total(s'.ops, a) {
      TotalUpdate(s.ops, i, Slot(op, s.ops[i].alive), a);
    }
  }

  lemma StepKeeps(s: Ledger, e: Event)
    requires Inv(s)
    ensures Inv(Step(s, e))
  {
    hide AskStep, HookStep, ThrowStep;
    match e
    case Request(a, max) =>
      forall b { TotalAppend(s.ops, Slot(Ask(a, max, 0, false, Reserving), true), b); }
      assert forall b :: Bal(Step(s, e), b) == Bal(s, b);
    case Deliver(a, id, credit, amount) =>
      forall b { TotalAppend(s.ops, Slot(Hook(a, id, credit, amount, 0, Arrived), true), b); }
      assert forall b :: Bal(Step(s, e), b) == Bal(s, b);
    case Act(i, actual) =>
      if i < |s.ops| && s.ops[i].alive {
        if s.ops[i].op.Ask? { AskKeeps(s, i, actual); } else { HookKeeps(s, i); }
      }
    case Throw(i) => if i < |s.ops| && s.ops[i].alive && s.ops[i].op.Ask? { ThrowKeeps(s, i); }
    case Restore(i) =>
      if i < |s.ops| && CanRestore(s.ops[i].op) {
        PutKeeps(s, i, s.ops[i].op.(restored := true), s.ops[i].op.actual);
      }
    case Crash(i) =>
      if i < |s.ops| {
        forall a { TotalUpdate(s.ops, i, s.ops[i].(alive := false), a); }
        assert forall b :: Bal(Step(s, e), b) == Bal(s, b);
      }
    case Tick(_) => assert forall b :: Bal(Step(s, e), b) == Bal(s, b);
  }

  lemma AskKeeps(s: Ledger, i: nat, actual: nat)
    requires Inv(s) && i < |s.ops| && s.ops[i].op.Ask?
    ensures Inv(AskStep(s, i, actual))
  {
    var op := s.ops[i].op;
    match op.ask
    case Reserving =>
      if Bal(s, op.account) >= op.max { PutKeeps(s, i, op.(ask := Charging), -(op.max as int)); }
      else { PutKeeps(s, i, op.(ask := Refused), 0); }
    case Charging => PutKeeps(s, i, op.(ask := Settling, actual := actual), 0);
    case Settling => PutKeeps(s, i, op.(ask := Settled), if op.max > op.actual then op.max - op.actual else 0);
    case Settled => PutKeeps(s, i, op.(ask := Answered), 0);
    case _ =>
  }

  lemma ThrowKeeps(s: Ledger, i: nat)
    requires Inv(s) && i < |s.ops| && s.ops[i].op.Ask?
    ensures Inv(ThrowStep(s, i))
  {
    var op := s.ops[i].op;
    match op.ask
    case Reserving => PutKeeps(s, i, op.(ask := Refused), 0);
    case Charging => PutKeeps(s, i, op.(ask := GivenBack), op.max);
    case Settling => PutKeeps(s, i, op.(ask := GivenBack), op.max);
    case Settled => PutKeeps(s, i, op.(ask := GivenTwice), op.max);
    case _ =>
  }

  lemma HookKeeps(s: Ledger, i: nat)
    requires Inv(s) && i < |s.ops| && s.ops[i].op.Hook?
    ensures Inv(HookStep(s, i))
  {
    var op := s.ops[i].op;
    match op.hook
    case Arrived =>
      if Seen(s, op.id) { PutKeeps(s, i, op.(hook := Duplicate), 0); }
      else {
        PutKeeps(s, i, op.(hook := Applying(0), claimed := s.now), 0);
        assert forall a :: Bal(HookStep(s, i), a) == Bal(Put(s, i, op.(hook := Applying(0), claimed := s.now), 0), a);
      }
    case Applying(n) =>
      if op.credit { PutKeeps(s, i, op.(hook := Applied(op.amount)), op.amount); }
      else {
        var take := Billing.Min(Bal(s, op.account), op.amount);
        if n >= 5 || take <= 0 { PutKeeps(s, i, op.(hook := Applied(0)), 0); }
        else { PutKeeps(s, i, op.(hook := Taking(n, take)), 0); }
      }
    case Taking(n, take) =>
      if Bal(s, op.account) >= take { PutKeeps(s, i, op.(hook := Applied(take)), -(take as int)); }
      else { PutKeeps(s, i, op.(hook := Applying(n + 1)), 0); }
    case _ =>
  }

  /** In every interleaving no balance is ever negative, and it is exactly the sum of what the
      operations begun on the account have contributed so far. */
  lemma {:induction false} Conservation(es: seq<Event>)
    ensures Inv(Exec(es))
    decreases |es|
  {
    if es != [] {
      Conservation(es[..|es| - 1]);
      StepKeeps(Exec(es[..|es| - 1]), es[|es| - 1]);
    }
  }

  // ---- Stripe events -----------------------------------------------------------------------------

  /** A step that changes one operation, and claims an event id only if no claim on it lives. */
  lemma ClaimMoves(s: Ledger, t: Ledger, i: nat)
    requires ClaimsApart(s) && i < |s.ops| && |t.ops| == |s.ops| && t.now == s.now
    requires forall id :: id in s.seen ==> id in t.seen && s.seen[id] <= t.seen[id]
    requires forall j :: 0 <= j < |s.ops| && j != i ==> t.ops[j].op == s.ops[j].op
    requires var old_, new_ := s.ops[i].op, t.ops[i].op;
      Claimant(new_) ==>
        || (Claimant(old_) && new_.id == old_.id && new_.claimed == old_.claimed)
        || (!Seen(s, new_.id) && new_.claimed == s.now && new_.id in t.seen && s.now + EVENT_TTL <= t.seen[new_.id])
    ensures ClaimsApart(t)
  {
    forall j | 0 <= j < |t.ops| && j != i && SameEvent(t.ops[j].op, t.ops[i].op)
      ensures Apart(t.ops[j].op.claimed, t.ops[i].op.claimed) {
      assert Claimant(s.ops[j].op);
    }
  }

  lemma ClaimAct(s: Ledger, i: nat, actual: nat)
    requires ClaimsApart(s)
    ensures ClaimsApart(Step(s, Act(i, actual)))
  {
    if i < |s.ops| && s.ops[i].alive { ClaimMoves(s, Step(s, Act(i, actual)), i); }
  }

  lemma ClaimStep(s: Ledger, e: Event)
    requires ClaimsApart(s)
    ensures ClaimsApart(Step(s, e))
  {
    match e
    case Act(i, actual) => ClaimAct(s, i, actual);
    case Throw(i) => if i < |s.ops| && s.ops[i].alive && s.ops[i].op.Ask? { ClaimMoves(s, Step(s, e), i); }
    case Restore(i) => if i < |s.ops| && CanRestore(s.ops[i].op) { ClaimMoves(s, Step(s, e), i); }
    case Crash(i) => if i < |s.ops| { ClaimMoves(s, Step(s, e), i); }
    case _ =>
  }

  lemma {:induction false} RunClaims(es: seq<Event>)
    ensures ClaimsApart(Exec(es))
    decreases |es|
  {
    if es != [] {
      RunClaims(es[..|es| - 1]);
      ClaimStep(Exec(es[..|es| - 1]), es[|es| - 1]);
    }
  }

  /** Two deliveries of one Stripe event that both got past the claim did so more than thirty days
      apart: until then, at most one moves money. */
  lemma EventsApplyOnce(es: seq<Event>, i: nat, j: nat)
    requires var s := Exec(es); i < |s.ops| && j < |s.ops| && i != j && SameEvent(s.ops[i].op, s.ops[j].op)
    ensures var s := Exec(es);
      Apart(s.ops[i].op.claimed, s.ops[j].op.claimed) && s.now > EVENT_TTL
  {
    RunClaims(es);
  }

  // ---- What an operation moved -------------------------------------------------------------------

  /** The operation whose code a step runs. */
  predicate By(e: Event, i: nat) { (e.Act? || e.Throw? || e.Restore?) && e.i == i }

  /** By how much the steps of operation `i` moved the balance of its account, over a whole run. */
  function Moved(es: seq<Event>, i: nat): int
    decreases |es|
  {
    if es == [] then 0
    else
      var before, after := Exec(es[..|es| - 1]), Exec(es);
      Moved(es[..|es| - 1], i)
      + if By(es[|es| - 1], i) && i < |before.ops|
        then Bal(after, before.ops[i].op.account) - Bal(before, before.ops[i].op.account) else 0
  }

  lemma PutMoves(s: Ledger, i: nat, op: Op, delta: int)
    requires i < |s.ops| && op.account == s.ops[i].op.account
    ensures var t := Put(s, i, op, delta);
      |t.ops| == |s.ops| && t.ops[i].op == op && Bal(t, op.account) == Bal(s, op.account) + delta
  {}

  lemma AskMoves(s: Ledger, i: nat, actual: nat)
    requires i < |s.ops| && s.ops[i].op.Ask? && WellFormed(s.ops[i].op)
    ensures var t, op := AskStep(s, i, actual), s.ops[i].op;
      && |t.ops| == |s.ops| && t.ops[i].op.account == op.account
      && Net(t.ops[i].op) - Net(op) == Bal(t, op.account) - Bal(s, op.account)
  {
    var op := s.ops[i].op;
    hide Put, Bal;
    match op.ask
    case Reserving =>
      if Bal(s, op.account) >= op.max { PutMoves(s, i, op.(ask := Charging), -(op.max as int)); }
      else { PutMoves(s, i, op.(ask := Refused), 0); }
    case Charging => PutMoves(s, i, op.(ask := Settling, actual := actual), 0);
    case Settling => PutMoves(s, i, op.(ask := Settled), if op.max > op.actual then op.max - op.actual else 0);
    case Settled => PutMoves(s, i, op.(ask := Answered), 0);
    case _ =>
  }

  lemma ThrowMoves(s: Ledger, i: nat)
    requires i < |s.ops| && s.ops[i].op.Ask? && WellFormed(s.ops[i].op)
    ensures var t, op := ThrowStep(s, i), s.ops[i].op;
      && |t.ops| == |s.ops| && t.ops[i].op.account == op.account
      && Net(t.ops[i].op) - Net(op) == Bal(t, op.account) - Bal(s, op.account)
  {
    var op := s.ops[i].op;
    hide Put, Bal;
    match op.ask
    case Reserving => PutMoves(s, i, op.(ask := Refused), 0);
    case Charging => PutMoves(s, i, op.(ask := GivenBack), op.max);
    case Settling => PutMoves(s, i, op.(ask := GivenBack), op.max);
    case Settled => PutMoves(s, i, op.(ask := GivenTwice), op.max);
    case _ =>
  }

  lemma HookMoves(s: Ledger, i: nat)
    requires i < |s.ops| && s.ops[i].op.Hook? && WellFormed(s.ops[i].op)
    ensures var t, op := HookStep(s, i), s.ops[i].op;
      && |t.ops| == |s.ops| && t.ops[i].op.account == op.account
      && Net(t.ops[i].op) - Net(op) == Bal(t, op.account) - Bal(s, op.account)
  {}

  lemma OthersStay(s: Ledger, e: Event, i: nat)
    requires i < |s.ops| && !By(e, i)
    ensures i < |Step(s, e).ops| && Step(s, e).ops[i].op == s.ops[i].op
  {}

  lemma StepMoves(s: Ledger, e: Event, i: nat)
    requires i < |s.ops| && WellFormed(s.ops[i].op)
    ensures var t, op := Step(s, e), s.ops[i].op;
      && i < |t.ops| && t.ops[i].op.account == op.account
      && Net(t.ops[i].op) - Net(op) == if By(e, i) then Bal(t, op.account) - Bal(s, op.account) else 0
  {
    if !By(e, i) { OthersStay(s, e, i); }
    hide AskStep, HookStep, ThrowStep;
    if e.Throw? && e.i == i && s.ops[i].alive && s.ops[i].op.Ask? { ThrowMoves(s, i); }
    if e.Act? && e.i == i && s.ops[i].alive {
      if s.ops[i].op.Ask? { AskMoves(s, i, e.actual); } else { HookMoves(s, i); }
    }
  }

  lemma Newcomer(s: Ledger, e: Event, i: nat)
    requires |s.ops| <= i < |Step(s, e).ops|
    ensures Net(Step(s, e).ops[i].op) == 0
  {}

  lemma {:induction false} MovedIsNet(es: seq<Event>, i: nat)
    ensures Moved(es, i) == if i < |Exec(es).ops| then Net(Exec(es).ops[i].op) else 0
    decreases |es|
  {
    hide Step, Net;
    if es != [] {
      var front := es[..|es| - 1];
      MovedIsNet(front, i);
      var s, e := Exec(front), es[|es| - 1];
      Conservation(front);
      if i < |s.ops| { StepMoves(s, e, i); } else if i < |Exec(es).ops| { Newcomer(s, e, i); }
    }
  }

  predicate Finished(phase: AskPhase) { PastCharge(phase) && !phase.Settling? }

  /** The difference was settled and no exception gave the reservation back. */
  predicate Straight(phase: AskPhase) { phase.Settled? || phase.Answered? }

  /** In every run a finished request has cost its account the smaller of reservation and price, and
      nothing at all, or less, if an exception gave the reservation back. So it has cost the price of a
      charge that landed if and only if nothing threw after it and the price was reserved. */
  lemma FinishedRequestCost(es: seq<Event>, i: nat)
    requires i < |Exec(es).ops|
    requires var op := Exec(es).ops[i].op; op.Ask? && Finished(op.ask) && !op.restored
    ensures var op := Exec(es).ops[i].op;
      && (Straight(op.ask) ==> Moved(es, i) == -Billing.Min(op.max, op.actual))
      && (op.ask.GivenBack? ==> Moved(es, i) == 0)
      && (op.ask.GivenTwice? ==> Moved(es, i) == op.max - Billing.Min(op.max, op.actual))
      && (op.actual > 0 ==> (Moved(es, i) == -(op.actual as int) <==> Straight(op.ask) && op.actual <= op.max))
  {
    MovedIsNet(es, i);
  }

  /** Reserve, charge, settle and restore cancel out if and only if nothing threw after the charge and
      the price stayed within the reservation (or was just that, when the difference is still to be
      settled). Otherwise the customer is ahead: by the excess, or by the whole price if an exception
      gave the reservation back before it was restored. */
  lemma RestoredRequestCost(es: seq<Event>, i: nat)
    requires i < |Exec(es).ops|
    requires var op := Exec(es).ops[i].op; op.Ask? && op.restored && op.actual > 0
    ensures var op := Exec(es).ops[i].op;
      && (Moved(es, i) == 0 <==>
           (Straight(op.ask) && op.actual <= op.max) || (op.ask.Settling? && op.actual == op.max))
      && (Straight(op.ask) && op.actual > op.max ==> Moved(es, i) == op.actual - op.max)
      && (op.ask.GivenBack? ==> Moved(es, i) == op.actual)
  {
    MovedIsNet(es, i);
    Conservation(es);
  }

  // ---- Deliveries that die, and deliveries that come back ----------------------------------------

  /** A delivery of a checkout that claimed its event and died before it credited the account. */
  predicate Died(x: Slot) { x.op.Hook? && x.op.credit && x.op.hook.Applying? && !x.alive }

  lemma DeadStays(s: Ledger, e: Event, i: nat)
    requires i < |s.ops| && Died(s.ops[i])
    ensures i < |Step(s, e).ops| && Step(s, e).ops[i] == s.ops[i] && s.now <= Step(s, e).now
  {}

  lemma {:induction false} DiedForGood(es: seq<Event>, later: seq<Event>, i: nat)
    requires i < |Exec(es).ops| && Died(Exec(es).ops[i])
    ensures i < |Exec(es + later).ops| && Exec(es + later).ops[i] == Exec(es).ops[i]
    decreases |later|
  {
    hide Step, Died;
    if later == [] {
      assert es + later == es;
    } else {
      var n := |later| - 1;
      DiedForGood(es, later[..n], i);
      assert (es + later)[..|es + later| - 1] == es + later[..n];
      DeadStays(Exec(es + later[..n]), later[n], i);
    }
  }

  /** It never credits it, and for thirty days no redelivery does either: each finds the claim. */
  lemma LostForGood(es: seq<Event>, later: seq<Event>, i: nat, j: nat)
    requires i < |Exec(es).ops| && Died(Exec(es).ops[i]) && j < |Exec(es + later).ops| && j != i
    requires Exec(es + later).now <= Exec(es).ops[i].op.claimed + EVENT_TTL
    ensures Moved(es + later, i) == 0
    ensures var s, dead := Exec(es + later), Exec(es).ops[i].op;
      s.ops[j].op.Hook? && s.ops[j].op.id == dead.id && Claimant(s.ops[j].op) ==>
        s.ops[j].op.claimed + EVENT_TTL < dead.claimed
  {
    DiedForGood(es, later, i);
    MovedIsNet(es + later, i);
    RunClaims(es + later);
    hide Step;
    var s := Exec(es + later);
    assert Claimant(s.ops[i].op);
  }

  /** A claimed checkout is credited, once and in full, exactly when its delivery got to the credit:
      it is not waiting to, and did not die before. */
  lemma ClaimedCheckout(es: seq<Event>, i: nat)
    requires i < |Exec(es).ops|
    requires var op := Exec(es).ops[i].op; Claimant(op) && op.credit && op.amount > 0
    ensures Moved(es, i) == Exec(es).ops[i].op.amount <==> !Exec(es).ops[i].op.hook.Applying?
    ensures Moved(es, i) == 0 <==> Exec(es).ops[i].op.hook.Applying?
  {
    MovedIsNet(es, i);
    Conservation(es);
  }

  lemma Next(es: seq<Event>, e: Event)
    ensures Exec(es + [e]) == Step(Exec(es), e)
  {
    assert (es + [e])[..|es + [e]| - 1] == es;
  }

  /** After the thirty days a redelivery is taken for a new event, and the payment credited again. */
  lemma CreditedTwice(a: AccountId, id: EventId, amount: nat) returns (es: seq<Event>)
    ensures Bal(Exec(es), a) == amount + amount && |Exec(es).ops| == 2
    ensures Exec(es).ops[0].op.Hook? && Exec(es).ops[1].op.Hook? && Exec(es).ops[0].op.id == id == Exec(es).ops[1].op.id
  {
    hide Exec;
    es := [];
    NoEvents();
    var todo := [Deliver(a, id, true, amount), Act(0, 0), Act(0, 0), Tick(EVENT_TTL + 1),
                 Deliver(a, id, true, amount), Act(1, 0), Act(1, 0)];
    Next(es, todo[0]); es := es + [todo[0]];
    Next(es, todo[1]); es := es + [todo[1]];
    Next(es, todo[2]); es := es + [todo[2]];
    assert Bal(Exec(es), a) == amount && Exec(es).seen == map[id := EVENT_TTL] && |Exec(es).ops| == 1;
    Next(es, todo[3]); es := es + [todo[3]];
    Next(es, todo[4]); es := es + [todo[4]];
    Next(es, todo[5]); es := es + [todo[5]];
    Next(es, todo[6]); es := es + [todo[6]];
  }

  lemma Deposited(a: AccountId, id: EventId) returns (es: seq<Event>)
    ensures Bal(Exec(es), a) == 100 && Exec(es).ops == [Slot(Hook(a, id, true, 100, 0, Applied(100)), true)]
  {
    hide Exec;
    es := [];
    NoEvents();
    var todo := [Deliver(a, id, true, 100), Act(0, 0), Act(0, 0)];
    Next(es, todo[0]); es := es + [todo[0]];
    Next(es, todo[1]); es := es + [todo[1]];
    Next(es, todo[2]); es := es + [todo[2]];
  }

  /** The store throws after the charge, the reservation of 10 is given back, and then the price of 3
      is restored on top: 100 stroops have become 103. */
  lemma RefundedAndRestored(a: AccountId, id: EventId) returns (es: seq<Event>)
    ensures Bal(Exec(es), a) == 103 && |Exec(es).ops| == 2
    ensures Exec(es).ops[0].op == Hook(a, id, true, 100, 0, Applied(100))
    ensures Exec(es).ops[1].op == Ask(a, 10, 3, true, GivenBack)
  {
    hide Exec;
    var todo := [Request(a, 10), Act(1, 0), Act(1, 3), Throw(1), Restore(1)];
    es := Deposited(a, id);
    Next(es, todo[0]); es := es + [todo[0]];
    Next(es, todo[1]); es := es + [todo[1]];
    assert Bal(Exec(es), a) == 90 && Exec(es).ops[1] == Slot(Ask(a, 10, 0, false, Charging), true);
    Next(es, todo[2]); es := es + [todo[2]];
    Next(es, todo[3]); es := es + [todo[3]];
    Next(es, todo[4]); es := es + [todo[4]];
  }

  lemma NoEvents()
    ensures Exec([]) == Ledger(map[], map[], 0, [])
  {}

  /** server.js reserves the base price times the surge ceiling of 2. */
  function Reservation(base: nat): nat { base * 2 }

  /** A priority quote: surge in hundredths, times the queue-jump factor 1.25, rounded half up. */
  function PriorityQuote(base: nat, surge: nat): nat { (base * surge * 125 + 5_000) / 10_000 }

  /** A restored priority request is an identity for the customer exactly if nothing threw after its
      charge and the surge, weighed by the price, stays within 1.60. */
  lemma RestoredPriorityRequest(es: seq<Event>, i: nat, base: nat, surge: nat)
    requires i < |Exec(es).ops|
    requires var op := Exec(es).ops[i].op;
      && op.Ask? && Finished(op.ask) && op.restored && op.actual > 0
      && op.max == Reservation(base) && op.actual == PriorityQuote(base, surge)
    ensures Moved(es, i) == 0 <==> Straight(Exec(es).ops[i].op.ask) && base * surge < base * 160 + 40
  {
    RestoredRequestCost(es, i);
    var x := base * surge;
    assert PriorityQuote(base, surge) <= base * 2 <==> x * 125 + 5_000 < base * 20_000 + 10_000;
  }
}
