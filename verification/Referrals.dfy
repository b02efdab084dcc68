/** Referral codes: minting one per owner, and redeeming under a per-code use cap, by any number of
    interleaved requests that may crash between store calls. */
module Referrals {
  import opened Common

  type Address = string
  type Code = string

  const MAX_MINT_ATTEMPTS := 5

  /** getOrCreateReferralCode, up to its next store call. */
  datatype MintPhase =
    | Looking | Opening(found: Code)
    | Claiming(attempt: nat) | Owning(candidate: Code) | Discarding(candidate: Code)
    | Rereading | Reopening(found: Code)
    | Returned(reply: Option<Code>) | Exhausted

  /** redeemReferralCode, up to its next store call. */
  datatype RedeemPhase =
    | Checking | Vetting | Reserving(referrer: Address) | OverCap
    | Holding(referrer: Address) | GivingBack | Rechecking
    | Redeemed | AlreadyRedeemed | Refused

  datatype Proc =
    | Minter(owner: Address, mint: MintPhase)
    | Redeemer(referee: Address, code: Code, redeem: RedeemPhase)

  datatype Redemption = Redemption(referrer: Address, code: Code)

  datatype State = State(
    max: nat,
    codes: map<Code, Address>, owners: map<Address, Code>,
    uses: map<Code, int>, redemptions: map<Address, Redemption>,
    procs: seq<Proc>, crashed: set<nat>)

  /** `candidate` is the code the generator drew; `veteran` says the referee has answer history. */
  datatype Event =
    | Mint(owner: Address)
    | Redeem(referee: Address, code: Code)
    | Act(i: nat, candidate: Code, veteran: bool)
    | Crash(i: nat)

  function Uses(s: State, c: Code): int { if c in s.uses then s.uses[c] else 0 }

  /** The store write of one step. */
  datatype Write =
    | Nothing
    | SetCode(code: Code, owner: Address)
    | DeleteCode(code: Code)
    | SetOwner(owner: Address, code: Code)
    | AddUse(code: Code, delta: int)
    | SetRedemption(referee: Address, redemption: Redemption)

  function Put(s: State, i: nat, p: Proc, w: Write): State
    requires i < |s.procs|
  {
    var t := s.(procs := s.procs[i := p]);
    match w
    case Nothing => t
    case SetCode(c, o) => t.(codes := s.codes[c := o])
    case DeleteCode(c) => t.(codes := s.codes - {c})
    case SetOwner(o, c) => t.(owners := s.owners[o := c])
    case AddUse(c, delta) => t.(uses := s.uses[c := Uses(s, c) + delta])
    case SetRedemption(r, d) => t.(redemptions := s.redemptions[r := d])
  }

  function MintMove(s: State, o: Address, mint: MintPhase, drawn: Code): (MintPhase, Write) {
    match mint
    case Looking => (if o in s.owners then Opening(s.owners[o]) else Claiming(0), Nothing)
    case Opening(c) => (if c in s.codes then Returned(Some(c)) else Claiming(0), Nothing)
    case Claiming(n) =>
      if n >= MAX_MINT_ATTEMPTS then (Exhausted, Nothing)
      else if drawn in s.codes then (Claiming(n + 1), Nothing)
      else (Owning(drawn), SetCode(drawn, o))
    case Owning(c) => if o in s.owners then (Discarding(c), Nothing) else (Returned(Some(c)), SetOwner(o, c))
    case Discarding(c) => (Rereading, DeleteCode(c))
    case Rereading => (if o in s.owners then Reopening(s.owners[o]) else Returned(None), Nothing)
    case Reopening(c) => (Returned(if c in s.codes then Some(c) else None), Nothing)
    case _ => (mint, Nothing)
  }

  function RedeemMove(s: State, r: Address, c: Code, redeem: RedeemPhase, veteran: bool): (RedeemPhase, Write) {
    var known := if r in s.redemptions && s.redemptions[r].code == c then AlreadyRedeemed else Refused;
    match redeem
    case Checking => (if r in s.redemptions then known else Vetting, Nothing)
    case Vetting => (if c !in s.codes || s.codes[c] == r || veteran then Refused else Reserving(s.codes[c]), Nothing)
    case Reserving(owner) => (if Uses(s, c) + 1 > s.max then OverCap else Holding(owner), AddUse(c, 1))
    case OverCap => (Refused, AddUse(c, -1))
    case Holding(owner) =>
      if r in s.redemptions then (GivingBack, Nothing) else (Redeemed, SetRedemption(r, Redemption(owner, c)))
    case GivingBack => (Rechecking, AddUse(c, -1))
    case Rechecking => (known, Nothing)
    case _ => (redeem, Nothing)
  }

  function Move(s: State, p: Proc, drawn: Code, veteran: bool): (Proc, Write) {
    match p
    case Minter(o, mint) => var (next, w) := MintMove(s, o, mint, drawn); (Minter(o, next), w)
    case Redeemer(r, c, redeem) => var (next, w) := RedeemMove(s, r, c, redeem, veteran); (Redeemer(r, c, next), w)
  }

  function Step(s: State, e: Event): State {
    match e
    case Mint(o) => s.(procs := s.procs + [Minter(o, Looking)])
    case Redeem(r, c) => s.(procs := s.procs + [Redeemer(r, c, Checking)])
    case Act(i, drawn, veteran) =>
      if i < |s.procs| && i !in s.crashed then
        var (p, w) := Move(s, s.procs[i], drawn, veteran); Put(s, i, p, w)
      else s
    case Crash(i) => s.(crashed := s.crashed + {i})
  }

  function Init(max: nat): State { State(max, map[], map[], map[], map[], [], {}) }

  function Exec(max: nat, es: seq<Event>): State
    decreases |es|
  {
    if es == [] then Init(max) else Step(Exec(max, es[..|es| - 1]), es[|es| - 1])
  }

  // ---- Minting -----------------------------------------------------------------------------------

  function Candidate(p: Proc): Option<Code> {
    if p.Minter? && (p.mint.Owning? || p.mint.Discarding?) then Some(p.mint.candidate) else None
  }

  predicate OwnerHas(s: State, o: Address, c: Code) { o in s.owners && s.owners[o] == c }

  predicate MintOk(s: State, p: Proc) {
    && (Candidate(p).Some? ==> var c := Candidate(p).value;
         c in s.codes && s.codes[c] == p.owner && !OwnerHas(s, p.owner, c))
    && (p.Minter? ==>
         match p.mint
         case Discarding(_) => p.owner in s.owners
         case Rereading => p.owner in s.owners
         case Opening(c) => OwnerHas(s, p.owner, c)
         case Reopening(c) => OwnerHas(s, p.owner, c)
         case Returned(reply) => reply.Some? && OwnerHas(s, p.owner, reply.value)
         case _ => true)
  }

  /** Every owner key names a code record that names the owner back. */
  ghost predicate OwnersLive(s: State) {
    forall o :: o in s.owners ==> s.owners[o] in s.codes && s.codes[s.owners[o]] == o
  }

  ghost predicate MintInv(s: State) {
    && OwnersLive(s)
    && (forall i :: 0 <= i < |s.procs| ==> MintOk(s, s.procs[i]))
    && (forall i, j :: 0 <= i < j < |s.procs| && Candidate(s.procs[i]).Some?
          ==> Candidate(s.procs[i]) != Candidate(s.procs[j]))
  }

  ghost predicate OthersMint(s: State, t: State, i: nat) {
    forall j :: 0 <= j < |s.procs| && j != i ==> MintOk(t, s.procs[j])
  }

  /** Process `i` moves to `p`; its candidate, if any, is the one it had or a code nobody had. */
  lemma MintMoves(s: State, t: State, i: nat, p: Proc)
    requires MintInv(s) && i < |s.procs| && t.procs == s.procs[i := p]
    requires Candidate(p).None? || Candidate(p) == Candidate(s.procs[i]) || Candidate(p).value !in s.codes
    requires OwnersLive(t) && MintOk(t, p) && OthersMint(s, t, i)
    ensures MintInv(t)
  {
    forall j | 0 <= j < |s.procs| && j != i && Candidate(s.procs[j]).Some? ensures Candidate(s.procs[j]) != Candidate(p) {
      assert MintOk(s, s.procs[j]);
    }
  }

  /** A write that leaves codes and owners alone. */
  predicate Aside(w: Write) { w.Nothing? || w.AddUse? || w.SetRedemption? }

  lemma MintIdles(s: State, i: nat, p: Proc, w: Write)
    requires MintInv(s) && i < |s.procs| && Aside(w) && MintOk(s, p)
    requires Candidate(p).None? || Candidate(p) == Candidate(s.procs[i])
    ensures MintInv(Put(s, i, p, w))
  {
    var t := Put(s, i, p, w);
    forall j | 0 <= j < |s.procs| && j != i ensures MintOk(t, s.procs[j]) { assert MintOk(s, s.procs[j]); }
    MintMoves(s, t, i, p);
  }

  lemma MintClaims(s: State, i: nat, o: Address, drawn: Code)
    requires MintInv(s) && i < |s.procs| && drawn !in s.codes
    ensures MintInv(Put(s, i, Minter(o, Owning(drawn)), SetCode(drawn, o)))
  {
    var t := Put(s, i, Minter(o, Owning(drawn)), SetCode(drawn, o));
    forall j | 0 <= j < |s.procs| && j != i ensures MintOk(t, s.procs[j]) { assert MintOk(s, s.procs[j]); }
    MintMoves(s, t, i, Minter(o, Owning(drawn)));
  }

  lemma MintOwns(s: State, i: nat, o: Address, c: Code)
    requires MintInv(s) && i < |s.procs| && s.procs[i] == Minter(o, Owning(c)) && o !in s.owners
    ensures MintInv(Put(s, i, Minter(o, Returned(Some(c))), SetOwner(o, c)))
  {
    var t := Put(s, i, Minter(o, Returned(Some(c))), SetOwner(o, c));
    assert MintOk(s, s.procs[i]);
    forall j | 0 <= j < |s.procs| && j != i ensures MintOk(t, s.procs[j]) {
      assert MintOk(s, s.procs[j]) && (Candidate(s.procs[j]).Some? ==> Candidate(s.procs[j]) != Some(c));
    }
    MintMoves(s, t, i, Minter(o, Returned(Some(c))));
  }

  /** A loser deletes its own candidate, which no owner key names. */
  lemma MintDiscards(s: State, i: nat, o: Address, c: Code)
    requires MintInv(s) && i < |s.procs| && s.procs[i] == Minter(o, Discarding(c))
    ensures MintInv(Put(s, i, Minter(o, Rereading), DeleteCode(c)))
  {
    var t := Put(s, i, Minter(o, Rereading), DeleteCode(c));
    assert MintOk(s, s.procs[i]);
    forall j | 0 <= j < |s.procs| && j != i ensures MintOk(t, s.procs[j]) {
      assert MintOk(s, s.procs[j]) && (Candidate(s.procs[j]).Some? ==> Candidate(s.procs[j]) != Some(c));
    }
    MintMoves(s, t, i, Minter(o, Rereading));
  }

  lemma MintActKeeps(s: State, i: nat, drawn: Code)
    requires MintInv(s) && i < |s.procs| && s.procs[i].Minter?
    ensures var (p, w) := Move(s, s.procs[i], drawn, false); MintInv(Put(s, i, p, w))
  {
    var o := s.procs[i].owner;
    var (p, w) := Move(s, s.procs[i], drawn, false);
    assert MintOk(s, s.procs[i]) && OwnersLive(s);
    match w
    case SetCode(_, _) => MintClaims(s, i, o, drawn);
    case SetOwner(_, c) => MintOwns(s, i, o, c);
    case DeleteCode(c) => MintDiscards(s, i, o, c);
    case _ => MintIdles(s, i, p, w);
  }

  lemma RedeemActMints(s: State, i: nat, veteran: bool)
    requires MintInv(s) && i < |s.procs| && s.procs[i].Redeemer?
    ensures var (p, w) := Move(s, s.procs[i], "", veteran); MintInv(Put(s, i, p, w))
  {
    var (p, w) := Move(s, s.procs[i], "", veteran);
    MintIdles(s, i, p, w);
  }

  lemma MintStepKeeps(s: State, e: Event)
    requires MintInv(s)
    ensures MintInv(Step(s, e))
  {
    if e.Act? && e.i < |s.procs| && e.i !in s.crashed {
      if s.procs[e.i].Minter? { MintActKeeps(s, e.i, e.candidate); } else { RedeemActMints(s, e.i, e.veteran); }
    }
  }

  lemma {:induction false} MintRun(max: nat, es: seq<Event>)
    ensures MintInv(Exec(max, es))
    decreases |es|
  {
    if es != [] {
      MintRun(max, es[..|es| - 1]);
      MintStepKeeps(Exec(max, es[..|es| - 1]), es[|es| - 1]);
    }
  }

  /** In every interleaving, each owner key names one live code record that names the owner, and
      every mint that returned gave its owner that very code. */
  lemma OneCodePerOwner(max: nat, es: seq<Event>, i: nat, j: nat)
    requires var s := Exec(max, es);
      && i < |s.procs| && s.procs[i].Minter? && s.procs[i].mint.Returned?
      && j < |s.procs| && s.procs[j].Minter? && s.procs[j].mint.Returned?
    ensures var s := Exec(max, es);
      && s.procs[i].mint.reply.Some?
      && var c := s.procs[i].mint.reply.value;
         c in s.codes && s.codes[c] == s.procs[i].owner
         && (s.procs[j].owner == s.procs[i].owner <==> s.procs[j].mint.reply == Some(c))
  {
    MintRun(max, es);
    var s := Exec(max, es);
    assert MintOk(s, s.procs[i]) && MintOk(s, s.procs[j]);
  }

  /** Two owners never share a code, whatever is still in flight. */
  lemma CodesAreDistinct(max: nat, es: seq<Event>, a: Address, b: Address)
    requires var s := Exec(max, es); a in s.owners && b in s.owners && a != b
    ensures Exec(max, es).owners[a] != Exec(max, es).owners[b]
    ensures OwnersLive(Exec(max, es))
  {
    MintRun(max, es);
  }

  // ---- Redeeming ---------------------------------------------------------------------------------

  predicate Holds(p: Proc, c: Code) { p.Redeemer? && p.code == c && (p.redeem.Holding? || p.redeem.GivingBack?) }

  predicate Over(p: Proc, c: Code) { p.Redeemer? && p.code == c && p.redeem.OverCap? }

  function Weight(p: Proc, c: Code, over: bool): nat {
    if (if over then Over(p, c) else Holds(p, c)) then 1 else 0
  }

  /** Requests, crashed ones included, that hold a use of `c`, or that took one beyond the cap. */
  function Count(procs: seq<Proc>, c: Code, over: bool): nat
    decreases |procs|
  {
    if procs == [] then 0
    else Count(procs[..|procs| - 1], c, over) + Weight(procs[|procs| - 1], c, over)
  }

  function Referees(s: State, c: Code): set<Address> {
    set r | r in s.redemptions && s.redemptions[r].code == c
  }

  predicate RedeemOk(s: State, p: Proc) {
    p.Redeemer? ==>
      match p.redeem
      case Reserving(owner) => owner != p.referee
      case Holding(owner) => owner != p.referee
      case GivingBack => p.referee in s.redemptions
      case Rechecking => p.referee in s.redemptions
      case Redeemed => p.referee in s.redemptions && s.redemptions[p.referee].code == p.code
      case AlreadyRedeemed => p.referee in s.redemptions && s.redemptions[p.referee].code == p.code
      case _ => true
  }

  ghost predicate Honest(s: State) {
    && (forall i :: 0 <= i < |s.procs| ==> RedeemOk(s, s.procs[i]))
    && (forall r :: r in s.redemptions ==> s.redemptions[r].referrer != r)
  }

  lemma {:induction false} CountUpdate(procs: seq<Proc>, i: nat, p: Proc, c: Code, over: bool)
    requires i < |procs|
    ensures Count(procs[i := p], c, over) == Count(procs, c, over) - Weight(procs[i], c, over) + Weight(p, c, over)
    decreases |procs|
  {
    var n := |procs| - 1;
    if i < n {
      CountUpdate(procs[..n], i, p, c, over);
      assert procs[i := p][..n] == procs[..n][i := p];
    } else {
      assert procs[i := p][..n] == procs[..n];
    }
  }

  lemma CountAppend(procs: seq<Proc>, p: Proc, c: Code, over: bool)
    requires Weight(p, c, over) == 0
    ensures Count(procs + [p], c, over) == Count(procs, c, over)
  {
    assert (procs + [p])[..|procs|] == procs;
  }

  /** What the ledger says of one code. */
  predicate CodeCapped(s: State, c: Code) {
    && Uses(s, c) == |Referees(s, c)| + Count(s.procs, c, false) + Count(s.procs, c, true)
    && |Referees(s, c)| + Count(s.procs, c, false) <= s.max
  }

  /** One request moves on while the use counter of its code moves by as much as its own share. */
  lemma MoveCapped(s: State, i: nat, p: Proc, delta: int, c: Code)
    requires CodeCapped(s, c) && i < |s.procs| && s.procs[i].Redeemer? && p.Redeemer? && p.code == s.procs[i].code
    requires delta == Weight(p, p.code, false) + Weight(p, p.code, true)
                      - Weight(s.procs[i], p.code, false) - Weight(s.procs[i], p.code, true)
    requires Holds(p, p.code) && !Holds(s.procs[i], p.code) ==> Uses(s, p.code) + 1 <= s.max
    ensures CodeCapped(Put(s, i, p, AddUse(p.code, delta)), c)
  {
    assert Referees(Put(s, i, p, AddUse(p.code, delta)), c) == Referees(s, c);
    hide Referees;
    CountUpdate(s.procs, i, p, c, false);
    CountUpdate(s.procs, i, p, c, true);
  }

  /** A step that touches neither a counter nor a redemption. */
  lemma IdleCapped(s: State, i: nat, p: Proc, w: Write, c: Code)
    requires CodeCapped(s, c) && i < |s.procs| && !w.AddUse? && !w.SetRedemption?
    requires forall over :: Weight(p, c, over) == Weight(s.procs[i], c, over)
    ensures CodeCapped(Put(s, i, p, w), c)
  {
    assert Referees(Put(s, i, p, w), c) == Referees(s, c);
    CountUpdate(s.procs, i, p, c, false);
    CountUpdate(s.procs, i, p, c, true);
  }

  lemma OneMore(before: set<Address>, after: set<Address>, r: Address, joins: bool)
    requires r !in before && forall x :: x in after <==> x in before || (x == r && joins)
    ensures |after| == |before| + if joins then 1 else 0
  {
    assert after == if joins then before + {r} else before;
  }

  lemma RefereeJoins(s: State, t: State, r: Address, d: Redemption, c: Code)
    requires r !in s.redemptions && t.redemptions == s.redemptions[r := d]
    ensures |Referees(t, c)| == |Referees(s, c)| + if d.code == c then 1 else 0
  {
    OneMore(Referees(s, c), Referees(t, c), r, d.code == c);
  }

  /** The held use becomes the redemption. */
  lemma WinCapped(s: State, i: nat, p: Proc, w: Write, c: Code)
    requires CodeCapped(s, c) && i < |s.procs| && s.procs[i].Redeemer? && s.procs[i].redeem.Holding?
    requires p == s.procs[i].(redeem := Redeemed)
    requires w.SetRedemption? && w.referee !in s.redemptions && w.redemption.code == p.code
    ensures CodeCapped(Put(s, i, p, w), c)
  {
    RefereeJoins(s, Put(s, i, p, w), w.referee, w.redemption, c);
    hide Referees;
    CountUpdate(s.procs, i, p, c, false);
    CountUpdate(s.procs, i, p, c, true);
  }

  lemma ActCapped(s: State, i: nat, drawn: Code, veteran: bool, c: Code)
    requires CodeCapped(s, c) && i < |s.procs|
    ensures var (p, w) := Move(s, s.procs[i], drawn, veteran); CodeCapped(Put(s, i, p, w), c)
  {
    var (p, w) := Move(s, s.procs[i], drawn, veteran);
    hide CodeCapped;
    match w
    case AddUse(_, delta) => MoveCapped(s, i, p, delta, c);
    case SetRedemption(_, _) => WinCapped(s, i, p, w, c);
    case _ => IdleCapped(s, i, p, w, c);
  }

  lemma StartCapped(s: State, p: Proc, c: Code)
    requires CodeCapped(s, c) && forall over :: Weight(p, c, over) == 0
    ensures CodeCapped(s.(procs := s.procs + [p]), c)
  {
    assert Referees(s.(procs := s.procs + [p]), c) == Referees(s, c);
    CountAppend(s.procs, p, c, false);
    CountAppend(s.procs, p, c, true);
  }

  lemma StepCapped(s: State, e: Event, c: Code)
    requires CodeCapped(s, c)
    ensures CodeCapped(Step(s, e), c)
  {
    match e
    case Mint(o) => StartCapped(s, Minter(o, Looking), c);
    case Redeem(r, code) => StartCapped(s, Redeemer(r, code, Checking), c);
    case Act(i, drawn, veteran) => if i < |s.procs| && i !in s.crashed { ActCapped(s, i, drawn, veteran, c); }
    case Crash(_) => assert Referees(Step(s, e), c) == Referees(s, c);
  }

  /** In every interleaving and with any crashes: a code's counter is its redemptions plus the uses
      requests still hold, and redemptions plus granted holds never exceed the cap. */
  lemma {:induction false} CapHolds(max: nat, es: seq<Event>, c: Code)
    ensures CodeCapped(Exec(max, es), c)
    decreases |es|
  {
    if es == [] {
      assert Referees(Init(max), c) == {};
    } else {
      CapHolds(max, es[..|es| - 1], c);
      StepCapped(Exec(max, es[..|es| - 1]), es[|es| - 1], c);
    }
  }

  lemma StepKeepsCap(s: State, e: Event)
    ensures Step(s, e).max == s.max
  {}

  lemma {:induction false} CapIsFixed(max: nat, es: seq<Event>)
    ensures Exec(max, es).max == max
    decreases |es|
  {
    if es != [] {
      CapIsFixed(max, es[..|es| - 1]);
      StepKeepsCap(Exec(max, es[..|es| - 1]), es[|es| - 1]);
      hide Step;
    }
  }

  predicate Finished(p: Proc) {
    p.Redeemer? ==> p.redeem.Redeemed? || p.redeem.AlreadyRedeemed? || p.redeem.Refused?
  }

  lemma {:induction false} NoneHeld(procs: seq<Proc>, c: Code, over: bool)
    requires forall p :: p in procs ==> Finished(p)
    ensures Count(procs, c, over) == 0
    decreases |procs|
  {
    if procs != [] {
      assert procs[|procs| - 1] in procs;
      NoneHeld(procs[..|procs| - 1], c, over);
    }
  }

  /** Uses leak only through crashes: once every request finished, the counter is the number of
      referees, whatever races were lost on the way. */
  lemma NothingLeaks(max: nat, es: seq<Event>, c: Code)
    requires forall p :: p in Exec(max, es).procs ==> Finished(p)
    ensures var s := Exec(max, es); Uses(s, c) == |Referees(s, c)| <= max
  {
    CapHolds(max, es, c);
    CapIsFixed(max, es);
    NoneHeld(Exec(max, es).procs, c, false);
    NoneHeld(Exec(max, es).procs, c, true);
  }

  ghost predicate Grows(s: State, t: State) {
    forall r :: r in s.redemptions ==> r in t.redemptions && t.redemptions[r] == s.redemptions[r]
  }

  lemma MoveOk(s: State, i: nat, drawn: Code, veteran: bool)
    requires i < |s.procs| && RedeemOk(s, s.procs[i])
    ensures var (p, w) := Move(s, s.procs[i], drawn, veteran);
      && RedeemOk(Put(s, i, p, w), p)
      && (w.SetRedemption? ==> w.referee !in s.redemptions && w.redemption.referrer != w.referee)
  {}

  lemma ActHonest(s: State, i: nat, drawn: Code, veteran: bool)
    requires Honest(s) && i < |s.procs|
    ensures var (p, w) := Move(s, s.procs[i], drawn, veteran);
      Honest(Put(s, i, p, w)) && Grows(s, Put(s, i, p, w))
  {
    hide Put, Move, Grows;
    var (p, w) := Move(s, s.procs[i], drawn, veteran);
    assert RedeemOk(s, s.procs[i]);
    MoveOk(s, i, drawn, veteran);
    PutHonest(s, i, p, w);
  }

  lemma StaysOk(s: State, t: State, p: Proc)
    requires RedeemOk(s, p) && Grows(s, t)
    ensures RedeemOk(t, p)
  {}

  lemma PutGrows(s: State, i: nat, p: Proc, w: Write)
    requires i < |s.procs| && (w.SetRedemption? ==> w.referee !in s.redemptions && w.redemption.referrer != w.referee)
    requires forall r :: r in s.redemptions ==> s.redemptions[r].referrer != r
    ensures var t := Put(s, i, p, w);
      Grows(s, t) && t.procs == s.procs[i := p] && forall r :: r in t.redemptions ==> t.redemptions[r].referrer != r
  {}

  lemma PutHonest(s: State, i: nat, p: Proc, w: Write)
    requires Honest(s) && i < |s.procs| && RedeemOk(Put(s, i, p, w), p)
    requires w.SetRedemption? ==> w.referee !in s.redemptions && w.redemption.referrer != w.referee
    ensures Honest(Put(s, i, p, w)) && Grows(s, Put(s, i, p, w))
  {
    PutGrows(s, i, p, w);
    hide Put, RedeemOk, Grows;
    forall j | 0 <= j < |s.procs| && j != i ensures RedeemOk(Put(s, i, p, w), s.procs[j]) {
      StaysOk(s, Put(s, i, p, w), s.procs[j]);
    }
  }

  lemma HonestStepKeeps(s: State, e: Event)
    requires Honest(s)
    ensures Honest(Step(s, e)) && Grows(s, Step(s, e))
  {
    if e.Act? && e.i < |s.procs| && e.i !in s.crashed { ActHonest(s, e.i, e.candidate, e.veteran); }
  }

  lemma {:induction false} HonestRun(max: nat, es: seq<Event>)
    ensures Honest(Exec(max, es))
    decreases |es|
  {
    if es != [] {
      HonestRun(max, es[..|es| - 1]);
      HonestStepKeeps(Exec(max, es[..|es| - 1]), es[|es| - 1]);
    }
  }

  /** A redemption is for ever: it names somebody else as referrer, no later run changes it, and all
      requests of the referee that succeed, then or later, were for its code. */
  lemma {:induction false} RedemptionIsForever(max: nat, es: seq<Event>, more: seq<Event>, r: Address)
    requires r in Exec(max, es).redemptions
    ensures var s, t := Exec(max, es), Exec(max, es + more);
      && r in t.redemptions && t.redemptions[r] == s.redemptions[r] && t.redemptions[r].referrer != r
      && forall p :: p in t.procs && p.Redeemer? && p.referee == r && (p.redeem.Redeemed? || p.redeem.AlreadyRedeemed?)
           ==> p.code == s.redemptions[r].code
    decreases |more|
  {
    hide Step, Honest;
    HonestRun(max, es + more);
    if more == [] {
      assert es + more == es;
    } else {
      var n := |more| - 1;
      RedemptionIsForever(max, es, more[..n], r);
      assert (es + more)[..|es + more| - 1] == es + more[..n] && (es + more)[|es + more| - 1] == more[n];
      HonestRun(max, es + more[..n]);
      HonestStepKeeps(Exec(max, es + more[..n]), more[n]);
    }
    HonestSays(Exec(max, es + more), r);
  }

  lemma HonestSays(t: State, r: Address)
    requires Honest(t) && r in t.redemptions
    ensures t.redemptions[r].referrer != r
    ensures forall p :: p in t.procs && p.Redeemer? && p.referee == r && (p.redeem.Redeemed? || p.redeem.AlreadyRedeemed?) ==>
              p.code == t.redemptions[r].code
  {
    forall p | p in t.procs ensures RedeemOk(t, p) {
      var k :| 0 <= k < |t.procs| && t.procs[k] == p;
    }
  }
}
