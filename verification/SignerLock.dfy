/** Signing as the platform key: a serial queue per process, a leased lock across processes, and one
    account whose sequence numbers must be consumed without gaps or collisions. */
module SignerLock {
  import opened Common
  import opened Store

  // ---- The lock of one process, over the store ---------------------------------------------------

  const LOCK_KEY := "lock:platform-signer"

  /** What other instances left at the lock's key by the time of poll `i`: what was there at first,
      then what each of `rivals` left while this instance slept. */
  function LeftBy(lease: Option<Entry>, rivals: seq<Option<Entry>>, i: nat): Option<Entry> {
    if i == 0 || rivals == [] then lease
    else if i <= |rivals| then rivals[i - 1] else rivals[|rivals| - 1]
  }

  function LeaseIn(m: Entries): Option<Entry> { if LOCK_KEY in m then Some(m[LOCK_KEY]) else None }

  predicate HeldAt(lease: Option<Entry>, now: nat) { lease.Some? && Alive(lease.value, now) }

  predicate OtherKeysStay(m: Entries, m': Entries) {
    m - {LOCK_KEY} == m' - {LOCK_KEY}
  }

  /** acquire, release and run for one instance, while others use the lease between its polls. */
  class Lock {
    const store: MemoryStore
    const canary: bool
    const ttlMs: nat
    const waitMs: nat
    const pollMs: nat

    constructor (store: MemoryStore, canary: bool, ttlMs: nat, waitMs: nat, pollMs: nat)
      ensures this.store == store && this.canary == canary
      ensures this.ttlMs == ttlMs && this.waitMs == waitMs && this.pollMs == pollMs
    {
      this.store, this.canary := store, canary;
      this.ttlMs, this.waitMs, this.pollMs := ttlMs, waitMs, pollMs;
    }

    /** Other instances leave the lease like this. */
    method Interfere(lease: Option<Entry>)
      modifies store`entries
      ensures LeaseIn(store.entries) == lease && OtherKeysStay(old(store.entries), store.entries)
    {
      store.entries := match lease
        case Some(e) => store.entries[LOCK_KEY := e]
        case None => store.entries - {LOCK_KEY};
    }

    /** Polls until it finds the lease free or the deadline has passed. It never waits more than one
        poll beyond the deadline; it takes the lease only from nobody, and gives up only while somebody
        holds it. */
    method Acquire(token: string, rivals: seq<Option<Entry>>) returns (ok: bool, polls: nat)
      requires pollMs > 0
      modifies store
      ensures old(store.now) <= store.now < old(store.now) + waitMs + pollMs
      ensures store.now == old(store.now) + polls * pollMs
      ensures OtherKeysStay(old(store.entries), store.entries)
      ensures var left := LeftBy(LeaseIn(old(store.entries)), rivals, polls);
        && (ok <==> !HeldAt(left, store.now))
        && LeaseIn(store.entries) == if ok then Some(Entry(Text(token), Expiry(ttlMs, store.now))) else left
      ensures forall i :: 0 <= i < polls ==>
        HeldAt(LeftBy(LeaseIn(old(store.entries)), rivals, i), old(store.now) + i * pollMs)
      ensures !ok ==> store.now >= old(store.now) + waitMs
    {
      var deadline := store.now + waitMs;
      polls := 0;
      while true
        invariant OtherKeysStay(old(store.entries), store.entries)
        invariant LeaseIn(store.entries) == LeftBy(LeaseIn(old(store.entries)), rivals, polls)
        invariant forall i :: 0 <= i < polls ==>
          HeldAt(LeftBy(LeaseIn(old(store.entries)), rivals, i), old(store.now) + i * pollMs)
        invariant store.now == old(store.now) + polls * pollMs
        invariant old(store.now) <= store.now < deadline + pollMs
        decreases deadline + pollMs - store.now
      {
        ok := store.SetNX(LOCK_KEY, Text(token), ttlMs);
        if ok { return; }
        if store.now >= deadline { return; }
        store.Wait(pollMs);
        if polls < |rivals| { Interfere(rivals[polls]); }
        polls := polls + 1;
      }
    }

    /** Compare, then delete: a lease taken over by somebody else stays. */
    method Release(token: string)
      modifies store`entries
      ensures Live(store.entries, store.now, LOCK_KEY) ==
        var held := Live(old(store.entries), store.now, LOCK_KEY);
        if held == Some(Text(token)) then None else held
      ensures forall k :: k != LOCK_KEY ==> Live(store.entries, store.now, k) == Live(old(store.entries), store.now, k)
    {
      var held := store.Get(LOCK_KEY);
      if held == Some(Text(token)) { store.Delete(LOCK_KEY); }
    }

    /** run around a body that takes `bodyMs`, at the end of which the lease is as `taken` says if
        somebody else came to take it: that stays, and otherwise nothing is left of the lease. */
    method Run(token: string, rivals: seq<Option<Entry>>, bodyMs: nat, taken: Option<Entry>) returns (entered: bool)
      requires pollMs > 0
      requires taken.Some? ==> taken.value.value != Text(token)
      modifies store
      ensures canary ==> !entered && store.entries == old(store.entries) && store.now == old(store.now)
      ensures entered ==>
        && Live(store.entries, store.now, LOCK_KEY) == (if HeldAt(taken, store.now) then Some(taken.value.value) else None)
        && store.now >= old(store.now) + bodyMs
      ensures !entered && !canary ==> HeldAt(LeaseIn(store.entries), store.now) && store.now >= old(store.now) + waitMs
    {
      if canary { return false; }
      var polls;
      entered, polls := Acquire(token, rivals);
      if !entered { return; }
      store.Wait(bodyMs);
      if taken.Some? { Interfere(taken); }
      Release(token);
    }
  }

  // ---- The fleet ---------------------------------------------------------------------------------

  datatype Lease = Free | Held(token: nat, expiresAt: nat)

  /** One queued admin call. Between acquiring and releasing it reads the account sequence, submits a
      transaction for the next number and polls it; a failed attempt may start over. */
  datatype Pc =
    | Waiting
    | Acquiring(deadline: nat)
    | Reading(token: nat, expiresAt: nat)
    | Built(token: nat, expiresAt: nat, sequence: nat)
    | Polling(token: nat, expiresAt: nat, number: nat)
    | Releasing(token: nat, won: Option<nat>)
    | Deleting(token: nat, won: Option<nat>)
    | Settled(won: Option<nat>)   // the number its transaction succeeded with, if it did

  /** A sequence number the account has used, by a transaction that succeeded on the ledger or not. */
  datatype Use = Use(number: nat, ok: bool)

  /** What became of a transaction that is polled: applied with success, applied and failed, or never
      seen before the attempt gave up. */
  datatype Fate = Succeeded | FailedOnLedger | NotSeen

  datatype Instance = Instance(canary: bool, queue: seq<Pc>)

  /** `redis`: release is one atomic compare-and-delete; otherwise it is a get, then a delete. */
  datatype Fleet = Fleet(
    redis: bool, ttl: nat, wait: nat,
    now: nat, lease: Lease, nextToken: nat, instances: seq<Instance>,
    sequence: nat, used: seq<Use>,
    collided: bool,   // a call went out on a sequence the account had already left
    overran: bool,    // a critical section outlived its lease
    straggled: bool)  // an attempt that had timed out landed after all

  datatype Event =
    | Join(canary: bool)
    | Enqueue(k: nat)
    | Start(k: nat, i: nat)
    | Act(k: nat, i: nat, ok: bool, retry: bool, fate: Fate)
    | Tick(ms: nat)
    | Crash(k: nat)
    | Straggle(number: nat, ok: bool)

  predicate Task(s: Fleet, k: nat, i: nat) { k < |s.instances| && i < |s.instances[k].queue| }

  function At(s: Fleet, k: nat, i: nat): Pc
    requires Task(s, k, i)
  {
    s.instances[k].queue[i]
  }

  function Put(s: Fleet, k: nat, i: nat, pc: Pc): (t: Fleet)
    requires Task(s, k, i)
    ensures t == s.(instances := t.instances)
  {
    s.(instances := s.instances[k := s.instances[k].(queue := s.instances[k].queue[i := pc])])
  }

  predicate Inside(pc: Pc) { pc.Reading? || pc.Built? || pc.Polling? }
  predicate Active(pc: Pc) { !pc.Waiting? && !pc.Settled? }

  predicate LeaseLive(s: Fleet) { s.lease.Held? && s.lease.expiresAt >= s.now }

  /** The next promise of the chain runs once the one before it settled either way. */
  predicate MayStart(s: Fleet, k: nat, i: nat) {
    Task(s, k, i) && At(s, k, i).Waiting? && (i == 0 || At(s, k, i - 1).Settled?)
  }

  function Failed(pc: Pc, retry: bool): Pc
    requires Inside(pc)
  {
    if retry then Reading(pc.token, pc.expiresAt) else Releasing(pc.token, None)
  }

  /** The ledger applies a transaction only under the account's next number, and uses that up whether
      or not the transaction succeeds. */
  function Applied(s: Fleet, ok: bool): (t: Fleet)
    ensures t.lease == s.lease && t.instances == s.instances
  {
    s.(sequence := s.sequence + 1, used := s.used + [Use(s.sequence + 1, ok)])
  }

  function ActStep(s: Fleet, k: nat, i: nat, ok: bool, retry: bool, fate: Fate): Fleet
    requires Task(s, k, i)
  {
    var pc := At(s, k, i);
    match pc
    case Acquiring(deadline) =>
      if !LeaseLive(s) then
        Put(s.(lease := Held(s.nextToken, s.now + s.ttl), nextToken := s.nextToken + 1), k, i,
            Reading(s.nextToken, s.now + s.ttl))
      else if s.now >= deadline then Put(s, k, i, Settled(None))
      else s
    case Reading(token, e) => Put(s, k, i, if ok then Built(token, e, s.sequence) else Failed(pc, retry))
    case Built(token, e, n) =>
      Put(s.(collided := s.collided || n != s.sequence), k, i, if ok then Polling(token, e, n + 1) else Failed(pc, retry))
    case Polling(token, e, n) =>
      // under any other number than the next the ledger refuses it
      if fate.NotSeen? then Put(s, k, i, Failed(pc, retry))
      else if n != s.sequence + 1 then Put(s.(collided := true), k, i, Failed(pc, retry))
      else Put(Applied(s, fate.Succeeded?), k, i, if fate.Succeeded? then Releasing(token, Some(n)) else Failed(pc, retry))
    case Releasing(token, result) =>
      if !ok then Put(s, k, i, Settled(result))
      else if s.redis then
        Put(s.(lease := if s.lease.Held? && s.lease.token == token then Free else s.lease), k, i, Settled(result))
      else Put(s, k, i, if LeaseLive(s) && s.lease.token == token then Deleting(token, result) else Settled(result))
    case Deleting(_, result) => Put(s.(lease := Free), k, i, Settled(result))
    case _ => s
  }

  ghost predicate Overruns(s: Fleet, now: nat) {
    exists k: nat, i: nat :: Task(s, k, i) && Inside(At(s, k, i)) && At(s, k, i).expiresAt < now
  }

  ghost function Step(s: Fleet, e: Event): Fleet {
    match e
    case Join(canary) =>
      if s.redis || s.instances == [] then s.(instances := s.instances + [Instance(canary, [])]) else s
    case Enqueue(k) =>
      if k < |s.instances|
      then s.(instances := s.instances[k := s.instances[k].(queue := s.instances[k].queue + [Waiting])]) else s
    case Start(k, i) =>
      if MayStart(s, k, i)
      then Put(s, k, i, if s.instances[k].canary then Settled(None) else Acquiring(s.now + s.wait)) else s
    case Act(k, i, ok, retry, fate) => if Task(s, k, i) then ActStep(s, k, i, ok, retry, fate) else s
    case Tick(ms) => s.(now := s.now + ms, overran := s.overran || Overruns(s, s.now + ms))
    case Crash(k) =>
      if k < |s.instances| then s.(instances := s.instances[k := s.instances[k].(queue := [])]) else s
    case Straggle(n, ok) => if n == s.sequence + 1 then Applied(s, ok).(straggled := true) else s
  }

  function Init(redis: bool, ttl: nat, wait: nat, sequence: nat): Fleet {
    Fleet(redis, ttl, wait, 0, Free, 0, [], sequence, [], false, false, false)
  }

  ghost function Exec(s: Fleet, es: seq<Event>): Fleet
    decreases |es|
  {
    if es == [] then s else Step(Exec(s, es[..|es| - 1]), es[|es| - 1])
  }

  // ---- Invariant ---------------------------------------------------------------------------------

  /** Tasks of one process: settled ones, then at most one active, then waiting ones. */
  predicate Serial(queue: seq<Pc>) {
    forall i, j :: 0 <= i < j < |queue| && !queue[j].Waiting? ==> queue[i].Settled?
  }

  /** The lease token a task signs or releases under. */
  function Token(pc: Pc): Option<nat> {
    if Inside(pc) || pc.Releasing? || pc.Deleting? then Some(pc.token) else None
  }

  /** The number a call that succeeded got. */
  function Won(pc: Pc): Option<nat> {
    if pc.Releasing? || pc.Deleting? || pc.Settled? then pc.won else None
  }

  predicate Good(s: Fleet, pc: Pc) {
    && (Token(pc).Some? ==> Token(pc).value < s.nextToken)
    && (Inside(pc) && !s.overran ==> s.lease == Held(pc.token, pc.expiresAt) && s.now <= pc.expiresAt)
    && (pc.Deleting? ==> !s.redis && (s.lease.Held? ==> s.lease.token == pc.token))
    && (pc.Built? ==> pc.sequence <= s.sequence && (!s.overran && !s.straggled ==> pc.sequence == s.sequence))
    && (Won(pc).Some? ==> Won(pc).value <= s.sequence && Use(Won(pc).value, true) in s.used)
    && (pc.Polling? && !s.overran && !s.straggled ==> pc.number == s.sequence + 1)
  }

  predicate Refused(pc: Pc) { pc.Waiting? || pc == Settled(None) }

  ghost predicate OneTokenOneTask(s: Fleet) {
    forall k: nat, i: nat, l: nat, j: nat ::
      (Task(s, k, i) && Task(s, l, j) && Token(At(s, k, i)).Some? && Token(At(s, k, i)) == Token(At(s, l, j)))
      ==> k == l && i == j
  }

  ghost predicate OneNumberOneTask(s: Fleet) {
    forall k: nat, i: nat, l: nat, j: nat ::
      (Task(s, k, i) && Task(s, l, j) && Won(At(s, k, i)).Some? && Won(At(s, k, i)) == Won(At(s, l, j)))
      ==> k == l && i == j
  }

  ghost predicate AllSerial(s: Fleet) {
    forall k: nat :: k < |s.instances| ==> Serial(s.instances[k].queue)
  }

  ghost predicate AllGood(s: Fleet) {
    forall k: nat, i: nat :: Task(s, k, i) ==> Good(s, At(s, k, i))
  }

  ghost predicate CanariesRefused(s: Fleet) {
    forall k: nat, i: nat :: Task(s, k, i) && s.instances[k].canary ==> Refused(At(s, k, i))
  }

  ghost predicate Sound(s: Fleet) {
    && (s.redis || |s.instances| <= 1)
    && (s.lease.Held? ==> s.lease.token < s.nextToken)
    && (!s.overran && !s.straggled ==> !s.collided)
  }

  ghost predicate Inv(s: Fleet) {
    Sound(s) && AllSerial(s) && AllGood(s) && CanariesRefused(s) && OneTokenOneTask(s) && OneNumberOneTask(s)
  }

  ghost predicate Consecutive(used: seq<Use>, first: nat, last: nat) {
    && |used| == last - first
    && forall i :: 0 <= i < |used| ==> used[i].number == first + i + 1
  }

  // ---- Every step keeps the invariant ------------------------------------------------------------

  /** What one instance's move leaves alone: every other task, and who is a canary. */
  ghost predicate Moved(s: Fleet, s': Fleet, k: nat, i: nat, pc: Pc)
    requires Task(s, k, i)
  {
    && |s'.instances| == |s.instances| && s'.redis == s.redis
    && (forall l: nat, j: nat :: Task(s', l, j) <==> Task(s, l, j))
    && (forall l: nat, j: nat :: Task(s, l, j) ==> At(s', l, j) == if l == k && i == j then pc else At(s, l, j))
    && (forall l: nat :: l < |s.instances| ==> s'.instances[l].canary == s.instances[l].canary)
  }

  lemma PutMoves(s: Fleet, t: Fleet, k: nat, i: nat, pc: Pc)
    requires Task(s, k, i) && t.instances == s.instances && t.redis == s.redis
    ensures Moved(s, Put(t, k, i, pc), k, i, pc)
    ensures forall l :: 0 <= l < |s.instances| && l != k ==> Put(t, k, i, pc).instances[l] == s.instances[l]
    ensures Put(t, k, i, pc).instances[k].queue == s.instances[k].queue[i := pc]
  {}

  /** Replacing one task keeps its queue serial if the task was already under way, or may start. */
  lemma QueueKeeps(queue: seq<Pc>, i: nat, pc: Pc)
    requires Serial(queue) && i < |queue| && !queue[i].Settled?
    requires queue[i].Waiting? ==> i == 0 || queue[i - 1].Settled?
    ensures Serial(queue[i := pc])
  {
    var q := queue[i := pc];
    forall m, n | 0 <= m < n < |q| && !q[n].Waiting? ensures q[m].Settled? {
      if n == i {
        if queue[i].Waiting? && m < i - 1 { assert queue[m].Settled?; }
      }
    }
  }

  ghost predicate OthersGood(s: Fleet, t: Fleet, k: nat, i: nat) {
    forall l: nat, j: nat :: Task(s, l, j) && !(l == k && j == i) ==> Good(t, At(s, l, j))
  }

  lemma TokensKeep(s: Fleet, t: Fleet, k: nat, i: nat, pc: Pc)
    requires AllGood(s) && OneTokenOneTask(s) && Task(s, k, i) && t.instances == s.instances && t.redis == s.redis
    requires Token(pc).None? || Token(pc) == Token(At(s, k, i)) || Token(pc) == Some(s.nextToken)
    ensures OneTokenOneTask(Put(t, k, i, pc))
  {
    PutMoves(s, t, k, i, pc);
  }

  lemma NumbersKeep(s: Fleet, t: Fleet, k: nat, i: nat, pc: Pc)
    requires AllGood(s) && OneNumberOneTask(s) && Task(s, k, i) && t.instances == s.instances && t.redis == s.redis
    requires Won(pc).None? || Won(pc) == Won(At(s, k, i)) || Won(pc) == Some(s.sequence + 1)
    ensures OneNumberOneTask(Put(t, k, i, pc))
  {
    PutMoves(s, t, k, i, pc);
  }

  /** One task moves to `pc` while the lease and the account move from `s` to `t`. */
  lemma MoveKeeps(s: Fleet, t: Fleet, k: nat, i: nat, pc: Pc)
    requires Inv(s) && Task(s, k, i) && !At(s, k, i).Settled? && t.instances == s.instances && t.redis == s.redis
    requires At(s, k, i).Waiting? ==> MayStart(s, k, i)
    requires Token(pc).None? || Token(pc) == Token(At(s, k, i)) || Token(pc) == Some(s.nextToken)
    requires Won(pc).None? || Won(pc) == Won(At(s, k, i)) || Won(pc) == Some(s.sequence + 1)
    requires s.instances[k].canary ==> Refused(pc)
    requires Sound(t) && Good(t, pc) && OthersGood(s, t, k, i)
    ensures Inv(Put(t, k, i, pc))
  {
    PutMoves(s, t, k, i, pc);
    QueueKeeps(s.instances[k].queue, i, pc);
    TokensKeep(s, t, k, i, pc);
    NumbersKeep(s, t, k, i, pc);
    hide Put, Serial, Good, Token, Won, OneTokenOneTask, OneNumberOneTask, Refused;
  }

  /** A move that touches neither the lease nor the account. */
  lemma LocalKeeps(s: Fleet, k: nat, i: nat, pc: Pc)
    requires Inv(s) && Task(s, k, i) && !At(s, k, i).Settled? && Good(s, pc)
    requires At(s, k, i).Waiting? ==> MayStart(s, k, i)
    requires Token(pc).None? || Token(pc) == Token(At(s, k, i))
    requires Won(pc).None? || Won(pc) == Won(At(s, k, i))
    requires s.instances[k].canary ==> Refused(pc)
    ensures Inv(Put(s, k, i, pc))
  {
    MoveKeeps(s, s, k, i, pc);
  }

  lemma AcquireKeeps(s: Fleet, k: nat, i: nat)
    requires Inv(s) && Task(s, k, i) && At(s, k, i).Acquiring? && !LeaseLive(s)
    ensures Inv(ActStep(s, k, i, true, true, NotSeen))
  {
    var t := s.(lease := Held(s.nextToken, s.now + s.ttl), nextToken := s.nextToken + 1);
    assert Serial(s.instances[k].queue);
    forall l: nat, j: nat | Task(s, l, j) && !(l == k && j == i) ensures Good(t, At(s, l, j)) {
      assert Good(s, At(s, l, j));
    }
    assert Refused(At(s, k, i)) || !s.instances[k].canary;
    hide AllSerial, AllGood, CanariesRefused, OneTokenOneTask, OneNumberOneTask, Put;
    MoveKeeps(s, t, k, i, Reading(s.nextToken, s.now + s.ttl));
  }

  lemma LandKeeps(s: Fleet, k: nat, i: nat, ok: bool, pc': Pc)
    requires Inv(s) && Task(s, k, i) && At(s, k, i).Polling? && At(s, k, i).number == s.sequence + 1
    requires if ok then pc' == Releasing(At(s, k, i).token, Some(s.sequence + 1))
             else pc' == Failed(At(s, k, i), true) || pc' == Failed(At(s, k, i), false)
    ensures Inv(Put(Applied(s, ok), k, i, pc'))
  {
    var pc, t := At(s, k, i), Applied(s, ok);
    assert Good(s, pc);
    forall l: nat, j: nat | Task(s, l, j) && !(l == k && j == i) ensures Good(t, At(s, l, j)) {
      assert Good(s, At(s, l, j));
    }
    assert t.used[|s.used|] == Use(s.sequence + 1, ok);
    assert Refused(At(s, k, i)) || !s.instances[k].canary;
    MoveKeeps(s, t, k, i, pc');
  }

  /** Freeing the lease is harmless to everybody else: whoever frees it holds its token. */
  lemma FreeKeeps(s: Fleet, k: nat, i: nat)
    requires Inv(s) && Task(s, k, i) && (At(s, k, i).Releasing? || At(s, k, i).Deleting?)
    requires s.lease.Held? ==> s.lease.token == At(s, k, i).token
    ensures Inv(Put(s.(lease := Free), k, i, Settled(At(s, k, i).won)))
  {
    var t := s.(lease := Free);
    forall l: nat, j: nat | Task(s, l, j) && !(l == k && j == i) ensures Good(t, At(s, l, j)) {
      assert Good(s, At(s, l, j));
      assert Token(At(s, l, j)).Some? ==> Token(At(s, l, j)) != Token(At(s, k, i));
    }
    assert Refused(At(s, k, i)) || !s.instances[k].canary;
    assert Good(s, At(s, k, i));
    MoveKeeps(s, t, k, i, Settled(At(s, k, i).won));
  }

  lemma ReleaseKeeps(s: Fleet, k: nat, i: nat, ok: bool)
    requires Inv(s) && Task(s, k, i) && At(s, k, i).Releasing?
    ensures Inv(ActStep(s, k, i, ok, true, NotSeen))
  {
    var pc := At(s, k, i);
    assert Good(s, pc) && (s.instances[k].canary ==> Refused(pc));
    if ok && s.redis && s.lease.Held? && s.lease.token == pc.token {
      FreeKeeps(s, k, i);
    } else if ok && !s.redis && LeaseLive(s) && s.lease.token == pc.token {
      LocalKeeps(s, k, i, Deleting(pc.token, pc.won));
    } else {
      LocalKeeps(s, k, i, Settled(pc.won));
    }
  }

  lemma GoodAt(s: Fleet, k: nat, i: nat)
    requires Inv(s) && Task(s, k, i)
    ensures Good(s, At(s, k, i)) && (s.instances[k].canary ==> Refused(At(s, k, i)))
  {}

  lemma ReadKeeps(s: Fleet, k: nat, i: nat, ok: bool, retry: bool, fate: Fate)
    requires Inv(s) && Task(s, k, i) && At(s, k, i).Reading?
    ensures Inv(ActStep(s, k, i, ok, retry, fate))
  {
    hide Inv;
    GoodAt(s, k, i);
    var pc := At(s, k, i);
    LocalKeeps(s, k, i, if ok then Built(pc.token, pc.expiresAt, s.sequence) else Failed(pc, retry));
  }

  /** A failed or collided attempt leaves the account where it was. */
  lemma AttemptKeeps(s: Fleet, collided: bool, k: nat, i: nat, pc: Pc)
    requires Inv(s) && Task(s, k, i) && Inside(At(s, k, i)) && Token(pc) == Token(At(s, k, i)) && Won(pc).None? && Good(s, pc)
    requires collided ==> s.collided || s.overran || s.straggled
    ensures Inv(Put(s.(collided := collided), k, i, pc))
  {
    var t := s.(collided := collided);
    forall l: nat, j: nat | Task(s, l, j) ensures Good(t, At(s, l, j)) { assert Good(s, At(s, l, j)); }
    assert !s.instances[k].canary by { assert !Refused(At(s, k, i)); }
    MoveKeeps(s, t, k, i, pc);
  }

  lemma SubmitKeeps(s: Fleet, k: nat, i: nat, ok: bool, retry: bool, fate: Fate)
    requires Inv(s) && Task(s, k, i) && At(s, k, i).Built?
    ensures Inv(ActStep(s, k, i, ok, retry, fate))
  {
    hide Inv;
    GoodAt(s, k, i);
    var pc := At(s, k, i);
    assert Good(s, pc);
    AttemptKeeps(s, s.collided || pc.sequence != s.sequence, k, i,
                 if ok then Polling(pc.token, pc.expiresAt, pc.sequence + 1) else Failed(pc, retry));
  }

  lemma PollKeeps(s: Fleet, k: nat, i: nat, ok: bool, retry: bool, fate: Fate)
    requires Inv(s) && Task(s, k, i) && At(s, k, i).Polling? && (fate.NotSeen? || At(s, k, i).number != s.sequence + 1)
    ensures Inv(ActStep(s, k, i, ok, retry, fate))
  {
    hide Inv;
    GoodAt(s, k, i);
    var pc := At(s, k, i);
    assert Good(s, pc);
    AttemptKeeps(s, s.collided || !fate.NotSeen?, k, i, Failed(pc, retry));
  }

  lemma ActKeeps(s: Fleet, k: nat, i: nat, ok: bool, retry: bool, fate: Fate)
    requires Inv(s) && Task(s, k, i)
    ensures Inv(ActStep(s, k, i, ok, retry, fate))
  {
    var pc := At(s, k, i);
    match pc
    case Acquiring(deadline) =>
      if !LeaseLive(s) { AcquireKeeps(s, k, i); }
      else if s.now >= deadline { LocalKeeps(s, k, i, Settled(None)); }
    case Polling(_, _, n) =>
      if !fate.NotSeen? && n == s.sequence + 1 {
        LandKeeps(s, k, i, fate.Succeeded?, if fate.Succeeded? then Releasing(pc.token, Some(n)) else Failed(pc, retry));
      } else {
        PollKeeps(s, k, i, ok, retry, fate);
      }
    case Releasing(_, _) => ReleaseKeeps(s, k, i, ok);
    case Deleting(_, result) =>
      assert Good(s, pc);
      FreeKeeps(s, k, i);
    case Reading(_, _) => ReadKeeps(s, k, i, ok, retry, fate);
    case Built(_, _, _) => SubmitKeeps(s, k, i, ok, retry, fate);
    case _ =>
  }

  lemma TickKeeps(s: Fleet, ms: nat)
    requires Inv(s)
    ensures Inv(Step(s, Tick(ms)))
  {
    var t := Step(s, Tick(ms));
    forall k: nat, i: nat | Task(s, k, i) ensures Good(t, At(s, k, i)) { assert Good(s, At(s, k, i)); }
    assert forall k: nat, i: nat :: Task(t, k, i) ==> Task(s, k, i) && At(t, k, i) == At(s, k, i);
  }

  lemma StraggleKeeps(s: Fleet, n: nat, ok: bool)
    requires Inv(s)
    ensures Inv(Step(s, Straggle(n, ok)))
  {
    var t := Step(s, Straggle(n, ok));
    forall k: nat, i: nat | Task(s, k, i) ensures Good(t, At(s, k, i)) { assert Good(s, At(s, k, i)); }
    assert forall k: nat, i: nat :: Task(t, k, i) ==> Task(s, k, i) && At(t, k, i) == At(s, k, i);
  }

  /** Tasks only come fresh at the end, or go; the rest keep their place. */
  lemma ReshapeKeeps(s: Fleet, t: Fleet)
    requires Inv(s) && t == s.(instances := t.instances) && (s.redis || |t.instances| <= 1) && AllSerial(t)
    requires forall k: nat, i: nat :: Task(t, k, i) ==>
      At(t, k, i).Waiting? || (Task(s, k, i) && At(t, k, i) == At(s, k, i) && t.instances[k].canary == s.instances[k].canary)
    ensures Inv(t)
  {
    forall k: nat, i: nat | Task(t, k, i) ensures Good(t, At(t, k, i)) {
      if !At(t, k, i).Waiting? { assert Good(s, At(s, k, i)); }
    }
  }

  lemma JoinKeeps(s: Fleet, canary: bool)
    requires Inv(s)
    ensures Inv(Step(s, Join(canary)))
  {
    if s.redis || s.instances == [] { ReshapeKeeps(s, Step(s, Join(canary))); }
  }

  lemma EnqueueKeeps(s: Fleet, k: nat)
    requires Inv(s)
    ensures Inv(Step(s, Enqueue(k)))
  {
    if k < |s.instances| { ReshapeKeeps(s, Step(s, Enqueue(k))); }
  }

  lemma CrashKeeps(s: Fleet, k: nat)
    requires Inv(s)
    ensures Inv(Step(s, Crash(k)))
  {
    if k < |s.instances| { ReshapeKeeps(s, Step(s, Crash(k))); }
  }

  lemma StartKeeps(s: Fleet, k: nat, i: nat)
    requires Inv(s)
    ensures Inv(Step(s, Start(k, i)))
  {
    if MayStart(s, k, i) {
      LocalKeeps(s, k, i, if s.instances[k].canary then Settled(None) else Acquiring(s.now + s.wait));
    }
  }

  lemma StepKeeps(s: Fleet, e: Event)
    requires Inv(s)
    ensures Inv(Step(s, e))
  {
    match e
    case Join(canary) => JoinKeeps(s, canary);
    case Enqueue(k) => EnqueueKeeps(s, k);
    case Start(k, i) => StartKeeps(s, k, i);
    case Act(k, i, ok, retry, fate) => if Task(s, k, i) { ActKeeps(s, k, i, ok, retry, fate); }
    case Tick(ms) => TickKeeps(s, ms);
    case Crash(k) => CrashKeeps(s, k);
    case Straggle(n, ok) => StraggleKeeps(s, n, ok);
  }

  lemma {:induction false} RunKeeps(redis: bool, ttl: nat, wait: nat, sequence: nat, es: seq<Event>)
    ensures Inv(Exec(Init(redis, ttl, wait, sequence), es))
    decreases |es|
  {
    if es != [] {
      RunKeeps(redis, ttl, wait, sequence, es[..|es| - 1]);
      StepKeeps(Exec(Init(redis, ttl, wait, sequence), es[..|es| - 1]), es[|es| - 1]);
    }
  }

  // ---- Results -----------------------------------------------------------------------------------

  /** While every critical section ends within its lease, at most one call of the whole fleet is
      between acquire and release, and it holds the live lease. */
  lemma MutualExclusion(redis: bool, ttl: nat, wait: nat, sequence: nat, es: seq<Event>, k: nat, i: nat, l: nat, j: nat)
    requires var s := Exec(Init(redis, ttl, wait, sequence), es);
      !s.overran && Task(s, k, i) && Task(s, l, j) && Inside(At(s, k, i)) && Inside(At(s, l, j))
    ensures k == l && i == j
    ensures var s := Exec(Init(redis, ttl, wait, sequence), es); LeaseLive(s) && Some(s.lease.token) == Token(At(s, k, i))
  {
    hide Exec;
    RunKeeps(redis, ttl, wait, sequence, es);
    var s := Exec(Init(redis, ttl, wait, sequence), es);
    assert Good(s, At(s, k, i)) && Good(s, At(s, l, j));
  }

  lemma LeaseStep(s: Fleet, e: Event)
    requires Inv(s) && s.lease.Held? && Step(s, e).lease != s.lease
    ensures e.Act? && Task(s, e.k, e.i)
    ensures if Step(s, e).lease.Free? then Token(At(s, e.k, e.i)) == Some(s.lease.token) && !Inside(At(s, e.k, e.i))
            else At(s, e.k, e.i).Acquiring? && s.lease.expiresAt < s.now
  {
    hide Inv, ActStep, Put, Good, MayStart;
    if e.Act? && Task(s, e.k, e.i) {
      GoodAt(s, e.k, e.i);
      ActLease(s, e.k, e.i, e.ok, e.retry, e.fate);
    }
  }

  lemma ActLease(s: Fleet, k: nat, i: nat, ok: bool, retry: bool, fate: Fate)
    requires Task(s, k, i) && Good(s, At(s, k, i)) && s.lease.Held?
    ensures var t, pc := ActStep(s, k, i, ok, retry, fate), At(s, k, i);
      t.lease != s.lease ==>
        if t.lease.Free? then Token(pc) == Some(s.lease.token) && !Inside(pc)
        else pc.Acquiring? && s.lease.expiresAt < s.now
  {
    hide Put, Failed, Applied;
  }

  /** No step takes a lease away except a release by the task that holds its token, or a fresh
      acquisition after it expired: a late holder cannot touch its successor's lease. */
  lemma LeaseIsSafe(redis: bool, ttl: nat, wait: nat, sequence: nat, es: seq<Event>, e: Event)
    requires var s := Exec(Init(redis, ttl, wait, sequence), es); s.lease.Held? && Step(s, e).lease != s.lease
    ensures var s := Exec(Init(redis, ttl, wait, sequence), es);
      && e.Act? && Task(s, e.k, e.i)
      && (if Step(s, e).lease.Free? then Token(At(s, e.k, e.i)) == Some(s.lease.token) && !Inside(At(s, e.k, e.i))
          else At(s, e.k, e.i).Acquiring? && s.lease.expiresAt < s.now)
  {
    hide Exec, Step, Inv;
    RunKeeps(redis, ttl, wait, sequence, es);
    LeaseStep(Exec(Init(redis, ttl, wait, sequence), es), e);
  }

  /** A canary never signs: none of its calls is ever past the gate, and none succeeds. */
  lemma CanaryNeverSigns(redis: bool, ttl: nat, wait: nat, sequence: nat, es: seq<Event>, k: nat, i: nat)
    requires var s := Exec(Init(redis, ttl, wait, sequence), es); Task(s, k, i) && s.instances[k].canary
    ensures var s := Exec(Init(redis, ttl, wait, sequence), es);
      Token(At(s, k, i)).None? && !At(s, k, i).Acquiring? && Won(At(s, k, i)).None?
  {
    hide Exec;
    RunKeeps(redis, ttl, wait, sequence, es);
    assert CanariesRefused(Exec(Init(redis, ttl, wait, sequence), es));
  }

  /** A process runs its calls in the order they were queued, one at a time. */
  lemma QueueOrder(redis: bool, ttl: nat, wait: nat, sequence: nat, es: seq<Event>, k: nat, i: nat, j: nat)
    requires var s := Exec(Init(redis, ttl, wait, sequence), es); Task(s, k, j) && i < j && !At(s, k, j).Waiting?
    ensures At(Exec(Init(redis, ttl, wait, sequence), es), k, i).Settled?
  {
    hide Exec;
    RunKeeps(redis, ttl, wait, sequence, es);
    assert Serial(Exec(Init(redis, ttl, wait, sequence), es).instances[k].queue);
  }

  /** No call is stuck behind a failed one: the first unsettled call of a process is running, or may
      start now, and everything behind it waits. */
  lemma NextInLine(redis: bool, ttl: nat, wait: nat, sequence: nat, es: seq<Event>, k: nat, i: nat)
    requires var s := Exec(Init(redis, ttl, wait, sequence), es);
      Task(s, k, i) && !At(s, k, i).Settled? && forall j: nat :: j < i ==> At(s, k, j).Settled?
    ensures var s := Exec(Init(redis, ttl, wait, sequence), es);
      && (Active(At(s, k, i)) <==> !MayStart(s, k, i))
      && (forall j: nat :: i < j && Task(s, k, j) ==> At(s, k, j).Waiting?)
  {
    hide Exec;
    RunKeeps(redis, ttl, wait, sequence, es);
    assert Serial(Exec(Init(redis, ttl, wait, sequence), es).instances[k].queue);
  }

  predicate LandsNone(s: Fleet, t: Fleet) { t.used == s.used && t.sequence == s.sequence }

  predicate LandsOne(s: Fleet, t: Fleet) {
    && t.sequence == s.sequence + 1 && |t.used| == |s.used| + 1
    && t.used[..|s.used|] == s.used && t.used[|s.used|].number == s.sequence + 1
  }

  lemma ActLands(s: Fleet, k: nat, i: nat, ok: bool, retry: bool, fate: Fate)
    requires Task(s, k, i)
    ensures var t := ActStep(s, k, i, ok, retry, fate); LandsNone(s, t) || LandsOne(s, t)
  {
    hide ActStep, LandsNone, LandsOne;
    var pc := At(s, k, i);
    if pc.Polling? && !fate.NotSeen? && pc.number == s.sequence + 1 { PollLands(s, k, i, ok, retry, fate); }
    else if pc.Releasing? || pc.Deleting? || pc.Acquiring? { LeaseLands(s, k, i, ok, retry, fate); }
    else { AttemptLands(s, k, i, ok, retry, fate); }
  }

  lemma PollLands(s: Fleet, k: nat, i: nat, ok: bool, retry: bool, fate: Fate)
    requires Task(s, k, i) && At(s, k, i).Polling? && !fate.NotSeen? && At(s, k, i).number == s.sequence + 1
    ensures LandsOne(s, ActStep(s, k, i, ok, retry, fate))
  {
    hide Put, Failed;
  }

  lemma LeaseLands(s: Fleet, k: nat, i: nat, ok: bool, retry: bool, fate: Fate)
    requires Task(s, k, i) && (At(s, k, i).Releasing? || At(s, k, i).Deleting? || At(s, k, i).Acquiring?)
    ensures LandsNone(s, ActStep(s, k, i, ok, retry, fate))
  {
    hide Put, LeaseLive;
  }

  lemma AttemptLands(s: Fleet, k: nat, i: nat, ok: bool, retry: bool, fate: Fate)
    requires Task(s, k, i) && !At(s, k, i).Releasing? && !At(s, k, i).Deleting? && !At(s, k, i).Acquiring?
    requires At(s, k, i).Polling? ==> fate.NotSeen? || At(s, k, i).number != s.sequence + 1
    ensures LandsNone(s, ActStep(s, k, i, ok, retry, fate))
  {
    hide Put, Failed;
  }

  lemma StepLands(s: Fleet, e: Event)
    ensures LandsNone(s, Step(s, e)) || LandsOne(s, Step(s, e))
  {
    match e
    case Act(k, i, ok, retry, fate) => if Task(s, k, i) { ActLands(s, k, i, ok, retry, fate); }
    case Start(k, i) =>
    case _ =>
  }

  lemma ConsecutiveKeeps(s: Fleet, t: Fleet, first: nat)
    requires Consecutive(s.used, first, s.sequence) && (LandsNone(s, t) || LandsOne(s, t))
    ensures Consecutive(t.used, first, t.sequence)
  {}

  /** The account's numbers are used one after the other, by transactions that succeed and by ones that
      fail on the ledger; and while leases hold and timed-out attempts stay dead, every call goes out on
      the account's current sequence, whichever way the calls before it ended. */
  lemma {:induction false} CallsTakeTurns(redis: bool, ttl: nat, wait: nat, sequence: nat, es: seq<Event>)
    ensures var s := Exec(Init(redis, ttl, wait, sequence), es);
      && Consecutive(s.used, sequence, s.sequence)
      && (!s.overran && !s.straggled ==> !s.collided)
    decreases |es|
  {
    RunKeeps(redis, ttl, wait, sequence, es);
    if es != [] {
      CallsTakeTurns(redis, ttl, wait, sequence, es[..|es| - 1]);
      var s := Exec(Init(redis, ttl, wait, sequence), es[..|es| - 1]);
      StepLands(s, es[|es| - 1]);
      ConsecutiveKeeps(s, Step(s, es[|es| - 1]), sequence);
    }
  }

  /** Every call that is told of success used up a number of its own, on which the ledger agrees. */
  lemma SuccessesAreDistinct(redis: bool, ttl: nat, wait: nat, sequence: nat, es: seq<Event>, k: nat, i: nat, l: nat, j: nat)
    requires var s := Exec(Init(redis, ttl, wait, sequence), es);
      Task(s, k, i) && Task(s, l, j) && Won(At(s, k, i)).Some? && Won(At(s, l, j)).Some?
    ensures var s := Exec(Init(redis, ttl, wait, sequence), es);
      && Use(Won(At(s, k, i)).value, true) in s.used
      && (Won(At(s, k, i)) == Won(At(s, l, j)) ==> k == l && i == j)
  {
    hide Exec;
    RunKeeps(redis, ttl, wait, sequence, es);
    assert Good(Exec(Init(redis, ttl, wait, sequence), es), At(Exec(Init(redis, ttl, wait, sequence), es), k, i));
  }

  /** The run that follows `es` with `e`. */
  lemma Then(s: Fleet, es: seq<Event>, e: Event) returns (more: seq<Event>)
    ensures Exec(s, more) == Step(Exec(s, es), e)
  {
    more := es + [e];
    assert more[..|more| - 1] == es;
  }

  /** Primary `k` of two has one call, at `pc`. */
  predicate One(s: Fleet, k: nat, pc: Pc) {
    s.redis && k < 2 == |s.instances| && s.instances[k] == Instance(false, [pc])
  }

  /** One call of primary `k` moves to `pc`; the other primary stands still. */
  predicate Moves(s: Fleet, t: Fleet, k: nat, pc: Pc) {
    k < 2 == |s.instances| && One(t, k, pc) && t.instances[1 - k] == s.instances[1 - k]
  }

  lemma Replaced(s: Fleet, t: Fleet, k: nat, was: Pc, pc: Pc)
    requires One(s, k, was) && t.instances == s.instances && t.redis
    ensures Moves(s, Put(t, k, 0, pc), k, pc)
  {
    assert [was][0 := pc] == [pc];
  }

  lemma OneStarts(init: Fleet, es: seq<Event>, s: Fleet, k: nat) returns (more: seq<Event>, t: Fleet)
    requires s == Exec(init, es) && One(s, k, Waiting)
    ensures t == Exec(init, more) == s.(instances := t.instances) && Moves(s, t, k, Acquiring(s.now + s.wait))
  {
    hide Exec;
    Replaced(s, s, k, Waiting, Acquiring(s.now + s.wait));
    more := Then(init, es, Start(k, 0));
    t := Exec(init, more);
  }

  lemma OneAcquires(init: Fleet, es: seq<Event>, s: Fleet, k: nat, deadline: nat) returns (more: seq<Event>, t: Fleet)
    requires s == Exec(init, es) && One(s, k, Acquiring(deadline)) && !LeaseLive(s)
    ensures t == Exec(init, more) == s.(instances := t.instances, lease := Held(s.nextToken, s.now + s.ttl),
                                        nextToken := s.nextToken + 1)
    ensures Moves(s, t, k, Reading(s.nextToken, s.now + s.ttl))
  {
    hide Exec;
    Replaced(s, s.(lease := Held(s.nextToken, s.now + s.ttl), nextToken := s.nextToken + 1), k, Acquiring(deadline),
             Reading(s.nextToken, s.now + s.ttl));
    more := Then(init, es, Act(k, 0, true, false, Succeeded));
    t := Exec(init, more);
  }

  lemma OneReads(init: Fleet, es: seq<Event>, s: Fleet, k: nat, token: nat, e: nat) returns (more: seq<Event>, t: Fleet)
    requires s == Exec(init, es) && One(s, k, Reading(token, e))
    ensures t == Exec(init, more) == s.(instances := t.instances) && Moves(s, t, k, Built(token, e, s.sequence))
  {
    hide Exec;
    Replaced(s, s, k, Reading(token, e), Built(token, e, s.sequence));
    more := Then(init, es, Act(k, 0, true, false, Succeeded));
    t := Exec(init, more);
  }

  lemma OneSubmits(init: Fleet, es: seq<Event>, s: Fleet, k: nat, token: nat, e: nat, n: nat)
    returns (more: seq<Event>, t: Fleet)
    requires s == Exec(init, es) && One(s, k, Built(token, e, n))
    ensures t == Exec(init, more) == s.(instances := t.instances, collided := s.collided || n != s.sequence)
    ensures Moves(s, t, k, Polling(token, e, n + 1))
  {
    hide Exec;
    Replaced(s, s.(collided := s.collided || n != s.sequence), k, Built(token, e, n), Polling(token, e, n + 1));
    more := Then(init, es, Act(k, 0, true, false, Succeeded));
    t := Exec(init, more);
  }

  lemma OneLands(init: Fleet, es: seq<Event>, s: Fleet, k: nat, token: nat, e: nat) returns (more: seq<Event>, t: Fleet)
    requires s == Exec(init, es) && One(s, k, Polling(token, e, s.sequence + 1))
    ensures t == Exec(init, more) == s.(instances := t.instances, sequence := s.sequence + 1, used := t.used)
    ensures Moves(s, t, k, Releasing(token, Some(s.sequence + 1)))
  {
    hide Exec;
    var n := s.sequence + 1;
    Replaced(s, Applied(s, true), k, Polling(token, e, n), Releasing(token, Some(n)));
    more := Then(init, es, Act(k, 0, true, false, Succeeded));
    t := Exec(init, more);
  }

  lemma TwoPrimaries(s: Fleet) returns (es: seq<Event>)
    requires s.redis && s.instances == []
    ensures var t := Exec(s, es); One(t, 0, Waiting) && One(t, 1, Waiting) && t == s.(instances := t.instances)
  {
    es := Then(s, [], Join(false));
    es := Then(s, es, Join(false));
    assert Exec(s, es).instances == [Instance(false, []), Instance(false, [])];
    es := Then(s, es, Enqueue(0));
    es := Then(s, es, Enqueue(1));
  }

  /** A primary acquires the free lease and builds on the current sequence. */
  lemma OneBuilds(init: Fleet, es: seq<Event>, s: Fleet, k: nat) returns (more: seq<Event>, t: Fleet)
    requires s == Exec(init, es) && One(s, k, Waiting) && !LeaseLive(s)
    ensures t == Exec(init, more) == s.(instances := t.instances, lease := Held(s.nextToken, s.now + s.ttl),
                                        nextToken := s.nextToken + 1)
    ensures Moves(s, t, k, Built(s.nextToken, s.now + s.ttl, s.sequence))
  {
    hide Exec;
    more, t := OneStarts(init, es, s, k);
    more, t := OneAcquires(init, more, t, k, s.now + s.wait);
    more, t := OneReads(init, more, t, k, s.nextToken, s.now + s.ttl);
  }

  /** The first primary sleeps until its lease has expired. */
  lemma OneOversleeps(init: Fleet, es: seq<Event>, s: Fleet, e: nat, n: nat) returns (more: seq<Event>, t: Fleet)
    requires s == Exec(init, es) && One(s, 0, Built(0, e, n)) && s.lease == Held(0, e)
    ensures t == Exec(init, more) == s.(now := s.now + e + 1, overran := true)
  {
    hide Exec;
    assert Task(s, 0, 0) && Inside(At(s, 0, 0)) && At(s, 0, 0).expiresAt < s.now + e + 1;
    more := Then(init, es, Tick(e + 1));
    t := Exec(init, more);
  }

  /** Without the assumption on leases it fails: a primary that sleeps past its lease sends a number
      a second primary has consumed meanwhile. */
  lemma OverrunCollides(ttl: nat, wait: nat, sequence: nat) returns (es: seq<Event>)
    ensures var s := Exec(Init(true, ttl, wait, sequence), es); s.overran && s.collided && !s.straggled
  {
    hide Exec;
    var init := Init(true, ttl, wait, sequence);
    es := TwoPrimaries(init);
    var s := Exec(init, es);
    es, s := OneBuilds(init, es, s, 0);
    es, s := OneOversleeps(init, es, s, ttl, sequence);
    es, s := OneBuilds(init, es, s, 1);
    es, s := OneSubmits(init, es, s, 1, 1, ttl + 1 + ttl, sequence);
    es, s := OneLands(init, es, s, 1, 1, ttl + 1 + ttl);
    es, s := OneSubmits(init, es, s, 0, 0, ttl, sequence);
  }
}
