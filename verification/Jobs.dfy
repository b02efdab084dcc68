/** Job records over the store: the claims that let one caller through, the merge that every update
    is, and the review queue. A record is the hash of its fields. */
module Jobs {
  import opened Common
  import opened Store
  import S = Settlement

  type JobId = string
  type Record = map<string, string>

  function JobKey(id: JobId): Key { "job:" + id }
  function ClaimKey(id: JobId): Key { "job:claim:" + id }
  function DecisionKey(id: JobId): Key { "undo-decision:" + id }
  function WinnerKey(id: JobId): Key { "undo-decision:" + id + ":winner" }

  // ---- Records as the settlement machine sees them -----------------------------------------------

  function StatusName(s: S.Status): string {
    match s
    case Unset => ""
    case Holding => "holding"
    case AwaitingWorkers => "awaiting_workers"
    case Reconciling => "reconciling"
    case Cancelling => "cancelling"
    case Settled => "settled"
  }

  function OutcomeName(o: S.Outcome): string {
    match o
    case NoOutcome => ""
    case WasResolved => "resolved"
    case WasRefunded => "refunded"
    case LostRace => "lost_race_to_timeout_refund"
    case RefundPendingTimeout => "refund_pending_timeout"
  }

  function Field(f: Record, name: string): string { if name in f then f[name] else "" }

  /** The fields hold this job; no field, no status. */
  predicate Shows(f: Record, j: S.Job) {
    && j.Job? && Field(f, "status") == StatusName(j.status) && Field(f, "outcome") == OutcomeName(j.outcome)
    && (Field(f, "instant") == "true" <==> j.instant)
  }

  predicate Records(r: Option<Value>, j: S.Job) {
    match r
    case None => j.NoJob?
    case Some(Hash(f)) => Shows(f, j)
    case _ => false
  }

  /** The object an update spreads over the record. */
  predicate Patches(f: Record, p: S.Patch) {
    && "instant" !in f
    && match p
       case SetStatus(s) => "outcome" !in f && "status" in f && f["status"] == StatusName(s)
       case Settle(o) => "status" in f && f["status"] == "settled" && "outcome" in f && f["outcome"] == OutcomeName(o)
       case Touch => "status" !in f && "outcome" !in f
  }

  predicate IsSettled(f: Record) { Field(f, "status") == "settled" }

  /** Spreading a patch over the stored fields is the machine's merge. */
  lemma SpreadIsMerge(r: Option<Value>, j: S.Job, patch: Record, p: S.Patch)
    requires Records(r, j) && Patches(patch, p)
    ensures var f := match r case Some(Hash(h)) => h case _ => map[];
      Shows(f + patch, S.Merge(j, p)) && (IsSettled(f + patch) <==> S.IsSettled(S.Merge(j, p)))
  {
    var f := match r case Some(Hash(h)) => h case _ => map[];
    var k := S.Merge(j, p);
    assert Field(f + patch, "status") == StatusName(k.status);
    SettledByName(k.status);
  }

  lemma SettledByName(s: S.Status)
    ensures StatusName(s) == "settled" <==> s.Settled?
  {
    assert "settled"[0] == 's';
    match s
    case Holding => assert StatusName(s)[0] == 'h';
    case AwaitingWorkers => assert StatusName(s)[0] == 'a';
    case Reconciling => assert StatusName(s)[0] == 'r';
    case Cancelling => assert StatusName(s)[0] == 'c';
    case _ =>
  }

  class JobStore {
    const store: MemoryStore
    const ttl: nat
    var settlementsTotal: nat

    constructor (store: MemoryStore, ttl: nat)
      ensures this.store == store && this.ttl == ttl && settlementsTotal == 0
    {
      this.store, this.ttl, settlementsTotal := store, ttl, 0;
    }

    /** Only the caller that finds the claim unused wins. */
    method ClaimJob(id: JobId) returns (won: bool)
      requires Counter(store.entries, ClaimKey(id))
      modifies store`entries
      ensures won <==> Count(old(store.entries), store.now, ClaimKey(id)) == 0
      ensures store.entries == IncrOn(old(store.entries), store.now, ClaimKey(id), ttl)
    {
      var claimCount := store.Incr(ClaimKey(id), ttl);
      return claimCount == 1;
    }

    /** The first of dispatch and cancel is recorded as the winner, the other learns it lost. */
    method ClaimUndoDecision(id: JobId, decision: string) returns (won: bool)
      requires Counter(store.entries, DecisionKey(id))
      modifies store`entries
      ensures won <==> Count(old(store.entries), store.now, DecisionKey(id)) == 0
      ensures Live(store.entries, store.now, WinnerKey(id)) ==
              if won then Some(Text(decision)) else Live(old(store.entries), store.now, WinnerKey(id))
      ensures Count(store.entries, store.now, DecisionKey(id)) == Count(old(store.entries), store.now, DecisionKey(id)) + 1
    {
      WinnerIsApart(id);
      var count := store.Incr(DecisionKey(id), ttl);
      if count != 1 { return false; }
      store.Set(WinnerKey(id), Text(decision), ttl);
      return true;
    }

    method CreateJob(id: JobId, initial: Record)
      modifies store`entries
      ensures Live(store.entries, store.now, JobKey(id)) == Some(Hash(map["status" := "awaiting_workers"] + initial))
      ensures forall k :: k != JobKey(id) ==> Live(store.entries, store.now, k) == Live(old(store.entries), store.now, k)
    {
      store.Set(JobKey(id), Hash(map["status" := "awaiting_workers"] + initial), ttl);
    }

    /** Read, spread, write: the record becomes the machine's merge, other keys stay, and the public
        counter moves exactly when the record becomes settled. */
    method UpdateJob(id: JobId, patch: Record, ghost j: S.Job, ghost p: S.Patch) returns (next: Record)
      requires Records(Live(store.entries, store.now, JobKey(id)), j) && Patches(patch, p)
      modifies this`settlementsTotal, store`entries
      ensures next == Fields(old(store.entries), store.now, JobKey(id)) + patch
      ensures Live(store.entries, store.now, JobKey(id)) == Some(Hash(next)) && Shows(next, S.Merge(j, p))
      ensures forall k :: k != JobKey(id) ==> Live(store.entries, store.now, k) == Live(old(store.entries), store.now, k)
      ensures settlementsTotal == old(settlementsTotal)
        + if S.IsSettled(S.Merge(j, p)) && !S.IsSettled(j) then 1 else 0
    {
      ghost var before := Live(store.entries, store.now, JobKey(id));
      SpreadIsMerge(before, j, patch, p);
      SettledShows(before, j);
      var current := store.Get(JobKey(id));
      var fields := if current.Some? then current.value.fields else map[];
      next := fields + patch;
      store.Set(JobKey(id), Hash(next), ttl);
      if IsSettled(next) && !IsSettled(fields) { settlementsTotal := settlementsTotal + 1; }
    }
  }

  lemma SettledShows(r: Option<Value>, j: S.Job)
    requires Records(r, j)
    ensures var f := match r case Some(Hash(h)) => h case _ => map[]; IsSettled(f) <==> S.IsSettled(j)
  {
    if j.Job? { SettledByName(j.status); }
  }

  lemma WinnerIsApart(id: JobId)
    ensures WinnerKey(id) != DecisionKey(id)
  {
    assert |WinnerKey(id)| == |DecisionKey(id)| + 7;
  }

  // ---- The review queue --------------------------------------------------------------------------

  /** One call of markPendingReview: it reads the record, then writes it. */
  datatype Marker = Idle | Passed | Told(moved: bool)

  /** `queued`: the record is in review, or settled. */
  datatype Reviews = Reviews(queued: bool, callers: seq<Marker>)

  datatype ReviewStep = Look(i: nat) | Put(i: nat)

  function Review(s: Reviews, e: ReviewStep): Reviews {
    match e
    case Look(i) =>
      if i < |s.callers| && s.callers[i].Idle?
      then s.(callers := s.callers[i := if s.queued then Told(false) else Passed]) else s
    case Put(i) =>
      if i < |s.callers| && s.callers[i].Passed?
      then Reviews(true, s.callers[i := Told(true)]) else s
  }

  function Reviewed(s: Reviews, es: seq<ReviewStep>): Reviews
    decreases |es|
  {
    if es == [] then s else Review(Reviewed(s, es[..|es| - 1]), es[|es| - 1])
  }

  predicate Fresh(s: Reviews) { !s.queued && forall i :: 0 <= i < |s.callers| ==> s.callers[i].Idle? }

  /** The caller looked before anybody had written. */
  ghost predicate LookedFirst(s: Reviews, es: seq<ReviewStep>, i: nat) {
    exists k :: LooksAt(s, es, i, k)
  }

  predicate LooksAt(s: Reviews, es: seq<ReviewStep>, i: nat, k: int) {
    0 <= k < |es| && es[k] == Look(i) && !Reviewed(s, es[..k]).queued
  }

  lemma LookedFirstGrows(s: Reviews, es: seq<ReviewStep>, i: nat)
    requires es != []
    ensures LookedFirst(s, es, i) <==>
      LookedFirst(s, es[..|es| - 1], i) || (es[|es| - 1] == Look(i) && !Reviewed(s, es[..|es| - 1]).queued)
  {
    hide Reviewed;
    var n := |es| - 1;
    forall k | 0 <= k < n ensures LooksAt(s, es, i, k) <==> LooksAt(s, es[..n], i, k) { assert es[..n][..k] == es[..k]; }
    if k :| LooksAt(s, es[..n], i, k) { assert LooksAt(s, es, i, k); }
    if es[n] == Look(i) && !Reviewed(s, es[..n]).queued { assert LooksAt(s, es, i, n); }
  }

  /** A caller that has been answered is told it queued the job exactly when it read the record before
      anybody wrote it. */
  lemma {:induction false} MarkersToldTrue(s: Reviews, es: seq<ReviewStep>, i: nat)
    requires Fresh(s) && i < |s.callers|
    ensures var t := Reviewed(s, es);
      && |t.callers| == |s.callers|
      && (t.callers[i].Idle? ==> !LookedFirst(s, es, i))
      && (t.callers[i].Passed? ==> LookedFirst(s, es, i))
      && (t.callers[i].Told? ==> (t.callers[i].moved <==> LookedFirst(s, es, i)))
      && (t.callers[i].Told? ==> t.queued)
    decreases |es|
  {
    if es != [] {
      MarkersToldTrue(s, es[..|es| - 1], i);
      LookedFirstGrows(s, es, i);
      hide LookedFirst;
    }
  }

  /** So of two calls that overlap both are told they queued the job; of two that do not, only the
      first. */
  lemma OverlappingMarkersBothWin(s: Reviews, overlap: bool)
    requires Fresh(s) && |s.callers| == 2
    ensures var t := Reviewed(s, if overlap then [Look(0), Look(1), Put(0), Put(1)] else [Look(0), Put(0), Look(1), Put(1)]);
      t.callers == [Told(true), Told(overlap)]
  {
    var a := s.(callers := [Passed, Idle]);
    if overlap {
      var es := [Look(0), Look(1), Put(0), Put(1)];
      assert es[..3] == [Look(0), Look(1), Put(0)] && es[..3][..2] == [Look(0), Look(1)];
      assert es[..3][..2][..1] == [Look(0)] && [Look(0)][..0] == [];
      assert Reviewed(s, es[..3][..2]) == s.(callers := [Passed, Passed]);
      assert Reviewed(s, es[..3]) == Reviews(true, [Told(true), Passed]);
    } else {
      var es := [Look(0), Put(0), Look(1), Put(1)];
      assert es[..3] == [Look(0), Put(0), Look(1)] && es[..3][..2] == [Look(0), Put(0)];
      assert es[..3][..2][..1] == [Look(0)] && [Look(0)][..0] == [];
      assert Reviewed(s, es[..3][..2]) == Reviews(true, [Told(true), Idle]);
      assert Reviewed(s, es[..3]) == Reviews(true, [Told(true), Told(false)]);
    }
  }
}
