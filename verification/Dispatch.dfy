/** Quorum collection: who a question is sent to, and the collector that gathers the answers. */
module Dispatch {
  import opened Common

  type WorkerId = string
  type Answer = string

  // ---- The collector -----------------------------------------------------------------------------

  datatype Submission = Submission(worker: WorkerId, answer: Answer)

  /** The settings of one question; `screen` is the content filter. */
  datatype Question = Question(quorumSize: int, whitelist: Option<set<WorkerId>>, screen: Answer -> bool)

  datatype Cause = Quorum | Timeout | NobodyReached

  /** `submissions` is the insertion-ordered Map; `result` is what the promise resolved to. */
  datatype State = State(submissions: seq<Submission>, result: Option<(Cause, seq<Submission>)>)

  datatype Event =
    | Answered(worker: WorkerId, answer: Answer)
    | TimerFired
    | BroadcastDone(recipients: nat)
    | BroadcastFailed

  predicate Has(subs: seq<Submission>, w: WorkerId) { exists s :: s in subs && s.worker == w }

  /** The whitelist fails closed, and a filtered answer never counts. */
  predicate Allowed(q: Question, w: WorkerId, a: Answer) {
    (q.whitelist.Some? ==> w in q.whitelist.value) && q.screen(a)
  }

  predicate Accepts(q: Question, s: State, w: WorkerId, a: Answer) {
    s.result.None? && !Has(s.submissions, w) && Allowed(q, w, a)
  }

  /** finish: the first call settles the promise and drops the collector. */
  function Finish(s: State, cause: Cause, subs: seq<Submission>): State {
    if s.result.Some? then s else s.(result := Some((cause, subs)))
  }

  function Next(q: Question, s: State, e: Event): State {
    match e
    case Answered(w, a) =>
      if !Accepts(q, s, w, a) then s
      else
        var subs := s.submissions + [Submission(w, a)];
        if |subs| >= q.quorumSize then Finish(s.(submissions := subs), Quorum, subs) else s.(submissions := subs)
    case TimerFired => Finish(s, Timeout, s.submissions)
    case BroadcastDone(n) => if n == 0 then Finish(s, NobodyReached, []) else s
    case BroadcastFailed => Finish(s, NobodyReached, [])
  }

  function Run(q: Question, es: seq<Event>): State
    decreases |es|
  {
    if es == [] then State([], None) else Next(q, Run(q, es[..|es| - 1]), es[|es| - 1])
  }

  class Collector {
    const q: Question
    var submissions: seq<Submission>
    var finished: bool
    var done: bool
    var registered: bool
    var result: Option<(Cause, seq<Submission>)>

    constructor (q: Question)
      ensures this.q == q && Valid() && View() == Run(q, [])
    {
      this.q := q;
      submissions, finished, done, registered, result := [], false, false, true, None;
    }

    ghost predicate Valid()
      reads this
    {
      && (done <==> result.Some?) && (registered <==> !done) && (finished ==> done)
      && (result.None? ==> |submissions| < Max(1, q.quorumSize))
    }

    function View(): State
      reads this
    {
      State(submissions, result)
    }

    method Settle(cause: Cause, subs: seq<Submission>)
      modifies this
      requires (done <==> result.Some?) && (registered <==> !done)
      ensures (done <==> result.Some?) && (registered <==> !done) && done && submissions == old(submissions)
      ensures finished == old(finished)
      ensures View() == Finish(old(View()), cause, subs)
    {
      if done { return; }
      done := true;
      registered := false;
      result := Some((cause, subs));
    }

    /** True exactly when the answer was recorded. */
    method HandleAnswer(w: WorkerId, a: Answer) returns (accepted: bool)
      requires Valid()
      modifies this
      ensures Valid() && View() == Next(q, old(View()), Answered(w, a))
      ensures accepted <==> Accepts(q, old(View()), w, a)
    {
      if !registered || finished { return false; }
      if exists s :: s in submissions && s.worker == w { return false; }
      if q.whitelist.Some? && w !in q.whitelist.value { return false; }
      if !q.screen(a) { return false; }
      submissions := submissions + [Submission(w, a)];
      if |submissions| >= q.quorumSize {
        finished := true;
        Settle(Quorum, submissions);
      }
      return true;
    }

    method OnTimer()
      requires Valid()
      modifies this
      ensures Valid() && View() == Next(q, old(View()), TimerFired)
    {
      Settle(Timeout, if registered then submissions else []);
    }

    /** The broadcast resolved with its recipients, or failed. */
    method OnBroadcast(recipients: Option<nat>)
      requires Valid()
      modifies this
      ensures Valid()
      ensures View() == Next(q, old(View()), match recipients case Some(n) => BroadcastDone(n) case None => BroadcastFailed)
    {
      if recipients.None? || recipients.value == 0 { Settle(NobodyReached, []); }
    }
  }

  function Max(a: int, b: int): int { if a >= b then a else b }

  // ---- What is collected -------------------------------------------------------------------------

  /** The answers that count among some events, by definition: each worker's first allowed one. */
  function Accepted(q: Question, es: seq<Event>): seq<Submission>
    decreases |es|
  {
    if es == [] then []
    else
      var prior, e := Accepted(q, es[..|es| - 1]), es[|es| - 1];
      if e.Answered? && !Has(prior, e.worker) && Allowed(q, e.worker, e.answer)
      then prior + [Submission(e.worker, e.answer)] else prior
  }

  predicate OnePerWorker(subs: seq<Submission>) { forall i, j :: 0 <= i < j < |subs| ==> subs[i].worker != subs[j].worker }

  lemma {:induction false} AcceptedAre(q: Question, es: seq<Event>)
    ensures var subs := Accepted(q, es);
      && OnePerWorker(subs)
      && forall s :: s in subs ==> Allowed(q, s.worker, s.answer) && Answered(s.worker, s.answer) in es
    decreases |es|
  {
    if es != [] {
      var k := |es| - 1;
      AcceptedAre(q, es[..k]);
      assert es == es[..k] + [es[k]];
      var prior := Accepted(q, es[..k]);
      assert forall i :: 0 <= i < |prior| ==> prior[i] in prior;
    }
  }

  /** An event that settles the promise, given what was accepted before it. */
  predicate Ends(q: Question, es: seq<Event>, k: nat)
    requires k < |es|
  {
    match es[k]
    case Answered(_, _) => Accepted(q, es[..k + 1]) != Accepted(q, es[..k]) && |Accepted(q, es[..k + 1])| >= q.quorumSize
    case TimerFired => true
    case BroadcastDone(n) => n == 0
    case BroadcastFailed => true
  }

  function CauseOf(e: Event): Cause {
    match e case Answered(_, _) => Quorum case TimerFired => Timeout case _ => NobodyReached
  }

  /** Until an event ends the collection, the collector holds exactly the accepted answers. */
  lemma {:induction false} Collecting(q: Question, es: seq<Event>)
    requires forall k: nat :: k < |es| ==> !Ends(q, es, k)
    ensures Run(q, es) == State(Accepted(q, es), None)
    decreases |es|
  {
    if es != [] {
      var rest := es[..|es| - 1];
      forall k: nat | k < |rest| ensures !Ends(q, rest, k) { EndsEarlier(q, es, |es| - 1, k); }
      Collecting(q, rest);
      assert es[..|es| - 1 + 1] == es;
      assert !Ends(q, es, |es| - 1);
    }
  }

  lemma EndsEarlier(q: Question, es: seq<Event>, n: nat, k: nat)
    requires k < n <= |es|
    ensures Ends(q, es[..n], k) <==> Ends(q, es, k)
  {
    assert es[..n][..k] == es[..k] && es[..n][..k + 1] == es[..k + 1];
  }

  lemma {:induction false} Settled(q: Question, es: seq<Event>, more: seq<Event>)
    requires Run(q, es).result.Some?
    ensures Run(q, es + more).result == Run(q, es).result
    decreases |more|
  {
    if more == [] {
      assert es + more == es;
    } else {
      Settled(q, es, more[..|more| - 1]);
      assert (es + more)[..|es + more| - 1] == es + more[..|more| - 1];
    }
  }

  /** What the last event adds to a run. */
  lemma LastEvent(q: Question, rest: seq<Event>, e: Event)
    ensures Run(q, rest + [e]) == Next(q, Run(q, rest), e)
    ensures Accepted(q, rest + [e]) ==
      if e.Answered? && !Has(Accepted(q, rest), e.worker) && Allowed(q, e.worker, e.answer)
      then Accepted(q, rest) + [Submission(e.worker, e.answer)] else Accepted(q, rest)
    ensures Ends(q, rest + [e], |rest|) && e.Answered? ==>
      Accepted(q, rest + [e]) != Accepted(q, rest) && |Accepted(q, rest + [e])| >= q.quorumSize
    ensures Ends(q, rest + [e], |rest|) && e.BroadcastDone? ==> e.recipients == 0
  {
    var upTo := rest + [e];
    assert upTo[|rest|] == e && upTo[..|rest|] == rest && upTo[..|rest| + 1] == upTo && upTo[..|upTo| - 1] == rest;
    hide Allowed, Has, Next;
  }

  lemma EndingStep(q: Question, rest: seq<Event>, e: Event)
    requires Run(q, rest) == State(Accepted(q, rest), None) && Ends(q, rest + [e], |rest|)
    ensures Run(q, rest + [e]).result == Some((CauseOf(e), if CauseOf(e).NobodyReached? then [] else Accepted(q, rest + [e])))
  {
    LastEvent(q, rest, e);
    hide Run, Accepted, Ends, Allowed, Has;
  }

  /** Over every order of answers, duplicates, timer and broadcast outcomes: the first event that ends
      the collection settles it once and for all. At quorum or timeout the result is every accepted
      answer so far, none lost; when nobody was reached it is empty. */
  lemma ResolvesOnce(q: Question, es: seq<Event>, k: nat)
    requires k < |es| && Ends(q, es, k) && forall i: nat :: i < k ==> !Ends(q, es, i)
    ensures Run(q, es).result == Some((CauseOf(es[k]), if CauseOf(es[k]).NobodyReached? then [] else Accepted(q, es[..k + 1])))
  {
    hide Ends, Accepted, Run;
    var rest, upTo := es[..k], es[..k + 1];
    forall i: nat | i < |rest| ensures !Ends(q, rest, i) { EndsEarlier(q, es, k, i); }
    Collecting(q, rest);
    EndsEarlier(q, es, k + 1, k);
    assert upTo == rest + [es[k]];
    EndingStep(q, rest, es[k]);
    Settled(q, upTo, es[k + 1..]);
    assert upTo + es[k + 1..] == es;
  }

  ghost predicate Genuine(q: Question, es: seq<Event>, x: Submission) {
    Allowed(q, x.worker, x.answer) && Answered(x.worker, x.answer) in es
  }

  ghost predicate Sound(q: Question, es: seq<Event>, s: State) {
    && OnePerWorker(s.submissions)
    && (forall x :: x in s.submissions ==> Genuine(q, es, x))
    && |s.submissions| <= Max(1, q.quorumSize)
    && (s.result.None? ==> |s.submissions| < Max(1, q.quorumSize))
    && match s.result
       case Some((cause, subs)) =>
         && subs == (if cause.NobodyReached? then [] else s.submissions)
         && (cause.Quorum? ==> |subs| == Max(1, q.quorumSize))
       case None => true
  }

  lemma SoundStep(q: Question, es: seq<Event>, s: State, e: Event)
    requires Sound(q, es, s)
    ensures Sound(q, es + [e], Next(q, s, e))
  {
    hide Allowed;
    var subs := s.submissions;
    forall x | x in subs ensures Genuine(q, es + [e], x) { assert Genuine(q, es, x); }
    if e.Answered? && Accepts(q, s, e.worker, e.answer) {
      var x := Submission(e.worker, e.answer);
      assert Genuine(q, es + [e], x) by { AcceptsAllowed(q, s, e); assert e in es + [e]; }
      forall i | 0 <= i < |subs| ensures subs[i].worker != e.worker { assert subs[i] in subs; }
    }
  }

  lemma AcceptsAllowed(q: Question, s: State, e: Event)
    requires e.Answered? && Accepts(q, s, e.worker, e.answer)
    ensures Allowed(q, e.worker, e.answer)
  {}

  /** The result, whatever the events: one answer per worker, each sent, allowed and screened, never
      more than the quorum, and exactly the quorum when the collection ended early. */
  lemma {:induction false} ResultIsSound(q: Question, es: seq<Event>)
    ensures Sound(q, es, Run(q, es))
    decreases |es|
  {
    if es != [] {
      var k := |es| - 1;
      ResultIsSound(q, es[..k]);
      SoundStep(q, es[..k], Run(q, es[..k]), es[k]);
      assert es == es[..k] + [es[k]];
    }
  }

  /** The one way an accepted answer is lost: it arrives while a broadcast that reaches nobody is
      still under way. The worker was told it counted. */
  lemma EmptyBroadcastDropsAnswers(q: Question, w: WorkerId, a: Answer)
    requires q.quorumSize > 1 && Allowed(q, w, a)
    ensures Accepts(q, Run(q, []), w, a)
    ensures Run(q, [Answered(w, a), BroadcastDone(0)]).result == Some((NobodyReached, []))
    ensures Accepted(q, [Answered(w, a), BroadcastDone(0)]) == [Submission(w, a)]
  {
    var es := [Answered(w, a), BroadcastDone(0)];
    assert es[..1] == [Answered(w, a)] && es[..1][..0] == [];
    assert Run(q, es[..1]) == State([Submission(w, a)], None);
    assert Accepted(q, es[..1]) == [Submission(w, a)];
  }

  // ---- selectTargets -----------------------------------------------------------------------------

  datatype Worker = Worker(id: WorkerId, categories: set<string>)

  predicate Serves(w: Worker, category: string) { w.categories == {} || category in w.categories }

  /** `eligible` and `established` are the reputation gates. */
  datatype Gates = Gates(eligible: WorkerId -> bool, established: WorkerId -> bool)

  function Where(ws: seq<Worker>, keep: Worker -> bool): seq<Worker>
    decreases |ws|
  {
    if ws == [] then []
    else Where(ws[..|ws| - 1], keep) + if keep(ws[|ws| - 1]) then [ws[|ws| - 1]] else []
  }

  lemma {:induction false} WhereMembers(ws: seq<Worker>, keep: Worker -> bool, w: Worker)
    ensures w in Where(ws, keep) <==> w in ws && keep(w)
    ensures |Where(ws, keep)| <= |ws|
    decreases |ws|
  {
    if ws != [] {
      WhereMembers(ws[..|ws| - 1], keep, w);
      assert ws == ws[..|ws| - 1] + [ws[|ws| - 1]];
    }
  }

  /** A soft preference: narrow the list unless that would empty it. */
  function Prefer(ws: seq<Worker>, keep: Worker -> bool): seq<Worker> {
    if Where(ws, keep) == [] then ws else Where(ws, keep)
  }

  function Candidates(online: seq<Worker>, whitelist: Option<seq<WorkerId>>): seq<Worker> {
    match whitelist
    case Some(ids) => Where(online, (w: Worker) => w.id in ids)
    case None => online
  }

  function Pool(online: seq<Worker>, category: Option<string>, whitelist: Option<seq<WorkerId>>, g: Gates): seq<Worker> {
    var targets := Candidates(online, whitelist);
    var matching := match category case Some(c) => Prefer(targets, (w: Worker) => Serves(w, c)) case None => targets;
    Prefer(matching, (w: Worker) => g.eligible(w.id))
  }

  function Targets(online: seq<Worker>, category: Option<string>, preferEstablished: bool, quorumSize: nat,
                   whitelist: Option<seq<WorkerId>>, g: Gates): seq<Worker> {
    var pool := Pool(online, category, whitelist, g);
    var established := Where(pool, (w: Worker) => g.established(w.id));
    if preferEstablished && |established| >= quorumSize then established else pool
  }

  method SelectTargets(online: seq<Worker>, category: Option<string>, preferEstablished: bool, quorumSize: nat,
                       whitelist: Option<seq<WorkerId>>, g: Gates) returns (targets: seq<Worker>)
    ensures targets == Targets(online, category, preferEstablished, quorumSize, whitelist, g)
  {
    targets := online;
    if whitelist.Some? {
      targets := Where(targets, (w: Worker) => w.id in whitelist.value);
      if |targets| == 0 { return []; }
    }
    if category.Some? {
      var matching := Where(targets, (w: Worker) => Serves(w, category.value));
      if |matching| > 0 { targets := matching; }
    }
    var eligible := Passing(targets, (w: Worker) => g.eligible(w.id));
    var pool := if |eligible| > 0 then eligible else targets;
    if !preferEstablished { return pool; }
    var established := Passing(pool, (w: Worker) => g.established(w.id));
    return if |established| >= quorumSize then established else pool;
  }

  /** The loops over a reputation gate, one lookup a worker. */
  method Passing(ws: seq<Worker>, gate: Worker -> bool) returns (kept: seq<Worker>)
    ensures kept == Where(ws, gate)
  {
    kept := [];
    for i := 0 to |ws|
      invariant kept == Where(ws[..i], gate)
    {
      assert ws[..i + 1][..i] == ws[..i];
      if gate(ws[i]) { kept := kept + [ws[i]]; }
    }
    assert ws[..|ws|] == ws;
  }

  lemma PreferKeeps(ws: seq<Worker>, keep: Worker -> bool)
    ensures ws != [] ==> Prefer(ws, keep) != []
    ensures forall w :: w in Prefer(ws, keep) ==> w in ws
    ensures (exists w :: w in ws && keep(w)) ==> forall w :: w in Prefer(ws, keep) ==> keep(w)
  {
    forall w ensures w in Where(ws, keep) <==> w in ws && keep(w) { WhereMembers(ws, keep, w); }
  }

  /** The private pool fails closed and the other filters fail open: every target is online and, with
      a whitelist, on it; and nobody is targeted only if nobody on the whitelist is online. The one
      exception is a preference for established workers with no quorum size given, which empties the
      list when none is established. */
  lemma TargetsAreSound(online: seq<Worker>, category: Option<string>, preferEstablished: bool, quorumSize: nat,
                        whitelist: Option<seq<WorkerId>>, g: Gates)
    ensures var targets, pool := Targets(online, category, preferEstablished, quorumSize, whitelist, g),
                                 Pool(online, category, whitelist, g);
      && (forall w :: w in targets ==> w in online && (whitelist.Some? ==> w.id in whitelist.value))
      && (targets == [] <==>
           Candidates(online, whitelist) == []
           || (preferEstablished && quorumSize == 0 && Where(pool, (w: Worker) => g.established(w.id)) == []))
  {
    hide Where;
    var targets := Candidates(online, whitelist);
    var matching := match category case Some(c) => Prefer(targets, (w: Worker) => Serves(w, c)) case None => targets;
    var pool := Prefer(matching, (w: Worker) => g.eligible(w.id));
    if whitelist.Some? {
      forall w ensures w in targets <==> w in online && w.id in whitelist.value {
        WhereMembers(online, (x: Worker) => x.id in whitelist.value, w);
      }
    }
    if category.Some? { PreferKeeps(targets, (w: Worker) => Serves(w, category.value)); }
    PreferKeeps(matching, (w: Worker) => g.eligible(w.id));
    forall w ensures w in Where(pool, (x: Worker) => g.established(x.id)) ==> w in pool {
      WhereMembers(pool, (x: Worker) => g.established(x.id), w);
    }
    EmptyPool(category, g);
  }

  lemma EmptyPool(category: Option<string>, g: Gates)
    ensures forall keep: Worker -> bool :: Where([], keep) == []
  {}

  /** A soft filter applies whenever anyone passes it: with an eligible specialist among the
      candidates, every target is eligible and serves the category. */
  lemma PreferencesApply(online: seq<Worker>, category: string, preferEstablished: bool, quorumSize: nat,
                         whitelist: Option<seq<WorkerId>>, g: Gates, one: Worker, w: Worker)
    requires one in Candidates(online, whitelist) && Serves(one, category) && g.eligible(one.id)
    requires w in Targets(online, Some(category), preferEstablished, quorumSize, whitelist, g)
    ensures Serves(w, category) && g.eligible(w.id)
  {
    var serves, eligible := (x: Worker) => Serves(x, category), (x: Worker) => g.eligible(x.id);
    var targets := Candidates(online, whitelist);
    PreferKeeps(targets, serves);
    WhereMembers(targets, serves, one);
    var matching := Prefer(targets, serves);
    PreferKeeps(matching, eligible);
    WhereMembers(Prefer(matching, eligible), (x: Worker) => g.established(x.id), w);
    assert one in matching && eligible(one) && serves(one);
  }
}
