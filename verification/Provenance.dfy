/** Provenance: what the pipeline commits to before settling, and the verifier that re-derives it. */
module Provenance {
  import opened Common
  import opened Vote
  import opened Consensus
  import opened Reconcile
  import J = CanonicalJson
  import CanonicalIdentity

  // ---- sameMembers -------------------------------------------------------------------------------

  const NEWLINE: J.Unit := 0x0A

  function InsertId(id: WorkerId, ids: seq<WorkerId>): seq<WorkerId> {
    if ids == [] || !J.Before(ids[0], id) then [id] + ids else [ids[0]] + InsertId(id, ids[1..])
  }

  function SortIds(ids: seq<WorkerId>): seq<WorkerId> {
    if ids == [] then [] else InsertId(ids[0], SortIds(ids[1..]))
  }

  function Lines(ids: seq<WorkerId>): J.Text {
    if ids == [] then []
    else if |ids| == 1 then ids[0]
    else ids[0] + [NEWLINE] + Lines(ids[1..])
  }

  predicate SameMembers(a: seq<WorkerId>, b: seq<WorkerId>) {
    |a| == |b| && Lines(SortIds(a)) == Lines(SortIds(b))
  }

  predicate OneLine(id: WorkerId) { NEWLINE !in id }

  function Breaks(t: J.Text): nat {
    if t == [] then 0 else (if t[0] == NEWLINE then 1 else 0) + Breaks(t[1..])
  }

  lemma {:induction false} BreaksConcat(a: J.Text, b: J.Text)
    ensures Breaks(a + b) == Breaks(a) + Breaks(b)
    decreases |a|
  {
    if a == [] {
      assert a + b == b;
    } else {
      BreaksConcat(a[1..], b);
      assert (a + b)[1..] == a[1..] + b;
    }
  }

  lemma {:induction false} OneLineBreaks(id: WorkerId)
    ensures Breaks(id) == 0 <==> OneLine(id)
    decreases |id|
  {
    if id != [] {
      OneLineBreaks(id[1..]);
      assert id == [id[0]] + id[1..];
    }
  }

  predicate OneLiners(ids: seq<WorkerId>) { forall id :: id in ids ==> OneLine(id) }

  /** The joined text has a break between any two ids, and one more for each inside an id. */
  lemma {:induction false} LinesBreaks(ids: seq<WorkerId>)
    requires ids != []
    ensures Breaks(Lines(ids)) >= |ids| - 1
    ensures Breaks(Lines(ids)) == |ids| - 1 <==> OneLiners(ids)
    decreases |ids|
  {
    OneLineBreaks(ids[0]);
    assert ids == [ids[0]] + ids[1..];
    if |ids| > 1 {
      LinesBreaks(ids[1..]);
      BreaksConcat(ids[0] + [NEWLINE], Lines(ids[1..]));
      BreaksConcat(ids[0], [NEWLINE]);
      assert Breaks([NEWLINE]) == 1 by { assert [NEWLINE][1..] == []; }
    }
  }

  function FirstBreak(t: J.Text): nat { if t == [] || t[0] == NEWLINE then 0 else 1 + FirstBreak(t[1..]) }

  lemma {:induction false} BreaksAfter(id: WorkerId, rest: J.Text)
    requires OneLine(id)
    ensures FirstBreak(id + [NEWLINE] + rest) == |id|
    decreases |id|
  {
    if id == [] {
      assert id + [NEWLINE] + rest == [NEWLINE] + rest;
    } else {
      BreaksAfter(id[1..], rest);
      assert (id + [NEWLINE] + rest)[1..] == id[1..] + [NEWLINE] + rest;
    }
  }

  /** Two prefixes that stop before the first break are the same. */
  lemma SplitsAlike(a: WorkerId, b: WorkerId, x: J.Text, y: J.Text)
    requires a + [NEWLINE] + x == b + [NEWLINE] + y && OneLine(a) && OneLine(b)
    ensures a == b && x == y
  {
    BreaksAfter(a, x);
    BreaksAfter(b, y);
    var t, u := a + [NEWLINE] + x, b + [NEWLINE] + y;
    assert a == t[..|a|] && b == u[..|b|] && x == t[|a| + 1..] && y == u[|b| + 1..];
  }

  lemma {:induction false} LinesIdentify(a: seq<WorkerId>, b: seq<WorkerId>)
    requires |a| == |b| && Lines(a) == Lines(b) && OneLiners(a) && OneLiners(b)
    ensures a == b
    decreases |a|
  {
    if |a| > 1 {
      assert a[0] in a && b[0] in b;
      SplitsAlike(a[0], b[0], Lines(a[1..]), Lines(b[1..]));
      LinesIdentify(a[1..], b[1..]);
      assert a == [a[0]] + a[1..] && b == [b[0]] + b[1..];
    }
  }

  lemma {:induction false} InsertKeeps(id: WorkerId, ids: seq<WorkerId>)
    ensures multiset(InsertId(id, ids)) == multiset{id} + multiset(ids) && |InsertId(id, ids)| == |ids| + 1
    decreases |ids|
  {
    if ids != [] {
      InsertKeeps(id, ids[1..]);
      assert ids == [ids[0]] + ids[1..];
    }
  }

  lemma {:induction false} SortKeeps(ids: seq<WorkerId>)
    ensures multiset(SortIds(ids)) == multiset(ids) && |SortIds(ids)| == |ids|
    decreases |ids|
  {
    if ids != [] {
      SortKeeps(ids[1..]);
      InsertKeeps(ids[0], SortIds(ids[1..]));
      assert ids == [ids[0]] + ids[1..];
    }
  }

  lemma Ordered(x: WorkerId, y: WorkerId)
    ensures x == y || J.Before(x, y) || J.Before(y, x)
    ensures !(J.Before(x, y) && J.Before(y, x)) && !J.Before(x, x)
  {
    CanonicalIdentity.BeforeIsTotal(x, y);
    CanonicalIdentity.BeforeIsStrict(x);
    if J.Before(x, y) && J.Before(y, x) { CanonicalIdentity.BeforeChains(x, y, x); }
  }

  lemma Chained(x: WorkerId, y: WorkerId, z: WorkerId)
    ensures J.Before(x, y) && J.Before(y, z) ==> J.Before(x, z)
  {
    if J.Before(x, y) && J.Before(y, z) { CanonicalIdentity.BeforeChains(x, y, z); }
  }

  lemma {:induction false} InsertsCommute(x: WorkerId, y: WorkerId, ids: seq<WorkerId>)
    ensures InsertId(x, InsertId(y, ids)) == InsertId(y, InsertId(x, ids))
    decreases |ids|
  {
    hide J.Before;
    Ordered(x, y);
    if ids != [] {
      var h := ids[0];
      Ordered(h, x);
      Ordered(h, y);
      Chained(h, x, y);
      Chained(h, y, x);
      InsertsCommute(x, y, ids[1..]);
    }
  }

  /** Any element may be inserted last. */
  lemma {:induction false} SortPull(ids: seq<WorkerId>, k: nat)
    requires k < |ids|
    ensures SortIds(ids) == InsertId(ids[k], SortIds(ids[..k] + ids[k + 1..]))
    decreases |ids|
  {
    hide InsertId;
    if k == 0 {
      assert ids[..0] + ids[1..] == ids[1..];
    } else {
      var rest := ids[1..];
      SortPull(rest, k - 1);
      var less := rest[..k - 1] + rest[k..];
      InsertsCommute(ids[0], ids[k], SortIds(less));
      assert ids[..k] + ids[k + 1..] == [ids[0]] + less;
    }
  }

  lemma RemoveOne(ids: seq<WorkerId>, k: nat)
    requires k < |ids|
    ensures multiset(ids[..k] + ids[k + 1..]) == multiset(ids) - multiset{ids[k]}
  {
    assert ids == ids[..k] + [ids[k]] + ids[k + 1..];
  }

  lemma SameSize(a: seq<WorkerId>, b: seq<WorkerId>)
    requires multiset(a) == multiset(b)
    ensures |a| == |b|
  {
    assert |a| == |multiset(a)| == |multiset(b)| == |b|;
  }

  lemma {:induction false} SortIsOfMultiset(a: seq<WorkerId>, b: seq<WorkerId>)
    requires multiset(a) == multiset(b)
    ensures SortIds(a) == SortIds(b)
    decreases |a|
  {
    hide SortIds, InsertId;
    SameSize(a, b);
    if a == [] {
      assert a == b;
    } else {
      assert a[0] in multiset(a);
      var k := IndexOf(b, a[0]);
      var more, less := a[..0] + a[0 + 1..], b[..k] + b[k + 1..];
      RemoveOne(a, 0);
      RemoveOne(b, k);
      SortPull(a, 0);
      SortPull(b, k);
      SortIsOfMultiset(more, less);
    }
  }

  lemma IndexOf(ids: seq<WorkerId>, id: WorkerId) returns (k: nat)
    requires id in multiset(ids)
    ensures k < |ids| && ids[k] == id
  {
    k :| 0 <= k < |ids| && ids[k] == id;
  }

  /** sameMembers is equality as multisets, when the ids of one side are single lines. */
  lemma SameMembersIsMultisetEquality(a: seq<WorkerId>, b: seq<WorkerId>)
    requires OneLiners(a)
    ensures SameMembers(a, b) <==> multiset(a) == multiset(b)
    ensures SameMembers(b, a) <==> SameMembers(a, b)
  {
    hide Lines, SortIds;
    SortKeeps(a);
    SortKeeps(b);
    if multiset(a) == multiset(b) {
      SortIsOfMultiset(a, b);
      assert |a| == |multiset(a)| == |multiset(b)| == |b|;
    }
    if SameMembers(a, b) {
      var c, d := SortIds(a), SortIds(b);
      assert forall id :: id in c ==> id in multiset(c);
      assert forall id :: id in multiset(a) ==> id in a;
      if a != [] {
        LinesBreaks(c);
        LinesBreaks(d);
        LinesIdentify(c, d);
      }
    }
  }

  /** Without that condition two different lists of workers pass for each other. */
  lemma SameMembersNeedsOneLiners()
    ensures var a, b := [[0x78, NEWLINE, 0x79], [0x7A]], [[0x78], [0x79, NEWLINE, 0x7A]];
      SameMembers(a, b) && multiset(a) != multiset(b)
  {
    var p: WorkerId, q: WorkerId, r: WorkerId, s: WorkerId := [0x78, NEWLINE, 0x79], [0x7A], [0x78], [0x79, NEWLINE, 0x7A];
    SortedPair(p, q);
    SortedPair(r, s);
    assert p in multiset([p, q]) && p !in multiset([r, s]);
  }

  lemma SortedPair(p: WorkerId, q: WorkerId)
    requires p != [] && q != [] && p[0] < q[0]
    ensures SortIds([p, q]) == [p, q] && Lines([p, q]) == p + [NEWLINE] + q
  {
    assert [p, q][1..] == [q] && [q][1..] == [];
    assert SortIds([q]) == [q];
  }

  // ---- Records -----------------------------------------------------------------------------------

  const PROVENANCE_VERSION := 1

  /** The reconciliation methods. The two numeric ones are unknown to the verifier. */
  datatype Method =
    | NoAnswers | FastPath | Fallback | Claude | OpenAi
    | Draft | DraftOpenAi | DraftUnavailable | NumericFastPath | NumericFallback

  /** A field of a JSON object. */
  datatype Field<T> = Missing | Null | Value(value: T)

  /** What a tool call, or reconcile itself, reports. Nothing makes an LLM fill in the required fields. */
  datatype Report = Report(consensus: Field<Text>, confidence: Field<real>, matching: seq<WorkerId>)

  /** The result as it is recorded: without a consensus it says null, without a confidence 0. */
  datatype Verdict = Verdict(consensus: Option<Text>, confidence: real, matching: seq<WorkerId>)

  function Recorded(report: Report): Verdict {
    Verdict(if report.consensus.Value? then Some(report.consensus.value) else None,
            if report.confidence.Value? then report.confidence.value else 0.0,
            report.matching)
  }

  /** The captured LLM exchange: whether the prompt holds the committed question and submissions, and
      the tool call in the reply. */
  datatype Exchange = Exchange(prompted: bool, input: Option<Report>)

  datatype Action = Resolve | Refund

  datatype Record = Record(
    v: nat, questionId: nat, submissions: seq<Submission>, kind: Method, llm: Option<Exchange>, llmError: bool,
    result: Verdict, minConfidence: real, action: Action)

  type Digest = nat

  predicate Instant(m: Method) { m.Draft? || m.DraftOpenAi? || m.DraftUnavailable? }

  /** JavaScript truth of a consensus: the empty answer is false. */
  predicate Truthy(consensus: Option<Text>) { consensus.Some? && consensus.value != [] }

  function ExpectedAction(r: Record): Action {
    if Instant(r.kind) then if Truthy(r.result.consensus) then Resolve else Refund
    else if r.submissions != [] && r.result.matching != [] && r.result.confidence >= r.minConfidence then Resolve
    else Refund
  }

  // ---- The pipeline ------------------------------------------------------------------------------

  predicate AllEstablished(subs: seq<Submission>) { forall s :: s in subs ==> s.established }

  datatype Rule = Exact(stop: Stopwords) | Numeric(t: Tolerance, parse: Parser)

  /** The deterministic vote a question's rule calls for. */
  function RuleVote(subs: seq<Submission>, rule: Rule): Tally
    requires subs != []
  {
    match rule
    case Exact(stop) => VoteOf(Relabeled(subs, stop))
    case Numeric(t, parse) => NumericVoteOf(subs, t, parse)
  }

  datatype Provider = ByClaude | ByOpenAi

  /** The first configured LLM provider that made a tool call, and the call. */
  datatype Reply = Reply(provider: Provider, report: Report)

  /** OpenAI comes last and its consensus must be a text; the primary's may be anything. */
  predicate Usable(reply: Option<Reply>) {
    reply.Some? && (reply.value.provider.ByOpenAi? ==> reply.value.report.consensus.Value?)
  }

  datatype Outcome = Outcome(kind: Method, llm: Option<Exchange>, report: Report)

  /** reconcile: nothing to do, the unanimous vote of established workers, an LLM's verdict, or the
      vote when no LLM answers. */
  function Reconciled(subs: seq<Submission>, rule: Rule, reply: Option<Reply>): Outcome {
    if subs == [] then Outcome(NoAnswers, None, Report(Null, Value(0.0), []))
    else
      var vote := RuleVote(subs, rule);
      if vote.allAgree && AllEstablished(subs) then
        Outcome(if rule.Exact? then FastPath else NumericFastPath, None, Report(Value(vote.consensus), Value(1.0), vote.matching))
      else if Usable(reply) then
        var said := reply.value;
        Outcome(if said.provider.ByClaude? then Claude else OpenAi, Some(Exchange(true, Some(said.report))), said.report)
      else
        Outcome(if rule.Exact? then Fallback else NumericFallback, None,
                Report(Value(vote.consensus), Value(vote.confidence), vote.matching))
  }

  /** A lone answer is capped at the confidence its escalation had. */
  predicate Lowered(r: Report, subs: seq<Submission>, escalated: Option<real>) {
    |subs| == 1 && escalated.Some? && r.confidence.Value? && escalated.value < r.confidence.value
  }

  function Capped(r: Report, subs: seq<Submission>, escalated: Option<real>): Report {
    if Lowered(r, subs, escalated) then r.(confidence := Value(escalated.value)) else r
  }

  /** confidence >= min, where null counts as 0 and a missing one is no number. */
  predicate Clears(confidence: Field<real>, min: real) {
    match confidence
    case Missing => false
    case Null => 0.0 >= min
    case Value(c) => c >= min
  }

  /** fulfillOracleCall: the decision, and the record committed before acting on it. */
  function Fulfilled(q: nat, subs: seq<Submission>, o: Outcome, escalated: Option<real>, min: real): Record {
    var report := Capped(o.report, subs, escalated);
    var resolves := |subs| > 0 && |report.matching| > 0 && Clears(report.confidence, min);
    Record(PROVENANCE_VERSION, q, subs, o.kind, o.llm, o.kind.Fallback? || o.kind.NumericFallback?, Recorded(report), min,
           if resolves then Resolve else Refund)
  }

  function Committed(q: nat, subs: seq<Submission>, rule: Rule, reply: Option<Reply>, escalated: Option<real>, min: real): Record {
    Fulfilled(q, subs, Reconciled(subs, rule, reply), escalated, min)
  }

  /** An LLM drafted an answer. */
  predicate Drafts(draft: Option<Reply>) { draft.Some? && Truthy(Recorded(draft.value.report).consensus) }

  /** fulfillInstant, given what an LLM drafted, if anything. */
  function Drafted(q: nat, draft: Option<Reply>, min: real): Record {
    if Drafts(draft) then
      var report := draft.value.report.(matching := []);
      Record(PROVENANCE_VERSION, q, [], if draft.value.provider.ByClaude? then Draft else DraftOpenAi,
             Some(Exchange(true, Some(report))), false, Recorded(report), min, Resolve)
    else
      Record(PROVENANCE_VERSION, q, [], DraftUnavailable, None, false, Verdict(None, 0.0, []), min, Refund)
  }

  // ---- The verifier ------------------------------------------------------------------------------

  datatype Check = Check(name: string, ok: bool)

  predicate AllOk(checks: seq<Check>) { forall c :: c in checks ==> c.ok }

  predicate FastPathEligible(subs: seq<Submission>)
    requires subs != []
  {
    VoteOf(subs).allAgree && AllEstablished(subs)
  }

  predicate MatchesVote(r: Record, confidence: real)
    requires r.submissions != []
  {
    var vote := VoteOf(r.submissions);
    && r.result.consensus == Some(vote.consensus)
    && SameMembers(r.result.matching, vote.matching)
    && r.result.confidence == confidence
  }

  predicate Submitted(subs: seq<Submission>, id: WorkerId) { exists s :: s in subs && s.workerId == id }

  predicate AllSubmitted(subs: seq<Submission>, ids: seq<WorkerId>) { forall id :: id in ids ==> Submitted(subs, id) }

  predicate Prompted(r: Record) { r.llm.Some? && r.llm.value.prompted }

  predicate Called(r: Record) { r.llm.Some? && r.llm.value.input.Some? }

  /** Strict equality of a recorded value, which may be null, and a field of the tool call. */
  predicate SameText(text: Option<Text>, field: Field<Text>) {
    match field
    case Missing => false
    case Null => text.None?
    case Value(t) => text == Some(t)
  }

  predicate SameNumber(x: real, field: Field<real>) { field.Value? && field.value == x }

  /** The result is the tool call of the committed exchange. */
  predicate Said(r: Record) {
    && Prompted(r) && Called(r)
    && SameText(r.result.consensus, r.llm.value.input.value.consensus)
    && SameNumber(r.result.confidence, r.llm.value.input.value.confidence)
  }

  /** What re-derivation demands of each method. */
  ghost predicate Derives(r: Record) {
    match r.kind
    case NoAnswers => r.submissions == [] && r.result.consensus.None?
    case DraftUnavailable => r.submissions == [] && r.result.consensus.None?
    case FastPath => r.submissions != [] && FastPathEligible(r.submissions) && MatchesVote(r, 1.0)
    case Fallback =>
      r.submissions != [] && !FastPathEligible(r.submissions) && MatchesVote(r, VoteOf(r.submissions).confidence) && r.llmError
    case Claude => ReconciledByLlm(r)
    case OpenAi => ReconciledByLlm(r)
    case Draft => r.submissions == [] && Said(r)
    case DraftOpenAi => r.submissions == [] && Said(r)
    case _ => false
  }

  ghost predicate ReconciledByLlm(r: Record) {
    && r.submissions != [] && !FastPathEligible(r.submissions) && Said(r)
    && SameMembers(r.result.matching, r.llm.value.input.value.matching)
    && AllSubmitted(r.submissions, r.result.matching)
  }

  predicate Votes(m: Method) { m.FastPath? || m.Fallback? || m.Claude? || m.OpenAi? }

  /** check(name, ok) of the source. */
  method Push(checks: seq<Check>, name: string, ok: bool) returns (more: seq<Check>)
    ensures AllOk(more) <==> AllOk(checks) && ok
    ensures |more| == |checks| + 1
  {
    more := checks + [Check(name, ok)];
    assert more[|checks|] == Check(name, ok) && forall c :: c in checks ==> c in more;
  }

  lemma AllOkConcat(a: seq<Check>, b: seq<Check>)
    ensures AllOk(a + b) <==> AllOk(a) && AllOk(b)
  {
    assert forall c :: c in a + b <==> c in a || c in b;
  }

  lemma NoChecks()
    ensures AllOk([])
  {}

  /** The checks of one record against a fresh vote. */
  method CheckVote(r: Record, vote: Tally) returns (checks: seq<Check>)
    requires r.submissions != [] && vote == VoteOf(r.submissions) && (r.kind.FastPath? || r.kind.Fallback?)
    ensures AllOk(checks) <==> Derives(r)
  {
    hide VoteOf, SameMembers, AllOk;
    var eligible := vote.allAgree && AllEstablished(r.submissions);
    var fastpath := r.kind.FastPath?;
    NoChecks();
    checks := Push([], if fastpath then "fast path allowed" else "fast path correctly not taken", fastpath == eligible);
    checks := Push(checks, "consensus matches a fresh exact-match vote", r.result.consensus == Some(vote.consensus));
    checks := Push(checks, "matching workers match the vote", SameMembers(r.result.matching, vote.matching));
    checks := Push(checks, "confidence matches the vote", r.result.confidence == if fastpath then 1.0 else vote.confidence);
    if !fastpath { checks := Push(checks, "LLM failure reason recorded", r.llmError); }
  }

  /** The checks of the committed exchange that drafts and reconciliations share. */
  method CheckExchange(r: Record, sofar: seq<Check>) returns (checks: seq<Check>)
    ensures AllOk(checks) <==> AllOk(sofar) && Said(r)
  {
    hide AllOk;
    checks := Push(sofar, "LLM prompt contains the committed inputs", Prompted(r));
    checks := Push(checks, "LLM response contains the tool call", Called(r));
    if Called(r) {
      checks := Push(checks, "answer matches the tool call", SameText(r.result.consensus, r.llm.value.input.value.consensus));
      checks := Push(checks, "confidence matches the tool call", SameNumber(r.result.confidence, r.llm.value.input.value.confidence));
    }
  }

  /** The checks of a record an LLM reconciled. */
  method CheckLlm(r: Record, vote: Tally) returns (checks: seq<Check>)
    requires r.submissions != [] && vote == VoteOf(r.submissions) && (r.kind.Claude? || r.kind.OpenAi?)
    ensures AllOk(checks) <==> Derives(r)
  {
    hide VoteOf, SameMembers, AllOk, AllSubmitted;
    NoChecks();
    checks := Push([], "fast path correctly not taken", !(vote.allAgree && AllEstablished(r.submissions)));
    checks := CheckExchange(r, checks);
    if Called(r) {
      checks := Push(checks, "matching workers match", SameMembers(r.result.matching, r.llm.value.input.value.matching));
    }
    checks := Push(checks, "every matching worker submitted", AllSubmitted(r.submissions, r.result.matching));
  }

  method CheckDraft(r: Record) returns (checks: seq<Check>)
    requires r.kind.Draft? || r.kind.DraftOpenAi?
    ensures AllOk(checks) <==> Derives(r)
  {
    hide AllOk;
    NoChecks();
    checks := Push([], "no human submissions (instant tier)", r.submissions == []);
    checks := CheckExchange(r, checks);
  }

  /** None is the exception the vote throws on a record without submissions. */
  method Rederive(r: Record) returns (checks: Option<seq<Check>>)
    ensures checks.None? <==> Votes(r.kind) && r.submissions == []
    ensures checks.Some? ==> (AllOk(checks.value) <==> Derives(r))
  {
    hide VoteOf, SameMembers, AllOk;
    NoChecks();
    var cs: seq<Check> := [];
    if r.kind.NoAnswers? || r.kind.DraftUnavailable? {
      cs := Push(cs, "no submissions and no consensus", r.submissions == [] && r.result.consensus.None?);
    } else if r.kind.Draft? || r.kind.DraftOpenAi? {
      cs := CheckDraft(r);
    } else if Votes(r.kind) {
      var vote := ExactMatchVote(r.submissions);
      if vote.None? { return None; }
      if r.kind.FastPath? || r.kind.Fallback? {
        cs := CheckVote(r, vote.value);
      } else {
        cs := CheckLlm(r, vote.value);
      }
    } else {
      cs := Push(cs, "known reconciliation method", false);
    }
    checks := Some(cs);
  }

  ghost predicate Verifies(r: Record, hash: Digest, expected: Option<Digest>, h: Record -> Digest) {
    && h(r) == hash
    && (expected.Some? ==> expected.value == hash)
    && r.v == PROVENANCE_VERSION
    && Derives(r)
    && r.action == ExpectedAction(r)
  }

  /** `h` is SHA-256 over the canonical text of the record. */
  method VerifyProvenance(r: Record, hash: Digest, expected: Option<Digest>, h: Record -> Digest)
    returns (ok: Option<bool>)
    ensures ok.None? <==> r.v == PROVENANCE_VERSION && Votes(r.kind) && r.submissions == []
    ensures ok.Some? ==> (ok.value <==> Verifies(r, hash, expected, h))
  {
    hide Derives, ExpectedAction, AllOk;
    NoChecks();
    var checks := Push([], "record hash recomputes to the committed hash", h(r) == hash);
    if expected.Some? {
      checks := Push(checks, "committed hash matches the independently published hash", expected.value == hash);
    }
    checks := Push(checks, "supported record version", r.v == PROVENANCE_VERSION);
    if r.v == PROVENANCE_VERSION {
      var derived := Rederive(r);
      if derived.None? { return None; }
      AllOkConcat(checks, derived.value);
      checks := Push(checks + derived.value, "decision follows from the result", ExpectedAction(r) == r.action);
    }
    ok := Some(AllOk(checks));
  }

  // ---- Verifier against pipeline -----------------------------------------------------------------

  /** What a question, its answers and the LLM's reply must be like for the record to be re-derived:
      the verifier knows the method, its exact-match vote is the vote that was taken, and an LLM named
      nobody but submitters, left out neither consensus nor confidence, and was not asked about answers
      that are all alike. */
  ghost predicate Rederivable(subs: seq<Submission>, rule: Rule, reply: Option<Reply>) {
    subs == [] ||
      match Reconciled(subs, rule, reply).kind
      case FastPath => OneAnswer(subs, rule.stop)
      case Fallback => OneAnswer(subs, rule.stop)
      case Claude => !FastPathEligible(subs) && AllSubmitted(subs, reply.value.report.matching) && Complete(reply.value.report)
      case OpenAi => !FastPathEligible(subs) && AllSubmitted(subs, reply.value.report.matching) && Complete(reply.value.report)
      case _ => false
  }

  predicate Complete(report: Report) { !report.consensus.Missing? && report.confidence.Value? }

  lemma VoteMethodsRederive(q: nat, subs: seq<Submission>, stop: Stopwords, escalated: Option<real>, min: real)
    requires subs != []
    ensures var o := Reconciled(subs, Exact(stop), None);
      Derives(Fulfilled(q, subs, o, escalated, min)) <==> OneAnswer(subs, stop) && !Lowered(o.report, subs, escalated)
  {
    hide VoteOf, Relabeled, Lines, SortIds, OneAnswer, AllEstablished;
    VotesAgree(subs, stop);
    VoteIsUnanimous(subs);
    VoteIsUnanimous(Relabeled(subs, stop));
  }

  lemma LlmRecordsRederive(q: nat, subs: seq<Submission>, o: Outcome, escalated: Option<real>, min: real)
    requires subs != [] && (o.kind.Claude? || o.kind.OpenAi?) && o.llm == Some(Exchange(true, Some(o.report)))
    ensures Derives(Fulfilled(q, subs, o, escalated, min))
      <==> !FastPathEligible(subs) && AllSubmitted(subs, o.report.matching) && Complete(o.report) && !Lowered(o.report, subs, escalated)
  {
    hide VoteOf, Lines, SortIds, AllEstablished, AllSubmitted;
  }

  lemma PipelineDerives(q: nat, subs: seq<Submission>, rule: Rule, reply: Option<Reply>, escalated: Option<real>, min: real)
    ensures var o := Reconciled(subs, rule, reply);
      Derives(Fulfilled(q, subs, o, escalated, min)) <==> Rederivable(subs, rule, reply) && !Lowered(o.report, subs, escalated)
  {
    if subs == [] {
      assert !Lowered(Reconciled(subs, rule, reply).report, subs, escalated);
    } else {
      PipelineDerivesSome(q, subs, rule, reply, escalated, min);
    }
  }

  lemma PipelineDerivesSome(q: nat, subs: seq<Submission>, rule: Rule, reply: Option<Reply>, escalated: Option<real>, min: real)
    requires subs != []
    ensures var o := Reconciled(subs, rule, reply);
      Derives(Fulfilled(q, subs, o, escalated, min)) <==> Rederivable(subs, rule, reply) && !Lowered(o.report, subs, escalated)
  {
    hide MatchesVote, FastPathEligible, ReconciledByLlm, OneAnswer, AllEstablished, AllSubmitted, Lowered, VoteOf, Relabeled;
    var o := Reconciled(subs, rule, reply);
    if o.kind.FastPath? || o.kind.Fallback? { VoteMethodsRederive(q, subs, rule.stop, escalated, min); }
    if o.kind.Claude? || o.kind.OpenAi? { LlmRecordsRederive(q, subs, o, escalated, min); }
  }

  /** The record the pipeline commits verifies, with its own hash or the published one vouching for it,
      exactly when it is re-derivable and no escalation cap lowered the confidence of a lone answer. */
  lemma PipelineVerifies(q: nat, subs: seq<Submission>, rule: Rule, reply: Option<Reply>, escalated: Option<real>,
                         min: real, h: Record -> Digest, published: bool)
    ensures var r := Committed(q, subs, rule, reply, escalated, min);
      Verifies(r, h(r), if published then Some(h(r)) else None, h)
      <==> Rederivable(subs, rule, reply) && !Lowered(Reconciled(subs, rule, reply).report, subs, escalated)
  {
    hide Derives, Rederivable, RuleVote, AllEstablished;
    PipelineDerives(q, subs, rule, reply, escalated, min);
    NeverInstant(subs, rule, reply);
    if Rederivable(subs, rule, reply) { DerivedIsRated(subs, rule, reply); }
  }

  lemma DerivedIsRated(subs: seq<Submission>, rule: Rule, reply: Option<Reply>)
    requires Rederivable(subs, rule, reply)
    ensures Reconciled(subs, rule, reply).report.confidence.Value?
  {
    hide RuleVote, FastPathEligible, AllEstablished, AllSubmitted, OneAnswer;
  }

  lemma NeverInstant(subs: seq<Submission>, rule: Rule, reply: Option<Reply>)
    ensures !Instant(Reconciled(subs, rule, reply).kind)
  {
    hide RuleVote;
  }

  /** In the default mode an LLM is only asked when the exact vote was not unanimous either, so there
      nothing can spoil its record but a name it made up or a field it left out. */
  lemma DefaultModeLlm(subs: seq<Submission>, stop: Stopwords, reply: Reply)
    requires var k := Reconciled(subs, Exact(stop), Some(reply)).kind; k.Claude? || k.OpenAi?
    ensures Rederivable(subs, Exact(stop), Some(reply))
      <==> AllSubmitted(subs, reply.report.matching) && Complete(reply.report)
  {
    hide VoteOf, Relabeled, AllEstablished, AllSubmitted, OneAnswer;
    UnanimousBoth(subs, stop);
    assert !FastPathEligible(subs);
  }

  /** The record of the instant tier verifies if and only if the LLM gave no answer, or gave it with a
      confidence. */
  lemma InstantVerifies(q: nat, draft: Option<Reply>, min: real, h: Record -> Digest, published: bool)
    ensures var r := Drafted(q, draft, min);
      && (Verifies(r, h(r), if published then Some(h(r)) else None, h)
          <==> (Drafts(draft) ==> draft.value.report.confidence.Value?))
      && (r.action.Resolve? <==> Drafts(draft))
  {}

  /** A draft without a confidence resolves the question all the same; its record says 0 and fails
      verification. */
  lemma UnratedDraftRejected(q: nat, provider: Provider, answer: Text, min: real, h: Record -> Digest)
    requires answer != []
    ensures var r := Drafted(q, Some(Reply(provider, Report(Value(answer), Missing, []))), min);
      && r.action == Resolve && r.result == Verdict(Some(answer), 0.0, [])
      && !Verifies(r, h(r), None, h)
  {}

  /** A reconciliation without a confidence is refunded, whatever the answers, and its record rejected. */
  lemma UnratedConsensusRejected(q: nat, subs: seq<Submission>, rule: Rule, report: Report, min: real, h: Record -> Digest)
    requires subs != [] && report.confidence.Missing?
    requires !(RuleVote(subs, rule).allAgree && AllEstablished(subs))
    ensures var r := Committed(q, subs, rule, Some(Reply(ByClaude, report)), None, min);
      r.kind == Claude && r.action == Refund && !Verifies(r, h(r), None, h)
  {
    PipelineVerifies(q, subs, rule, Some(Reply(ByClaude, report)), None, min, h, false);
    hide Verifies, RuleVote, FastPathEligible, AllEstablished, AllSubmitted;
  }

  /** Established workers who say the same in different words are unanimous to the pipeline, which
      credits all of them at full confidence; the verifier rejects that record. */
  lemma ParaphrasesRejected(q: nat, subs: seq<Submission>, stop: Stopwords, reply: Option<Reply>, escalated: Option<real>,
                            min: real, h: Record -> Digest)
    requires subs != [] && AllEstablished(subs) && !AllAlike(subs)
    requires forall i :: 0 <= i < |subs| ==> Similar(subs[i].answer, subs[0].answer, stop)
    ensures var r := Committed(q, subs, Exact(stop), reply, escalated, min);
      && r.kind == FastPath && r.result.confidence == 1.0 && |r.result.matching| == |subs|
      && !Verifies(r, h(r), None, h)
  {
    ParaphrasesAgree(subs, stop);
    AllAgreeSize(Relabeled(subs, stop));
    PipelineVerifies(q, subs, Exact(stop), reply, escalated, min, h, false);
    hide Similar, Normalize, Relabeled, VoteOf, Verifies, OneAnswer, AllEstablished;
    assert |subs| == 1 ==> AllAlike(subs);
  }

  lemma AllAgreeSize(subs: seq<Submission>)
    requires subs != []
    ensures VoteOf(subs).allAgree <==> |VoteOf(subs).matching| == |subs|
  {}

  /** "42", "the answer is 42", "42". */
  lemma FortyTwoRejected(q: nat, ids: (WorkerId, WorkerId, WorkerId), fillers: seq<Text>, w: Text, stop: Stopwords,
                         min: real, h: Record -> Digest)
    requires IsWord(w) && !stop(w) && fillers != [] && forall f :: f in fillers ==> IsWord(f) && stop(f)
    ensures var a := Spaced([w]);
      var subs := [Submission(ids.0, a, true), Submission(ids.1, Spaced(fillers + [w]), true), Submission(ids.2, a, true)];
      var r := Committed(q, subs, Exact(stop), None, None, min);
      && r.kind == FastPath && r.result.confidence == 1.0 && |r.result.matching| == 3
      && !Verifies(r, h(r), None, h)
  {
    var a, b := Spaced([w]), Spaced(fillers + [w]);
    var subs := [Submission(ids.0, a, true), Submission(ids.1, b, true), Submission(ids.2, a, true)];
    hide Spaced, Normalize, Words, Verifies, Committed, IsWord, Similar, Tokens;
    Paraphrase(fillers, w, stop);
    SameTokens(a, a, w, stop);
    SameTokens(b, a, w, stop);
    assert Norm(subs[0]) != Norm(subs[1]);
    ParaphrasesRejected(q, subs, stop, None, None, min, h);
  }

  /** "Rust", "the answer is Rust", "Python": the pipeline's plurality of two thirds is rejected too. */
  lemma RustRejected(q: nat, ids: (WorkerId, WorkerId, WorkerId), fillers: seq<Text>, w: Text, v: Text, stop: Stopwords,
                     min: real, h: Record -> Digest)
    requires IsWord(w) && IsWord(v) && !stop(w) && !stop(v) && v != w
    requires fillers != [] && forall f :: f in fillers ==> IsWord(f) && stop(f)
    ensures var a, b, c := Spaced([w]), Spaced(fillers + [w]), Spaced([v]);
      var subs := [Submission(ids.0, a, true), Submission(ids.1, b, true), Submission(ids.2, c, true)];
      var r := Committed(q, subs, Exact(stop), None, None, min);
      && r.kind == Fallback && r.result.confidence == 2.0 / 3.0 && r.result.matching == [ids.0, ids.1]
      && !Verifies(r, h(r), None, h)
  {
    var a, b, c := Spaced([w]), Spaced(fillers + [w]), Spaced([v]);
    var subs := [Submission(ids.0, a, true), Submission(ids.1, b, true), Submission(ids.2, c, true)];
    hide Spaced, Normalize, Words, Verifies, IsWord, Similar, Tokens, Relabeled, VoteOf;
    Paraphrase(fillers, w, stop);
    Paraphrase(fillers, v, stop);
    SameTokens(b, a, w, stop);
    OtherToken(c, a, v, w, stop);
    PairAgainstOne(subs, stop);
    PipelineVerifies(q, subs, Exact(stop), None, None, min, h, false);
  }

  // ---- What a verified vote record says ----------------------------------------------------------

  /** The record carries the exact-match vote on its submissions, up to the order of the workers, under
      the method that vote calls for. */
  ghost predicate CarriesExactVote(r: Record) {
    r.submissions != [] &&
      var vote := VoteOf(r.submissions);
      && r.kind == (if FastPathEligible(r.submissions) then FastPath else Fallback)
      && r.result.consensus == Some(vote.consensus) && r.result.confidence == vote.confidence
      && multiset(r.result.matching) == multiset(vote.matching)
  }

  /** A record of a vote verifies exactly when it hashes, carries the exact-match vote and decides by
      it, a fallback with the LLM's failure noted. */
  lemma VerifiedCarriesVote(r: Record, hash: Digest, expected: Option<Digest>, h: Record -> Digest)
    requires r.kind.FastPath? || r.kind.Fallback?
    requires forall s :: s in r.submissions ==> OneLine(s.workerId)
    ensures Verifies(r, hash, expected, h) <==>
      && h(r) == hash && (expected.Some? ==> expected.value == hash) && r.v == PROVENANCE_VERSION
      && CarriesExactVote(r) && (r.kind.Fallback? ==> r.llmError) && r.action == ExpectedAction(r)
  {
    hide VoteOf, SameMembers, AllAlike, AllEstablished, OneLiners, ExpectedAction;
    if r.submissions != [] {
      var vote := VoteOf(r.submissions);
      VotersAreOneLiners(r.submissions);
      SameMembersIsMultisetEquality(vote.matching, r.result.matching);
      VoteIsUnanimous(r.submissions);
    }
  }

  lemma VotersAreOneLiners(subs: seq<Submission>)
    requires subs != [] && forall s :: s in subs ==> OneLine(s.workerId)
    ensures OneLiners(VoteOf(subs).matching)
  {
    hide Normalize, IdsWith;
    var b := VoteUnfolds(subs);
    forall id | id in VoteOf(subs).matching ensures OneLine(id) {
      IdsWithMembers(subs, Norm(subs[b]), id);
    }
  }

  // ---- Payout ------------------------------------------------------------------------------------

  datatype Fn = CallResolve | CallRefund | CallOther

  /** A decoded on-chain settlement call. */
  datatype Call = Call(fn: Fn, questionId: nat, workers: seq<WorkerId>, losing: seq<WorkerId>)

  /** Submitters that are not among the matching workers, in order. */
  function Losing(subs: seq<Submission>, matching: seq<WorkerId>): seq<WorkerId>
    decreases |subs|
  {
    if subs == [] then []
    else
      var id := subs[|subs| - 1].workerId;
      Losing(subs[..|subs| - 1], matching) + if id in matching then [] else [id]
  }

  /** The resolve() call of settleResolved and settleInstantResolved; refund() otherwise. */
  function Settlement(r: Record, platform: WorkerId): Call {
    if r.action.Refund? then Call(CallRefund, r.questionId, [], [])
    else if Instant(r.kind) then Call(CallResolve, r.questionId, [platform], [])
    else Call(CallResolve, r.questionId, r.result.matching, Losing(r.submissions, r.result.matching))
  }

  predicate Pays(r: Record, call: Call) {
    && call.fn == (if r.action.Resolve? then CallResolve else CallRefund)
    && call.questionId == r.questionId
    && (call.fn.CallResolve? ==>
         if Instant(r.kind) then |call.workers| == 1 && call.losing == []
         else SameMembers(call.workers, r.result.matching)
              && SameMembers(call.losing, Losing(r.submissions, r.result.matching)))
  }

  method VerifyPayout(r: Record, call: Call) returns (ok: bool)
    ensures ok <==> Pays(r, call)
  {
    hide SameMembers, AllOk, Losing;
    NoChecks();
    var expectedFn := if r.action.Resolve? then CallResolve else CallRefund;
    var checks := Push([], "on-chain call is the decided one", call.fn == expectedFn);
    checks := Push(checks, "on-chain question id matches", call.questionId == r.questionId);
    if call.fn.CallResolve? {
      if Instant(r.kind) {
        checks := Push(checks, "instant tier credits exactly one address", |call.workers| == 1 && |call.losing| == 0);
      } else {
        var losing := Losing(r.submissions, r.result.matching);
        checks := Push(checks, "credited workers are exactly the matching workers", SameMembers(call.workers, r.result.matching));
        checks := Push(checks, "slashed workers are exactly the non-matching workers", SameMembers(call.losing, losing));
      }
    }
    ok := AllOk(checks);
  }

  /** The call that carries out the decision passes; the refund that replaces a failed resolve()
      does not. */
  lemma SettlementPays(r: Record, platform: WorkerId)
    ensures Pays(r, Settlement(r, platform))
    ensures r.action.Resolve? ==> !Pays(r, Call(CallRefund, r.questionId, [], []))
  {}

  lemma {:induction false} LosingAreSubmitters(subs: seq<Submission>, matching: seq<WorkerId>, id: WorkerId)
    ensures id in Losing(subs, matching) <==> id !in matching && exists s :: s in subs && s.workerId == id
    decreases |subs|
  {
    if subs != [] {
      var k := |subs| - 1;
      LosingAreSubmitters(subs[..k], matching, id);
      assert subs == subs[..k] + [subs[k]];
    }
  }

  /** A resolve() passes for a human-quorum record exactly when it credits and slashes the same
      workers, as multisets, that the pipeline's call does. */
  lemma PayoutIsExact(r: Record, call: Call)
    requires r.action.Resolve? && !Instant(r.kind) && call.fn.CallResolve? && call.questionId == r.questionId
    requires OneLiners(r.result.matching) && forall s :: s in r.submissions ==> OneLine(s.workerId)
    ensures Pays(r, call) <==>
      && multiset(call.workers) == multiset(r.result.matching)
      && multiset(call.losing) == multiset(Losing(r.submissions, r.result.matching))
  {
    hide Lines, SortIds, Losing;
    var losing := Losing(r.submissions, r.result.matching);
    forall id | id in losing ensures OneLine(id) { LosingAreSubmitters(r.submissions, r.result.matching, id); }
    SameMembersIsMultisetEquality(r.result.matching, call.workers);
    SameMembersIsMultisetEquality(losing, call.losing);
  }

  function Submitters(subs: seq<Submission>): seq<WorkerId>
    decreases |subs|
  {
    if subs == [] then [] else Submitters(subs[..|subs| - 1]) + [subs[|subs| - 1].workerId]
  }

  predicate AllDistinct(ids: seq<WorkerId>) { forall i, j :: 0 <= i < j < |ids| ==> ids[i] != ids[j] }

  lemma {:induction false} LosingCount(subs: seq<Submission>, matching: seq<WorkerId>, id: WorkerId)
    ensures multiset(Losing(subs, matching))[id] == if id in matching then 0 else multiset(Submitters(subs))[id]
    decreases |subs|
  {
    if subs != [] { LosingCount(subs[..|subs| - 1], matching, id); }
  }

  lemma {:induction false} DistinctCount(ids: seq<WorkerId>, id: WorkerId)
    requires AllDistinct(ids)
    ensures multiset(ids)[id] == if id in ids then 1 else 0
    decreases |ids|
  {
    if ids != [] {
      var k := |ids| - 1;
      DistinctCount(ids[..k], id);
      assert ids == ids[..k] + [ids[k]];
      assert ids[k] !in ids[..k];
    }
  }

  /** Every submitter is either credited or slashed, never both, and nobody else is. */
  lemma PayoutPartitionsSubmitters(subs: seq<Submission>, matching: seq<WorkerId>)
    requires AllDistinct(Submitters(subs)) && AllDistinct(matching)
    requires forall id :: id in matching ==> id in Submitters(subs)
    ensures multiset(matching) + multiset(Losing(subs, matching)) == multiset(Submitters(subs))
  {
    hide Losing, Submitters, AllDistinct;
    forall id ensures multiset(matching)[id] + multiset(Losing(subs, matching))[id] == multiset(Submitters(subs))[id] {
      LosingCount(subs, matching, id);
      DistinctCount(matching, id);
      DistinctCount(Submitters(subs), id);
    }
  }
}
