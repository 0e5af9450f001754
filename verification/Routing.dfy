/** OmniRoute: which models are eligible for a request, and in what order they are tried. */
module Routing {
  import opened Wrappers
  import opened Strings
  import opened Sorting
  import opened Breaker

  datatype Capability =
    | TextGeneration | CodeGeneration | Vision | AudioInput | AudioOutput
    | ToolCalling | StructuredOutput | LongContext | Reasoning | Streaming

  datatype Profile =
    | Cheapest | Fastest | BestAvailable | FreeFirst | QualityFirst | Code | VisionFirst | LongContextFirst

  datatype Health = Healthy | Degraded | Unavailable | Unknown

  datatype Model = Model(
    modelId: string, providerId: string, capabilities: set<Capability>, contextWindow: int,
    inputCost: real, outputCost: real, latency: real, quality: real)

  datatype Requirement = Requirement(
    required: set<Capability>, preferred: set<Capability>, minimumContext: int,
    maximumLatency: Option<real>, maximumCost: Option<real>,
    preferredProviders: seq<string>, excludedProviders: seq<string>,
    preferredModels: seq<string>, excludedModels: seq<string>, profile: Profile)

  /** A request: its requirement, the characters of its messages, and its output limit if it has one. */
  datatype Request = Request(requirement: Requirement, totalChars: nat, maxOutputTokens: Option<nat>)

  datatype Candidate = Candidate(model: Model, score: real)

  datatype Reason =
    | NotRegistered | BreakerOpen | ReportsUnavailable | ProviderExcluded | ModelExcluded
    | MissingCapabilities | ContextTooSmall | TooExpensive | TooSlow

  /** The parts of the surroundings that routing consults: provider health by id, and the score formula. */
  datatype Setting = Setting(providers: map<string, Health>, score: (Model, Request) -> real)

  function InputTokens(r: Request): int { if r.totalChars / 4 >= 1 then r.totalChars / 4 else 1 }

  function OutputTokens(r: Request): int {
    if r.maxOutputTokens.Some? && r.maxOutputTokens.value != 0 then r.maxOutputTokens.value else 500
  }

  function EstimatedCost(m: Model, r: Request): real {
    (InputTokens(r) as real / 1000000.0) * m.inputCost + (OutputTokens(r) as real / 1000000.0) * m.outputCost
  }

  /** The seven checks in their order; the first that fails is the reason for the rejection. */
  function Verdict(m: Model, r: Request, s: Setting, open: bool): Option<Reason> {
    var q := r.requirement;
    if m.providerId !in s.providers then Some(NotRegistered)
    else if open then Some(BreakerOpen)
    else if s.providers[m.providerId] == Unavailable then Some(ReportsUnavailable)
    else if m.providerId in q.excludedProviders then Some(ProviderExcluded)
    else if m.modelId in q.excludedModels then Some(ModelExcluded)
    else if !(q.required <= m.capabilities) then Some(MissingCapabilities)
    else if m.contextWindow < q.minimumContext + InputTokens(r) then Some(ContextTooSmall)
    else if q.maximumCost.Some? && EstimatedCost(m, r) > q.maximumCost.value then Some(TooExpensive)
    else if q.maximumLatency.Some? && m.latency > q.maximumLatency.value then Some(TooSlow)
    else None
  }

  /** What a model must satisfy, the checks taken together. */
  ghost predicate Satisfies(m: Model, r: Request, s: Setting, open: bool) {
    var q := r.requirement;
    && m.providerId in s.providers && !open && s.providers[m.providerId] != Unavailable
    && m.providerId !in q.excludedProviders && m.modelId !in q.excludedModels
    && q.required <= m.capabilities
    && m.contextWindow >= q.minimumContext + InputTokens(r)
    && (q.maximumCost.Some? ==> EstimatedCost(m, r) <= q.maximumCost.value)
    && (q.maximumLatency.Some? ==> m.latency <= q.maximumLatency.value)
  }

  /** The candidates in the order of registration; `open` tells for each model what the breaker answered. */
  ghost function Eligible(models: seq<Model>, r: Request, s: Setting, open: Model -> bool): seq<Candidate> {
    if models == [] then []
    else
      var n := |models| - 1;
      Eligible(models[..n], r, s, open)
      + if Verdict(models[n], r, s, open(models[n])) == None then [Candidate(models[n], s.score(models[n], r))] else []
  }

  /** Descending on score, quality, minus the length of the id, and the id. */
  predicate RankedAbove(a: Candidate, b: Candidate) {
    if a.score != b.score then a.score > b.score
    else if a.model.quality != b.model.quality then a.model.quality > b.model.quality
    else if |a.model.modelId| != |b.model.modelId| then |a.model.modelId| < |b.model.modelId|
    else StringLeq(b.model.modelId, a.model.modelId)
  }

  /** Best first: by descending score, then quality, then ascending length of the id, then descending id. */
  ghost predicate BestFirst(cs: seq<Candidate>) {
    forall i, j :: 0 <= i < j < |cs| ==>
      && cs[i].score >= cs[j].score
      && (cs[i].score == cs[j].score ==> cs[i].model.quality >= cs[j].model.quality)
      && (cs[i].score == cs[j].score && cs[i].model.quality == cs[j].model.quality ==>
            |cs[i].model.modelId| <= |cs[j].model.modelId|)
      && (cs[i].score == cs[j].score && cs[i].model.quality == cs[j].model.quality
          && |cs[i].model.modelId| == |cs[j].model.modelId| ==>
            StringLeq(cs[j].model.modelId, cs[i].model.modelId))
  }

  lemma {:induction false} RankedIsBestFirst(cs: seq<Candidate>)
    ensures BestFirst(Sort(cs, RankedAbove))
  {
    hide Sort, StringLeq;
    RankingIsTotal();
    SortSorts(cs, RankedAbove);
  }

  ghost predicate DistinctModels(models: seq<Model>) {
    forall i, j :: 0 <= i < j < |models| ==> models[i].modelId != models[j].modelId
  }

  ghost predicate Increasing(clock: nat -> real) {
    forall i: nat, j: nat :: i <= j ==> clock(i) <= clock(j)
  }

  /** What the breaker answers about each model's provider when it is asked about `models[i]` at `clock(i)`. */
  ghost function Answers(models: seq<Model>, h: seq<Outcome>, threshold: int, cooldown: real,
                         clock: nat -> real): Model -> bool {
    m => exists i: nat :: i < |models| && models[i] == m && Open(h, m.providerId, clock(i), threshold, cooldown)
  }

  lemma {:induction false} AnswerAt(models: seq<Model>, i: nat, h: seq<Outcome>, threshold: int, cooldown: real,
                                    clock: nat -> real)
    requires i < |models| && DistinctModels(models)
    ensures Answers(models, h, threshold, cooldown, clock)(models[i])
      == Open(h, models[i].providerId, clock(i), threshold, cooldown)
  {
    hide Streak, LastFailure, Open;
    forall j: nat | j < |models| && models[j] == models[i] ensures j == i {}
  }

  /** The routing decision; `clock(i)` is the time at which model `i` is looked at. */
  method EvaluateRoute(models: seq<Model>, r: Request, s: Setting, breaker: CircuitBreaker, clock: nat -> real)
    returns (candidates: seq<Candidate>, rejected: map<string, Reason>)
    requires breaker.Valid() && DistinctModels(models) && Increasing(clock) && breaker.clock <= clock(0)
    modifies breaker`openUntil, breaker`clock
    ensures breaker.Valid() && old(breaker.clock) <= breaker.clock <= clock(|models|)
    ensures var open := Answers(models, breaker.history, breaker.failureThreshold, breaker.cooldownSeconds, clock);
      && candidates == Sort(Eligible(models, r, s, open), RankedAbove) && BestFirst(candidates)
      && (forall c :: c in candidates <==> IsCandidate(c, models, r, s, open))
      && Rejects(models, |models|, r, s, open, rejected)
  {
    hide Eligible, Streak, LastFailure, Open, Answers, Verdict, Breaker.CircuitBreaker.Valid, BestFirst, IsCandidate;
    ghost var open := Answers(models, breaker.history, breaker.failureThreshold, breaker.cooldownSeconds, clock);
    var eligible: seq<Candidate> := [];
    rejected := map[];
    EligibleOfNothing(models[..0], r, s, open);
    for i := 0 to |models|
      invariant breaker.Valid() && old(breaker.clock) <= breaker.clock <= clock(i)
      invariant eligible == Eligible(models[..i], r, s, open)
      invariant Rejects(models, i, r, s, open, rejected)
    {
      var m := models[i];
      EligibleStep(models, i, r, s, open);
      AnswerAt(models, i, breaker.history, breaker.failureThreshold, breaker.cooldownSeconds, clock);
      var reason := Some(NotRegistered);
      VerdictUnregistered(m, r, s, open(m));
      if m.providerId in s.providers {
        var isOpen := breaker.IsOpen(m.providerId, clock(i));
        reason := OtherChecks(m, r, s, isOpen);
      }
      assert reason == Verdict(m, r, s, open(m));
      RejectsStep(models, i, r, s, open, rejected);
      if reason.Some? {
        rejected := rejected[m.modelId := reason.value];
      } else {
        eligible := eligible + [Candidate(m, s.score(m, r))];
      }
    }
    assert models[..|models|] == models;
    candidates := Sort(eligible, RankedAbove);
    RankedIsBestFirst(eligible);
    RankedElements(models, r, s, open);
  }

  /** `rejected` holds the first `n` models that fail a check, each with its reason, and no others. */
  ghost predicate Rejects(models: seq<Model>, n: nat, r: Request, s: Setting, open: Model -> bool,
                          rejected: map<string, Reason>)
    requires n <= |models|
  {
    && (forall i :: 0 <= i < n ==>
      match Verdict(models[i], r, s, open(models[i]))
      case Some(reason) => models[i].modelId in rejected && rejected[models[i].modelId] == reason
      case None => models[i].modelId !in rejected)
    && (forall id :: id in rejected ==> exists i :: 0 <= i < n && models[i].modelId == id)
  }

  lemma {:induction false} RejectsStep(models: seq<Model>, i: nat, r: Request, s: Setting, open: Model -> bool,
                                       rejected: map<string, Reason>)
    requires i < |models| && DistinctModels(models) && Rejects(models, i, r, s, open, rejected)
    ensures var reason := Verdict(models[i], r, s, open(models[i]));
      Rejects(models, i + 1, r, s, open, if reason.Some? then rejected[models[i].modelId := reason.value] else rejected)
  {
    hide Verdict;
    assert models[i].modelId !in rejected by {
      assert forall k :: 0 <= k < i ==> models[k].modelId != models[i].modelId;
    }
  }

  lemma {:induction false} VerdictUnregistered(m: Model, r: Request, s: Setting, open: bool)
    ensures m.providerId !in s.providers ==> Verdict(m, r, s, open) == Some(NotRegistered)
  {}

  method OtherChecks(m: Model, r: Request, s: Setting, isOpen: bool) returns (reason: Option<Reason>)
    requires m.providerId in s.providers
    ensures reason == Verdict(m, r, s, isOpen)
  {
    var q := r.requirement;
    if isOpen { return Some(BreakerOpen); }
    if s.providers[m.providerId] == Unavailable { return Some(ReportsUnavailable); }
    if m.providerId in q.excludedProviders { return Some(ProviderExcluded); }
    if m.modelId in q.excludedModels { return Some(ModelExcluded); }
    if !(q.required <= m.capabilities) { return Some(MissingCapabilities); }
    var neededContext := q.minimumContext + InputTokens(r);
    if m.contextWindow < neededContext { return Some(ContextTooSmall); }
    if q.maximumCost.Some? && EstimatedCost(m, r) > q.maximumCost.value { return Some(TooExpensive); }
    if q.maximumLatency.Some? && m.latency > q.maximumLatency.value { return Some(TooSlow); }
    return None;
  }

  lemma {:induction false} EligibleOfNothing(models: seq<Model>, r: Request, s: Setting, open: Model -> bool)
    requires models == []
    ensures Eligible(models, r, s, open) == []
  {}

  lemma {:induction false} EligibleStep(models: seq<Model>, i: nat, r: Request, s: Setting, open: Model -> bool)
    requires i < |models|
    ensures Eligible(models[..i + 1], r, s, open) == Eligible(models[..i], r, s, open)
      + if Verdict(models[i], r, s, open(models[i])) == None then [Candidate(models[i], s.score(models[i], r))] else []
  {
    assert models[..i + 1][..i] == models[..i];
  }

  // ---------------------------------------------------------------- the decision as a whole

  /** Eligible means that all checks hold: none is implied by the others' order. */
  lemma {:induction false} EligibleIffSatisfies(m: Model, r: Request, s: Setting, open: bool)
    ensures Verdict(m, r, s, open) == None <==> Satisfies(m, r, s, open)
  {}

  ghost predicate IsCandidate(c: Candidate, models: seq<Model>, r: Request, s: Setting, open: Model -> bool) {
    c.model in models && c.score == s.score(c.model, r) && Satisfies(c.model, r, s, open(c.model))
  }

  lemma {:induction false} EligibleElements(models: seq<Model>, r: Request, s: Setting, open: Model -> bool)
    ensures forall c :: c in Eligible(models, r, s, open) <==> IsCandidate(c, models, r, s, open)
    decreases |models|
  {
    hide Verdict, Satisfies;
    if models != [] {
      var n := |models| - 1;
      EligibleElements(models[..n], r, s, open);
      EligibleIffSatisfies(models[n], r, s, open(models[n]));
      assert models == models[..n] + [models[n]];
    }
  }

  lemma {:induction false} RankedElements(models: seq<Model>, r: Request, s: Setting, open: Model -> bool)
    ensures forall c :: c in Sort(Eligible(models, r, s, open), RankedAbove) <==> IsCandidate(c, models, r, s, open)
  {
    hide Sort, IsCandidate, Eligible;
    var e := Eligible(models, r, s, open);
    EligibleElements(models, r, s, open);
    forall c ensures c in Sort(e, RankedAbove) <==> c in e {
      assert c in multiset(Sort(e, RankedAbove)) <==> c in multiset(e);
    }
  }

  // ---------------------------------------------------------------- the checks one by one

  /** The checks in the order in which they are made. */
  const CHECKS := [
    NotRegistered, BreakerOpen, ReportsUnavailable, ProviderExcluded, ModelExcluded, MissingCapabilities,
    ContextTooSmall, TooExpensive, TooSlow]

  /** What it means to fail one check. */
  ghost predicate Fails(check: Reason, m: Model, r: Request, s: Setting, open: bool) {
    var q := r.requirement;
    match check
    case NotRegistered => m.providerId !in s.providers
    case BreakerOpen => open
    case ReportsUnavailable => m.providerId in s.providers && s.providers[m.providerId] == Unavailable
    case ProviderExcluded => m.providerId in q.excludedProviders
    case ModelExcluded => m.modelId in q.excludedModels
    case MissingCapabilities => exists c :: c in q.required && c !in m.capabilities
    case ContextTooSmall => q.minimumContext + InputTokens(r) > m.contextWindow
    case TooExpensive => q.maximumCost.Some? && q.maximumCost.value < EstimatedCost(m, r)
    case TooSlow => q.maximumLatency.Some? && q.maximumLatency.value < m.latency
  }

  /** The reason given is the first check that fails, and a model that fails none is eligible. */
  lemma {:induction false} ReasonIsFirstFailure(m: Model, r: Request, s: Setting, open: bool, k: nat)
    requires k < |CHECKS|
    ensures Verdict(m, r, s, open) == Some(CHECKS[k])
      <==> Fails(CHECKS[k], m, r, s, open) && forall j :: 0 <= j < k ==> !Fails(CHECKS[j], m, r, s, open)
    ensures Verdict(m, r, s, open) == None <==> forall j :: 0 <= j < |CHECKS| ==> !Fails(CHECKS[j], m, r, s, open)
  {
    hide EstimatedCost, InputTokens;
    FailsInOrder(m, r, s, open);
  }

  lemma {:induction false} FailsInOrder(m: Model, r: Request, s: Setting, open: bool)
    ensures |CHECKS| == 9
    ensures CHECKS[0] == NotRegistered && CHECKS[1] == BreakerOpen && CHECKS[2] == ReportsUnavailable
    ensures CHECKS[3] == ProviderExcluded && CHECKS[4] == ModelExcluded && CHECKS[5] == MissingCapabilities
    ensures CHECKS[6] == ContextTooSmall && CHECKS[7] == TooExpensive && CHECKS[8] == TooSlow
  {}

  /**
   The estimates behind two of the checks: a token for every four characters, at least one; the
   output tokens asked for, or 500; and prices in dollars for a million tokens.
   */
  lemma {:induction false} EstimatesAre(m: Model, r: Request)
    ensures InputTokens(r) >= 1 && 4 * InputTokens(r) > r.totalChars - 4
    ensures InputTokens(r) == 1 || 4 * InputTokens(r) <= r.totalChars
    ensures r.maxOutputTokens == Some(OutputTokens(r))
      || (OutputTokens(r) == 500 && r.maxOutputTokens in {None, Some(0)})
    ensures r.maxOutputTokens != Some(0) && r.maxOutputTokens.Some? ==> r.maxOutputTokens == Some(OutputTokens(r))
    ensures 1000000.0 * EstimatedCost(m, r)
         == InputTokens(r) as real * m.inputCost + OutputTokens(r) as real * m.outputCost
  {}

  /**
   Every model is among the candidates or among the rejected, never both, and it is a candidate
   exactly if it satisfies everything the request asks for.
   */
  lemma {:induction false} Partition(models: seq<Model>, r: Request, s: Setting, open: Model -> bool,
                                     rejected: map<string, Reason>)
    requires DistinctModels(models) && Rejects(models, |models|, r, s, open, rejected)
    ensures forall m :: m in models ==>
      (m.modelId in rejected <==> !Satisfies(m, r, s, open(m)))
      && (Candidate(m, s.score(m, r)) in Sort(Eligible(models, r, s, open), RankedAbove)
          <==> Satisfies(m, r, s, open(m)))
  {
    hide Verdict, Satisfies;
    EligibleElements(models, r, s, open);
    var e := Eligible(models, r, s, open);
    var ranked := Sort(e, RankedAbove);
    forall c ensures c in ranked <==> c in e {
      assert c in ranked <==> c in multiset(ranked);
      assert c in e <==> c in multiset(e);
    }
    forall m | m in models
      ensures m.modelId in rejected <==> !Satisfies(m, r, s, open(m))
    {
      var i :| 0 <= i < |models| && models[i] == m;
      EligibleIffSatisfies(m, r, s, open(m));
    }
  }

  lemma {:induction false} RankingIsTotal()
    ensures TotalPreorder(RankedAbove)
  {
    forall x: Candidate, y: Candidate ensures RankedAbove(x, y) || RankedAbove(y, x) {
      StringLeqTotal(x.model.modelId, y.model.modelId);
    }
    forall x: Candidate, y: Candidate, z: Candidate | RankedAbove(x, y) && RankedAbove(y, z) ensures RankedAbove(x, z) {
      if StringLeq(z.model.modelId, y.model.modelId) && StringLeq(y.model.modelId, x.model.modelId) {
        StringLeqTransitive(z.model.modelId, y.model.modelId, x.model.modelId);
      }
    }
  }

  /** Candidates for registered models never tie, since their ids differ. */
  lemma {:induction false} ModelsSeparate(models: seq<Model>, r: Request, s: Setting, open: Model -> bool)
    requires DistinctModels(models)
    ensures Separates(RankedAbove, multiset(Eligible(models, r, s, open)))
  {
    hide Satisfies, Eligible;
    EligibleElements(models, r, s, open);
    var e := multiset(Eligible(models, r, s, open));
    forall x, y | x in e && y in e && RankedAbove(x, y) && RankedAbove(y, x) ensures x == y {
      assert IsCandidate(x, models, r, s, open) && IsCandidate(y, models, r, s, open);
      StringLeqAntisymmetric(x.model.modelId, y.model.modelId);
      var i :| 0 <= i < |models| && models[i] == x.model;
      var j :| 0 <= j < |models| && models[j] == y.model;
      assert i == j;
    }
  }

  lemma {:induction false} EligibleCounts(models: seq<Model>, r: Request, s: Setting, open: Model -> bool, c: Candidate)
    ensures multiset(Eligible(models, r, s, open))[c]
         == if Verdict(c.model, r, s, open(c.model)) == None && c.score == s.score(c.model, r)
            then multiset(models)[c.model] else 0
    decreases |models|
  {
    hide Verdict;
    if models != [] {
      var n := |models| - 1;
      EligibleCounts(models[..n], r, s, open, c);
      assert models == models[..n] + [models[n]];
    }
  }

  /** The ranking does not depend on the order in which the models were registered. */
  lemma {:induction false} RankingIgnoresRegistration(
    models: seq<Model>, models': seq<Model>, r: Request, s: Setting, open: Model -> bool)
    requires DistinctModels(models) && multiset(models) == multiset(models')
    ensures Sort(Eligible(models, r, s, open), RankedAbove) == Sort(Eligible(models', r, s, open), RankedAbove)
  {
    hide Eligible, Verdict;
    var e, e' := Eligible(models, r, s, open), Eligible(models', r, s, open);
    forall c ensures multiset(e)[c] == multiset(e')[c] {
      EligibleCounts(models, r, s, open, c);
      EligibleCounts(models', r, s, open, c);
    }
    RankingIsTotal();
    ModelsSeparate(models, r, s, open);
    SortIgnoresOrder(e, e', RankedAbove);
  }

  // ---------------------------------------------------------------- escalation

  function Escalate(q: Requirement, failureOrReplan: bool, uncertain: bool, risky: bool): Requirement {
    var up := failureOrReplan || uncertain || risky;
    q.(required := if up then q.required + {Reasoning, StructuredOutput} else q.required,
       profile := if up then QualityFirst else q.profile,
       maximumLatency := if failureOrReplan then None else q.maximumLatency)
  }

  /** Escalation asks for quality first, and without any of its three grounds it changes nothing. */
  lemma {:induction false} EscalationAsks(q: Requirement, failureOrReplan: bool, uncertain: bool, risky: bool)
    ensures var e := Escalate(q, failureOrReplan, uncertain, risky);
      && (failureOrReplan || uncertain || risky ==> e.profile == QualityFirst)
      && (!failureOrReplan && !uncertain && !risky ==> e == q)
      && q.required <= e.required <= q.required + {Reasoning, StructuredOutput}
      && e == q.(required := e.required, profile := e.profile, maximumLatency := e.maximumLatency)
  {}

  /** Escalating twice is escalating once. */
  lemma {:induction false} EscalateTwice(q: Requirement, failureOrReplan: bool, uncertain: bool, risky: bool)
    ensures var e := Escalate(q, failureOrReplan, uncertain, risky); Escalate(e, failureOrReplan, uncertain, risky) == e
  {}

  /**
   Escalation admits exactly the models that also reason and give structured output; only after
   a failure or replan does it drop the latency limit, and can then admit others.
   */
  lemma {:induction false} EscalationNarrows(m: Model, r: Request, s: Setting, open: bool, failureOrReplan: bool,
                                             uncertain: bool, risky: bool)
    ensures var r' := r.(requirement := Escalate(r.requirement, failureOrReplan, uncertain, risky));
      var timeless := r.(requirement := r.requirement.(maximumLatency := None));
      Satisfies(m, r', s, open) <==>
        && Satisfies(m, if failureOrReplan then timeless else r, s, open)
        && (failureOrReplan || uncertain || risky ==> {Reasoning, StructuredOutput} <= m.capabilities)
  {}
}
