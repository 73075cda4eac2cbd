/** The Go orchestrator's routing engine: the provider catalogue per task type, the per
    (provider, model) health record, fallback lists, scoring, confidence, the reasoning string and
    the precedence of `RouteRequest`. Time is an explicit `now` in nanoseconds; the catalogue is a
    parameter (`AvailableProviders()` is the built-in one) so that the lemmas hold for any. */
module Routing {
  import opened Wrappers
  import opened Text

  datatype Provider = Provider(
    name: string,
    model: string,
    costPer1K: real,
    avgLatency: int,
    reliability: real,
    maxTokens: int,
    capabilities: seq<string>)

  /** The zero value Go returns from `scoreProviders` when no provider beats the sentinel. */
  function ZeroProvider(): Provider { Provider("", "", 0.0, 0, 0.0, 0, []) }

  datatype RoutingResult = RoutingResult(
    provider: string,
    model: string,
    confidence: real,
    reasoning: string,
    fallbacks: seq<Provider>)

  datatype ProviderStatus = ProviderStatus(
    name: string,
    model: string,
    healthy: bool,
    lastCheck: int,
    errorCount: int,
    lastError: string)

  const Minute: int := 60_000_000_000
  /** A status older than this is ignored. */
  const StaleAfter: int := 5 * Minute
  /** More failures than this mark an entry unhealthy. */
  const MaxTolerated: int := 5

  /** `availableProviders`. */
  function AvailableProviders(): map<string, seq<Provider>>
  {
    map[
      "text-generation" := [
        Provider("openai", "gpt-4", 0.03, 2000, 0.95, 8000, ["text-generation", "reasoning", "code"]),
        Provider("openai", "gpt-3.5-turbo", 0.002, 1000, 0.90, 4000, ["text-generation", "conversation"]),
        Provider("claude", "claude-3-opus", 0.015, 3000, 0.98, 200000, ["text-generation", "reasoning", "analysis"]),
        Provider("claude", "claude-3-sonnet", 0.003, 1500, 0.95, 200000, ["text-generation", "conversation"]),
        Provider("gemini", "gemini-pro", 0.001, 2500, 0.85, 30000, ["text-generation", "multimodal"])],
      "summarization" := [
        Provider("claude", "claude-3-sonnet", 0.003, 1500, 0.95, 200000, ["summarization", "analysis"]),
        Provider("openai", "gpt-3.5-turbo", 0.002, 1000, 0.90, 4000, ["summarization"])],
      "code-generation" := [
        Provider("openai", "gpt-4", 0.03, 2000, 0.95, 8000, ["code-generation", "debugging"]),
        Provider("claude", "claude-3-opus", 0.015, 3000, 0.98, 200000, ["code-generation", "code-review"])]
    ]
  }

  /** The list for a task type, the text-generation list for an unknown one (nil if that is
      missing too). */
  function ProvidersFor(catalog: map<string, seq<Provider>>, taskType: string): seq<Provider>
  {
    if taskType in catalog then catalog[taskType]
    else if "text-generation" in catalog then catalog["text-generation"]
    else []
  }

  /** The status key `provider:model`. */
  function StatusKey(provider: string, model: string): string
  {
    provider + ":" + model
  }

  predicate Excluded(p: Provider, excludeProvider: string, excludeModel: string)
  {
    p.name == excludeProvider && p.model == excludeModel
  }

  // ----------------------------------------------------------------------------------------
  // Health state

  /** The entry `UpdateProviderStatus` leaves behind, given the entry found (None: a fresh one,
      created healthy). */
  function StatusAfter(prior: Option<ProviderStatus>, provider: string, model: string,
                       healthy: bool, err: Option<string>, now: int): ProviderStatus
  {
    var base := if prior.Some? then prior.value else ProviderStatus(provider, model, true, now, 0, "");
    if healthy then base.(lastCheck := now, errorCount := 0, lastError := "", healthy := true)
    else
      var count := base.errorCount + 1;
      base.(lastCheck := now, errorCount := count,
            lastError := if err.Some? then err.value else base.lastError,
            healthy := if count > MaxTolerated then false else base.healthy)
  }

  /** What one update does to an entry: it is stamped `now` and keeps its pair (an unseen pair
      starts healthy with no errors); a success clears the error count and text and makes it
      healthy; a failure counts one more error, records its text if any, and leaves the entry
      healthy only while it was healthy and has at most five errors. */
  lemma StatusAfterCases(prior: Option<ProviderStatus>, provider: string, model: string,
                         healthy: bool, err: Option<string>, now: int)
    ensures var s := StatusAfter(prior, provider, model, healthy, err, now);
      && s.lastCheck == now
      && (prior.Some? ==> s.name == prior.value.name && s.model == prior.value.model)
      && (prior.None? ==> s.name == provider && s.model == model)
      && (healthy ==> s.healthy && s.errorCount == 0 && s.lastError == "")
      && (!healthy ==>
            var base := if prior.Some? then prior.value else ProviderStatus(provider, model, true, now, 0, "");
            && s.errorCount == base.errorCount + 1
            && s.lastError == (if err.Some? then err.value else base.lastError)
            && (s.healthy <==> base.healthy && s.errorCount <= MaxTolerated))
  {
  }

  /** The entry after `k` failures (without error text) in a row at time `now`. */
  function AfterFailures(prior: Option<ProviderStatus>, provider: string, model: string, k: nat,
                         now: int): ProviderStatus
    decreases k
  {
    if k == 0 then
      (if prior.Some? then prior.value else ProviderStatus(provider, model, true, now, 0, ""))
    else StatusAfter(Some(AfterFailures(prior, provider, model, k - 1, now)), provider, model,
                     false, None, now)
  }

  /** From a healthy entry with c <= 5 recorded errors (or none at all), k more failures leave it
      healthy exactly while c + k <= 5: five failures in a row are tolerated, the sixth marks it
      unhealthy. */
  lemma {:induction false} FailuresUntilUnhealthy(prior: Option<ProviderStatus>, provider: string,
                                                   model: string, k: nat, now: int)
    requires prior.Some? ==> prior.value.healthy && 0 <= prior.value.errorCount <= MaxTolerated
    ensures var c := if prior.Some? then prior.value.errorCount else 0;
            var s := AfterFailures(prior, provider, model, k, now);
            s.errorCount == c + k && (s.healthy <==> c + k <= MaxTolerated)
    decreases k
  {
    if k > 0 {
      FailuresUntilUnhealthy(prior, provider, model, k - 1, now);
    }
  }

  /** The `providerStatus` table. */
  class HealthRegistry {
    var status: map<string, ProviderStatus>

    constructor ()
      ensures status == map[]
    {
      status := map[];
    }

    function Lookup(provider: string, model: string): Option<ProviderStatus>
      reads this
    {
      var key := StatusKey(provider, model);
      if key in status then Some(status[key]) else None
    }

    /** `UpdateProviderStatus`: replaces the entry under `provider:model` by `StatusAfter` of
        the old one; every other key keeps its entry. */
    method UpdateProviderStatus(provider: string, model: string, healthy: bool, err: Option<string>,
                                now: int)
      modifies this
      ensures status == old(status)[StatusKey(provider, model) :=
                                      StatusAfter(old(Lookup(provider, model)), provider, model,
                                                  healthy, err, now)]
    {
      var key := StatusKey(provider, model);
      var current: ProviderStatus;
      if key in status {
        current := status[key];
      } else {
        current := ProviderStatus(provider, model, true, now, 0, "");
        status := status[key := current];
      }
      current := current.(lastCheck := now);
      if healthy {
        current := current.(errorCount := 0, lastError := "", healthy := true);
      } else {
        current := current.(errorCount := current.errorCount + 1);
        if err.Some? {
          current := current.(lastError := err.value);
        }
        if current.errorCount > MaxTolerated {
          current := current.(healthy := false);
        }
      }
      status := status[key := current];
    }

    /** `IsProviderHealthy`: an unknown pair, or one last checked more than five minutes ago,
        counts as healthy; otherwise the recorded flag decides. */
    function IsProviderHealthy(provider: string, model: string, now: int): (healthy: bool)
      reads this
      ensures Lookup(provider, model).None? ==> healthy
      ensures Lookup(provider, model).Some? && now - Lookup(provider, model).value.lastCheck > StaleAfter
              ==> healthy
      ensures !healthy ==> Lookup(provider, model).Some? && !Lookup(provider, model).value.healthy
      ensures Lookup(provider, model).Some? && now - Lookup(provider, model).value.lastCheck <= StaleAfter
              ==> healthy == Lookup(provider, model).value.healthy
    {
      var s := Lookup(provider, model);
      if s.None? then true
      else if now - s.value.lastCheck > StaleAfter then true
      else s.value.healthy
    }

    /** The providers of `ps`, in order, that are not the excluded pair and are healthy. */
    function Survivors(ps: seq<Provider>, excludeProvider: string, excludeModel: string, now: int)
      : (r: seq<Provider>)
      reads this
      ensures forall x :: x in r <==>
                x in ps && !Excluded(x, excludeProvider, excludeModel)
                && IsProviderHealthy(x.name, x.model, now)
      decreases |ps|
    {
      if |ps| == 0 then []
      else
        var init := Survivors(ps[..|ps| - 1], excludeProvider, excludeModel, now);
        var p := ps[|ps| - 1];
        assert ps == ps[..|ps| - 1] + [p];
        if !Excluded(p, excludeProvider, excludeModel) && IsProviderHealthy(p.name, p.model, now)
        then init + [p] else init
    }

    /** `GetFallbackProviders`: the survivors of the task's list, rearranged by the exchange sort
        into non-increasing reliability. */
    method GetFallbackProviders(catalog: map<string, seq<Provider>>, taskType: string,
                                excludeProvider: string, excludeModel: string, now: int)
      returns (fallbacks: seq<Provider>)
      ensures multiset(fallbacks)
              == multiset(Survivors(ProvidersFor(catalog, taskType), excludeProvider, excludeModel, now))
      ensures ByReliability(fallbacks)
    {
      var ps := ProvidersFor(catalog, taskType);
      var kept := CollectSurvivors(ps, excludeProvider, excludeModel, now);
      var a := new Provider[|kept|](k requires 0 <= k < |kept| => kept[k]);
      assert a[..] == kept;
      ExchangeSort(a);
      fallbacks := a[..];
    }

    /** The filtering loop of `GetFallbackProviders`. */
    method CollectSurvivors(ps: seq<Provider>, excludeProvider: string, excludeModel: string, now: int)
      returns (kept: seq<Provider>)
      ensures kept == Survivors(ps, excludeProvider, excludeModel, now)
    {
      kept := [];
      var i := 0;
      while i < |ps|
        invariant 0 <= i <= |ps|
        invariant kept == Survivors(ps[..i], excludeProvider, excludeModel, now)
      {
        assert ps[..i + 1][..i] == ps[..i];
        var p := ps[i];
        if !Excluded(p, excludeProvider, excludeModel) && IsProviderHealthy(p.name, p.model, now) {
          kept := kept + [p];
        }
        i := i + 1;
      }
      assert ps[..|ps|] == ps;
    }
  }

  // ----------------------------------------------------------------------------------------
  // Exchange sort by reliability

  predicate ByReliability(s: seq<Provider>)
  {
    forall p, q :: 0 <= p < q < |s| ==> s[p].reliability >= s[q].reliability
  }

  /** Every position before `i` holds a value at least as reliable as every later position. */
  predicate SettledBefore(s: seq<Provider>, i: int)
  {
    forall p, q :: 0 <= p < q < |s| && p < i ==> s[p].reliability >= s[q].reliability
  }

  method Swap(a: array<Provider>, i: int, j: int)
    requires 0 <= i < a.Length && 0 <= j < a.Length
    modifies a
    ensures a[i] == old(a[j]) && a[j] == old(a[i])
    ensures forall k :: 0 <= k < a.Length && k != i && k != j ==> a[k] == old(a[k])
    ensures multiset(a[..]) == old(multiset(a[..]))
  {
    a[i], a[j] := a[j], a[i];
  }

  /** The nested exchange loop: for each i, every later element more reliable than a[i] is
      swapped into position i. */
  method ExchangeSort(a: array<Provider>)
    modifies a
    ensures multiset(a[..]) == old(multiset(a[..]))
    ensures ByReliability(a[..])
  {
    var n := a.Length;
    var i := 0;
    while i + 1 < n
      invariant 0 <= i <= n
      invariant multiset(a[..]) == old(multiset(a[..]))
      invariant SettledBefore(a[..], i)
    {
      var j := i + 1;
      while j < n
        invariant i < j <= n
        invariant multiset(a[..]) == old(multiset(a[..]))
        invariant SettledBefore(a[..], i)
        invariant forall q :: i < q < j ==> a[i].reliability >= a[q].reliability
      {
        if a[i].reliability < a[j].reliability {
          Swap(a, i, j);
        }
        j := j + 1;
      }
      i := i + 1;
    }
  }

  // ----------------------------------------------------------------------------------------
  // Scoring

  /** The (model, task type) pairs the quality matrix has an entry for. */
  predicate InMatrix(model: string, taskType: string)
  {
    || (model == "gpt-4" && taskType in {"text-generation", "code-generation", "summarization", "reasoning"})
    || (model == "gpt-3.5-turbo" && taskType in {"text-generation", "code-generation", "summarization", "conversation"})
    || (model == "claude-3-opus" && taskType in {"text-generation", "code-generation", "summarization", "reasoning"})
    || (model == "claude-3-sonnet" && taskType in {"text-generation", "code-generation", "summarization", "conversation"})
    || (model == "gemini-pro" && taskType in {"text-generation", "multimodal", "summarization"})
  }

  /** `calculateQualityScore`: the model/task matrix entry, 0.7 where either is missing. */
  function QualityScore(model: string, taskType: string): (q: real)
    ensures 0.7 <= q <= 0.98
  {
    match model
    case "gpt-4" =>
      (match taskType
       case "text-generation" => 0.95 case "code-generation" => 0.90
       case "summarization" => 0.85 case "reasoning" => 0.95 case _ => 0.7)
    case "gpt-3.5-turbo" =>
      (match taskType
       case "text-generation" => 0.80 case "code-generation" => 0.70
       case "summarization" => 0.85 case "conversation" => 0.90 case _ => 0.7)
    case "claude-3-opus" =>
      (match taskType
       case "text-generation" => 0.98 case "code-generation" => 0.95
       case "summarization" => 0.95 case "reasoning" => 0.98 case _ => 0.7)
    case "claude-3-sonnet" =>
      (match taskType
       case "text-generation" => 0.85 case "code-generation" => 0.80
       case "summarization" => 0.90 case "conversation" => 0.88 case _ => 0.7)
    case "gemini-pro" =>
      (match taskType
       case "text-generation" => 0.75 case "multimodal" => 0.90
       case "summarization" => 0.70 case _ => 0.7)
    case _ => 0.7
  }

  /** A model or task type missing from the matrix gets the default 0.7. Every matrix entry is
      at least the default; only two entries equal it, and only Claude 3 Opus reaches the top
      score 0.98, for text generation and reasoning. */
  lemma QualityExtremes(model: string, taskType: string)
    ensures !InMatrix(model, taskType) ==> QualityScore(model, taskType) == 0.7
    ensures QualityScore(model, taskType) == 0.7 && InMatrix(model, taskType) <==>
              (model == "gpt-3.5-turbo" && taskType == "code-generation")
              || (model == "gemini-pro" && taskType == "summarization")
    ensures QualityScore(model, taskType) == 0.98 <==>
              model == "claude-3-opus" && (taskType == "text-generation" || taskType == "reasoning")
  {
  }

  /** The cost sub-score: 1 when free, 0 from 0.05 per thousand tokens on. */
  function CostSubScore(costPer1K: real): (s: real)
    ensures s >= 0.0
    ensures costPer1K >= 0.0 ==> s <= 1.0
    ensures s == 0.0 <==> costPer1K >= 0.05
  {
    1.0 - MinReal(costPer1K / 0.05, 1.0)
  }

  /** The latency sub-score: 1 when instant, 0 from 5000 ms on. */
  function LatencySubScore(avgLatency: int): (s: real)
    ensures s >= 0.0
    ensures avgLatency >= 0 ==> s <= 1.0
    ensures s == 0.0 <==> avgLatency >= 5000
  {
    1.0 - MinReal(avgLatency as real / 5000.0, 1.0)
  }

  /** A provider's figures are in their documented ranges. */
  predicate InRange(p: Provider)
  {
    p.costPer1K >= 0.0 && p.avgLatency >= 0 && 0.0 <= p.reliability <= 1.0
  }

  /** `calculateScore` with the default criteria 0.3/0.3/0.3/0.1: zero when the prompt's
      estimated tokens (a quarter of its length) exceed the provider's capacity; otherwise, for
      in-range figures, strictly positive and at most 1. */
  function CalculateScore(p: Provider, promptLength: nat, taskType: string): (score: real)
    ensures promptLength / 4 > p.maxTokens ==> score == 0.0
    ensures InRange(p) && promptLength / 4 <= p.maxTokens ==> 0.0 < score <= 1.0
  {
    var weighted := CostSubScore(p.costPer1K) * 0.3 + LatencySubScore(p.avgLatency) * 0.3
                    + p.reliability * 0.3 + QualityScore(p.model, taskType) * 0.1;
    var capacity := if promptLength / 4 > p.maxTokens then 0.0 else 1.0;
    weighted * capacity
  }

  /** The running best of `scoreProviders` after the providers of `ps`: the provider held and
      the score it holds, starting from the zero provider and -1. */
  function BestSoFar(ps: seq<Provider>, promptLength: nat, taskType: string): (Provider, real)
    decreases |ps|
  {
    if |ps| == 0 then (ZeroProvider(), -1.0)
    else
      var prev := BestSoFar(ps[..|ps| - 1], promptLength, taskType);
      var score := CalculateScore(ps[|ps| - 1], promptLength, taskType);
      if score > prev.1 then (ps[|ps| - 1], score) else prev
  }

  /** What `scoreProviders` returns: the first provider with the maximum score when some
      provider scores above -1 (always, for in-range figures), and otherwise the zero provider.
      The index `k` of the winner is -1 in the latter case. */
  lemma {:induction false} BestSoFarIsFirstMaximum(ps: seq<Provider>, promptLength: nat,
                                                   taskType: string)
    returns (k: int)
    ensures -1 <= k < |ps|
    ensures k == -1 ==> BestSoFar(ps, promptLength, taskType) == (ZeroProvider(), -1.0)
                        && forall j :: 0 <= j < |ps| ==> CalculateScore(ps[j], promptLength, taskType) <= -1.0
    ensures k >= 0 ==>
      && BestSoFar(ps, promptLength, taskType) == (ps[k], CalculateScore(ps[k], promptLength, taskType))
      && (forall j :: 0 <= j < |ps| ==>
            CalculateScore(ps[j], promptLength, taskType) <= CalculateScore(ps[k], promptLength, taskType))
      && (forall j :: 0 <= j < k ==>
            CalculateScore(ps[j], promptLength, taskType) < CalculateScore(ps[k], promptLength, taskType))
    decreases |ps|
  {
    if |ps| == 0 {
      return -1;
    }
    var n := |ps|;
    var init := ps[..n - 1];
    var k0 := BestSoFarIsFirstMaximum(init, promptLength, taskType);
    assert forall j :: 0 <= j < n - 1 ==> ps[j] == init[j];
    var held := BestSoFar(init, promptLength, taskType).1;
    if CalculateScore(ps[n - 1], promptLength, taskType) > held {
      k := n - 1;
    } else {
      k := k0;
    }
  }

  /** Every provider of an in-range, non-empty list scores above -1, so `scoreProviders` never
      falls back to the zero provider there. */
  lemma NeverZeroWhenInRange(ps: seq<Provider>, promptLength: nat, taskType: string)
    requires |ps| > 0 && forall i :: 0 <= i < |ps| ==> InRange(ps[i])
    ensures BestSoFar(ps, promptLength, taskType).0 in ps
  {
    var k := BestSoFarIsFirstMaximum(ps, promptLength, taskType);
    assert CalculateScore(ps[0], promptLength, taskType) > -1.0;
  }

  /** `scoreProviders`: a single pass keeping the first strictly better provider. */
  method ScoreProviders(ps: seq<Provider>, prompt: string, taskType: string)
    returns (best: Provider)
    ensures best == BestSoFar(ps, |prompt|, taskType).0
  {
    var bestScore := -1.0;
    best := ZeroProvider();
    var i := 0;
    while i < |ps|
      invariant 0 <= i <= |ps|
      invariant (best, bestScore) == BestSoFar(ps[..i], |prompt|, taskType)
    {
      assert ps[..i + 1][..i] == ps[..i];
      var score := CalculateScore(ps[i], |prompt|, taskType);
      if score > bestScore {
        bestScore := score;
        best := ps[i];
      }
      i := i + 1;
    }
    assert ps[..|ps|] == ps;
  }

  // ----------------------------------------------------------------------------------------
  // Confidence

  predicate SamePair(a: Provider, b: Provider)
  {
    a.name == b.name && a.model == b.model
  }

  /** The score used for confidence: a 1000-character text-generation prompt. */
  function ReferenceScore(p: Provider): real
  {
    CalculateScore(p, 1000, "text-generation")
  }

  /** The running maximum, from 0, of the reference scores of the providers of `ps` that are not
      the (name, model) pair of `best`. */
  function RunnerUp(ps: seq<Provider>, best: Provider): (r: real)
    ensures r >= 0.0
    ensures forall j :: 0 <= j < |ps| && !SamePair(ps[j], best) ==> ReferenceScore(ps[j]) <= r
    ensures r == 0.0 || exists j :: 0 <= j < |ps| && !SamePair(ps[j], best) && ReferenceScore(ps[j]) == r
    decreases |ps|
  {
    if |ps| == 0 then 0.0
    else
      var init := ps[..|ps| - 1];
      var prev := RunnerUp(init, best);
      var p := ps[|ps| - 1];
      assert forall j :: 0 <= j < |init| ==> ps[j] == init[j];
      if !SamePair(p, best) && ReferenceScore(p) > prev then ReferenceScore(p) else prev
  }

  /** The confidence `calculateConfidence` computes. */
  function Confidence(best: Provider, all: seq<Provider>): (c: real)
    ensures c <= 1.0
    ensures |all| <= 1 ==> c == 1.0
  {
    if |all| <= 1 then 1.0 else MinReal(0.5 + (ReferenceScore(best) - RunnerUp(all, best)), 1.0)
  }

  /** A winner that scores at least as well as every other pair has confidence at least 0.5. */
  lemma ConfidenceAtLeastHalf(best: Provider, all: seq<Provider>)
    requires ReferenceScore(best) >= 0.0
    requires forall j :: 0 <= j < |all| ==> ReferenceScore(all[j]) <= ReferenceScore(best)
    ensures Confidence(best, all) >= 0.5
  {
    if |all| > 1 && RunnerUp(all, best) != 0.0 {
      var j :| 0 <= j < |all| && !SamePair(all[j], best) && ReferenceScore(all[j]) == RunnerUp(all, best);
    }
  }

  /** `calculateConfidence`: 1 for at most one provider; otherwise 0.5 plus the gap between the
      winner's reference score and the best other pair's, capped at 1. */
  method CalculateConfidence(best: Provider, all: seq<Provider>) returns (confidence: real)
    ensures confidence == Confidence(best, all)
  {
    if |all| <= 1 {
      return 1.0;
    }
    var bestScore := ReferenceScore(best);
    var second := 0.0;
    var i := 0;
    while i < |all|
      invariant 0 <= i <= |all|
      invariant second == RunnerUp(all[..i], best)
    {
      assert all[..i + 1][..i] == all[..i];
      if !SamePair(all[i], best) {
        var score := ReferenceScore(all[i]);
        if score > second {
          second := score;
        }
      }
      i := i + 1;
    }
    assert all[..|all|] == all;
    confidence := MinReal(0.5 + (bestScore - second), 1.0);
  }

  // ----------------------------------------------------------------------------------------
  // Reasoning

  /** The reasons `generateReasoning` can give for a choice. */
  datatype Reason = CostEffective | FastResponse | HighReliability | LargeContextWindow | BalancedPerformance

  /** The words each reason is printed as. */
  function ReasonText(reason: Reason): string
  {
    match reason
    case CostEffective => "cost-effective"
    case FastResponse => "fast response"
    case HighReliability => "high reliability"
    case LargeContextWindow => "large context window"
    case BalancedPerformance => "balanced performance"
  }

  /** The position of a reason in the fixed order `generateReasoning` tests them. */
  function ReasonRank(reason: Reason): nat
  {
    match reason
    case CostEffective => 0
    case FastResponse => 1
    case HighReliability => 2
    case LargeContextWindow => 3
    case BalancedPerformance => 4
  }

  /** The reasons `generateReasoning` lists, in the order cost, latency, reliability, context
      window, or "balanced performance" alone when none applies. */
  function Reasons(p: Provider): (reasons: seq<Reason>)
    ensures |reasons| >= 1
    ensures forall i, j :: 0 <= i < j < |reasons| ==> ReasonRank(reasons[i]) < ReasonRank(reasons[j])
    ensures BalancedPerformance in reasons ==> reasons == [BalancedPerformance]
    ensures CostEffective in reasons <==> p.costPer1K < 0.01
    ensures FastResponse in reasons <==> p.avgLatency < 2000
    ensures HighReliability in reasons <==> p.reliability > 0.95
    ensures LargeContextWindow in reasons <==> p.maxTokens > 10000
    ensures BalancedPerformance in reasons
            <==> !(p.costPer1K < 0.01 || p.avgLatency < 2000 || p.reliability > 0.95 || p.maxTokens > 10000)
  {
    var found := (if p.costPer1K < 0.01 then [CostEffective] else [])
                 + (if p.avgLatency < 2000 then [FastResponse] else [])
                 + (if p.reliability > 0.95 then [HighReliability] else [])
                 + (if p.maxTokens > 10000 then [LargeContextWindow] else []);
    if found == [] then [BalancedPerformance] else found
  }

  /** `generateReasoning`: the reasons rendered as Go's `%v` renders a string slice, "[a b]",
      after the prefix naming the task type. */
  function GenerateReasoning(p: Provider, taskType: string): (text: string)
    ensures var head := "Selected for " + taskType + ": [";
            && |head| < |text| && text[..|head|] == head && text[|text| - 1] == ']'
            && text[|head|..|text| - 1] == Join(MapSeq(Reasons(p), ReasonText), " ")
  {
    var head := "Selected for " + taskType + ": [";
    var words := Join(MapSeq(Reasons(p), ReasonText), " ");
    SlicesOfConcat(head, words, "]");
    head + words + "]"
  }

  /** The reasoning for a provider that is cheap, fast, reliable and has a large context window
      lists all four reasons in their fixed order. */
  lemma AllFourReasons(p: Provider)
    requires p.costPer1K < 0.01 && p.avgLatency < 2000 && p.reliability > 0.95 && p.maxTokens > 10000
    ensures Reasons(p) == [CostEffective, FastResponse, HighReliability, LargeContextWindow]
  {
  }

  // ----------------------------------------------------------------------------------------
  // Fallbacks without health

  /** The providers of `ps`, in order, other than the excluded pair. */
  function Others(ps: seq<Provider>, excludeProvider: string, excludeModel: string): (r: seq<Provider>)
    ensures |r| <= |ps|
    ensures forall x :: x in r <==> x in ps && !Excluded(x, excludeProvider, excludeModel)
    decreases |ps|
  {
    if |ps| == 0 then []
    else
      var init := Others(ps[..|ps| - 1], excludeProvider, excludeModel);
      var p := ps[|ps| - 1];
      assert ps == ps[..|ps| - 1] + [p];
      if !Excluded(p, excludeProvider, excludeModel) then init + [p] else init
  }

  /** Filtering a prefix gives a prefix of the filtered whole. */
  lemma {:induction false} OthersOfPrefix(ps: seq<Provider>, k: nat, excludeProvider: string,
                                          excludeModel: string)
    requires k <= |ps|
    ensures var small := Others(ps[..k], excludeProvider, excludeModel);
            var all := Others(ps, excludeProvider, excludeModel);
            |small| <= |all| && all[..|small|] == small
    decreases |ps| - k
  {
    if k < |ps| {
      var init := ps[..|ps| - 1];
      assert init[..k] == ps[..k];
      OthersOfPrefix(init, k, excludeProvider, excludeModel);
    } else {
      assert ps[..k] == ps;
    }
  }

  /** Scanning one more provider keeps it exactly when it is not the excluded pair. */
  lemma OthersStep(ps: seq<Provider>, i: nat, excludeProvider: string, excludeModel: string)
    requires i < |ps|
    ensures Others(ps[..i + 1], excludeProvider, excludeModel)
            == Others(ps[..i], excludeProvider, excludeModel)
               + (if Excluded(ps[i], excludeProvider, excludeModel) then [] else [ps[i]])
  {
    assert ps[..i + 1][..i] == ps[..i];
  }

  /** `getFallbacks`: the first two providers of the task's list other than the excluded pair. */
  method GetFallbacks(catalog: map<string, seq<Provider>>, taskType: string, excludeProvider: string,
                      excludeModel: string)
    returns (fallbacks: seq<Provider>)
    ensures fallbacks == Take(Others(ProvidersFor(catalog, taskType), excludeProvider, excludeModel), 2)
    ensures |fallbacks| <= 2
    ensures forall x :: x in fallbacks ==> !Excluded(x, excludeProvider, excludeModel)
  {
    var ps := ProvidersFor(catalog, taskType);
    fallbacks := [];
    var i := 0;
    // the `break` once two are found is the second conjunct of the guard
    while i < |ps| && |fallbacks| < 2
      invariant 0 <= i <= |ps|
      invariant fallbacks == Others(ps[..i], excludeProvider, excludeModel)
      invariant |fallbacks| <= 2
    {
      OthersStep(ps, i, excludeProvider, excludeModel);
      if !Excluded(ps[i], excludeProvider, excludeModel) {
        fallbacks := fallbacks + [ps[i]];
      }
      i := i + 1;
    }
    OthersOfPrefix(ps, i, excludeProvider, excludeModel);
    if i == |ps| {
      assert ps[..i] == ps;
    }
  }

  // ----------------------------------------------------------------------------------------
  // Looking up a preferred provider

  /** The first provider of `ps` with the given name and model. */
  function FirstMatch(ps: seq<Provider>, name: string, model: string): (r: Option<Provider>)
    ensures r.Some? ==> r.value in ps && r.value.name == name && r.value.model == model
    ensures r.None? <==> forall i :: 0 <= i < |ps| ==> !(ps[i].name == name && ps[i].model == model)
  {
    if |ps| == 0 then None
    else if ps[0].name == name && ps[0].model == model then Some(ps[0])
    else FirstMatch(ps[1..], name, model)
  }

  /** The catalogue's lists concatenated in the iteration order `order`. */
  function Concat(catalog: map<string, seq<Provider>>, order: seq<string>): (all: seq<Provider>)
    ensures forall x :: x in all <==> exists t :: t in order && t in catalog && x in catalog[t]
  {
    if |order| == 0 then []
    else (if order[0] in catalog then catalog[order[0]] else []) + Concat(catalog, order[1..])
  }

  /** `order` lists the catalogue's task types: Go's map iteration visits every key. */
  predicate EnumeratesKeys(catalog: map<string, seq<Provider>>, order: seq<string>)
  {
    catalog.Keys == set t | t in order
  }

  /** `findSpecificProvider`: search the task's own list, or for an unknown task all lists in
      map iteration order `order`. */
  function FindSpecificProvider(catalog: map<string, seq<Provider>>, name: string, model: string,
                                taskType: string, order: seq<string>): (r: Option<Provider>)
    requires EnumeratesKeys(catalog, order)
    ensures r.Some? ==> r.value.name == name && r.value.model == model
    ensures taskType in catalog ==> (r.Some? <==> exists x :: x in catalog[taskType] && x.name == name && x.model == model)
    ensures taskType !in catalog ==>
              (r.Some? <==> exists t, x :: t in catalog && x in catalog[t] && x.name == name && x.model == model)
  {
    var ps := if taskType in catalog then catalog[taskType] else Concat(catalog, order);
    var r := FirstMatch(ps, name, model);
    assert taskType !in catalog && r.None? ==>
             forall t, x :: t in catalog && x in catalog[t] ==> !(x.name == name && x.model == model) by {
      if taskType !in catalog && r.None? {
        forall t, x | t in catalog && x in catalog[t]
          ensures !(x.name == name && x.model == model)
        {
          assert t in order;
          assert x in ps;
          var i :| 0 <= i < |ps| && ps[i] == x;
        }
      }
    }
    r
  }

  /** Whether a preferred pair is found never depends on the map iteration order. */
  lemma FoundRegardlessOfOrder(catalog: map<string, seq<Provider>>, name: string, model: string,
                               taskType: string, order1: seq<string>, order2: seq<string>)
    requires EnumeratesKeys(catalog, order1) && EnumeratesKeys(catalog, order2)
    ensures FindSpecificProvider(catalog, name, model, taskType, order1).Some?
            == FindSpecificProvider(catalog, name, model, taskType, order2).Some?
  {
    if taskType !in catalog {
      var all1, all2 := Concat(catalog, order1), Concat(catalog, order2);
      if FirstMatch(all1, name, model).Some? {
        var x := FirstMatch(all1, name, model).value;
        assert x in all2;
      }
      if FirstMatch(all2, name, model).Some? {
        var x := FirstMatch(all2, name, model).value;
        assert x in all1;
      }
    }
  }

  // ----------------------------------------------------------------------------------------
  // Routing

  /** The task type `autoRoute` works with: text-generation for an empty one. */
  function RouteTask(taskType: string): string
  {
    if taskType == "" then "text-generation" else taskType
  }

  /** The result `autoRoute` gives: an error for an empty list, otherwise the best-scoring
      provider with its confidence, reasoning and first two other providers. */
  function AutoRouted(catalog: map<string, seq<Provider>>, prompt: string, taskType: string)
    : Result<RoutingResult>
  {
    var t := RouteTask(taskType);
    var ps := ProvidersFor(catalog, t);
    if |ps| == 0 then Err("no providers available for task type: " + t)
    else
      var best := BestSoFar(ps, |prompt|, t).0;
      Ok(RoutingResult(best.name, best.model, Confidence(best, ps), GenerateReasoning(best, t),
                       Take(Others(ProvidersFor(catalog, t), best.name, best.model), 2)))
  }

  /** `autoRoute`. */
  method AutoRoute(catalog: map<string, seq<Provider>>, prompt: string, taskType: string)
    returns (r: Result<RoutingResult>)
    ensures r == AutoRouted(catalog, prompt, taskType)
  {
    var t := if taskType == "" then "text-generation" else taskType;
    var ps := ProvidersFor(catalog, t);
    if |ps| == 0 {
      return Err("no providers available for task type: " + t);
    }
    var best := ScoreProviders(ps, prompt, t);
    var confidence := CalculateConfidence(best, ps);
    var fallbacks := GetFallbacks(catalog, t, best.name, best.model);
    r := Ok(RoutingResult(best.name, best.model, confidence, GenerateReasoning(best, t), fallbacks));
  }

  /** An auto-routed answer for an in-range catalogue names a provider of the task's list, has
      confidence at most 1 and at most two fallbacks, none of them the chosen pair. */
  lemma AutoRoutedProperties(catalog: map<string, seq<Provider>>, prompt: string, taskType: string)
    requires forall t, i :: t in catalog && 0 <= i < |catalog[t]| ==> InRange(catalog[t][i])
    requires AutoRouted(catalog, prompt, taskType).Ok?
    ensures var r := AutoRouted(catalog, prompt, taskType).value;
            var ps := ProvidersFor(catalog, RouteTask(taskType));
            && (exists p :: p in ps && p.name == r.provider && p.model == r.model)
            && r.confidence <= 1.0
            && |r.fallbacks| <= 2
            && forall x :: x in r.fallbacks ==> !(x.name == r.provider && x.model == r.model)
  {
    var t := RouteTask(taskType);
    var ps := ProvidersFor(catalog, t);
    NeverZeroWhenInRange(ps, |prompt|, t);
    var best := BestSoFar(ps, |prompt|, t).0;
    assert best in ps;
    var others := Others(ps, best.name, best.model);
    forall x | x in Take(others, 2)
      ensures !Excluded(x, best.name, best.model)
    {
      assert x in others;
    }
  }

  /** A routing-cache hit: the provider and model stored for the request. */
  datatype CachedRoute = CachedRoute(provider: string, model: string)

  /** `fallbacks` is what `GetFallbackProviders` returns for the pair in `health`. */
  ghost predicate IsFallbackList(health: HealthRegistry, fallbacks: seq<Provider>,
                                 catalog: map<string, seq<Provider>>, taskType: string,
                                 provider: string, model: string, now: int)
    reads health
  {
    && multiset(fallbacks) == multiset(health.Survivors(ProvidersFor(catalog, taskType), provider, model, now))
    && ByReliability(fallbacks)
  }

  /** `RouteRequest`: a cache hit wins (confidence 1); then a preferred pair that is in the
      catalogue and healthy (confidence 1); otherwise `autoRoute`. The cache lookup itself, keyed by
      a hash of the request, is the parameter `cached`; `order` is the map iteration order. */
  method RouteRequest(health: HealthRegistry, catalog: map<string, seq<Provider>>,
                      cached: Option<CachedRoute>, prompt: string, taskType: string,
                      preferredProvider: string, preferredModel: string, now: int, order: seq<string>)
    returns (r: Result<RoutingResult>)
    requires EnumeratesKeys(catalog, order)
    ensures cached.Some? ==>
      && r.Ok?
      && r.value.provider == cached.value.provider && r.value.model == cached.value.model
      && r.value.confidence == 1.0 && r.value.reasoning == "Cache hit - returning cached result"
      && IsFallbackList(health, r.value.fallbacks, catalog, taskType, cached.value.provider,
                        cached.value.model, now)
    ensures cached.None? && PreferredUsable(health, catalog, taskType, preferredProvider,
                                            preferredModel, now, order) ==>
      && r.Ok?
      && r.value.provider == preferredProvider && r.value.model == preferredModel
      && r.value.confidence == 1.0 && r.value.reasoning == "User-specified provider and model"
      && IsFallbackList(health, r.value.fallbacks, catalog, taskType, preferredProvider,
                        preferredModel, now)
    ensures cached.None? && !PreferredUsable(health, catalog, taskType, preferredProvider,
                                             preferredModel, now, order) ==>
      r == AutoRouted(catalog, prompt, taskType)
  {
    if cached.Some? {
      var fallbacks := health.GetFallbackProviders(catalog, taskType, cached.value.provider,
                                                   cached.value.model, now);
      return Ok(RoutingResult(cached.value.provider, cached.value.model, 1.0,
                              "Cache hit - returning cached result", fallbacks));
    }
    if preferredProvider != "" && preferredModel != "" {
      var found := FindSpecificProvider(catalog, preferredProvider, preferredModel, taskType, order);
      if found.Some? && health.IsProviderHealthy(preferredProvider, preferredModel, now) {
        var fallbacks := health.GetFallbackProviders(catalog, taskType, preferredProvider,
                                                     preferredModel, now);
        return Ok(RoutingResult(preferredProvider, preferredModel, 1.0,
                                "User-specified provider and model", fallbacks));
      }
    }
    r := AutoRoute(catalog, prompt, taskType);
  }

  /** A preferred pair is honoured when both parts are given, it is in the catalogue and it is
      healthy. */
  predicate PreferredUsable(health: HealthRegistry, catalog: map<string, seq<Provider>>,
                            taskType: string, preferredProvider: string, preferredModel: string,
                            now: int, order: seq<string>)
    requires EnumeratesKeys(catalog, order)
    reads health
  {
    && preferredProvider != "" && preferredModel != ""
    && FindSpecificProvider(catalog, preferredProvider, preferredModel, taskType, order).Some?
    && health.IsProviderHealthy(preferredProvider, preferredModel, now)
  }

  /** `RouteRequestWithFallback`: route, then replace the fallbacks by the health-aware list for
      the chosen pair. The strategy argument is never read. */
  method RouteRequestWithFallback(health: HealthRegistry, catalog: map<string, seq<Provider>>,
                                  cached: Option<CachedRoute>, prompt: string, taskType: string,
                                  preferredProvider: string, preferredModel: string, now: int,
                                  order: seq<string>)
    returns (r: Result<RoutingResult>)
    requires EnumeratesKeys(catalog, order)
    ensures r.Ok? ==> IsFallbackList(health, r.value.fallbacks, catalog, taskType, r.value.provider,
                                     r.value.model, now)
    ensures cached.Some? ==>
      && r.Ok?
      && r.value.provider == cached.value.provider && r.value.model == cached.value.model
      && r.value.confidence == 1.0 && r.value.reasoning == "Cache hit - returning cached result"
    ensures cached.None? && PreferredUsable(health, catalog, taskType, preferredProvider,
                                            preferredModel, now, order) ==>
      && r.Ok?
      && r.value.provider == preferredProvider && r.value.model == preferredModel
      && r.value.confidence == 1.0 && r.value.reasoning == "User-specified provider and model"
    ensures cached.None? && !PreferredUsable(health, catalog, taskType, preferredProvider,
                                             preferredModel, now, order) ==>
      var auto := AutoRouted(catalog, prompt, taskType);
      && (r.Err? <==> auto.Err?)
      && (r.Err? ==> r == auto)
      && (r.Ok? ==> r.value == auto.value.(fallbacks := r.value.fallbacks))
  {
    r := RouteRequest(health, catalog, cached, prompt, taskType, preferredProvider, preferredModel,
                      now, order);
    if r.Err? {
      return;
    }
    var fallbacks := health.GetFallbackProviders(catalog, taskType, r.value.provider, r.value.model, now);
    r := Ok(r.value.(fallbacks := fallbacks));
  }
}
