/** The "AI brain": task analysis (keyword task type, complexity), the capability filter, the
    per-provider cost/speed/quality score with its reasoning log, and the sort-then-fallback
    selection. Metrics come from a collector passed in as `metricsOf`; rendering a log line with
    Go's `%.2f`/`%.4f` formatting is the parameter `render`. */
module Brain {
  import opened Wrappers
  import opened Text
  import opened Routing
  import opened Metrics
  import Ranking

  /** `TaskProfile`; `timeConstraint` is a duration in nanoseconds. */
  datatype TaskProfile = TaskProfile(
    taskType: string,
    complexity: real,
    tokenEstimate: int,
    priority: int,
    maxBudget: real,
    requiredCaps: seq<string>,
    timeConstraint: int)

  /** One entry of a provider's reasoning log, before number formatting. */
  datatype LogLine =
    | CostLine(costScore: real, estimatedCost: real)
    | SpeedLine(speedScore: real, avgLatency: int)
    | QualityLine(qualityScore: real, successPercent: real)

  datatype ProviderScore = ProviderScore(
    provider: Provider,
    totalScore: real,
    costScore: real,
    speedScore: real,
    qualityScore: real,
    reasoningLog: seq<LogLine>)

  function TotalOf(s: ProviderScore): real { s.totalScore }

  // ----------------------------------------------------------------------------------------
  // Task analysis

  /** `detectTaskType`: keyword tests on the lower-cased prompt, first hit wins. */
  function DetectTaskType(prompt: string): (taskType: string)
    ensures Contains(Lower(prompt), "classify") ==> taskType == "classification"
    ensures (!Contains(Lower(prompt), "classify") && Contains(Lower(prompt), "translate"))
            ==> taskType == "translation"
    ensures (!Contains(Lower(prompt), "classify") && !Contains(Lower(prompt), "translate")
             && Contains(Lower(prompt), "summarize")) ==> taskType == "summarization"
    ensures taskType == "text-generation" <==>
            !Contains(Lower(prompt), "classify") && !Contains(Lower(prompt), "translate")
            && !Contains(Lower(prompt), "summarize")
  {
    var lower := Lower(prompt);
    if Contains(lower, "classify") then "classification"
    else if Contains(lower, "translate") then "translation"
    else if Contains(lower, "summarize") then "summarization"
    else "text-generation"
  }

  /** Detection ignores letter case: a prompt and its lower-cased form get the same type. */
  lemma DetectionIgnoresCase(prompt: string)
    ensures DetectTaskType(Lower(prompt)) == DetectTaskType(prompt)
  {
    LowerIdempotent(prompt);
  }

  /** `calculateComplexity`: the word count over 1000, capped at 1; 0 for a prompt without
      words, which is exactly a prompt made of separators only. */
  function CalculateComplexity(prompt: string): (c: real)
    ensures 0.0 <= c <= 1.0
    ensures c == 0.0 <==> forall i :: 0 <= i < |prompt| ==> IsSpace(prompt[i])
    ensures WordCount(prompt) >= 1000 ==> c == 1.0
  {
    NoWordsIffAllSpace(prompt);
    var words := WordCount(prompt);
    if words <= 0 then 0.0
    else MinReal(words as real / 1000.0, 1.0)
  }

  // ----------------------------------------------------------------------------------------
  // Capability filter

  /** Every required capability is among the provider's. */
  predicate MeetsRequirements(p: Provider, required: seq<string>)
  {
    forall c :: c in required ==> c in p.capabilities
  }

  /** `providerMeetsRequirements`: for each required capability, scan the provider's list with
      a found flag; the first one missing decides. Nothing required means true. */
  method ProviderMeetsRequirements(p: Provider, profile: TaskProfile) returns (meets: bool)
    ensures meets <==> MeetsRequirements(p, profile.requiredCaps)
  {
    var required := profile.requiredCaps;
    var i := 0;
    while i < |required|
      invariant 0 <= i <= |required|
      invariant forall k :: 0 <= k < i ==> required[k] in p.capabilities
    {
      var found := false;
      var j := 0;
      while j < |p.capabilities|
        invariant 0 <= j <= |p.capabilities|
        invariant found <==> required[i] in p.capabilities[..j]
      {
        if required[i] == p.capabilities[j] {
          found := true;
          assert required[i] in p.capabilities[..j + 1];
          break;
        }
        assert p.capabilities[..j + 1] == p.capabilities[..j] + [p.capabilities[j]];
        j := j + 1;
      }
      if !found {
        assert p.capabilities[..j] == p.capabilities;
        return false;
      }
      i := i + 1;
    }
    return true;
  }

  // ----------------------------------------------------------------------------------------
  // Scoring

  /** The historical quality score: 0.5 x success rate + 0.3 x (1 - error rate) + 0.2 x
      (1 - timeout rate). In [0, 1] for rates in [0, 1]; 1 for a flawless provider. */
  function HistoricalQuality(m: ProviderMetrics): (q: real)
    ensures 0.0 <= m.successRate <= 1.0 && 0.0 <= m.errorRate <= 1.0 && 0.0 <= m.timeoutRate <= 1.0
            ==> 0.0 <= q <= 1.0
    ensures m.successRate == 1.0 && m.errorRate == 0.0 && m.timeoutRate == 0.0 ==> q == 1.0
  {
    m.successRate * 0.5 + (1.0 - m.errorRate) * 0.3 + (1.0 - m.timeoutRate) * 0.2
  }

  /** The divisions `scoreProvider` performs are defined. */
  predicate ScorableProfile(profile: TaskProfile)
  {
    profile.maxBudget != 0.0 && Milliseconds(profile.timeConstraint) != 0
  }

  function EstimatedCost(p: Provider, profile: TaskProfile): real
  {
    profile.tokenEstimate as real * p.costPer1K / 1000.0
  }

  /** `scoreProvider`: cost (weight 0.4), speed (0.3) and historical quality (0.3), with one
      log line for each, in that order. */
  function ScoreProvider(p: Provider, profile: TaskProfile, m: ProviderMetrics): (s: ProviderScore)
    requires ScorableProfile(profile)
    ensures s.provider == p
    ensures s.totalScore == s.costScore * 0.4 + s.speedScore * 0.3 + s.qualityScore * 0.3
    ensures s.qualityScore == HistoricalQuality(m)
    ensures |s.reasoningLog| == 3 && s.reasoningLog[0].CostLine? && s.reasoningLog[1].SpeedLine?
            && s.reasoningLog[2].QualityLine?
    ensures s.costScore == 1.0 <==> EstimatedCost(p, profile) == 0.0
    ensures s.speedScore == 1.0 <==> p.avgLatency == 0
  {
    var estimatedCost := EstimatedCost(p, profile);
    var costScore := 1.0 - estimatedCost / profile.maxBudget;
    var speedScore := 1.0 - p.avgLatency as real / Milliseconds(profile.timeConstraint) as real;
    var qualityScore := HistoricalQuality(m);
    var log := [CostLine(costScore, estimatedCost), SpeedLine(speedScore, p.avgLatency),
                QualityLine(qualityScore, m.successRate * 100.0)];
    ProviderScore(p, costScore * 0.4 + speedScore * 0.3 + qualityScore * 0.3, costScore, speedScore,
                  qualityScore, log)
  }

  /** Within budget and time limit, with rates in [0, 1], every sub-score and the total lie in
      [0, 1]. */
  lemma ScoreWithinBounds(p: Provider, profile: TaskProfile, m: ProviderMetrics)
    requires profile.maxBudget > 0.0 && Milliseconds(profile.timeConstraint) > 0
    requires 0.0 <= EstimatedCost(p, profile) <= profile.maxBudget
    requires 0 <= p.avgLatency <= Milliseconds(profile.timeConstraint)
    requires 0.0 <= m.successRate <= 1.0 && 0.0 <= m.errorRate <= 1.0 && 0.0 <= m.timeoutRate <= 1.0
    ensures var s := ScoreProvider(p, profile, m);
            0.0 <= s.costScore <= 1.0 && 0.0 <= s.speedScore <= 1.0 && 0.0 <= s.totalScore <= 1.0
  {
    var cost := EstimatedCost(p, profile);
    var budget := profile.maxBudget;
    var limit := Milliseconds(profile.timeConstraint) as real;
    RatioInUnit(cost, budget);
    RatioInUnit(p.avgLatency as real, limit);
  }

  // ----------------------------------------------------------------------------------------
  // Selection

  /** The scores of the qualifying providers of `ps`, in list order. */
  function Qualified(ps: seq<Provider>, profile: TaskProfile, metricsOf: string -> ProviderMetrics)
    : (scores: seq<ProviderScore>)
    requires ScorableProfile(profile)
    ensures |scores| <= |ps|
    ensures |scores| == 0 <==> forall i :: 0 <= i < |ps| ==> !MeetsRequirements(ps[i], profile.requiredCaps)
    ensures forall s :: s in scores ==> s.provider in ps && MeetsRequirements(s.provider, profile.requiredCaps)
    decreases |ps|
  {
    if |ps| == 0 then []
    else
      var init := ps[..|ps| - 1];
      var p := ps[|ps| - 1];
      assert forall i :: 0 <= i < |init| ==> ps[i] == init[i];
      var prev := Qualified(init, profile, metricsOf);
      if MeetsRequirements(p, profile.requiredCaps) then prev + [ScoreProvider(p, profile, metricsOf(p.name))]
      else prev
  }

  function ProvidersOf(scores: seq<ProviderScore>): (ps: seq<Provider>)
    ensures |ps| == |scores|
    ensures forall i :: 0 <= i < |scores| ==> ps[i] == scores[i].provider
  {
    seq(|scores|, i requires 0 <= i < |scores| => scores[i].provider)
  }

  predicate ByTotalScore(scores: seq<ProviderScore>)
  {
    forall i, j :: 0 <= i < j < |scores| ==> scores[i].totalScore >= scores[j].totalScore
  }

  /** The result `SelectProvider` builds from a ranking of the scores: the head of the ranking,
      with its unclamped total as confidence and its log joined by "; ", and the next at most two
      entries as fallbacks. */
  function ResultFrom(ranked: seq<ProviderScore>, render: LogLine -> string): RoutingResult
    requires |ranked| > 0
  {
    var top := ranked[0];
    RoutingResult(top.provider.name, top.provider.model, top.totalScore,
                  Join(MapSeq(top.reasoningLog, render), "; "),
                  ProvidersOf(ranked[1..Min(|ranked|, 3)]))
  }

  /** `r` is a possible answer for the scores `scored`: `sort.Slice` may order equal totals
      either way, so any ranking that is a permutation of the scores with non-increasing totals
      is allowed. */
  ghost predicate SelectedFrom(r: RoutingResult, scored: seq<ProviderScore>, render: LogLine -> string)
  {
    exists ranked :: |ranked| > 0 && multiset(ranked) == multiset(scored) && ByTotalScore(ranked)
                     && r == ResultFrom(ranked, render)
  }

  /** What every admissible answer promises: the chosen provider qualifies and its confidence is
      the highest total among qualifying providers; there are min(n, 3) - 1 fallbacks, each a
      qualifying provider scoring no higher than the winner. More precisely, the answer is made of
      a winning entry `w` and fallback entries `fs`, all drawn from the scores: the reasoning is
      `w`'s log joined by "; ", the fallbacks are in non-increasing order, and every entry left
      over scores no higher than any fallback. */
  lemma {:induction false} SelectionProperties(ranked: seq<ProviderScore>, scored: seq<ProviderScore>,
                                               render: LogLine -> string)
    requires |ranked| > 0 && multiset(ranked) == multiset(scored) && ByTotalScore(ranked)
    ensures var r := ResultFrom(ranked, render);
      && (exists s :: s in scored && s.provider.name == r.provider && s.provider.model == r.model
                      && s.totalScore == r.confidence)
      && (forall s :: s in scored ==> s.totalScore <= r.confidence)
      && |r.fallbacks| == Min(|scored|, 3) - 1
      && (forall f :: f in r.fallbacks ==> exists s :: s in scored && s.provider == f
                                                       && s.totalScore <= r.confidence)
      && exists w, fs :: ChosenEntries(r, scored, render, w, fs)
  {
    WinnerBoundsFallbacks(ranked, scored, render);
    RankingChooses(ranked, scored, render);
    assert ChosenEntries(ResultFrom(ranked, render), scored, render, ranked[0], ranked[1..Min(|ranked|, 3)]);
  }

  /** The winner of a ranking qualifies and has the top total; there are min(n, 3) - 1
      fallbacks, each a qualifying provider scoring no higher than the winner. */
  lemma {:induction false} WinnerBoundsFallbacks(ranked: seq<ProviderScore>, scored: seq<ProviderScore>,
                                               render: LogLine -> string)
    requires |ranked| > 0 && multiset(ranked) == multiset(scored) && ByTotalScore(ranked)
    ensures var r := ResultFrom(ranked, render);
      && (exists s :: s in scored && s.provider.name == r.provider && s.provider.model == r.model
                      && s.totalScore == r.confidence)
      && (forall s :: s in scored ==> s.totalScore <= r.confidence)
      && |r.fallbacks| == Min(|scored|, 3) - 1
      && (forall f :: f in r.fallbacks ==> exists s :: s in scored && s.provider == f
                                                       && s.totalScore <= r.confidence)
  {
    assert |ranked| == |multiset(ranked)| == |scored|;
    assert ranked[0] in multiset(scored);
    forall s | s in scored
      ensures s.totalScore <= ranked[0].totalScore
    {
      assert s in multiset(ranked);
      var j :| 0 <= j < |ranked| && ranked[j] == s;
    }
    var tail := ranked[1..Min(|ranked|, 3)];
    forall f | f in ProvidersOf(tail)
      ensures exists s :: s in scored && s.provider == f && s.totalScore <= ranked[0].totalScore
    {
      var i :| 0 <= i < |tail| && ProvidersOf(tail)[i] == f;
      assert tail[i] == ranked[i + 1];
      assert ranked[i + 1] in multiset(scored);
    }
  }

  /** The head of a ranking and the next at most two entries are the chosen entries of the
      answer built from it. */
  lemma RankingChooses(ranked: seq<ProviderScore>, scored: seq<ProviderScore>, render: LogLine -> string)
    requires |ranked| > 0 && multiset(ranked) == multiset(scored) && ByTotalScore(ranked)
    ensures ChosenEntries(ResultFrom(ranked, render), scored, render, ranked[0],
                          ranked[1..Min(|ranked|, 3)])
  {
    var m := Min(|ranked|, 3);
    SplitRanking(ranked, scored, m);
    RankingOrders(ranked, m);
    assert ProvidersOf(ranked[1..m]) == ResultFrom(ranked, render).fallbacks;
  }

  /** In a ranking, the entries at positions 1 .. m - 1 are in order, below the head, and above
      every entry from position m on. */
  lemma RankingOrders(ranked: seq<ProviderScore>, m: int)
    requires 1 <= m <= |ranked| && ByTotalScore(ranked)
    ensures var fs := ranked[1..m];
      && (forall i :: 0 <= i < |fs| ==> fs[i].totalScore <= ranked[0].totalScore)
      && (forall i, j :: 0 <= i < j < |fs| ==> fs[i].totalScore >= fs[j].totalScore)
      && (forall s, i :: s in multiset(ranked[m..]) && 0 <= i < |fs| ==> s.totalScore <= fs[i].totalScore)
  {
    var fs, rest := ranked[1..m], ranked[m..];
    assert forall i :: 0 <= i < |fs| ==> fs[i] == ranked[i + 1];
    forall s: ProviderScore, i | s in multiset(rest) && 0 <= i < |fs|
      ensures s.totalScore <= fs[i].totalScore
    {
      var j :| 0 <= j < |rest| && rest[j] == s;
      assert s == ranked[m + j];
    }
  }

  /** Drawing the first `m` entries of a ranking of `scored` leaves the rest of the ranking. */
  lemma SplitRanking(ranked: seq<ProviderScore>, scored: seq<ProviderScore>, m: int)
    requires 1 <= m <= |ranked| && multiset(ranked) == multiset(scored)
    ensures multiset([ranked[0]] + ranked[1..m]) <= multiset(scored)
    ensures multiset(scored) - multiset([ranked[0]] + ranked[1..m]) == multiset(ranked[m..])
  {
    assert [ranked[0]] + ranked[1..m] == ranked[..m];
    assert ranked == ranked[..m] + ranked[m..];
    assert multiset(ranked) == multiset(ranked[..m]) + multiset(ranked[m..]);
  }

  /** The answer `r` consists of the entry `w` and, as fallbacks, the entries `fs`, all drawn
      from `scored` (with multiplicity); `w` supplies provider, model, confidence and reasoning,
      the fallbacks follow in non-increasing order, and every entry not drawn scores no higher
      than any of them. */
  predicate ChosenEntries(r: RoutingResult, scored: seq<ProviderScore>, render: LogLine -> string,
                          w: ProviderScore, fs: seq<ProviderScore>)
  {
    && ProvidersOf(fs) == r.fallbacks
    && multiset([w] + fs) <= multiset(scored)
    && w.provider.name == r.provider && w.provider.model == r.model && w.totalScore == r.confidence
    && r.reasoning == Join(MapSeq(w.reasoningLog, render), "; ")
    && (forall i :: 0 <= i < |fs| ==> fs[i].totalScore <= w.totalScore)
    && (forall i, j :: 0 <= i < j < |fs| ==> fs[i].totalScore >= fs[j].totalScore)
    && (forall s, i :: s in multiset(scored) - multiset([w] + fs) && 0 <= i < |fs| ==>
          s.totalScore <= fs[i].totalScore)
  }

  /** `AIBrain.SelectProvider`: score the qualifying providers in list order, sort them by total
      score, and answer with the best one and up to two fallbacks; without a qualifying provider
      the answer is an error. */
  method SelectProvider(providers: seq<Provider>, profile: TaskProfile,
                        metricsOf: string -> ProviderMetrics, render: LogLine -> string)
    returns (r: Result<RoutingResult>)
    requires ScorableProfile(profile)
    ensures r.Err? <==> forall i :: 0 <= i < |providers| ==> !MeetsRequirements(providers[i], profile.requiredCaps)
    ensures r.Err? ==> r.error == "no suitable provider found for the task"
    ensures r.Ok? ==> SelectedFrom(r.value, Qualified(providers, profile, metricsOf), render)
  {
    var scores := ScoreQualifying(providers, profile, metricsOf);
    var ranked := Ranking.SortDesc(scores, TotalOf);
    if |ranked| == 0 {
      return Err("no suitable provider found for the task");
    }
    var fallbacks := CollectFallbacks(ranked);
    r := Ok(RoutingResult(ranked[0].provider.name, ranked[0].provider.model, ranked[0].totalScore,
                          Join(MapSeq(ranked[0].reasoningLog, render), "; "), fallbacks));
    assert r.value == ResultFrom(ranked, render);
  }

  /** The scoring loop of `SelectProvider`. */
  method ScoreQualifying(providers: seq<Provider>, profile: TaskProfile,
                         metricsOf: string -> ProviderMetrics)
    returns (scores: seq<ProviderScore>)
    requires ScorableProfile(profile)
    ensures scores == Qualified(providers, profile, metricsOf)
  {
    scores := [];
    var i := 0;
    while i < |providers|
      invariant 0 <= i <= |providers|
      invariant scores == Qualified(providers[..i], profile, metricsOf)
    {
      assert providers[..i + 1][..i] == providers[..i];
      var p := providers[i];
      var meets := ProviderMeetsRequirements(p, profile);
      if meets {
        scores := scores + [ScoreProvider(p, profile, metricsOf(p.name))];
      }
      i := i + 1;
    }
    assert providers[..|providers|] == providers;
  }

  /** The fallback loop of `SelectProvider`: the providers at ranks 1 .. min(n, 3) - 1. */
  method CollectFallbacks(ranked: seq<ProviderScore>) returns (fallbacks: seq<Provider>)
    requires |ranked| > 0
    ensures fallbacks == ProvidersOf(ranked[1..Min(|ranked|, 3)])
    ensures |fallbacks| <= 2
  {
    fallbacks := [];
    var k := 1;
    while k < Min(|ranked|, 3)
      invariant 1 <= k <= Min(|ranked|, 3)
      invariant fallbacks == ProvidersOf(ranked[1..k])
    {
      fallbacks := fallbacks + [ranked[k].provider];
      k := k + 1;
    }
  }
}
