/** The Python worker's routing and admission-control core: the per-minute rate limiter, the
    outcome recorder, the cost formula, the weighted provider score, the ranking behind
    `/routing/smart` and its explanation string. The Redis store is the class `Store`; time is an
    explicit parameter `now` in whole seconds. */
module Worker {
  import opened Wrappers
  import opened Text
  import Ranking

  /** A provider's static profile; its URL and headers belong to the adapters and are left out. */
  datatype ProviderConfig = ProviderConfig(
    name: string,
    costPer1kInput: real,
    costPer1kOutput: real,
    maxTokens: int,
    rateLimit: int)

  /** The `PROVIDERS` table in declaration order, which is also its iteration order. */
  function Providers(): seq<ProviderConfig>
  {
    [ ProviderConfig("openai", 0.03, 0.06, 4000, 100),
      ProviderConfig("claude", 0.015, 0.075, 100000, 50),
      ProviderConfig("gemini", 0.001, 0.002, 30000, 60) ]
  }

  /** The registry is a dictionary keyed by name, so no name occurs twice. */
  predicate DistinctNames(registry: seq<ProviderConfig>)
  {
    forall i, j :: 0 <= i < j < |registry| ==> registry[i].name != registry[j].name
  }

  /** `PROVIDERS[name].rate_limit`; None where the lookup raises KeyError. */
  function RateLimitOf(registry: seq<ProviderConfig>, name: string): Option<int>
  {
    if |registry| == 0 then None
    else if registry[0].name == name then Some(registry[0].rateLimit)
    else RateLimitOf(registry[1..], name)
  }

  function CountOf(v: Option<int>): int
  {
    if v.Some? then v.value else 0
  }

  /** Positions `start..stop` (inclusive) of `s`, as LRANGE and LTRIM select them for
      non-negative bounds. */
  function Range(s: seq<int>, start: nat, stop: nat): (r: seq<int>)
    ensures start == 0 ==> r == Take(s, stop + 1)
  {
    if start >= |s| || start > stop then [] else s[start..Min(stop + 1, |s|)]
  }

  // ----------------------------------------------------------------------------------------
  // The key-value store

  /** The Redis store: integer counters (GET, SETEX, INCR), integer lists (LPUSH, LTRIM,
      LRANGE) and, for every key given a time to live, the second at which it expires. Expiry
      itself is the store's business: the deadlines are recorded, eviction is not modelled. */
  class Store {
    var counters: map<string, int>
    var lists: map<string, seq<int>>
    var expiresAt: map<string, int>

    constructor ()
      ensures counters == map[] && lists == map[] && expiresAt == map[]
    {
      counters, lists, expiresAt := map[], map[], map[];
    }

    /** GET on a counter: None for a missing key. */
    function Get(key: string): Option<int>
      reads this
    {
      if key in counters then Some(counters[key]) else None
    }

    /** The list under `key`; a missing key reads as the empty list. */
    function List(key: string): seq<int>
      reads this
    {
      if key in lists then lists[key] else []
    }

    /** SETEX key ttl value. */
    method SetEx(key: string, ttl: nat, value: int, now: nat)
      modifies this
      ensures counters == old(counters)[key := value]
      ensures expiresAt == old(expiresAt)[key := now + ttl]
      ensures lists == old(lists)
    {
      counters := counters[key := value];
      expiresAt := expiresAt[key := now + ttl];
    }

    /** INCR key: a missing counter starts from 0; an existing time to live is kept. */
    method Incr(key: string) returns (v: int)
      modifies this
      ensures v == CountOf(old(Get(key))) + 1
      ensures counters == old(counters)[key := v]
      ensures lists == old(lists) && expiresAt == old(expiresAt)
    {
      v := CountOf(Get(key)) + 1;
      counters := counters[key := v];
    }

    /** LPUSH key x: the new element goes to the front. */
    method LPush(key: string, x: int)
      modifies this
      ensures lists == old(lists)[key := [x] + old(List(key))]
      ensures counters == old(counters) && expiresAt == old(expiresAt)
    {
      lists := lists[key := [x] + List(key)];
    }

    /** LTRIM key start stop: keep positions start..stop; a missing key stays missing. */
    method LTrim(key: string, start: nat, stop: nat)
      modifies this
      ensures lists == if key in old(lists) then old(lists)[key := Range(old(lists)[key], start, stop)]
                       else old(lists)
      ensures counters == old(counters) && expiresAt == old(expiresAt)
    {
      if key in lists {
        lists := lists[key := Range(lists[key], start, stop)];
      }
    }

    /** EXPIRE key ttl: sets the deadline of an existing key only. */
    method Expire(key: string, ttl: nat, now: nat)
      modifies this
      ensures expiresAt == if key in old(counters) || key in old(lists) then old(expiresAt)[key := now + ttl]
                           else old(expiresAt)
      ensures counters == old(counters) && lists == old(lists)
    {
      if key in counters || key in lists {
        expiresAt := expiresAt[key := now + ttl];
      }
    }
  }

  // ----------------------------------------------------------------------------------------
  // Keys

  /** `rate_limit:<provider>:<minute>` with minute = floor(now / 60). */
  function RateLimitKey(provider: string, now: nat): string
  {
    "rate_limit:" + provider + ":" + NatToString(now / 60)
  }

  function SuccessKey(provider: string): string { "metrics:" + provider + ":success" }

  function ErrorsKey(provider: string): string { "metrics:" + provider + ":errors" }

  function LatenciesKey(provider: string): string { "metrics:" + provider + ":latencies" }

  /** `metrics:<provider>:hourly:<hour>` with hour = floor(now / 3600). */
  function HourlyKey(provider: string, now: nat): string
  {
    "metrics:" + provider + ":hourly:" + NatToString(now / 3600)
  }

  /** The four metric keys of one provider are pairwise different, so recording one outcome
      never touches another outcome's counter or the latency list. */
  lemma MetricKeysDistinct(provider: string, now: nat)
    ensures SuccessKey(provider) != ErrorsKey(provider)
    ensures SuccessKey(provider) != LatenciesKey(provider)
    ensures ErrorsKey(provider) != LatenciesKey(provider)
    ensures HourlyKey(provider, now) != SuccessKey(provider)
    ensures HourlyKey(provider, now) != ErrorsKey(provider)
    ensures HourlyKey(provider, now) != LatenciesKey(provider)
  {
    var i := |"metrics:" + provider + ":"|;
    assert SuccessKey(provider)[i] == 's';
    assert ErrorsKey(provider)[i] == 'e';
    assert LatenciesKey(provider)[i] == 'l';
    assert HourlyKey(provider, now)[i] == 'h';
  }

  // ----------------------------------------------------------------------------------------
  // Rate limiter

  /** What one check does to a bucket holding `count` (None: no bucket yet) for a provider whose
      limit lookup gave `limit` (None: KeyError). */
  datatype RateStep = RateStep(limited: Result<bool>, next: Option<int>)

  function RateCheck(count: Option<int>, limit: Option<int>): (step: RateStep)
    ensures count.None? ==> step == RateStep(Ok(false), Some(1))
    ensures step.limited.Err? <==> count.Some? && limit.None?
    ensures count.Some? && limit.Some? ==> (step.limited == Ok(true) <==> count.value >= limit.value)
    ensures step.limited != Ok(false) ==> step.next == count
    ensures step.limited == Ok(false) ==> step.next == Some(CountOf(count) + 1)
  {
    match count
    case None => RateStep(Ok(false), Some(1))
    case Some(c) =>
      match limit
      case None => RateStep(Err("KeyError: provider not in PROVIDERS"), count)
      case Some(n) => if c >= n then RateStep(Ok(true), count) else RateStep(Ok(false), Some(c + 1))
  }

  /** `check_rate_limit`: returns Ok(true) when the provider is limited this minute. Without a
      store client it admits; otherwise a missing bucket is created at 1 with a 60 s lifetime and
      the call admitted, a full bucket rejects without counting, and any other bucket counts the
      call and admits it. */
  method CheckRateLimit(client: Store?, registry: seq<ProviderConfig>, provider: string, now: nat)
    returns (limited: Result<bool>)
    modifies client
    ensures client == null ==> limited == Ok(false)
    ensures client != null ==>
      var key := RateLimitKey(provider, now);
      var step := RateCheck(old(client.Get(key)), RateLimitOf(registry, provider));
      && limited == step.limited
      && client.Get(key) == step.next
      && (forall k :: k != key ==> client.Get(k) == old(client.Get(k)))
      && client.counters.Keys == old(client.counters).Keys + {key}
      && client.expiresAt == (if old(client.Get(key)).None? then old(client.expiresAt)[key := now + 60]
                              else old(client.expiresAt))
      && client.lists == old(client.lists)
  {
    if client == null {
      return Ok(false);
    }
    var key := RateLimitKey(provider, now);
    var current := client.Get(key);
    if current.None? {
      client.SetEx(key, 60, 1, now);
      return Ok(false);
    }
    var limit := RateLimitOf(registry, provider);
    if limit.None? {
      return Err("KeyError: provider not in PROVIDERS");
    }
    if current.value >= limit.value {
      return Ok(true);
    }
    var _ := client.Incr(key);
    limited := Ok(false);
  }

  /** Admissions granted by `calls` consecutive checks against one bucket of a provider whose
      limit is `limit`, starting from a bucket holding `count`, and the bucket left behind. */
  function Burst(count: Option<int>, limit: int, calls: nat): (nat, Option<int>)
    decreases calls
  {
    if calls == 0 then (0, count)
    else
      var step := RateCheck(count, Some(limit));
      var rest := Burst(step.next, limit, calls - 1);
      ((if step.limited == Ok(false) then 1 else 0) + rest.0, rest.1)
  }

  lemma {:induction false} BurstFromCount(c: int, limit: int, calls: nat)
    requires 1 <= c <= limit
    ensures Burst(Some(c), limit, calls) == (Min(calls, limit - c), Some(c + Min(calls, limit - c)))
    decreases calls
  {
    if calls > 0 && c < limit {
      BurstFromCount(c + 1, limit, calls - 1);
    } else if calls > 0 {
      BurstFromCount(c, limit, calls - 1);
    }
  }

  /** Within one minute a provider with limit N >= 1 is admitted exactly min(k, N) times out of k
      checks, and its bucket never exceeds N: N + 1 checks give N admissions and one rejection. */
  lemma {:induction false} BurstAdmitsAtMostLimit(limit: int, calls: nat)
    requires limit >= 1 && calls >= 1
    ensures Burst(None, limit, calls).0 == Min(calls, limit)
    ensures Burst(None, limit, calls).1 == Some(Min(calls, limit))
    ensures CountOf(Burst(None, limit, calls).1) <= limit
  {
    BurstFromCount(1, limit, calls - 1);
  }

  // ----------------------------------------------------------------------------------------
  // Outcome recorder

  const LatencyCapacity: nat := 100
  const HourlyRetention: nat := 7 * 24 * 3600

  /** The latency list after LPUSH of `x` and LTRIM 0 99: the newest sample first, then the
      older ones, at most 100 in all. */
  function PushLatency(xs: seq<int>, x: int): (r: seq<int>)
    ensures |r| == Min(|xs| + 1, LatencyCapacity)
    ensures r[0] == x && r[1..] == xs[..|r| - 1]
  {
    Take([x] + xs, LatencyCapacity)
  }

  /** `update_metrics` run synchronously: with a client, a success bumps `success` and pushes the
      latency (keeping the 100 newest), a failure bumps only `errors`, and both bump the counter of
      the current hour and give it a 7-day lifetime. Without a client nothing happens. */
  method UpdateMetrics(client: Store?, provider: string, success: bool, latency: int, now: nat)
    modifies client
    ensures client != null ==>
      var hour := HourlyKey(provider, now);
      var outcome := if success then SuccessKey(provider) else ErrorsKey(provider);
      var lk := LatenciesKey(provider);
      && client.counters == old(client.counters)[outcome := CountOf(old(client.Get(outcome))) + 1]
                                                [hour := CountOf(old(client.Get(hour))) + 1]
      && client.lists == (if success then old(client.lists)[lk := PushLatency(old(client.List(lk)), latency)]
                          else old(client.lists))
      && client.expiresAt == old(client.expiresAt)[hour := now + HourlyRetention]
  {
    if client == null {
      return;
    }
    MetricKeysDistinct(provider, now);
    RecordOutcome(client, provider, success, latency);
    BumpHour(client, provider, now);
  }

  /** The outcome half of `update_metrics`: the success or error counter, and on success the
      trimmed latency list. */
  method RecordOutcome(client: Store, provider: string, success: bool, latency: int)
    modifies client
    ensures var outcome := if success then SuccessKey(provider) else ErrorsKey(provider);
      var lk := LatenciesKey(provider);
      && client.counters == old(client.counters)[outcome := CountOf(old(client.Get(outcome))) + 1]
      && client.lists == (if success then old(client.lists)[lk := PushLatency(old(client.List(lk)), latency)]
                          else old(client.lists))
      && client.expiresAt == old(client.expiresAt)
  {
    if success {
      MetricKeysDistinct(provider, 0);
      var _ := client.Incr(SuccessKey(provider));
      client.LPush(LatenciesKey(provider), latency);
      client.LTrim(LatenciesKey(provider), 0, LatencyCapacity - 1);
    } else {
      var _ := client.Incr(ErrorsKey(provider));
    }
  }

  /** The hourly half of `update_metrics`: bump the current hour's counter and give it a 7-day
      lifetime. */
  method BumpHour(client: Store, provider: string, now: nat)
    modifies client
    ensures var hour := HourlyKey(provider, now);
      && client.counters == old(client.counters)[hour := CountOf(old(client.Get(hour))) + 1]
      && client.expiresAt == old(client.expiresAt)[hour := now + HourlyRetention]
      && client.lists == old(client.lists)
  {
    var hour := HourlyKey(provider, now);
    var _ := client.Incr(hour);
    client.Expire(hour, HourlyRetention, now);
  }

  function Reverse(s: seq<int>): (r: seq<int>)
    ensures |r| == |s|
  {
    if |s| == 0 then [] else Reverse(s[1..]) + [s[0]]
  }

  /** The latency list after recording the successful samples `samples`, oldest first. */
  function PushAll(xs: seq<int>, samples: seq<int>): seq<int>
    decreases |samples|
  {
    if |samples| == 0 then xs else PushAll(PushLatency(xs, samples[0]), samples[1..])
  }

  lemma TakeOfTake(a: seq<int>, b: seq<int>, n: nat)
    ensures Take(a + Take(b, n), n) == Take(a + b, n)
  {
    if |a| < n {
      assert (a + Take(b, n))[..Min(n, |a + Take(b, n)|)] == (a + b)[..Min(n, |a + b|)];
    }
  }

  /** However many samples are recorded, a list of at most 100 entries ends up holding the newest
      100 of its samples and older contents, newest first. */
  lemma {:induction false} PushAllKeepsNewest(xs: seq<int>, samples: seq<int>)
    requires |xs| <= LatencyCapacity
    ensures PushAll(xs, samples) == Take(Reverse(samples) + xs, LatencyCapacity)
    decreases |samples|
  {
    if |samples| == 0 {
      assert Reverse(samples) + xs == xs;
    } else {
      var s0, rest := samples[0], samples[1..];
      PushAllKeepsNewest(PushLatency(xs, s0), rest);
      TakeOfTake(Reverse(rest), [s0] + xs, LatencyCapacity);
      assert Reverse(samples) == Reverse(rest) + [s0];
      assert Reverse(rest) + ([s0] + xs) == Reverse(samples) + xs;
    }
  }

  // ----------------------------------------------------------------------------------------
  // Cost and score

  lemma MulNonNegative(a: real, b: real)
    requires a >= 0.0 && b >= 0.0
    ensures a * b >= 0.0
  {
  }

  lemma MulMonotone(a: real, b: real, w: real)
    requires a >= b && w >= 0.0
    ensures a * w >= b * w
  {
    MulNonNegative(a - b, w);
  }

  /** `calculate_cost` before rounding to six decimals: tokens are priced per thousand. */
  function CalculateCost(config: ProviderConfig, inputTokens: int, outputTokens: int): (cost: real)
    ensures inputTokens == 0 && outputTokens == 0 ==> cost == 0.0
    ensures (inputTokens >= 0 && outputTokens >= 0 && config.costPer1kInput >= 0.0
             && config.costPer1kOutput >= 0.0) ==> cost >= 0.0
  {
    (inputTokens as real / 1000.0) * config.costPer1kInput
      + (outputTokens as real / 1000.0) * config.costPer1kOutput
  }

  /** Pricing is additive: two requests cost what one request with their summed tokens costs. */
  lemma CostIsAdditive(config: ProviderConfig, in1: int, out1: int, in2: int, out2: int)
    ensures CalculateCost(config, in1 + in2, out1 + out2)
            == CalculateCost(config, in1, out1) + CalculateCost(config, in2, out2)
  {
    assert (in1 + in2) as real / 1000.0 * config.costPer1kInput
           == in1 as real / 1000.0 * config.costPer1kInput + in2 as real / 1000.0 * config.costPer1kInput;
    assert (out1 + out2) as real / 1000.0 * config.costPer1kOutput
           == out1 as real / 1000.0 * config.costPer1kOutput + out2 as real / 1000.0 * config.costPer1kOutput;
  }

  /** The cost term: 1 for a free provider, falling linearly to 0 at 0.1 per thousand tokens. */
  function CostScore(cost: real): (s: real)
    ensures s >= 0.0
    ensures cost >= 0.0 ==> s <= 1.0
    ensures s == 0.0 <==> cost >= 0.1
  {
    MaxReal(0.0, 1.0 - cost / 0.1)
  }

  /** The latency term: 1 for an instant answer, falling linearly to 0 at 5000 ms. */
  function LatencyScore(latency: real): (s: real)
    ensures s >= 0.0
    ensures latency >= 0.0 ==> s <= 1.0
    ensures s == 0.0 <==> latency >= 5000.0
  {
    MaxReal(0.0, 1.0 - latency / 5000.0)
  }

  /** The caller's optional weights; a missing one takes its default. */
  datatype Preferences = Preferences(
    costWeight: Option<real>,
    latencyWeight: Option<real>,
    reliabilityWeight: Option<real>,
    qualityWeight: Option<real>)

  function NoPreferences(): Preferences { Preferences(None, None, None, None) }

  function WeightOr(w: Option<real>, default: real): real
  {
    if w.Some? then w.value else default
  }

  predicate NonNegativeWeights(p: Preferences)
  {
    WeightOr(p.costWeight, 0.25) >= 0.0 && WeightOr(p.latencyWeight, 0.25) >= 0.0
    && WeightOr(p.reliabilityWeight, 0.3) >= 0.0 && WeightOr(p.qualityWeight, 0.2) >= 0.0
  }

  /** The constant quality term: the per-task quality table is never consulted. */
  const Quality: real := 0.8

  /** `calculate_provider_score`: the weighted sum of the cost, latency, reliability and quality
      terms. With the default weights 0.25/0.25/0.3/0.2 and in-range inputs it lies in [0, 1];
      the task type plays no part, so weighting quality alone yields 0.8 whatever the task. */
  function ProviderScore(cost: real, latency: real, reliability: real, taskType: string,
                         prefs: Preferences): (score: real)
    ensures prefs == NoPreferences() && cost >= 0.0 && latency >= 0.0 && 0.0 <= reliability <= 1.0
            ==> 0.0 <= score <= 1.0
    ensures prefs == Preferences(Some(0.0), Some(0.0), Some(0.0), Some(1.0)) ==> score == Quality
  {
    CostScore(cost) * WeightOr(prefs.costWeight, 0.25)
      + LatencyScore(latency) * WeightOr(prefs.latencyWeight, 0.25)
      + reliability * WeightOr(prefs.reliabilityWeight, 0.3)
      + Quality * WeightOr(prefs.qualityWeight, 0.2)
  }

  /** With non-negative weights and a non-negative reliability the score is never negative. */
  lemma ScoreNonNegative(cost: real, latency: real, reliability: real, taskType: string,
                         prefs: Preferences)
    requires NonNegativeWeights(prefs) && reliability >= 0.0
    ensures ProviderScore(cost, latency, reliability, taskType, prefs) >= 0.0
  {
    MulNonNegative(CostScore(cost), WeightOr(prefs.costWeight, 0.25));
    MulNonNegative(LatencyScore(latency), WeightOr(prefs.latencyWeight, 0.25));
    MulNonNegative(reliability, WeightOr(prefs.reliabilityWeight, 0.3));
    MulNonNegative(Quality, WeightOr(prefs.qualityWeight, 0.2));
  }

  /** With equal weights, a provider that is no dearer, no slower and no less reliable scores at
      least as high. */
  lemma ScoreIsMonotone(c1: real, l1: real, r1: real, c2: real, l2: real, r2: real, task: string,
                        prefs: Preferences)
    requires NonNegativeWeights(prefs)
    requires c1 <= c2 && l1 <= l2 && r1 >= r2
    ensures ProviderScore(c1, l1, r1, task, prefs) >= ProviderScore(c2, l2, r2, task, prefs)
  {
    var wc, wl, wr := WeightOr(prefs.costWeight, 0.25), WeightOr(prefs.latencyWeight, 0.25),
                      WeightOr(prefs.reliabilityWeight, 0.3);
    assert CostScore(c1) >= CostScore(c2);
    assert LatencyScore(l1) >= LatencyScore(l2);
    MulMonotone(CostScore(c1), CostScore(c2), wc);
    MulMonotone(LatencyScore(l1), LatencyScore(l2), wl);
    MulMonotone(r1, r2, wr);
    var wq := WeightOr(prefs.qualityWeight, 0.2);
    var a1, a2 := CostScore(c1) * wc, CostScore(c2) * wc;
    var b1, b2 := LatencyScore(l1) * wl, LatencyScore(l2) * wl;
    var d1, d2 := r1 * wr, r2 * wr;
    assert a1 >= a2 && b1 >= b2 && d1 >= d2;
    assert ProviderScore(c1, l1, r1, task, prefs) == a1 + b1 + d1 + Quality * wq;
    assert ProviderScore(c2, l2, r2, task, prefs) == a2 + b2 + d2 + Quality * wq;
  }

  // ----------------------------------------------------------------------------------------
  // Historical statistics

  function Sum(xs: seq<int>): int
  {
    if |xs| == 0 then 0 else xs[0] + Sum(xs[1..])
  }

  /** The mean of the recent latencies, 2000 ms when there are none. */
  function AverageLatency(recent: seq<int>): (avg: real)
    ensures |recent| == 0 ==> avg == 2000.0
  {
    if |recent| == 0 then 2000.0 else Sum(recent) as real / |recent| as real
  }

  lemma {:induction false} SumBounds(xs: seq<int>, lo: int, hi: int)
    requires forall i :: 0 <= i < |xs| ==> lo <= xs[i] <= hi
    ensures |xs| * lo <= Sum(xs) <= |xs| * hi
  {
    if |xs| > 0 {
      SumBounds(xs[1..], lo, hi);
    }
  }

  lemma DivWithinBounds(total: real, n: real, lo: real, hi: real)
    requires n > 0.0 && n * lo <= total <= n * hi
    ensures lo <= total / n <= hi
  {
    var q := total / n;
    assert q * n == total;
    if q < lo {
      MulMonotone(lo - q, 0.0, n);
      assert false;
    }
    if q > hi {
      MulMonotone(q - hi, 0.0, n);
      assert false;
    }
  }

  lemma IntProductAsReal(a: int, b: int)
    ensures (a * b) as real == a as real * b as real
  {
  }

  /** The mean of samples in [lo, hi] is itself in [lo, hi]. */
  lemma AverageWithinBounds(recent: seq<int>, lo: int, hi: int)
    requires |recent| > 0
    requires forall i :: 0 <= i < |recent| ==> lo <= recent[i] <= hi
    ensures lo as real <= AverageLatency(recent) <= hi as real
  {
    SumBounds(recent, lo, hi);
    IntProductAsReal(|recent|, lo);
    IntProductAsReal(|recent|, hi);
    DivWithinBounds(Sum(recent) as real, |recent| as real, lo as real, hi as real);
  }

  /** The observed success ratio, 0.9 while nothing has been recorded. For counts that can occur
      it lies in [0, 1] and is 1 exactly when no error has been recorded. */
  function Reliability(success: int, errors: int): (r: real)
    ensures success + errors <= 0 ==> r == 0.9
    ensures success >= 0 && errors >= 0 ==> 0.0 <= r <= 1.0
    ensures success >= 0 && errors >= 0 && success + errors > 0 ==> (r == 1.0 <==> errors == 0)
  {
    if success + errors > 0 then
      var t := (success + errors) as real;
      (if success >= 0 && errors >= 0 then RatioInUnit(success as real, t); success as real / t
       else success as real / t)
    else 0.9
  }

  // ----------------------------------------------------------------------------------------
  // Smart routing

  /** One provider's entry in `all_scores`. */
  datatype Assessment = Assessment(name: string, score: real, reliability: real, avgLatency: real,
                                   cost: real)

  function ScoreOf(a: Assessment): real { a.score }

  function Names(s: seq<Assessment>): (names: seq<string>)
    ensures |names| == |s|
    ensures forall i :: 0 <= i < |s| ==> names[i] == s[i].name
  {
    if |s| == 0 then [] else [s[0].name] + Names(s[1..])
  }

  /** The assessment of `config` from the store's counters and its ten newest latencies. */
  function AssessIn(client: Store, config: ProviderConfig, taskType: string, prefs: Preferences)
    : (a: Assessment)
    reads client
    ensures a.name == config.name && a.cost == config.costPer1kInput
    ensures client.List(LatenciesKey(config.name)) == [] ==> a.avgLatency == 2000.0
    ensures client.Get(SuccessKey(config.name)).None? && client.Get(ErrorsKey(config.name)).None? ==>
              a.reliability == 0.9
    ensures CountOf(client.Get(SuccessKey(config.name))) >= 0 && CountOf(client.Get(ErrorsKey(config.name))) >= 0 ==>
              0.0 <= a.reliability <= 1.0
  {
    var success := CountOf(client.Get(SuccessKey(config.name)));
    var errors := CountOf(client.Get(ErrorsKey(config.name)));
    var avg := AverageLatency(Range(client.List(LatenciesKey(config.name)), 0, 9));
    var rel := Reliability(success, errors);
    Assessment(config.name, ProviderScore(config.costPer1kInput, avg, rel, taskType, prefs), rel, avg,
               config.costPer1kInput)
  }

  /** The position of a reason in the fixed order `generate_routing_reason` tests them. */
  function ReasonRank(reason: string): int
  {
    if reason == "high reliability" then 0
    else if reason == "fast response" then 1
    else if reason == "cost-effective" then 2
    else 3
  }

  /** The reasons that apply to the winner, in the fixed order reliability, latency, cost, or
      "balanced performance" when none applies. */
  function RoutingReasons(a: Assessment): (reasons: seq<string>)
    ensures |reasons| >= 1
    ensures forall i, j :: 0 <= i < j < |reasons| ==> ReasonRank(reasons[i]) < ReasonRank(reasons[j])
    ensures "balanced performance" in reasons ==> reasons == ["balanced performance"]
    ensures "high reliability" in reasons <==> a.reliability > 0.95
    ensures "fast response" in reasons <==> a.avgLatency < 1500.0
    ensures "cost-effective" in reasons <==> a.cost < 0.01
    ensures "balanced performance" in reasons
            <==> !(a.reliability > 0.95 || a.avgLatency < 1500.0 || a.cost < 0.01)
  {
    var found := (if a.reliability > 0.95 then ["high reliability"] else [])
                 + (if a.avgLatency < 1500.0 then ["fast response"] else [])
                 + (if a.cost < 0.01 then ["cost-effective"] else []);
    if found == [] then ["balanced performance"] else found
  }

  /** `generate_routing_reason`: "Selected <provider> for <task>: " followed by the reasons
      joined by ", ". */
  function RoutingReason(a: Assessment, taskType: string): (text: string)
    ensures var head := "Selected " + a.name + " for " + taskType + ": ";
            && |head| <= |text| && text[..|head|] == head
            && text[|head|..] == Join(RoutingReasons(a), ", ")
    ensures !(a.reliability > 0.95 || a.avgLatency < 1500.0 || a.cost < 0.01)
            ==> text == "Selected " + a.name + " for " + taskType + ": balanced performance"
  {
    var head := "Selected " + a.name + " for " + taskType + ": ";
    var reasons := RoutingReasons(a);
    var text := head + Join(reasons, ", ");
    assert text[..|head|] == head;
    assert text[|head|..] == Join(reasons, ", ");
    assert reasons == ["balanced performance"] ==> Join(reasons, ", ") == "balanced performance";
    text
  }

  /** When every reason applies they are listed in the order reliability, latency, cost. */
  lemma RoutingReasonAllThree(a: Assessment, taskType: string)
    requires a.reliability > 0.95 && a.avgLatency < 1500.0 && a.cost < 0.01
    ensures RoutingReason(a, taskType) == "Selected " + a.name + " for " + taskType + ": "
              + "high reliability" + ", " + "fast response" + ", " + "cost-effective"
  {
    var reasons := RoutingReasons(a);
    assert reasons == ["high reliability", "fast response", "cost-effective"];
    JoinThree("high reliability", "fast response", "cost-effective", ", ");
  }

  lemma JoinThree(x: string, y: string, z: string, sep: string)
    ensures Join([x, y, z], sep) == x + sep + y + sep + z
  {
    assert [x, y, z][1..] == [y, z];
    assert [y, z][1..] == [z];
    assert Join([z], sep) == z;
    assert Join([y, z], sep) == y + sep + z;
    assert Join([x, y, z], sep) == x + sep + (y + sep + z);
  }

  datatype RoutingDecision = RoutingDecision(
    recommended: string,
    confidence: real,
    reasoning: string,
    fallbacks: seq<string>,
    allScores: seq<Assessment>)

  /** `d` is the answer the endpoint gives for the assessments `scores`: the first provider with
      the highest score, its score capped at 1 as confidence, and the names of the second and
      third entries of the scores sorted (stably) from high to low as fallbacks. */
  predicate DecidedFrom(d: RoutingDecision, scores: seq<Assessment>, taskType: string)
  {
    && |scores| > 0
    && var k := Ranking.FirstMaxIndex(MapSeq(scores, ScoreOf));
    && var ranked := Ranking.SortDesc(scores, ScoreOf);
    && d.allScores == scores
    && d.recommended == scores[k].name
    && d.confidence == MinReal(scores[k].score, 1.0)
    && d.reasoning == RoutingReason(scores[k], taskType)
    && d.fallbacks == Names(ranked[1..Min(3, |ranked|)])
  }

  predicate DistinctAssessed(scores: seq<Assessment>)
  {
    forall i, j :: 0 <= i < j < |scores| ==> scores[i].name != scores[j].name
  }

  lemma InRemoveAt(s: seq<Assessment>, k: nat, x: Assessment)
    requires k < |s| && x in Ranking.RemoveAt(s, k)
    ensures exists i :: 0 <= i < |s| && i != k && s[i] == x
  {
    if x in s[..k] {
      var i :| 0 <= i < k && s[..k][i] == x;
      assert s[i] == x;
    } else {
      assert x in s[k + 1..];
      var i :| 0 <= i < |s| - k - 1 && s[k + 1..][i] == x;
      assert s[k + 1 + i] == x;
    }
  }

  /** No entry after the head of the ranking shares the winner's name. */
  lemma {:induction false} RankingTailExcludesWinner(scores: seq<Assessment>)
    requires |scores| > 0 && DistinctAssessed(scores)
    ensures forall x :: x in Ranking.SortDesc(scores, ScoreOf)[1..]
              ==> x.name != scores[Ranking.FirstMaxIndex(MapSeq(scores, ScoreOf))].name
  {
    var k := Ranking.FirstMaxIndex(MapSeq(scores, ScoreOf));
    var rest := Ranking.RemoveAt(scores, k);
    Ranking.SortDescHead(scores, ScoreOf);
    forall x | x in Ranking.SortDesc(scores, ScoreOf)[1..]
      ensures x.name != scores[k].name
    {
      assert x in multiset(Ranking.SortDesc(rest, ScoreOf));
      assert x in rest;
      InRemoveAt(scores, k, x);
    }
  }

  /** What the decision promises: there are min(2, n - 1) fallbacks, none of them the
      recommended provider, ordered by non-increasing score; the winner's score is the maximum
      and confidence never exceeds 1. */
  lemma {:induction false} DecisionProperties(d: RoutingDecision, scores: seq<Assessment>,
                                              taskType: string)
    requires DecidedFrom(d, scores, taskType) && DistinctAssessed(scores)
    ensures |d.fallbacks| == Min(2, |scores| - 1)
    ensures d.recommended !in d.fallbacks
    ensures d.confidence <= 1.0
    ensures exists k :: 0 <= k < |scores| && scores[k].name == d.recommended
                        && forall j :: 0 <= j < |scores| ==> scores[j].score <= scores[k].score
    ensures forall i, j :: 0 <= i < j < |d.fallbacks| ==> FallbackScore(d, i) >= FallbackScore(d, j)
  {
    var keys := MapSeq(scores, ScoreOf);
    var k := Ranking.FirstMaxIndex(keys);
    var ranked := Ranking.SortDesc(scores, ScoreOf);
    var tail := ranked[1..Min(3, |ranked|)];
    RankingTailExcludesWinner(scores);
    forall i | 0 <= i < |tail|
      ensures d.fallbacks[i] != d.recommended
    {
      assert tail[i] in ranked[1..];
    }
    assert forall j :: 0 <= j < |scores| ==> keys[j] == scores[j].score;
  }

  /** The score of the i-th fallback, read back from the sorted assessments. */
  function FallbackScore(d: RoutingDecision, i: nat): real
  {
    var ranked := Ranking.SortDesc(d.allScores, ScoreOf);
    if i + 1 < |ranked| then ranked[i + 1].score else 0.0
  }

  /** `smart_routing`: assess every registered provider in registry order, then rank. The
      endpoint dereferences the store client unconditionally, so without one it fails; with an
      empty registry `max` fails. */
  method SmartRouting(client: Store?, registry: seq<ProviderConfig>, taskType: Option<string>,
                      prefs: Preferences)
    returns (r: Result<RoutingDecision>)
    ensures client == null || |registry| == 0 ==> r.Err?
    ensures client != null && |registry| > 0 ==>
      && r.Ok?
      && |r.value.allScores| == |registry|
      && (forall i :: 0 <= i < |registry| ==>
            r.value.allScores[i] == AssessIn(client, registry[i], TaskOrDefault(taskType), prefs))
      && DecidedFrom(r.value, r.value.allScores, TaskOrDefault(taskType))
  {
    if client == null {
      return Err("AttributeError: store client is not connected");
    }
    var task := TaskOrDefault(taskType);
    var scores: seq<Assessment> := [];
    var i := 0;
    while i < |registry|
      invariant 0 <= i <= |registry|
      invariant |scores| == i
      invariant forall j :: 0 <= j < i ==> scores[j] == AssessIn(client, registry[j], task, prefs)
    {
      scores := scores + [AssessIn(client, registry[i], task, prefs)];
      i := i + 1;
    }
    if |scores| == 0 {
      return Err("ValueError: max() arg is an empty sequence");
    }
    var k := Ranking.FirstMaxIndex(MapSeq(scores, ScoreOf));
    var ranked := Ranking.SortDesc(scores, ScoreOf);
    var best := scores[k];
    r := Ok(RoutingDecision(best.name, MinReal(best.score, 1.0), RoutingReason(best, task),
                            Names(ranked[1..Min(3, |ranked|)]), scores));
  }

  /** The request's `task_type`, "text-generation" when absent. */
  function TaskOrDefault(taskType: Option<string>): string
  {
    if taskType.Some? then taskType.value else "text-generation"
  }
}
