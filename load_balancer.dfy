/** The load balancer: strategies for choosing one provider among those with a healthy status,
    the circuit breaker, the periodic health probe and the bounded retry loop. Statuses are keyed
    by provider name. Pings, task attempts and the metrics collector are parameters; time is an
    explicit `now`. */
module LoadBalancing {
  import opened Wrappers
  import opened Routing
  import opened Metrics

  /** `isHealthy`: a provider without a recorded status is not healthy. */
  predicate HealthyIn(status: map<string, ProviderStatus>, name: string)
  {
    name in status && status[name].healthy
  }

  // ----------------------------------------------------------------------------------------
  // Scores

  /** The weighted-response score needs a non-zero latency in milliseconds and a non-zero
      connection capacity (Go would otherwise divide by zero). */
  predicate Scorable(m: ProviderMetrics)
  {
    Milliseconds(m.averageLatency) != 0 && m.maxConnections != 0
  }

  /** Metrics in their normal ranges: positive latency and capacity, rates in [0, 1], no more
      active connections than capacity. */
  predicate Nominal(m: ProviderMetrics)
  {
    Milliseconds(m.averageLatency) > 0 && m.maxConnections > 0 && m.activeConnections <= m.maxConnections
    && 0.0 <= m.errorRate <= 1.0 && 0.0 <= m.successRate <= 1.0
  }

  /** `calculateProviderScore`: 0.3 per second-of-latency inverse, 0.25 for the error rate's
      complement, 0.2 for free capacity and 0.25 for the success rate. */
  function LbScore(m: ProviderMetrics): real
    requires Scorable(m)
  {
    var seconds := Milliseconds(m.averageLatency) as real / 1000.0;
    var load := m.activeConnections as real / m.maxConnections as real;
    (1.0 / seconds) * 0.3 + (1.0 - m.errorRate) * 0.25 + (1.0 - load) * 0.2 + m.successRate * 0.25
  }

  /** With nominal metrics the score is strictly positive, so it can never equal the -1 that
      `weightedResponse` uses as its "nothing selected" mark. */
  lemma NominalScorePositive(m: ProviderMetrics)
    requires Nominal(m)
    ensures LbScore(m) > 0.0
  {
    var seconds := Milliseconds(m.averageLatency) as real / 1000.0;
    var load := m.activeConnections as real / m.maxConnections as real;
    assert seconds > 0.0;
    assert 1.0 / seconds > 0.0;
    RatioInUnit(m.activeConnections as real, m.maxConnections as real);
    assert (1.0 - load) * 0.2 >= 0.0;
    assert (1.0 - m.errorRate) * 0.25 >= 0.0;
  }

  // ----------------------------------------------------------------------------------------
  // Selection strategies, as functions of the provider list and the status table

  /** `roundRobin`: the first provider with a healthy status. */
  function FirstHealthy(ps: seq<Provider>, status: map<string, ProviderStatus>): (r: Option<Provider>)
    ensures r.None? <==> forall i :: 0 <= i < |ps| ==> !HealthyIn(status, ps[i].name)
    ensures r.Some? ==>
      exists k :: 0 <= k < |ps| && ps[k] == r.value && HealthyIn(status, ps[k].name)
                  && forall j :: 0 <= j < k ==> !HealthyIn(status, ps[j].name)
  {
    if |ps| == 0 then None
    else if HealthyIn(status, ps[0].name) then Some(ps[0])
    else
      var r := FirstHealthy(ps[1..], status);
      if r.Some? then
        var k :| 0 <= k < |ps[1..]| && ps[1..][k] == r.value && HealthyIn(status, ps[1..][k].name)
                 && forall j :: 0 <= j < k ==> !HealthyIn(status, ps[1..][j].name);
        assert ps[k + 1] == r.value;
        assert forall j :: 1 <= j < k + 1 ==> ps[j] == ps[1..][j - 1];
        r
      else r
  }

  /** The running choice of `leastConnections` after the providers of `ps`: the provider held and
      its connection count, -1 while none is held. */
  function LeastSoFar(ps: seq<Provider>, status: map<string, ProviderStatus>,
                      metricsOf: string -> ProviderMetrics): (Option<Provider>, int)
    decreases |ps|
  {
    if |ps| == 0 then (None, -1)
    else
      var prev := LeastSoFar(ps[..|ps| - 1], status, metricsOf);
      var p := ps[|ps| - 1];
      if !HealthyIn(status, p.name) then prev
      else
        var c := metricsOf(p.name).activeConnections;
        if prev.1 == -1 || c < prev.1 then (Some(p), c) else prev
  }

  function Connections(metricsOf: string -> ProviderMetrics, p: Provider): nat
  {
    metricsOf(p.name).activeConnections
  }

  /** `leastConnections` picks nothing exactly when no provider is healthy, and otherwise the
      first healthy provider with the fewest active connections (`k` is its index, -1 when none). */
  lemma {:induction false} LeastSoFarIsFirstMinimum(ps: seq<Provider>, status: map<string, ProviderStatus>,
                                                    metricsOf: string -> ProviderMetrics)
    returns (k: int)
    ensures -1 <= k < |ps|
    ensures k == -1 <==> forall i :: 0 <= i < |ps| ==> !HealthyIn(status, ps[i].name)
    ensures k == -1 ==> LeastSoFar(ps, status, metricsOf) == (None, -1)
    ensures k >= 0 ==>
      && LeastSoFar(ps, status, metricsOf) == (Some(ps[k]), Connections(metricsOf, ps[k]))
      && HealthyIn(status, ps[k].name)
      && (forall j :: 0 <= j < |ps| && HealthyIn(status, ps[j].name) ==>
            Connections(metricsOf, ps[k]) <= Connections(metricsOf, ps[j]))
      && (forall j :: 0 <= j < k && HealthyIn(status, ps[j].name) ==>
            Connections(metricsOf, ps[k]) < Connections(metricsOf, ps[j]))
    decreases |ps|
  {
    if |ps| == 0 {
      return -1;
    }
    var n := |ps|;
    var init := ps[..n - 1];
    var k0 := LeastSoFarIsFirstMinimum(init, status, metricsOf);
    assert forall j :: 0 <= j < n - 1 ==> ps[j] == init[j];
    var p := ps[n - 1];
    if !HealthyIn(status, p.name) {
      k := k0;
    } else if k0 == -1 || Connections(metricsOf, p) < Connections(metricsOf, ps[k0]) {
      k := n - 1;
    } else {
      k := k0;
    }
  }

  /** The running choice of the corrected `weightedResponse`: the provider held and its score;
      the first healthy provider is always taken. */
  function WeightedSoFar(ps: seq<Provider>, status: map<string, ProviderStatus>,
                         metricsOf: string -> ProviderMetrics): (Option<Provider>, real)
    requires forall i :: 0 <= i < |ps| && HealthyIn(status, ps[i].name) ==> Scorable(metricsOf(ps[i].name))
    decreases |ps|
  {
    if |ps| == 0 then (None, -1.0)
    else
      var prev := WeightedSoFar(ps[..|ps| - 1], status, metricsOf);
      var p := ps[|ps| - 1];
      if !HealthyIn(status, p.name) then prev
      else
        var score := LbScore(metricsOf(p.name));
        if prev.0.None? || score > prev.1 then (Some(p), score) else prev
  }

  /** The running choice of `weightedResponse` as written: "nothing held yet" is tested as a held
      score of exactly -1. */
  function WeightedSoFarAsWritten(ps: seq<Provider>, status: map<string, ProviderStatus>,
                                  metricsOf: string -> ProviderMetrics): (Option<Provider>, real)
    requires forall i :: 0 <= i < |ps| && HealthyIn(status, ps[i].name) ==> Scorable(metricsOf(ps[i].name))
    decreases |ps|
  {
    if |ps| == 0 then (None, -1.0)
    else
      var prev := WeightedSoFarAsWritten(ps[..|ps| - 1], status, metricsOf);
      var p := ps[|ps| - 1];
      if !HealthyIn(status, p.name) then prev
      else
        var score := LbScore(metricsOf(p.name));
        if prev.1 == -1.0 || score > prev.1 then (Some(p), score) else prev
  }

  /** The two scans agree whenever no healthy provider scores exactly -1; in particular for
      nominal metrics, which score above 0. */
  lemma {:induction false} WeightedScansAgree(ps: seq<Provider>, status: map<string, ProviderStatus>,
                                              metricsOf: string -> ProviderMetrics)
    requires forall i :: 0 <= i < |ps| && HealthyIn(status, ps[i].name) ==> Scorable(metricsOf(ps[i].name))
    requires forall i :: 0 <= i < |ps| && HealthyIn(status, ps[i].name) ==> LbScore(metricsOf(ps[i].name)) != -1.0
    ensures WeightedSoFarAsWritten(ps, status, metricsOf) == WeightedSoFar(ps, status, metricsOf)
    ensures WeightedSoFar(ps, status, metricsOf).0.None? <==> WeightedSoFar(ps, status, metricsOf).1 == -1.0
    decreases |ps|
  {
    if |ps| > 0 {
      var init := ps[..|ps| - 1];
      assert forall i :: 0 <= i < |init| ==> init[i] == ps[i];
      WeightedScansAgree(init, status, metricsOf);
    }
  }

  /** With nominal metrics for every healthy provider, `weightedResponse` as written chooses what
      the corrected scan chooses. */
  lemma NominalScansAgree(ps: seq<Provider>, status: map<string, ProviderStatus>,
                          metricsOf: string -> ProviderMetrics)
    requires forall i :: 0 <= i < |ps| && HealthyIn(status, ps[i].name) ==>
               Scorable(metricsOf(ps[i].name)) && Nominal(metricsOf(ps[i].name))
    ensures WeightedSoFarAsWritten(ps, status, metricsOf) == WeightedSoFar(ps, status, metricsOf)
  {
    forall i | 0 <= i < |ps| && HealthyIn(status, ps[i].name)
      ensures LbScore(metricsOf(ps[i].name)) != -1.0
    {
      NominalScorePositive(metricsOf(ps[i].name));
    }
    WeightedScansAgree(ps, status, metricsOf);
  }

  function ScoreOfProvider(metricsOf: string -> ProviderMetrics, p: Provider): real
    requires Scorable(metricsOf(p.name))
  {
    LbScore(metricsOf(p.name))
  }

  /** The corrected `weightedResponse` picks nothing exactly when no provider is healthy, and
      otherwise the first healthy provider with the highest score (`k` is its index). */
  lemma {:induction false} WeightedSoFarIsFirstMaximum(ps: seq<Provider>, status: map<string, ProviderStatus>,
                                                       metricsOf: string -> ProviderMetrics)
    returns (k: int)
    requires forall i :: 0 <= i < |ps| && HealthyIn(status, ps[i].name) ==> Scorable(metricsOf(ps[i].name))
    ensures -1 <= k < |ps|
    ensures k == -1 <==> forall i :: 0 <= i < |ps| ==> !HealthyIn(status, ps[i].name)
    ensures k == -1 ==> WeightedSoFar(ps, status, metricsOf).0 == None
    ensures k >= 0 ==>
      && HealthyIn(status, ps[k].name)
      && WeightedSoFar(ps, status, metricsOf) == (Some(ps[k]), ScoreOfProvider(metricsOf, ps[k]))
      && (forall j :: 0 <= j < |ps| && HealthyIn(status, ps[j].name) ==>
            ScoreOfProvider(metricsOf, ps[j]) <= ScoreOfProvider(metricsOf, ps[k]))
      && (forall j :: 0 <= j < k && HealthyIn(status, ps[j].name) ==>
            ScoreOfProvider(metricsOf, ps[j]) < ScoreOfProvider(metricsOf, ps[k]))
    decreases |ps|
  {
    if |ps| == 0 {
      return -1;
    }
    var n := |ps|;
    var init := ps[..n - 1];
    assert forall j :: 0 <= j < n - 1 ==> ps[j] == init[j];
    var k0 := WeightedSoFarIsFirstMaximum(init, status, metricsOf);
    var p := ps[n - 1];
    if !HealthyIn(status, p.name) {
      k := k0;
    } else if k0 == -1 || ScoreOfProvider(metricsOf, p) > ScoreOfProvider(metricsOf, ps[k0]) {
      k := n - 1;
    } else {
      k := k0;
    }
  }

  /** Metrics of an overloaded pair: `a` runs 7.5 times its capacity and `b` 10 times, both with
      every request failing and a one-second latency. */
  function OverloadedMetrics(name: string): ProviderMetrics
  {
    if name == "a" then ProviderMetrics(0.0, 1.0, 0.0, 750, 100, 1_000_000_000)
    else ProviderMetrics(0.0, 1.0, 0.0, 1000, 100, 1_000_000_000)
  }

  /** With `a` scoring exactly -1 and `b` scoring -1.5, the sentinel test lets `b` displace the
      better `a`; the corrected loop keeps `a`. */
  lemma SentinelDisplacesBestProvider()
    ensures var a := Provider("a", "", 0.0, 0, 0.0, 0, []);
            var b := Provider("b", "", 0.0, 0, 0.0, 0, []);
            var status := map["a" := ProviderStatus("a", "", true, 0, 0, ""),
                              "b" := ProviderStatus("b", "", true, 0, 0, "")];
            && LbScore(OverloadedMetrics("a")) == -1.0
            && LbScore(OverloadedMetrics("b")) == -1.5
            && WeightedSoFarAsWritten([a, b], status, OverloadedMetrics).0 == Some(b)
            && WeightedSoFar([a, b], status, OverloadedMetrics).0 == Some(a)
  {
    var a := Provider("a", "", 0.0, 0, 0.0, 0, []);
    var b := Provider("b", "", 0.0, 0, 0.0, 0, []);
    var status := map["a" := ProviderStatus("a", "", true, 0, 0, ""),
                      "b" := ProviderStatus("b", "", true, 0, 0, "")];
    assert Milliseconds(1_000_000_000) == 1000;
    assert LbScore(OverloadedMetrics("a")) == -1.0;
    assert LbScore(OverloadedMetrics("b")) == -1.5;
    assert [a, b][..1] == [a];
    assert [a][..0] == [];
    assert WeightedSoFarAsWritten([a], status, OverloadedMetrics) == (Some(a), -1.0);
    assert WeightedSoFar([a], status, OverloadedMetrics) == (Some(a), -1.0);
  }

  // ----------------------------------------------------------------------------------------
  // Health probe

  /** One probe of `checkHealth`: create a healthy entry if needed, then record the ping's
      outcome and the time. */
  function Probe(status: map<string, ProviderStatus>, p: Provider, ping: Provider -> Option<string>,
                 now: int): map<string, ProviderStatus>
  {
    var s := if p.name in status then status[p.name] else ProviderStatus(p.name, "", true, now, 0, "");
    var e := ping(p);
    var s' := if e.Some? then s.(healthy := false, errorCount := s.errorCount + 1, lastError := e.value)
              else s.(healthy := true, errorCount := 0, lastError := "");
    status[p.name := s'.(lastCheck := now)]
  }

  /** The status table after probing the providers of `ps` in order. */
  function HealthChecked(status: map<string, ProviderStatus>, ps: seq<Provider>,
                         ping: Provider -> Option<string>, now: int): map<string, ProviderStatus>
    decreases |ps|
  {
    if |ps| == 0 then status
    else Probe(HealthChecked(status, ps[..|ps| - 1], ping, now), ps[|ps| - 1], ping, now)
  }

  predicate DistinctProviderNames(ps: seq<Provider>)
  {
    forall i, j :: 0 <= i < j < |ps| ==> ps[i].name != ps[j].name
  }

  /** A probe round leaves the entries of names it does not list untouched. */
  lemma {:induction false} HealthCheckedElsewhere(status: map<string, ProviderStatus>, ps: seq<Provider>,
                                                  ping: Provider -> Option<string>, now: int, name: string)
    requires name !in Names(ps)
    ensures var after := HealthChecked(status, ps, ping, now);
      (name in after <==> name in status) && (name in status ==> after[name] == status[name])
    decreases |ps|
  {
    if |ps| > 0 {
      var init := ps[..|ps| - 1];
      assert Names(ps) == Names(init) + {ps[|ps| - 1].name};
      HealthCheckedElsewhere(status, init, ping, now, name);
    }
  }

  /** After a probe round every listed provider has a status stamped `now`: healthy with no
      errors when its ping succeeded, otherwise unhealthy with one more error than before (a new
      entry counting from 0) and the ping's message. */
  lemma {:induction false} HealthCheckedOutcome(status: map<string, ProviderStatus>, ps: seq<Provider>,
                                                ping: Provider -> Option<string>, now: int)
    requires DistinctProviderNames(ps)
    ensures var after := HealthChecked(status, ps, ping, now);
      forall i :: 0 <= i < |ps| ==>
        var name := ps[i].name;
        var before := if name in status then status[name].errorCount else 0;
        && name in after && after[name].lastCheck == now
        && (ping(ps[i]).None? ==> after[name].healthy && after[name].errorCount == 0)
        && (ping(ps[i]).Some? ==> !after[name].healthy && after[name].errorCount == before + 1
                                  && after[name].lastError == ping(ps[i]).value)
    decreases |ps|
  {
    if |ps| > 0 {
      var n := |ps|;
      var init := ps[..n - 1];
      var last := ps[n - 1];
      assert forall j :: 0 <= j < n - 1 ==> ps[j] == init[j];
      HealthCheckedOutcome(status, init, ping, now);
      assert last.name !in Names(init);
      HealthCheckedElsewhere(status, init, ping, now, last.name);
    }
  }

  function Names(ps: seq<Provider>): set<string>
  {
    set i | 0 <= i < |ps| :: ps[i].name
  }

  // ----------------------------------------------------------------------------------------
  // The balancer

  /** What a strategy answers for the provider its scan chose: that provider, or the error when
      the scan found no healthy one. */
  function Answer(choice: Option<Provider>): Result<Provider>
  {
    if choice.Some? then Ok(choice.value) else Err("no healthy providers available")
  }

  class LoadBalancer {
    const strategy: string
    const maxRetries: int
    const circuitBreakerThreshold: int
    const providers: seq<Provider>
    var status: map<string, ProviderStatus>

    /** A balancer with the given configuration and providers and no statuses yet. */
    constructor (strategy: string, maxRetries: int, circuitBreakerThreshold: int, providers: seq<Provider>)
      ensures this.strategy == strategy && this.maxRetries == maxRetries
      ensures this.circuitBreakerThreshold == circuitBreakerThreshold && this.providers == providers
      ensures status == map[]
    {
      this.strategy := strategy;
      this.maxRetries := maxRetries;
      this.circuitBreakerThreshold := circuitBreakerThreshold;
      this.providers := providers;
      status := map[];
    }

    /** `NewLoadBalancer`: weighted response, 3 retries, breaker at 5 errors, and no providers,
        since nothing ever fills the list. */
    constructor Default()
      ensures strategy == "weighted-response" && maxRetries == 3 && circuitBreakerThreshold == 5
      ensures providers == [] && status == map[]
    {
      strategy := "weighted-response";
      maxRetries := 3;
      circuitBreakerThreshold := 5;
      providers := [];
      status := map[];
    }

    /** `isHealthy`. */
    predicate IsHealthy(name: string)
      reads this
    {
      HealthyIn(status, name)
    }

    /** `shouldTripCircuitBreaker`: a status exists and its error count has reached the
        threshold. */
    predicate ShouldTripCircuitBreaker(name: string)
      reads this
    {
      name in status && status[name].errorCount >= circuitBreakerThreshold
    }

    /** `markUnhealthy`: a known provider becomes unhealthy, checked now; an unknown one is left
        alone. */
    method MarkUnhealthy(name: string, now: int)
      modifies this
      ensures status == if name in old(status)
                        then old(status)[name := old(status)[name].(healthy := false, lastCheck := now)]
                        else old(status)
    {
      if name in status {
        status := status[name := status[name].(healthy := false, lastCheck := now)];
      }
    }

    /** `checkHealth`: probe every provider in list order. */
    method CheckHealth(ping: Provider -> Option<string>, now: int)
      modifies this
      ensures status == HealthChecked(old(status), providers, ping, now)
    {
      var i := 0;
      while i < |providers|
        invariant 0 <= i <= |providers|
        invariant status == HealthChecked(old(status), providers[..i], ping, now)
      {
        assert providers[..i + 1][..i] == providers[..i];
        var p := providers[i];
        var s: ProviderStatus;
        if p.name in status {
          s := status[p.name];
        } else {
          s := ProviderStatus(p.name, "", true, now, 0, "");
          status := status[p.name := s];
        }
        var e := ping(p);
        if e.Some? {
          s := s.(healthy := false, errorCount := s.errorCount + 1, lastError := e.value);
        } else {
          s := s.(healthy := true, errorCount := 0, lastError := "");
        }
        s := s.(lastCheck := now);
        status := status[p.name := s];
        i := i + 1;
      }
      assert providers[..|providers|] == providers;
    }

    /** `roundRobin`: the first healthy provider, scanning from the start every time. */
    method RoundRobin() returns (r: Result<Provider>)
      ensures r.Ok? <==> FirstHealthy(providers, status).Some?
      ensures r.Ok? ==> r.value == FirstHealthy(providers, status).value
      ensures r.Err? ==> r.error == "no healthy providers available"
    {
      var i := 0;
      while i < |providers|
        invariant 0 <= i <= |providers|
        invariant FirstHealthy(providers, status) == FirstHealthy(providers[i..], status)
      {
        if IsHealthy(providers[i].name) {
          return Ok(providers[i]);
        }
        assert providers[i..][1..] == providers[i + 1..];
        i := i + 1;
      }
      return Err("no healthy providers available");
    }

    /** `leastConnections`. */
    method LeastConnections(metricsOf: string -> ProviderMetrics) returns (r: Result<Provider>)
      ensures r.Ok? <==> LeastSoFar(providers, status, metricsOf).0.Some?
      ensures r.Ok? ==> r.value == LeastSoFar(providers, status, metricsOf).0.value
      ensures r.Err? ==> r.error == "no healthy providers available"
    {
      var selected: Option<Provider> := None;
      var minConn: int := -1;
      var i := 0;
      while i < |providers|
        invariant 0 <= i <= |providers|
        invariant (selected, minConn) == LeastSoFar(providers[..i], status, metricsOf)
      {
        assert providers[..i + 1][..i] == providers[..i];
        var p := providers[i];
        if IsHealthy(p.name) {
          var m := metricsOf(p.name);
          if minConn == -1 || m.activeConnections < minConn {
            selected := Some(p);
            minConn := m.activeConnections;
          }
        }
        i := i + 1;
      }
      assert providers[..|providers|] == providers;
      if selected.None? {
        return Err("no healthy providers available");
      }
      return Ok(selected.value);
    }

    /** `weightedResponse` with the "nothing held yet" test made explicit. */
    method WeightedResponse(metricsOf: string -> ProviderMetrics) returns (r: Result<Provider>)
      requires forall i :: 0 <= i < |providers| && HealthyIn(status, providers[i].name) ==>
                 Scorable(metricsOf(providers[i].name))
      ensures r.Ok? <==> WeightedSoFar(providers, status, metricsOf).0.Some?
      ensures r.Ok? ==> r.value == WeightedSoFar(providers, status, metricsOf).0.value
      ensures r.Err? ==> r.error == "no healthy providers available"
    {
      var selected: Option<Provider> := None;
      var bestScore := -1.0;
      var i := 0;
      while i < |providers|
        invariant 0 <= i <= |providers|
        invariant (selected, bestScore) == WeightedSoFar(providers[..i], status, metricsOf)
      {
        assert providers[..i + 1][..i] == providers[..i];
        var p := providers[i];
        if IsHealthy(p.name) {
          var score := LbScore(metricsOf(p.name));
          if selected.None? || score > bestScore {
            selected := Some(p);
            bestScore := score;
          }
        }
        i := i + 1;
      }
      assert providers[..|providers|] == providers;
      if selected.None? {
        return Err("no healthy providers available");
      }
      return Ok(selected.value);
    }

    /** `SelectProvider`: dispatch on the configured strategy. */
    method SelectProvider(metricsOf: string -> ProviderMetrics) returns (r: Result<Provider>)
      requires strategy == "weighted-response" ==>
                 forall i :: 0 <= i < |providers| && HealthyIn(status, providers[i].name) ==>
                   Scorable(metricsOf(providers[i].name))
      ensures strategy == "round-robin" ==> r == Answer(FirstHealthy(providers, status))
      ensures strategy == "least-connections" ==> r == Answer(LeastSoFar(providers, status, metricsOf).0)
      ensures strategy == "weighted-response" ==> r == Answer(WeightedSoFar(providers, status, metricsOf).0)
      ensures r.Ok? ==> r.value in providers && IsHealthy(r.value.name)
      ensures strategy !in {"round-robin", "least-connections", "weighted-response"} ==>
                r == Err("unknown load balancing strategy: " + strategy)
      ensures strategy in {"round-robin", "least-connections", "weighted-response"} && r.Err? ==>
                r.error == "no healthy providers available"
    {
      if strategy == "round-robin" {
        r := RoundRobin();
      } else if strategy == "least-connections" {
        r := LeastConnections(metricsOf);
        if r.Ok? {
          var k := LeastSoFarIsFirstMinimum(providers, status, metricsOf);
        }
      } else if strategy == "weighted-response" {
        r := WeightedResponse(metricsOf);
        if r.Ok? {
          var k := WeightedSoFarIsFirstMaximum(providers, status, metricsOf);
        }
      } else {
        r := Err("unknown load balancing strategy: " + strategy);
      }
    }

    /** `ExecuteWithRetry` without the sleeps and the no-op metric recording. `attempt(n)` is the
        outcome of the n-th call of the task (None: success). The loop runs at most `maxRetries`
        rounds; a round calls the task only while the provider's status is healthy; the first
        success ends it; a failure with the breaker tripped marks the provider unhealthy, which
        skips every later round. The error quotes the last failure, "<nil>" when the task never
        ran. */
    method ExecuteWithRetry(provider: Provider, attempt: nat -> Option<string>, now: int)
      returns (err: Option<string>, calls: nat)
      modifies this
      ensures calls <= if maxRetries > 0 then maxRetries else 0
      ensures err.None? ==> calls >= 1 && attempt(calls - 1).None?
      ensures forall j :: 0 <= j < calls && (err.Some? || j < calls - 1) ==> attempt(j).Some?
      ensures err.Some? ==> err.value == "all retries failed: " + (if calls == 0 then "<nil>" else attempt(calls - 1).value)
      ensures !old(IsHealthy(provider.name)) ==> calls == 0 && status == old(status)
      ensures old(IsHealthy(provider.name)) && !old(ShouldTripCircuitBreaker(provider.name)) ==>
                status == old(status) && (err.Some? ==> calls == if maxRetries > 0 then maxRetries else 0)
      ensures old(IsHealthy(provider.name)) && old(ShouldTripCircuitBreaker(provider.name)) && maxRetries > 0 ==>
                calls == 1
                && status == (if err.None? then old(status)
                              else old(status)[provider.name := old(status)[provider.name].(healthy := false, lastCheck := now)])
    {
      var name := provider.name;
      ghost var h0 := IsHealthy(name);
      ghost var trip0 := ShouldTripCircuitBreaker(name);
      var lastErr: Option<string> := None;
      calls := 0;
      var i := 0;
      while i < maxRetries
        invariant 0 <= i && (i <= maxRetries || i == 0)
        invariant calls <= i
        invariant forall j :: 0 <= j < calls ==> attempt(j).Some?
        invariant lastErr == if calls == 0 then None else attempt(calls - 1)
        invariant !h0 ==> calls == 0 && status == old(status)
        invariant h0 && !trip0 ==> calls == i && status == old(status)
        invariant h0 && trip0 ==>
          if i == 0 then calls == 0 && status == old(status)
          else calls == 1 && status == old(status)[name := old(status)[name].(healthy := false, lastCheck := now)]
      {
        if !IsHealthy(name) {
          i := i + 1;
          continue;
        }
        var e := attempt(calls);
        calls := calls + 1;
        if e.None? {
          return None, calls;
        }
        lastErr := e;
        if ShouldTripCircuitBreaker(name) {
          MarkUnhealthy(name, now);
          i := i + 1;
          continue;
        }
        i := i + 1;
      }
      err := Some("all retries failed: " + (if lastErr.None? then "<nil>" else lastErr.value));
    }
  }

  /** The balancer `NewLoadBalancer` builds has no providers, so every selection fails. */
  method DefaultSelectsNothing(metricsOf: string -> ProviderMetrics) returns (r: Result<Provider>)
    ensures r == Err("no healthy providers available")
  {
    var lb := new LoadBalancer.Default();
    r := lb.SelectProvider(metricsOf);
  }
}
