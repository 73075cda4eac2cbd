/** The request handler's provider dispatch: the routed provider is tried first and then each
    fallback in order, every attempt recording the provider's health; plus the masking of stored
    API-key hashes for display. */
module AiHandler {
  import opened Wrappers
  import opened Routing
  import opened AdapterRegistry

  /** `models.AIResponse`, without its free-form metadata. */
  datatype AIResponse = AIResponse(
    content: string,
    provider: string,
    model: string,
    inputTokens: nat,
    outputTokens: nat,
    cost: real)

  /** A provider and model to send the request to. */
  datatype Target = Target(provider: string, model: string)

  /** An adapter's chat completion for the request being served: the outcome of the `n`-th
      attempt, sent to `adapter` with `model`. The remote call itself is not modelled. */
  type Chat = (nat, Adapter, string) -> Result<AIResponse>

  /** `makeAIRequest`: an unregistered provider fails without contacting anyone; otherwise the
      adapter's answer or error is passed through. */
  function MakeAIRequest(adapters: map<string, Adapter>, chat: Chat, attempt: nat, t: Target)
    : (r: Result<AIResponse>)
    ensures t.provider !in adapters ==> r == Err("unsupported provider: " + t.provider)
    ensures t.provider in adapters ==> r == chat(attempt, adapters[t.provider], t.model)
  {
    if t.provider !in adapters then Err("unsupported provider: " + t.provider)
    else chat(attempt, adapters[t.provider], t.model)
  }

  /** The routed provider followed by its fallbacks, in order. */
  function Candidates(routing: RoutingResult): (ts: seq<Target>)
    ensures |ts| == 1 + |routing.fallbacks|
    ensures ts[0] == Target(routing.provider, routing.model)
    ensures forall i :: 0 <= i < |routing.fallbacks| ==>
              ts[i + 1] == Target(routing.fallbacks[i].name, routing.fallbacks[i].model)
  {
    [Target(routing.provider, routing.model)]
      + seq(|routing.fallbacks|, i requires 0 <= i < |routing.fallbacks| =>
              Target(routing.fallbacks[i].name, routing.fallbacks[i].model))
  }

  /** What each candidate would answer if it were tried, attempt by attempt. */
  function Outcomes(adapters: map<string, Adapter>, chat: Chat, ts: seq<Target>)
    : (outs: seq<Result<AIResponse>>)
    ensures |outs| == |ts|
    ensures forall i :: 0 <= i < |ts| ==> outs[i] == MakeAIRequest(adapters, chat, i, ts[i])
  {
    seq(|ts|, i requires 0 <= i < |ts| => MakeAIRequest(adapters, chat, i, ts[i]))
  }

  /** The error returned when every candidate failed. */
  const AllFailedError: string := "all providers failed after fallback attempts"

  /** Position of the first success, if any. */
  function FirstSuccess(outs: seq<Result<AIResponse>>): (k: Option<nat>)
    ensures k.Some? ==> k.value < |outs| && outs[k.value].Ok?
    ensures k.Some? ==> forall j :: 0 <= j < k.value ==> outs[j].Err?
    ensures k.None? ==> forall j :: 0 <= j < |outs| ==> outs[j].Err?
  {
    if |outs| == 0 then None
    else if outs[0].Ok? then Some(0)
    else match FirstSuccess(outs[1..])
      case None => None
      case Some(k) => Some(k + 1)
  }

  /** The health update one attempt makes: healthy on success, unhealthy with the error text
      on failure. */
  function Report(status: map<string, ProviderStatus>, t: Target, out: Result<AIResponse>, now: int)
    : map<string, ProviderStatus>
  {
    var key := StatusKey(t.provider, t.model);
    var prior := if key in status then Some(status[key]) else None;
    status[key := StatusAfter(prior, t.provider, t.model, out.Ok?,
                              if out.Ok? then None else Some(out.error), now)]
  }

  /** The health table after reporting the attempts `ts` with outcomes `outs`, in order. */
  function Reported(status: map<string, ProviderStatus>, ts: seq<Target>,
                    outs: seq<Result<AIResponse>>, now: int): map<string, ProviderStatus>
    requires |ts| == |outs|
  {
    if |ts| == 0 then status
    else Report(Reported(status, ts[..|ts| - 1], outs[..|outs| - 1], now),
                ts[|ts| - 1], outs[|outs| - 1], now)
  }

  /** How many candidates are tried: up to and including the first that succeeds. */
  function Tried(outs: seq<Result<AIResponse>>): (n: nat)
    ensures n <= |outs|
  {
    match FirstSuccess(outs)
      case Some(k) => k + 1
      case None => |outs|
  }

  /** What the dispatch returns. */
  function Dispatched(outs: seq<Result<AIResponse>>): Result<AIResponse>
  {
    match FirstSuccess(outs)
      case Some(k) => outs[k]
      case None => Err(AllFailedError)
  }

  /** `makeAIRequestWithEnhancedFallback`: candidates are tried in order until one answers; every
      attempt, and only those, updates the health table, in the order they were made. */
  method MakeAIRequestWithEnhancedFallback(health: HealthRegistry, registry: Registry, chat: Chat,
                                           routing: RoutingResult, now: int)
    returns (r: Result<AIResponse>, tried: nat)
    modifies health
    ensures var outs := Outcomes(registry.adapters, chat, Candidates(routing));
      && tried == Tried(outs)
      && r == Dispatched(outs)
      && health.status == Reported(old(health.status), Candidates(routing)[..tried], outs[..tried], now)
  {
    r, tried := TryInOrder(health, registry.adapters, chat, Candidates(routing), now);
    ghost var outs := Outcomes(registry.adapters, chat, Candidates(routing));
    if r.Ok? {
      FirstSuccessAt(outs, tried - 1);
    } else {
      AllFailed(outs);
    }
  }

  /** The attempt loop over a fixed candidate list: it stops at the first answer, which it
      returns; every attempt before it failed; when all fail, all were tried. The health table
      reports exactly the attempts made. */
  method TryInOrder(health: HealthRegistry, adapters: map<string, Adapter>, chat: Chat,
                    ts: seq<Target>, now: int)
    returns (r: Result<AIResponse>, tried: nat)
    modifies health
    ensures var outs := Outcomes(adapters, chat, ts);
      && tried <= |ts|
      && (r.Ok? ==> 1 <= tried && r == outs[tried - 1] && FailedBefore(outs, tried - 1))
      && (r.Err? ==> tried == |ts| && r == Err(AllFailedError) && FailedBefore(outs, |ts|))
      && health.status == Reported(old(health.status), ts[..tried], outs[..tried], now)
  {
    ghost var outs := Outcomes(adapters, chat, ts);
    ghost var start := health.status;
    var i := 0;
    while i < |ts|
      invariant 0 <= i <= |ts|
      invariant FailedBefore(outs, i)
      invariant health.status == Reported(start, ts[..i], outs[..i], now)
    {
      var out := AttemptOne(health, adapters, chat, ts, outs, start, i, now);
      if out.Ok? {
        return out, i + 1;
      }
      FailedBeforeStep(outs, i);
      i := i + 1;
    }
    assert ts[..i] == ts && outs[..i] == outs;
    return Err(AllFailedError), |ts|;
  }

  /** Every outcome before position `i` is a failure. */
  predicate FailedBefore(outs: seq<Result<AIResponse>>, i: int)
  {
    forall j :: 0 <= j < i && j < |outs| ==> outs[j].Err?
  }

  /** One more failure extends the run of failures. */
  lemma FailedBeforeStep(outs: seq<Result<AIResponse>>, i: nat)
    requires FailedBefore(outs, i) && i < |outs| && outs[i].Err?
    ensures FailedBefore(outs, i + 1)
  {
  }

  /** The `i`-th attempt: ask the candidate and record the outcome, extending the report of the
      attempts before it. */
  method AttemptOne(health: HealthRegistry, adapters: map<string, Adapter>, chat: Chat,
                    ts: seq<Target>, ghost outs: seq<Result<AIResponse>>,
                    ghost start: map<string, ProviderStatus>, i: nat, now: int)
    returns (out: Result<AIResponse>)
    requires i < |ts| && outs == Outcomes(adapters, chat, ts)
    requires health.status == Reported(start, ts[..i], outs[..i], now)
    modifies health
    ensures out == outs[i]
    ensures health.status == Reported(start, ts[..i + 1], outs[..i + 1], now)
  {
    out := MakeAIRequest(adapters, chat, i, ts[i]);
    ReportedStep(start, ts, outs, i, now);
    ReportAttempt(health, ts[i], out, now);
  }

  /** Reporting one more attempt extends the report by that attempt. */
  lemma ReportedStep(status: map<string, ProviderStatus>, ts: seq<Target>,
                     outs: seq<Result<AIResponse>>, i: nat, now: int)
    requires |ts| == |outs| && i < |ts|
    ensures Reported(status, ts[..i + 1], outs[..i + 1], now)
              == Report(Reported(status, ts[..i], outs[..i], now), ts[i], outs[i], now)
  {
    assert ts[..i + 1][..i] == ts[..i] && outs[..i + 1][..i] == outs[..i];
  }

  /** One attempt's health update: healthy on success, unhealthy with its error otherwise. */
  method ReportAttempt(health: HealthRegistry, t: Target, out: Result<AIResponse>, now: int)
    modifies health
    ensures health.status == Report(old(health.status), t, out, now)
  {
    if out.Ok? {
      health.UpdateProviderStatus(t.provider, t.model, true, None, now);
    } else {
      health.UpdateProviderStatus(t.provider, t.model, false, Some(out.error), now);
    }
  }

  /** An attempt that succeeds after failures only is the first success. */
  lemma FirstSuccessAt(outs: seq<Result<AIResponse>>, i: nat)
    requires i < |outs| && outs[i].Ok?
    requires forall j :: 0 <= j < i ==> outs[j].Err?
    ensures FirstSuccess(outs) == Some(i)
    ensures Tried(outs) == i + 1 && Dispatched(outs) == outs[i]
  {
  }

  /** With every attempt failed there is no success. */
  lemma AllFailed(outs: seq<Result<AIResponse>>)
    requires forall j :: 0 <= j < |outs| ==> outs[j].Err?
    ensures FirstSuccess(outs) == None
    ensures Tried(outs) == |outs| && Dispatched(outs) == Err(AllFailedError)
  {
  }

  /** A primary that answers is the only one tried and its answer is returned. */
  lemma PrimaryAnswers(outs: seq<Result<AIResponse>>)
    requires |outs| > 0 && outs[0].Ok?
    ensures Tried(outs) == 1 && Dispatched(outs) == outs[0]
  {
  }

  /** A success ends the attempts: the last candidate tried is the one that answered, every one
      before it failed, and the dispatch fails only when every candidate did. */
  lemma DispatchOutcome(outs: seq<Result<AIResponse>>)
    ensures Dispatched(outs).Ok? ==> Tried(outs) >= 1 && Dispatched(outs) == outs[Tried(outs) - 1]
    ensures forall j :: 0 <= j < Tried(outs) - 1 ==> outs[j].Err?
    ensures Dispatched(outs).Err? <==> forall j :: 0 <= j < |outs| ==> outs[j].Err?
    ensures Dispatched(outs).Err? ==>
              Dispatched(outs).error == AllFailedError
  {
    var k := FirstSuccess(outs);
    if k.None? {
      assert Tried(outs) == |outs|;
    }
  }

  /** Reporting leaves every key outside the reported targets untouched. */
  lemma {:induction false} ReportedElsewhere(status: map<string, ProviderStatus>, ts: seq<Target>,
                                             outs: seq<Result<AIResponse>>, now: int, key: string)
    requires |ts| == |outs|
    requires forall t :: t in ts ==> StatusKey(t.provider, t.model) != key
    ensures key in Reported(status, ts, outs, now) <==> key in status
    ensures key in status ==> Reported(status, ts, outs, now)[key] == status[key]
  {
    if |ts| > 0 {
      ReportedElsewhere(status, ts[..|ts| - 1], outs[..|outs| - 1], now, key);
      assert ts[|ts| - 1] in ts;
    }
  }

  /** The candidates' status keys are pairwise different (each provider and model is listed
      once). */
  predicate DistinctKeys(ts: seq<Target>)
  {
    forall i, j :: 0 <= i < j < |ts| ==>
      StatusKey(ts[i].provider, ts[i].model) != StatusKey(ts[j].provider, ts[j].model)
  }

  /** When every candidate fails and each is listed once, each is reported exactly once: its
      error count goes up by one (from zero for a candidate never seen) and it keeps the error
      of its own attempt. */
  lemma {:induction false} EachFailureCountedOnce(status: map<string, ProviderStatus>,
                                                  ts: seq<Target>, outs: seq<Result<AIResponse>>,
                                                  now: int)
    requires |ts| == |outs| && DistinctKeys(ts)
    requires forall j :: 0 <= j < |outs| ==> outs[j].Err?
    ensures forall j :: 0 <= j < |ts| ==>
      var key := StatusKey(ts[j].provider, ts[j].model);
      var after := Reported(status, ts, outs, now);
      && key in after
      && after[key].errorCount == (if key in status then status[key].errorCount else 0) + 1
      && after[key].lastError == outs[j].error
      && after[key].lastCheck == now
  {
    if |ts| > 0 {
      var n := |ts| - 1;
      var init, last := ts[..n], ts[n];
      var lastKey := StatusKey(last.provider, last.model);
      EachFailureCountedOnce(status, init, outs[..n], now);
      var prev := Reported(status, init, outs[..n], now);
      forall t | t in init
        ensures StatusKey(t.provider, t.model) != lastKey
      {
        var i :| 0 <= i < n && init[i] == t;
      }
      ReportedElsewhere(status, init, outs[..n], now, lastKey);
      forall j | 0 <= j < |ts|
        ensures var key := StatusKey(ts[j].provider, ts[j].model);
          var after := Reported(status, ts, outs, now);
          && key in after
          && after[key].errorCount == (if key in status then status[key].errorCount else 0) + 1
          && after[key].lastError == outs[j].error
          && after[key].lastCheck == now
      {
        if j < n {
          assert init[j] == ts[j] && outs[..n][j] == outs[j];
        }
      }
    }
  }

  /** A stored key's hash as read back: only its hash feeds the masking. */
  datatype KeyRow = KeyRow(id: string, userId: string, name: string, keyHash: string, isActive: bool)

  /** What is shown for a stored key: the hash is replaced by a prefix and a suffix. */
  datatype MaskedKey = MaskedKey(id: string, userId: string, name: string, isActive: bool,
                                 prefix: string, suffix: string)

  /** The prefix and suffix shown for a hash: its first and last four characters when it has at
      least eight, nothing otherwise. Both are taken from the hash and never overlap, so no more
      than the hash itself is shown. */
  function Mask(hash: string): (m: (string, string))
    ensures |hash| >= 8 ==> |m.0| == 4 && |m.1| == 4
    ensures |hash| < 8 ==> m.0 == "" && m.1 == ""
    ensures m.0 <= hash
    ensures |m.1| <= |hash| && hash[|hash| - |m.1|..] == m.1
    ensures |m.0| + |m.1| <= |hash|
  {
    if |hash| >= 8 then (hash[..4], hash[|hash| - 4..]) else ("", "")
  }

  function MaskRow(row: KeyRow): MaskedKey
  {
    var (prefix, suffix) := Mask(row.keyHash);
    MaskedKey(row.id, row.userId, row.name, row.isActive, prefix, suffix)
  }

  /** The listing loop of `GetAPIKeys`: one masked entry per stored key, in the order read. */
  method MaskKeys(rows: seq<KeyRow>) returns (keys: seq<MaskedKey>)
    ensures |keys| == |rows|
    ensures forall i :: 0 <= i < |rows| ==> keys[i] == MaskRow(rows[i])
  {
    keys := [];
    var i := 0;
    while i < |rows|
      invariant 0 <= i <= |rows|
      invariant |keys| == i
      invariant forall k :: 0 <= k < i ==> keys[k] == MaskRow(rows[k])
    {
      var prefix := "";
      var suffix := "";
      var hash := rows[i].keyHash;
      if |hash| >= 8 {
        prefix := hash[..4];
        suffix := hash[|hash| - 4..];
      }
      keys := keys + [MaskedKey(rows[i].id, rows[i].userId, rows[i].name, rows[i].isActive,
                                prefix, suffix)];
      i := i + 1;
    }
  }
}
