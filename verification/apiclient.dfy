/**
 * The API client: fetching a slot's ads with bounded retries, and the
 * `apply` request a reward-ad click sends, with its identity resolution
 * (environment alias, client id, service type, service key) and the
 * precedence of the request body's fields.
 *
 * The network is replaced by outcomes given as inputs: `attempt(k)` is what
 * the k-th fetch attempt yields, and `ApplyResponse` what the apply request
 * yields. Timers become `Wait` effects.
 */
module ApiClient {
  import opened Json
  import opened Utils
  import opened Configs

  // ---------------------------------------------------------------------------
  // fetchAdsWithRetry

  /** What one fetch attempt yields. */
  datatype FetchOutcome =
    | Response(status: int, body: Value)  // a response; `body` is what `res.json()` parsed
    | Threw                               // network error, abort on timeout, or a body that is not JSON

  /** `res.ok`: a 2xx status. */
  predicate Ok(status: int) {
    200 <= status <= 299
  }

  /** An attempt's result: the data it returns, or None when it fails and lands in the catch. */
  function Attempt(o: FetchOutcome): (r: Option<Value>)
    ensures r.Some? <==> o.Response? && Ok(o.status) && o.body != Undefined && o.body != Null
    ensures r.Some? ==> r.value == o.body
  {
    match o
    case Threw => None
    case Response(status, body) =>
      if !Ok(status) then None
      // `data.creatives` throws on a null body, inside the try
      else if body == Undefined || body == Null then None
      else Some(body)
  }

  /** `data.creatives && data.creatives.length > 0` */
  predicate HasCreatives(data: Value)
    ensures HasCreatives(data) ==> Truthy(OptionalProp(data, "creatives"))
  {
    var creatives := OptionalProp(data, "creatives");
    match creatives
    case Arr(items) => |items| > 0
    case Str(s) => |s| > 0
    case Obj(props) => Lookup(props, "length").Num? && Lookup(props, "length").n > 0
    case _ => false
  }

  /** The result of `fetchAdsWithRetry`: the data returned, what it did, and how many attempts it made. */
  datatype FetchRun = FetchRun(data: Value, effects: seq<Effect>, attempts: nat)

  /** `{ creatives: [] }` */
  const NoAds: Value := Obj(map["creatives" := Arr([])])

  /**
   * fetchAdsWithRetry(slotId, attempt): on success, AD_LOADED when there are
   * creatives and the data; on failure, while attempt < retryCount, wait
   * retryDelay and try again with attempt + 1; after the last failure, one
   * NETWORK error and `{ creatives: [] }`.
   */
  function FetchAds(outcome: nat -> FetchOutcome, retryCount: int, retryDelay: int, attempt: nat): (run: FetchRun)
    ensures 1 <= run.attempts
    ensures attempt < retryCount ==> run.attempts <= retryCount - attempt + 1
    ensures attempt >= retryCount ==> run.attempts == 1
    decreases if attempt < retryCount then retryCount - attempt else 0
  {
    match Attempt(outcome(attempt))
    case Some(data) =>
      FetchRun(data, if HasCreatives(data) then [Emit(AdLoaded, OptionalProp(data, "creatives"))] else [], 1)
    case None =>
      if attempt < retryCount then
        var rest := FetchAds(outcome, retryCount, retryDelay, attempt + 1);
        FetchRun(rest.data, [Wait(retryDelay)] + rest.effects, rest.attempts + 1)
      else
        FetchRun(NoAds, [Report(NetworkError)], 1)
  }

  /** Every attempt from `from` up to `to` (excluded) fails. */
  predicate FailsFrom(outcome: nat -> FetchOutcome, from: nat, to: nat) {
    forall k :: from <= k < to ==> Attempt(outcome(k)).None?
  }

  /**
   * When every attempt fails: retryCount + 1 attempts in all (one when
   * retryCount is not positive), a wait before each retry, then exactly one
   * NETWORK error and `{ creatives: [] }`; never AD_LOADED.
   */
  lemma {:induction false} FetchExhausted(outcome: nat -> FetchOutcome, retryCount: int, retryDelay: int, attempt: nat)
    requires FailsFrom(outcome, attempt, if attempt < retryCount then retryCount + 1 else attempt + 1)
    ensures var run := FetchAds(outcome, retryCount, retryDelay, attempt);
      && run.data == NoAds
      && run.attempts == (if attempt < retryCount then retryCount - attempt + 1 else 1)
      && run.effects == seq(run.attempts - 1, _ => Wait(retryDelay)) + [Report(NetworkError)]
      && Count(run.effects, Report(NetworkError)) == 1
      && forall e :: e in run.effects ==> !e.Emit?
    decreases if attempt < retryCount then retryCount - attempt else 0
  {
    var run := FetchAds(outcome, retryCount, retryDelay, attempt);
    assert Attempt(outcome(attempt)).None?;
    if attempt < retryCount {
      FetchExhausted(outcome, retryCount, retryDelay, attempt + 1);
      var rest := FetchAds(outcome, retryCount, retryDelay, attempt + 1);
      var waits := seq(rest.attempts - 1, _ => Wait(retryDelay));
      assert run.effects == ([Wait(retryDelay)] + waits) + [Report(NetworkError)];
      assert [Wait(retryDelay)] + waits == seq(run.attempts - 1, _ => Wait(retryDelay));
      CountWaits(|waits| + 1, retryDelay);
      CountAppend([Wait(retryDelay)] + waits, [Report(NetworkError)], Report(NetworkError));
    } else {
      assert run.effects == [] + [Report(NetworkError)];
    }
  }

  /** A run of waits holds no report. */
  lemma {:induction false} CountWaits(n: nat, ms: int)
    ensures Count(seq(n, _ => Wait(ms)), Report(NetworkError)) == 0
  {
    if n > 0 {
      assert seq(n, _ => Wait(ms))[1..] == seq(n - 1, _ => Wait(ms));
      CountWaits(n - 1, ms);
    }
  }

  /**
   * The first attempt that succeeds decides the result, provided it comes
   * within the retry budget: its parsed body is returned unchanged after
   * the earlier failures' waits, no error is reported, and AD_LOADED is
   * emitted exactly when the body has creatives.
   */
  lemma {:induction false} FetchSucceedsAt(outcome: nat -> FetchOutcome, retryCount: int, retryDelay: int,
                                           attempt: nat, k: nat)
    requires attempt <= k && (k == attempt || k <= retryCount)
    requires FailsFrom(outcome, attempt, k)
    requires Attempt(outcome(k)).Some?
    ensures var run := FetchAds(outcome, retryCount, retryDelay, attempt);
      && run.data == Attempt(outcome(k)).value
      && run.attempts == k - attempt + 1
      && run.effects == seq(k - attempt, _ => Wait(retryDelay))
                        + (if HasCreatives(run.data) then [Emit(AdLoaded, OptionalProp(run.data, "creatives"))] else [])
      && Count(run.effects, Report(NetworkError)) == 0
    decreases k - attempt
  {
    var run := FetchAds(outcome, retryCount, retryDelay, attempt);
    var data := Attempt(outcome(k)).value;
    var loaded: seq<Effect> := if HasCreatives(data) then [Emit(AdLoaded, OptionalProp(data, "creatives"))] else [];
    assert Count(loaded, Report(NetworkError)) == 0 by {
      if loaded != [] {
        assert loaded[1..] == [];
      }
    }
    if k == attempt {
      assert run.effects == [] + loaded;
      assert seq(0, _ => Wait(retryDelay)) == [];
    } else {
      assert Attempt(outcome(attempt)).None?;
      FetchSucceedsAt(outcome, retryCount, retryDelay, attempt + 1, k);
      var waits := seq(k - attempt - 1, _ => Wait(retryDelay));
      assert [Wait(retryDelay)] + waits == seq(k - attempt, _ => Wait(retryDelay));
      assert run.effects == ([Wait(retryDelay)] + waits) + loaded;
      CountWaits(k - attempt, retryDelay);
      CountAppend([Wait(retryDelay)] + waits, loaded, Report(NetworkError));
    }
  }

  // ---------------------------------------------------------------------------
  // apply

  /** What the apply request yields. */
  datatype ApplyResponse =
    | Answered(ok: bool, json: Option<Value>)  // a response; `json` is None when its body is not JSON
    | Unanswered                               // network error or `promiseWithTimeout` timing out

  /** What `apply` sends: the endpoint and the JSON body. */
  datatype ApplyRequest = ApplyRequest(endpoint: string, body: map<string, Value>)

  /** `envMapping[env] || env`: 'sandbox' is served as 'qa'. */
  function ResolvedEnv(env: Value): (r: Value)
    ensures env == Str("sandbox") ==> r == Str("qa")
    ensures env != Str("sandbox") ==> r == env
    ensures Truthy(r) <==> Truthy(env)
  {
    if env == Str("sandbox") then Str("qa") else env
  }

  /** The index of the first service type at or after `from` whose id is `clientId`. */
  function FirstIdIndex(types: seq<(string, string)>, clientId: Value, from: nat): (r: Option<nat>)
    ensures r.Some? ==> from <= r.value < |types| && Str(types[r.value].1) == clientId
    ensures r.Some? ==> forall j :: from <= j < r.value ==> Str(types[j].1) != clientId
    ensures r.None? ==> forall j :: from <= j < |types| ==> Str(types[j].1) != clientId
    decreases |types| - from
  {
    if from >= |types| then None
    else if Str(types[from].1) == clientId then Some(from)
    else FirstIdIndex(types, clientId, from + 1)
  }

  /** Within environment i, the search stops at the first type with the id; a type named '' is falsy and does not end it. */
  predicate EndsSearch(ids: seq<(string, seq<(string, string)>)>, clientId: Value, i: nat)
    requires i < |ids|
  {
    var j := FirstIdIndex(ids[i].1, clientId, 0);
    j.Some? && ids[i].1[j.value].0 != ""
  }

  /**
   * The nested `for…in` over CLIENT_IDS: environments in order, within each
   * the types in order; the position (environment, type) that ends the search.
   */
  function FindServiceType(ids: seq<(string, seq<(string, string)>)>, clientId: Value, from: nat): (r: Option<(nat, nat)>)
    ensures r.Some? ==> from <= r.value.0 < |ids| && EndsSearch(ids, clientId, r.value.0)
                        && FirstIdIndex(ids[r.value.0].1, clientId, 0) == Some(r.value.1)
    ensures r.Some? ==> forall i :: from <= i < r.value.0 ==> !EndsSearch(ids, clientId, i)
    ensures r.None? ==> forall i :: from <= i < |ids| ==> !EndsSearch(ids, clientId, i)
    decreases |ids| - from
  {
    if from >= |ids| then None
    else if EndsSearch(ids, clientId, from) then Some((from, FirstIdIndex(ids[from].1, clientId, 0).value))
    else FindServiceType(ids, clientId, from + 1)
  }

  /** The service type `apply` uses: the configured one, else the one found from the client id. */
  function ResolvedServiceType(configured: Value, clientId: Value, ids: seq<(string, seq<(string, string)>)>): (r: Value)
    ensures Truthy(configured) || !Truthy(clientId) ==> r == configured
    ensures !Truthy(configured) && Truthy(clientId) && FindServiceType(ids, clientId, 0).None? ==> r == configured
    ensures !Truthy(configured) && Truthy(clientId) && FindServiceType(ids, clientId, 0).Some? ==>
              var p := FindServiceType(ids, clientId, 0).value;
              r == Str(ids[p.0].1[p.1].0) && Truthy(r) && Str(ids[p.0].1[p.1].1) == clientId
  {
    if !Truthy(configured) && Truthy(clientId) then
      match FindServiceType(ids, clientId, 0)
      case Some(p) => Str(ids[p.0].1[p.1].0)
      case None => configured
    else configured
  }

  /**
   * The service key `apply` sends: the user's, else SERVICE_KEYS[env][the
   * service type's category] when that is set. None when the category cannot
   * be computed (a truthy service type that is not a string has no `replace`).
   */
  function ServiceKeyOf(userKey: Value, serviceType: Value, resolvedEnv: Value, t: Tables): (r: Option<Value>)
    ensures Truthy(userKey) || !Truthy(serviceType) ==> r == Some(userKey)
    ensures r.None? <==> !Truthy(userKey) && Truthy(serviceType) && !serviceType.Str?
    ensures !Truthy(userKey) && serviceType.Str? && serviceType.s != "" && resolvedEnv.Str? ==>
              var key := ServiceKeyFor(t, resolvedEnv.s, ServiceCategory(serviceType.s));
              r == Some(if key.Some? then Str(key.value) else userKey)
    ensures !Truthy(userKey) && serviceType.Str? && !resolvedEnv.Str? ==> r == Some(userKey)
  {
    if Truthy(userKey) || !Truthy(serviceType) then Some(userKey)
    else if !serviceType.Str? then None
    else if resolvedEnv.Str? then
      match ServiceKeyFor(t, resolvedEnv.s, ServiceCategory(serviceType.s))
      case Some(key) => Some(Str(key))
      case None => Some(userKey)
    else Some(userKey)
  }

  /** The request body: each field from its sources in order of precedence. */
  function ApplyBody(creative: map<string, Value>, userParams: Value, clientId: Value, serviceKey: Value,
                     resolvedEnv: Value): (body: map<string, Value>)
    ensures body.Keys == {"dspContentId", "advId", "ask", "userId", "clientId", "serviceKey", "env"}
    ensures var fromAdInfo := OptionalProp(Lookup(creative, "adInfo"), "dspContentId");
            body["dspContentId"] == if Truthy(fromAdInfo) then fromAdInfo else Lookup(creative, "dspContentId")
    ensures var ifa := OptionalProp(userParams, "plainIfa");
            body["advId"] == if Truthy(ifa) then ifa else Lookup(creative, "advId")
    ensures body["ask"] == OptionalProp(Lookup(creative, "apply"), "ask")
    ensures var fromUserInfo := OptionalProp(Lookup(creative, "userInfo"), "userId");
            var fromParams := OptionalProp(userParams, "userInfo_userId");
            body["userId"] == if Truthy(fromUserInfo) then fromUserInfo
                              else if Truthy(fromParams) then fromParams
                              else Lookup(creative, "userId")
    ensures body["clientId"] == clientId && body["serviceKey"] == serviceKey
    ensures body["env"] == if Truthy(Lookup(creative, "env")) then Lookup(creative, "env") else resolvedEnv
  {
    map["dspContentId" := Or(OptionalProp(Lookup(creative, "adInfo"), "dspContentId"), Lookup(creative, "dspContentId")),
        "advId" := Or(OptionalProp(userParams, "plainIfa"), Lookup(creative, "advId")),
        "ask" := OptionalProp(Lookup(creative, "apply"), "ask"),
        "userId" := Or(OptionalProp(Lookup(creative, "userInfo"), "userId"),
                       Or(OptionalProp(userParams, "userInfo_userId"), Lookup(creative, "userId"))),
        "clientId" := clientId,
        "serviceKey" := serviceKey,
        "env" := Or(Lookup(creative, "env"), resolvedEnv)]
  }

  /**
   * The request `apply` sends for a creative (the processed plain object),
   * given the configured env, userParams and serviceType, the tables and the
   * APPLY endpoint of the configured env; None when it throws before sending.
   */
  function ApplyPlan(creative: map<string, Value>, env: Value, userParams: Value, configuredType: Value,
                     t: Tables, endpoint: Option<string>): (r: Option<ApplyRequest>)
    ensures !Truthy(OptionalProp(Lookup(creative, "apply"), "ask")) ==> r.None?
    ensures userParams == Undefined || userParams == Null ==> r.None?
    ensures endpoint.None? || endpoint == Some("") ==> r.None?
    ensures var clientId := Or(Lookup(creative, "clientId"), OptionalProp(userParams, "clientId"));
            var serviceType := ResolvedServiceType(configuredType, clientId, t.clientIds);
            var serviceKey := ServiceKeyOf(OptionalProp(userParams, "serviceKey"), serviceType, ResolvedEnv(env), t);
            r.Some? <==> && Truthy(OptionalProp(Lookup(creative, "apply"), "ask"))
                         && userParams != Undefined && userParams != Null
                         && serviceKey.Some? && endpoint.Some? && endpoint.value != ""
    ensures var clientId := Or(Lookup(creative, "clientId"), OptionalProp(userParams, "clientId"));
            var serviceType := ResolvedServiceType(configuredType, clientId, t.clientIds);
            var serviceKey := ServiceKeyOf(OptionalProp(userParams, "serviceKey"), serviceType, ResolvedEnv(env), t);
            r.Some? ==> && r.value.endpoint == endpoint.value
                        && r.value.body == ApplyBody(creative, userParams, clientId, serviceKey.value, ResolvedEnv(env))
  {
    var ask := OptionalProp(Lookup(creative, "apply"), "ask");
    if !Truthy(ask) || userParams == Undefined || userParams == Null then None
    else
      var resolvedEnv := ResolvedEnv(env);
      var clientId := Or(Lookup(creative, "clientId"), OptionalProp(userParams, "clientId"));
      var serviceType := ResolvedServiceType(configuredType, clientId, t.clientIds);
      match ServiceKeyOf(OptionalProp(userParams, "serviceKey"), serviceType, resolvedEnv, t)
      case None => None
      case Some(serviceKey) =>
        if endpoint.None? || endpoint.value == "" then None
        else Some(ApplyRequest(endpoint.value, ApplyBody(creative, userParams, clientId, serviceKey, resolvedEnv)))
  }

  /**
   * The search of CLIENT_IDS in `apply`: environment by environment, the
   * first type whose id is the client id; a type named '' does not end it.
   */
  method FindType(ids: seq<(string, seq<(string, string)>)>, clientId: Value) returns (found: Option<string>)
    ensures found.Some? <==> FindServiceType(ids, clientId, 0).Some?
    ensures found.Some? ==> var p := FindServiceType(ids, clientId, 0).value;
                            found.value == ids[p.0].1[p.1].0 && found.value != ""
  {
    var i := 0;
    while i < |ids|
      invariant 0 <= i <= |ids|
      invariant FindServiceType(ids, clientId, i) == FindServiceType(ids, clientId, 0)
    {
      var types := ids[i].1;
      var hit: Option<string> := None;
      var j := 0;
      while j < |types|
        invariant 0 <= j <= |types|
        invariant hit == None
        invariant FirstIdIndex(types, clientId, j) == FirstIdIndex(types, clientId, 0)
      {
        if Str(types[j].1) == clientId {
          hit := Some(types[j].0);
          break;
        }
        j := j + 1;
      }
      if hit.Some? && hit.value != "" {
        return hit;
      }
      i := i + 1;
    }
    return None;
  }

  /**
   * apply(creative): builds and sends the request, then returns the
   * response's JSON; any failure (no ask, a TypeError, no endpoint, no or a
   * non-ok response) returns null (None) after one NETWORK error.
   */
  method Apply(creative: map<string, Value>, config: Config, response: ApplyResponse)
    returns (result: Option<Value>, sent: Option<ApplyRequest>, effects: seq<Effect>)
    ensures sent == ApplyPlan(creative, config.Get("env"), config.Get("userParams"), config.Get("serviceType"),
                              config.tables, config.ApplyEndpoint())
    ensures result.Some? <==> sent.Some? && response.Answered? && response.ok && response.json.Some?
    ensures result.Some? ==> result.value == response.json.value && effects == []
    ensures result.None? ==> effects == [Report(NetworkError)]
  {
    var failed := [Report(NetworkError)];
    var userParams := config.Get("userParams");
    if !Truthy(OptionalProp(Lookup(creative, "apply"), "ask")) || userParams == Undefined || userParams == Null {
      return None, None, failed;
    }
    var resolvedEnv := ResolvedEnv(config.Get("env"));
    var clientId := Or(Lookup(creative, "clientId"), OptionalProp(userParams, "clientId"));

    var serviceType := config.Get("serviceType");
    if !Truthy(serviceType) && Truthy(clientId) {
      var found := FindType(config.tables.clientIds, clientId);
      if found.Some? {
        serviceType := Str(found.value);
      }
    }
    ghost var resolvedType := ResolvedServiceType(config.Get("serviceType"), clientId, config.tables.clientIds);
    assert Truthy(serviceType) <==> Truthy(resolvedType);
    assert Truthy(serviceType) ==> serviceType == resolvedType;

    var serviceKey := ServiceKeyOf(OptionalProp(userParams, "serviceKey"), serviceType, resolvedEnv, config.tables);
    if serviceKey.None? {
      return None, None, failed;
    }
    var endpoint := config.ApplyEndpoint();
    if endpoint.None? || endpoint.value == "" {
      return None, None, failed;
    }
    sent := Some(ApplyRequest(endpoint.value, ApplyBody(creative, userParams, clientId, serviceKey.value, resolvedEnv)));
    if response.Answered? && response.ok && response.json.Some? {
      return response.json, sent, [];
    }
    return None, sent, failed;
  }

  /**
   * The service type found from a client id maps back to it: with
   * environment names and the type names within each environment distinct,
   * CLIENT_IDS[env][type] at the found position is the client id.
   */
  lemma FoundTypeMapsBack(t: Tables, id: string, i: nat, j: nat)
    requires forall a, b :: 0 <= a < b < |t.clientIds| ==> t.clientIds[a].0 != t.clientIds[b].0
    requires forall a :: 0 <= a < |t.clientIds| ==>
               forall b, c :: 0 <= b < c < |t.clientIds[a].1| ==> t.clientIds[a].1[b].0 != t.clientIds[a].1[c].0
    requires id != ""
    requires FindServiceType(t.clientIds, Str(id), 0) == Some((i, j))
    ensures ClientIdFor(t, t.clientIds[i].0, t.clientIds[i].1[j].0) == Some(id)
  {
    var ids := t.clientIds;
    assert IndexOfKey(ids, ids[i].0, 0) == Some(i);
    assert IndexOfKey(ids[i].1, ids[i].1[j].0, 0) == Some(j);
  }

  /**
   * 'sandbox' is aliased to 'qa' for the service key and the body's env,
   * but the APPLY endpoint is looked up under the raw env: with the shipped
   * endpoint tables there is none for 'sandbox', so `apply` always fails.
   */
  lemma SandboxApplyFails(creative: map<string, Value>, config: Config)
    requires config.Get("env") == Str("sandbox")
    requires EndpointsShape(config.tables)
    ensures ResolvedEnv(config.Get("env")) == Str("qa")
    ensures config.ApplyEndpoint().None?
    ensures ApplyPlan(creative, config.Get("env"), config.Get("userParams"), config.Get("serviceType"),
                      config.tables, config.ApplyEndpoint()).None?
  {
    assert "sandbox" !in {"dev", "qa", "prod"};
  }

  /**
   * A missing advId or service key does not stop the request: only the ask,
   * userParams, a service type without `replace` and the endpoint do. The
   * body then carries the falsy advId and service key as they are.
   */
  lemma MissingIdsStillSend(creative: map<string, Value>, env: Value, userParams: Value, configuredType: Value,
                            t: Tables, endpoint: Option<string>)
    requires Truthy(OptionalProp(Lookup(creative, "apply"), "ask"))
    requires userParams.Obj? && !Truthy(Lookup(userParams.props, "serviceKey"))
    requires !Truthy(Lookup(userParams.props, "plainIfa")) && !Truthy(Lookup(creative, "advId"))
    requires !Truthy(configuredType) && !Truthy(Lookup(creative, "clientId")) && !Truthy(Lookup(userParams.props, "clientId"))
    requires endpoint.Some? && endpoint.value != ""
    ensures var r := ApplyPlan(creative, env, userParams, configuredType, t, endpoint);
            r.Some? && !Truthy(r.value.body["serviceKey"]) && !Truthy(r.value.body["advId"])
  {
  }

  /**
   * Identity resolution end to end: with no configured service type and no
   * user service key, a client id found in CLIENT_IDS gives the service key
   * of the found type's category in the resolved environment, when the
   * table has one.
   */
  lemma ApplyResolvesServiceKey(creative: map<string, Value>, env: Value, userParams: Value, configuredType: Value,
                                t: Tables, endpoint: Option<string>, id: string)
    requires Truthy(OptionalProp(Lookup(creative, "apply"), "ask"))
    requires userParams.Obj? && !Truthy(Lookup(userParams.props, "serviceKey"))
    requires !Truthy(configuredType) && Lookup(creative, "clientId") == Str(id) && id != ""
    requires ResolvedEnv(env).Str?
    requires endpoint.Some? && endpoint.value != ""
    requires FindServiceType(t.clientIds, Str(id), 0).Some?
    ensures var p := FindServiceType(t.clientIds, Str(id), 0).value;
            var key := ServiceKeyFor(t, ResolvedEnv(env).s, ServiceCategory(t.clientIds[p.0].1[p.1].0));
            var r := ApplyPlan(creative, env, userParams, configuredType, t, endpoint);
            && r.Some?
            && r.value.body["clientId"] == Str(id)
            && r.value.body["serviceKey"] == (if key.Some? then Str(key.value) else Lookup(userParams.props, "serviceKey"))
  {
    var clientId := Or(Lookup(creative, "clientId"), OptionalProp(userParams, "clientId"));
    assert clientId == Str(id);
    var p := FindServiceType(t.clientIds, Str(id), 0).value;
    var serviceType := ResolvedServiceType(configuredType, clientId, t.clientIds);
    assert serviceType == Str(t.clientIds[p.0].1[p.1].0);
  }
}
