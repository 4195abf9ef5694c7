/**
 * SDK configuration: the settings dictionary, its `||`-defaulting
 * initialisation, the derivation of the client id and the service key from
 * the service type, and the per-environment lookup tables.
 *
 * The literal keys, ids and endpoint URLs of the tables are not part of the
 * model; `Tables` holds them, and `StandardShape` states the structure the
 * SDK ships with: three environments, six service types, three categories.
 */
module Configs {
  import opened Json

  /** The lookup tables. `clientIds` keeps the declaration order, which `for…in` follows. */
  datatype Tables = Tables(
    serviceKeys: map<string, map<string, string>>,
    clientIds: seq<(string, seq<(string, string)>)>,
    environments: map<string, string>,
    tracking: map<string, string>,
    apply: map<string, string>)

  const Envs: seq<string> := ["dev", "qa", "prod"]
  const ServiceTypes: seq<string> :=
    ["kakaoPageNextAndroid", "kakaoPageNextIOS", "kakaoWebtoonAndroid",
     "kakaoWebtoonIOS", "melonAndroid", "melonIOS"]
  const Categories: set<string> := {"kakaoPage", "kakaoWebtoon", "melonNext"}

  /** CLIENT_IDS as declared: three environments, each with the six service types, in order. */
  predicate ClientIdsShape(t: Tables) {
    && |t.clientIds| == 3
    && (forall i :: 0 <= i < 3 ==> t.clientIds[i].0 == Envs[i])
    && (forall i :: 0 <= i < 3 ==>
          |t.clientIds[i].1| == 6 &&
          forall j :: 0 <= j < 6 ==> t.clientIds[i].1[j].0 == ServiceTypes[j] && t.clientIds[i].1[j].1 != "")
  }

  /** SERVICE_KEYS as declared: three environments, each with the three categories. */
  predicate ServiceKeysShape(t: Tables) {
    && t.serviceKeys.Keys == {"dev", "qa", "prod"}
    && (forall e :: e in t.serviceKeys ==> t.serviceKeys[e].Keys == Categories)
    && (forall e, c :: e in t.serviceKeys && c in t.serviceKeys[e] ==> t.serviceKeys[e][c] != "")
  }

  /** ENVIRONMENTS, TRACKING and APPLY as declared: one endpoint per environment. */
  predicate EndpointsShape(t: Tables) {
    && t.environments.Keys == {"dev", "qa", "prod"}
    && t.tracking.Keys == {"dev", "qa", "prod"}
    && t.apply.Keys == {"dev", "qa", "prod"}
  }

  /** The structure of the tables the SDK ships with. */
  predicate StandardShape(t: Tables) {
    ClientIdsShape(t) && ServiceKeysShape(t) && EndpointsShape(t)
  }

  /** The index of the first entry named `key` at or after `from`. */
  function IndexOfKey<V>(entries: seq<(string, V)>, key: string, from: nat): (r: Option<nat>)
    ensures r.Some? ==> from <= r.value < |entries| && entries[r.value].0 == key
    ensures r.Some? ==> forall j :: from <= j < r.value ==> entries[j].0 != key
    ensures r.None? ==> forall j :: from <= j < |entries| ==> entries[j].0 != key
    decreases |entries| - from
  {
    if from >= |entries| then None
    else if entries[from].0 == key then Some(from)
    else IndexOfKey(entries, key, from + 1)
  }

  /** `obj[key]` on a table kept in declaration order. */
  function Find<V>(entries: seq<(string, V)>, key: string): (r: Option<V>)
    ensures r.None? <==> forall j :: 0 <= j < |entries| ==> entries[j].0 != key
    ensures r.Some? ==> exists i :: 0 <= i < |entries| && entries[i] == (key, r.value)
                                    && forall j :: 0 <= j < i ==> entries[j].0 != key
  {
    match IndexOfKey(entries, key, 0)
    case None => None
    case Some(i) => Some(entries[i].1)
  }

  /** `CLIENT_IDS[env][serviceType]` when both steps exist and the id is non-empty. */
  function ClientIdFor(t: Tables, env: string, serviceType: string): (r: Option<string>)
    ensures r.Some? ==> r.value != ""
    ensures r.Some? ==> exists i :: 0 <= i < |t.clientIds| && t.clientIds[i].0 == env
                                    && (serviceType, r.value) in t.clientIds[i].1
  {
    match Find(t.clientIds, env)
    case None => None
    case Some(types) =>
      match Find(types, serviceType)
      case None => None
      case Some(id) => if id != "" then Some(id) else None
  }

  /** `SERVICE_KEYS[env][category]` when both steps exist and the key is non-empty (truthy). */
  function ServiceKeyFor(t: Tables, env: string, category: string): (r: Option<string>)
    ensures r.Some? <==> env in t.serviceKeys && category in t.serviceKeys[env] && t.serviceKeys[env][category] != ""
    ensures r.Some? ==> env in t.serviceKeys && category in t.serviceKeys[env] && r.value == t.serviceKeys[env][category]
  {
    if env in t.serviceKeys && category in t.serviceKeys[env] && t.serviceKeys[env][category] != "" then
      Some(t.serviceKeys[env][category])
    else None
  }

  // ---------------------------------------------------------------------------
  // serviceType.replace(/Next.*$|Android$|iOS$/, '')

  /** What `.` does not match. */
  predicate LineTerminator(c: char) {
    c == '\n' || c == '\r' || c == '\U{2028}' || c == '\U{2029}'
  }

  /** "Next" starts at position q of s. */
  predicate NextAt(s: string, q: nat) {
    q + 4 <= |s| && s[q..q + 4] == "Next"
  }

  /** s holds no "Next". */
  ghost predicate NoNext(s: string) {
    forall q: nat :: !NextAt(s, q)
  }

  /**
   * One of the three alternatives matches at position p. Each runs to the
   * end of the input: `Next` followed by anything but a line terminator, or
   * exactly `Android`, or exactly `iOS` (case-sensitive).
   */
  predicate MatchAt(s: string, p: nat)
    requires p <= |s|
  {
    (NextAt(s, p) && forall i :: p + 4 <= i < |s| ==> !LineTerminator(s[i]))
    || s[p..] == "Android"
    || s[p..] == "iOS"
  }

  /** The leftmost position at or after `from` where the pattern matches. */
  function FirstMatch(s: string, from: nat): (r: Option<nat>)
    requires from <= |s|
    ensures r.Some? ==> from <= r.value < |s| && MatchAt(s, r.value)
    ensures r.Some? ==> forall p :: from <= p < r.value ==> !MatchAt(s, p)
    ensures r.None? ==> forall p :: from <= p <= |s| ==> !MatchAt(s, p)
    decreases |s| - from
  {
    if from == |s| then
      assert s[from..] == [];
      None
    else if MatchAt(s, from) then Some(from)
    else FirstMatch(s, from + 1)
  }

  /**
   * The service category: the service type with the leftmost match of
   * `/Next.*$|Android$|iOS$/` removed, which always takes the rest of the text.
   */
  function ServiceCategory(serviceType: string): (r: string)
    ensures |r| <= |serviceType| && r == serviceType[..|r|]
    ensures |r| < |serviceType| <==> exists p :: 0 <= p <= |serviceType| && MatchAt(serviceType, p)
    ensures |r| < |serviceType| ==> MatchAt(serviceType, |r|)
    ensures forall p :: 0 <= p < |r| ==> !MatchAt(serviceType, p)
  {
    match FirstMatch(serviceType, 0)
    case None => serviceType
    case Some(p) => serviceType[..p]
  }

  /** No alternative can start inside a stem without "Next" that a capitalised suffix follows. */
  lemma {:induction false} NoMatchInStem(c: string, suffix: string, p: nat)
    requires p < |c| && NoNext(c)
    requires |suffix| >= 1 && 'A' <= suffix[0] <= 'Z'
    requires |c| - p + |suffix| != 7 && |c| - p + |suffix| != 3
    ensures !MatchAt(c + suffix, p)
  {
    var s := c + suffix;
    assert |s[p..]| == |s| - p;
    assert !NextAt(c, p);
    if p + 4 <= |s| {
      if p + 4 <= |c| {
        assert c[p..p + 4] == s[p..p + 4];
      } else {
        var k := |c| - p;
        assert s[p..p + 4][k] == suffix[0];
      }
    }
  }

  /** A type ending in "Android" whose stem holds no "Next" loses exactly that suffix. */
  lemma {:induction false} CategoryOfAndroid(stem: string)
    requires NoNext(stem)
    ensures ServiceCategory(stem + "Android") == stem
  {
    var s := stem + "Android";
    forall p | 0 <= p < |stem|
      ensures !MatchAt(s, p)
    {
      NoMatchInStem(stem, "Android", p);
    }
    assert s[|stem|..] == "Android";
    assert MatchAt(s, |stem|);
    assert |ServiceCategory(s)| == |stem|;
    assert s[..|stem|] == stem;
  }

  /** A stem without "Next" followed by "Next" and one line: everything from "Next" on goes. */
  lemma {:induction false} CategoryOfNext(stem: string, rest: string)
    requires NoNext(stem)
    requires forall i :: 0 <= i < |rest| ==> !LineTerminator(rest[i])
    ensures ServiceCategory(stem + "Next" + rest) == stem
  {
    var s := stem + "Next" + rest;
    forall p | 0 <= p < |stem|
      ensures !MatchAt(s, p)
    {
      NoMatchBeforeNext(stem, rest, p);
    }
    assert s[|stem|..|stem| + 4] == "Next";
    assert forall i :: |stem| + 4 <= i < |s| ==> s[i] == rest[i - |stem| - 4];
    assert MatchAt(s, |stem|);
    assert |ServiceCategory(s)| == |stem|;
    assert s[..|stem|] == stem;
  }

  /** Inside a stem without "Next", followed by "Next", nothing matches. */
  lemma NoMatchBeforeNext(stem: string, rest: string, p: nat)
    requires NoNext(stem) && p < |stem|
    ensures !MatchAt(stem + "Next" + rest, p)
  {
    var s := stem + "Next" + rest;
    var k := |stem| - p;
    assert s[p..][k] == 'N';
    if p + 4 <= |stem| {
      assert !NextAt(stem, p);
      assert s[p..p + 4] == stem[p..p + 4];
    } else {
      assert s[p..p + 4][k] == 'N';
    }
  }

  /** A text without a capital N holds no "Next". */
  lemma NoNextWithoutN(s: string)
    requires forall i :: 0 <= i < |s| ==> s[i] != 'N'
    ensures NoNext(s)
  {
    forall q: nat
      ensures !NextAt(s, q)
    {
      if q + 4 <= |s| {
        assert s[q..q + 4][0] == s[q];
      }
    }
  }

  /** The match is case-sensitive: a type ending in "IOS" whose stem holds no "Next" keeps its name. */
  lemma {:induction false} CategoryKeepsUpperIOS(stem: string)
    requires NoNext(stem)
    ensures ServiceCategory(stem + "IOS") == stem + "IOS"
  {
    var s := stem + "IOS";
    forall p | 0 <= p <= |s|
      ensures !MatchAt(s, p)
    {
      if p < |stem| && |stem| - p + 3 != 7 {
        NoMatchInStem(stem, "IOS", p);
      } else if p < |stem| {
        assert s[p..][6] == 'S';
        assert !NextAt(stem, p);
        assert s[p..p + 4] == stem[p..p + 4];
      } else {
        assert |s[p..]| <= 3;
        if |s[p..]| == 3 {
          assert s[p..][0] == 'I';
        }
      }
    }
  }

  /** Both KakaoPage builds, whose types carry "Next", fall under "kakaoPage". */
  lemma CategoryOfKakaoPage(platform: string)
    requires platform == "Android" || platform == "IOS"
    ensures ServiceCategory("kakaoPageNext" + platform) == "kakaoPage"
  {
    NoNextWithoutN("kakaoPage");
    CategoryOfNext("kakaoPage", platform);
    assert "kakaoPage" + "Next" + platform == "kakaoPageNext" + platform;
  }

  lemma CategoryOfKakaoWebtoonAndroid()
    ensures ServiceCategory("kakaoWebtoonAndroid") == "kakaoWebtoon"
  {
    NoNextWithoutN("kakaoWebtoon");
    CategoryOfAndroid("kakaoWebtoon");
    assert "kakaoWebtoon" + "Android" == "kakaoWebtoonAndroid";
  }

  lemma CategoryOfMelonAndroid()
    ensures ServiceCategory("melonAndroid") == "melon"
  {
    NoNextWithoutN("melon");
    CategoryOfAndroid("melon");
    assert "melon" + "Android" == "melonAndroid";
  }

  /** The two iOS types end in 'IOS', which `iOS$` does not match: they are kept whole. */
  lemma CategoryOfIOSTypes()
    ensures ServiceCategory("kakaoWebtoonIOS") == "kakaoWebtoonIOS"
    ensures ServiceCategory("melonIOS") == "melonIOS"
  {
    NoNextWithoutN("kakaoWebtoon");
    CategoryKeepsUpperIOS("kakaoWebtoon");
    assert "kakaoWebtoon" + "IOS" == "kakaoWebtoonIOS";
    NoNextWithoutN("melon");
    CategoryKeepsUpperIOS("melon");
    assert "melon" + "IOS" == "melonIOS";
  }

  // ---------------------------------------------------------------------------
  // Settings

  /**
   * The keys of the settings dictionary. The ten that `init` writes get a
   * constructor of their own; any other name set through `set` is `Other`.
   */
  datatype SettingKey =
    | Env | UserParams | RetryCount | RetryDelay | Timeout | OnError | Debug
    | ServiceType | IconTextMap | UseCustomTemplate | Other(name: string)

  function KeyName(k: SettingKey): string {
    match k
    case Env => "env"
    case UserParams => "userParams"
    case RetryCount => "retryCount"
    case RetryDelay => "retryDelay"
    case Timeout => "timeout"
    case OnError => "onError"
    case Debug => "debug"
    case ServiceType => "serviceType"
    case IconTextMap => "iconTextMap"
    case UseCustomTemplate => "useCustomTemplate"
    case Other(name) => name
  }

  /** The key a property name denotes. */
  function KeyOf(name: string): (k: SettingKey)
    ensures KeyName(k) == name
  {
    if name == "env" then Env
    else if name == "userParams" then UserParams
    else if name == "retryCount" then RetryCount
    else if name == "retryDelay" then RetryDelay
    else if name == "timeout" then Timeout
    else if name == "onError" then OnError
    else if name == "debug" then Debug
    else if name == "serviceType" then ServiceType
    else if name == "iconTextMap" then IconTextMap
    else if name == "useCustomTemplate" then UseCustomTemplate
    else Other(name)
  }

  /** Distinct property names are distinct keys. */
  lemma KeyOfInjective(a: string, b: string)
    ensures KeyOf(a) == KeyOf(b) <==> a == b
  {
  }

  /** The settings before `init`. */
  function DefaultSettings(): map<SettingKey, Value> {
    map[Env := Str("qa"), UserParams := Obj(map[]), RetryCount := Num(2),
        RetryDelay := Num(1000), Timeout := Num(5000), OnError := Null,
        Debug := Bool(false), ServiceType := Str(""), IconTextMap := Obj(map[]),
        UseCustomTemplate := Bool(true)]
  }

  /** The documented types of the options read as strings or dictionaries. */
  predicate DocumentedOptions(options: map<string, Value>) {
    && (Truthy(Lookup(options, "env")) ==> Lookup(options, "env").Str?)
    && (Truthy(Lookup(options, "serviceType")) ==> Lookup(options, "serviceType").Str?)
    && (Truthy(Lookup(options, "params")) ==> Lookup(options, "params").Obj?)
  }

  /** The user parameters after `_setupClientId`: a client id already set is kept. */
  function WithClientId(t: Tables, env: string, serviceType: string, params: map<string, Value>,
                        optionClientId: Value): (r: map<string, Value>)
    ensures r.Keys == params.Keys || r.Keys == params.Keys + {"clientId"}
    ensures forall k :: k in params && k != "clientId" ==> r[k] == params[k]
    ensures Truthy(Lookup(params, "clientId")) ==> r == params
    ensures r == params || Truthy(Lookup(r, "clientId"))
  {
    if Truthy(Lookup(params, "clientId")) then params
    else if Truthy(optionClientId) then params["clientId" := optionClientId]
    else if serviceType != "" && ClientIdFor(t, env, serviceType).Some? then
      params["clientId" := Str(ClientIdFor(t, env, serviceType).value)]
    else params
  }

  /** The user parameters after `_setupServiceKey`: a service key already set is kept. */
  function WithServiceKey(t: Tables, env: string, serviceType: string, params: map<string, Value>): (r: map<string, Value>)
    ensures r.Keys == params.Keys || r.Keys == params.Keys + {"serviceKey"}
    ensures forall k :: k in params && k != "serviceKey" ==> r[k] == params[k]
    ensures Truthy(Lookup(params, "serviceKey")) || serviceType == "" ==> r == params
    ensures r == params || Truthy(Lookup(r, "serviceKey"))
  {
    if !Truthy(Lookup(params, "serviceKey")) && serviceType != ""
       && ServiceKeyFor(t, env, ServiceCategory(serviceType)).Some? then
      params["serviceKey" := Str(ServiceKeyFor(t, env, ServiceCategory(serviceType)).value)]
    else params
  }

  /** The user parameters after `_setupClientId` and then `_setupServiceKey`. */
  function DerivedParams(t: Tables, env: string, serviceType: string, params: map<string, Value>,
                         optionClientId: Value): map<string, Value>
  {
    WithServiceKey(t, env, serviceType, WithClientId(t, env, serviceType, params, optionClientId))
  }

  /**
   * Set values are kept; only clientId and serviceKey can be added; the
   * client id comes from the parameters, else the option, else CLIENT_IDS;
   * the service key from the parameters, else SERVICE_KEYS under the
   * type's category; a key none of these gives stays as it was.
   */
  lemma DerivedParamsSpec(t: Tables, env: string, serviceType: string, params: map<string, Value>,
                          optionClientId: Value)
    ensures var d := DerivedParams(t, env, serviceType, params, optionClientId);
      && d.Keys >= params.Keys
      && (forall k :: k in params && k != "clientId" && k != "serviceKey" ==> d[k] == params[k])
      && (forall k :: k in d && k !in params ==> k == "clientId" || k == "serviceKey")
    ensures var d := DerivedParams(t, env, serviceType, params, optionClientId);
      Truthy(Lookup(params, "clientId")) ==> d["clientId"] == params["clientId"]
    ensures var d := DerivedParams(t, env, serviceType, params, optionClientId);
      !Truthy(Lookup(params, "clientId")) && Truthy(optionClientId) ==> d["clientId"] == optionClientId
    ensures var d := DerivedParams(t, env, serviceType, params, optionClientId);
      var id := ClientIdFor(t, env, serviceType);
      !Truthy(Lookup(params, "clientId")) && !Truthy(optionClientId) && serviceType != "" && id.Some? ==>
        d["clientId"] == Str(id.value)
    ensures var d := DerivedParams(t, env, serviceType, params, optionClientId);
      var fromTable := serviceType != "" && ClientIdFor(t, env, serviceType).Some?;
      !Truthy(Lookup(params, "clientId")) && !Truthy(optionClientId) && !fromTable ==>
        Lookup(d, "clientId") == Lookup(params, "clientId")
    ensures var d := DerivedParams(t, env, serviceType, params, optionClientId);
      Truthy(Lookup(params, "serviceKey")) ==> d["serviceKey"] == params["serviceKey"]
    ensures var d := DerivedParams(t, env, serviceType, params, optionClientId);
      var key := ServiceKeyFor(t, env, ServiceCategory(serviceType));
      !Truthy(Lookup(params, "serviceKey")) && serviceType != "" && key.Some? ==> d["serviceKey"] == Str(key.value)
    ensures var d := DerivedParams(t, env, serviceType, params, optionClientId);
      var fromTable := serviceType != "" && ServiceKeyFor(t, env, ServiceCategory(serviceType)).Some?;
      !Truthy(Lookup(params, "serviceKey")) && !fromTable ==> Lookup(d, "serviceKey") == Lookup(params, "serviceKey")
  {
    var c := WithClientId(t, env, serviceType, params, optionClientId);
    assert Lookup(c, "serviceKey") == Lookup(params, "serviceKey");
  }

  /**
   * The ten settings `init` writes, before the derivation steps: each option
   * with an `||` default, except useCustomTemplate, which only an undefined
   * option defaults.
   */
  function InitialSettings(options: map<string, Value>): (r: map<SettingKey, Value>)
    ensures forall k :: k in r <==> !k.Other?
  {
    var useCustomTemplate := Lookup(options, "useCustomTemplate");
    map[Env := Or(Lookup(options, "env"), Str("qa")),
        UserParams := Or(Lookup(options, "params"), Obj(map[])),
        RetryCount := Or(Lookup(options, "retryCount"), Num(2)),
        RetryDelay := Or(Lookup(options, "retryDelay"), Num(1000)),
        Timeout := Or(Lookup(options, "timeout"), Num(5000)),
        OnError := Or(Lookup(options, "onError"), Null),
        Debug := Or(Lookup(options, "debug"), Bool(false)),
        ServiceType := Or(Lookup(options, "serviceType"), Str("")),
        IconTextMap := Or(Lookup(options, "iconTextMap"), Obj(map[])),
        UseCustomTemplate := if useCustomTemplate != Undefined then useCustomTemplate else Bool(true)]
  }

  /** The option each of the ten settings is read from. */
  function OptionName(k: SettingKey): string {
    match k
    case UserParams => "params"
    case Other(name) => name
    case _ => KeyName(k)
  }

  /**
   * The defaults `init` applies: each setting but useCustomTemplate is its
   * option `||` the default, so a falsy option (missing, 0, '', false,
   * null) falls back and a truthy one is kept.
   */
  lemma InitialSettingIsOptionOrDefault(options: map<string, Value>, k: SettingKey)
    requires k in DefaultSettings() && k != UseCustomTemplate
    ensures k in InitialSettings(options)
    ensures !Truthy(Lookup(options, OptionName(k))) ==> InitialSettings(options)[k] == DefaultSettings()[k]
    ensures Truthy(Lookup(options, OptionName(k))) ==> InitialSettings(options)[k] == options[OptionName(k)]
  {
  }

  /** useCustomTemplate keeps even a falsy option; only an undefined one defaults to true. */
  lemma InitialUseCustomTemplate(options: map<string, Value>)
    ensures UseCustomTemplate in InitialSettings(options)
    ensures Lookup(options, "useCustomTemplate") == Undefined ==>
              InitialSettings(options)[UseCustomTemplate] == Bool(true)
    ensures Lookup(options, "useCustomTemplate") != Undefined ==>
              InitialSettings(options)[UseCustomTemplate] == options["useCustomTemplate"]
  {
  }

  /** With documented options, `init` gets the types the derivation reads. */
  lemma InitialSettingsTyped(options: map<string, Value>)
    requires DocumentedOptions(options)
    ensures InitialSettings(options)[Env].Str?
    ensures InitialSettings(options)[ServiceType].Str?
    ensures InitialSettings(options)[UserParams].Obj?
  {
  }

  /** A second update of the same key overrides the first. */
  lemma UpdateTwice<K, V>(m: map<K, V>, k: K, a: V, b: V)
    ensures m[k := a][k := b] == m[k := b]
  {
  }

  lemma MergedReads(merged: map<SettingKey, Value>, old0: map<SettingKey, Value>, initial: map<SettingKey, Value>)
    requires merged == old0 + initial
    requires Env in initial && ServiceType in initial && UserParams in initial
    ensures merged[Env] == initial[Env] && merged[ServiceType] == initial[ServiceType]
    ensures merged[UserParams] == initial[UserParams]
  {
  }

  /**
   * With the shipped tables, the two kakaoPage types and kakaoWebtoonAndroid
   * find a service key; kakaoWebtoonIOS and both melon types find none.
   */
  lemma ShippedServiceKeys(t: Tables, env: string)
    requires ServiceKeysShape(t) && env in t.serviceKeys
    ensures ServiceKeyFor(t, env, ServiceCategory("kakaoWebtoonIOS")).None?
    ensures ServiceKeyFor(t, env, ServiceCategory("kakaoWebtoonAndroid")).Some?
    ensures ServiceKeyFor(t, env, ServiceCategory("melonAndroid")).None?
    ensures ServiceKeyFor(t, env, ServiceCategory("melonIOS")).None?
    ensures ServiceKeyFor(t, env, ServiceCategory("kakaoPageNext" + "IOS")).Some?
    ensures ServiceKeyFor(t, env, ServiceCategory("kakaoPageNext" + "Android")).Some?
  {
    CategoryOfIOSTypes();
    CategoryOfKakaoWebtoonAndroid();
    CategoryOfMelonAndroid();
    CategoryOfKakaoPage("IOS");
    CategoryOfKakaoPage("Android");
    CategoryNames();
    assert t.serviceKeys[env].Keys == Categories;
  }

  lemma CategoryNames()
    ensures "kakaoWebtoonIOS" !in Categories && "melon" !in Categories && "melonIOS" !in Categories
    ensures "kakaoWebtoon" in Categories && "kakaoPage" in Categories
  {
    assert |"kakaoWebtoonIOS"| == 15 && |"melon"| == 5 && |"melonIOS"| == 8;
    assert |"kakaoPage"| == 9 && |"kakaoWebtoon"| == 12 && |"melonNext"| == 9;
  }

  class Config {
    const tables: Tables
    var settings: map<SettingKey, Value>

    constructor(tables: Tables)
      ensures this.tables == tables
      ensures settings == DefaultSettings()
    {
      this.tables := tables;
      settings := DefaultSettings();
    }

    /** `get(key)`: undefined for a key never set. */
    function Get(key: string): (v: Value)
      reads this
      ensures KeyOf(key) in settings ==> v == settings[KeyOf(key)]
      ensures KeyOf(key) !in settings ==> v == Undefined
    {
      if KeyOf(key) in settings then settings[KeyOf(key)] else Undefined
    }

    /** `set(key, value)`: `get(key)` gives value back, and no other key changes. */
    method Set(key: string, value: Value)
      modifies this
      ensures settings == old(settings)[KeyOf(key) := value]
      ensures Get(key) == value
      ensures forall k :: k != key ==> Get(k) == old(Get(k))
    {
      settings := settings[KeyOf(key) := value];
      forall k | k != key
        ensures Get(k) == old(Get(k))
      {
        KeyOfInjective(k, key);
      }
    }

    /** The current environment as a table key; the shipped tables have only string keys. */
    function EnvKey(): Option<string>
      reads this
    {
      if Env in settings && settings[Env].Str? then Some(settings[Env].s) else None
    }

    function EndpointIn(table: map<string, string>): (r: Option<string>)
      reads this
      ensures r.Some? <==> EnvKey().Some? && EnvKey().value in table
      ensures r.Some? ==> r.value == table[EnvKey().value]
    {
      match EnvKey()
      case Some(e) => if e in table then Some(table[e]) else None
      case None => None
    }

    /** getApiEndpoint: `ENVIRONMENTS[env]`; None is undefined. */
    function ApiEndpoint(): (r: Option<string>)
      reads this
      ensures r.Some? <==> EnvKey().Some? && EnvKey().value in tables.environments
      ensures r.Some? ==> r.value == tables.environments[EnvKey().value]
    {
      EndpointIn(tables.environments)
    }

    /** getTrackingEndpoint: `TRACKING[env]`. */
    function TrackingEndpoint(): (r: Option<string>)
      reads this
      ensures r.Some? <==> EnvKey().Some? && EnvKey().value in tables.tracking
      ensures r.Some? ==> r.value == tables.tracking[EnvKey().value]
    {
      EndpointIn(tables.tracking)
    }

    /** getApplyEndpoint: `APPLY[env]`, indexed by the environment as set. */
    function ApplyEndpoint(): (r: Option<string>)
      reads this
      ensures r.Some? <==> EnvKey().Some? && EnvKey().value in tables.apply
      ensures r.Some? ==> r.value == tables.apply[EnvKey().value]
    {
      EndpointIn(tables.apply)
    }

    /**
     * init: the ten settings from the options, then the client id and the
     * service key derived from the service type. Settings under other
     * names are left as they were.
     */
    method Init(options: map<string, Value>)
      requires DocumentedOptions(options)
      modifies this
      ensures var initial := InitialSettings(options);
              settings == (old(settings) + initial)[UserParams := Obj(DerivedParams(
                tables, initial[Env].s, initial[ServiceType].s, initial[UserParams].props,
                Lookup(options, "clientId")))]
    {
      var initial := InitialSettings(options);
      InitialSettingsTyped(options);
      ghost var merged := settings + initial;
      settings := settings + initial;
      MergedReads(merged, old(settings), initial);
      ghost var env, st := initial[Env].s, initial[ServiceType].s;
      ghost var withId := WithClientId(tables, env, st, initial[UserParams].props, Lookup(options, "clientId"));
      SetupClientId(Lookup(options, "clientId"));
      assert settings == merged[UserParams := Obj(withId)];
      SetupServiceKey();
      ghost var derived := DerivedParams(tables, env, st, initial[UserParams].props, Lookup(options, "clientId"));
      UpdateTwice(merged, UserParams, Obj(withId), Obj(derived));
    }

    /** The settings `init` has filled in, with the types the derivation reads. */
    predicate Initialised()
      reads this
    {
      && Env in settings && settings[Env].Str?
      && ServiceType in settings && settings[ServiceType].Str?
      && UserParams in settings && settings[UserParams].Obj?
    }

    /**
     * _setupClientId: a client id already in the user parameters stays;
     * otherwise the option's, else the table's entry for the environment
     * and the service type, else none.
     */
    method SetupClientId(optionClientId: Value)
      requires Initialised()
      modifies this
      ensures Initialised()
      ensures settings == old(settings)[UserParams := Obj(WithClientId(
                tables, settings[Env].s, settings[ServiceType].s, old(settings[UserParams].props), optionClientId))]
      ensures Truthy(Lookup(old(settings[UserParams].props), "clientId")) ==> settings == old(settings)
      ensures !Truthy(Lookup(old(settings[UserParams].props), "clientId")) && Truthy(optionClientId) ==>
                settings[UserParams] == Obj(old(settings[UserParams].props)["clientId" := optionClientId])
      ensures var id := ClientIdFor(tables, settings[Env].s, settings[ServiceType].s);
              !Truthy(Lookup(old(settings[UserParams].props), "clientId")) && !Truthy(optionClientId)
              && settings[ServiceType].s != "" && id.Some? ==>
                settings[UserParams] == Obj(old(settings[UserParams].props)["clientId" := Str(id.value)])
      ensures var fromTable := settings[ServiceType].s != "" && ClientIdFor(tables, settings[Env].s, settings[ServiceType].s).Some?;
              !Truthy(optionClientId) && !fromTable ==> settings == old(settings)
    {
      var p := settings[UserParams].props;
      if !Truthy(Lookup(p, "clientId")) {
        var env := settings[Env].s;
        var st := settings[ServiceType].s;
        if Truthy(optionClientId) {
          settings := settings[UserParams := Obj(p["clientId" := optionClientId])];
        } else if st != "" && ClientIdFor(tables, env, st).Some? {
          settings := settings[UserParams := Obj(p["clientId" := Str(ClientIdFor(tables, env, st).value)])];
        }
      }
    }

    /**
     * _setupServiceKey: only when no service key is set and the service
     * type is non-empty, the key of the type's category in the environment,
     * if the table has one.
     */
    method SetupServiceKey()
      requires Initialised()
      modifies this
      ensures Initialised()
      ensures settings == old(settings)[UserParams := Obj(WithServiceKey(
                tables, settings[Env].s, settings[ServiceType].s, old(settings[UserParams].props)))]
      ensures Truthy(Lookup(old(settings[UserParams].props), "serviceKey")) ==> settings == old(settings)
      ensures var key := ServiceKeyFor(tables, settings[Env].s, ServiceCategory(settings[ServiceType].s));
              !Truthy(Lookup(old(settings[UserParams].props), "serviceKey")) && settings[ServiceType].s != "" && key.Some? ==>
                settings[UserParams] == Obj(old(settings[UserParams].props)["serviceKey" := Str(key.value)])
      ensures settings[ServiceType].s == "" || ServiceKeyFor(tables, settings[Env].s, ServiceCategory(settings[ServiceType].s)).None? ==>
                settings == old(settings)
    {
      var p := settings[UserParams].props;
      var st := settings[ServiceType].s;
      if !Truthy(Lookup(p, "serviceKey")) && st != "" {
        var category := ServiceCategory(st);
        var key := ServiceKeyFor(tables, settings[Env].s, category);
        if key.Some? {
          settings := settings[UserParams := Obj(p["serviceKey" := Str(key.value)])];
        }
      }
    }
  }

  /** isRewardAdType: every impression type except 36 and 37 (compared with SameValueZero). */
  function IsRewardAdType(impType: Value): (r: bool)
    ensures !r <==> impType == Num(36) || impType == Num(37)
  {
    !(impType in [Num(36), Num(37)])
  }

  /** With the shipped tables, only 'dev', 'qa' and 'prod' have endpoints: 'sandbox' has none. */
  lemma OnlyShippedEnvsHaveEndpoints(t: Tables, env: string)
    requires EndpointsShape(t)
    ensures env in t.apply <==> env in {"dev", "qa", "prod"}
    ensures "sandbox" !in t.apply && "sandbox" !in t.environments && "sandbox" !in t.tracking
  {
  }
}
