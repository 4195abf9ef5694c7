/**
 * A creative: one ad as the server described it, with defaults for the
 * properties the server left out, lookups over its assets, and the guarded
 * updates the slot and the renderer apply to it.
 *
 * Property values are plain JavaScript values: `update` may store anything
 * under a property, so `assets` is an array only as long as nobody replaced
 * it. An asset is a plain object with `type`, `assetType` and `value`.
 */
module Creatives {
  import opened Json
  import Utils
  import Configs

  /** The data properties a creative owns, besides `_rawData`. */
  datatype Field =
    | Id | CreativeFormat | ImpType | LandingUrl | Assets | AdReward | AdInfo
    | Apply | AdvId | UserInfo | ClientId | Env | UserId | DspContentId

  function FieldName(f: Field): string {
    match f
    case Id => "id"
    case CreativeFormat => "creativeFormat"
    case ImpType => "impType"
    case LandingUrl => "landingUrl"
    case Assets => "assets"
    case AdReward => "adReward"
    case AdInfo => "adInfo"
    case Apply => "apply"
    case AdvId => "advId"
    case UserInfo => "userInfo"
    case ClientId => "clientId"
    case Env => "env"
    case UserId => "userId"
    case DspContentId => "dspContentId"
  }

  /** The data property a name denotes; None for `_rawData` and for every other name. */
  function FieldOf(key: string): (f: Option<Field>)
    ensures f.Some? ==> FieldName(f.value) == key
    ensures f.None? ==> forall g :: FieldName(g) != key
  {
    if key == "id" then Some(Id)
    else if key == "creativeFormat" then Some(CreativeFormat)
    else if key == "impType" then Some(ImpType)
    else if key == "landingUrl" then Some(LandingUrl)
    else if key == "assets" then Some(Assets)
    else if key == "adReward" then Some(AdReward)
    else if key == "adInfo" then Some(AdInfo)
    else if key == "apply" then Some(Apply)
    else if key == "advId" then Some(AdvId)
    else if key == "userInfo" then Some(UserInfo)
    else if key == "clientId" then Some(ClientId)
    else if key == "env" then Some(Env)
    else if key == "userId" then Some(UserId)
    else if key == "dspContentId" then Some(DspContentId)
    else None
  }

  /** The names of the fourteen data properties. */
  const FieldNames: set<string> := set f | f in AllFields :: FieldName(f)

  /** Every data property. */
  const AllFields: set<Field> := {
    Id, CreativeFormat, ImpType, LandingUrl, Assets, AdReward, AdInfo,
    Apply, AdvId, UserInfo, ClientId, Env, UserId, DspContentId}

  /** Distinct properties have distinct names, and `_rawData` is none of them. */
  lemma FieldNameInjective(f: Field, g: Field)
    ensures FieldName(f) == FieldName(g) <==> f == g
    ensures FieldName(f) != "_rawData"
  {
    assert FieldOf(FieldName(g)) == Some(g) by {
      FieldOfName(g);
    }
  }

  /** FieldOf inverts FieldName, and every property is one of the fourteen. */
  lemma FieldOfName(f: Field)
    ensures FieldOf(FieldName(f)) == Some(f) && f in AllFields
  {
    match f
    case Id =>
    case CreativeFormat =>
    case ImpType =>
    case LandingUrl =>
    case Assets =>
    case AdReward =>
    case AdInfo =>
    case Apply =>
    case AdvId =>
    case UserInfo =>
    case ClientId =>
    case Env =>
    case UserId =>
    case DspContentId =>
  }

  /** The values of the fourteen data properties. */
  datatype Fields = Fields(
    id: Value, creativeFormat: Value, impType: Value, landingUrl: Value, assets: Value,
    adReward: Value, adInfo: Value, apply: Value, advId: Value, userInfo: Value,
    clientId: Value, env: Value, userId: Value, dspContentId: Value)
  {
    function Get(f: Field): Value {
      match f
      case Id => id
      case CreativeFormat => creativeFormat
      case ImpType => impType
      case LandingUrl => landingUrl
      case Assets => assets
      case AdReward => adReward
      case AdInfo => adInfo
      case Apply => apply
      case AdvId => advId
      case UserInfo => userInfo
      case ClientId => clientId
      case Env => env
      case UserId => userId
      case DspContentId => dspContentId
    }

    /** The properties as an object: each under its own name, and nothing else. */
    function ToMap(): (r: map<string, Value>)
      ensures forall f :: FieldName(f) in r && r[FieldName(f)] == Get(f)
      ensures forall k :: k in r ==> exists f :: FieldName(f) == k
    {
      assert forall f :: FieldOf(FieldName(f)) == Some(f) && f in AllFields by {
        forall f ensures FieldOf(FieldName(f)) == Some(f) && f in AllFields {
          FieldOfName(f);
        }
      }
      map k | k in FieldNames :: Get(FieldOf(k).value)
    }

    /** One property replaced, the others kept. */
    function With(f: Field, v: Value): (r: Fields)
      ensures r.Get(f) == v
      ensures forall g :: g != f ==> r.Get(g) == Get(g)
    {
      match f
      case Id => this.(id := v)
      case CreativeFormat => this.(creativeFormat := v)
      case ImpType => this.(impType := v)
      case LandingUrl => this.(landingUrl := v)
      case Assets => this.(assets := v)
      case AdReward => this.(adReward := v)
      case AdInfo => this.(adInfo := v)
      case Apply => this.(apply := v)
      case AdvId => this.(advId := v)
      case UserInfo => this.(userInfo := v)
      case ClientId => this.(clientId := v)
      case Env => this.(env := v)
      case UserId => this.(userId := v)
      case DspContentId => this.(dspContentId := v)
    }
  }

  /** What a property falls back to when the server's value is falsy. */
  function DefaultOf(f: Field, uuid: string): Value {
    match f
    case Id => Str(uuid)
    case CreativeFormat => Str("DEFAULT")
    case ImpType => Num(0)
    case Assets => Arr([])
    case AdReward => Null
    case AdInfo | Apply | UserInfo => Obj(map[])
    case _ => Str("")
  }

  /** The properties the constructor sets from the server's data and a fresh UUID. */
  function FromData(data: Value, uuid: string): Fields {
    var adInfo := OptionalProp(data, "adInfo");
    var assets := OptionalProp(data, "assets");
    Fields(
      id := Or(OptionalProp(data, "id"), Str(uuid)),
      creativeFormat := Or(OptionalProp(data, "creativeFormat"), Str("DEFAULT")),
      impType := Or(OptionalProp(data, "impType"), Num(0)),
      landingUrl := Or(OptionalProp(data, "landingUrl"), Str("")),
      assets := if assets.Arr? then assets else Arr([]),
      adReward := Or(OptionalProp(data, "adReward"), Null),
      adInfo := Or(adInfo, Obj(map[])),
      apply := Or(OptionalProp(data, "apply"), Obj(map[])),
      advId := Or(OptionalProp(data, "advId"), Str("")),
      userInfo := Or(OptionalProp(data, "userInfo"), Obj(map[])),
      clientId := Or(OptionalProp(data, "clientId"), Str("")),
      env := Or(OptionalProp(data, "env"), Str("")),
      userId := Or(OptionalProp(data, "userId"), Str("")),
      dspContentId := Or(OptionalProp(data, "dspContentId"),
                         Or(OptionalProp(adInfo, "dspContentId"),
                            Str(""))))
  }

  /**
   * The constructor's defaults: every property but assets and dspContentId
   * is the server's value when truthy, else its default; assets is kept only
   * when it is an array; dspContentId falls back to adInfo's, then to ''.
   */
  lemma FromDataDefaults(data: Value, uuid: string, f: Field)
    ensures f != Assets && f != DspContentId ==>
              FromData(data, uuid).Get(f) == if Truthy(OptionalProp(data, FieldName(f))) then OptionalProp(data, FieldName(f))
                                             else DefaultOf(f, uuid)
    ensures FromData(data, uuid).assets == if OptionalProp(data, "assets").Arr? then OptionalProp(data, "assets") else Arr([])
    ensures Truthy(OptionalProp(data, "dspContentId")) ==> FromData(data, uuid).dspContentId == OptionalProp(data, "dspContentId")
    ensures var adInfo := OptionalProp(data, "adInfo");
            !Truthy(OptionalProp(data, "dspContentId")) && adInfo.Obj? && Truthy(Lookup(adInfo.props, "dspContentId")) ==>
              FromData(data, uuid).dspContentId == adInfo.props["dspContentId"]
    ensures var adInfo := OptionalProp(data, "adInfo");
            !Truthy(OptionalProp(data, "dspContentId")) && !(adInfo.Obj? && Truthy(Lookup(adInfo.props, "dspContentId"))) ==>
              FromData(data, uuid).dspContentId == Str("")
  {
  }

  /** An asset `a` with `a.type === kind`. */
  predicate HasType(a: Value, kind: string) {
    a.Obj? && Lookup(a.props, "type") == Str(kind)
  }

  /** Reading `asset.type` of every item is safe: none is undefined or null. */
  predicate Readable(items: seq<Value>) {
    forall i :: 0 <= i < |items| ==> items[i] != Undefined && items[i] != Null
  }

  /**
   * `items.find(a => a.type === kind) || null`; None when the search reaches
   * an undefined or null item, whose `type` cannot be read.
   */
  function FirstOfType(items: seq<Value>, kind: string): (r: Option<Value>)
    ensures r.Some? && r.value != Null ==> r.value in items && Prop(r.value, "type") == Some(Str(kind))
    ensures r.None? ==> exists i :: 0 <= i < |items| && Prop(items[i], "type").None?
  {
    if items == [] then Some(Null)
    else match Prop(items[0], "type")
      case None => None
      case Some(t) => if t == Str(kind) then Some(items[0]) else FirstOfType(items[1..], kind)
  }

  /** `items.filter(a => a.type === kind)`; None when some item is undefined or null. */
  function AllOfType(items: seq<Value>, kind: string): (r: Option<seq<Value>>)
    ensures r.Some? <==> Readable(items)
  {
    if items == [] then Some([])
    else
      if items[0] == Undefined || items[0] == Null then None
      else match AllOfType(items[1..], kind)
        case None => None
        case Some(rest) => Some((if HasType(items[0], kind) then [items[0]] else []) + rest)
  }

  /** `getAssets` keeps every asset of the type, as often as it occurs, and nothing else. */
  lemma {:induction false} AllOfTypeKeepsMatches(items: seq<Value>, kind: string)
    requires Readable(items)
    ensures forall x :: multiset(AllOfType(items, kind).value)[x] == if HasType(x, kind) then multiset(items)[x] else 0
    ensures forall x :: x in AllOfType(items, kind).value <==> x in items && HasType(x, kind)
  {
    if items != [] {
      assert items == [items[0]] + items[1..];
      AllOfTypeKeepsMatches(items[1..], kind);
    }
    var r := AllOfType(items, kind).value;
    forall x
      ensures x in r <==> x in items && HasType(x, kind)
    {
      assert x in r <==> multiset(r)[x] > 0;
      assert x in items <==> multiset(items)[x] > 0;
    }
  }

  /**
   * `getAssets` keeps the original order: a single readable item gives
   * itself exactly when it has the type, and the filter of a concatenation
   * is the concatenation of the filters.
   */
  lemma AllOfTypeInOrder(a: seq<Value>, b: seq<Value>, kind: string)
    requires Readable(a) && Readable(b)
    ensures forall x :: x != Undefined && x != Null ==>
              AllOfType([x], kind) == Some(if HasType(x, kind) then [x] else [])
    ensures AllOfType(a + b, kind) == Some(AllOfType(a, kind).value + AllOfType(b, kind).value)
  {
    forall x | x != Undefined && x != Null
      ensures AllOfType([x], kind) == Some(if HasType(x, kind) then [x] else [])
    {
      assert [x][0] == x && [x][1..] == [];
      assert AllOfType([x][1..], kind) == Some([]);
      var head: seq<Value> := if HasType(x, kind) then [x] else [];
      assert head + [] == head;
    }
    AllOfTypeAppend(a, b, kind);
  }

  /** Two readable lists concatenate to a readable list. */
  lemma ReadableAppend(a: seq<Value>, b: seq<Value>)
    requires Readable(a) && Readable(b)
    ensures Readable(a + b)
  {
    forall i | 0 <= i < |a + b|
      ensures (a + b)[i] != Undefined && (a + b)[i] != Null
    {
      if i >= |a| {
        assert (a + b)[i] == b[i - |a|];
      }
    }
  }

  /** The filter of a concatenation is the concatenation of the filters. */
  lemma {:induction false} AllOfTypeAppend(a: seq<Value>, b: seq<Value>, kind: string)
    requires Readable(a) && Readable(b)
    ensures AllOfType(a + b, kind) == Some(AllOfType(a, kind).value + AllOfType(b, kind).value)
    decreases |a|
  {
    ReadableAppend(a, b);
    if a == [] {
      assert a + b == b;
      assert AllOfType(a, kind) == Some([]);
      assert [] + AllOfType(b, kind).value == AllOfType(b, kind).value;
    } else {
      assert (a + b)[0] == a[0];
      assert (a + b)[1..] == a[1..] + b;
      AllOfTypeAppend(a[1..], b, kind);
      var head: seq<Value> := if HasType(a[0], kind) then [a[0]] else [];
      assert AllOfType(a + b, kind).value == head + AllOfType(a[1..] + b, kind).value;
      assert AllOfType(a, kind).value == head + AllOfType(a[1..], kind).value;
      assert head + (AllOfType(a[1..], kind).value + AllOfType(b, kind).value)
          == (head + AllOfType(a[1..], kind).value) + AllOfType(b, kind).value;
    }
  }

  /**
   * `getAsset` finds the first asset of the type, or null when no asset has
   * it; when every item is readable it is the head of `getAssets`.
   */
  lemma FirstOfTypeIsFirstMatch(items: seq<Value>, kind: string)
    ensures var r := FirstOfType(items, kind);
      && (r.Some? && r.value != Null ==>
            exists i :: 0 <= i < |items| && items[i] == r.value && HasType(items[i], kind)
                        && forall j :: 0 <= j < i ==> !HasType(items[j], kind))
      && (r == Some(Null) ==> forall i :: 0 <= i < |items| ==> !HasType(items[i], kind))
      && (Readable(items) ==> r.Some? && r.value == if AllOfType(items, kind).value == [] then Null
                                                      else AllOfType(items, kind).value[0])
  {
    var r := FirstOfType(items, kind);
    if r.Some? && r.value != Null {
      FirstOfTypeFound(items, kind);
    }
    if r == Some(Null) {
      FirstOfTypeNull(items, kind);
    }
    if Readable(items) {
      FirstOfTypeHeadOfAll(items, kind);
    }
  }

  /** A non-null result of `getAsset` is the first item with the type. */
  lemma {:induction false} FirstOfTypeFound(items: seq<Value>, kind: string)
    requires FirstOfType(items, kind).Some? && FirstOfType(items, kind).value != Null
    ensures exists i :: 0 <= i < |items| && items[i] == FirstOfType(items, kind).value && HasType(items[i], kind)
                        && forall j :: 0 <= j < i ==> !HasType(items[j], kind)
  {
    var r := FirstOfType(items, kind).value;
    if HasType(items[0], kind) {
      assert items[0] == r;
    } else {
      var rest := items[1..];
      assert FirstOfType(rest, kind).value == r;
      FirstOfTypeFound(rest, kind);
      var i :| 0 <= i < |rest| && rest[i] == r && HasType(rest[i], kind)
               && forall j :: 0 <= j < i ==> !HasType(rest[j], kind);
      assert items[i + 1] == r;
      forall j | 0 <= j < i + 1
        ensures !HasType(items[j], kind)
      {
        if j > 0 {
          assert items[j] == rest[j - 1];
        }
      }
    }
  }

  /** `getAsset` gives null only when no item has the type. */
  lemma {:induction false} FirstOfTypeNull(items: seq<Value>, kind: string)
    requires FirstOfType(items, kind) == Some(Null)
    ensures forall i :: 0 <= i < |items| ==> !HasType(items[i], kind)
  {
    if items != [] {
      var rest := items[1..];
      assert !HasType(items[0], kind);
      assert FirstOfType(rest, kind) == Some(Null);
      FirstOfTypeNull(rest, kind);
      forall i | 0 < i < |items|
        ensures !HasType(items[i], kind)
      {
        assert items[i] == rest[i - 1];
      }
    }
  }

  /** On readable items, `getAsset` is the head of `getAssets`, or null when that is empty. */
  lemma {:induction false} FirstOfTypeHeadOfAll(items: seq<Value>, kind: string)
    requires Readable(items)
    ensures var r := FirstOfType(items, kind);
      r.Some? && r.value == if AllOfType(items, kind).value == [] then Null else AllOfType(items, kind).value[0]
  {
    if items != [] {
      FirstOfTypeHeadOfAll(items[1..], kind);
    }
  }

  /** An asset object as `addAsset` builds it. */
  function NewAsset(kind: string, assetType: string, value: Value): (a: Value)
    ensures HasType(a, kind)
  {
    Obj(map["type" := Str(kind), "assetType" := Str(assetType), "value" := value])
  }

  /** After `addAsset(kind, …)`, `getAssets(kind)` has the new asset at its end. */
  lemma {:induction false} AddedAssetIsLastOfType(items: seq<Value>, kind: string, assetType: string, value: Value)
    ensures var a := NewAsset(kind, assetType, value);
            && (AllOfType(items + [a], kind).Some? <==> AllOfType(items, kind).Some?)
            && (AllOfType(items, kind).Some? ==> AllOfType(items + [a], kind).value == AllOfType(items, kind).value + [a])
  {
    var a := NewAsset(kind, assetType, value);
    if items == [] {
      assert [] + [a] == [a] && [a][1..] == [];
      assert AllOfType([a], kind) == Some([a] + []);
      assert AllOfType(items, kind) == Some([]);
      assert items + [a] == [a];
    } else {
      var x := items[0];
      assert (items + [a])[0] == x && (items + [a])[1..] == items[1..] + [a];
      AddedAssetIsLastOfType(items[1..], kind, assetType, value);
      var head := if HasType(x, kind) then [x] else [];
      if x != Undefined && x != Null && AllOfType(items[1..], kind).Some? {
        var rest := AllOfType(items[1..], kind).value;
        assert AllOfType(items + [a], kind) == Some(head + (rest + [a]));
        assert head + (rest + [a]) == (head + rest) + [a];
      }
    }
  }

  class Creative {
    var id: Value
    var creativeFormat: Value
    var impType: Value
    var landingUrl: Value
    var assets: Value
    var adReward: Value
    var adInfo: Value
    var apply: Value
    var advId: Value
    var userInfo: Value
    var clientId: Value
    var env: Value
    var userId: Value
    var dspContentId: Value
    /** The server's data as given; `update` never replaces it. */
    var rawData: Value
    /**
     * `assets` is still the very array `_rawData.assets` holds (the
     * constructor takes the server's array itself), so a push grows both.
     * Assigning either property ends the sharing.
     */
    var assetsShared: bool

    function Snapshot(): Fields
      reads this
    {
      Fields(id, creativeFormat, impType, landingUrl, assets, adReward, adInfo, apply, advId,
             userInfo, clientId, env, userId, dspContentId)
    }

    function Get(f: Field): Value
      reads this
    {
      Snapshot().Get(f)
    }

    /**
     * `new Creative(data)`: the server's properties with their defaults, the
     * id drawn by `generateUUID` when the server gave none. Null data throws.
     */
    constructor(data: Value, draw: nat -> Utils.Nibble)
      requires data != Null
      ensures Snapshot() == FromData(data, Utils.GenerateUuid(draw))
      ensures rawData == if data == Undefined then Obj(map[]) else data
      ensures assetsShared <==> OptionalProp(data, "assets").Arr?
      ensures assetsShared ==> rawData.Obj? && rawData.props["assets"] == assets
    {
      var fields := FromData(data, Utils.GenerateUuid(draw));
      id, creativeFormat, impType, landingUrl := fields.id, fields.creativeFormat, fields.impType, fields.landingUrl;
      assets, adReward, adInfo, apply := fields.assets, fields.adReward, fields.adInfo, fields.apply;
      advId, userInfo, clientId, env := fields.advId, fields.userInfo, fields.clientId, fields.env;
      userId, dspContentId := fields.userId, fields.dspContentId;
      rawData := if data == Undefined then Obj(map[]) else data;
      assetsShared := OptionalProp(data, "assets").Arr?;
    }

    /** `this[key] = v` for a data property. */
    method Put(f: Field, v: Value)
      modifies this
      ensures Snapshot() == old(Snapshot()).With(f, v)
      ensures rawData == old(rawData)
      ensures assetsShared == (old(assetsShared) && f != Assets)
    {
      match f
      case Id => id := v;
      case CreativeFormat => creativeFormat := v;
      case ImpType => impType := v;
      case LandingUrl => landingUrl := v;
      case Assets => assets := v; assetsShared := false;
      case AdReward => adReward := v;
      case AdInfo => adInfo := v;
      case Apply => apply := v;
      case AdvId => advId := v;
      case UserInfo => userInfo := v;
      case ClientId => clientId := v;
      case Env => env := v;
      case UserId => userId := v;
      case DspContentId => dspContentId := v;
    }

    /** getAsset: the first asset of the type, or null; None when it throws. */
    function GetAsset(kind: string): (r: Option<Value>)
      reads this
      ensures !assets.Arr? ==> r.None?
      ensures assets.Arr? && Readable(assets.items) ==> r.Some?
      ensures r.Some? && r.value != Null ==>
                exists i :: 0 <= i < |assets.items| && assets.items[i] == r.value && HasType(r.value, kind)
                            && forall j :: 0 <= j < i ==> !HasType(assets.items[j], kind)
      ensures r == Some(Null) ==> forall i :: 0 <= i < |assets.items| ==> !HasType(assets.items[i], kind)
      ensures assets.Arr? && Readable(assets.items) ==>
                var all := AllOfType(assets.items, kind).value;
                r == Some(if all == [] then Null else all[0])
    {
      if assets.Arr? then
        FirstOfTypeIsFirstMatch(assets.items, kind);
        FirstOfType(assets.items, kind)
      else None
    }

    /** getAssets: every asset of the type, in order; None when it throws. */
    function GetAssets(kind: string): (r: Option<seq<Value>>)
      reads this
      ensures r.Some? <==> assets.Arr? && Readable(assets.items)
      ensures assets.Arr? ==> r == AllOfType(assets.items, kind)
      ensures r.Some? ==> forall x :: multiset(r.value)[x] == if HasType(x, kind) then multiset(assets.items)[x] else 0
    {
      if assets.Arr? && Readable(assets.items) then
        AllOfTypeKeepsMatches(assets.items, kind);
        AllOfType(assets.items, kind)
      else if assets.Arr? then AllOfType(assets.items, kind)
      else None
    }

    /** getAssetValue: the first asset's `value`, or null when there is none. */
    function GetAssetValue(kind: string): (r: Option<Value>)
      reads this
      ensures r.Some? <==> GetAsset(kind).Some?
      ensures r == Some(Null) <== GetAsset(kind) == Some(Null)
      ensures GetAsset(kind).Some? && GetAsset(kind).value != Null ==>
                r == Some(Lookup(GetAsset(kind).value.props, "value"))
    {
      match GetAsset(kind)
      case None => None
      case Some(a) => if a == Null then Some(Null) else Some(Lookup(a.props, "value"))
    }

    /** isRewardAd: false exactly for impType 36 or 37. */
    function IsRewardAd(): (r: bool)
      reads this
      ensures !r <==> impType == Num(36) || impType == Num(37)
    {
      Configs.IsRewardAdType(impType)
    }

    /**
     * isVideoAd: a NATIVE_VIDEO creative, or one with a MAIN_VIDEO asset; the
     * asset search only runs for other formats.
     */
    function IsVideoAd(): (r: Option<bool>)
      reads this
      ensures creativeFormat == Str("NATIVE_VIDEO") ==> r == Some(true)
      ensures assets.Arr? && Readable(assets.items) ==> r.Some?
      ensures r.Some? ==> (r.value <==> creativeFormat == Str("NATIVE_VIDEO")
                                        || (assets.Arr? && exists i :: 0 <= i < |assets.items| && HasType(assets.items[i], "MAIN_VIDEO")))
    {
      if creativeFormat == Str("NATIVE_VIDEO") then Some(true)
      else
        match GetAsset("MAIN_VIDEO")
        case None => None
        case Some(a) =>
          FirstOfTypeIsFirstMatch(assets.items, "MAIN_VIDEO");
          Some(a != Null)
    }

    /** toJSON: every data property under its name, and nothing else: no `_rawData`. */
    function ToJson(): (r: map<string, Value>)
      reads this
      ensures forall f :: FieldName(f) in r && r[FieldName(f)] == Get(f)
      ensures forall k :: k in r ==> exists f :: FieldName(f) == k
      ensures "_rawData" !in r
    {
      var r := Snapshot().ToMap();
      assert "_rawData" !in r by {
        if "_rawData" in r {
          var f :| FieldName(f) == "_rawData";
          FieldNameInjective(f, f);
        }
      }
      r
    }

    /**
     * update: every key of the object that names a data property is
     * assigned; `_rawData` and names the creative does not own are skipped.
     * A falsy or non-object argument has no such key.
     */
    method Update(data: Value)
      modifies this
      ensures rawData == old(rawData)
      ensures forall f :: Get(f) == if data.Obj? && FieldName(f) in data.props then data.props[FieldName(f)]
                                    else old(Get(f))
      ensures assetsShared == (old(assetsShared) && !(data.Obj? && "assets" in data.props))
    {
      if !Truthy(data) || !data.Obj? {
        return;
      }
      var keys := data.props.Keys;
      ghost var done: set<string> := {};
      while keys != {}
        invariant keys + done == data.props.Keys && keys !! done
        invariant rawData == old(rawData)
        invariant forall f :: Get(f) == if FieldName(f) in done then data.props[FieldName(f)] else old(Get(f))
        invariant assetsShared == (old(assetsShared) && "assets" !in done)
        decreases keys
      {
        var key :| key in keys;
        var f := FieldOf(key);
        if key != "_rawData" && f.Some? {
          Put(f.value, data.props[key]);
          forall g
            ensures FieldName(g) == key <==> g == f.value
          {
            FieldNameInjective(g, f.value);
          }
        }
        keys := keys - {key};
        done := done + {key};
      }
    }

    /**
     * updateIf: when the creative has the property (`_rawData` included) and
     * the condition holds of its current value, assign it and answer true;
     * otherwise change nothing and answer false.
     */
    method UpdateIf(key: string, value: Value, condition: Value -> bool) returns (updated: bool)
      modifies this
      ensures updated <==> (FieldOf(key).Some? && condition(old(Get(FieldOf(key).value))))
                           || (key == "_rawData" && condition(old(rawData)))
      ensures updated && FieldOf(key).Some? ==>
                Snapshot() == old(Snapshot()).With(FieldOf(key).value, value) && rawData == old(rawData)
      ensures updated && key == "_rawData" ==> Snapshot() == old(Snapshot()) && rawData == value
      ensures !updated ==> Snapshot() == old(Snapshot()) && rawData == old(rawData)
      ensures assetsShared == (old(assetsShared) && !(updated && (key == "assets" || key == "_rawData")))
    {
      var f := FieldOf(key);
      if f.Some? && condition(Get(f.value)) {
        Put(f.value, value);
        return true;
      }
      if key == "_rawData" && condition(rawData) {
        rawData := value;
        assetsShared := false;
        return true;
      }
      return false;
    }

    /**
     * addAsset: push `{type, assetType, value}` at the end of the assets;
     * false (the push throws) when assets is no longer an array.
     */
    method AddAsset(kind: string, assetType: string, value: Value) returns (added: bool)
      modifies this
      ensures added <==> old(assets).Arr?
      ensures added ==> assets == Arr(old(assets).items + [NewAsset(kind, assetType, value)])
      ensures added ==> Snapshot() == old(Snapshot()).With(Assets, assets)
      ensures !added ==> Snapshot() == old(Snapshot())
      ensures added && old(assetsShared) && old(rawData).Obj? ==>
                rawData == Obj(old(rawData).props["assets" := assets])
      ensures !(added && old(assetsShared) && old(rawData).Obj?) ==> rawData == old(rawData)
      ensures assetsShared == old(assetsShared)
    {
      if !assets.Arr? {
        return false;
      }
      var shared := assetsShared;
      Put(Assets, Arr(assets.items + [NewAsset(kind, assetType, value)]));
      assetsShared := shared;
      if shared && rawData.Obj? {
        rawData := Obj(rawData.props["assets" := assets]);
      }
      return true;
    }
  }
}
