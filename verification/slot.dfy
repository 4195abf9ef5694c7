/**
 * An ad slot: the container a set of creatives is rendered into, the load
 * cycle (fetch, pre-process, render, bind, track), the click and play-button
 * handlers bound to each rendered creative, and the cleanup of the tracking
 * registrations the slot made.
 *
 * The slot drives the shared tracker; what the tracker sends goes to the
 * tracker's log, and what the slot itself causes (events, errors, callbacks,
 * navigation) to the slot's. Elements are numbered; what the DOM would say
 * about them (the parsed template, a `<video>` inside, a play button) comes
 * with each creative as an `ItemEnv`.
 */
module Slots {
  import opened Json
  import opened Utils
  import Creatives
  import Rendering
  import Templates
  import Tracking
  import ApiClient
  import Configs

  // ---------------------------------------------------------------------------
  // Construction

  /** Why `new Slot(options)` throws. */
  datatype ConstructionError =
    | OptionsUnreadable    // options is undefined or null: reading `slotId` throws
    | SlotIdRequired
    | ContainerIdRequired
    | ContainerNotFound

  /** The constructor's checks, in the order it makes them. */
  function CheckOptions(options: Value, containerFound: bool): (r: Option<ConstructionError>)
    ensures r.None? <==> options != Undefined && options != Null && Truthy(OptionalProp(options, "slotId"))
                         && Truthy(OptionalProp(options, "containerId")) && containerFound
    ensures r == Some(SlotIdRequired) <==> options != Undefined && options != Null && !Truthy(OptionalProp(options, "slotId"))
    ensures r == Some(ContainerNotFound) ==> Truthy(OptionalProp(options, "slotId")) && Truthy(OptionalProp(options, "containerId"))
  {
    if options == Undefined || options == Null then Some(OptionsUnreadable)
    else if !Truthy(OptionalProp(options, "slotId")) then Some(SlotIdRequired)
    else if !Truthy(OptionalProp(options, "containerId")) then Some(ContainerIdRequired)
    else if !containerFound then Some(ContainerNotFound)
    else None
  }

  /** What the container holds. */
  datatype Content =
    | Original              // the page's own markup, untouched
    | NoAdsNotice           // the 'no ads' notice
    | Elements(els: seq<nat>) // the rendered elements, in order

  /**
   * The container's child-element count agrees with what the slot put
   * there: one for the notice, one per rendered element; the page's own
   * markup may hold any number.
   */
  predicate Children(content: Content, childCount: nat) {
    match content
    case Original => true
    case NoAdsNotice => childCount == 1
    case Elements(els) => childCount == |els|
  }

  /** A rendered creative and its element. */
  datatype RenderedCreative = RenderedCreative(creative: Value, element: nat)

  /** The state of one bound click handler. */
  datatype Binding = Binding(creative: Value, playButtonClicked: bool, hasPlayButton: bool)

  /** What `load` resolves to. */
  datatype LoadResult =
    | Completed(creatives: seq<RenderedCreative>)  // `this.renderedCreatives`
    | Unavailable                                   // no creatives: undefined
    | Failed                                        // the catch: []

  /**
   * What the page says about one creative as it is rendered: the UUID draws
   * of its creation, the first element of a parsed template, whether the
   * per-format and optional-asset processing completes, the `<video>` and
   * play button inside the element, and the video tracking key.
   */
  datatype ItemEnv = ItemEnv(draw: nat -> Nibble, parse: Value -> Option<nat>, decorated: bool,
                             video: Option<nat>, playButton: bool, key: string)

  // ---------------------------------------------------------------------------
  // One creative through load's loop

  /** The property name a value becomes; None for arrays and functions, whose string forms are not modelled. */
  function PropertyKey(v: Value): Option<string> {
    match v
    case Str(s) => Some(s)
    case Undefined => Some("undefined")
    case Null => Some("null")
    case Bool(b) => Some(if b then "true" else "false")
    case Num(n) => Some(DecimalString(n))
    case Obj(_) => Some("[object Object]")
    case _ => None
  }

  /** `templateManager.getTemplate(creative.creativeFormat)` over the manager's table. */
  function FormatTemplate(table: map<string, Value>, creative: Value): (r: Value)
    ensures Truthy(r) ==> r in table.Values
    ensures forall name :: OptionalProp(creative, "creativeFormat") == Str(name) && Truthy(Lookup(table, name)) ==>
              r == table[name]
    ensures !Truthy(r) ==> r == Lookup(table, "DEFAULT")
  {
    match PropertyKey(OptionalProp(creative, "creativeFormat"))
    case Some(name) => Templates.Resolve(table, name)
    case None => Lookup(table, "DEFAULT")
  }

  /** How one server creative fares in the loop. */
  datatype Prepared =
    | Throws                                                     // creation or pre-processing throws
    | NotShown(effects: seq<Effect>)                             // rendering failed
    | Shown(creative: Value, element: nat, effects: seq<Effect>) // rendered

  /**
   * createCreative, preProcessCreative and renderTemplate on one server
   * creative: a null one cannot be created; pre-processing copies the
   * creative's `toJSON` form.
   */
  function Prepare(item: Value, env: ItemEnv, customTemplate: Value, table: map<string, Value>): (r: Prepared)
    ensures item == Null ==> r == Throws
    ensures r.Shown? ==> r.creative.Obj? && r.effects == [Emit(AdRendered, r.creative)]
    ensures r.NotShown? ==> r.effects == [Report(RenderingError)]
  {
    if item == Null then Throws
    else
      var json := Obj(Creatives.FromData(item, GenerateUuid(env.draw)).ToMap());
      match Rendering.PreProcessCreative(json)
      case None => Throws
      case Some(processed) =>
        var rendered := Rendering.RenderTemplate(processed, customTemplate, FormatTemplate(table, processed),
                                                 env.parse, env.decorated);
        if rendered.0.Some? then Shown(processed, rendered.0.value, rendered.1) else NotShown(rendered.1)
  }

  /**
   * A creative that is shown is the pre-processed copy of the server's
   * creative: an object holding every property the creative owns that
   * survives the copy, AD_RENDERED emitted for it, and pre-processing it
   * again changes nothing.
   */
  lemma PrepareShown(item: Value, env: ItemEnv, customTemplate: Value, table: map<string, Value>)
    requires Prepare(item, env, customTemplate, table).Shown?
    ensures var p := Prepare(item, env, customTemplate, table);
            var fields := Creatives.FromData(item, GenerateUuid(env.draw));
            && p.creative.Obj?
            && p.effects == [Emit(AdRendered, p.creative)]
            && (forall f :: f != Creatives.Assets && Rendering.Serialisable(fields.Get(f)) ==>
                  Creatives.FieldName(f) in p.creative.props
                  && p.creative.props[Creatives.FieldName(f)] == Rendering.JsonCopy(fields.Get(f)))
            && Rendering.PreProcessCreative(p.creative) == Some(p.creative)
  {
    var fields := Creatives.FromData(item, GenerateUuid(env.draw));
    var json := Obj(fields.ToMap());
    var p := Prepare(item, env, customTemplate, table);
    assert Rendering.PreProcessCreative(json) == Some(p.creative);
    PreProcessedObject(json);
    forall f | f != Creatives.Assets && Rendering.Serialisable(fields.Get(f))
      ensures Creatives.FieldName(f) in json.props && Creatives.FieldName(f) != "assets"
              && json.props[Creatives.FieldName(f)] == fields.Get(f)
    {
      assert Creatives.FieldName(f) in fields.ToMap();
      Creatives.FieldNameInjective(f, Creatives.Assets);
    }
  }

  /**
   * The pre-processed copy of an object: an object holding the copy of every
   * serialisable property but assets, and a fixed point of pre-processing.
   */
  lemma PreProcessedObject(json: Value)
    requires json.Obj? && Rendering.PreProcessCreative(json).Some?
    ensures var c := Rendering.PreProcessCreative(json).value;
            && c.Obj?
            && (forall k :: k in json.props && k != "assets" && Rendering.Serialisable(json.props[k]) ==>
                  k in c.props && c.props[k] == Rendering.JsonCopy(json.props[k]))
            && Rendering.PreProcessCreative(c) == Some(c)
  {
    Rendering.PreProcessOfObject(json);
    Rendering.PreProcessIdempotent(json);
  }

  /** What the slot logs for one creative: the renderer's effects, then onRender for a shown one. */
  function ItemLog(p: Prepared, onRender: Value): seq<Effect> {
    match p
    case Throws => []
    case NotShown(effects) => effects
    case Shown(creative, _, effects) => effects + if Truthy(onRender) then [CallOnRender(creative)] else []
  }

  /** The server creative at a position; undefined past the end. */
  function ItemAt(items: seq<Value>, k: nat): Value {
    if k < |items| then items[k] else Undefined
  }

  /** How the creative at each position fares. */
  function PrepareEach(items: seq<Value>, envs: nat -> ItemEnv, customTemplate: Value, table: map<string, Value>): nat -> Prepared {
    (k: nat) => Prepare(ItemAt(items, k), envs(k), customTemplate, table)
  }

  /** How each of the first `n` creatives fares, in order. */
  function Fates(prepare: nat -> Prepared, n: nat): (r: seq<Prepared>)
    ensures |r| == n
  {
    if n == 0 then [] else Fates(prepare, n - 1) + [prepare(n - 1)]
  }

  /** The k-th fate is how the k-th creative fares. */
  lemma {:induction false} FatesAt(prepare: nat -> Prepared, n: nat, k: nat)
    requires k < n
    ensures Fates(prepare, n)[k] == prepare(k)
  {
    if k < n - 1 {
      FatesAt(prepare, n - 1, k);
    }
  }

  /** The position of the first creative whose creation or pre-processing throws; the count when none does. */
  function FirstThrow(fates: seq<Prepared>): (t: nat)
    ensures t <= |fates|
  {
    if fates == [] then 0
    else if fates[0].Throws? then 0
    else 1 + FirstThrow(fates[1..])
  }

  /** FirstThrow finds the first throwing creative: none before it throws, and it throws unless it is past the end. */
  lemma {:induction false} FirstThrowSpec(fates: seq<Prepared>)
    ensures var t := FirstThrow(fates);
            && t <= |fates|
            && (forall k :: 0 <= k < t ==> !fates[k].Throws?)
            && (t < |fates| ==> fates[t].Throws?)
  {
    if fates != [] && !fates[0].Throws? {
      FirstThrowSpec(fates[1..]);
      forall k | 0 < k < FirstThrow(fates) ensures !fates[k].Throws? {
        assert fates[k] == fates[1..][k - 1];
      }
    }
  }

  /** A position with no throw before it and a throw at it, or at the end, is the first throw. */
  lemma FirstThrowIs(fates: seq<Prepared>, t: nat)
    requires t <= |fates|
    requires forall k :: 0 <= k < t ==> !fates[k].Throws?
    requires t < |fates| ==> fates[t].Throws?
    ensures FirstThrow(fates) == t
  {
    FirstThrowSpec(fates);
  }

  /** The creatives that were shown, in order. */
  function ShownOf(fates: seq<Prepared>): seq<RenderedCreative> {
    if fates == [] then []
    else
      ShownOf(fates[..|fates| - 1])
      + match fates[|fates| - 1]
        case Shown(creative, element, _) => [RenderedCreative(creative, element)]
        case _ => []
  }

  /** At most one creative is shown per server creative. */
  lemma {:induction false} ShownOfBound(fates: seq<Prepared>)
    ensures |ShownOf(fates)| <= |fates|
  {
    if fates != [] {
      ShownOfBound(fates[..|fates| - 1]);
    }
  }

  /** What the slot logs for the creatives. */
  function LogOf(fates: seq<Prepared>, onRender: Value): seq<Effect> {
    if fates == [] then []
    else LogOf(fates[..|fates| - 1], onRender) + ItemLog(fates[|fates| - 1], onRender)
  }

  /** One more creative adds its own shown creative, element and log to those before it. */
  lemma StepFates(fates: seq<Prepared>, i: nat, onRender: Value)
    requires i < |fates|
    ensures ShownOf(fates[..i + 1]) == ShownOf(fates[..i])
              + if fates[i].Shown? then [RenderedCreative(fates[i].creative, fates[i].element)] else []
    ensures ElementsOf(ShownOf(fates[..i + 1])) == ElementsOf(ShownOf(fates[..i]))
              + if fates[i].Shown? then [fates[i].element] else []
    ensures LogOf(fates[..i + 1], onRender) == LogOf(fates[..i], onRender) + ItemLog(fates[i], onRender)
  {
    assert fates[..i + 1][..i] == fates[..i];
    if fates[i].Shown? {
      ElementsOfAppend(ShownOf(fates[..i]), RenderedCreative(fates[i].creative, fates[i].element));
    } else {
      assert ShownOf(fates[..i + 1]) == ShownOf(fates[..i]) + [];
      assert ShownOf(fates[..i + 1]) == ShownOf(fates[..i]);
    }
  }

  function ElementsOf(rendered: seq<RenderedCreative>): seq<nat> {
    if rendered == [] then [] else ElementsOf(rendered[..|rendered| - 1]) + [rendered[|rendered| - 1].element]
  }

  function CreativesOf(rendered: seq<RenderedCreative>): (r: seq<Value>)
    ensures |r| == |rendered|
  {
    if rendered == [] then [] else CreativesOf(rendered[..|rendered| - 1]) + [rendered[|rendered| - 1].creative]
  }

  /** The i-th creative listed is the i-th rendered creative. */
  lemma {:induction false} CreativesOfAt(rendered: seq<RenderedCreative>)
    ensures forall i :: 0 <= i < |rendered| ==> CreativesOf(rendered)[i] == rendered[i].creative
  {
    if rendered != [] {
      CreativesOfAt(rendered[..|rendered| - 1]);
    }
  }

  lemma ElementsOfAppend(rendered: seq<RenderedCreative>, r: RenderedCreative)
    ensures ElementsOf(rendered + [r]) == ElementsOf(rendered) + [r.element]
  {
    assert (rendered + [r])[..|rendered|] == rendered;
  }

  /** `data.creatives || []` */
  function ServerCreatives(data: Value): Value {
    Or(OptionalProp(data, "creatives"), Arr([]))
  }

  /** `list.length === 0`; a function's arity is not modelled and counts as non-zero. */
  predicate IsEmptyList(list: Value)
    ensures IsEmptyList(list) ==> list.Arr? || list.Str? || list.Obj?
    ensures list.Arr? ==> (IsEmptyList(list) <==> |list.items| == 0)
    ensures list.Str? ==> (IsEmptyList(list) <==> |list.s| == 0)
  {
    match list
    case Arr(items) => items == []
    case Str(s) => s == ""
    case Obj(props) => Lookup(props, "length") == Num(0)
    case _ => false
  }

  /** The AD_RENDERED payload of a load: the slot id and every rendered creative (the container is not modelled). */
  function RenderedPayload(slotId: Value, rendered: seq<RenderedCreative>): Value {
    Obj(map["slotId" := slotId, "creatives" := Arr(CreativesOf(rendered))])
  }

  function Loading(onLoading: Value, loading: bool): seq<Effect> {
    if Truthy(onLoading) then [CallOnLoading(loading)] else []
  }

  function ErrorCallback(onError: Value): seq<Effect> {
    if Truthy(onError) then [CallOnError] else []
  }

  /** The click handler's reward branch is taken: a reward impType and a truthy `apply.ask`. */
  predicate ApplyAsked(creative: Value) {
    Tracking.IsRewardAd(OptionalProp(creative, "impType")) && Truthy(Tracking.AskOf(creative))
  }

  /** The creative's own properties, as `apply` reads them; a creative with an ask is an object. */
  function PropsOf(creative: Value): map<string, Value> {
    if creative.Obj? then creative.props else map[]
  }

  /**
   * The click handler: where a click leads, once it is not swallowed by the
   * play button. `applied` is what `apply` resolved to: its JSON, or null.
   */
  function ClickOutcome(creative: Value, applied: Value): (r: seq<Effect>)
    ensures |r| <= 1
    ensures ApplyAsked(creative) ==>
              (r != [] <==> Truthy(OptionalProp(applied, "finalUrl")))
              && forall e :: e in r ==> e == Navigate(OptionalProp(applied, "finalUrl"))
    ensures !ApplyAsked(creative) ==>
              (r != [] <==> Truthy(OptionalProp(creative, "landingUrl")))
              && forall e :: e in r ==> e == Navigate(OptionalProp(creative, "landingUrl"))
  {
    if ApplyAsked(creative) then
      var finalUrl := OptionalProp(applied, "finalUrl");
      if Truthy(finalUrl) then [Navigate(finalUrl)] else []
    else if Truthy(OptionalProp(creative, "landingUrl")) then [Navigate(OptionalProp(creative, "landingUrl"))]
    else []
  }

  /** The creative's format is NATIVE_VIDEO. */
  predicate IsVideoFormat(creative: Value) {
    OptionalProp(creative, "creativeFormat") == Str("NATIVE_VIDEO")
  }

  /**
   * The cleanups `_bindEvents` keeps for a rendered creative when
   * `impressions` impression registrations exist: none for a falsy
   * creative; for NATIVE_VIDEO the video cleanup when its `<video>` is
   * trackable; otherwise the impression cleanup, a no-op when untrackable.
   */
  function BoundCleanups(creative: Value, el: nat, env: ItemEnv, impressions: nat): (r: seq<Tracking.Cleanup>)
    ensures Truthy(creative) && IsVideoFormat(creative) ==>
              |r| == |BoundVideos(creative, env, true)| && forall c :: c in r ==> c == Tracking.ForVideo(env.key)
    ensures Truthy(creative) && !IsVideoFormat(creative) ==>
              |r| == 1 && (r[0] == Tracking.ForImpression(impressions) <==> |BoundRegistrations(creative, el, true)| == 1)
              && (r[0] != Tracking.ForImpression(impressions) ==> r[0] == Tracking.NoOp)
    ensures !Truthy(creative) ==> r == []
  {
    if !Truthy(creative) then []
    else if IsVideoFormat(creative) then
      if Tracking.Trackable(env.video, creative) then [Tracking.ForVideo(env.key)] else []
    else [if Tracking.Trackable(Some(el), creative) then Tracking.ForImpression(impressions) else Tracking.NoOp]
  }

  /**
   * The video registration `_bindEvents` adds for a rendered creative: one
   * for a NATIVE_VIDEO creative whose `<video>` is trackable, with every
   * latch open, or with VIMP already sent when IntersectionObserver is
   * missing (`obs` false).
   */
  function BoundVideos(creative: Value, env: ItemEnv, obs: bool): (r: seq<Tracking.Video>)
    ensures |r| <= 1
    ensures |r| == 1 <==> Truthy(creative) && IsVideoFormat(creative) && env.video.Some? && Truthy(Tracking.AskOf(creative))
    ensures forall v :: v in r ==> v.element == env.video.value && v.creative == creative && v.observing == obs
                                   && (Vimp in v.tracked <==> !obs)
  {
    if Truthy(creative) && IsVideoFormat(creative) && Tracking.Trackable(env.video, creative) then
      [Tracking.Video(env.video.value, Tracking.AskOf(creative), creative, if obs then {} else {Vimp}, obs)]
    else []
  }

  /** The impression registration `_bindEvents` adds for a rendered creative of any other format, when trackable. */
  function BoundRegistrations(creative: Value, el: nat, obs: bool): (r: seq<Tracking.Impression>)
    ensures |r| == if Truthy(creative) && !IsVideoFormat(creative) && Tracking.Trackable(Some(el), creative) then 1 else 0
  {
    if Truthy(creative) && !IsVideoFormat(creative) && Tracking.Trackable(Some(el), creative) then
      [Tracking.Impression(el, Tracking.AskOf(creative), creative, !obs, obs)]
    else []
  }

  /**
   * What binding a rendered creative sends at once: nothing while
   * IntersectionObserver exists; without it, VIMP for a trackable video, and
   * VIMP with AD_IMPRESSION for a trackable creative of any other format.
   */
  function BoundLog(creative: Value, el: nat, env: ItemEnv, obs: bool): (r: seq<Effect>)
    ensures obs ==> r == []
    ensures !obs ==> |r| == |BoundVideos(creative, env, false)| + 2 * |BoundRegistrations(creative, el, false)|
    ensures forall e :: e in r ==> e == Send(Tracking.AskOf(creative), Vimp) || e == Emit(AdImpression, creative)
  {
    if obs || !Truthy(creative) then []
    else if IsVideoFormat(creative) then
      if Tracking.Trackable(env.video, creative) then [Send(Tracking.AskOf(creative), Vimp)] else []
    else if Tracking.Trackable(Some(el), creative) then
      [Send(Tracking.AskOf(creative), Vimp), Emit(AdImpression, creative)]
    else []
  }

  /** How many impression registrations `_bindEvents` adds for a rendered creative. */
  function BoundImpressions(creative: Value, el: nat, env: ItemEnv): nat {
    if Truthy(creative) && !IsVideoFormat(creative) && Tracking.Trackable(Some(el), creative) then 1 else 0
  }

  /** The impression registrations the shown creatives among `fates` add, the k-th with `envs(k)`. */
  function ImpressionsOf(fates: seq<Prepared>, envs: nat -> ItemEnv): nat {
    if fates == [] then 0
    else
      var k := |fates| - 1;
      ImpressionsOf(fates[..k], envs)
      + match fates[k]
        case Shown(creative, element, _) => BoundImpressions(creative, element, envs(k))
        case _ => 0
  }

  /** The cleanups the shown creatives among `fates` leave, in order, starting from `base` impression registrations. */
  function CleanupsOf(fates: seq<Prepared>, envs: nat -> ItemEnv, base: nat): seq<Tracking.Cleanup> {
    if fates == [] then []
    else
      var k := |fates| - 1;
      CleanupsOf(fates[..k], envs, base)
      + match fates[k]
        case Shown(creative, element, _) =>
          BoundCleanups(creative, element, envs(k), base + ImpressionsOf(fates[..k], envs))
        case _ => []
  }

  /** The video registrations the shown creatives among `fates` add, in order. */
  function VideosOf(fates: seq<Prepared>, envs: nat -> ItemEnv, obs: bool): seq<Tracking.Video> {
    if fates == [] then []
    else
      var k := |fates| - 1;
      VideosOf(fates[..k], envs, obs)
      + match fates[k]
        case Shown(creative, _, _) => BoundVideos(creative, envs(k), obs)
        case _ => []
  }

  /** The impression registrations the shown creatives among `fates` add, in order; ImpressionsOf counts them. */
  function RegistrationsOf(fates: seq<Prepared>, envs: nat -> ItemEnv, obs: bool): (r: seq<Tracking.Impression>)
    ensures |r| == ImpressionsOf(fates, envs)
  {
    if fates == [] then []
    else
      var k := |fates| - 1;
      RegistrationsOf(fates[..k], envs, obs)
      + match fates[k]
        case Shown(creative, element, _) => BoundRegistrations(creative, element, obs)
        case _ => []
  }

  /** What the tracker sends at once while the shown creatives among `fates` are bound, in order. */
  function TrackerLogOf(fates: seq<Prepared>, envs: nat -> ItemEnv, obs: bool): seq<Effect> {
    if fates == [] then []
    else
      var k := |fates| - 1;
      TrackerLogOf(fates[..k], envs, obs)
      + match fates[k]
        case Shown(creative, element, _) => BoundLog(creative, element, envs(k), obs)
        case _ => []
  }

  /** One more creative adds its own cleanups after those of the creatives before it. */
  lemma StepCleanups(fates: seq<Prepared>, envs: nat -> ItemEnv, base: nat, i: nat)
    requires i < |fates|
    ensures CleanupsOf(fates[..i + 1], envs, base) == CleanupsOf(fates[..i], envs, base)
              + if fates[i].Shown? then BoundCleanups(fates[i].creative, fates[i].element, envs(i),
                                                      base + ImpressionsOf(fates[..i], envs))
                else []
    ensures ImpressionsOf(fates[..i + 1], envs) == ImpressionsOf(fates[..i], envs)
              + if fates[i].Shown? then BoundImpressions(fates[i].creative, fates[i].element, envs(i)) else 0
  {
    assert fates[..i + 1][..i] == fates[..i];
  }

  /** One more creative adds its own registrations, and its immediate sends, after those of the creatives before it. */
  lemma StepRegistry(fates: seq<Prepared>, envs: nat -> ItemEnv, obs: bool, i: nat)
    requires i < |fates|
    ensures VideosOf(fates[..i + 1], envs, obs) == VideosOf(fates[..i], envs, obs)
              + if fates[i].Shown? then BoundVideos(fates[i].creative, envs(i), obs) else []
    ensures RegistrationsOf(fates[..i + 1], envs, obs) == RegistrationsOf(fates[..i], envs, obs)
              + if fates[i].Shown? then BoundRegistrations(fates[i].creative, fates[i].element, obs) else []
    ensures TrackerLogOf(fates[..i + 1], envs, obs) == TrackerLogOf(fates[..i], envs, obs)
              + if fates[i].Shown? then BoundLog(fates[i].creative, fates[i].element, envs(i), obs) else []
  {
    assert fates[..i + 1][..i] == fates[..i];
  }

  /** The tracker's registrations and what it has sent, as one value. */
  datatype Registry = Registry(videos: seq<Tracking.Video>, impressions: seq<Tracking.Impression>, log: seq<Effect>)

  /**
   * The slot's cleanups and the tracker's registry after the creatives of
   * `fates` were absorbed, starting from (cleanups0, reg0): their cleanups,
   * video and impression registrations and immediate sends appended, in
   * order, and everything earlier left as it was.
   */
  predicate Bookkept(obs: bool, cleanups0: seq<Tracking.Cleanup>, reg0: Registry, fates: seq<Prepared>,
                     envs: nat -> ItemEnv, cleanups: seq<Tracking.Cleanup>, reg: Registry)
  {
    && cleanups == cleanups0 + CleanupsOf(fates, envs, |reg0.impressions|)
    && Registered(obs, reg0, fates, envs, reg)
  }

  /** The registry is reg0 followed by the creatives' registrations and immediate sends. */
  predicate Registered(obs: bool, reg0: Registry, fates: seq<Prepared>, envs: nat -> ItemEnv, reg: Registry) {
    && reg.videos == reg0.videos + VideosOf(fates, envs, obs)
    && reg.impressions == reg0.impressions + RegistrationsOf(fates, envs, obs)
    && reg.log == reg0.log + TrackerLogOf(fates, envs, obs)
  }

  /** The registry after binding one more creative: its registrations and sends appended. */
  function BindStep(reg: Registry, fate: Prepared, env: ItemEnv, obs: bool): Registry {
    if fate.Shown? then
      Registry(reg.videos + BoundVideos(fate.creative, env, obs),
               reg.impressions + BoundRegistrations(fate.creative, fate.element, obs),
               reg.log + BoundLog(fate.creative, fate.element, env, obs))
    else reg
  }

  /** Absorbing the i-th creative keeps the bookkeeping. */
  lemma BookkeptStep(obs: bool, cleanups0: seq<Tracking.Cleanup>, reg0: Registry, fates: seq<Prepared>,
                     envs: nat -> ItemEnv, i: nat, cleanups: seq<Tracking.Cleanup>, reg: Registry,
                     cleanups': seq<Tracking.Cleanup>)
    requires i < |fates|
    requires Bookkept(obs, cleanups0, reg0, fates[..i], envs, cleanups, reg)
    requires cleanups' == cleanups
               + if fates[i].Shown? then BoundCleanups(fates[i].creative, fates[i].element, envs(i), |reg.impressions|) else []
    ensures Bookkept(obs, cleanups0, reg0, fates[..i + 1], envs, cleanups', BindStep(reg, fates[i], envs(i), obs))
  {
    RegistryStep(obs, reg0, fates, envs, i, reg);
    CleanupsStep(cleanups0, |reg0.impressions|, fates, envs, i, cleanups, |reg.impressions|, cleanups');
  }

  lemma SameCleanups(creative: Value, el: nat, env: ItemEnv, a: nat, b: nat)
    requires a == b
    ensures BoundCleanups(creative, el, env, a) == BoundCleanups(creative, el, env, b)
  {
  }

  /** The cleanups after one more creative. */
  lemma CleanupsStep(cleanups0: seq<Tracking.Cleanup>, base: nat, fates: seq<Prepared>, envs: nat -> ItemEnv, i: nat,
                     cleanups: seq<Tracking.Cleanup>, impressions: nat, cleanups': seq<Tracking.Cleanup>)
    requires i < |fates| && cleanups == cleanups0 + CleanupsOf(fates[..i], envs, base)
    requires impressions == base + ImpressionsOf(fates[..i], envs)
    requires cleanups' == cleanups
               + if fates[i].Shown? then BoundCleanups(fates[i].creative, fates[i].element, envs(i), impressions) else []
    ensures cleanups' == cleanups0 + CleanupsOf(fates[..i + 1], envs, base)
  {
    StepCleanups(fates, envs, base, i);
    var f := fates[i];
    if f.Shown? {
      SameCleanups(f.creative, f.element, envs(i), impressions, base + ImpressionsOf(fates[..i], envs));
      AppendStep(cleanups0, CleanupsOf(fates[..i], envs, base), CleanupsOf(fates[..i + 1], envs, base), cleanups,
                 BoundCleanups(f.creative, f.element, envs(i), impressions));
    } else {
      AppendStep(cleanups0, CleanupsOf(fates[..i], envs, base), CleanupsOf(fates[..i + 1], envs, base), cleanups, []);
    }
  }

  /** The tracker's registry after one more creative. */
  lemma RegistryStep(obs: bool, reg0: Registry, fates: seq<Prepared>, envs: nat -> ItemEnv, i: nat, reg: Registry)
    requires i < |fates| && Registered(obs, reg0, fates[..i], envs, reg)
    ensures Registered(obs, reg0, fates[..i + 1], envs, BindStep(reg, fates[i], envs(i), obs))
    ensures |reg.impressions| == |reg0.impressions| + ImpressionsOf(fates[..i], envs)
  {
    var f, env := fates[i], envs(i);
    StepRegistry(fates, envs, obs, i);
    AppendStep(reg0.videos, VideosOf(fates[..i], envs, obs), VideosOf(fates[..i + 1], envs, obs), reg.videos,
               if f.Shown? then BoundVideos(f.creative, env, obs) else []);
    AppendStep(reg0.impressions, RegistrationsOf(fates[..i], envs, obs), RegistrationsOf(fates[..i + 1], envs, obs),
               reg.impressions, if f.Shown? then BoundRegistrations(f.creative, f.element, obs) else []);
    AppendStep(reg0.log, TrackerLogOf(fates[..i], envs, obs), TrackerLogOf(fates[..i + 1], envs, obs), reg.log,
               if f.Shown? then BoundLog(f.creative, f.element, env, obs) else []);
  }

  /** A sequence that extends x0 by `of` extends it by `of + d` once `d` is appended. */
  lemma AppendStep<T>(x0: seq<T>, of: seq<T>, of': seq<T>, x: seq<T>, d: seq<T>)
    requires x == x0 + of && of' == of + d
    ensures x + d == x0 + of'
  {
    AppendAssoc(x0, of, d);
  }

  /**
   * A cleanup's registration no longer observes: the video registration
   * its key named before the cleanup, or its impression registration.
   */
  predicate Stopped(c: Tracking.Cleanup, oldState: map<string, nat>,
                    videos: seq<Tracking.Video>, impressions: seq<Tracking.Impression>)
  {
    match c
    case NoOp => true
    case ForVideo(key) => key in oldState && oldState[key] < |videos| ==> !videos[oldState[key]].observing
    case ForImpression(i) => i < |impressions| && !impressions[i].observing
  }

  /**
   * The cleanups run before rendering stay stopped once rendering has only
   * appended registrations.
   */
  lemma CleanupsStayStopped(cleanups: seq<Tracking.Cleanup>, oldState: map<string, nat>, state: map<string, nat>,
                            videos: seq<Tracking.Video>, impressions: seq<Tracking.Impression>,
                            videos': seq<Tracking.Video>, impressions': seq<Tracking.Impression>)
    requires forall c :: c in cleanups ==> Disconnected(c, oldState, state, videos, impressions)
    requires forall k :: k in oldState ==> oldState[k] < |videos|
    requires |videos| <= |videos'| && videos'[..|videos|] == videos
    requires |impressions| <= |impressions'| && impressions'[..|impressions|] == impressions
    ensures forall c :: c in cleanups ==> Stopped(c, oldState, videos', impressions')
  {
    forall c | c in cleanups
      ensures Stopped(c, oldState, videos', impressions')
    {
      assert Stopped(c, oldState, videos, impressions);
      StoppedStays(c, oldState, videos, impressions, videos', impressions');
    }
  }

  /** Registrations added later leave a stopped registration stopped. */
  lemma StoppedStays(c: Tracking.Cleanup, oldState: map<string, nat>,
                     videos: seq<Tracking.Video>, impressions: seq<Tracking.Impression>,
                     videos': seq<Tracking.Video>, impressions': seq<Tracking.Impression>)
    requires Stopped(c, oldState, videos, impressions)
    requires c.ForVideo? && c.key in oldState ==> oldState[c.key] < |videos|
    requires |videos| <= |videos'| && videos'[..|videos|] == videos
    requires |impressions| <= |impressions'| && impressions'[..|impressions|] == impressions
    ensures Stopped(c, oldState, videos', impressions')
  {
    match c
    case NoOp =>
    case ForVideo(key) =>
      if key in oldState && oldState[key] < |videos| {
        assert videos'[oldState[key]] == videos'[..|videos|][oldState[key]];
      }
    case ForImpression(i) =>
      assert impressions'[i] == impressions'[..|impressions|][i];
  }

  /** Registrations were only switched off: as many as before, each as it was or no longer observing. */
  predicate SwitchedOff(videos0: seq<Tracking.Video>, impressions0: seq<Tracking.Impression>,
                        videos: seq<Tracking.Video>, impressions: seq<Tracking.Impression>)
  {
    && |videos| == |videos0| && |impressions| == |impressions0|
    && (forall v :: 0 <= v < |videos| ==> videos[v] in {videos0[v], videos0[v].(observing := false)})
    && (forall m :: 0 <= m < |impressions| ==> impressions[m] in {impressions0[m], impressions0[m].(observing := false)})
  }

  /** The earlier registrations only switched off, then `newVideos` and `newImpressions` registered after them. */
  predicate Replaced(videos0: seq<Tracking.Video>, impressions0: seq<Tracking.Impression>,
                     videos: seq<Tracking.Video>, impressions: seq<Tracking.Impression>,
                     newVideos: seq<Tracking.Video>, newImpressions: seq<Tracking.Impression>)
  {
    && |videos0| <= |videos| && |impressions0| <= |impressions|
    && SwitchedOff(videos0, impressions0, videos[..|videos0|], impressions[..|impressions0|])
    && videos[|videos0|..] == newVideos && impressions[|impressions0|..] == newImpressions
  }

  /** Switching off, then appending, is a replacement. */
  lemma ReplacedBy(videos0: seq<Tracking.Video>, impressions0: seq<Tracking.Impression>,
                   videos: seq<Tracking.Video>, impressions: seq<Tracking.Impression>,
                   newVideos: seq<Tracking.Video>, newImpressions: seq<Tracking.Impression>)
    requires SwitchedOff(videos0, impressions0, videos, impressions)
    ensures Replaced(videos0, impressions0, videos + newVideos, impressions + newImpressions, newVideos, newImpressions)
  {
    assert (videos + newVideos)[..|videos|] == videos;
    assert (impressions + newImpressions)[..|impressions|] == impressions;
    assert (videos + newVideos)[|videos|..] == newVideos;
    assert (impressions + newImpressions)[|impressions|..] == newImpressions;
  }

  /** Running a cleanup took its registration out of the observers' reach. */
  predicate Disconnected(c: Tracking.Cleanup, oldState: map<string, nat>, state: map<string, nat>,
                         videos: seq<Tracking.Video>, impressions: seq<Tracking.Impression>)
  {
    match c
    case NoOp => true
    case ForVideo(key) =>
      key !in state && (key in oldState && oldState[key] < |videos| ==> !videos[oldState[key]].observing)
    case ForImpression(i) => i < |impressions| && !impressions[i].observing
  }

  /** Later cleanups only remove keys and switch observers off, so a disconnected registration stays disconnected. */
  lemma DisconnectedStays(c: Tracking.Cleanup, oldState: map<string, nat>,
                          state: map<string, nat>, videos: seq<Tracking.Video>, impressions: seq<Tracking.Impression>,
                          state': map<string, nat>, videos': seq<Tracking.Video>, impressions': seq<Tracking.Impression>)
    requires Disconnected(c, oldState, state, videos, impressions)
    requires state'.Keys <= state.Keys && |videos'| == |videos| && |impressions'| == |impressions|
    requires forall v :: 0 <= v < |videos| && !videos[v].observing ==> !videos'[v].observing
    requires forall m :: 0 <= m < |impressions| && !impressions[m].observing ==> !impressions'[m].observing
    ensures Disconnected(c, oldState, state', videos', impressions')
  {
  }

  /**
   * After the first i cleanups of `cleanups` ran from the tracker state
   * (oldState, oldVideos, oldImpressions): each of them is disconnected, keys
   * were only removed, and observers were only switched off.
   */
  predicate CleanedUpTo(cleanups: seq<Tracking.Cleanup>, i: nat, oldState: map<string, nat>,
                        oldVideos: seq<Tracking.Video>, oldImpressions: seq<Tracking.Impression>,
                        state: map<string, nat>, videos: seq<Tracking.Video>, impressions: seq<Tracking.Impression>)
  {
    && i <= |cleanups|
    && |videos| == |oldVideos| && |impressions| == |oldImpressions|
    && (forall c :: c in cleanups && c.ForImpression? ==> c.impression < |impressions|)
    && (forall j :: 0 <= j < i ==> Disconnected(cleanups[j], oldState, state, videos, impressions))
    && (forall k :: k in state ==> k in oldState && state[k] == oldState[k])
    && (forall k :: k in oldState && k !in state && oldState[k] < |videos| ==> !videos[oldState[k]].observing)
    && (forall v :: 0 <= v < |videos| ==> videos[v] in {oldVideos[v], oldVideos[v].(observing := false)})
    && (forall m :: 0 <= m < |impressions| ==> impressions[m] in {oldImpressions[m], oldImpressions[m].(observing := false)})
  }

  /** Running cleanup i, as the tracker's runCleanup does, extends CleanedUpTo by one. */
  lemma CleanupStep(cleanups: seq<Tracking.Cleanup>, i: nat, oldState: map<string, nat>,
                    oldVideos: seq<Tracking.Video>, oldImpressions: seq<Tracking.Impression>,
                    state: map<string, nat>, videos: seq<Tracking.Video>, impressions: seq<Tracking.Impression>,
                    state': map<string, nat>, videos': seq<Tracking.Video>, impressions': seq<Tracking.Impression>)
    requires CleanedUpTo(cleanups, i, oldState, oldVideos, oldImpressions, state, videos, impressions)
    requires i < |cleanups|
    requires var c := cleanups[i];
             && (c.ForImpression? ==>
                   impressions' == impressions[c.impression := impressions[c.impression].(observing := false)])
             && (!c.ForImpression? ==> impressions' == impressions)
             && (!(c.ForVideo? && c.key in state) ==> videos' == videos && state' == state)
             && (c.ForVideo? && c.key in state ==>
                   && state' == state - {c.key}
                   && state[c.key] < |videos|
                   && videos' == videos[state[c.key] := videos[state[c.key]].(observing := false)])
    ensures CleanedUpTo(cleanups, i + 1, oldState, oldVideos, oldImpressions, state', videos', impressions')
  {
    assert cleanups[i] in cleanups;
    forall j | 0 <= j < i
      ensures Disconnected(cleanups[j], oldState, state', videos', impressions')
    {
      DisconnectedStays(cleanups[j], oldState, state, videos, impressions, state', videos', impressions');
    }
  }

  class Slot {
    const slotId: Value
    const containerId: Value
    /** The shared tracker the slot registers with. */
    const tracker: Tracking.Tracker
    var onLoading: Value
    var onError: Value
    var onRender: Value
    var customTemplate: Value
    var content: Content
    var renderedCreatives: seq<RenderedCreative>
    var trackingCleanups: seq<Tracking.Cleanup>
    /** Every click handler bound, in binding order; rendering again does not unbind the old ones. */
    var bindings: seq<Binding>
    var log: seq<Effect>

    /** The tracker is consistent and every impression cleanup refers to a registration of it. */
    ghost predicate Valid()
      reads this, tracker
    {
      tracker.Valid()
      && forall c :: c in trackingCleanups && c.ForImpression? ==> c.impression < |tracker.impressions|
    }

    /**
     * `new Slot(options)` once the checks pass: the callbacks, onError
     * falling back to the configured one, no custom template yet, nothing
     * rendered and nothing to clean up.
     */
    constructor(options: Value, containerFound: bool, configOnError: Value, tracker: Tracking.Tracker)
      requires CheckOptions(options, containerFound).None?
      requires tracker.Valid()
      ensures Valid() && this.tracker == tracker
      ensures slotId == OptionalProp(options, "slotId") && containerId == OptionalProp(options, "containerId")
      ensures onLoading == OptionalProp(options, "onLoading") && onRender == OptionalProp(options, "onRender")
      ensures onError == Or(OptionalProp(options, "onError"), configOnError)
      ensures customTemplate == Null && content == Original
      ensures renderedCreatives == [] && trackingCleanups == [] && bindings == [] && log == []
    {
      slotId := OptionalProp(options, "slotId");
      containerId := OptionalProp(options, "containerId");
      this.tracker := tracker;
      onLoading := OptionalProp(options, "onLoading");
      onError := Or(OptionalProp(options, "onError"), configOnError);
      onRender := OptionalProp(options, "onRender");
      customTemplate := Null;
      content := Original;
      renderedCreatives := [];
      trackingCleanups := [];
      bindings := [];
      log := [];
    }

    /**
     * extractCustomTemplate: a template already extracted (anything but
     * null) is kept; otherwise the renderer's extraction runs, and a truthy
     * template empties the container.
     */
    method ExtractCustomTemplate(useCustomTemplate: Value, childCount: nat, innerHtml: string) returns (template: Value)
      requires Children(content, childCount)
      modifies this
      ensures old(customTemplate) != Null ==> template == old(customTemplate) && content == old(content)
      ensures old(customTemplate) == Null ==>
                template == Rendering.ExtractCustomTemplate(useCustomTemplate, true, childCount, innerHtml)
                && content == if Truthy(template) then Elements([]) else old(content)
      ensures customTemplate == template
      ensures onLoading == old(onLoading) && onError == old(onError) && onRender == old(onRender)
      ensures renderedCreatives == old(renderedCreatives) && trackingCleanups == old(trackingCleanups)
      ensures bindings == old(bindings) && log == old(log)
    {
      if customTemplate != Null {
        return customTemplate;
      }
      customTemplate := Rendering.ExtractCustomTemplate(useCustomTemplate, true, childCount, innerHtml);
      if Truthy(customTemplate) {
        content := Elements([]);
      }
      return customTemplate;
    }

    /**
     * _bindEvents: nothing for a falsy creative. Otherwise a click handler;
     * a NATIVE_VIDEO creative with a `<video>` registers video tracking (its
     * cleanup kept when there is one) and wires the play button; any other
     * creative registers impression tracking and keeps its cleanup.
     */
    method BindEvents(el: nat, creative: Value, env: ItemEnv)
      requires Valid()
      modifies this, tracker
      ensures Valid()
      ensures !Truthy(creative) ==> bindings == old(bindings) && trackingCleanups == old(trackingCleanups)
      ensures Truthy(creative) ==>
                bindings == old(bindings) + [Binding(creative, false, IsVideoFormat(creative) && env.video.Some? && env.playButton)]
      ensures trackingCleanups == old(trackingCleanups) + BoundCleanups(creative, el, env, |old(tracker.impressions)|)
      ensures tracker.videos == old(tracker.videos) + BoundVideos(creative, env, tracker.observerSupported)
      ensures tracker.impressions == old(tracker.impressions) + BoundRegistrations(creative, el, tracker.observerSupported)
      ensures tracker.log == old(tracker.log) + BoundLog(creative, el, env, tracker.observerSupported)
      ensures tracker.timers == old(tracker.timers) && tracker.played == old(tracker.played)
      ensures Truthy(creative) && IsVideoFormat(creative) && Tracking.Trackable(env.video, creative) ==>
                tracker.videoTrackingState == old(tracker.videoTrackingState)[env.key := |old(tracker.videos)|]
      ensures !(Truthy(creative) && IsVideoFormat(creative) && Tracking.Trackable(env.video, creative)) ==>
                tracker.videoTrackingState == old(tracker.videoTrackingState)
      ensures Truthy(creative) && IsVideoFormat(creative) && env.video.None? ==>
                && trackingCleanups == old(trackingCleanups) && tracker.videos == old(tracker.videos)
                && tracker.impressions == old(tracker.impressions)
                && tracker.videoTrackingState == old(tracker.videoTrackingState) && tracker.log == old(tracker.log)
      ensures content == old(content) && renderedCreatives == old(renderedCreatives) && log == old(log)
      ensures customTemplate == old(customTemplate) && onRender == old(onRender)
      ensures onLoading == old(onLoading) && onError == old(onError)
    {
      if !Truthy(creative) {
        return;
      }
      var video := IsVideoFormat(creative) && env.video.Some?;
      bindings := bindings + [Binding(creative, false, video && env.playButton)];
      if IsVideoFormat(creative) {
        if env.video.Some? {
          var cleanup := tracker.SetupVideoTracking(env.video, creative, env.key);
          if cleanup.Some? {
            trackingCleanups := trackingCleanups + [cleanup.value];
          }
        }
      } else {
        var cleanup := tracker.SetupImpressionTracking(Some(el), creative);
        trackingCleanups := trackingCleanups + [cleanup];
      }
    }

    /**
     * createCreative, preProcessCreative and renderTemplate on one server
     * creative, as the fate it meets.
     */
    method PrepareCreative(item: Value, env: ItemEnv, table: map<string, Value>) returns (fate: Prepared)
      ensures fate == Prepare(item, env, customTemplate, table)
    {
      if item == Null {
        return Throws;
      }
      var creative := new Creatives.Creative(item, env.draw);
      var json := Obj(creative.ToJson());
      var processed := Rendering.PreProcessCreative(json);
      if processed.None? {
        return Throws;
      }
      var rendered := Rendering.RenderTemplate(processed.value, customTemplate,
                                               FormatTemplate(table, processed.value), env.parse, env.decorated);
      if rendered.0.Some? {
        fate := Shown(processed.value, rendered.0.value, rendered.1);
      } else {
        fate := NotShown(rendered.1);
      }
    }

    /**
     * What the slot does with a creative that did not throw: it logs the
     * renderer's effects and, when one was rendered, appends it to the
     * container, binds its events, records it and reports it to onRender.
     */
    method Absorb(fate: Prepared, env: ItemEnv)
      requires Valid() && content.Elements? && !fate.Throws?
      modifies this, tracker
      ensures Valid() && content.Elements?
      ensures renderedCreatives == old(renderedCreatives)
                + if fate.Shown? then [RenderedCreative(fate.creative, fate.element)] else []
      ensures content.els == old(content).els + if fate.Shown? then [fate.element] else []
      ensures log == old(log) + ItemLog(fate, onRender)
      ensures trackingCleanups == old(trackingCleanups)
                + if fate.Shown? then BoundCleanups(fate.creative, fate.element, env, |old(tracker.impressions)|) else []
      ensures Registry(tracker.videos, tracker.impressions, tracker.log)
                == BindStep(Registry(old(tracker.videos), old(tracker.impressions), old(tracker.log)), fate, env,
                            tracker.observerSupported)
      ensures tracker.timers == old(tracker.timers) && tracker.played == old(tracker.played)
      ensures customTemplate == old(customTemplate) && onRender == old(onRender)
      ensures onLoading == old(onLoading) && onError == old(onError)
    {
      log := log + fate.effects;
      if fate.Shown? {
        content := Elements(content.els + [fate.element]);
        BindEvents(fate.element, fate.creative, env);
        renderedCreatives := renderedCreatives + [RenderedCreative(fate.creative, fate.element)];
        if Truthy(onRender) {
          log := log + [CallOnRender(fate.creative)];
        }
      }
    }

    /**
     * The slot after absorbing the creatives of `fates`, from the state
     * (rendered0, els0, log0, cleanups0, impressions0, videos0): their
     * rendered creatives, elements and effects appended, their cleanups
     * kept, and the tracker's earlier registrations left as they were.
     */
    ghost predicate AbsorbedSince(rendered0: seq<RenderedCreative>, els0: seq<nat>, log0: seq<Effect>,
                                  cleanups0: seq<Tracking.Cleanup>, reg0: Registry,
                                  fates: seq<Prepared>, envs: nat -> ItemEnv)
      reads this, tracker
    {
      && renderedCreatives == rendered0 + ShownOf(fates)
      && content == Elements(els0 + ElementsOf(ShownOf(fates)))
      && log == log0 + LogOf(fates, onRender)
      && Bookkept(tracker.observerSupported, cleanups0, reg0, fates, envs, trackingCleanups,
                  Registry(tracker.videos, tracker.impressions, tracker.log))
    }

    /** Absorb on the i-th creative, which did not throw, extends what was absorbed by one. */
    method AbsorbNext(fate: Prepared, env: ItemEnv, ghost fates: seq<Prepared>, ghost envs: nat -> ItemEnv, ghost i: nat,
                      ghost rendered0: seq<RenderedCreative>, ghost els0: seq<nat>, ghost log0: seq<Effect>,
                      ghost cleanups0: seq<Tracking.Cleanup>, ghost reg0: Registry)
      requires Valid() && i < |fates| && fate == fates[i] && env == envs(i) && !fate.Throws?
      requires AbsorbedSince(rendered0, els0, log0, cleanups0, reg0, fates[..i], envs)
      modifies this, tracker
      ensures Valid()
      ensures AbsorbedSince(rendered0, els0, log0, cleanups0, reg0, fates[..i + 1], envs)
      ensures tracker.timers == old(tracker.timers) && tracker.played == old(tracker.played)
      ensures customTemplate == old(customTemplate) && onRender == old(onRender)
      ensures onLoading == old(onLoading) && onError == old(onError)
    {
      StepFates(fates, i, onRender);
      AppendAssoc(els0, ElementsOf(ShownOf(fates[..i])), if fate.Shown? then [fate.element] else []);
      AppendAssoc(log0, LogOf(fates[..i], onRender), ItemLog(fate, onRender));
      AppendAssoc(rendered0, ShownOf(fates[..i]),
                  if fate.Shown? then [RenderedCreative(fate.creative, fate.element)] else []);
      ghost var cleanups, reg := trackingCleanups, Registry(tracker.videos, tracker.impressions, tracker.log);
      Absorb(fate, env);
      BookkeptStep(tracker.observerSupported, cleanups0, reg0, fates, envs, i, cleanups, reg, trackingCleanups);
    }

    /**
     * The loop over the server's creatives, each through PrepareCreative and Absorb; it
     * stops at the first creative that throws.
     */
    method RenderCreatives(items: seq<Value>, envs: nat -> ItemEnv, table: map<string, Value>)
      returns (threw: bool)
      requires Valid() && content.Elements?
      modifies this, tracker
      ensures Valid()
      ensures var fates := Fates(PrepareEach(items, envs, customTemplate, table), |items|);
              var t := FirstThrow(fates);
              && threw == (t < |items|)
              && AbsorbedSince(old(renderedCreatives), old(content).els, old(log), old(trackingCleanups),
                               Registry(old(tracker.videos), old(tracker.impressions), old(tracker.log)), fates[..t], envs)
      ensures tracker.timers == old(tracker.timers) && tracker.played == old(tracker.played)
      ensures customTemplate == old(customTemplate) && onRender == old(onRender)
      ensures onLoading == old(onLoading) && onError == old(onError)
    {
      ghost var prepare := PrepareEach(items, envs, customTemplate, table);
      ghost var fates := Fates(prepare, |items|);
      assert fates[..0] == [];
      var i := 0;
      while i < |items|
        invariant 0 <= i <= |items|
        invariant Valid()
        invariant customTemplate == old(customTemplate) && onRender == old(onRender)
        invariant onLoading == old(onLoading) && onError == old(onError)
        invariant forall k :: 0 <= k < i ==> !fates[k].Throws?
        invariant AbsorbedSince(old(renderedCreatives), old(content).els, old(log), old(trackingCleanups),
                                Registry(old(tracker.videos), old(tracker.impressions), old(tracker.log)), fates[..i], envs)
        invariant tracker.timers == old(tracker.timers) && tracker.played == old(tracker.played)
      {
        FatesAt(prepare, |items|, i);
        var fate := PrepareCreative(items[i], envs(i), table);
        assert fate == fates[i];
        if fate.Throws? {
          FirstThrowIs(fates, i);
          return true;
        }
        assert forall k :: 0 <= k < i + 1 ==> !fates[k].Throws?;
        AbsorbNext(fate, envs(i), fates, envs, i, old(renderedCreatives), old(content).els, old(log), old(trackingCleanups),
                   Registry(old(tracker.videos), old(tracker.impressions), old(tracker.log)));
        i := i + 1;
      }
      FirstThrowIs(fates, |items|);
      assert fates[..|items|] == fates;
      return false;
    }

    /** _cleanupTracking: runs every cleanup the slot holds, then forgets them. */
    method CleanupTracking()
      requires Valid()
      modifies this, tracker
      ensures Valid() && trackingCleanups == []
      ensures forall c :: c in old(trackingCleanups) ==>
                Disconnected(c, old(tracker.videoTrackingState), tracker.videoTrackingState, tracker.videos, tracker.impressions)
      ensures forall k :: k in tracker.videoTrackingState ==>
                k in old(tracker.videoTrackingState) && tracker.videoTrackingState[k] == old(tracker.videoTrackingState)[k]
      ensures SwitchedOff(old(tracker.videos), old(tracker.impressions), tracker.videos, tracker.impressions)
      ensures old(trackingCleanups) == [] ==>
                && tracker.videos == old(tracker.videos) && tracker.impressions == old(tracker.impressions)
                && tracker.videoTrackingState == old(tracker.videoTrackingState)
      ensures tracker.timers == old(tracker.timers) && tracker.played == old(tracker.played) && tracker.log == old(tracker.log)
      ensures content == old(content) && renderedCreatives == old(renderedCreatives) && bindings == old(bindings)
      ensures log == old(log) && customTemplate == old(customTemplate)
      ensures onLoading == old(onLoading) && onError == old(onError) && onRender == old(onRender)
    {
      var cleanups := trackingCleanups;
      ghost var oldState, oldVideos, oldImpressions := tracker.videoTrackingState, tracker.videos, tracker.impressions;
      var i := 0;
      while i < |cleanups|
        invariant tracker.Valid()
        invariant trackingCleanups == cleanups
        invariant CleanedUpTo(cleanups, i, oldState, oldVideos, oldImpressions,
                              tracker.videoTrackingState, tracker.videos, tracker.impressions)
        invariant content == old(content) && renderedCreatives == old(renderedCreatives) && bindings == old(bindings)
        invariant log == old(log) && customTemplate == old(customTemplate)
        invariant onLoading == old(onLoading) && onError == old(onError) && onRender == old(onRender)
        invariant tracker.timers == old(tracker.timers) && tracker.played == old(tracker.played)
        invariant tracker.log == old(tracker.log)
        invariant i == 0 ==> tracker.videos == oldVideos && tracker.impressions == oldImpressions
                             && tracker.videoTrackingState == oldState
      {
        ghost var state, videos, impressions := tracker.videoTrackingState, tracker.videos, tracker.impressions;
        assert cleanups[i] in cleanups;
        tracker.RunCleanup(cleanups[i]);
        CleanupStep(cleanups, i, oldState, oldVideos, oldImpressions, state, videos, impressions,
                    tracker.videoTrackingState, tracker.videos, tracker.impressions);
        i := i + 1;
      }
      trackingCleanups := [];
    }

    /**
     * The creatives of an array response rendered in order, then AD_RENDERED
     * when every one went through, or a general error and onError at the
     * first that threw.
     */
    method RenderItems(items: seq<Value>, envs: nat -> ItemEnv, table: map<string, Value>) returns (result: LoadResult)
      requires Valid() && content == Elements([])
      modifies this, tracker
      ensures Valid()
      ensures var fates := Fates(PrepareEach(items, envs, customTemplate, table), |items|);
              var t := FirstThrow(fates);
              && Bookkept(tracker.observerSupported, old(trackingCleanups),
                          Registry(old(tracker.videos), old(tracker.impressions), old(tracker.log)), fates[..t], envs,
                          trackingCleanups, Registry(tracker.videos, tracker.impressions, tracker.log))
              && renderedCreatives == old(renderedCreatives) + ShownOf(fates[..t])
              && content == Elements(ElementsOf(ShownOf(fates[..t])))
              && result == (if t == |items| then Completed(renderedCreatives) else Failed)
              && log == old(log) + LogOf(fates[..t], onRender)
                        + (if t == |items| then [Emit(AdRendered, RenderedPayload(slotId, renderedCreatives))]
                           else [Report(GeneralError)] + ErrorCallback(onError))
      ensures tracker.timers == old(tracker.timers) && tracker.played == old(tracker.played)
      ensures customTemplate == old(customTemplate)
      ensures onLoading == old(onLoading) && onError == old(onError) && onRender == old(onRender)
    {
      ghost var fates := Fates(PrepareEach(items, envs, customTemplate, table), |items|);
      ghost var t := FirstThrow(fates);
      var threw := RenderCreatives(items, envs, table);
      assert [] + ElementsOf(ShownOf(fates[..t])) == ElementsOf(ShownOf(fates[..t]));
      assert log == old(log) + LogOf(fates[..t], onRender);
      if threw {
        log := log + [Report(GeneralError)] + ErrorCallback(onError);
        result := Failed;
      } else {
        log := log + [Emit(AdRendered, RenderedPayload(slotId, renderedCreatives))];
        result := Completed(renderedCreatives);
      }
    }

    /**
     * The part of load after a non-empty response, once tracking is cleaned
     * up and the container emptied: a list that is not an array makes
     * `forEach` throw, a general error; an array is rendered by RenderItems.
     */
    method RenderList(list: Value, envs: nat -> ItemEnv, table: map<string, Value>) returns (result: LoadResult)
      requires Valid() && content == Elements([])
      modifies this, tracker
      ensures Valid()
      ensures !list.Arr? ==>
                && result == Failed && content == Elements([])
                && renderedCreatives == old(renderedCreatives) && trackingCleanups == old(trackingCleanups)
                && log == old(log) + [Report(GeneralError)] + ErrorCallback(onError)
                && tracker.videos == old(tracker.videos) && tracker.impressions == old(tracker.impressions)
                && tracker.videoTrackingState == old(tracker.videoTrackingState) && tracker.log == old(tracker.log)
      ensures list.Arr? ==>
                var fates := Fates(PrepareEach(list.items, envs, customTemplate, table), |list.items|);
                var t := FirstThrow(fates);
                && Bookkept(tracker.observerSupported, old(trackingCleanups),
                            Registry(old(tracker.videos), old(tracker.impressions), old(tracker.log)), fates[..t], envs,
                            trackingCleanups, Registry(tracker.videos, tracker.impressions, tracker.log))
                && renderedCreatives == old(renderedCreatives) + ShownOf(fates[..t])
                && content == Elements(ElementsOf(ShownOf(fates[..t])))
                && result == (if t == |list.items| then Completed(renderedCreatives) else Failed)
                && log == old(log) + LogOf(fates[..t], onRender)
                          + (if t == |list.items| then [Emit(AdRendered, RenderedPayload(slotId, renderedCreatives))]
                             else [Report(GeneralError)] + ErrorCallback(onError))
      ensures tracker.timers == old(tracker.timers) && tracker.played == old(tracker.played)
      ensures customTemplate == old(customTemplate)
      ensures onLoading == old(onLoading) && onError == old(onError) && onRender == old(onRender)
    {
      if !list.Arr? {
        // `forEach` is not a function
        log := log + [Report(GeneralError)] + ErrorCallback(onError);
        result := Failed;
      } else {
        result := RenderItems(list.items, envs, table);
      }
    }

    /**
     * The non-empty branch of load: earlier tracking cleaned up, the
     * container emptied, then the list rendered. The earlier registrations
     * stay stopped, and only the new creatives' cleanups are kept.
     */
    method ReplaceRendering(list: Value, envs: nat -> ItemEnv, table: map<string, Value>) returns (result: LoadResult)
      requires Valid()
      modifies this, tracker
      ensures Valid()
      ensures !list.Arr? ==>
                && result == Failed && content == Elements([])
                && renderedCreatives == old(renderedCreatives) && trackingCleanups == []
                && (forall c :: c in old(trackingCleanups) ==>
                      Disconnected(c, old(tracker.videoTrackingState), tracker.videoTrackingState,
                                   tracker.videos, tracker.impressions))
                && log == old(log) + [Report(GeneralError)] + ErrorCallback(onError)
                && SwitchedOff(old(tracker.videos), old(tracker.impressions), tracker.videos, tracker.impressions)
                && tracker.log == old(tracker.log)
                && (old(trackingCleanups) == [] ==>
                      tracker.videos == old(tracker.videos) && tracker.impressions == old(tracker.impressions))
      ensures list.Arr? ==>
                var fates := Fates(PrepareEach(list.items, envs, customTemplate, table), |list.items|);
                var t := FirstThrow(fates);
                var obs := tracker.observerSupported;
                && (forall c :: c in old(trackingCleanups) ==>
                      Stopped(c, old(tracker.videoTrackingState), tracker.videos, tracker.impressions))
                && Replaced(old(tracker.videos), old(tracker.impressions), tracker.videos, tracker.impressions,
                            VideosOf(fates[..t], envs, obs), RegistrationsOf(fates[..t], envs, obs))
                && (old(trackingCleanups) == [] ==>
                      && tracker.videos == old(tracker.videos) + VideosOf(fates[..t], envs, obs)
                      && tracker.impressions == old(tracker.impressions) + RegistrationsOf(fates[..t], envs, obs))
                && tracker.log == old(tracker.log) + TrackerLogOf(fates[..t], envs, obs)
                && trackingCleanups == CleanupsOf(fates[..t], envs, |old(tracker.impressions)|)
                && renderedCreatives == old(renderedCreatives) + ShownOf(fates[..t])
                && content == Elements(ElementsOf(ShownOf(fates[..t])))
                && result == (if t == |list.items| then Completed(renderedCreatives) else Failed)
                && log == old(log) + LogOf(fates[..t], onRender)
                          + (if t == |list.items| then [Emit(AdRendered, RenderedPayload(slotId, renderedCreatives))]
                             else [Report(GeneralError)] + ErrorCallback(onError))
      ensures tracker.timers == old(tracker.timers) && tracker.played == old(tracker.played)
      ensures customTemplate == old(customTemplate)
      ensures onLoading == old(onLoading) && onError == old(onError) && onRender == old(onRender)
    {
      ghost var oldCleanups, oldState := trackingCleanups, tracker.videoTrackingState;
      CleanupTracking();
      ghost var state, videos, impressions := tracker.videoTrackingState, tracker.videos, tracker.impressions;
      content := Elements([]);
      result := RenderList(list, envs, table);
      if list.Arr? {
        CleanupsStayStopped(oldCleanups, oldState, state, videos, impressions, tracker.videos, tracker.impressions);
        ghost var fates := Fates(PrepareEach(list.items, envs, customTemplate, table), |list.items|);
        ghost var t := FirstThrow(fates);
        ReplacedBy(old(tracker.videos), old(tracker.impressions), videos, impressions,
                   VideosOf(fates[..t], envs, tracker.observerSupported),
                   RegistrationsOf(fates[..t], envs, tracker.observerSupported));
      }
    }

    /**
     * load: onLoading(true); the custom template; the creatives fetched
     * with retries. No creatives: the notice and onError. Otherwise earlier
     * tracking is cleaned up, the container emptied and every creative
     * rendered in turn; AD_RENDERED lists every creative the slot has
     * rendered. A throw lands in the catch: a GENERAL error and onError.
     * onLoading(false) on every path. Earlier rendered creatives are kept:
     * only destroy forgets them.
     */
    method Load(outcome: nat -> ApiClient.FetchOutcome, retryCount: int, retryDelay: int,
                useCustomTemplate: Value, childCount: nat, innerHtml: string,
                templates: Templates.TemplateManager, envs: nat -> ItemEnv)
      returns (result: LoadResult)
      requires Valid() && Children(content, childCount)
      modifies this, tracker
      ensures Valid()
      ensures old(customTemplate) != Null ==> customTemplate == old(customTemplate)
      ensures old(customTemplate) == Null ==>
                customTemplate == Rendering.ExtractCustomTemplate(useCustomTemplate, true, childCount, innerHtml)
      ensures var run := ApiClient.FetchAds(outcome, retryCount, retryDelay, 0);
              var list := ServerCreatives(run.data);
              && (IsEmptyList(list) ==>
                    && result == Unavailable && content == NoAdsNotice
                    && renderedCreatives == old(renderedCreatives) && trackingCleanups == old(trackingCleanups)
                    && tracker.videos == old(tracker.videos) && tracker.impressions == old(tracker.impressions)
                    && tracker.videoTrackingState == old(tracker.videoTrackingState) && tracker.log == old(tracker.log)
                    && log == old(log) + Loading(onLoading, true) + run.effects + ErrorCallback(onError)
                              + Loading(onLoading, false))
              && (!IsEmptyList(list) && !list.Arr? ==>
                    && result == Failed && content == Elements([])
                    && renderedCreatives == old(renderedCreatives) && trackingCleanups == []
                    && (forall c :: c in old(trackingCleanups) ==>
                          Disconnected(c, old(tracker.videoTrackingState), tracker.videoTrackingState,
                                       tracker.videos, tracker.impressions))
                    && SwitchedOff(old(tracker.videos), old(tracker.impressions), tracker.videos, tracker.impressions)
                    && tracker.log == old(tracker.log)
                    && (old(trackingCleanups) == [] ==>
                          tracker.videos == old(tracker.videos) && tracker.impressions == old(tracker.impressions))
                    && log == old(log) + Loading(onLoading, true) + run.effects + [Report(GeneralError)]
                              + ErrorCallback(onError) + Loading(onLoading, false))
              && (!IsEmptyList(list) && list.Arr? ==>
                    var fates := Fates(PrepareEach(list.items, envs, customTemplate, templates.templates), |list.items|);
                    var t := FirstThrow(fates);
                    var obs := tracker.observerSupported;
                    && t <= |list.items|
                    && (forall c :: c in old(trackingCleanups) ==>
                          Stopped(c, old(tracker.videoTrackingState), tracker.videos, tracker.impressions))
                    && Replaced(old(tracker.videos), old(tracker.impressions), tracker.videos, tracker.impressions,
                                VideosOf(fates[..t], envs, obs), RegistrationsOf(fates[..t], envs, obs))
                    && (old(trackingCleanups) == [] ==>
                          && tracker.videos == old(tracker.videos) + VideosOf(fates[..t], envs, obs)
                          && tracker.impressions == old(tracker.impressions) + RegistrationsOf(fates[..t], envs, obs))
                    && tracker.log == old(tracker.log) + TrackerLogOf(fates[..t], envs, obs)
                    && trackingCleanups == CleanupsOf(fates[..t], envs, |old(tracker.impressions)|)
                    && renderedCreatives == old(renderedCreatives) + ShownOf(fates[..t])
                    && content == Elements(ElementsOf(ShownOf(fates[..t])))
                    && result == (if t == |list.items| then Completed(renderedCreatives) else Failed)
                    && log == old(log) + Loading(onLoading, true) + run.effects + LogOf(fates[..t], onRender)
                              + (if t == |list.items| then [Emit(AdRendered, RenderedPayload(slotId, renderedCreatives))]
                                 else [Report(GeneralError)] + ErrorCallback(onError))
                              + Loading(onLoading, false))
      ensures tracker.timers == old(tracker.timers) && tracker.played == old(tracker.played)
      ensures onLoading == old(onLoading) && onError == old(onError) && onRender == old(onRender)
    {
      log := log + Loading(onLoading, true);
      var _ := ExtractCustomTemplate(useCustomTemplate, childCount, innerHtml);
      var run := ApiClient.FetchAds(outcome, retryCount, retryDelay, 0);
      log := log + run.effects;
      var list := ServerCreatives(run.data);
      if IsEmptyList(list) {
        content := NoAdsNotice;
        log := log + ErrorCallback(onError);
        result := Unavailable;
      } else {
        result := ReplaceRendering(list, envs, templates.templates);
      }
      log := log + Loading(onLoading, false);
    }

    /** destroy: cleans up tracking, empties the container and forgets the rendered creatives. */
    method Destroy()
      requires Valid()
      modifies this, tracker
      ensures Valid()
      ensures renderedCreatives == [] && trackingCleanups == [] && content == Elements([])
      ensures forall c :: c in old(trackingCleanups) ==>
                Disconnected(c, old(tracker.videoTrackingState), tracker.videoTrackingState, tracker.videos, tracker.impressions)
      ensures forall k :: k in tracker.videoTrackingState ==>
                k in old(tracker.videoTrackingState) && tracker.videoTrackingState[k] == old(tracker.videoTrackingState)[k]
      ensures SwitchedOff(old(tracker.videos), old(tracker.impressions), tracker.videos, tracker.impressions)
      ensures old(trackingCleanups) == [] ==>
                && tracker.videos == old(tracker.videos) && tracker.impressions == old(tracker.impressions)
                && tracker.videoTrackingState == old(tracker.videoTrackingState)
      ensures tracker.timers == old(tracker.timers) && tracker.played == old(tracker.played) && tracker.log == old(tracker.log)
      ensures bindings == old(bindings) && log == old(log) && customTemplate == old(customTemplate)
      ensures onLoading == old(onLoading) && onError == old(onError) && onRender == old(onRender)
    {
      CleanupTracking();
      content := Elements([]);
      renderedCreatives := [];
    }

    /**
     * destroy called twice: the second call finds no cleanups left, so the
     * tracker stays as the first call left it (returned here).
     */
    method DestroyTwice()
      returns (videos: seq<Tracking.Video>, impressions: seq<Tracking.Impression>,
               state: map<string, nat>, sent: seq<Effect>)
      requires Valid()
      modifies this, tracker
      ensures Valid() && renderedCreatives == [] && trackingCleanups == [] && content == Elements([])
      ensures tracker.videos == videos && tracker.impressions == impressions
      ensures tracker.videoTrackingState == state && tracker.log == sent
    {
      Destroy();
      videos, impressions, state, sent := tracker.videos, tracker.impressions, tracker.videoTrackingState, tracker.log;
      Destroy();
    }

    /**
     * refresh: destroy, then load. Unlike a second load, the rendered
     * creatives afterwards are only those of this load, and the container
     * destroy emptied has no children, so no custom template is extracted.
     */
    method Refresh(outcome: nat -> ApiClient.FetchOutcome, retryCount: int, retryDelay: int,
                   useCustomTemplate: Value, templates: Templates.TemplateManager, envs: nat -> ItemEnv)
      returns (result: LoadResult)
      requires Valid()
      modifies this, tracker
      ensures Valid()
      ensures customTemplate == old(customTemplate)
      ensures forall c :: c in old(trackingCleanups) ==>
                Stopped(c, old(tracker.videoTrackingState), tracker.videos, tracker.impressions)
      ensures var run := ApiClient.FetchAds(outcome, retryCount, retryDelay, 0);
              var list := ServerCreatives(run.data);
              && (IsEmptyList(list) ==>
                    && result == Unavailable && content == NoAdsNotice
                    && renderedCreatives == [] && trackingCleanups == []
                    && SwitchedOff(old(tracker.videos), old(tracker.impressions), tracker.videos, tracker.impressions)
                    && tracker.log == old(tracker.log)
                    && log == old(log) + Loading(onLoading, true) + run.effects + ErrorCallback(onError)
                              + Loading(onLoading, false))
              && (!IsEmptyList(list) && !list.Arr? ==>
                    && result == Failed && content == Elements([])
                    && renderedCreatives == [] && trackingCleanups == []
                    && SwitchedOff(old(tracker.videos), old(tracker.impressions), tracker.videos, tracker.impressions)
                    && tracker.log == old(tracker.log)
                    && log == old(log) + Loading(onLoading, true) + run.effects + [Report(GeneralError)]
                              + ErrorCallback(onError) + Loading(onLoading, false))
              && (!IsEmptyList(list) && list.Arr? ==>
                    var fates := Fates(PrepareEach(list.items, envs, customTemplate, templates.templates), |list.items|);
                    var t := FirstThrow(fates);
                    var obs := tracker.observerSupported;
                    && trackingCleanups == CleanupsOf(fates[..t], envs, |old(tracker.impressions)|)
                    && Replaced(old(tracker.videos), old(tracker.impressions), tracker.videos, tracker.impressions,
                                VideosOf(fates[..t], envs, obs), RegistrationsOf(fates[..t], envs, obs))
                    && tracker.log == old(tracker.log) + TrackerLogOf(fates[..t], envs, obs)
                    && renderedCreatives == ShownOf(fates[..t])
                    && content == Elements(ElementsOf(ShownOf(fates[..t])))
                    && result == (if t == |list.items| then Completed(renderedCreatives) else Failed)
                    && log == old(log) + Loading(onLoading, true) + run.effects + LogOf(fates[..t], onRender)
                              + (if t == |list.items| then [Emit(AdRendered, RenderedPayload(slotId, renderedCreatives))]
                                 else [Report(GeneralError)] + ErrorCallback(onError))
                              + Loading(onLoading, false))
      ensures tracker.timers == old(tracker.timers) && tracker.played == old(tracker.played)
      ensures onLoading == old(onLoading) && onError == old(onError) && onRender == old(onRender)
    {
      ghost var oldCleanups, oldState := trackingCleanups, tracker.videoTrackingState;
      Destroy();
      ghost var state, videos, impressions := tracker.videoTrackingState, tracker.videos, tracker.impressions;
      result := Load(outcome, retryCount, retryDelay, useCustomTemplate, 0, "", templates, envs);
      ghost var list := ServerCreatives(ApiClient.FetchAds(outcome, retryCount, retryDelay, 0).data);
      if !IsEmptyList(list) && list.Arr? {
        ghost var fates := Fates(PrepareEach(list.items, envs, customTemplate, templates.templates), |list.items|);
        ghost var t := FirstThrow(fates);
        ReplacedBy(old(tracker.videos), old(tracker.impressions), videos, impressions,
                   VideosOf(fates[..t], envs, tracker.observerSupported),
                   RegistrationsOf(fates[..t], envs, tracker.observerSupported));
      }
      CleanupsStayStopped(oldCleanups, oldState, state, videos, impressions, tracker.videos, tracker.impressions);
    }

    /** getRenderedCreatives: the rendered creatives, in rendering order. */
    function GetRenderedCreatives(): (r: seq<Value>)
      reads this
      ensures |r| == |renderedCreatives|
      ensures forall i :: 0 <= i < |r| ==> r[i] == renderedCreatives[i].creative
    {
      CreativesOfAt(renderedCreatives);
      CreativesOf(renderedCreatives)
    }

    /** getCreativeAt: the creative at a valid index, null at any other. */
    function GetCreativeAt(index: int): (r: Value)
      reads this
      ensures 0 <= index < |renderedCreatives| ==> r == GetRenderedCreatives()[index]
      ensures !(0 <= index < |renderedCreatives|) ==> r == Null
    {
      if 0 <= index < |renderedCreatives| then renderedCreatives[index].creative else Null
    }

    /**
     * updateOptions: a falsy argument changes nothing; otherwise each
     * truthy callback it carries replaces the slot's.
     */
    method UpdateOptions(options: Value)
      modifies this
      ensures onLoading == if Truthy(options) && Truthy(OptionalProp(options, "onLoading")) then OptionalProp(options, "onLoading") else old(onLoading)
      ensures onError == if Truthy(options) && Truthy(OptionalProp(options, "onError")) then OptionalProp(options, "onError") else old(onError)
      ensures onRender == if Truthy(options) && Truthy(OptionalProp(options, "onRender")) then OptionalProp(options, "onRender") else old(onRender)
      ensures customTemplate == old(customTemplate) && content == old(content) && renderedCreatives == old(renderedCreatives)
      ensures trackingCleanups == old(trackingCleanups) && bindings == old(bindings) && log == old(log)
    {
      if !Truthy(options) {
        return;
      }
      if Truthy(OptionalProp(options, "onLoading")) {
        onLoading := OptionalProp(options, "onLoading");
      }
      if Truthy(OptionalProp(options, "onError")) {
        onError := OptionalProp(options, "onError");
      }
      if Truthy(OptionalProp(options, "onRender")) {
        onRender := OptionalProp(options, "onRender");
      }
    }

    /** The play button of binding `b` is clicked: the next click on the ad is swallowed. */
    method PlayButtonClick(b: nat)
      requires b < |bindings| && bindings[b].hasPlayButton
      modifies this
      ensures bindings == old(bindings)[b := old(bindings)[b].(playButtonClicked := true)]
      ensures log == old(log) && renderedCreatives == old(renderedCreatives) && trackingCleanups == old(trackingCleanups)
      ensures content == old(content) && customTemplate == old(customTemplate)
      ensures onLoading == old(onLoading) && onError == old(onError) && onRender == old(onRender)
    {
      bindings := bindings[b := bindings[b].(playButtonClicked := true)];
    }

    /**
     * A click on the ad of binding `b`. Right after a play-button click it
     * only resets the flag. Otherwise the click is tracked; then a reward ad
     * with an ask is applied through `ApiClient.Apply` (answered by
     * `response`; `request` is what it sends) and follows the finalUrl of
     * its result, while any other ad follows its landingUrl.
     */
    method Click(b: nat, config: Configs.Config, response: ApiClient.ApplyResponse)
      returns (request: Option<ApiClient.ApplyRequest>)
      requires Valid() && b < |bindings|
      modifies this, tracker
      ensures Valid()
      ensures old(bindings[b].playButtonClicked) ==>
                bindings == old(bindings)[b := old(bindings[b]).(playButtonClicked := false)]
                && log == old(log) && tracker.log == old(tracker.log) && request.None?
      ensures !old(bindings[b].playButtonClicked) ==>
                var creative := old(bindings[b].creative);
                && bindings == old(bindings)
                && tracker.log == old(tracker.log)
                   + (if Truthy(creative) && Truthy(Tracking.AskOf(creative))
                      then [Send(Tracking.AskOf(creative), Utils.Click), Emit(AdClicked, creative)] else [])
      ensures !old(bindings[b].playButtonClicked) && ApplyAsked(old(bindings[b].creative)) ==>
                var creative := old(bindings[b].creative);
                var answered := request.Some? && response.Answered? && response.ok && response.json.Some?;
                && request == ApiClient.ApplyPlan(PropsOf(creative), config.Get("env"), config.Get("userParams"),
                                                  config.Get("serviceType"), config.tables, config.ApplyEndpoint())
                && log == old(log) + (if answered then [] else [Report(NetworkError)])
                          + ClickOutcome(creative, if answered then response.json.value else Null)
      ensures !old(bindings[b].playButtonClicked) && !ApplyAsked(old(bindings[b].creative)) ==>
                request.None? && log == old(log) + ClickOutcome(old(bindings[b].creative), Null)
      ensures tracker.videos == old(tracker.videos) && tracker.impressions == old(tracker.impressions)
      ensures tracker.videoTrackingState == old(tracker.videoTrackingState)
      ensures tracker.timers == old(tracker.timers) && tracker.played == old(tracker.played)
      ensures renderedCreatives == old(renderedCreatives) && trackingCleanups == old(trackingCleanups)
      ensures content == old(content) && customTemplate == old(customTemplate)
      ensures onLoading == old(onLoading) && onError == old(onError) && onRender == old(onRender)
    {
      if bindings[b].playButtonClicked {
        bindings := bindings[b := bindings[b].(playButtonClicked := false)];
        return None;
      }
      var creative := bindings[b].creative;
      tracker.TrackClick(creative);
      if ApplyAsked(creative) {
        var result, effects;
        result, request, effects := ApiClient.Apply(PropsOf(creative), config, response);
        log := log + effects + ClickOutcome(creative, if result.Some? then result.value else Null);
      } else {
        request := None;
        log := log + ClickOutcome(creative, Null);
      }
    }
  }

  /** createSlot: a new slot, or the error the constructor throws. */
  method CreateSlot(options: Value, containerFound: bool, configOnError: Value, tracker: Tracking.Tracker)
    returns (slot: Option<Slot>)
    requires tracker.Valid()
    ensures slot.None? <==> CheckOptions(options, containerFound).Some?
    ensures slot.Some? ==> fresh(slot.value) && slot.value.Valid() && slot.value.tracker == tracker
                           && slot.value.renderedCreatives == [] && slot.value.content == Original
  {
    if CheckOptions(options, containerFound).Some? {
      return None;
    }
    var s := new Slot(options, containerFound, configOnError, tracker);
    return Some(s);
  }

  /** A creative with a landing URL, in the video format, whose impType is not a reward type. */
  function VideoWithLanding(url: string): (creative: Value)
    ensures Truthy(creative) && IsVideoFormat(creative) && !Truthy(Tracking.AskOf(creative))
    ensures OptionalProp(creative, "landingUrl") == Str(url)
  {
    Obj(map["creativeFormat" := Str("NATIVE_VIDEO"), "impType" := Num(36), "landingUrl" := Str(url)])
  }

  /** A new slot whose one binding is `creative`, bound with a `<video>` and a play button. */
  method SlotShowing(creative: Value) returns (slot: Slot)
    requires Truthy(creative) && IsVideoFormat(creative)
    ensures fresh(slot) && fresh(slot.tracker) && slot.Valid() && slot.log == []
    ensures slot.bindings == [Binding(creative, false, true)]
  {
    var tracker := new Tracking.Tracker(true);
    var options := Obj(map["slotId" := Str("s"), "containerId" := Str("c")]);
    slot := new Slot(options, true, Null, tracker);
    slot.BindEvents(0, creative, ItemEnv(_ => 0, _ => Some(0), true, Some(1), true, "k"));
  }

  /**
   * A play-button click swallows exactly the next click on the ad: of the
   * two clicks after it, only the second navigates.
   */
  method PlayButtonSwallowsOneClick() returns (navigations: nat)
    ensures navigations == 1
  {
    var creative := VideoWithLanding("u");
    assert !ApplyAsked(creative) && ClickOutcome(creative, Null) == [Navigate(Str("u"))];
    var slot := SlotShowing(creative);
    slot.PlayButtonClick(0);
    var config := new Configs.Config(Configs.Tables(map[], [], map[], map[], map[]));
    var request := slot.Click(0, config, ApiClient.Unanswered);
    assert slot.log == [];
    request := slot.Click(0, config, ApiClient.Unanswered);
    var log := slot.log;
    assert log == [Navigate(Str("u"))];
    assert log[1..] == [];
    assert Count(log[1..], Navigate(Str("u"))) == 0;
    navigations := Count(log, Navigate(Str("u")));
  }
}
