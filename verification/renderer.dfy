/**
 * The renderer's decision logic: the copy a creative goes through before
 * rendering (a JSON round trip plus the http-to-https rewrite of media
 * assets), which asset an optional slot of a template shows, the layout of
 * a video template, the MINITOON slideshow, and the template choice and
 * failure path of `renderTemplate`.
 *
 * The DOM is out: parsing a template is a parameter that yields the first
 * element or none, and what the renderer does to elements is described by
 * `Display` and `VideoLayout` values.
 */
module Rendering {
  import opened Json
  import opened Utils
  import Creatives

  // ---------------------------------------------------------------------------
  // JSON.parse(JSON.stringify(v))

  /** A value `JSON.stringify` keeps as a property: not undefined and not a function. */
  predicate Serialisable(v: Value) {
    !v.Undefined? && !v.Fn?
  }

  /** JSON data all the way down: no undefined and no function anywhere. */
  predicate Plain(v: Value)
    decreases v
  {
    match v
    case Undefined => false
    case Fn(_) => false
    case Arr(items) => forall i :: 0 <= i < |items| ==> Plain(items[i])
    case Obj(props) => forall k :: k in props ==> Plain(props[k])
    case _ => true
  }

  /**
   * The JSON round trip of a value below the top level: object properties
   * that are undefined or functions are dropped, array items that are become
   * null.
   */
  function JsonCopy(v: Value): (r: Value)
    ensures !Serialisable(v) ==> r == Null
    ensures v.Arr? <==> r.Arr?
    ensures v.Arr? ==> |r.items| == |v.items|
    ensures v.Obj? <==> r.Obj?
    ensures v.Obj? ==> r.props.Keys == set k | k in v.props && Serialisable(v.props[k])
    decreases v
  {
    match v
    case Undefined => Null
    case Fn(_) => Null
    case Arr(items) => Arr(seq(|items|, i requires 0 <= i < |items| => JsonCopy(items[i])))
    case Obj(props) => Obj(map k | k in props && Serialisable(props[k]) :: JsonCopy(props[k]))
    case _ => v
  }

  /** The copy is JSON data. */
  lemma {:induction false} JsonCopyIsPlain(v: Value)
    ensures Plain(JsonCopy(v))
    decreases v
  {
    match v
    case Arr(items) =>
      forall i | 0 <= i < |items| ensures Plain(JsonCopy(v).items[i]) {
        JsonCopyIsPlain(items[i]);
      }
    case Obj(props) =>
      forall k | k in JsonCopy(v).props ensures Plain(JsonCopy(v).props[k]) {
        JsonCopyIsPlain(props[k]);
      }
    case _ =>
  }

  /** JSON data comes back from the round trip as it went in. */
  lemma {:induction false} JsonCopyOfPlain(v: Value)
    requires Plain(v)
    ensures JsonCopy(v) == v
    decreases v
  {
    match v
    case Arr(items) =>
      forall i | 0 <= i < |items| ensures JsonCopy(items[i]) == items[i] {
        JsonCopyOfPlain(items[i]);
      }
      assert JsonCopy(v).items == items;
    case Obj(props) =>
      forall k | k in props ensures JsonCopy(props[k]) == props[k] {
        JsonCopyOfPlain(props[k]);
      }
      assert JsonCopy(v).props == props;
    case _ =>
  }

  /** Copying a copy changes nothing. */
  lemma JsonCopyIdempotent(v: Value)
    ensures JsonCopy(JsonCopy(v)) == JsonCopy(v)
  {
    JsonCopyIsPlain(v);
    JsonCopyOfPlain(JsonCopy(v));
  }

  // ---------------------------------------------------------------------------
  // preProcessCreative

  predicate StartsWith(s: string, prefix: string) {
    |prefix| <= |s| && s[..|prefix|] == prefix
  }

  /** `url.replace('http:', 'https:')`. */
  function Secured(url: string): string {
    ReplaceFirst(url, "http:", "https:")
  }

  /** For a URL that begins with 'http:', the rewrite turns exactly that prefix into 'https:', and the result no longer begins with 'http:'. */
  lemma SecuredOfHttp(url: string)
    requires StartsWith(url, "http:")
    ensures Secured(url) == "https:" + url[5..]
    ensures !StartsWith(Secured(url), "http:") && StartsWith(Secured(url), "https:")
  {
    assert FirstAt(url, "http:", 0);
    var r := Secured(url);
    assert r[..6] == "https:";
    assert r[4] == 's';
  }

  /** The asset's `assetType` is IMAGE or VIDEO. */
  predicate IsMedia(asset: Value) {
    asset.Obj? && Lookup(asset.props, "assetType") in [Str("IMAGE"), Str("VIDEO")]
  }

  /**
   * The map callback on one asset of the copy: reading `assetType` of a null
   * asset throws (None), and so does calling `startsWith` on a truthy value
   * that is not a string.
   */
  function RewriteAsset(asset: Value): (r: Option<Value>)
    ensures r.None? <==> || asset == Undefined || asset == Null
                         || (IsMedia(asset) && Truthy(Lookup(asset.props, "value")) && !Lookup(asset.props, "value").Str?)
    ensures r.Some? && asset.Obj? ==> && r.value.Obj? && r.value.props.Keys == asset.props.Keys
                                      && forall k :: k in asset.props && k != "value" ==> r.value.props[k] == asset.props[k]
  {
    match asset
    case Undefined => None
    case Null => None
    case Obj(props) =>
      if !IsMedia(asset) then Some(asset)
      else
        var value := Lookup(props, "value");
        if !Truthy(value) then Some(asset)
        else if !value.Str? then None
        else if StartsWith(value.s, "http:") then Some(Obj(props["value" := Str(Secured(value.s))]))
        else Some(asset)
    case _ => Some(asset)
  }

  /**
   * The rewrite of one asset: an IMAGE or VIDEO asset whose value is a string
   * beginning with 'http:' gets that prefix replaced by 'https:'; every other
   * asset that does not throw comes back unchanged.
   */
  lemma RewriteAssetSpec(asset: Value)
    ensures asset == Null || asset == Undefined ==> RewriteAsset(asset).None?
    ensures IsMedia(asset) && Lookup(asset.props, "value").Str? && StartsWith(Lookup(asset.props, "value").s, "http:") ==>
              RewriteAsset(asset) == Some(Obj(asset.props["value" := Str("https:" + Lookup(asset.props, "value").s[5..])]))
    ensures RewriteAsset(asset).Some? && !(IsMedia(asset) && Lookup(asset.props, "value").Str?
                                            && StartsWith(Lookup(asset.props, "value").s, "http:")) ==>
              RewriteAsset(asset) == Some(asset)
  {
    if IsMedia(asset) && Lookup(asset.props, "value").Str? && StartsWith(Lookup(asset.props, "value").s, "http:") {
      SecuredOfHttp(Lookup(asset.props, "value").s);
    }
  }

  /** A rewritten asset is rewritten no further, and stays JSON data. */
  lemma RewriteAssetIdempotent(asset: Value)
    requires RewriteAsset(asset).Some?
    ensures RewriteAsset(RewriteAsset(asset).value) == RewriteAsset(asset)
    ensures Plain(asset) ==> Plain(RewriteAsset(asset).value)
  {
    RewriteAssetSpec(asset);
    var r := RewriteAsset(asset).value;
    if r != asset {
      var s := Lookup(asset.props, "value").s;
      SecuredOfHttp(s);
      assert Lookup(r.props, "value") == Str(Secured(s));
      assert IsMedia(r);
    }
  }

  /** `assets.map(...)`: every asset rewritten in order; None as soon as one throws. */
  function RewriteAll(items: seq<Value>): (r: Option<seq<Value>>)
    ensures r.Some? ==> |r.value| == |items|
  {
    if items == [] then Some([])
    else
      match RewriteAsset(items[0])
      case None => None
      case Some(first) =>
        match RewriteAll(items[1..])
        case None => None
        case Some(rest) => Some([first] + rest)
  }

  /** The map keeps the count and order of the assets: the i-th result is the i-th asset rewritten; it throws exactly when some asset does. */
  lemma {:induction false} RewriteAllSpec(items: seq<Value>)
    ensures RewriteAll(items).Some? <==> forall i :: 0 <= i < |items| ==> RewriteAsset(items[i]).Some?
    ensures RewriteAll(items).Some? ==>
              forall i :: 0 <= i < |items| ==> RewriteAll(items).value[i] == RewriteAsset(items[i]).value
  {
    if items != [] {
      RewriteAllSpec(items[1..]);
      if RewriteAll(items).Some? {
        forall i | 0 <= i < |items| ensures RewriteAll(items).value[i] == RewriteAsset(items[i]).value {
          if i > 0 {
            assert items[i] == items[1..][i - 1];
          }
        }
      }
      if forall i :: 0 <= i < |items| ==> RewriteAsset(items[i]).Some? {
        forall i | 0 <= i < |items| - 1 ensures RewriteAsset(items[1..][i]).Some? {
          assert items[1..][i] == items[i + 1];
        }
      }
    }
  }

  /** Mapping the rewrite over its own result changes nothing, and keeps JSON data JSON data. */
  lemma {:induction false} RewriteAllIdempotent(items: seq<Value>)
    requires RewriteAll(items).Some?
    ensures RewriteAll(RewriteAll(items).value) == RewriteAll(items)
    ensures (forall i :: 0 <= i < |items| ==> Plain(items[i])) ==>
              forall i :: 0 <= i < |items| ==> Plain(RewriteAll(items).value[i])
  {
    if items != [] {
      RewriteAssetIdempotent(items[0]);
      RewriteAllIdempotent(items[1..]);
      var rest := RewriteAll(items[1..]).value;
      var r := RewriteAll(items).value;
      assert r == [RewriteAsset(items[0]).value] + rest;
      assert r[1..] == rest;
      if forall i :: 0 <= i < |items| ==> Plain(items[i]) {
        forall i | 0 <= i < |items| ensures Plain(r[i]) {
          if i > 0 {
            assert items[1..][i - 1] == items[i];
            assert r[i] == rest[i - 1];
          }
        }
      }
    }
  }

  /**
   * preProcessCreative: a falsy creative is returned as it is. Otherwise the
   * JSON copy (a function has none: parsing `undefined` throws), with its
   * assets rewritten when they form an array. None when it throws.
   */
  function PreProcessCreative(creative: Value): (r: Option<Value>)
    ensures !Truthy(creative) ==> r == Some(creative)
    ensures creative.Fn? ==> r.None?
  {
    if !Truthy(creative) then Some(creative)
    else if creative.Fn? then None
    else
      var copy := JsonCopy(creative);
      if copy.Obj? && Lookup(copy.props, "assets").Arr? then
        match RewriteAll(copy.props["assets"].items)
        case None => None
        case Some(assets) => Some(Obj(copy.props["assets" := Arr(assets)]))
      else Some(copy)
  }

  /**
   * What the copy of a truthy object holds: the JSON copy of every property
   * but `assets`; an assets array keeps its length and order, each asset
   * passed through the rewrite.
   */
  lemma PreProcessOfObject(creative: Value)
    requires creative.Obj? && PreProcessCreative(creative).Some?
    ensures var r := PreProcessCreative(creative).value;
            var copy := JsonCopy(creative);
            && r.Obj? && r.props.Keys == copy.props.Keys
            && (forall k :: k in r.props && k != "assets" ==> r.props[k] == copy.props[k])
            && (Lookup(copy.props, "assets").Arr? ==>
                  var before := copy.props["assets"].items;
                  && r.props["assets"].Arr? && |r.props["assets"].items| == |before|
                  && forall i :: 0 <= i < |before| ==> RewriteAsset(before[i]) == Some(r.props["assets"].items[i]))
            && (!Lookup(copy.props, "assets").Arr? ==> r == copy)
  {
    var copy := JsonCopy(creative);
    if Lookup(copy.props, "assets").Arr? {
      RewriteAllSpec(copy.props["assets"].items);
    }
  }

  /** Pre-processing a pre-processed creative gives it back unchanged. */
  lemma PreProcessIdempotent(creative: Value)
    requires PreProcessCreative(creative).Some?
    ensures PreProcessCreative(PreProcessCreative(creative).value) == PreProcessCreative(creative)
  {
    if Truthy(creative) {
      var copy := JsonCopy(creative);
      JsonCopyIsPlain(creative);
      var r := PreProcessCreative(creative).value;
      if copy.Obj? && Lookup(copy.props, "assets").Arr? {
        var items := copy.props["assets"].items;
        RewriteAllIdempotent(items);
        var assets := RewriteAll(items).value;
        assert Plain(copy.props["assets"]);
        assert Plain(Arr(assets));
        assert Plain(r);
        JsonCopyOfPlain(r);
        assert r.props["assets"] == Arr(assets);
        assert r.props["assets" := Arr(assets)] == r.props;
      } else {
        JsonCopyOfPlain(copy);
      }
    }
  }

  // ---------------------------------------------------------------------------
  // _processOptionalAssets

  /** A target's `data-index`: absent, or the result of `parseInt` on it (None: NaN). */
  datatype IndexAttr = NoIndex | Index(parsed: Option<int>)

  /**
   * `creative.assets?.…` as an array: undefined or null assets give none,
   * another non-array throws (None).
   */
  function AssetList(assets: Value): Option<seq<Value>> {
    match assets
    case Undefined => Some([])
    case Null => Some([])
    case Arr(items) => Some(items)
    case _ => None
  }

  /**
   * The asset an optional target shows, null when there is none. An indexed
   * target of a MINITOON creative takes the index-th (1-based) asset of its
   * type; every other target the first asset of its type. None when the
   * search throws.
   */
  function ResolveAsset(assets: Value, kind: string, format: Value, index: IndexAttr): (r: Option<Value>)
    ensures AssetList(assets).None? ==> r.None?
    ensures AssetList(assets).Some? && Creatives.Readable(AssetList(assets).value) ==> r.Some?
    ensures r.Some? && r.value != Null ==> r.value in AssetList(assets).value && Creatives.HasType(r.value, kind)
  {
    match AssetList(assets)
    case None => None
    case Some(items) =>
      if index.Index? && format == Str("MINITOON") then
        match Creatives.AllOfType(items, kind)
        case None => None
        case Some(matching) =>
          Creatives.AllOfTypeKeepsMatches(items, kind);
          if index.parsed.Some? && 1 <= index.parsed.value <= |matching| then Some(matching[index.parsed.value - 1])
          else Some(Null)
      else Creatives.FirstOfType(items, kind)
  }

  /**
   * Over an array of readable assets: an indexed MINITOON target gets the
   * n-th asset of its type when 1 <= n <= their count and none otherwise, so
   * index 0 resolves to none; any other target gets the first asset of its
   * type, or none when there is no such asset.
   */
  lemma ResolveAssetSpec(items: seq<Value>, kind: string, format: Value, index: IndexAttr)
    requires Creatives.Readable(items)
    ensures var r := ResolveAsset(Arr(items), kind, format, index);
            var matching := Creatives.AllOfType(items, kind).value;
            && r.Some?
            && (r.value != Null ==> r.value in items && Creatives.HasType(r.value, kind))
            && (index.Index? && format == Str("MINITOON") ==>
                  r.value == if index.parsed.Some? && 1 <= index.parsed.value <= |matching|
                             then matching[index.parsed.value - 1] else Null)
            && (!(index.Index? && format == Str("MINITOON")) ==>
                  r.value == if matching == [] then Null else matching[0])
  {
    Creatives.AllOfTypeKeepsMatches(items, kind);
    Creatives.FirstOfTypeIsFirstMatch(items, kind);
    var matching := Creatives.AllOfType(items, kind).value;
    if index.Index? && format == Str("MINITOON") && index.parsed.Some? && 1 <= index.parsed.value <= |matching| {
      assert matching[index.parsed.value - 1] in matching;
    }
    if matching != [] {
      assert matching[0] in matching;
    }
  }

  /** What the renderer does to an optional target. */
  datatype Display =
    | ShowThumbnail        // hide the video container, show the thumbnail container
    | Hide                 // hide the target itself
    | SetText(text: Value) // textContent := value, shown
    | SetSource(src: Value) // src := value, shown

  /**
   * The treatment of a target: with no asset, a MAIN_VIDEO `<video>` gives
   * way to the thumbnail (when both containers exist) and any other target is
   * hidden; a TEXT asset sets the text and an IMAGE or VIDEO asset the source.
   */
  function OptionalAssetDisplay(asset: Value, kind: string, targetIsVideo: bool, containersFound: bool): (r: seq<Display>)
    ensures !Truthy(asset) && kind == "MAIN_VIDEO" && targetIsVideo ==> r == if containersFound then [ShowThumbnail] else []
    ensures !Truthy(asset) && !(kind == "MAIN_VIDEO" && targetIsVideo) ==> r == [Hide]
    ensures Truthy(asset) ==> Hide !in r && ShowThumbnail !in r && |r| <= 1
    ensures Truthy(asset) && OptionalProp(asset, "assetType") == Str("TEXT") ==>
              r == [SetText(OptionalProp(asset, "value"))]
    ensures Truthy(asset) && OptionalProp(asset, "assetType") in {Str("IMAGE"), Str("VIDEO")} ==>
              r == [SetSource(OptionalProp(asset, "value"))]
    ensures Truthy(asset) && OptionalProp(asset, "assetType") !in {Str("TEXT"), Str("IMAGE"), Str("VIDEO")} ==> r == []
  {
    if !Truthy(asset) then
      if kind == "MAIN_VIDEO" && targetIsVideo then (if containersFound then [ShowThumbnail] else [])
      else [Hide]
    else
      var assetType := OptionalProp(asset, "assetType");
      var value := OptionalProp(asset, "value");
      if assetType == Str("TEXT") then [SetText(value)]
      else if assetType == Str("IMAGE") || assetType == Str("VIDEO") then [SetSource(value)]
      else []
  }

  // ---------------------------------------------------------------------------
  // _configureVideoTemplate

  /** How a NATIVE_VIDEO template is laid out. */
  datatype VideoLayout =
    | ThumbnailOnly   // no video but an image: the thumbnail container replaces the video
    | VideoPlayer     // a video: timeline, end-of-video thumbnail and play button are wired
    | AsTemplate      // neither: the template is left as it is

  /** The layout chosen from the MAIN_IMAGE and MAIN_VIDEO lookups; None when a lookup throws. */
  function VideoTemplateLayout(assets: Value): (r: Option<VideoLayout>)
    ensures AssetList(assets).Some? && Creatives.Readable(AssetList(assets).value) ==> r.Some?
    ensures r == Some(VideoPlayer) ==> AssetList(assets).Some? && HasAsset(AssetList(assets).value, "MAIN_VIDEO")
    ensures r == Some(ThumbnailOnly) ==> AssetList(assets).Some? && HasAsset(AssetList(assets).value, "MAIN_IMAGE")
  {
    match AssetList(assets)
    case None => None
    case Some(items) =>
      match Creatives.FirstOfType(items, "MAIN_IMAGE")
      case None => None
      case Some(image) =>
        match Creatives.FirstOfType(items, "MAIN_VIDEO")
        case None => None
        case Some(video) =>
          if video == Null && image != Null then Some(ThumbnailOnly)
          else if video != Null then Some(VideoPlayer)
          else Some(AsTemplate)
  }

  /** Some asset of the list has the type. */
  predicate HasAsset(items: seq<Value>, kind: string) {
    exists i :: 0 <= i < |items| && Creatives.HasType(items[i], kind)
  }

  /**
   * Over readable assets: the thumbnail replaces the video exactly when
   * there is a MAIN_IMAGE but no MAIN_VIDEO; the player is wired exactly
   * when there is a MAIN_VIDEO.
   */
  lemma VideoTemplateLayoutSpec(items: seq<Value>)
    requires Creatives.Readable(items)
    ensures VideoTemplateLayout(Arr(items)).Some?
    ensures VideoTemplateLayout(Arr(items)) == Some(ThumbnailOnly) <==>
              !HasAsset(items, "MAIN_VIDEO") && HasAsset(items, "MAIN_IMAGE")
    ensures VideoTemplateLayout(Arr(items)) == Some(VideoPlayer) <==> HasAsset(items, "MAIN_VIDEO")
  {
    Creatives.FirstOfTypeIsFirstMatch(items, "MAIN_IMAGE");
    Creatives.FirstOfTypeIsFirstMatch(items, "MAIN_VIDEO");
  }

  // ---------------------------------------------------------------------------
  // _configureMiniToonTemplate

  /**
   * The positions of the MINITOON images whose `parseInt(data-index || '0')`
   * is at most the number of MAIN_IMAGE assets (a NaN index never is).
   */
  function ValidImages(indices: seq<Option<int>>, mainImages: nat): (r: seq<nat>)
    ensures |r| <= |indices|
    ensures forall i :: 0 <= i < |r| ==> r[i] < |indices|
  {
    if indices == [] then []
    else
      var n := |indices| - 1;
      ValidImages(indices[..n], mainImages)
      + if indices[n].Some? && indices[n].value <= mainImages then [n] else []
  }

  /** The valid images are exactly the qualifying positions, in increasing order. */
  lemma {:induction false} ValidImagesSpec(indices: seq<Option<int>>, mainImages: nat)
    ensures var r := ValidImages(indices, mainImages);
            && (forall p: nat :: p in r <==> p < |indices| && indices[p].Some? && indices[p].value <= mainImages)
            && (forall i, j :: 0 <= i < j < |r| ==> r[i] < r[j])
            && (forall i :: 0 <= i < |r| ==> r[i] < |indices|)
  {
    if indices != [] {
      var n := |indices| - 1;
      ValidImagesSpec(indices[..n], mainImages);
      var r := ValidImages(indices, mainImages);
      var prev := ValidImages(indices[..n], mainImages);
      assert forall p: nat :: p < n ==> indices[..n][p] == indices[p];
      assert r == prev + if indices[n].Some? && indices[n].value <= mainImages then [n] else [];
    }
  }

  /** The slideshow runs only with more than one image and more than one valid image. */
  predicate SlideshowRuns(indices: seq<Option<int>>, mainImages: nat) {
    |indices| > 1 && |ValidImages(indices, mainImages)| > 1
  }

  /** One step of the slideshow: the next image, wrapping to the first. */
  function Advance(i: nat, n: nat): nat
    requires n > 0
  {
    (i + 1) % n
  }

  /** `k` steps of the slideshow from `i`. */
  function Steps(i: nat, n: nat, k: nat): nat
    requires n > 0
    decreases k
  {
    if k == 0 then i else Steps(Advance(i, n), n, k - 1)
  }

  /** Steps that stay below the image count just count up. */
  lemma {:induction false} StepsCountUp(i: nat, n: nat, k: nat)
    requires i + k < n
    ensures Steps(i, n, k) == i + k
    decreases k
  {
    if k > 0 {
      assert Advance(i, n) == i + 1;
      StepsCountUp(i + 1, n, k - 1);
    }
  }

  /** Steps compose. */
  lemma {:induction false} StepsCompose(i: nat, n: nat, a: nat, b: nat)
    requires n > 0
    ensures Steps(i, n, a + b) == Steps(Steps(i, n, a), n, b)
    decreases a
  {
    if a > 0 {
      StepsCompose(Advance(i, n), n, a - 1, b);
    }
  }

  /** After as many steps as there are images the slideshow is back on the image it started from. */
  lemma StepsCycle(i: nat, n: nat)
    requires i < n
    ensures Steps(i, n, n) == i
  {
    StepsCompose(i, n, n - 1 - i, i + 1);
    StepsCountUp(i, n, n - 1 - i);
    assert Advance(n - 1, n) == 0;
    assert Steps(n - 1, n, i + 1) == Steps(0, n, i);
    StepsCountUp(0, n, i);
  }

  /** The slideshow's interval state: the valid images and the one on show. */
  class Slideshow {
    const images: seq<nat>
    var currentIndex: nat

    ghost predicate Valid()
      reads this
    {
      |images| > 1 && currentIndex < |images|
    }

    /** The slideshow starts on the first valid image. */
    constructor(images: seq<nat>)
      requires |images| > 1
      ensures Valid() && this.images == images && currentIndex == 0
    {
      this.images := images;
      currentIndex := 0;
    }

    /** One interval tick: hides the current image and shows the next, wrapping around. */
    method Tick() returns (hidden: nat, shown: nat)
      requires Valid()
      modifies this
      ensures Valid()
      ensures hidden == images[old(currentIndex)]
      ensures currentIndex == Advance(old(currentIndex), |images|) && shown == images[currentIndex]
    {
      hidden := images[currentIndex];
      currentIndex := (currentIndex + 1) % |images|;
      shown := images[currentIndex];
    }
  }

  // ---------------------------------------------------------------------------
  // extractCustomTemplate and renderTemplate

  /**
   * The renderer's extractCustomTemplate: the container's markup when custom
   * templates are enabled and the container has child elements, else null.
   */
  function ExtractCustomTemplate(useCustomTemplate: Value, containerFound: bool, childCount: nat, innerHtml: string): (r: Value)
    ensures r != Null <==> Truthy(useCustomTemplate) && containerFound && childCount > 0
    ensures r != Null ==> r == Str(innerHtml)
  {
    if !Truthy(useCustomTemplate) || !containerFound then Null
    else if childCount > 0 then Str(innerHtml)
    else Null
  }

  /**
   * renderTemplate: the custom template when truthy, else the format's
   * template, is parsed (`parse` yields its first element, if any);
   * `decorated` says whether the per-format, optional-asset and reward
   * processing completed without throwing. An element is returned with
   * AD_RENDERED for the creative; any failure returns none and reports a
   * RENDERING error.
   */
  function RenderTemplate(creative: Value, customTemplate: Value, formatTemplate: Value,
                          parse: Value -> Option<nat>, decorated: bool): (r: (Option<nat>, seq<Effect>))
    ensures r.0.Some? <==> Truthy(creative) && parse(Or(customTemplate, formatTemplate)).Some? && decorated
    ensures r.0.Some? ==> r.0 == parse(Or(customTemplate, formatTemplate)) && r.1 == [Emit(AdRendered, creative)]
    ensures r.0.None? ==> r.1 == [Report(RenderingError)]
  {
    if !Truthy(creative) then (None, [Report(RenderingError)])
    else
      var raw := Or(customTemplate, formatTemplate);
      match parse(raw)
      case None => (None, [Report(RenderingError)])
      case Some(el) =>
        if decorated then (Some(el), [Emit(AdRendered, creative)]) else (None, [Report(RenderingError)])
  }

  /** A truthy custom template is always the one parsed; the format's template is used only otherwise. */
  lemma RenderPrefersCustomTemplate(creative: Value, customTemplate: Value, formatTemplate: Value,
                                    parse: Value -> Option<nat>)
    requires Truthy(creative)
    ensures Truthy(customTemplate) ==> RenderTemplate(creative, customTemplate, formatTemplate, parse, true).0 == parse(customTemplate)
    ensures !Truthy(customTemplate) ==> RenderTemplate(creative, customTemplate, formatTemplate, parse, true).0 == parse(formatTemplate)
  {
  }
}
