# CashFriends web ad SDK — a Dafny model of its core

This project models the core of the CashFriends browser ad SDK. A *slot* binds
a page container to an ad slot id. It fetches creatives from the ad server with
retries. It renders each creative through a template. It wires click,
impression and video-progress tracking to every rendered element. Tracking
sends one fire-and-forget request per action (`VIMP`, `V_PROGRESS_3S`, `V_1Q`,
`V_MID`, `V_3Q`, `V_COMPLETE`, `CLICK`). A click on a reward ad goes through
the `apply` endpoint, which resolves the caller's identity from the
configuration tables.

There is one Dafny module per source file:

- `Json` (json.dfy) holds the JavaScript values the SDK handles: truthiness,
  `||`, property reads, `?.` and `String(n)`.
- `Utils` (utils.dfy) models `src/core/utils.js`. It also holds the effect
  log (`Effect`): event emissions, error reports, tracking requests, waits,
  navigations and user callbacks, in the order the SDK performs them.
- `Events` (events.dfy) models `EventSystem`.
- `Configs` (config.dfy) models `Config`.
- `Creatives` (creative.dfy) models `Creative`.
- `ApiClient` (apiclient.dfy) models `fetchAdsWithRetry` and `apply`.
- `Tracking` (tracking.dfy) models `Tracker`.
- `Rendering` (renderer.dfy) models the renderer's decision logic.
- `Templates` (templates.dfy) models `TemplateManager`.
- `Slots` (slot.dfy) models `Slot` and `createSlot`.

Objects whose fields the SDK updates in place are classes: `EventSystem`,
`Config`, `Creative`, `Tracker`, `TemplateManager`, `Slot` and the MINITOON
`Slideshow`. Their methods carry `modifies` clauses and state the whole new
state.

What the browser provides becomes an input:

- A fetch is a function from attempt number to outcome.
- A rendered template's first element is `parse`.
- Random nibbles are `draw`.
- The tracking key is a parameter.
- Visibility, timers and playback are the tracker methods `Enter`, `Leave`,
  `Elapse`, `TimeUpdate`, `Ended` and `Play`.

The `Tracker.Valid` invariant states the tracking rules. Each video act is sent
exactly once per registration if its latch is set, and never otherwise. An
impression registration is tracked exactly when it has sent `VIMP`. Each
element's start event is emitted at most once. Every method of the tracker
preserves this invariant.

## Model

| member | source | states |
|---|---|---|
| Utils.ErrorRecord | src/core/utils.js:36-43 | the record has the four standard keys plus the additional info's; every additional field wins; otherwise type is the error type's name, message is the error's message or 'Unknown error occurred', and originalError is the error |
| Utils.HandleError | src/core/utils.js:36-63 | exactly one ERROR event, carrying the record; onError is called with the same record exactly when it is a function |
| Utils.IsObject | src/core/utils.js:145-147 | an object in this sense is truthy, neither an array nor null |
| Utils.Spread | src/core/utils.js:121 | `{...v}`: an object's own properties; for an array exactly the keys "0" to "n-1", each holding its element; for a string the same keys, each holding its one-character string; {} for any other value |
| Utils.DeepMerge | src/core/utils.js:118-138 | a falsy source gives target itself; otherwise the result is a plain object, and an object target keeps every key |
| Utils.DeepMergeOfObjects | src/core/utils.js:118-138 | merging two plain objects gives an object over the union of their keys: keys only in target keep their values, non-object source values overwrite, and object source values under keys target lacks are copied |
| Utils.DeepMergeDegenerate | src/core/utils.js:118-123 | a falsy source returns target itself; a non-object target gives a shallow copy of target with source ignored; a non-object source leaves an object target as it was |
| Utils.DeepMergeSelf | src/core/utils.js:118-138 | merging an object into itself gives it back, at every depth |
| Utils.DeepMergeSourceLeafWins | src/core/utils.js:123-133 | a non-object leaf of source reaches the result at the same path whenever target holds only objects (or nothing) along that path |
| Utils.DeepMergeKeepsTargetOnly | src/core/utils.js:118-138 | a value of target at a path where source has nothing, while source holds objects along the way, survives the merge unchanged |
| Utils.QueryPart | src/core/utils.js:250 | the query text exists exactly when the url has a '?'; it is exactly the text after the first '?' up to the next '?' or the end, and holds no '?' |
| Utils.CollectKeepsLast | src/core/utils.js:255-257 | a key is in the dictionary exactly when some pair has it, and its value is that of its last pair |
| Utils.Collect | src/core/utils.js:255-257 | the dictionary's keys are exactly the keys of the pairs (CollectKeepsLast gives the values) |
| Utils.ParseQueryParams | src/core/utils.js:248-260 | no '?' or nothing after it gives {}; otherwise the dictionary of the decoded pairs of the query text |
| Utils.ReplaceFirst | src/core/utils.js:234-240 | `replace` with a string pattern: no occurrence leaves the text unchanged; otherwise only the first occurrence is replaced |
| Utils.Pad2 | src/core/utils.js:228-232 | two characters below 100; a leading '0' below 10; digits only |
| Utils.ReplaceInNumeric | src/core/utils.js:234-240 | a letter token has no occurrence in the digits and dashes earlier replacements produced, so replacing it changes nothing |
| Utils.ReplaceAfterNumeric | src/core/utils.js:234-240 | after a prefix of digits and dashes, the first occurrence of a letter token is where the rest of the text starts with it |
| Utils.FormatDateDefault | src/core/utils.js:224-241 | the default 'YYYY-MM-DD' format gives the year, then the 1-based month and the day, each zero-padded to two digits |
| Utils.FormatDate | src/core/utils.js:224-241 | a format holding none of YYYY, MM, DD, HH, mm and ss comes back unchanged (FormatDateDefault gives the default format) |
| Utils.Fill | src/core/utils.js:191-195 | the filled UUID template is as long as the template |
| Utils.FillFits | src/core/utils.js:191-195 | each 'x' becomes a hex digit, each 'y' one of 8, 9, a and b, and every other character stays |
| Utils.UuidShape | src/core/utils.js:190-196 | whatever the random draws: 36 characters, '-' at 8, 13, 18 and 23, '4' at 14, one of 8/9/a/b at 19, hex digits elsewhere |
| Utils.GenerateUuid | src/core/utils.js:190-196 | 36 characters whatever the draws, the first the hex digit of the first draw (UuidShape gives the whole shape) |
| Events.Without | src/core/events.js:64 | the filter drops every occurrence of the listener and keeps every other listener as often as it occurred |
| Events.WithoutConcat | src/core/events.js:64 | the filter works piecewise, so survivors keep their relative order |
| Events.OncesIn | src/core/events.js:46-53 | the once-wrappers of a list |
| Events.PlainOnly | src/core/events.js:46-53 | what remains once every once-wrapper has removed itself: exactly the plain listeners |
| Events.FailingExactly | src/core/events.js:87-93 | a failure is recorded for exactly the invoked callbacks that throw |
| Events.DispatchStep | src/core/events.js:47-49 | dispatching one more listener invokes its callback; a once-wrapper removes itself from the live list, a plain listener stays |
| Events.EventSystem.constructor | src/core/events.js:6-9 | no event has listeners |
| Events.EventSystem.ListenerCount | src/core/events.js:112-114 | 0 for an unknown name, else the length of its list |
| Events.EventSystem.On | src/core/events.js:25-38 | the callback is appended at the end of the name's list, created if needed; the count rises by one; the returned unsubscribe is off(name, callback) |
| Events.EventSystem.Once | src/core/events.js:46-53 | a fresh wrapper is appended; the returned unsubscribe removes that wrapper |
| Events.EventSystem.Off | src/core/events.js:60-73 | unknown name: nothing; with a listener: every occurrence removed, the rest kept; without one: the list deleted |
| Events.EventSystem.Unsub | src/core/events.js:37 | the function `on` returns acts as off(name, callback) |
| Events.EventSystem.Emit | src/core/events.js:80-94 | unknown name: nothing; otherwise every listener subscribed at the start is invoked in order, throwing ones are caught and the rest still run, and once-wrappers are gone afterwards |
| Events.EventSystem.Dispatch | src/core/events.js:87-93 | the `forEach` over the snapshot invokes all of it, in order, whatever the once-wrappers remove from the live list |
| Events.EventSystem.Clear | src/core/events.js:99-105 | no subscriptions remain: every name counts 0 |
| Events.OnceRunsAtMostOnce | src/core/events.js:46-53 | after one dispatch a once-wrapper is gone, so a second emit does not reach it; plain listeners stay |
| Configs.Find | src/core/config.js:130-131 | `obj[key]` on a table in declaration order: nothing exactly when no entry has the key; otherwise the value of the first entry that has it |
| Configs.ClientIdFor | src/core/config.js:130-131 | a client id found is non-empty and listed for the service type under that environment |
| Configs.IndexOfKey | src/core/config.js:130-131 | the first entry with the key in declaration order, or none |
| Configs.FirstMatch | src/core/config.js:145 | the leftmost position where `Next.*$`, `Android$` or `iOS$` matches |
| Configs.ServiceCategory | src/core/config.js:145 | the service type with the leftmost match removed: a prefix, shorter exactly when some alternative matches, with no match before its end |
| Configs.CategoryOfAndroid | src/core/config.js:145 | a type ending in 'Android' whose stem has no 'Next' loses exactly that suffix |
| Configs.CategoryOfNext | src/core/config.js:145 | everything from the first 'Next' on is removed |
| Configs.CategoryKeepsUpperIOS | src/core/config.js:145 | the match is case-sensitive: a trailing 'IOS' is kept |
| Configs.CategoryOfKakaoPage | src/core/config.js:145 | kakaoPageNextAndroid and kakaoPageNextIOS both give kakaoPage |
| Configs.CategoryOfKakaoWebtoonAndroid | src/core/config.js:145 | kakaoWebtoonAndroid gives kakaoWebtoon |
| Configs.CategoryOfMelonAndroid | src/core/config.js:145 | melonAndroid gives melon |
| Configs.CategoryOfIOSTypes | src/core/config.js:145 | kakaoWebtoonIOS and melonIOS are kept whole: the lowercase-i `iOS$` does not match them |
| Configs.ShippedServiceKeys | src/core/config.js:143-153 | with the shipped tables, kakaoWebtoonIOS, melonAndroid and melonIOS find no service key; kakaoWebtoonAndroid, kakaoPageNextAndroid and kakaoPageNextIOS do |
| Configs.ServiceKeyFor | src/core/config.js:146-147 | a key exactly when SERVICE_KEYS has the env and the category and the key is non-empty (truthy), and then that key |
| Configs.CategoryNames | src/core/config.js:8-24 | the shipped categories are kakaoPage, kakaoWebtoon and melonNext; neither melon nor melonIOS is one |
| Configs.KeyOfInjective | src/core/config.js:182-196 | distinct setting names are distinct keys |
| Configs.DerivedParamsSpec | src/core/config.js:123-153 | set user parameters are kept and only clientId and serviceKey can be added; the clientId is the existing truthy one, else the option's, else CLIENT_IDS[env][serviceType], else left as it was; the serviceKey is the existing truthy one, else SERVICE_KEYS[env][category], else left as it was |
| Configs.WithClientId | src/core/config.js:123-137 | only clientId can be added or changed; an existing truthy clientId is kept; afterwards the clientId is truthy or nothing changed |
| Configs.WithServiceKey | src/core/config.js:143-153 | only serviceKey can be added or changed; an existing truthy serviceKey, or an empty service type, leaves the parameters as they were; afterwards the serviceKey is truthy or nothing changed |
| Configs.InitialSettings | src/core/config.js:97-107 | `init` writes exactly the ten named settings |
| Configs.InitialSettingIsOptionOrDefault | src/core/config.js:79-106 | each setting but useCustomTemplate is its option when truthy, else its default (a 0, '', false or missing option falls back) |
| Configs.InitialUseCustomTemplate | src/core/config.js:107 | useCustomTemplate defaults to true only when the option is undefined; a falsy option is kept |
| Configs.InitialSettingsTyped | src/core/config.js:97-107 | with documented options, env and serviceType are strings and userParams an object |
| Configs.Config.constructor | src/core/config.js:79-90 | the settings are the defaults |
| Configs.Config.Get | src/core/config.js:182-184 | the stored value, undefined for a key never set |
| Configs.Config.Set | src/core/config.js:191-196 | get(key) gives the value back; no other key changes |
| Configs.Config.EndpointIn | src/core/config.js:202-220 | a table indexed by the current env: a value exactly when the env is listed |
| Configs.Config.ApiEndpoint | src/core/config.js:202-204 | ENVIRONMENTS under the current env: an endpoint exactly when the env is listed there |
| Configs.Config.ApplyEndpoint | src/core/config.js:218-220 | APPLY under the current env: an endpoint exactly when the env is listed there, and then the listed one |
| Configs.Config.TrackingEndpoint | src/core/config.js:210-212 | TRACKING under the current env: an endpoint exactly when the env is listed there |
| Configs.Config.Init | src/core/config.js:97-117 | the ten settings from the options with their defaults, then userParams with clientId and serviceKey derived; other settings kept |
| Configs.Config.SetupClientId | src/core/config.js:123-137 | an existing truthy clientId is kept; otherwise the option's when truthy, else CLIENT_IDS[env][serviceType] when the type is set and the id exists; otherwise nothing changes |
| Configs.Config.SetupServiceKey | src/core/config.js:143-153 | an existing truthy serviceKey is kept; otherwise SERVICE_KEYS[env][category] when the type is set and the key exists; otherwise nothing changes |
| Configs.IsRewardAdType | src/core/config.js:243-245 | false exactly for impression types 36 and 37 |
| Configs.OnlyShippedEnvsHaveEndpoints | src/core/config.js:55-73 | only dev, qa and prod have endpoints; sandbox has none in any table |
| Creatives.FieldOf | src/ads/creative.js:18-57 | the data property a name denotes, and none for `_rawData` or any other name |
| Creatives.FieldNameInjective | src/ads/creative.js:18-60 | distinct properties have distinct names, none of them `_rawData` |
| Creatives.FieldOfName | src/ads/creative.js:18-57 | each property's name denotes it |
| Creatives.Fields.ToMap | src/ads/creative.js:177-181 | every data property under its own name, and nothing else |
| Creatives.Fields.With | src/ads/creative.js:131 | one property replaced, the others kept |
| Creatives.FromDataDefaults | src/ads/creative.js:16-57 | each property is the server's value when truthy, else its default (a UUID, 'DEFAULT', 0, '', {} or null); assets only when an array, else []; dspContentId from the data, else from adInfo, else '' |
| Creatives.FirstOfType | src/ads/creative.js:68-69 | a match found is one of the assets and has the type; the search throws only when some asset's `type` cannot be read |
| Creatives.AllOfType | src/ads/creative.js:77-79 | the filter completes exactly when every asset's `type` can be read |
| Creatives.AllOfTypeKeepsMatches | src/ads/creative.js:77-79 | every asset of the type is kept, as often as it occurs, and nothing else |
| Creatives.AllOfTypeInOrder | src/ads/creative.js:77-79 | the filter of a concatenation is the concatenation of the filters, so matches keep their order; a single readable asset is kept exactly when it has the type |
| Creatives.AllOfTypeAppend | src/ads/creative.js:77-79 | the filter of a concatenation of readable lists is the concatenation of their filters |
| Creatives.ReadableAppend | src/ads/creative.js:77-79 | two lists whose `type` can be read concatenate to one whose `type` can be read |
| Creatives.FirstOfTypeIsFirstMatch | src/ads/creative.js:68-70 | the first asset of the type, or null when there is none; it is the head of getAssets |
| Creatives.FirstOfTypeFound | src/ads/creative.js:68-70 | an asset found is the first asset with the type |
| Creatives.FirstOfTypeNull | src/ads/creative.js:68-70 | null is found only when no asset has the type |
| Creatives.FirstOfTypeHeadOfAll | src/ads/creative.js:68-79 | on readable assets, getAsset is the head of getAssets, or null when that is empty |
| Creatives.NewAsset | src/ads/creative.js:158-162 | the pushed asset has the given type |
| Creatives.AddedAssetIsLastOfType | src/ads/creative.js:157-163 | after addAsset, getAssets of that type ends with the new asset |
| Creatives.Creative.constructor | src/ads/creative.js:16-61 | the properties from the data with their defaults; `_rawData` is the data ({} when undefined); the assets array is shared with `_rawData` exactly when the data's assets is an array |
| Creatives.Creative.Put | src/ads/creative.js:130-131 | one property assigned, the others and `_rawData` kept |
| Creatives.Creative.GetAsset | src/ads/creative.js:68-70 | a non-array assets throws; otherwise the first asset of the type (no earlier asset has it), or null when none has it; it is the head of getAssets of that type |
| Creatives.Creative.GetAssets | src/ads/creative.js:77-79 | every asset of the type, as often as it occurs and in the assets' order, and nothing else |
| Creatives.Creative.GetAssetValue | src/ads/creative.js:86-89 | the first asset's value, or null when there is none |
| Creatives.Creative.IsRewardAd | src/ads/creative.js:95-98 | false exactly for impType 36 or 37 |
| Creatives.Creative.IsVideoAd | src/ads/creative.js:104-106 | true exactly for NATIVE_VIDEO or when some asset is a MAIN_VIDEO |
| Creatives.Creative.ToJson | src/ads/creative.js:177-181 | every data property under its name and nothing else: no `_rawData` |
| Creatives.Creative.Update | src/ads/creative.js:125-134 | each data property named by a key of the argument is assigned; `_rawData` and unknown names are skipped; a falsy argument changes nothing |
| Creatives.Creative.UpdateIf | src/ads/creative.js:143-149 | assigns and answers true exactly when the creative has the property and the condition holds of its value; otherwise nothing changes |
| Creatives.Creative.AddAsset | src/ads/creative.js:157-163 | the new asset is appended at the end of the assets; when the array is still the one `_rawData` holds, `_rawData` sees the push too; nothing else changes |
| Rendering.JsonCopyIsPlain | src/rendering/renderer.js:462 | the JSON copy holds no undefined and no function |
| Rendering.JsonCopyOfPlain | src/rendering/renderer.js:462 | JSON data comes back from the round trip unchanged |
| Rendering.JsonCopyIdempotent | src/rendering/renderer.js:462 | copying a copy changes nothing |
| Rendering.JsonCopy | src/rendering/renderer.js:462 | undefined and functions become null; arrays stay arrays of the same length; objects stay objects holding exactly the properties that are neither undefined nor functions |
| Rendering.SecuredOfHttp | src/rendering/renderer.js:469-470 | a url beginning with 'http:' gets exactly that prefix replaced by 'https:' |
| Rendering.RewriteAssetSpec | src/rendering/renderer.js:466-473 | a null asset throws; an IMAGE or VIDEO asset whose value begins with 'http:' gets 'https:'; every other asset comes back unchanged |
| Rendering.RewriteAsset | src/rendering/renderer.js:466-473 | throws exactly for a null or undefined asset, or an IMAGE or VIDEO asset whose value is truthy but not a string; an object asset keeps its keys and every property but `value` |
| Rendering.RewriteAssetIdempotent | src/rendering/renderer.js:466-473 | a rewritten asset is not rewritten again and stays JSON data |
| Rendering.RewriteAll | src/rendering/renderer.js:466-474 | the map keeps the asset count |
| Rendering.RewriteAllSpec | src/rendering/renderer.js:466-474 | the i-th result is the i-th asset rewritten; the map throws exactly when some asset does |
| Rendering.RewriteAllIdempotent | src/rendering/renderer.js:466-474 | mapping the rewrite over its own result changes nothing |
| Rendering.PreProcessCreative | src/rendering/renderer.js:458-462 | a falsy creative is returned as it is; a function cannot be copied |
| Rendering.PreProcessOfObject | src/rendering/renderer.js:458-478 | the result is the JSON copy with only the assets changed: same count and order, each asset through the rewrite |
| Rendering.PreProcessIdempotent | src/rendering/renderer.js:458-478 | pre-processing a pre-processed creative gives it back unchanged |
| Rendering.ResolveAssetSpec | src/rendering/renderer.js:284-294 | an indexed MINITOON target gets the index-th (1-based) asset of its type when there are that many, else none (index 0 gives none); any other target gets the first asset of its type |
| Rendering.ResolveAsset | src/rendering/renderer.js:284-294 | throws when the assets are neither an array nor nullish; never throws over readable assets; a found asset is one of the assets and has the type |
| Rendering.OptionalAssetDisplay | src/rendering/renderer.js:296-326 | no asset: a MAIN_VIDEO `<video>` gives way to the thumbnail when both containers exist, any other target is hidden; a TEXT asset sets the text to its value, an IMAGE or VIDEO asset sets the source to its value, any other asset type does nothing; an asset is never hidden |
| Rendering.VideoTemplateLayoutSpec | src/rendering/renderer.js:115-128 | the thumbnail replaces the video exactly when there is a MAIN_IMAGE but no MAIN_VIDEO; the player is wired exactly when there is a MAIN_VIDEO |
| Rendering.VideoTemplateLayout | src/rendering/renderer.js:115-128 | readable assets always give a layout; the player only when a MAIN_VIDEO asset exists, the thumbnail only when a MAIN_IMAGE asset exists |
| Rendering.ValidImagesSpec | src/rendering/renderer.js:231-235 | the valid images are exactly those whose index is at most the number of MAIN_IMAGE assets, in page order |
| Rendering.ValidImages | src/rendering/renderer.js:231-235 | no more positions than images, each the position of an image |
| Rendering.StepsCountUp | src/rendering/renderer.js:245 | steps that stay below the image count count up by one |
| Rendering.StepsCompose | src/rendering/renderer.js:245 | slideshow steps compose |
| Rendering.StepsCycle | src/rendering/renderer.js:245 | after as many steps as there are images the slideshow is back where it started |
| Rendering.Slideshow.constructor | src/rendering/renderer.js:227-237 | the slideshow starts on the first valid image, with more than one |
| Rendering.Slideshow.Tick | src/rendering/renderer.js:240-247 | hides the current image and shows the next one, index (i + 1) mod n |
| Rendering.ExtractCustomTemplate | src/rendering/renderer.js:17-29 | the container's markup exactly when custom templates are on and the container has child elements; null otherwise |
| Rendering.RenderTemplate | src/rendering/renderer.js:38-82 | an element exactly when the creative is truthy, the chosen template parses and processing completes, with one AD_RENDERED for it; otherwise null and one RENDERING error |
| Rendering.RenderPrefersCustomTemplate | src/rendering/renderer.js:48 | a truthy custom template is always the one parsed; the format's template only otherwise |
| Slots.FormatTemplate | src/rendering/renderer.js:48 | a truthy template is always one registered in the table; a format with a truthy template of its own gets that one; otherwise DEFAULT's template, undefined when there is none |
| Templates.BuiltInNamesDistinct | src/rendering/templates.js:8-172 | twelve distinct built-in names, DEFAULT last |
| Templates.Table | src/rendering/templates.js:8-172 | the initial table holds exactly the built-in names, each with its markup |
| Templates.StyleStringJoins | src/rendering/templates.js:230-232 | the declarations 'prop: value;' joined by single spaces |
| Templates.Styled | src/rendering/templates.js:238 | only the first `<div` gets the style attribute; a template without `<div` is unchanged |
| Templates.StyledKeepsPrefix | src/rendering/templates.js:238 | nothing before the first `<div` changes, and the style attribute follows it |
| Templates.StyledUpToKeys | src/rendering/templates.js:235-240 | styling keeps the set of names |
| Templates.StyledUpToStep | src/rendering/templates.js:235-240 | visiting one more name styles that template and nothing else |
| Templates.TemplateManager.constructor | src/rendering/templates.js:6-172 | the twelve built-in names, in order, each with its markup |
| Templates.TemplateManager.GetTemplate | src/rendering/templates.js:180-182 | the stored template when truthy, else DEFAULT's |
| Templates.TemplateManager.GetTemplateNames | src/rendering/templates.js:188-190 | the registered names, each exactly once; for names that are not array indices, in registration order |
| Templates.TemplateManager.AddTemplate | src/rendering/templates.js:197-203 | throws and changes nothing unless both arguments are strings; otherwise stores that name only, and a new name that is not an array index is listed at the end |
| Templates.TemplateManager.UpdateTemplate | src/rendering/templates.js:211-218 | false and no change when the name has no truthy template; otherwise true and the template replaced |
| Templates.TemplateManager.ApplyGlobalStyles | src/rendering/templates.js:224-241 | throws and changes nothing for non-object styles; otherwise every template is styled in name order, the key set kept; a non-string template stops the rewrite there |
| ApiClient.HasCreatives | src/network/api-client.js:44 | a non-empty creatives list is in particular truthy, as the `&&` demands |
| ApiClient.Attempt | src/network/api-client.js:31-38 | an attempt succeeds exactly when a 2xx response carries a body; a non-2xx status fails like a thrown error |
| ApiClient.FetchAds | src/network/api-client.js:17-72 | at least one attempt and at most retryCount − attempt + 1 |
| ApiClient.FetchExhausted | src/network/api-client.js:52-71 | when every attempt fails: retryCount + 1 attempts, a wait before each retry, then exactly one NETWORK error and `{creatives: []}`, never AD_LOADED |
| ApiClient.FetchSucceedsAt | src/network/api-client.js:17-61 | the first success within the budget is returned unchanged after the earlier waits; no error; AD_LOADED exactly when creatives is non-empty |
| ApiClient.ResolvedEnv | src/network/api-client.js:87-90 | 'sandbox' is served as 'qa'; every other env is kept; the result is truthy exactly when the env is |
| ApiClient.ResolvedServiceType | src/network/api-client.js:96-108 | a configured truthy type is kept; otherwise the type found for the client id, which is truthy and maps back to that id; with none found, the configured value |
| ApiClient.FirstIdIndex | src/network/api-client.js:101-105 | the first type, in declaration order, whose id equals the client id |
| ApiClient.FindServiceType | src/network/api-client.js:100-108 | environments in order, within each the types in order; the search ends at the first environment whose matching type name is truthy |
| ApiClient.FindType | src/network/api-client.js:96-109 | the nested loops find the type FindServiceType designates, and a non-empty name, or nothing |
| ApiClient.ServiceKeyOf | src/network/api-client.js:112-119 | the user's key when set or without a service type; otherwise SERVICE_KEYS[resolvedEnv][category] when it exists, else the user's key; a truthy non-string service type or a non-string env throws |
| ApiClient.ApplyBody | src/network/api-client.js:122-130 | dspContentId from adInfo over the creative; advId from plainIfa over the creative; ask copied; userId from userInfo, then userParams, then the creative; env from the creative over the resolved env |
| ApiClient.ApplyPlan | src/network/api-client.js:79-157 | a request exactly when there is an ask, userParams is neither undefined nor null, the service key resolves and the APPLY endpoint is non-empty; it goes to that endpoint with the ApplyBody of the resolved env |
| ApiClient.Apply | src/network/api-client.js:79-184 | sends the planned request; returns the response's JSON when it was ok, else null after exactly one NETWORK error |
| ApiClient.FoundTypeMapsBack | src/network/api-client.js:96-109 | the service type found for a client id maps back to it in CLIENT_IDS |
| ApiClient.ApplyResolvesServiceKey | src/network/api-client.js:96-130 | when the client id finds a service type, the body carries that client id and the table key of the type's category, or the user's key when the table has none |
| ApiClient.SandboxApplyFails | src/network/api-client.js:87-150 | 'sandbox' resolves to 'qa', but the APPLY endpoint is read under the raw env, so apply never sends |
| ApiClient.MissingIdsStillSend | src/network/api-client.js:133-139 | a missing advId or service key does not stop the request: it is sent with advId and serviceKey falsy |
| Tracking.Progress | src/network/tracking.js:115-137 | a milestone fires exactly when it is reached and its latch is open, each once, in the order 3 s, first quarter, middle, third quarter |
| Tracking.FiringKeepsSentOnce | src/network/tracking.js:95-98 | sending acts whose latches were open, and setting them, keeps each act sent exactly once per set latch |
| Tracking.ProgressFiresFresh | src/network/tracking.js:122-136 | one timeupdate fires distinct video acts whose latches were open |
| Tracking.LatchStep | src/network/tracking.js:95-98 | one registration firing fresh acts keeps every registration's sends exact |
| Tracking.TrackEvent | src/network/tracking.js:21-44 | true exactly when the response was ok; a TRACKING error exactly when the request threw |
| Tracking.IsRewardAd | src/network/tracking.js:320-322 | false exactly for impression types 36 and 37 |
| Tracking.Tracker.constructor | src/network/tracking.js:11-14 | no registrations, timers, played elements or sends |
| Tracking.Tracker.SetupVideoTracking | src/network/tracking.js:51-80 | without an element, a creative or an ask: nothing registered, no cleanup; otherwise one registration with every latch open under the key; without IntersectionObserver VIMP is sent at once |
| Tracking.Tracker.CleanupVideoTracking | src/network/tracking.js:217-228 | a known key: outer observer disconnected and key deleted; an unknown key: nothing |
| Tracking.Tracker.SetupImpressionTracking | src/network/tracking.js:236-298 | without an ask: a no-op cleanup; otherwise an untracked registration; without IntersectionObserver VIMP and AD_IMPRESSION at once, counted as one impression sent |
| Tracking.Tracker.RunCleanup | src/network/tracking.js:293-297 | video cleanup as above; impression cleanup only disconnects the outer observer; no timer is cleared |
| Tracking.Tracker.Enter | src/network/tracking.js:164-273 | a connected video observer starts a dwell timer and autoplays an unplayed element; a connected impression observer starts one only while untracked |
| Tracking.Tracker.Leave | src/network/tracking.js:177-270 | every pending timer of the registration is cleared |
| Tracking.Tracker.Elapse | src/network/tracking.js:169-260 | a cleared timer does nothing; a video timer sends VIMP only when its latch is open; an impression timer sends VIMP whatever `tracked` is, emits AD_IMPRESSION and disconnects |
| Tracking.Tracker.FireVideo | src/network/tracking.js:169-174 | VIMP sent only when its latch is open, then the latch set; the acts recorded as sent grow by exactly what was sent |
| Tracking.Tracker.FireImpression | src/network/tracking.js:249-260 | VIMP sent, tracked set, AD_IMPRESSION emitted, observer disconnected; one more impression counted as sent |
| Tracking.Tracker.TimeUpdate | src/network/tracking.js:115-137 | a non-positive duration does nothing; otherwise the milestones Progress picks are sent in order, latched and recorded as sent |
| Tracking.Tracker.Ended | src/network/tracking.js:95-112 | V_COMPLETE sent, latched, recorded as sent and AD_VIDEO_COMPLETED emitted exactly when its latch was open |
| Tracking.Tracker.Play | src/network/tracking.js:140-147 | AD_VIDEO_STARTED only on the first play of an element, which is recorded as started once |
| Tracking.Tracker.TrackClick | src/network/tracking.js:304-313 | with an ask, CLICK sent and AD_CLICKED emitted on every call; otherwise nothing |
| Tracking.ImpressionCanBeSentTwice | src/network/tracking.js:247-260 | two entries with no exit between them, before the first timer fires, start two timers, and both send VIMP |
| Tracking.VideoImpressionSentOnce | src/network/tracking.js:167-174 | the video timer re-checks its latch, so the same two entries send VIMP once |
| Tracking.LeaveCancelsDwell | src/network/tracking.js:177-184 | leaving before the dwell timer fires clears it, so nothing is sent |
| Tracking.CleanupKeepsRunningTimer | src/network/tracking.js:217-228 | cleanup deletes the key but a running dwell timer still sends VIMP |
| Slots.CheckOptions | src/ads/slot.js:29-45 | a slot is built exactly when options are given, slotId and containerId are truthy and the container exists; errors in the constructor's order |
| Slots.PrepareShown | src/ads/slot.js:135-141 | a shown creative is the pre-processed `toJSON` copy of the created creative: every serialisable property but assets copied, AD_RENDERED emitted for it, and a second pre-processing changes nothing |
| Slots.Prepare | src/ads/slot.js:135-141 | a null creative throws; a shown creative is an object with AD_RENDERED emitted for it; a failed render reports a RENDERING error |
| Slots.PreProcessedObject | src/ads/slot.js:135-138 | the pre-processed copy of an object holds the copy of every serialisable property but assets, and pre-processing it again changes nothing |
| Slots.FirstThrowSpec | src/ads/slot.js:133-184 | the loop stops at the first creative whose creation or pre-processing throws |
| Slots.IsEmptyList | src/ads/slot.js:109 | `length === 0`: true only for an array, a string or an object, for an array or a string exactly when it is empty |
| Slots.ShownOfBound | src/ads/slot.js:143-154 | at most one creative recorded per server creative |
| Slots.ClickOutcome | src/ads/slot.js:217-235 | a reward ad with an ask follows the finalUrl of what apply resolved to (nothing for null), with no landing-URL fallback; any other ad follows its landingUrl, if any |
| Slots.CleanupStep | src/ads/slot.js:294-298 | running one more cleanup keeps every earlier one disconnected |
| Slots.StepCleanups | src/ads/slot.js:143-160 | one more creative adds its own cleanups, and its count of impression registrations, after those of the creatives before it |
| Slots.StepRegistry | src/ads/slot.js:143-160 | one more creative adds its own video and impression registrations, and what the tracker sends at once for it, after those of the creatives before it |
| Slots.BookkeptStep | src/ads/slot.js:143-160 | absorbing one more creative keeps the cleanups, registrations and immediate tracker sends in step with the creatives absorbed, earlier ones untouched |
| Slots.CleanupsStep | src/ads/slot.js:143-160 | the cleanups after one more creative are those before it followed by its own |
| Slots.RegistryStep | src/ads/slot.js:143-160 | the tracker's video and impression registrations and its immediate sends after one more creative are those before it followed by its own |
| Slots.CleanupsStayStopped | src/ads/slot.js:126-161 | registrations stopped by the cleanup before rendering stay stopped while rendering only appends registrations |
| Slots.StoppedStays | src/ads/slot.js:126-161 | one stopped registration stays stopped when registrations are only appended |
| Slots.Slot.constructor | src/ads/slot.js:29-70 | the callbacks, onError falling back to the configured one, no custom template, nothing rendered, nothing to clean up |
| Slots.Slot.ExtractCustomTemplate | src/ads/slot.js:76-89 | an extracted template is kept; otherwise the renderer's, read from a container whose child count is the slot's own content (the notice, or the rendered elements), and a truthy one empties the container |
| Slots.Slot.BindEvents | src/ads/slot.js:199-286 | a click handler per truthy creative; NATIVE_VIDEO with a trackable `<video>` registers video tracking under the key; NATIVE_VIDEO without a `<video>` registers nothing and changes no tracking; any other format registers impression tracking when trackable; the cleanups kept, the video and impression registrations added and the tracker's immediate sends (VIMP, and AD_IMPRESSION for an impression, without IntersectionObserver) are exactly BoundCleanups, BoundVideos, BoundRegistrations and BoundLog; timers and played untouched |
| Slots.BoundCleanups | src/ads/slot.js:249-285 | nothing for a falsy creative; for NATIVE_VIDEO one ForVideo cleanup per video registration; for any other format exactly one cleanup, the impression's exactly when an impression registration is added and the no-op function otherwise |
| Slots.BoundVideos | src/ads/slot.js:249-256 | at most one; one exactly for a truthy NATIVE_VIDEO creative with a `<video>` and a truthy ask; it watches that `<video>`, is observed exactly when IntersectionObserver exists, and has VIMP already sent exactly when it does not |
| Slots.BoundRegistrations | src/ads/slot.js:279-284 | one registration exactly for a truthy creative of another format that is trackable, none otherwise |
| Slots.BoundLog | src/network/tracking.js:279-289 | nothing while IntersectionObserver exists; without it one VIMP per video registration and VIMP with AD_IMPRESSION per impression registration, for that creative only |
| Slots.Slot.PrepareCreative | src/ads/slot.js:135-141 | the fate Prepare assigns the creative |
| Slots.Slot.Absorb | src/ads/slot.js:143-160 | a rendered creative is appended, bound, recorded and passed to onRender; the tracker's registry grows by exactly its BindStep; timers and played untouched |
| Slots.Slot.AbsorbNext | src/ads/slot.js:143-160 | absorbing the next creative extends the recorded creatives, container, log, cleanups, registrations and tracker sends by exactly that creative's share |
| Slots.Slot.RenderCreatives | src/ads/slot.js:133-161 | the creatives in server order up to the first throw: the shown ones recorded and appended, in order |
| Slots.Slot.CleanupTracking | src/ads/slot.js:292-302 | every cleanup held is run and the list emptied; keys are only removed and observers only switched off; with no cleanups held the tracker is unchanged; timers, played and the tracker log untouched |
| Slots.Slot.RenderList | src/ads/slot.js:127-184 | every creative through the loop; one AD_RENDERED listing all recorded creatives when none threw, else a GENERAL error and onError |
| Slots.Slot.RenderItems | src/ads/slot.js:133-168 | the array loop: the creatives up to the first throw recorded and bound, their cleanups kept and their registrations and tracker sends appended; AD_RENDERED when none threw, else a GENERAL error and onError |
| Slots.Slot.ReplaceRendering | src/ads/slot.js:126-168 | earlier tracking cleaned up and stays stopped; earlier registrations only switched off and the new creatives' registrations appended after them; the tracker's immediate sends for the new creatives appended to its log; only the new creatives' cleanups are kept |
| Slots.Slot.Load | src/ads/slot.js:95-191 | onLoading(true) first and onLoading(false) last; no creatives: the notice and onError, tracking and rendered creatives unchanged; otherwise earlier registrations stopped and only switched off, exactly the new creatives' video and impression registrations appended (VideosOf, RegistrationsOf) and their immediate sends logged (TrackerLogOf), only their cleanups kept, the rendered creatives accumulate, and AD_RENDERED or a GENERAL error ends the log; timers and played untouched |
| Slots.Slot.Destroy | src/ads/slot.js:308-324 | cleanups run and emptied, container cleared, rendered creatives forgotten; keys only removed, observers only switched off, timers, played and the tracker log untouched; with no cleanups held the tracker is unchanged |
| Slots.Slot.DestroyTwice | src/ads/slot.js:308-324 | a second destroy leaves the tracker as the first left it |
| Slots.Slot.Refresh | src/ads/slot.js:331-337 | destroy then load: the custom template unchanged, since the emptied container yields none; every earlier cleanup's registration stopped; the three outcomes of load, with only this load's rendered creatives and cleanups, earlier registrations only switched off and the new ones appended after them |
| Slots.Slot.GetRenderedCreatives | src/ads/slot.js:343-345 | the rendered creatives, in order |
| Slots.Slot.GetCreativeAt | src/ads/slot.js:352-357 | the creative at an index in range, null at any other |
| Slots.Slot.UpdateOptions | src/ads/slot.js:363-383 | a falsy argument changes nothing; each truthy callback given replaces the slot's |
| Slots.Slot.PlayButtonClick | src/ads/slot.js:259-270 | the next click on the ad is swallowed |
| Slots.Slot.Click | src/ads/slot.js:206-243 | right after a play-button click only the flag is reset; otherwise CLICK is tracked; a reward ad with an ask sends the planned apply request, logs its NETWORK error when it fails and follows the finalUrl of its result; any other ad follows its landingUrl; the tracker's registrations, keys, timers and played are untouched |
| Slots.CreateSlot | src/ads/slot.js:391-393 | a slot exactly when the constructor's checks pass |
| Slots.PlayButtonSwallowsOneClick | src/ads/slot.js:206-264 | of the two clicks after a play-button click only the second navigates |
| Slots.SlotShowing | src/ads/slot.js:199-264 | a new slot with one bound video creative holds exactly that binding, with a play button |

## Left out

- The DOM is left out. Template parsing, `querySelector`, style writes, `appendChild` and `innerHTML` are not modelled. A parsed template's first element is the input `parse`. Whether the per-format, optional-asset and reward processing completes is a flag. Container content is a list of element ids.
- IntersectionObserver, MutationObserver, `setTimeout`, `setInterval` and `requestAnimationFrame` are left out. Their callbacks are the tracker methods `Enter`, `Leave` and `Elapse` and the `Slideshow.Tick` method. The interval that the MutationObserver clears is not modelled.
- Network I/O is left out. `fetch`, `AbortController`, `response.json()` and the request timeout are outcomes given as inputs. `promiseWithTimeout` is concurrency: a timeout is one more failure.
- `URLSearchParams`, `encodeURIComponent` and the tracking URL are left out. The pairs a query string decodes to are an input function.
- `Math.random`, `Date.now`, `new Date()` and the timezone are inputs: the random nibbles, the tracking key, the timestamp and the date fields. `formatDate`'s parsing of its argument into a Date is left out.
- NaN is left out. A video with a NaN duration is not modelled; playback times are `real`.
- Console and debug logging are left out, as are `_logInitConfig` and `setDebug`.
- `isSupportedFeature` is a constructor flag of the tracker. `isElementInViewport`, `applyStyles` and `debounce` are left out (browser geometry and timers).
- Renderer presentation is left out: `applyTheme`, `styleContainer`, `_adjustImageStyles`, `_configureNativeFeedTemplate` and `_processRewardInfo`, plus the timeline, ended and play-button listeners of `_configureVideoTemplate`. Only the MAIN_IMAGE/MAIN_VIDEO layout choice is modelled.
- `ApiClient.request` is not part of this model. It is not used by the slot.
- `getTrackingInfo`, `getRawData` and `toString` of `Creative` are plain reads and are not part of this model. `getServiceKeys` and `getClientIds` are the `Tables` value.
- src/index.js, the facade with its `isInitialized` guard, is not part of this model.
- The template markup and the literal keys, ids and endpoints are left out. The configuration tables are an opaque `Tables` value. Lemmas state their shipped structure (`StandardShape`).
- Properties inherited from `Object.prototype` (`'toString' in obj`, `obj.constructor`) are not modelled. Every lookup sees own properties only.
- Server data of the wrong JSON type is only partly modelled. Values are JavaScript values, but an array or a function used as a property key, and a function's `length`, are not modelled.
- User callbacks (`onLoading`, `onError`, `onRender`, listeners) are ids. They are assumed to return normally, except event-bus listeners, which may throw. A truthy non-function callback is not modelled.
- `emit`'s arguments are not modelled; only which callbacks run is.
- Events.EventSystem.Emit: the listeners run to completion one after another. A listener that subscribes or unsubscribes during the dispatch is not modelled; only the once-wrappers' own removal is.
- Configs.Config.Init: requires the documented option types (env and serviceType strings, userParams an object). Options of other types make the derivation read properties of non-strings and are not modelled. `settings.userParams` is the caller's `options.params` object itself (config.js:99), so the derived clientId and serviceKey (config.js:128, 132, 149) are also written into the caller's object; the model copies the value, and that aliasing is not modelled.
- Slots.Slot.GetCreativeAt: the index is an integer. A non-integer index within the bounds, such as 0.5, passes the range test, reads `.creative` of undefined and throws; that case is not modelled.
- Creatives.Creative.constructor: requires data that is not null. `new Creative(null)` throws, and that throw is modelled in Slots.Prepare, which is what `load` calls.
- Creatives.Creative.Update: `update` assigns only the creative's own data properties. Its `key in this` also admits inherited names such as `toString`, and those are not modelled.
- Creatives.Creative.UpdateIf: `updateIf` has the same `key in this` test, so the inherited names are left out here too.
- Templates.TemplateManager.ApplyGlobalStyles: the styles are given as their entries, or none when `typeof styles !== 'object'` or `Object.entries` throws. The entries of an array or a boxed value are not derived.
- Utils.ParseQueryParams: the url must be a string; `url.split` on a non-string throws and is not modelled.
- Utils.HandleError: the error's `message` is an input, so reading it from a null or undefined error (a TypeError) is not modelled.
- Tracking.Tracker.SetupVideoTracking: the tracking key is a parameter, and a fresh key is assumed. A key that collides with a registered one replaces its map entry, just as `Map.set` would, and this is not stated further.
- ApiClient.HasCreatives: `data.creatives.length > 0` converts a non-number `length` (a creatives object with `length: "5"` counts as non-empty). Only a number `length` is modelled; any other `length` counts as no creatives.
- ApiClient.ApplyBody: `JSON.stringify` drops keys whose value is undefined. The modelled body always has all seven keys, and an undefined one stands for a key the request omits.
- Templates.TemplateManager.GetTemplateNames: `Object.keys` lists integer-like names ("0", "42") first, in ascending order, and only then the other names in insertion order. The model lists every name in registration order, so its order is the source's only when no name is an array index.
- Templates.TemplateManager.AddTemplate: a new integer-like name takes its place among the other integer-like names in `Object.keys` order, not at the end; the model appends every new name.
- Slots.Slot.Load: the container's child count must agree with the slot's own content (one child for the notice, one per rendered element), but its markup `innerHtml` is an input: the markup of the notice and of rendered ads is not modelled. A second load without destroy and with custom templates on therefore captures some markup as the custom template, as the source does (renderer.js:17-29, slot.js:76-89), but which markup is not stated.
- Templates.TemplateManager.ApplyGlobalStyles: `replace(/<div/, …)` expands `$&`, `$1` and similar patterns in the style string, while the model inserts it literally. `Object.keys` also lists integer-like names first in ascending order, which the model's name order does not reproduce.
- Slots.Slot.Click: the handler's catch (a GENERAL error) is not modelled. Tracking, `apply` (which reports its own NETWORK error and resolves to null) and navigation cannot throw in the model, so that branch is never taken.
- Creatives.Creative.AddAsset: array identity is a single flag, "the assets array is the one `_rawData` holds". Other aliases of the data's assets array outside the creative are not modelled.
