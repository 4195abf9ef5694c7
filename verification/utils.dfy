/**
 * The SDK's shared vocabulary (error kinds, event names, tracking action
 * types), the abstract log of outside effects, and the pure helpers of the
 * utilities file: error records, deep merge, query-string parsing, date
 * formatting and UUID generation.
 */
module Utils {
  import opened Json

  datatype ErrorType = NetworkError | RenderingError | ConfigurationError | TrackingError | GeneralError

  function ErrorTypeName(t: ErrorType): string {
    match t
    case NetworkError => "NETWORK_ERROR"
    case RenderingError => "RENDERING_ERROR"
    case ConfigurationError => "CONFIGURATION_ERROR"
    case TrackingError => "TRACKING_ERROR"
    case GeneralError => "GENERAL_ERROR"
  }

  datatype EventType = ErrorEvent | AdLoaded | AdRendered | AdClicked | AdImpression
                     | AdVideoStarted | AdVideoCompleted | SdkReady

  function EventName(e: EventType): string {
    match e
    case ErrorEvent => "error"
    case AdLoaded => "ad_loaded"
    case AdRendered => "ad_rendered"
    case AdClicked => "ad_clicked"
    case AdImpression => "ad_impression"
    case AdVideoStarted => "ad_video_started"
    case AdVideoCompleted => "ad_video_completed"
    case SdkReady => "sdk_ready"
  }

  /** The `actType` of a tracking request. */
  datatype ActType = Vimp | VProgress3s | V1Q | VMid | V3Q | VComplete | Click

  function ActName(a: ActType): string {
    match a
    case Vimp => "VIMP"
    case VProgress3s => "V_PROGRESS_3S"
    case V1Q => "V_1Q"
    case VMid => "V_MID"
    case V3Q => "V_3Q"
    case VComplete => "V_COMPLETE"
    case Click => "CLICK"
  }

  /**
   * What the SDK does to the outside world, in the order it does it. An
   * event's payload is abstracted to the creative or creatives it carries.
   */
  datatype Effect =
    | Emit(event: EventType, payload: Value)          // event-bus emission
    | Report(kind: ErrorType)                         // handleError: ERROR event plus the onError callback
    | Send(ask: Value, act: ActType)                  // fire-and-forget tracking request
    | Wait(ms: int)                                   // retry back-off
    | AutoPlay                                        // videoElement.play() attempt
    | Navigate(url: Value)                            // location.href assignment
    | CallOnLoading(loading: bool)
    | CallOnError
    | CallOnRender(creative: Value)

  /** Concatenation regroups freely. */
  lemma AppendAssoc<T>(a: seq<T>, b: seq<T>, c: seq<T>)
    ensures (a + b) + c == a + (b + c)
  {
  }

  /** How many times `e` occurs in `log`. */
  function Count(log: seq<Effect>, e: Effect): nat {
    if log == [] then 0
    else (if log[0] == e then 1 else 0) + Count(log[1..], e)
  }

  lemma {:induction false} CountAppend(a: seq<Effect>, b: seq<Effect>, e: Effect)
    ensures Count(a + b, e) == Count(a, e) + Count(b, e)
  {
    if a == [] {
      assert a + b == b;
    } else {
      assert (a + b)[0] == a[0];
      assert (a + b)[1..] == a[1..] + b;
      CountAppend(a[1..], b, e);
    }
  }

  // ---------------------------------------------------------------------------
  // handleError

  const UnknownErrorMessage := "Unknown error occurred"

  /**
   * The record handleError builds: the four standard fields, then every
   * field of `additionalInfo` spread over them. `message` is the thrown
   * value's `message` property as read.
   */
  function ErrorRecord(kind: ErrorType, message: Value, timestamp: string, originalError: Value,
                       additionalInfo: map<string, Value>): (r: map<string, Value>)
    ensures r.Keys == {"type", "message", "timestamp", "originalError"} + additionalInfo.Keys
    ensures forall k :: k in additionalInfo ==> r[k] == additionalInfo[k]
    ensures "type" !in additionalInfo ==> r["type"] == Str(ErrorTypeName(kind))
    ensures "message" !in additionalInfo ==>
              r["message"] == (if Truthy(message) then message else Str(UnknownErrorMessage))
    ensures "originalError" !in additionalInfo ==> r["originalError"] == originalError
  {
    map["type" := Str(ErrorTypeName(kind)),
        "message" := Or(message, Str(UnknownErrorMessage)),
        "timestamp" := Str(timestamp),
        "originalError" := originalError] + additionalInfo
  }

  /** What one call of handleError did: the record, what it emitted, whom it called. */
  datatype Handled = Handled(record: map<string, Value>,
                             emitted: seq<(EventType, map<string, Value>)>,
                             onErrorCalledWith: Option<map<string, Value>>)

  /**
   * handleError: one ERROR event carrying the record, then the configured
   * onError with the same record when (and only when) it is a function. An
   * exception thrown by onError is swallowed, so it changes nothing here.
   */
  function HandleError(kind: ErrorType, message: Value, timestamp: string, originalError: Value,
                       additionalInfo: map<string, Value>, onError: Value): (h: Handled)
    ensures |h.emitted| == 1 && h.emitted[0].0 == ErrorEvent && h.emitted[0].1 == h.record
    ensures h.onErrorCalledWith.Some? <==> onError.Fn?
    ensures h.onErrorCalledWith.Some? ==> h.onErrorCalledWith.value == h.record
    ensures h.record == ErrorRecord(kind, message, timestamp, originalError, additionalInfo)
  {
    var record := ErrorRecord(kind, message, timestamp, originalError, additionalInfo);
    Handled(record, [(ErrorEvent, record)], if onError.Fn? then Some(record) else None)
  }

  // ---------------------------------------------------------------------------
  // deepMerge

  /** isObject: truthy, of type 'object' and not an array. */
  predicate IsObject(v: Value)
    ensures IsObject(v) ==> Truthy(v) && !v.Arr? && !v.Null?
  {
    v.Obj?
  }

  /** The index-keyed entries `{...items}` produces for an array or a string. */
  function SpreadIndexed(items: seq<Value>): (m: map<string, Value>)
    ensures m.Keys == IndexKeys(|items|)
    ensures forall i :: 0 <= i < |items| ==> m[DecimalString(i)] == items[i]
  {
    if items == [] then map[]
    else
      var m := SpreadIndexed(items[..|items| - 1]);
      assert forall i :: 0 <= i < |items| - 1 ==> items[..|items| - 1][i] == items[i];
      NewIndexKey(|items| - 1);
      IndexKeysStep(|items| - 1);
      m[DecimalString(|items| - 1) := items[|items| - 1]]
  }

  /** The keys of the indices below n. */
  function IndexKeys(n: nat): set<string> {
    set i | 0 <= i < n :: DecimalString(i)
  }

  lemma IndexKeysStep(n: nat)
    ensures IndexKeys(n + 1) == IndexKeys(n) + {DecimalString(n)}
  {
    assert DecimalString(n) in IndexKeys(n + 1);
  }

  /** The key of index n differs from the keys of every smaller index. */
  lemma NewIndexKey(n: nat)
    ensures forall i :: 0 <= i < n ==> DecimalString(i) != DecimalString(n)
  {
    forall i | 0 <= i < n ensures DecimalString(i) != DecimalString(n) {
      if DecimalString(i) == DecimalString(n) {
        DecimalStringInjective(i, n);
      }
    }
  }

  /** `{...v}`: the own enumerable properties of v, as a plain object. */
  function Spread(v: Value): (r: map<string, Value>)
    ensures v.Obj? ==> r == v.props
    ensures v.Arr? ==> r.Keys == IndexKeys(|v.items|)
                       && forall i :: 0 <= i < |v.items| ==> r[DecimalString(i)] == v.items[i]
    ensures v.Str? ==> r.Keys == IndexKeys(|v.s|)
                       && forall i :: 0 <= i < |v.s| ==> r[DecimalString(i)] == Str([v.s[i]])
    ensures !(v.Obj? || v.Arr? || v.Str?) ==> r == map[]
  {
    match v
    case Obj(p) => p
    case Arr(items) => SpreadIndexed(items)
    case Str(s) => SpreadIndexed(seq(|s|, i requires 0 <= i < |s| => Str([s[i]])))
    case _ => map[]
  }

  /**
   * deepMerge(target, source): a falsy source gives target itself; otherwise
   * a shallow copy of target into which, when both are plain objects, every
   * key of source is written: object values are copied when target lacks the
   * key and merged recursively when it has it, all other values overwrite.
   */
  function DeepMerge(target: Value, source: Value): (r: Value)
    ensures !Truthy(source) ==> r == target
    ensures Truthy(source) ==> r.Obj?
    ensures IsObject(target) ==> r.Obj? && r.props.Keys >= target.props.Keys
    decreases source
  {
    if !Truthy(source) then target
    else if IsObject(target) && IsObject(source) then
      Obj(target.props + map k | k in source.props ::
            if IsObject(source.props[k]) then
              if k !in target.props then source.props[k]
              else DeepMerge(target.props[k], source.props[k])
            else source.props[k])
    else Obj(Spread(target))
  }

  lemma DeepMergeOfObjects(target: Value, source: Value)
    requires IsObject(target) && IsObject(source)
    ensures var r := DeepMerge(target, source);
      && r.Obj?
      && r.props.Keys == target.props.Keys + source.props.Keys
      && (forall k :: k in target.props && k !in source.props ==> r.props[k] == target.props[k])
      && (forall k :: k in source.props && !IsObject(source.props[k]) ==> r.props[k] == source.props[k])
      && (forall k :: k in source.props && IsObject(source.props[k]) && k !in target.props ==>
            r.props[k] == source.props[k])
      && (forall k :: k in source.props && IsObject(source.props[k]) && k in target.props ==>
            r.props[k] == DeepMerge(target.props[k], source.props[k]))
  {
  }

  /** A falsy source leaves target untouched; a non-object target ignores source. */
  lemma DeepMergeDegenerate(target: Value, source: Value)
    ensures !Truthy(source) ==> DeepMerge(target, source) == target
    ensures Truthy(source) && !IsObject(target) ==> DeepMerge(target, source) == Obj(Spread(target))
    ensures Truthy(source) && IsObject(target) && !IsObject(source) ==> DeepMerge(target, source) == target
  {
  }

  /** Merging an object into itself gives the object back, at every depth. */
  lemma {:induction false} DeepMergeSelf(v: Value)
    requires IsObject(v)
    ensures DeepMerge(v, v) == v
    decreases v
  {
    var r := DeepMerge(v, v);
    forall k | k in v.props
      ensures r.props[k] == v.props[k]
    {
      if IsObject(v.props[k]) {
        DeepMergeSelf(v.props[k]);
      }
    }
    assert r.props == v.props;
  }

  /** The value at `path` in nested plain objects, if every step exists. */
  function At(v: Value, path: seq<string>): Option<Value> {
    if path == [] then Some(v)
    else if v.Obj? && path[0] in v.props then At(v.props[path[0]], path[1..])
    else None
  }

  /** Every step of `path` in target is a plain object or absent. */
  predicate ObjectsAlong(target: Value, path: seq<string>) {
    IsObject(target) &&
    (|path| > 1 && path[0] in target.props ==> ObjectsAlong(target.props[path[0]], path[1..]))
  }

  /**
   * A non-object leaf of source reaches the result at the same path, as long
   * as target does not hold a non-object somewhere on the way.
   */
  lemma {:induction false} DeepMergeSourceLeafWins(target: Value, source: Value, path: seq<string>, leaf: Value)
    requires path != []
    requires At(source, path) == Some(leaf) && !IsObject(leaf)
    requires ObjectsAlong(target, path)
    ensures At(DeepMerge(target, source), path) == Some(leaf)
    decreases path
  {
    var k := path[0];
    var sk := source.props[k];
    var r := DeepMerge(target, source);
    if |path| == 1 {
      assert At(sk, path[1..]) == Some(leaf);
      assert r.props[k] == sk;
    } else {
      assert At(sk, path[1..]) == Some(leaf);
      if k !in target.props {
        assert r.props[k] == sk;
      } else {
        DeepMergeSourceLeafWins(target.props[k], sk, path[1..], leaf);
      }
    }
  }

  /**
   * A value of target that source does not reach survives the merge at the
   * same path, as long as source holds only objects (or nothing) on the way.
   */
  lemma {:induction false} DeepMergeKeepsTargetOnly(target: Value, source: Value, path: seq<string>, v: Value)
    requires path != []
    requires At(target, path) == Some(v) && At(source, path).None?
    requires ObjectsAlong(source, path)
    ensures At(DeepMerge(target, source), path) == Some(v)
    decreases path
  {
    var k := path[0];
    var r := DeepMerge(target, source);
    assert r.props[k] == if k in source.props then DeepMerge(target.props[k], source.props[k]) else target.props[k];
    if k in source.props && |path| > 1 {
      DeepMergeKeepsTargetOnly(target.props[k], source.props[k], path[1..], v);
    }
  }

  // ---------------------------------------------------------------------------
  // parseQueryParams

  /** The index of the first `c` in s, if any. */
  function IndexOfChar(s: string, c: char): (r: Option<nat>)
    ensures r.Some? ==> r.value < |s| && s[r.value] == c && c !in s[..r.value]
    ensures r.None? ==> c !in s
  {
    if s == [] then None
    else if s[0] == c then Some(0)
    else match IndexOfChar(s[1..], c)
      case None => None
      case Some(i) => assert s[..i + 1] == [s[0]] + s[1..][..i]; Some(i + 1)
  }

  /** `url.split('?')[1]`: the text between the first and the second '?'. */
  function QueryPart(url: string): (r: Option<string>)
    ensures r.None? <==> '?' !in url
    ensures r.Some? ==> '?' !in r.value
    ensures r.Some? ==> exists i :: && 0 <= i < |url| && url[i] == '?' && '?' !in url[..i]
                                    && i + 1 + |r.value| <= |url| && url[i + 1..i + 1 + |r.value|] == r.value
                                    && (i + 1 + |r.value| == |url| || url[i + 1 + |r.value|] == '?')
  {
    match IndexOfChar(url, '?')
    case None => None
    case Some(i) =>
      var rest := url[i + 1..];
      match IndexOfChar(rest, '?')
      case None =>
        assert url[i + 1..i + 1 + |rest|] == rest;
        Some(rest)
      case Some(j) =>
        assert forall k :: 0 <= k < j ==> url[i + 1..i + 1 + j][k] == rest[..j][k];
        assert url[i + 1..i + 1 + j] == rest[..j];
        assert url[i + 1 + j] == rest[j];
        Some(rest[..j])
  }

  /** The dictionary the loop of parseQueryParams builds from the decoded pairs. */
  function Collect(entries: seq<(string, string)>): (m: map<string, string>)
    ensures m.Keys == set i | 0 <= i < |entries| :: entries[i].0
  {
    if entries == [] then map[]
    else
      assert forall i :: 0 <= i < |entries| - 1 ==> entries[..|entries| - 1][i] == entries[i];
      Collect(entries[..|entries| - 1])[entries[|entries| - 1].0 := entries[|entries| - 1].1]
  }

  /** A repeated key keeps the value of its last occurrence; no other key appears. */
  lemma {:induction false} CollectKeepsLast(entries: seq<(string, string)>, k: string)
    ensures k in Collect(entries) <==> exists i :: 0 <= i < |entries| && entries[i].0 == k
    ensures forall j :: 0 <= j < |entries| && entries[j].0 == k &&
                        (forall i :: j < i < |entries| ==> entries[i].0 != k) ==>
               k in Collect(entries) && Collect(entries)[k] == entries[j].1
  {
    if entries != [] {
      var n := |entries| - 1;
      var init := entries[..n];
      CollectKeepsLast(init, k);
      assert forall i :: 0 <= i < n ==> init[i] == entries[i];
      if entries[n].0 != k {
        assert (exists i :: 0 <= i < |entries| && entries[i].0 == k) ==>
               (exists i :: 0 <= i < n && init[i].0 == k);
      }
    }
  }

  /**
   * parseQueryParams(url): an empty dictionary when the url has no '?' or
   * nothing after it; otherwise the pairs `decode` (URLSearchParams, taken as
   * given) reads from the text between the first and second '?', later
   * pairs overwriting earlier ones.
   */
  method ParseQueryParams(url: string, decode: string -> seq<(string, string)>)
    returns (params: map<string, string>)
    ensures QueryPart(url).None? || QueryPart(url) == Some("") ==> params == map[]
    ensures QueryPart(url).Some? && QueryPart(url) != Some("") ==>
              params == Collect(decode(QueryPart(url).value))
  {
    params := map[];
    var queryString := QueryPart(url);
    if queryString.None? || queryString.value == "" {
      return;
    }
    var entries := decode(queryString.value);
    var i := 0;
    while i < |entries|
      invariant 0 <= i <= |entries|
      invariant params == Collect(entries[..i])
    {
      assert entries[..i + 1][..i] == entries[..i];
      params := params[entries[i].0 := entries[i].1];
      i := i + 1;
    }
    assert entries[..i] == entries;
  }

  // ---------------------------------------------------------------------------
  // formatDate

  /** `pat` occurs in s starting at index i. */
  predicate OccursAt(s: string, pat: string, i: nat) {
    i + |pat| <= |s| && s[i..i + |pat|] == pat
  }

  /** i is where the first occurrence of `pat` in s starts. */
  predicate FirstAt(s: string, pat: string, i: nat) {
    OccursAt(s, pat, i) && forall j: nat :: j < i ==> !OccursAt(s, pat, j)
  }

  /** The first occurrence of `pat` in s at or after `from`, if any. */
  function IndexFrom(s: string, pat: string, from: nat): (r: Option<nat>)
    ensures r.Some? ==> from <= r.value && OccursAt(s, pat, r.value)
    ensures r.Some? ==> forall j: nat :: from <= j < r.value ==> !OccursAt(s, pat, j)
    ensures r.None? ==> forall j: nat :: from <= j ==> !OccursAt(s, pat, j)
    decreases |s| - from
  {
    if from + |pat| > |s| then None
    else if s[from..from + |pat|] == pat then Some(from)
    else IndexFrom(s, pat, from + 1)
  }

  /** `s.replace(pat, rep)` with a string pattern: only the first occurrence is replaced. */
  function ReplaceFirst(s: string, pat: string, rep: string): (r: string)
    ensures (forall j: nat :: !OccursAt(s, pat, j)) ==> r == s
    ensures forall i: nat :: FirstAt(s, pat, i) ==> r == s[..i] + rep + s[i + |pat|..]
  {
    var found := IndexFrom(s, pat, 0);
    assert forall i: nat :: FirstAt(s, pat, i) ==> found == Some(i);
    match found
    case None => s
    case Some(i) => s[..i] + rep + s[i + |pat|..]
  }

  /** Digits and dashes only: what the numeric parts of a formatted date consist of. */
  predicate Numeric(s: string) {
    forall i :: 0 <= i < |s| ==> ('0' <= s[i] <= '9' || s[i] == '-')
  }

  /** `String(n).padStart(2, '0')` */
  function Pad2(n: nat): (r: string)
    ensures n < 100 ==> |r| == 2
    ensures n < 10 ==> r == ['0', DigitChar(n)]
    ensures n >= 10 ==> r == DecimalString(n)
    ensures Numeric(r)
  {
    var s := DecimalString(n);
    DecimalStringOfNatHasDigitsOnly(n);
    if |s| < 2 then "0" + s else s
  }

  /**
   * formatDate: the first YYYY, MM, DD, HH, mm and ss, in that order, each
   * replaced in the text the previous replacement produced. The date's
   * fields are inputs; `monthIndex` is getMonth(), counted from 0.
   */
  function FormatDate(format: string, year: int, monthIndex: nat, day: nat,
                      hours: nat, minutes: nat, seconds: nat): (r: string)
    ensures (forall j: nat :: && !OccursAt(format, "YYYY", j) && !OccursAt(format, "MM", j)
                              && !OccursAt(format, "DD", j) && !OccursAt(format, "HH", j)
                              && !OccursAt(format, "mm", j) && !OccursAt(format, "ss", j)) ==> r == format
  {
    var s1 := ReplaceFirst(format, "YYYY", DecimalString(year));
    var s2 := ReplaceFirst(s1, "MM", Pad2(monthIndex + 1));
    var s3 := ReplaceFirst(s2, "DD", Pad2(day));
    var s4 := ReplaceFirst(s3, "HH", Pad2(hours));
    var s5 := ReplaceFirst(s4, "mm", Pad2(minutes));
    ReplaceFirst(s5, "ss", Pad2(seconds))
  }

  /** A text of digits and dashes holds no token that starts with a letter. */
  lemma {:induction false} NumericHasNoToken(s: string, tok: string)
    requires Numeric(s) && tok != [] && 'A' <= tok[0] <= 'z'
    ensures forall j: nat :: !OccursAt(s, tok, j)
  {
    forall j: nat
      ensures !OccursAt(s, tok, j)
    {
      if j + |tok| <= |s| {
        assert s[j..j + |tok|][0] == s[j];
      }
    }
  }

  lemma NumericAppend(a: string, b: string)
    requires Numeric(a) && Numeric(b)
    ensures Numeric(a + b)
  {
    assert forall i :: |a| <= i < |a + b| ==> (a + b)[i] == b[i - |a|];
  }

  /** Replacing a letter token in a numeric text changes nothing. */
  lemma ReplaceInNumeric(s: string, tok: string, rep: string)
    requires Numeric(s) && tok != [] && 'A' <= tok[0] <= 'z'
    ensures ReplaceFirst(s, tok, rep) == s
  {
    NumericHasNoToken(s, tok);
  }

  /** After a numeric prefix, the first occurrence of a letter token is where `rest` starts with it. */
  lemma {:induction false} ReplaceAfterNumeric(p: string, tok: string, rest: string, rep: string)
    requires Numeric(p) && tok != [] && 'A' <= tok[0] <= 'z'
    requires |tok| <= |rest| && rest[..|tok|] == tok
    ensures ReplaceFirst(p + rest, tok, rep) == p + rep + rest[|tok|..]
  {
    var s := p + rest;
    assert s[|p|..|p| + |tok|] == rest[..|tok|];
    forall j: nat | j < |p|
      ensures !OccursAt(s, tok, j)
    {
      if j + |tok| <= |s| {
        assert s[j..j + |tok|][0] == s[j] == p[j];
      }
    }
    assert FirstAt(s, tok, |p|);
    assert s[..|p|] == p;
    assert s[|p| + |tok|..] == rest[|tok|..];
  }

  lemma ReplaceYearOfDefault(y: string)
    requires Numeric(y)
    ensures ReplaceFirst("YYYY-MM-DD", "YYYY", y) == y + "-MM-DD"
  {
    assert IndexFrom("YYYY-MM-DD", "YYYY", 0) == Some(0);
    assert "YYYY-MM-DD"[4..] == "-MM-DD";
  }

  lemma ReplaceMonthOfDefault(y: string, m: string)
    requires Numeric(y)
    ensures ReplaceFirst(y + "-MM-DD", "MM", m) == y + "-" + m + "-DD"
  {
    NumericAppend(y, "-");
    ReplaceAfterNumeric(y + "-", "MM", "MM-DD", m);
    assert (y + "-") + "MM-DD" == y + "-MM-DD";
    assert "MM-DD"[2..] == "-DD";
  }

  lemma ReplaceDayOfDefault(y: string, m: string, d: string)
    requires Numeric(y) && Numeric(m)
    ensures ReplaceFirst(y + "-" + m + "-DD", "DD", d) == y + "-" + m + "-" + d
  {
    NumericAppend(y, "-");
    NumericAppend(y + "-", m);
    NumericAppend(y + "-" + m, "-");
    ReplaceAfterNumeric(y + "-" + m + "-", "DD", "DD", d);
    assert (y + "-" + m + "-") + "DD" == y + "-" + m + "-DD";
    assert "DD"[2..] == "";
  }

  /** The default format gives the year, then the zero-padded month and day; the time tokens are absent. */
  lemma {:induction false} FormatDateDefault(year: nat, monthIndex: nat, day: nat,
                                             hours: nat, minutes: nat, seconds: nat)
    ensures FormatDate("YYYY-MM-DD", year, monthIndex, day, hours, minutes, seconds)
            == DecimalString(year) + "-" + Pad2(monthIndex + 1) + "-" + Pad2(day)
  {
    var y := DecimalString(year);
    DecimalStringOfNatHasDigitsOnly(year);
    var m := Pad2(monthIndex + 1);
    var d := Pad2(day);
    ReplaceYearOfDefault(y);
    ReplaceMonthOfDefault(y, m);
    ReplaceDayOfDefault(y, m, d);
    var s3 := y + "-" + m + "-" + d;
    NumericAppend(y, "-");
    NumericAppend(y + "-", m);
    NumericAppend(y + "-" + m, "-");
    NumericAppend(y + "-" + m + "-", d);
    ReplaceInNumeric(s3, "HH", Pad2(hours));
    ReplaceInNumeric(s3, "mm", Pad2(minutes));
    ReplaceInNumeric(s3, "ss", Pad2(seconds));
  }

  // ---------------------------------------------------------------------------
  // generateUUID

  /** One `Math.random() * 16 | 0` draw. */
  type Nibble = x: int | 0 <= x < 16

  const HexDigits := "0123456789abcdef"

  function Xs(n: nat): string {
    seq(n, _ => 'x')
  }

  /** 'xxxxxxxx-xxxx-4xxx-yxxx-xxxxxxxxxxxx' */
  const UuidTemplate := Xs(8) + "-" + Xs(4) + "-4" + Xs(3) + "-y" + Xs(3) + "-" + Xs(12)

  /**
   * The template with each 'x' replaced by the hex digit of the next draw and
   * each 'y' by that of `r & 0x3 | 0x8`; `draw(k)` is the k-th random draw.
   */
  function Fill(t: string, draw: nat -> Nibble, k: nat): (r: string)
    ensures |r| == |t|
  {
    if t == [] then []
    else
      var c := if t[0] == 'x' then HexDigits[draw(k)]
               else if t[0] == 'y' then HexDigits[draw(k) % 4 + 8]
               else t[0];
      [c] + Fill(t[1..], draw, if t[0] == 'x' || t[0] == 'y' then k + 1 else k)
  }

  /** What a template character becomes: 'x' a hex digit, 'y' one of 8, 9, a, b, anything else itself. */
  predicate Fits(tc: char, rc: char) {
    && (tc != 'x' && tc != 'y' ==> rc == tc)
    && (tc == 'x' ==> rc in HexDigits)
    && (tc == 'y' ==> rc in "89ab")
  }

  /** Every character of the filled template fits the template's character at its position. */
  lemma {:induction false} FillFits(t: string, draw: nat -> Nibble, k: nat)
    ensures forall i :: 0 <= i < |t| ==> Fits(t[i], Fill(t, draw, k)[i])
  {
    if t != [] {
      var k' := if t[0] == 'x' || t[0] == 'y' then k + 1 else k;
      var rest := Fill(t[1..], draw, k');
      FillFits(t[1..], draw, k');
      forall i | 1 <= i < |t| ensures Fits(t[i], Fill(t, draw, k)[i]) {
        assert Fill(t, draw, k)[i] == rest[i - 1] && t[i] == t[1..][i - 1];
      }
    }
  }

  function GenerateUuid(draw: nat -> Nibble): (u: string)
    ensures |u| == 36
    ensures u[0] == HexDigits[draw(0)]
  {
    Fill(UuidTemplate, draw, 0)
  }

  /** Whatever the draws, the UUID keeps the template's shape. */
  lemma UuidShape(draw: nat -> Nibble)
    ensures var u := GenerateUuid(draw);
      && |u| == 36
      && u[8] == '-' && u[13] == '-' && u[18] == '-' && u[23] == '-'
      && u[14] == '4'
      && u[19] in "89ab"
      && forall i :: 0 <= i < 36 && i != 8 && i != 13 && i != 18 && i != 23 ==> u[i] in HexDigits
  {
    var t := UuidTemplate;
    FillFits(t, draw, 0);
    assert |t| == 36;
    assert t[8] == '-' && t[13] == '-' && t[18] == '-' && t[23] == '-' && t[14] == '4' && t[19] == 'y';
    assert forall i :: 0 <= i < 36 && i != 8 && i != 13 && i != 14 && i != 18 && i != 19 && i != 23 ==> t[i] == 'x';
  }
}
