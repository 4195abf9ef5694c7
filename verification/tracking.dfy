/**
 * The tracking engine: per-video latch records keyed by tracking key, a
 * per-element impression latch, the one-second dwell rule and click
 * tracking.
 *
 * The browser is replaced by an explicit input alphabet. `Enter` is an
 * observer seeing its element at least half visible, `Leave` one seeing it
 * drop below half, `Elapse` a dwell timer firing, and `TimeUpdate`, `Ended`
 * and `Play` the video element's own events. A signal is addressed to the
 * registration whose listener or observer receives it. Requests, emissions
 * and autoplay attempts are appended to `log` in the order they happen; a
 * request is fire-and-forget, so its delivery is modelled on its own by
 * `TrackEvent`.
 */
module Tracking {
  import opened Json
  import opened Utils
  import Configs

  /** The six acts a video registration latches; CLICK has no latch. */
  const VideoActs: set<ActType> := {Vimp, VProgress3s, V1Q, VMid, V3Q, VComplete}

  /** `creative.apply?.ask`. */
  function AskOf(creative: Value): Value {
    OptionalProp(OptionalProp(creative, "apply"), "ask")
  }

  /** The setup guard: an element, a creative and an ask are all present. */
  predicate Trackable(element: Option<nat>, creative: Value) {
    element.Some? && Truthy(creative) && Truthy(AskOf(creative))
  }

  /** The order in which one timeupdate checks the progress milestones. */
  function Rank(a: ActType): nat {
    match a
    case VProgress3s => 0
    case V1Q => 1
    case VMid => 2
    case V3Q => 3
    case _ => 4
  }

  /** Whether playback at `currentTime` of `duration` seconds has reached a milestone. */
  predicate Reached(a: ActType, currentTime: real, duration: real)
    requires duration > 0.0
  {
    match a
    case VProgress3s => currentTime >= 3.0
    case V1Q => currentTime / duration >= 0.25
    case VMid => currentTime / duration >= 0.5
    case V3Q => currentTime / duration >= 0.75
    case _ => false
  }

  /**
   * The milestones one timeupdate fires: every reached milestone whose latch
   * is still open, each once, in the order 3 s, first quarter, middle,
   * third quarter.
   */
  function Progress(tracked: set<ActType>, currentTime: real, duration: real): (fired: seq<ActType>)
    requires duration > 0.0
    ensures forall a :: a in fired <==> a !in tracked && Reached(a, currentTime, duration)
    ensures forall i, j :: 0 <= i < j < |fired| ==> Rank(fired[i]) < Rank(fired[j])
  {
    Milestone(VProgress3s, tracked, currentTime, duration) + Milestone(V1Q, tracked, currentTime, duration)
    + Milestone(VMid, tracked, currentTime, duration) + Milestone(V3Q, tracked, currentTime, duration)
  }

  /** One milestone's part of a timeupdate: fired when reached and its latch is open. */
  function Milestone(a: ActType, tracked: set<ActType>, currentTime: real, duration: real): (fired: seq<ActType>)
    requires duration > 0.0
  {
    if Reached(a, currentTime, duration) && a !in tracked then [a] else []
  }

  /** A second timeupdate at the same position fires nothing once the first one's milestones are latched. */
  lemma ProgressLatches(tracked: set<ActType>, currentTime: real, duration: real)
    requires duration > 0.0
    ensures Progress(tracked + Latched(Progress(tracked, currentTime, duration)), currentTime, duration) == []
  {
  }

  /** The latches a run of sent acts sets. */
  function Latched(fired: seq<ActType>): set<ActType> {
    set a | a in fired
  }

  /** The requests for a run of acts under one ask. */
  function SendsOf(ask: Value, acts: seq<ActType>): seq<Effect> {
    seq(|acts|, i requires 0 <= i < |acts| => Send(ask, acts[i]))
  }

  /** Each act was sent exactly once if its latch is set, and never otherwise. */
  ghost predicate SentOncePerLatch(sent: seq<ActType>, tracked: set<ActType>) {
    forall a :: multiset(sent)[a] == if a in tracked then 1 else 0
  }

  /** Sending one act whose latch was open, and setting it, keeps the bookkeeping exact. */
  lemma FireOne(sent: seq<ActType>, tracked: set<ActType>, f: ActType)
    requires SentOncePerLatch(sent, tracked) && f !in tracked
    ensures SentOncePerLatch(sent + [f], tracked + {f})
  {
    assert multiset(sent + [f]) == multiset(sent) + multiset{f};
  }

  /** Sending distinct acts whose latches were open, and setting those latches, keeps the bookkeeping exact. */
  lemma {:induction false} FiringKeepsSentOnce(sent: seq<ActType>, tracked: set<ActType>, fired: seq<ActType>)
    requires SentOncePerLatch(sent, tracked)
    requires forall i :: 0 <= i < |fired| ==> fired[i] !in tracked
    requires forall i, j :: 0 <= i < j < |fired| ==> fired[i] != fired[j]
    ensures SentOncePerLatch(sent + fired, tracked + Latched(fired))
    decreases |fired|
  {
    if fired == [] {
      assert sent + fired == sent;
      assert tracked + Latched(fired) == tracked;
    } else {
      var f := fired[0];
      var rest := fired[1..];
      FireOne(sent, tracked, f);
      RestStillFresh(tracked, fired);
      FiringKeepsSentOnce(sent + [f], tracked + {f}, rest);
      LatchedFirst(fired);
      assert [f] + rest == fired;
      AppendAssoc(sent, [f], rest);
      assert tracked + ({f} + Latched(rest)) == (tracked + {f}) + Latched(rest);
    }
  }

  /** The acts after the first of a fresh, distinct run are fresh once the first is latched, and distinct. */
  lemma RestStillFresh(tracked: set<ActType>, fired: seq<ActType>)
    requires fired != []
    requires forall i :: 0 <= i < |fired| ==> fired[i] !in tracked
    requires forall i, j :: 0 <= i < j < |fired| ==> fired[i] != fired[j]
    ensures forall i :: 0 <= i < |fired[1..]| ==> fired[1..][i] !in tracked + {fired[0]}
    ensures forall i, j :: 0 <= i < j < |fired[1..]| ==> fired[1..][i] != fired[1..][j]
  {
    var rest := fired[1..];
    forall i | 0 <= i < |rest| ensures rest[i] !in tracked + {fired[0]} {
      assert rest[i] == fired[i + 1];
    }
    forall i, j | 0 <= i < j < |rest| ensures rest[i] != rest[j] {
      assert rest[i] == fired[i + 1] && rest[j] == fired[j + 1];
    }
  }

  lemma LatchedFirst(fired: seq<ActType>)
    requires fired != []
    ensures Latched(fired) == {fired[0]} + Latched(fired[1..])
  {
    assert fired == [fired[0]] + fired[1..];
  }

  /** What one timeupdate fires is distinct, had open latches, and consists of video acts. */
  lemma ProgressFiresFresh(tracked: set<ActType>, currentTime: real, duration: real)
    requires duration > 0.0
    ensures var fired := Progress(tracked, currentTime, duration);
            && (forall i :: 0 <= i < |fired| ==> fired[i] !in tracked)
            && (forall i, j :: 0 <= i < j < |fired| ==> fired[i] != fired[j])
            && Latched(fired) <= VideoActs
  {
    var fired := Progress(tracked, currentTime, duration);
    forall i, j | 0 <= i < j < |fired| ensures fired[i] != fired[j] {
      assert Rank(fired[i]) < Rank(fired[j]);
    }
    forall i | 0 <= i < |fired| ensures fired[i] !in tracked {
      assert fired[i] in fired;
    }
    forall a | a in Latched(fired) ensures a in VideoActs {
      assert Reached(a, currentTime, duration);
    }
  }

  /** Each element's start event was emitted once if the element is marked played, and never otherwise. */
  ghost predicate StartedOnce(started: seq<nat>, played: set<nat>) {
    forall e :: multiset(started)[e] == if e in played then 1 else 0
  }

  /** Every video registration's sends are exact for its latches, and only video acts are latched. */
  ghost predicate VideosSentOnce(videos: seq<Video>, sent: seq<seq<ActType>>) {
    && |sent| == |videos|
    && forall v :: 0 <= v < |videos| ==> SentOncePerLatch(sent[v], videos[v].tracked) && videos[v].tracked <= VideoActs
  }

  lemma VideosSentOnceUpdate(videos: seq<Video>, sent: seq<seq<ActType>>, v: nat, r: Video, s: seq<ActType>)
    requires VideosSentOnce(videos, sent) && v < |videos|
    requires SentOncePerLatch(s, r.tracked) && r.tracked <= VideoActs
    ensures VideosSentOnce(videos[v := r], sent[v := s])
  {
  }

  /** One registration sending distinct acts whose latches were open, and setting them, keeps every registration exact. */
  lemma LatchStep(videos: seq<Video>, sent: seq<seq<ActType>>, v: nat, fired: seq<ActType>)
    requires VideosSentOnce(videos, sent) && v < |videos|
    requires forall i :: 0 <= i < |fired| ==> fired[i] !in videos[v].tracked
    requires forall i, j :: 0 <= i < j < |fired| ==> fired[i] != fired[j]
    requires Latched(fired) <= VideoActs
    ensures VideosSentOnce(videos[v := videos[v].(tracked := videos[v].tracked + Latched(fired))], sent[v := sent[v] + fired])
  {
    FiringKeepsSentOnce(sent[v], videos[v].tracked, fired);
    VideosSentOnceUpdate(videos, sent, v, videos[v].(tracked := videos[v].tracked + Latched(fired)), sent[v] + fired);
  }

  lemma VideosSentOnceAppend(videos: seq<Video>, sent: seq<seq<ActType>>, r: Video, s: seq<ActType>)
    requires VideosSentOnce(videos, sent)
    requires SentOncePerLatch(s, r.tracked) && r.tracked <= VideoActs
    ensures VideosSentOnce(videos + [r], sent + [s])
  {
  }

  /** An impression registration is tracked exactly when it has sent VIMP. */
  ghost predicate ImpressionsCounted(impressions: seq<Impression>, sent: seq<nat>) {
    && |sent| == |impressions|
    && forall i :: 0 <= i < |impressions| ==> (impressions[i].tracked <==> sent[i] > 0)
  }

  predicate OwnedAmong(o: Owner, videoCount: nat, impressionCount: nat) {
    match o
    case OfVideo(v) => v < videoCount
    case OfImpression(i) => i < impressionCount
  }

  ghost predicate TimersOwned(timers: seq<Timer>, videoCount: nat, impressionCount: nat) {
    forall t :: 0 <= t < |timers| ==> OwnedAmong(timers[t].owner, videoCount, impressionCount)
  }

  ghost predicate KeysRegistered(state: map<string, nat>, videoCount: nat) {
    forall k :: k in state ==> state[k] < videoCount
  }

  /** A video registration: its element, ask and creative, its latches and whether its outer observer is connected. */
  datatype Video = Video(element: nat, ask: Value, creative: Value, tracked: set<ActType>, observing: bool)

  /** An impression registration: the closure's `tracked` flag and whether its observer is connected. */
  datatype Impression = Impression(element: nat, ask: Value, creative: Value, tracked: bool, observing: bool)

  /** The registration a dwell timer belongs to. */
  datatype Owner = OfVideo(video: nat) | OfImpression(impression: nat)

  /** A dwell timer with its cleanup observer: pending until it fires or a leave clears it. */
  datatype Timer = Timer(owner: Owner, pending: bool)

  /** What the cleanup function a setup returns does when it is run. */
  datatype Cleanup = NoOp | ForVideo(key: string) | ForImpression(impression: nat)

  /** A leave clears the timer of every cleanup observer of that registration. */
  function Cancel(t: Timer, o: Owner): Timer {
    if t.owner == o then t.(pending := false) else t
  }

  /** trackEvent's delivery: the response's `ok`, or a request that threw. */
  datatype Delivery = Delivered(ok: bool) | Threw

  /**
   * trackEvent's result: true exactly when a response came back ok; a
   * request that threw is reported as a TRACKING error, and nothing else is.
   */
  function TrackEvent(delivery: Delivery): (r: (bool, seq<Effect>))
    ensures r.0 <==> delivery == Delivered(true)
    ensures r.1 != [] <==> delivery.Threw?
    ensures forall e :: e in r.1 ==> e == Report(TrackingError)
  {
    match delivery
    case Delivered(ok) => (ok, [])
    case Threw => (false, [Report(TrackingError)])
  }

  /** isRewardAd: every impression type is reward-eligible except 36 and 37. */
  function IsRewardAd(impType: Value): (r: bool)
    ensures !r <==> impType == Num(36) || impType == Num(37)
  {
    Configs.IsRewardAdType(impType)
  }

  class Tracker {
    /** Whether the browser offers IntersectionObserver. */
    const observerSupported: bool
    /** Tracking key to video registration, as `videoTrackingState` holds it. */
    var videoTrackingState: map<string, nat>
    /** Every video registration, also those whose key was deleted: their listeners stay attached. */
    var videos: seq<Video>
    var impressions: seq<Impression>
    var timers: seq<Timer>
    /** The elements whose `dataset.played` is set. */
    var played: set<nat>
    var log: seq<Effect>
    /** The acts sent for each video registration, in order. */
    ghost var videoSent: seq<seq<ActType>>
    /** How many VIMP requests each impression registration sent. */
    ghost var impressionSent: seq<nat>
    /** The elements AD_VIDEO_STARTED was emitted for, in order. */
    ghost var started: seq<nat>

    predicate Owns(o: Owner)
      reads this
    {
      OwnedAmong(o, |videos|, |impressions|)
    }

    /**
     * Each video act was sent exactly once per registration if latched and
     * never otherwise; an impression is tracked exactly when it sent VIMP; each
     * element started at most once; keys and timers refer to registrations.
     */
    ghost predicate Valid()
      reads this
    {
      && VideosSentOnce(videos, videoSent)
      && ImpressionsCounted(impressions, impressionSent)
      && StartedOnce(started, played)
      && KeysRegistered(videoTrackingState, |videos|)
      && TimersOwned(timers, |videos|, |impressions|)
    }

    constructor(observerSupported: bool)
      ensures Valid()
      ensures this.observerSupported == observerSupported
      ensures videoTrackingState == map[] && videos == [] && impressions == []
      ensures timers == [] && played == {} && log == []
    {
      this.observerSupported := observerSupported;
      videoTrackingState := map[];
      videos := [];
      impressions := [];
      timers := [];
      played := {};
      log := [];
      videoSent := [];
      impressionSent := [];
      started := [];
    }

    /**
     * setupVideoTracking under tracking key `key`: without an element, a
     * creative or an ask, nothing is registered and no cleanup is returned.
     * Otherwise one registration with all six latches open is stored under
     * the key; without IntersectionObserver it sends VIMP at once.
     */
    method SetupVideoTracking(element: Option<nat>, creative: Value, key: string) returns (cleanup: Option<Cleanup>)
      requires Valid()
      modifies this
      ensures Valid()
      ensures impressionSent == old(impressionSent) && started == old(started)
      ensures !Trackable(element, creative) ==> videoSent == old(videoSent)
      ensures Trackable(element, creative) ==> videoSent == old(videoSent) + [if observerSupported then [] else [Vimp]]
      ensures !Trackable(element, creative) ==>
                cleanup.None? && videos == old(videos) && videoTrackingState == old(videoTrackingState)
                && log == old(log)
      ensures Trackable(element, creative) ==>
                && cleanup == Some(ForVideo(key))
                && videoTrackingState == old(videoTrackingState)[key := |old(videos)|]
                && videos == old(videos) + [Video(element.value, AskOf(creative), creative,
                                                  if observerSupported then {} else {Vimp}, observerSupported)]
                && log == old(log) + (if observerSupported then [] else [Send(AskOf(creative), Vimp)])
      ensures impressions == old(impressions) && timers == old(timers) && played == old(played)
    {
      if !Trackable(element, creative) {
        return None;
      }
      var ask := AskOf(creative);
      var tracked: set<ActType> := {};
      ghost var sent: seq<ActType> := [];
      if !observerSupported {
        // the fallback sends VIMP as soon as the registration exists
        FiringKeepsSentOnce([], {}, [Vimp]);
        assert Latched([Vimp]) == {Vimp};
        log := log + [Send(ask, Vimp)];
        tracked := {Vimp};
        sent := [Vimp];
      }
      var r := Video(element.value, ask, creative, tracked, observerSupported);
      VideosSentOnceAppend(videos, videoSent, r, sent);
      videoTrackingState := videoTrackingState[key := |videos|];
      videos := videos + [r];
      videoSent := videoSent + [sent];
      return Some(ForVideo(key));
    }

    /** _cleanupVideoTracking: for a known key, disconnects the outer observer and deletes the key; otherwise nothing. */
    method CleanupVideoTracking(key: string)
      requires Valid()
      modifies this
      ensures Valid()
      ensures impressionSent == old(impressionSent) && started == old(started)
      ensures videoSent == old(videoSent)
      ensures key !in old(videoTrackingState) ==> videos == old(videos) && videoTrackingState == old(videoTrackingState)
      ensures key in old(videoTrackingState) ==>
                && videoTrackingState == old(videoTrackingState) - {key}
                && var v := old(videoTrackingState)[key];
                   videos == old(videos)[v := old(videos)[v].(observing := false)]
      ensures impressions == old(impressions) && timers == old(timers)
      ensures played == old(played) && log == old(log)
    {
      if key !in videoTrackingState {
        return;
      }
      var v := videoTrackingState[key];
      videos := videos[v := videos[v].(observing := false)];
      videoTrackingState := videoTrackingState - {key};
    }

    /**
     * setupImpressionTracking: without an element, a creative or an ask, a
     * no-op cleanup. Otherwise a registration with `tracked` false; without
     * IntersectionObserver it sends VIMP and emits AD_IMPRESSION at once.
     */
    method SetupImpressionTracking(element: Option<nat>, creative: Value) returns (cleanup: Cleanup)
      requires Valid()
      modifies this
      ensures Valid()
      ensures started == old(started)
      ensures impressionSent == old(impressionSent)
                + (if Trackable(element, creative) then [if observerSupported then 0 else 1] else [])
      ensures videoSent == old(videoSent)
      ensures !Trackable(element, creative) ==>
                cleanup == NoOp && impressions == old(impressions) && log == old(log)
      ensures Trackable(element, creative) ==>
                && cleanup == ForImpression(|old(impressions)|)
                && impressions == old(impressions) + [Impression(element.value, AskOf(creative), creative,
                                                                 !observerSupported, observerSupported)]
                && log == old(log) + (if observerSupported then []
                                      else [Send(AskOf(creative), Vimp), Emit(AdImpression, creative)])
      ensures videos == old(videos) && videoTrackingState == old(videoTrackingState)
      ensures timers == old(timers) && played == old(played)
    {
      if !Trackable(element, creative) {
        return NoOp;
      }
      var ask := AskOf(creative);
      var i := |impressions|;
      if observerSupported {
        impressions := impressions + [Impression(element.value, ask, creative, false, true)];
        impressionSent := impressionSent + [0];
      } else {
        impressions := impressions + [Impression(element.value, ask, creative, true, false)];
        impressionSent := impressionSent + [1];
        log := log + [Send(ask, Vimp), Emit(AdImpression, creative)];
      }
      return ForImpression(i);
    }

    /** Runs a cleanup a setup returned: video cleanup, or disconnecting an impression's observer. */
    method RunCleanup(cleanup: Cleanup)
      requires Valid()
      requires cleanup.ForImpression? ==> cleanup.impression < |impressions|
      modifies this
      ensures Valid()
      ensures impressionSent == old(impressionSent) && started == old(started)
      ensures videoSent == old(videoSent)
      ensures cleanup.ForImpression? ==>
                impressions == old(impressions)[cleanup.impression := old(impressions)[cleanup.impression].(observing := false)]
      ensures !cleanup.ForImpression? ==> impressions == old(impressions)
      ensures !(cleanup.ForVideo? && cleanup.key in old(videoTrackingState)) ==>
                videos == old(videos) && videoTrackingState == old(videoTrackingState)
      ensures cleanup.ForVideo? && cleanup.key in old(videoTrackingState) ==>
                && videoTrackingState == old(videoTrackingState) - {cleanup.key}
                && var v := old(videoTrackingState)[cleanup.key];
                   videos == old(videos)[v := old(videos)[v].(observing := false)]
      ensures timers == old(timers) && played == old(played) && log == old(log)
    {
      match cleanup
      case NoOp =>
      case ForVideo(key) => CleanupVideoTracking(key);
      case ForImpression(i) =>
        impressions := impressions[i := impressions[i].(observing := false)];
    }

    /**
     * The element is seen at least half visible by the registration's outer
     * observer. A connected video observer starts a dwell timer and tries to
     * autoplay an element not yet played; a connected impression observer
     * starts one only while `tracked` is false.
     */
    method Enter(o: Owner)
      requires Valid() && Owns(o)
      modifies this
      ensures Valid()
      ensures impressionSent == old(impressionSent) && started == old(started)
      ensures videoSent == old(videoSent)
      ensures o.OfVideo? ==>
                var v := old(videos)[o.video];
                && timers == old(timers) + (if v.observing then [Timer(o, true)] else [])
                && log == old(log) + (if v.observing && v.element !in played then [AutoPlay] else [])
      ensures o.OfImpression? ==>
                var m := old(impressions)[o.impression];
                && timers == old(timers) + (if m.observing && !m.tracked then [Timer(o, true)] else [])
                && log == old(log)
      ensures videos == old(videos) && impressions == old(impressions)
      ensures videoTrackingState == old(videoTrackingState) && played == old(played)
    {
      match o
      case OfVideo(v) =>
        if videos[v].observing {
          timers := timers + [Timer(o, true)];
          if videos[v].element !in played {
            log := log + [AutoPlay];
          }
        }
      case OfImpression(i) =>
        if impressions[i].observing && !impressions[i].tracked {
          timers := timers + [Timer(o, true)];
        }
    }

    /** The element drops below half visible: every timer of the registration still pending is cleared. */
    method Leave(o: Owner)
      requires Valid() && Owns(o)
      modifies this
      ensures Valid()
      ensures impressionSent == old(impressionSent) && started == old(started)
      ensures videoSent == old(videoSent)
      ensures |timers| == |old(timers)|
      ensures forall t :: 0 <= t < |timers| ==> timers[t] == Cancel(old(timers)[t], o)
      ensures videos == old(videos) && impressions == old(impressions)
      ensures videoTrackingState == old(videoTrackingState) && played == old(played) && log == old(log)
    {
      var k := 0;
      while k < |timers|
        invariant 0 <= k <= |timers| == |old(timers)|
        invariant forall t :: 0 <= t < k ==> timers[t] == Cancel(old(timers)[t], o)
        invariant forall t :: k <= t < |timers| ==> timers[t] == old(timers)[t]
        invariant videos == old(videos) && impressions == old(impressions)
        invariant videoTrackingState == old(videoTrackingState) && played == old(played) && log == old(log)
        invariant videoSent == old(videoSent)
        invariant impressionSent == old(impressionSent) && started == old(started)
        invariant Valid()
      {
        timers := timers[k := Cancel(timers[k], o)];
        k := k + 1;
      }
    }

    /**
     * Dwell timer `t` fires. A cleared or spent timer does nothing. A video
     * timer sends VIMP only if the latch is still open, then sets it. An
     * impression timer sends VIMP whatever `tracked` is, sets it, emits
     * AD_IMPRESSION and disconnects the outer observer.
     */
    method Elapse(t: nat)
      requires Valid() && t < |timers|
      modifies this
      ensures Valid()
      ensures started == old(started)
      ensures !(old(timers)[t].pending && old(timers)[t].owner.OfImpression?) ==> impressionSent == old(impressionSent)
      ensures old(timers)[t].pending && old(timers)[t].owner.OfImpression? ==>
                var i := old(timers)[t].owner.impression;
                impressionSent == old(impressionSent)[i := old(impressionSent)[i] + 1]
      ensures !(old(timers)[t].pending && old(timers)[t].owner.OfVideo?) ==> videoSent == old(videoSent)
      ensures old(timers)[t].pending && old(timers)[t].owner.OfVideo? ==>
                var v := old(timers)[t].owner.video;
                videoSent == old(videoSent)[v := old(videoSent)[v] + (if Vimp in old(videos)[v].tracked then [] else [Vimp])]
      ensures !old(timers)[t].pending ==>
                timers == old(timers) && videos == old(videos) && impressions == old(impressions) && log == old(log)
      ensures old(timers)[t].pending ==> timers == old(timers)[t := old(timers)[t].(pending := false)]
      ensures old(timers)[t].pending && old(timers)[t].owner.OfVideo? ==>
                var v := old(timers)[t].owner.video;
                var r := old(videos)[v];
                && videos == old(videos)[v := r.(tracked := r.tracked + {Vimp})]
                && log == old(log) + (if Vimp in r.tracked then [] else [Send(r.ask, Vimp)])
                && impressions == old(impressions)
      ensures old(timers)[t].pending && old(timers)[t].owner.OfImpression? ==>
                var i := old(timers)[t].owner.impression;
                var m := old(impressions)[i];
                && impressions == old(impressions)[i := m.(tracked := true, observing := false)]
                && log == old(log) + [Send(m.ask, Vimp), Emit(AdImpression, m.creative)]
                && videos == old(videos)
      ensures videoTrackingState == old(videoTrackingState) && played == old(played)
    {
      if !timers[t].pending {
        return;
      }
      timers := timers[t := timers[t].(pending := false)];
      match timers[t].owner
      case OfVideo(v) => FireVideo(v);
      case OfImpression(i) => FireImpression(i);
    }

    /** A video dwell timer fires: VIMP is sent only if its latch is still open, then the latch is set. */
    method FireVideo(v: nat)
      requires Valid() && v < |videos|
      modifies this
      ensures Valid()
      ensures impressionSent == old(impressionSent) && started == old(started)
      ensures var r := old(videos)[v];
              videoSent == old(videoSent)[v := old(videoSent)[v] + (if Vimp in r.tracked then [] else [Vimp])]
      ensures var r := old(videos)[v];
              && videos == old(videos)[v := r.(tracked := r.tracked + {Vimp})]
              && log == old(log) + (if Vimp in r.tracked then [] else [Send(r.ask, Vimp)])
      ensures impressions == old(impressions) && timers == old(timers)
      ensures videoTrackingState == old(videoTrackingState) && played == old(played)
    {
      var r := videos[v];
      if Vimp !in r.tracked {
        FiringKeepsSentOnce(videoSent[v], r.tracked, [Vimp]);
        assert Latched([Vimp]) == {Vimp};
        VideosSentOnceUpdate(videos, videoSent, v, r.(tracked := r.tracked + {Vimp}), videoSent[v] + [Vimp]);
        log := log + [Send(r.ask, Vimp)];
        videoSent := videoSent[v := videoSent[v] + [Vimp]];
        videos := videos[v := r.(tracked := r.tracked + {Vimp})];
      } else {
        assert r.tracked + {Vimp} == r.tracked;
        assert videoSent[v] + [] == videoSent[v];
      }
    }

    /**
     * An impression dwell timer fires: VIMP is sent whatever `tracked` is,
     * the flag is set, AD_IMPRESSION is emitted and the outer observer disconnected.
     */
    method FireImpression(i: nat)
      requires Valid() && i < |impressions|
      modifies this
      ensures Valid()
      ensures started == old(started)
      ensures impressionSent == old(impressionSent)[i := old(impressionSent)[i] + 1]
      ensures videoSent == old(videoSent)
      ensures var m := old(impressions)[i];
              && impressions == old(impressions)[i := m.(tracked := true, observing := false)]
              && log == old(log) + [Send(m.ask, Vimp), Emit(AdImpression, m.creative)]
      ensures videos == old(videos) && timers == old(timers)
      ensures videoTrackingState == old(videoTrackingState) && played == old(played)
    {
      var m := impressions[i];
      log := log + [Send(m.ask, Vimp), Emit(AdImpression, m.creative)];
      impressionSent := impressionSent[i := impressionSent[i] + 1];
      impressions := impressions[i := m.(tracked := true, observing := false)];
    }

    /**
     * A timeupdate at `currentTime` of `duration`: with a non-positive
     * duration nothing happens; otherwise the milestones `Progress` picks
     * are sent in order and latched.
     */
    method TimeUpdate(v: nat, currentTime: real, duration: real)
      requires Valid() && v < |videos|
      modifies this
      ensures Valid()
      ensures impressionSent == old(impressionSent) && started == old(started)
      ensures duration <= 0.0 ==> videoSent == old(videoSent)
      ensures duration > 0.0 ==>
                videoSent == old(videoSent)[v := old(videoSent)[v] + Progress(old(videos)[v].tracked, currentTime, duration)]
      ensures duration <= 0.0 ==> videos == old(videos) && log == old(log)
      ensures duration > 0.0 ==>
                var r := old(videos)[v];
                var fired := Progress(r.tracked, currentTime, duration);
                && videos == old(videos)[v := r.(tracked := r.tracked + Latched(fired))]
                && log == old(log) + SendsOf(r.ask, fired)
      ensures impressions == old(impressions) && timers == old(timers)
      ensures videoTrackingState == old(videoTrackingState) && played == old(played)
    {
      if duration <= 0.0 {
        return;
      }
      var r := videos[v];
      var fired := Progress(r.tracked, currentTime, duration);
      ProgressFiresFresh(r.tracked, currentTime, duration);
      LatchStep(videos, videoSent, v, fired);
      log := log + SendsOf(r.ask, fired);
      videoSent := videoSent[v := videoSent[v] + fired];
      videos := videos[v := r.(tracked := r.tracked + Latched(fired))];
    }

    /** The video ended: V_COMPLETE is sent, latched and AD_VIDEO_COMPLETED emitted, exactly when its latch was open. */
    method Ended(v: nat)
      requires Valid() && v < |videos|
      modifies this
      ensures Valid()
      ensures impressionSent == old(impressionSent) && started == old(started)
      ensures var r := old(videos)[v];
              videoSent == old(videoSent)[v := old(videoSent)[v] + (if VComplete in r.tracked then [] else [VComplete])]
      ensures var r := old(videos)[v];
              && videos == old(videos)[v := r.(tracked := r.tracked + {VComplete})]
              && log == old(log) + (if VComplete in r.tracked then []
                                    else [Send(r.ask, VComplete), Emit(AdVideoCompleted, r.creative)])
      ensures impressions == old(impressions) && timers == old(timers)
      ensures videoTrackingState == old(videoTrackingState) && played == old(played)
    {
      var r := videos[v];
      if VComplete !in r.tracked {
        FiringKeepsSentOnce(videoSent[v], r.tracked, [VComplete]);
        assert Latched([VComplete]) == {VComplete};
        VideosSentOnceUpdate(videos, videoSent, v, r.(tracked := r.tracked + {VComplete}), videoSent[v] + [VComplete]);
        log := log + [Send(r.ask, VComplete), Emit(AdVideoCompleted, r.creative)];
        videoSent := videoSent[v := videoSent[v] + [VComplete]];
        videos := videos[v := r.(tracked := r.tracked + {VComplete})];
      } else {
        assert r.tracked + {VComplete} == r.tracked;
        assert videoSent[v] + [] == videoSent[v];
      }
    }

    /** The video plays: the first play of its element marks it played and emits AD_VIDEO_STARTED. */
    method Play(v: nat)
      requires Valid() && v < |videos|
      modifies this
      ensures Valid()
      ensures impressionSent == old(impressionSent)
      ensures var e := old(videos)[v].element; started == old(started) + (if e in old(played) then [] else [e])
      ensures videoSent == old(videoSent)
      ensures var r := old(videos)[v];
              && played == old(played) + {r.element}
              && log == old(log) + (if r.element in old(played) then [] else [Emit(AdVideoStarted, r.creative)])
      ensures videos == old(videos) && impressions == old(impressions) && timers == old(timers)
      ensures videoTrackingState == old(videoTrackingState)
    {
      var e := videos[v].element;
      if e !in played {
        log := log + [Emit(AdVideoStarted, videos[v].creative)];
        started := started + [e];
        played := played + {e};
      } else {
        assert played + {e} == played;
      }
    }

    /** trackClick: with an ask, sends CLICK and emits AD_CLICKED on every call; otherwise nothing. */
    method TrackClick(creative: Value)
      requires Valid()
      modifies this
      ensures Valid()
      ensures impressionSent == old(impressionSent) && started == old(started)
      ensures videoSent == old(videoSent)
      ensures log == old(log) + (if Truthy(creative) && Truthy(AskOf(creative))
                                 then [Send(AskOf(creative), Click), Emit(AdClicked, creative)] else [])
      ensures videos == old(videos) && impressions == old(impressions) && timers == old(timers)
      ensures videoTrackingState == old(videoTrackingState) && played == old(played)
    {
      if Truthy(creative) && Truthy(AskOf(creative)) {
        log := log + [Send(AskOf(creative), Click), Emit(AdClicked, creative)];
      }
    }
  }

  /** A creative whose `apply.ask` is the given value. */
  function WithAsk(ask: Value): (creative: Value)
    ensures Truthy(ask) ==> Trackable(Some(0), creative) && AskOf(creative) == ask
  {
    Obj(map["apply" := Obj(map["ask" := ask])])
  }

  /**
   * The impression timer checks `tracked` only when it starts: two entries
   * before either timer fires start two timers, and both send VIMP. The two
   * entries come with no exit between them, which a single
   * IntersectionObserver reports only if it fires for the same element twice
   * without a crossing back; the browser may never deliver that sequence.
   */
  method ImpressionCanBeSentTwice(ask: Value, element: nat) returns (sends: nat)
    requires Truthy(ask)
    ensures sends == 2
  {
    var tracker := new Tracker(true);
    var creative := WithAsk(ask);
    var cleanup := tracker.SetupImpressionTracking(Some(element), creative);
    tracker.Enter(OfImpression(0));
    tracker.Enter(OfImpression(0));
    assert tracker.timers == [Timer(OfImpression(0), true), Timer(OfImpression(0), true)];
    tracker.Elapse(0);
    tracker.Elapse(1);
    var sent := [Send(ask, Vimp), Emit(AdImpression, creative)];
    assert tracker.log == sent + sent;
    CountAppend(sent, sent, Send(ask, Vimp));
    sends := Count(tracker.log, Send(ask, Vimp));
  }

  /** The video timer re-checks its latch: the same two entries send VIMP once. */
  method VideoImpressionSentOnce(ask: Value, element: nat, key: string) returns (sends: nat)
    requires Truthy(ask)
    ensures sends == 1
  {
    var tracker := new Tracker(true);
    var creative := WithAsk(ask);
    var cleanup := tracker.SetupVideoTracking(Some(element), creative, key);
    tracker.Enter(OfVideo(0));
    tracker.Enter(OfVideo(0));
    assert tracker.log == [AutoPlay, AutoPlay];
    assert tracker.timers == [Timer(OfVideo(0), true), Timer(OfVideo(0), true)];
    tracker.Elapse(0);
    assert Vimp in tracker.videos[0].tracked;
    tracker.Elapse(1);
    assert tracker.log == [AutoPlay, AutoPlay] + [Send(ask, Vimp)];
    CountAppend([AutoPlay, AutoPlay], [Send(ask, Vimp)], Send(ask, Vimp));
    sends := Count(tracker.log, Send(ask, Vimp));
  }

  /** Leaving before the dwell timer fires clears it: nothing is sent. */
  method LeaveCancelsDwell(ask: Value, element: nat) returns (sends: nat)
    requires Truthy(ask)
    ensures sends == 0
  {
    var tracker := new Tracker(true);
    var creative := WithAsk(ask);
    var cleanup := tracker.SetupImpressionTracking(Some(element), creative);
    tracker.Enter(OfImpression(0));
    tracker.Leave(OfImpression(0));
    assert tracker.timers[0] == Cancel(Timer(OfImpression(0), true), OfImpression(0));
    tracker.Elapse(0);
    assert tracker.log == [];
    sends := Count(tracker.log, Send(ask, Vimp));
  }

  /** Cleanup disconnects the observer but does not clear a running dwell timer: VIMP is still sent. */
  method CleanupKeepsRunningTimer(ask: Value, element: nat, key: string) returns (sends: nat, registered: bool)
    requires Truthy(ask)
    ensures sends == 1 && !registered
  {
    var tracker := new Tracker(true);
    var creative := WithAsk(ask);
    var cleanup := tracker.SetupVideoTracking(Some(element), creative, key);
    tracker.Enter(OfVideo(0));
    assert tracker.log == [AutoPlay];
    tracker.RunCleanup(cleanup.value);
    assert tracker.timers == [Timer(OfVideo(0), true)];
    tracker.Elapse(0);
    assert tracker.log == [AutoPlay] + [Send(ask, Vimp)];
    CountAppend([AutoPlay], [Send(ask, Vimp)], Send(ask, Vimp));
    sends := Count(tracker.log, Send(ask, Vimp));
    registered := key in tracker.videoTrackingState;
  }
}
