/** The older audio player hook: the choice of playback path for a station
    URL, the hls.js fatal-error policy, the initializing gate on play/pause,
    and the lifecycle of the hls.js instance bound to the audio element. */
module AudioPlayer {
  import opened Common

  const MediaErrorMessage := "Error al reproducir la emisora."
  const HlsLoadErrorMessage := "Error al cargar el stream HLS."
  const HlsUnsupportedMessage := "Tu navegador no soporta HLS streams."

  /** How a URL is played. */
  datatype SourcePlan =
    | HlsJs        // an hls.js instance loads the manifest into the element
    | NativeHls    // the element plays the manifest itself
    | Progressive  // the element plays the URL as a plain media file
    | Unsupported  // HLS with neither hls.js nor native support

  /** The decision tree: ".m3u8" URLs use hls.js when supported, else the
      element when it can play HLS, else fail; other URLs go to the element. */
  function PlanFor(url: string, hlsSupported: bool, canPlayNative: bool): (p: SourcePlan)
    ensures p == HlsJs <==> Contains(url, ".m3u8") && hlsSupported
    ensures p == NativeHls <==> Contains(url, ".m3u8") && !hlsSupported && canPlayNative
    ensures p == Unsupported <==> Contains(url, ".m3u8") && !hlsSupported && !canPlayNative
    ensures p == Progressive <==> !Contains(url, ".m3u8")
  {
    if Contains(url, ".m3u8") then
      if hlsSupported then HlsJs
      else if canPlayNative then NativeHls
      else Unsupported
    else Progressive
  }

  /** The hls.js error classes the handler distinguishes. */
  datatype HlsErrorType = NetworkError | MediaError | OtherError

  /** What the session does about an hls.js error. */
  datatype ErrorAction = RestartLoad | RecoverMedia | DestroyAndFail | IgnoreError

  function ErrorActionFor(fatal: bool, kind: HlsErrorType): (a: ErrorAction)
    ensures !fatal <==> a == IgnoreError
    ensures a == RestartLoad <==> fatal && kind == NetworkError
    ensures a == RecoverMedia <==> fatal && kind == MediaError
    ensures a == DestroyAndFail <==> fatal && kind == OtherError
  {
    if !fatal then IgnoreError
    else match kind
      case NetworkError => RestartLoad
      case MediaError => RecoverMedia
      case OtherError => DestroyAndFail
  }

  /** The play/pause effect acts only with an element and outside
      initialization. */
  predicate PlayGateOpen(mounted: bool, initializing: bool)
  {
    mounted && !initializing
  }

  /** An hls.js instance attached to the element. */
  class HlsInstance {
    const url: string
    const autoPlay: bool     // the `isPlaying` its manifest handler captured
    var loadRestarts: nat
    var mediaRecoveries: nat
    var destroyed: bool

    constructor (url: string, autoPlay: bool)
      ensures this.url == url && this.autoPlay == autoPlay
      ensures loadRestarts == 0 && mediaRecoveries == 0 && !destroyed
    {
      this.url := url;
      this.autoPlay := autoPlay;
      loadRestarts := 0;
      mediaRecoveries := 0;
      destroyed := false;
    }

    method Destroy()
      modifies this
      ensures destroyed
      ensures loadRestarts == old(loadRestarts) && mediaRecoveries == old(mediaRecoveries)
    {
      destroyed := true;
    }
  }

  /** The hook's state: the error slot, the initializing flag, the hls.js
      handle and what the audio element shows (its source, paused flag, the
      loads and play requests it received, its listeners). `loadedWaiters`
      holds the `isPlaying` captured by each one-shot `loadeddata` listener
      still registered. */
  class AudioSession {
    var error: Option<string>
    var initializing: bool
    var hls: HlsInstance?
    var src: string
    var paused: bool
    var loads: nat
    var playRequests: nat
    var listening: bool
    var loadedWaiters: seq<bool>
    ghost var instances: set<HlsInstance>

    /** Every hls.js instance ever created, except the one the handle holds,
        has been destroyed: at most one instance is live. */
    ghost predicate Valid()
      reads this, instances
    {
      && (hls != null ==> hls in instances)
      && forall h :: h in instances && h != hls ==> h.destroyed
    }

    constructor ()
      ensures Valid()
      ensures error == None && !initializing && hls == null && loadedWaiters == [] && !listening
      ensures playRequests == 0 && loads == 0 && paused && src == ""
    {
      error := None;
      initializing := false;
      hls := null;
      src := "";
      paused := true;
      loads := 0;
      playRequests := 0;
      listening := false;
      loadedWaiters := [];
      instances := {};
    }

    /** Destroys the instance the handle holds, if any, and drops the handle. */
    method DropHls()
      requires Valid()
      modifies this, hls
      ensures Valid() && hls == null
      ensures old(hls) != null ==> old(hls).destroyed
      ensures instances == old(instances)
      ensures error == old(error) && initializing == old(initializing) && src == old(src)
      ensures paused == old(paused) && loads == old(loads) && playRequests == old(playRequests)
      ensures listening == old(listening) && loadedWaiters == old(loadedWaiters)
    {
      if hls != null {
        hls.Destroy();
        hls := null;
      }
    }

    /** The station effect (element mounted): clears the error, enters
        initialization, attaches the element listeners, pauses, destroys the
        previous instance, then follows `PlanFor`. */
    method OnStation(station: Station, isPlaying: bool, hlsSupported: bool, canPlayNative: bool)
      requires Valid()
      modifies this, hls
      ensures Valid()
      ensures listening && paused
      ensures old(hls) != null ==> old(hls).destroyed
      ensures var plan := PlanFor(station.url, hlsSupported, canPlayNative);
        && (plan == HlsJs ==>
              && hls != null && fresh(hls) && hls.url == station.url && hls.autoPlay == isPlaying
              && error == None && initializing
              && src == old(src) && loads == old(loads) && loadedWaiters == old(loadedWaiters))
        && ((plan == NativeHls || plan == Progressive) ==>
              && hls == null && error == None && initializing
              && src == station.url && loads == old(loads) + 1
              && loadedWaiters == old(loadedWaiters) + [isPlaying])
        && (plan == Unsupported ==>
              && hls == null && error == Some(HlsUnsupportedMessage) && !initializing
              && src == old(src) && loads == old(loads) && loadedWaiters == old(loadedWaiters))
      ensures playRequests == old(playRequests)
    {
      error := None;
      initializing := true;
      listening := true;
      paused := true;
      DropHls();
      var plan := PlanFor(station.url, hlsSupported, canPlayNative);
      match plan
      case HlsJs =>
        var h := new HlsInstance(station.url, isPlaying);
        hls := h;
        instances := instances + {h};
      case NativeHls =>
        src := station.url;
        loads := loads + 1;
        loadedWaiters := loadedWaiters + [isPlaying];
      case Progressive =>
        src := station.url;
        loads := loads + 1;
        loadedWaiters := loadedWaiters + [isPlaying];
      case Unsupported =>
        error := Some(HlsUnsupportedMessage);
        initializing := false;
    }

    /** The effect's cleanup: pauses, empties the source, detaches the
        element listeners and destroys the instance. One-shot `loadeddata`
        listeners are not removed. */
    method Cleanup()
      requires Valid()
      modifies this, hls
      ensures Valid() && hls == null && paused && src == "" && !listening
      ensures old(hls) != null ==> old(hls).destroyed
      ensures error == old(error) && initializing == old(initializing)
      ensures loadedWaiters == old(loadedWaiters) && loads == old(loads) && playRequests == old(playRequests)
    {
      paused := true;
      src := "";
      listening := false;
      DropHls();
    }

    /** MANIFEST_PARSED on the live instance: initialization ends and, if
        playback was wanted when the instance was created, play is requested. */
    method OnManifestParsed()
      requires Valid()
      modifies this
      ensures Valid()
      ensures var live := old(hls != null && !hls.destroyed);
        && (live ==> !initializing && playRequests == old(playRequests) + (if old(hls).autoPlay then 1 else 0))
        && (!live ==> initializing == old(initializing) && playRequests == old(playRequests))
      ensures hls == old(hls) && error == old(error) && src == old(src) && loadedWaiters == old(loadedWaiters)
      ensures paused == old(paused) && loads == old(loads) && listening == old(listening)
    {
      if hls != null && !hls.destroyed {
        initializing := false;
        if hls.autoPlay {
          playRequests := playRequests + 1;
        }
      }
    }

    /** `loadeddata` on the element: every one-shot listener still registered
        runs once, in registration order, ending initialization and
        requesting play for each that captured `isPlaying`. */
    method OnLoadedData()
      requires Valid()
      modifies this
      ensures Valid() && loadedWaiters == []
      ensures playRequests == old(playRequests) + CountTrue(old(loadedWaiters))
      ensures initializing == (old(initializing) && old(loadedWaiters) == [])
      ensures hls == old(hls) && error == old(error) && src == old(src)
      ensures paused == old(paused) && loads == old(loads) && listening == old(listening)
    {
      var i := 0;
      while i < |loadedWaiters|
        invariant 0 <= i <= |loadedWaiters|
        invariant playRequests == old(playRequests) + CountTrue(loadedWaiters[..i])
        invariant initializing == (old(initializing) && i == 0)
        invariant hls == old(hls) && error == old(error) && src == old(src) && instances == old(instances)
        invariant loadedWaiters == old(loadedWaiters)
        invariant paused == old(paused) && loads == old(loads) && listening == old(listening)
      {
        assert loadedWaiters[..i + 1] == loadedWaiters[..i] + [loadedWaiters[i]];
        CountTrueAppend(loadedWaiters[..i], loadedWaiters[i]);
        initializing := false;
        if loadedWaiters[i] {
          playRequests := playRequests + 1;
        }
        i := i + 1;
      }
      assert loadedWaiters[..i] == loadedWaiters;
      loadedWaiters := [];
    }

    /** An hls.js ERROR event on the live instance, handled per `ErrorActionFor`. */
    method OnHlsError(fatal: bool, kind: HlsErrorType)
      requires Valid()
      modifies this, hls
      ensures Valid() && hls == old(hls)
      ensures var live := old(hls != null && !hls.destroyed);
        && (live ==> match ErrorActionFor(fatal, kind)
              case RestartLoad =>
                hls.loadRestarts == old(hls.loadRestarts) + 1 && !hls.destroyed
                && error == old(error) && initializing == old(initializing)
              case RecoverMedia =>
                hls.mediaRecoveries == old(hls.mediaRecoveries) + 1 && !hls.destroyed
                && error == old(error) && initializing == old(initializing)
              case DestroyAndFail =>
                hls.destroyed && error == Some(HlsLoadErrorMessage) && !initializing
              case IgnoreError =>
                !hls.destroyed && error == old(error) && initializing == old(initializing))
      ensures old(hls == null || hls.destroyed) ==> error == old(error) && initializing == old(initializing)
      ensures src == old(src) && playRequests == old(playRequests) && loadedWaiters == old(loadedWaiters)
      ensures paused == old(paused) && loads == old(loads) && listening == old(listening)
    {
      if hls != null && !hls.destroyed {
        match ErrorActionFor(fatal, kind)
        case RestartLoad =>
          hls.loadRestarts := hls.loadRestarts + 1;
        case RecoverMedia =>
          hls.mediaRecoveries := hls.mediaRecoveries + 1;
        case DestroyAndFail =>
          hls.Destroy();
          initializing := false;
          error := Some(HlsLoadErrorMessage);
        case IgnoreError =>
      }
    }

    /** The element's `error` event: sets the media error and reports
        not-playing (the returned value is what `onPlayStateChange` gets). */
    method OnMediaError() returns (reported: Option<bool>)
      requires Valid()
      modifies this
      ensures Valid()
      ensures listening ==> error == Some(MediaErrorMessage) && reported == Some(false)
      ensures !listening ==> error == old(error) && reported == None
      ensures hls == old(hls) && initializing == old(initializing) && listening == old(listening)
      ensures src == old(src) && paused == old(paused) && loads == old(loads)
      ensures playRequests == old(playRequests) && loadedWaiters == old(loadedWaiters)
    {
      if listening {
        error := Some(MediaErrorMessage);
        reported := Some(false);
      } else {
        reported := None;
      }
    }

    /** The play/pause effect: ignored without an element or while
        initializing; otherwise requests play or pauses. */
    method SetPlaying(isPlaying: bool, mounted: bool)
      requires Valid()
      modifies this
      ensures Valid()
      ensures PlayGateOpen(mounted, old(initializing)) && isPlaying ==>
        playRequests == old(playRequests) + 1 && paused == old(paused)
      ensures PlayGateOpen(mounted, old(initializing)) && !isPlaying ==>
        playRequests == old(playRequests) && paused
      ensures !PlayGateOpen(mounted, old(initializing)) ==>
        playRequests == old(playRequests) && paused == old(paused)
      ensures hls == old(hls) && error == old(error) && initializing == old(initializing)
      ensures src == old(src) && loads == old(loads) && listening == old(listening)
      ensures loadedWaiters == old(loadedWaiters)
    {
      if !PlayGateOpen(mounted, initializing) {
        return;
      }
      if isPlaying {
        playRequests := playRequests + 1;
      } else {
        paused := true;
      }
    }
  }

  /** How many of the captured flags are true. */
  function CountTrue(s: seq<bool>): (n: nat)
    ensures n <= |s|
    ensures n == 0 <==> forall i :: 0 <= i < |s| ==> !s[i]
  {
    if s == [] then 0 else (if s[0] then 1 else 0) + CountTrue(s[1..])
  }

  lemma {:induction false} CountTrueAppend(s: seq<bool>, b: bool)
    ensures CountTrue(s + [b]) == CountTrue(s) + (if b then 1 else 0)
  {
    if s != [] {
      assert (s + [b])[1..] == s[1..] + [b];
      CountTrueAppend(s[1..], b);
    }
  }

  /** A station change while a previous native or progressive source is
      still loading leaves that source's one-shot listener registered: the
      next `loadeddata` runs both, with their own captured `isPlaying`. */
  method StaleLoadedListenerRuns(a: Station, b: Station)
    returns (plays: nat, waiting: nat)
    requires !Contains(a.url, ".m3u8") && !Contains(b.url, ".m3u8")
    ensures waiting == 0 && plays == 2
  {
    var s := new AudioSession();
    s.OnStation(a, true, false, false);
    s.Cleanup();
    s.OnStation(b, true, false, false);
    assert s.loadedWaiters == [true, true];
    s.OnLoadedData();
    assert CountTrue([true, true]) == 2 by {
      assert [true, true][1..] == [true];
      assert [true][1..] == [];
    }
    plays := s.playRequests;
    waiting := |s.loadedWaiters|;
  }
}
