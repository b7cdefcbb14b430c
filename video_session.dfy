/** The playback session of the video player hook: technology selection from
    the station URL, the engine lifecycle keyed by station id with tracked
    timeouts, the quality state that follows the engine's representations,
    manual level pinning, and play/pause reconciliation. */
module VideoSession {
  import opened Common
  import opened QualityLadder

  datatype PlayerType = Html5 | VideoJs

  /** `currentStation?.url.includes('.m3u8') ?? false`. */
  predicate IsHls(station: Option<Station>)
  {
    station.Some? && Contains(station.value.url, ".m3u8")
  }

  /** The playback technology: video.js for HLS URLs, the HTML5 element
      otherwise (also when there is no station). */
  function PlayerTypeOf(station: Option<Station>): (t: PlayerType)
    ensures t == VideoJs <==> IsHls(station)
    ensures station.None? ==> t == Html5
  {
    if IsHls(station) then VideoJs else Html5
  }

  /** Whether a video surface is shown: exactly the HLS test. */
  function HasVideo(station: Option<Station>): (b: bool)
    ensures b <==> PlayerTypeOf(station) == VideoJs
  {
    IsHls(station)
  }

  // ---------------------------------------------------------------------
  // Quality state and its transitions

  /** The quality state the hook exposes: the stored ladder, the current
      level index (-1 stands for Auto) and whether the engine chooses. */
  datatype QualityState = QualityState(levels: seq<QualityLevel>, current: int, auto: bool)

  const InitialQuality := QualityState([], -1, true)

  /** A JavaScript height test `if (height)`: present and non-zero. */
  predicate KnownHeight(h: Option<int>)
  {
    h.Some? && h.value != 0
  }

  /** `setQualityLevels(prev => ...)`: the previous ladder is kept when it has
      the same length and the same first label as the new one. */
  function StoredLadder(prev: seq<QualityLevel>, all: seq<QualityLevel>): (r: seq<QualityLevel>)
    requires |all| > 0
    ensures r == prev || r == all
    ensures r == prev <== |prev| == |all| && prev[0].text == all[0].text
    ensures r == all <== !(|prev| == |all| && prev[0].text == all[0].text)
  {
    if |prev| == |all| && prev[0].text == all[0].text then prev else all
  }

  /** The level whose height is the active height, when there is one. */
  function MatchActive(levels: seq<QualityLevel>, active: Option<int>): (r: Option<int>)
    ensures r.Some? ==> KnownHeight(active) && exists k :: 0 <= k < |levels| && levels[k].height == active.value && levels[k].index == r.value
    ensures r.None? ==> !KnownHeight(active) || forall k :: 0 <= k < |levels| ==> levels[k].height != active.value
  {
    if KnownHeight(active) && FindHeight(levels, active.value) >= 0 then
      Some(levels[FindHeight(levels, active.value)].index)
    else None
  }

  /** The effect of `updateQualityLevels` on the quality state, for the
      representations the engine reports, its master playlist variants, the
      active playlist's height and the element's intrinsic height. */
  function AfterUpdate(q: QualityState, representations: Option<seq<Rep>>, master: seq<Rep>,
                       active: Option<int>, videoHeight: int): (r: QualityState)
    ensures r.levels == q.levels
         || r.levels == WithAuto(Levels(SourceReps(representations, master), FallbackHeight(active, videoHeight)))
  {
    var levels := Levels(SourceReps(representations, master), FallbackHeight(active, videoHeight));
    if |levels| == 0 then q
    else
      var all := WithAuto(levels);
      var stored := StoredLadder(q.levels, all);
      if |levels| > 1 then
        var m := MatchActive(levels, active);
        QualityState(stored, if m.Some? then m.value else q.current, true)
      else
        QualityState(stored, all[0].index, false)
  }

  /** `findIndex` over the representations for the active height
      (`(p.height || p.attributes?.RESOLUTION?.height) === height`). */
  function FindRepHeight(reps: seq<Rep>, h: int): (r: int)
    requires h != 0
    ensures -1 <= r < |reps|
    ensures r >= 0 ==> EffectiveHeight(reps[r]) == h
    ensures forall k :: 0 <= k < |reps| && (r == -1 || k < r) ==> EffectiveHeight(reps[k]) != h
  {
    if reps == [] then -1
    else if EffectiveHeight(reps[0]) == h then 0
    else
      var k := FindRepHeight(reps[1..], h);
      if k == -1 then -1 else k + 1
  }

  /** `checkCurrentQuality` (and the auto-mode branch of the rendition-change
      handler): the current level follows the representation whose height is
      the active one; nothing changes when there is none. */
  function TrackActive(q: QualityState, reps: seq<Rep>, active: Option<int>): (r: QualityState)
    ensures r.levels == q.levels && r.auto == q.auto
    ensures r.current != q.current ==>
      KnownHeight(active) && 0 <= r.current < |reps| && EffectiveHeight(reps[r.current]) == active.value
    ensures KnownHeight(active) && (exists k :: 0 <= k < |reps| && EffectiveHeight(reps[k]) == active.value) ==>
      && 0 <= r.current < |reps| && EffectiveHeight(reps[r.current]) == active.value
      && forall j :: 0 <= j < r.current ==> EffectiveHeight(reps[j]) != active.value
  {
    if KnownHeight(active) && FindRepHeight(reps, active.value) != -1 then
      q.(current := FindRepHeight(reps, active.value))
    else q
  }

  /** `vhs.representations?.() || vhs.playlists?.master?.playlists || []` as the
      rendition-change handler reads it: an empty array is truthy, so the
      master list is used only when the API is missing. */
  function RenditionReps(representations: Option<seq<Rep>>, master: seq<Rep>): (r: seq<Rep>)
    ensures representations.None? || |representations.value| > 0 ==> r == SourceReps(representations, master)
    ensures representations == Some([]) ==> r == []
  {
    if representations.Some? then representations.value else master
  }

  /** The quality-state effect of `setQualityLevel(k)` once the engine's
      representations are available. Pinning level `k` records it and leaves
      Auto; choosing -1 returns to Auto and moves the current level only
      onto a representation whose height is the active one. The ladder is
      never touched. */
  function AfterSelect(q: QualityState, k: int, reps: seq<Rep>, active: Option<int>): (r: QualityState)
    ensures r.levels == q.levels
    ensures k != -1 ==> r.current == k && !r.auto
    ensures k == -1 ==> r.auto
    ensures k == -1 && r.current != q.current ==>
      0 <= r.current < |reps| && KnownHeight(active) && EffectiveHeight(reps[r.current]) == active.value
  {
    if k == -1 then TrackActive(q.(auto := true), reps, active)
    else q.(current := k, auto := false)
  }

  /** The enabled flags `setQualityLevel(k)` leaves on `n` representations. */
  function EnabledAfterSelect(n: nat, k: int): (e: seq<bool>)
    ensures |e| == n
    ensures forall i :: 0 <= i < n ==> e[i] == (k == -1 || i == k)
  {
    seq(n, i => k == -1 || i == k)
  }

  // ---------------------------------------------------------------------
  // Play/pause reconciliation

  /** The call `handlePlayback` issues. */
  datatype PlaybackCall = EnginePlay | EnginePause | ElementPlay | ElementPause | NoCall

  /** Without a mounted element the effect returns before any call. */
  function PlaybackCallFor(mounted: bool, isPlaying: bool, playerType: PlayerType, hasEngine: bool, paused: bool)
    : (c: PlaybackCall)
    ensures !mounted ==> c == NoCall
    ensures mounted && playerType == VideoJs && hasEngine ==> c == (if isPlaying then EnginePlay else EnginePause)
    ensures mounted && !(playerType == VideoJs && hasEngine) ==>
      && (c == ElementPlay <==> isPlaying && paused)
      && (c == ElementPause <==> !isPlaying && !paused)
      && (c == NoCall <==> isPlaying != paused)
  {
    if !mounted then NoCall
    else if isPlaying then
      if playerType == VideoJs && hasEngine then EnginePlay
      else if paused then ElementPlay
      else NoCall
    else
      if playerType == VideoJs && hasEngine then EnginePause
      else if !paused then ElementPause
      else NoCall
  }

  // ---------------------------------------------------------------------
  // The engine and the session

  /** A video.js player with its streaming extension, as far as the session
      uses it: what it reports about the stream (which changes as playlists
      arrive and renditions switch), the enabled flag of each
      representation, and whether it has been disposed. */
  class Engine {
    const url: string
    const hasVhs: bool
    var representations: Option<seq<Rep>>
    var masterPlaylists: seq<Rep>
    var activeHeight: Option<int>
    var enabled: seq<bool>
    var listening: bool
    var disposed: bool

    ghost predicate Valid()
      reads this
    {
      |enabled| == (if representations.Some? then |representations.value| else 0)
    }

    constructor (url: string, hasVhs: bool, representations: Option<seq<Rep>>,
                 masterPlaylists: seq<Rep>, activeHeight: Option<int>)
      ensures Valid()
      ensures this.url == url && this.hasVhs == hasVhs
      ensures this.representations == representations && this.masterPlaylists == masterPlaylists
      ensures this.activeHeight == activeHeight
      ensures forall i :: 0 <= i < |enabled| ==> enabled[i]
      ensures listening && !disposed
    {
      this.url := url;
      this.hasVhs := hasVhs;
      this.representations := representations;
      this.masterPlaylists := masterPlaylists;
      this.activeHeight := activeHeight;
      enabled := seq(if representations.Some? then |representations.value| else 0, _ => true);
      listening := true;
      disposed := false;
    }

    /** `player.off(); player.dispose()`. */
    method Dispose()
      modifies this
      ensures disposed && !listening
      ensures enabled == old(enabled) && activeHeight == old(activeHeight)
      ensures representations == old(representations) && masterPlaylists == old(masterPlaylists)
    {
      listening := false;
      disposed := true;
    }

    /** The stream switches rendition (what fires `renditionchange`): the
        active playlist now has height `h`. */
    method SwitchRendition(h: Option<int>)
      requires Valid()
      modifies this
      ensures Valid()
      ensures activeHeight == h
      ensures representations == old(representations) && masterPlaylists == old(masterPlaylists)
      ensures enabled == old(enabled) && listening == old(listening) && disposed == old(disposed)
    {
      activeHeight := h;
    }

    /** The playlist loader reports a new list (what fires the playlists'
        `change` and `addplaylist` events). Positions present before keep
        their enabled flag; positions beyond the old list are enabled. */
    method UpdatePlaylists(reps: Option<seq<Rep>>, master: seq<Rep>)
      requires Valid()
      modifies this
      ensures Valid()
      ensures representations == reps && masterPlaylists == master
      ensures forall i :: 0 <= i < |enabled| ==>
        enabled[i] == (if i < |old(enabled)| then old(enabled)[i] else true)
      ensures activeHeight == old(activeHeight) && listening == old(listening) && disposed == old(disposed)
    {
      var n := if reps.Some? then |reps.value| else 0;
      var flags := enabled;
      enabled := seq(n, i requires 0 <= i < n => if i < |flags| then flags[i] else true);
      representations := reps;
      masterPlaylists := master;
    }
  }

  /** What a tracked timeout runs when it fires. */
  datatype Task =
    | NativeSetup(url: string, isPlaying: bool, playerType: PlayerType)
    | Provision(url: string)
    | RefreshLevels
    | CheckQuality(reps: seq<Rep>)

  class Session {
    var lastStationId: Option<string>
    var timeouts: seq<int>
    var pending: map<int, Task>
    var engine: Engine?
    var error: Option<string>
    var quality: QualityState
    var elementSrc: string
    var elementLoads: nat
    var elementPlays: nat
    ghost var created: nat
    ghost var disposedCount: nat

    /** At most one engine is live: every engine created has been disposed,
        except the one the session holds. */
    ghost predicate Valid()
      reads this, engine
    {
      && created == disposedCount + (if engine == null then 0 else 1)
      && (engine != null ==> engine.Valid() && !engine.disposed)
    }

    constructor ()
      ensures Valid()
      ensures lastStationId == None && timeouts == [] && pending == map[] && engine == null
      ensures error == None && quality == InitialQuality
      ensures created == 0 && disposedCount == 0
    {
      lastStationId := None;
      timeouts := [];
      pending := map[];
      engine := null;
      error := None;
      quality := InitialQuality;
      elementSrc := "";
      elementLoads := 0;
      elementPlays := 0;
      created := 0;
      disposedCount := 0;
    }

    /** `clearAllTimeouts`: cancels every tracked timeout and forgets them. */
    method ClearAllTimeouts()
      modifies this
      ensures timeouts == []
      ensures pending == old(pending) - ElementSet(old(timeouts))
      ensures engine == old(engine) && quality == old(quality) && error == old(error)
      ensures lastStationId == old(lastStationId) && created == old(created) && disposedCount == old(disposedCount)
      ensures elementSrc == old(elementSrc) && elementLoads == old(elementLoads) && elementPlays == old(elementPlays)
    {
      var live := pending;
      var i := 0;
      while i < |timeouts|
        invariant 0 <= i <= |timeouts|
        invariant live == pending - ElementSet(timeouts[..i])
      {
        assert timeouts[..i + 1] == timeouts[..i] + [timeouts[i]];
        live := live - {timeouts[i]};
        i := i + 1;
      }
      assert timeouts[..i] == timeouts;
      pending := live;
      timeouts := [];
    }

    /** `addTrackedTimeout`: the host's timer `id` will run `task`. */
    method AddTrackedTimeout(id: int, task: Task)
      modifies this
      ensures timeouts == old(timeouts) + [id]
      ensures pending == old(pending)[id := task]
      ensures engine == old(engine) && quality == old(quality) && error == old(error)
      ensures lastStationId == old(lastStationId) && created == old(created) && disposedCount == old(disposedCount)
      ensures elementSrc == old(elementSrc) && elementLoads == old(elementLoads) && elementPlays == old(elementPlays)
    {
      timeouts := timeouts + [id];
      pending := pending[id := task];
    }

    /** Disposes the live engine, if any, and drops the handle. */
    method DisposeEngine()
      requires Valid()
      modifies this, engine
      ensures Valid() && engine == null
      ensures old(engine) != null ==> old(engine).disposed && disposedCount == old(disposedCount) + 1
      ensures old(engine) == null ==> disposedCount == old(disposedCount)
      ensures created == old(created)
      ensures timeouts == old(timeouts) && pending == old(pending)
      ensures quality == old(quality) && error == old(error) && lastStationId == old(lastStationId)
      ensures elementSrc == old(elementSrc) && elementLoads == old(elementLoads) && elementPlays == old(elementPlays)
    {
      if engine != null {
        engine.Dispose();
        engine := null;
        disposedCount := disposedCount + 1;
      }
    }

    /** The station-change effect. Without a mounted element it does
        nothing. Otherwise a new station id clears the error, records the id,
        cancels the tracked timeouts and disposes the engine; the same id
        resets nothing; in both cases a native-setup timeout is scheduled
        under `timerId`, carrying the URL, the playing flag and the player
        type of this render. */
    method OnStation(station: Station, mounted: bool, isPlaying: bool, timerId: int)
      requires Valid()
      modifies this, engine
      ensures Valid()
      ensures mounted && Some(station.id) != old(lastStationId) ==>
        && error == None && lastStationId == Some(station.id)
        && engine == null && timeouts == [timerId]
        && pending == (old(pending) - ElementSet(old(timeouts)))[timerId := NativeSetup(station.url, isPlaying, PlayerTypeOf(Some(station)))]
        && (old(engine) != null ==> old(engine).disposed)
      ensures mounted && Some(station.id) == old(lastStationId) ==>
        && error == old(error) && lastStationId == old(lastStationId)
        && engine == old(engine) && timeouts == old(timeouts) + [timerId]
        && pending == old(pending)[timerId := NativeSetup(station.url, isPlaying, PlayerTypeOf(Some(station)))]
      ensures !mounted ==>
        && error == old(error) && lastStationId == old(lastStationId)
        && engine == old(engine) && timeouts == old(timeouts) && pending == old(pending)
      ensures quality == old(quality) && created == old(created)
      ensures elementSrc == old(elementSrc) && elementLoads == old(elementLoads) && elementPlays == old(elementPlays)
    {
      if !mounted {
        return;
      }
      if Some(station.id) != lastStationId {
        error := None;
        lastStationId := Some(station.id);
        ClearAllTimeouts();
        DisposeEngine();
      }
      AddTrackedTimeout(timerId, NativeSetup(station.url, isPlaying, PlayerTypeOf(Some(station))));
    }

    /** The native-setup timeout: when the player type it captured is the
        HTML5 element, the element gets the URL, is reloaded and, when
        playback was wanted, asked to play. */
    method FireNativeSetup(id: int, mounted: bool)
      requires Valid()
      modifies this
      ensures Valid()
      ensures var fires := id in old(pending) && old(pending)[id].NativeSetup? && mounted
                           && old(pending)[id].playerType == Html5;
        && (fires ==>
              && elementSrc == old(pending)[id].url && elementLoads == old(elementLoads) + 1
              && elementPlays == old(elementPlays) + (if old(pending)[id].isPlaying then 1 else 0))
        && (!fires ==> elementSrc == old(elementSrc) && elementLoads == old(elementLoads) && elementPlays == old(elementPlays))
      ensures pending == (if id in old(pending) && old(pending)[id].NativeSetup? then old(pending) - {id} else old(pending))
      ensures engine == old(engine) && quality == old(quality) && error == old(error) && timeouts == old(timeouts)
      ensures lastStationId == old(lastStationId) && created == old(created) && disposedCount == old(disposedCount)
    {
      if id in pending && pending[id].NativeSetup? {
        var task := pending[id];
        pending := pending - {id};
        if mounted && task.playerType == Html5 {
          elementSrc := task.url;
          elementLoads := elementLoads + 1;
          if task.isPlaying {
            elementPlays := elementPlays + 1;
          }
        }
      }
    }

    /** The engine effect: for an HLS station with the element mounted, a
        provisioning timeout is scheduled under `timerId`. */
    method ScheduleProvision(station: Option<Station>, mounted: bool, timerId: int)
      requires Valid()
      modifies this
      ensures Valid()
      ensures PlayerTypeOf(station) == VideoJs && mounted ==>
        timeouts == old(timeouts) + [timerId] && pending == old(pending)[timerId := Provision(station.value.url)]
      ensures !(PlayerTypeOf(station) == VideoJs && mounted) ==>
        timeouts == old(timeouts) && pending == old(pending)
      ensures engine == old(engine) && quality == old(quality) && error == old(error)
      ensures lastStationId == old(lastStationId) && created == old(created) && disposedCount == old(disposedCount)
      ensures elementSrc == old(elementSrc) && elementLoads == old(elementLoads) && elementPlays == old(elementPlays)
    {
      if PlayerTypeOf(station) == VideoJs && mounted {
        AddTrackedTimeout(timerId, Provision(station.value.url));
      }
    }

    /** The provisioning timeout: returns early when an engine already exists
        or the element is gone; otherwise creates the engine for the URL.
        The stream the new engine will report is given by the last four
        parameters; the engine then schedules two level refreshes. */
    method FireProvision(id: int, mounted: bool, hasVhs: bool, representations: Option<seq<Rep>>,
                         master: seq<Rep>, active: Option<int>, refresh1: int, refresh2: int)
      requires Valid()
      modifies this
      ensures Valid()
      ensures var fires := id in old(pending) && old(pending)[id].Provision? && old(engine) == null && mounted;
        && (fires ==>
              && engine != null && fresh(engine) && engine.url == old(pending)[id].url
              && engine.hasVhs == hasVhs && engine.representations == representations
              && engine.masterPlaylists == master && engine.activeHeight == active
              && created == old(created) + 1
              && (hasVhs ==>
                    && timeouts == old(timeouts) + [refresh1, refresh2]
                    && pending == (old(pending) - {id})[refresh1 := RefreshLevels][refresh2 := RefreshLevels])
              && (!hasVhs ==> timeouts == old(timeouts) && pending == old(pending) - {id}))
        && (!fires ==>
              && engine == old(engine) && created == old(created) && timeouts == old(timeouts)
              && pending == (if id in old(pending) && old(pending)[id].Provision? then old(pending) - {id}
                             else old(pending)))
      ensures disposedCount == old(disposedCount) && quality == old(quality) && error == old(error)
      ensures lastStationId == old(lastStationId)
      ensures elementSrc == old(elementSrc) && elementLoads == old(elementLoads) && elementPlays == old(elementPlays)
    {
      if id in pending && pending[id].Provision? {
        var task := pending[id];
        pending := pending - {id};
        if engine == null && mounted {
          engine := new Engine(task.url, hasVhs, representations, master, active);
          created := created + 1;
          if hasVhs {
            AddTrackedTimeout(refresh1, RefreshLevels);
            AddTrackedTimeout(refresh2, RefreshLevels);
          }
        }
      }
    }

    /** The engine effect's cleanup: cancels the tracked timeouts and
        disposes the engine, leaving no engine live. */
    method Cleanup()
      requires Valid()
      modifies this, engine
      ensures Valid() && engine == null && timeouts == []
      ensures pending == old(pending) - ElementSet(old(timeouts))
      ensures old(engine) != null ==> old(engine).disposed
      ensures created == old(created) && quality == old(quality) && error == old(error)
      ensures lastStationId == old(lastStationId)
      ensures elementSrc == old(elementSrc) && elementLoads == old(elementLoads) && elementPlays == old(elementPlays)
    {
      ClearAllTimeouts();
      DisposeEngine();
    }

    /** `updateQualityLevels`, run by the engine's events or by a refresh
        timeout, with the element's intrinsic height. */
    method UpdateQualityLevels(videoHeight: int)
      requires Valid() && engine != null && engine.hasVhs
      modifies this
      ensures Valid()
      ensures engine == old(engine) && timeouts == old(timeouts) && pending == old(pending)
      ensures quality == AfterUpdate(old(quality), engine.representations, engine.masterPlaylists,
                                     engine.activeHeight, videoHeight)
      ensures error == old(error) && created == old(created) && disposedCount == old(disposedCount)
      ensures lastStationId == old(lastStationId)
      ensures elementSrc == old(elementSrc) && elementLoads == old(elementLoads) && elementPlays == old(elementPlays)
    {
      quality := AfterUpdate(quality, engine.representations, engine.masterPlaylists,
                             engine.activeHeight, videoHeight);
    }

    /** The rendition-change handler: in auto mode the current level follows
        the active representation. */
    method OnRenditionChange()
      requires Valid() && engine != null && engine.hasVhs
      modifies this
      ensures Valid() && engine == old(engine)
      ensures old(quality).auto ==>
        quality == TrackActive(old(quality), RenditionReps(engine.representations, engine.masterPlaylists),
                               engine.activeHeight)
      ensures !old(quality).auto ==> quality == old(quality)
      ensures engine == old(engine) && timeouts == old(timeouts) && pending == old(pending)
      ensures error == old(error) && created == old(created) && disposedCount == old(disposedCount)
      ensures lastStationId == old(lastStationId)
      ensures elementSrc == old(elementSrc) && elementLoads == old(elementLoads) && elementPlays == old(elementPlays)
    {
      if quality.auto {
        quality := TrackActive(quality, RenditionReps(engine.representations, engine.masterPlaylists),
                               engine.activeHeight);
      }
    }

    /** A level-refresh timeout: runs `updateQualityLevels` on the live
        engine's stream. */
    method FireRefresh(id: int, videoHeight: int)
      requires Valid()
      modifies this
      ensures Valid() && engine == old(engine) && timeouts == old(timeouts)
      ensures var fires := id in old(pending) && old(pending)[id].RefreshLevels?;
        && pending == (if fires then old(pending) - {id} else old(pending))
        && (fires && engine != null && engine.hasVhs ==>
              quality == AfterUpdate(old(quality), engine.representations, engine.masterPlaylists,
                                     engine.activeHeight, videoHeight))
        && (!(fires && engine != null && engine.hasVhs) ==> quality == old(quality))
      ensures error == old(error) && created == old(created) && disposedCount == old(disposedCount)
      ensures lastStationId == old(lastStationId)
      ensures elementSrc == old(elementSrc) && elementLoads == old(elementLoads) && elementPlays == old(elementPlays)
    {
      if id in pending && pending[id].RefreshLevels? {
        pending := pending - {id};
        if engine != null && engine.hasVhs {
          UpdateQualityLevels(videoHeight);
        }
      }
    }

    /** A convergence-check timeout scheduled by `setQualityLevel(-1)`: runs
        `checkCurrentQuality` on the representation list captured when it was
        scheduled, against the height active now. */
    method FireCheckQuality(id: int)
      requires Valid()
      modifies this
      ensures Valid() && engine == old(engine) && timeouts == old(timeouts)
      ensures var fires := id in old(pending) && old(pending)[id].CheckQuality?;
        && pending == (if fires then old(pending) - {id} else old(pending))
        && (fires && engine != null ==>
              quality == TrackActive(old(quality), old(pending)[id].reps, engine.activeHeight))
        && (!(fires && engine != null) ==> quality == old(quality))
      ensures error == old(error) && created == old(created) && disposedCount == old(disposedCount)
      ensures lastStationId == old(lastStationId)
      ensures elementSrc == old(elementSrc) && elementLoads == old(elementLoads) && elementPlays == old(elementPlays)
    {
      if id in pending && pending[id].CheckQuality? {
        var task := pending[id];
        pending := pending - {id};
        if engine != null {
          quality := TrackActive(quality, task.reps, engine.activeHeight);
        }
      }
    }

    /** `setQualityLevel(k)`: without an engine, a streaming extension or a
        representation list nothing changes; -1 enables every representation
        and returns to Auto (scheduling three convergence checks); any other
        `k` enables exactly representation `k` and pins it. */
    method SetQualityLevel(k: int, check1: int, check2: int, check3: int)
      requires Valid()
      modifies this, engine
      ensures Valid() && engine == old(engine)
      ensures engine != null ==>
        && engine.representations == old(engine.representations)
        && engine.masterPlaylists == old(engine.masterPlaylists) && engine.activeHeight == old(engine.activeHeight)
      ensures var ready := old(engine) != null && old(engine).hasVhs && old(engine).representations.Some?;
        && (ready ==>
              && engine.enabled == EnabledAfterSelect(|old(engine.enabled)|, k)
              && quality == AfterSelect(old(quality), k, engine.representations.value, engine.activeHeight)
              && (k == -1 ==>
                    && timeouts == old(timeouts) + [check1, check2, check3]
                    && pending == old(pending)[check1 := CheckQuality(engine.representations.value)]
                                              [check2 := CheckQuality(engine.representations.value)]
                                              [check3 := CheckQuality(engine.representations.value)])
              && (k != -1 ==> timeouts == old(timeouts) && pending == old(pending)))
        && (!ready ==>
              && quality == old(quality) && timeouts == old(timeouts) && pending == old(pending)
              && (engine != null ==> engine.enabled == old(engine.enabled)))
      ensures created == old(created) && disposedCount == old(disposedCount) && error == old(error)
      ensures lastStationId == old(lastStationId)
      ensures elementSrc == old(elementSrc) && elementLoads == old(elementLoads) && elementPlays == old(elementPlays)
    {
      if engine == null || !engine.hasVhs || engine.representations.None? {
        return;
      }
      var n := |engine.enabled|;
      var i := 0;
      while i < n
        invariant engine != null && engine == old(engine)
        invariant 0 <= i <= n && |engine.enabled| == n
        invariant forall j :: 0 <= j < i ==> engine.enabled[j] == (k == -1 || j == k)
        invariant engine.Valid() && !engine.disposed
        invariant engine.representations == old(engine.representations)
        invariant engine.masterPlaylists == old(engine.masterPlaylists) && engine.activeHeight == old(engine.activeHeight)
        invariant quality == old(quality) && created == old(created) && disposedCount == old(disposedCount)
        invariant timeouts == old(timeouts) && pending == old(pending) && error == old(error)
        invariant lastStationId == old(lastStationId) && elementSrc == old(elementSrc)
        invariant elementLoads == old(elementLoads) && elementPlays == old(elementPlays)
      {
        engine.enabled := engine.enabled[i := (k == -1 || i == k)];
        i := i + 1;
      }
      var reps := engine.representations.value;
      if k == -1 {
        quality := TrackActive(quality.(auto := true), reps, engine.activeHeight);
        AddTrackedTimeout(check1, CheckQuality(reps));
        AddTrackedTimeout(check2, CheckQuality(reps));
        AddTrackedTimeout(check3, CheckQuality(reps));
      } else {
        quality := quality.(current := k, auto := false);
      }
    }
  }

  // ---------------------------------------------------------------------
  // Properties of the quality transitions

  /** The shape of every ladder the session stores: empty, one real level,
      or Auto followed by real levels. */
  ghost predicate WellShaped(ls: seq<QualityLevel>)
  {
    && (|ls| == 1 ==> ls[0].index >= 0 && ls[0].height > 0)
    && (|ls| > 1 ==> ls[0] == AutoLevel && forall k :: 1 <= k < |ls| ==> ls[k].index >= 0 && ls[k].height > 0)
  }

  /** An update keeps the stored ladder well shaped, whether it stores the
      new ladder or keeps the previous one. */
  lemma {:induction false} UpdateKeepsShape(q: QualityState, representations: Option<seq<Rep>>, master: seq<Rep>,
                                            active: Option<int>, videoHeight: int)
    requires WellShaped(q.levels)
    ensures WellShaped(AfterUpdate(q, representations, master, active, videoHeight).levels)
  {
    var reps := SourceReps(representations, master);
    var fallback := FallbackHeight(active, videoHeight);
    LevelsPositive(reps, fallback);
    var levels := Levels(reps, fallback);
    if |levels| > 1 {
      var all := WithAuto(levels);
      assert all == [AutoLevel] + levels;
      forall k | 1 <= k < |all|
        ensures all[k].index >= 0 && all[k].height > 0
      {
        assert all[k] == levels[k - 1];
        assert all[k] in levels;
      }
    } else if |levels| == 1 {
      assert levels[0] in levels;
    }
  }

  /** The mode an update leaves: with one level it is pinned to that level;
      with several the engine chooses; with none nothing changes. */
  lemma {:induction false} UpdateMode(q: QualityState, representations: Option<seq<Rep>>, master: seq<Rep>,
                                      active: Option<int>, videoHeight: int)
    ensures var levels := Levels(SourceReps(representations, master), FallbackHeight(active, videoHeight));
      var r := AfterUpdate(q, representations, master, active, videoHeight);
      && (|levels| == 0 ==> r == q)
      && (|levels| == 1 ==> r.current == levels[0].index && r.current >= 0 && !r.auto)
      && (|levels| > 1 ==> r.auto)
  {
    var levels := Levels(SourceReps(representations, master), FallbackHeight(active, videoHeight));
    LevelsPositive(SourceReps(representations, master), FallbackHeight(active, videoHeight));
    if |levels| == 1 {
      assert levels[0] in levels;
    }
  }

  /** With several levels and a positive active height, the update selects
      the same level as the rendition tracker does: the first representation
      with the active height, when there is one; otherwise the current level
      is kept. The two read different lists when the engine reports an empty
      representation list: the update falls back to the master playlists,
      the tracker does not and keeps the current level. */
  lemma {:induction false} UpdateAgreesWithTracking(q: QualityState, representations: Option<seq<Rep>>,
                                                    master: seq<Rep>, active: Option<int>, videoHeight: int)
    requires active.Some? && active.value > 0
    requires |Levels(SourceReps(representations, master), FallbackHeight(active, videoHeight))| > 1
    ensures representations != Some([]) ==>
      AfterUpdate(q, representations, master, active, videoHeight).current
        == TrackActive(q, RenditionReps(representations, master), active).current
    ensures representations == Some([]) ==>
      TrackActive(q, RenditionReps(representations, master), active) == q
  {
    var reps := SourceReps(representations, master);
    var h := active.value;
    var levels := Levels(reps, FallbackHeight(active, videoHeight));
    assert levels == RealLevels(reps);
    RealLevelsDescribeReps(reps);
    RealLevelsKeepFirst(reps);
    RealLevelsComplete(reps);
    var f := FindRepHeight(reps, h);
    var m := MatchActive(levels, active);
    if m.Some? {
      var k :| 0 <= k < |levels| && levels[k].height == h && levels[k].index == m.value;
      var idx := levels[k].index;
      assert EffectiveHeight(reps[idx]) == h;
      assert f != -1 && f <= idx;
      assert !(f < idx);
      assert f == idx;
    } else {
      assert f != -1 ==> HasHeight(levels, h);
    }
  }

  /** The stored ladder is kept whenever the new ladder has as many entries
      and starts with the same label, which is weaker than equality: a
      ladder that starts with Auto is never replaced by another ladder with
      Auto of the same length. */
  lemma {:induction false} UpdateSuppressesSameLength(q: QualityState, representations: Option<seq<Rep>>,
                                                      master: seq<Rep>, active: Option<int>, videoHeight: int)
    requires |q.levels| > 0 && q.levels[0] == AutoLevel
    requires |q.levels| == |Levels(SourceReps(representations, master), FallbackHeight(active, videoHeight))| + 1
    requires |Levels(SourceReps(representations, master), FallbackHeight(active, videoHeight))| > 1
    ensures AfterUpdate(q, representations, master, active, videoHeight).levels == q.levels
  {
    var levels := Levels(SourceReps(representations, master), FallbackHeight(active, videoHeight));
    assert WithAuto(levels)[0] == AutoLevel;
  }

  /** A provisioning timeout scheduled for one station does nothing once the
      session has moved to a station with another id: the change cancelled
      it, so no engine is created for the stale station. */
  method StaleProvisionIsCancelled(a: Station, b: Station, setup1: int, provision: int, setup2: int,
                                   representations: Option<seq<Rep>>, master: seq<Rep>)
    returns (live: bool)
    requires a.id != b.id && Contains(a.url, ".m3u8")
    requires provision != setup1 && provision != setup2
    ensures !live
  {
    var s := new Session();
    s.OnStation(a, true, false, setup1);
    s.ScheduleProvision(Some(a), true, provision);
    s.OnStation(b, true, false, setup2);
    s.FireProvision(provision, true, true, representations, master, None, 0, 0);
    live := s.engine != null;
  }

  /** A rendition switch after the engine is provisioned: in auto mode the
      current level follows the newly active representation, the first one
      with the new height. */
  method AutoFollowsRenditionSwitch(a: Station, setup: int, provision: int, reps: seq<Rep>, h: int, k: nat)
    returns (current: int, auto: bool)
    requires Contains(a.url, ".m3u8") && setup != provision
    requires k < |reps| && h > 0 && EffectiveHeight(reps[k]) == h
    requires forall j :: 0 <= j < k ==> EffectiveHeight(reps[j]) != h
    ensures current == k && auto
  {
    var s := new Session();
    s.OnStation(a, true, false, setup);
    s.ScheduleProvision(Some(a), true, provision);
    s.FireProvision(provision, true, true, Some(reps), [], None, 0, 1);
    s.engine.SwitchRendition(Some(h));
    s.OnRenditionChange();
    current := s.quality.current;
    auto := s.quality.auto;
  }
}
