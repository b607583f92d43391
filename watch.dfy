/** The watch-page feature (features/watch/index.ts): the module-level `state`,
    `config` and `cleanup` records, the saved-playback-position rules, the
    live-status classification, the view-count and date field selection, the
    setting and quality event handlers, and cleanup. The YouTube player is
    abstracted to its current time and duration when read, and a log of the
    calls made on it. */
module WatchFeature {
  import opened Wrappers
  import opened JsonData
  import opened StorageBridge
  import Settings
  import SettingsDropdown

  /** What the feature reads from the player: `getCurrentTime()` and `getDuration()`. */
  datatype Player = Player(currentTime: real, duration: real)

  /** Calls made on the player, in order. */
  datatype PlayerCall =
    | SetLoopVideo(on: bool)
    | SetPlaybackQualityRange(quality: string)
    | ToggleSubtitlesOn
    | ToggleSubtitles
    | SeekTo(seconds: real, allowSeekAhead: bool)

  /** The module-level `state` record; `videoState` is `state.state`. */
  datatype State = State(
    id: Option<string>,
    videoState: Option<int>,
    player: Option<Player>,
    isLiveNow: bool,
    currentViewCount: int,
    currentDateText: string,
    lastSavedTime: real,
    isDestroyed: bool,
    isCaptionActive: bool)

  const INITIAL_STATE := State(None, None, None, false, 0, "", 0.0, false, false)

  /** The module-level `config` record. */
  datatype Config = Config(autoLoop: bool, autoCaption: bool, qualityService: bool, quality: string)

  const DEFAULT_CONFIG := Config(true, true, true, "hd1080")

  /** A function in `cleanup.handlers`; `throws` says whether calling it raises. */
  datatype Handler = Handler(id: nat, throws: bool)

  /** What `runCleanup` calls, in order. */
  datatype CleanupCall = StopTimeTracking | ResetCountUp | Ran(handler: Handler)

  /** `watchFeature.match`. */
  function Match(path: string): bool {
    path == "/watch"
  }

  // ----- Saved playback position -----

  function TimeKey(id: string): string {
    "video_time_" + id
  }

  /** Distinct videos have distinct storage keys. */
  lemma TimeKeyInjective(a: string, b: string)
    ensures TimeKey(a) == TimeKey(b) ==> a == b
  {
    var p := "video_time_";
    if TimeKey(a) == TimeKey(b) {
      assert a == TimeKey(a)[|p|..];
      assert b == TimeKey(b)[|p|..];
    }
  }

  /** `!state.id` fails: the id is neither null nor empty. */
  predicate HasId(id: Option<string>) {
    id.Some? && id.value != ""
  }

  /** The guard shared by `save` and `restore`. */
  predicate TrackingAllowed(s: State) {
    !s.isDestroyed && s.player.Some? && HasId(s.id) && !s.isLiveNow
  }

  /** Less than 30 s from the start or from the end. */
  predicate InEdgeWindow(t: real, duration: real) {
    t < 30.0 || duration - t < 30.0
  }

  function Abs(x: real): real {
    if x < 0.0 then -x else x
  }

  /** What one `timeTracking.save` does. `RemoveFails` is the call to
      `storageBridge.remove`, which does not exist: it throws, the exception is
      swallowed, and `lastSavedTime` is left as it was. */
  datatype SaveAction = SkipSave | RemoveFails(key: string) | TooSoon | Write(key: string, time: real)

  function SaveDecision(s: State): (a: SaveAction)
    // only with the guard passed and a position that is neither 0 nor in an edge window
    ensures a.Write? ==> TrackingAllowed(s) && a.key == TimeKey(s.id.value) && a.time == s.player.value.currentTime
    ensures a.Write? ==> a.time >= 30.0 && s.player.value.duration - a.time >= 30.0 && Abs(a.time - s.lastSavedTime) >= 3.0
    ensures !TrackingAllowed(s) ==> a == SkipSave
    ensures a.RemoveFails? ==> TrackingAllowed(s) && InEdgeWindow(s.player.value.currentTime, s.player.value.duration)
    // and whenever those conditions hold, it writes
    ensures (TrackingAllowed(s) && s.player.value.currentTime != 0.0 && s.player.value.duration != 0.0
      && !InEdgeWindow(s.player.value.currentTime, s.player.value.duration)
      && Abs(s.player.value.currentTime - s.lastSavedTime) >= 3.0) ==> a.Write?
    // a zero time or duration skips; an edge-window position reaches the failing remove
    ensures TrackingAllowed(s) && (s.player.value.currentTime == 0.0 || s.player.value.duration == 0.0) ==> a == SkipSave
    ensures (TrackingAllowed(s) && s.player.value.currentTime != 0.0 && s.player.value.duration != 0.0
      && InEdgeWindow(s.player.value.currentTime, s.player.value.duration)) ==> a == RemoveFails(TimeKey(s.id.value))
    // and a position outside the window but under 3 s from the last save is too soon
    ensures (TrackingAllowed(s) && s.player.value.currentTime != 0.0 && s.player.value.duration != 0.0
      && !InEdgeWindow(s.player.value.currentTime, s.player.value.duration)
      && Abs(s.player.value.currentTime - s.lastSavedTime) < 3.0) ==> a == TooSoon
  {
    if !TrackingAllowed(s) then SkipSave
    else
      var t := s.player.value.currentTime;
      var d := s.player.value.duration;
      if t == 0.0 || d == 0.0 then SkipSave
      else if InEdgeWindow(t, d) then RemoveFails(TimeKey(s.id.value))
      else if Abs(t - s.lastSavedTime) >= 3.0 then Write(TimeKey(s.id.value), t)
      else TooSoon
  }

  /** The position `restore` seeks to, given what `storageBridge.get` resolved
      with and the duration; `None` when it does not seek. */
  function RestoreDecision(saved: Payload, duration: real): (r: Option<real>)
    ensures r.Some? ==> saved == Value(JNum(r.value)) && r.value >= 30.0 && duration - r.value >= 30.0
    ensures (saved.Value? && saved.v.JNum? && saved.v.n != 0.0 && duration != 0.0
      && !InEdgeWindow(saved.v.n, duration)) ==> r == Some(saved.v.n)
  {
    if saved.Value? && saved.v.JNum? && saved.v.n != 0.0 && duration != 0.0 && !InEdgeWindow(saved.v.n, duration)
    then Some(saved.v.n)
    else None
  }

  /** `restore` reaches the failing `storageBridge.remove` call. */
  predicate RestoreRemoves(saved: Payload, duration: real) {
    saved.Value? && saved.v.JNum? && saved.v.n != 0.0 && duration != 0.0 && InEdgeWindow(saved.v.n, duration)
  }

  /** A position that `save` writes is the position `restore` seeks to for the
      same video, as long as the duration is the same. */
  lemma SaveThenRestore(s: State, store: map<string, Json>)
    requires SaveDecision(s).Write?
    ensures var a := SaveDecision(s);
      RestoreDecision(Lookup(store[a.key := JNum(a.time)], a.key), s.player.value.duration) == Some(a.time)
  {
  }

  /** After a write, saving again at the same position writes nothing. */
  lemma SaveSettles(s: State)
    requires SaveDecision(s).Write?
    ensures SaveDecision(s.(lastSavedTime := SaveDecision(s).time)) == TooSoon
  {
  }

  // ----- Live status and field selection -----

  /** `videoData.setState`'s classification, from `liveBroadcastDetails?.isLiveNow`
      (`None` when there are no details or no flag) and `videoDetails.isUpcoming`. */
  function Classify(liveNow: Option<bool>, isUpcoming: bool): (r: int)
    ensures r == 3 <==> liveNow == Some(true)
    ensures r == 2 <==> liveNow == Some(false) && !isUpcoming
    ensures r == 4 <==> liveNow == Some(false) && isUpcoming
    ensures r == 1 <==> liveNow.None?
  {
    match liveNow
    case Some(true) => 3
    case Some(false) => if isUpcoming then 4 else 2
    case None => 1
  }

  /** A text field: `simpleText`, or `runs` whose texts are joined. */
  datatype Text = Text(simpleText: Option<string>, runs: Option<seq<string>>)

  /** The parts of `videoPrimaryInfoRenderer` that are read. `viewCount` is the
      optional inner `viewCount` text under the required
      `viewCount.videoViewCountRenderer`. */
  datatype PrimaryInfo = PrimaryInfo(viewCount: Option<Text>, dateText: Option<Text>, relativeDateText: Option<Text>)

  /** One entry of `results.results.contents`. */
  datatype ResultsContent = ResultsContent(primaryInfo: Option<PrimaryInfo>)

  /** `runs.map((r) => r.text).join("")`. */
  function JoinRuns(runs: seq<string>): (r: string)
    ensures |runs| == 0 ==> r == ""
    ensures |runs| == 1 ==> r == runs[0]
  {
    if runs == [] then "" else runs[0] + JoinRuns(runs[1..])
  }

  /** The texts of several runs are concatenated in order, with nothing between them. */
  lemma {:induction false} JoinRunsAppend(a: seq<string>, b: seq<string>)
    ensures JoinRuns(a + b) == JoinRuns(a) + JoinRuns(b)
    decreases |a|
  {
    if a == [] {
      assert a + b == b;
    } else {
      assert (a + b)[0] == a[0] && (a + b)[1..] == a[1..] + b;
      JoinRunsAppend(a[1..], b);
    }
  }

  /** `findVideoPrimaryInfo`: the first entry that has a primary-info renderer. */
  function FindPrimaryInfo(contents: seq<ResultsContent>): (r: Option<nat>)
    ensures r.Some? ==> r.value < |contents| && contents[r.value].primaryInfo.Some?
    ensures r.Some? ==> forall k | 0 <= k < r.value :: contents[k].primaryInfo.None?
    ensures r.None? ==> forall k | 0 <= k < |contents| :: contents[k].primaryInfo.None?
    ensures forall k: nat | FirstWithInfo(contents, k) :: r == Some(k)
  {
    if contents == [] then None
    else if contents[0].primaryInfo.Some? then Some(0)
    else
      var rest := FindPrimaryInfo(contents[1..]);
      if rest.Some? then Some(rest.value + 1) else None
  }

  /** `k` is the first entry of `contents` with a primary-info renderer. */
  ghost predicate FirstWithInfo(contents: seq<ResultsContent>, k: nat) {
    k < |contents| && contents[k].primaryInfo.Some? && forall m | 0 <= m < k :: contents[m].primaryInfo.None?
  }

  function RunsText(t: Option<Text>): Option<string> {
    if t.Some? && t.value.runs.Some? then Some(JoinRuns(t.value.runs.value)) else None
  }

  function SimpleText(t: Option<Text>): Option<string> {
    if t.Some? then t.value.simpleText else None
  }

  /** `videoData.getViewCount`: the view count of the first primary-info entry,
      its joined runs while live or upcoming (states 3 and 4) and its simple
      text otherwise. */
  function GetViewCount(videoState: Option<int>, contents: seq<ResultsContent>): (r: Option<string>)
    ensures (forall k | 0 <= k < |contents| :: contents[k].primaryInfo.None?) ==> r.None?
    ensures forall k: nat | FirstWithInfo(contents, k) ::
      var count := contents[k].primaryInfo.value.viewCount;
      && (videoState == Some(3) || videoState == Some(4) ==> r == RunsText(count))
      && (videoState != Some(3) && videoState != Some(4) ==> r == SimpleText(count))
  {
    var at := FindPrimaryInfo(contents);
    if at.None? then None
    else
      var content := contents[at.value].primaryInfo.value.viewCount;
      if videoState == Some(4) || videoState == Some(3) then RunsText(content) else SimpleText(content)
  }

  /** `videoData.getDateText`: the offline-slate text when upcoming (state 4);
      otherwise, from the first primary-info entry, the date while live (state 3)
      and the relative date in every other state. `offlineRuns` is the chain
      `liveStreamability?....mainText.runs`: `None` when one of its optional links
      (`liveStreamability`, `offlineSlate`, `runs`) is missing. The links in between
      are required fields of the page data and are taken to be present. */
  function GetDateText(videoState: Option<int>, contents: seq<ResultsContent>, offlineRuns: Option<seq<string>>): (r: Option<string>)
    ensures videoState == Some(4) ==> r == (if offlineRuns.Some? then Some(JoinRuns(offlineRuns.value)) else None)
    ensures videoState != Some(4) && (forall k | 0 <= k < |contents| :: contents[k].primaryInfo.None?) ==> r.None?
    ensures forall k: nat | FirstWithInfo(contents, k) ::
      var info := contents[k].primaryInfo.value;
      && (videoState == Some(3) ==> r == SimpleText(info.dateText))
      && (videoState != Some(3) && videoState != Some(4) ==> r == SimpleText(info.relativeDateText))
  {
    if videoState == Some(4) then
      if offlineRuns.Some? then Some(JoinRuns(offlineRuns.value)) else None
    else
      var at := FindPrimaryInfo(contents);
      if at.None? then None
      else
        var content := contents[at.value].primaryInfo.value;
        if videoState == Some(3) then SimpleText(content.dateText) else SimpleText(content.relativeDateText)
  }

  /** Entries without a primary-info renderer in front shift the found index. */
  lemma {:induction false} FindSkipsLeading(leading: seq<ResultsContent>, contents: seq<ResultsContent>)
    requires forall k | 0 <= k < |leading| :: leading[k].primaryInfo.None?
    ensures FindPrimaryInfo(leading + contents)
      == (var r := FindPrimaryInfo(contents); if r.Some? then Some(|leading| + r.value) else None)
    decreases |leading|
  {
    if leading != [] {
      assert (leading + contents)[0] == leading[0];
      assert (leading + contents)[1..] == leading[1..] + contents;
      FindSkipsLeading(leading[1..], contents);
    } else {
      assert leading + contents == contents;
    }
  }

  /** Entries before the first primary-info entry do not change the view count. */
  lemma ViewCountSkipsLeading(videoState: Option<int>, leading: seq<ResultsContent>, contents: seq<ResultsContent>)
    requires forall k | 0 <= k < |leading| :: leading[k].primaryInfo.None?
    ensures GetViewCount(videoState, leading + contents) == GetViewCount(videoState, contents)
  {
    FindSkipsLeading(leading, contents);
    var r := FindPrimaryInfo(contents);
    if r.Some? {
      assert (leading + contents)[|leading| + r.value] == contents[r.value];
    }
  }

  /** Entries before the first primary-info entry do not change the date text. */
  lemma DateTextSkipsLeading(videoState: Option<int>, leading: seq<ResultsContent>, contents: seq<ResultsContent>, offlineRuns: Option<seq<string>>)
    requires forall k | 0 <= k < |leading| :: leading[k].primaryInfo.None?
    ensures GetDateText(videoState, leading + contents, offlineRuns) == GetDateText(videoState, contents, offlineRuns)
  {
    FindSkipsLeading(leading, contents);
    var r := FindPrimaryInfo(contents);
    if r.Some? {
      assert (leading + contents)[|leading| + r.value] == contents[r.value];
    }
  }

  /** While upcoming (state 4) the date text comes from the offline slate alone:
      the page's contents do not matter. */
  lemma UpcomingDateIgnoresContents(a: seq<ResultsContent>, b: seq<ResultsContent>, offlineRuns: Option<seq<string>>)
    ensures GetDateText(Some(4), a, offlineRuns) == GetDateText(Some(4), b, offlineRuns)
  {
  }

  // ----- Captions -----

  /** The caption part of the setting handler: the new `isCaptionActive` and the
      subtitle call it makes. */
  datatype CaptionResult = CaptionResult(active: bool, call: Option<PlayerCall>)

  function CaptionStep(active: bool, value: bool): (r: CaptionResult)
    ensures r.active == value
    ensures r.call.Some? <==> value != active
    ensures r.call == Some(ToggleSubtitlesOn) <==> value && !active
    ensures r.call == Some(ToggleSubtitles) <==> !value && active
  {
    if value && !active then CaptionResult(true, Some(ToggleSubtitlesOn))
    else if !value && active then CaptionResult(false, Some(ToggleSubtitles))
    else CaptionResult(active, None)
  }

  /** A series of autoCaption events from caption state `active`. */
  function CaptionRun(active: bool, values: seq<bool>): CaptionResultRun
    decreases |values|
  {
    if values == [] then CaptionResultRun(active, [])
    else
      var first := CaptionStep(active, values[0]);
      var rest := CaptionRun(first.active, values[1..]);
      CaptionResultRun(rest.active, (if first.call.Some? then [first.call.value] else []) + rest.calls)
  }

  datatype CaptionResultRun = CaptionResultRun(active: bool, calls: seq<PlayerCall>)

  /** Subtitle calls only, each different from the one before. */
  predicate Alternates(calls: seq<PlayerCall>) {
    && (forall i | 0 <= i < |calls| :: calls[i] == ToggleSubtitlesOn || calls[i] == ToggleSubtitles)
    && (forall i | 0 <= i < |calls| - 1 :: calls[i] != calls[i + 1])
  }

  /** Putting a subtitle call in front of an alternating series that starts with the other one. */
  lemma ConsAlternates(h: PlayerCall, rest: seq<PlayerCall>)
    requires h == ToggleSubtitlesOn || h == ToggleSubtitles
    requires Alternates(rest) && (|rest| > 0 ==> rest[0] != h)
    ensures Alternates([h] + rest)
  {
    var calls := [h] + rest;
    forall i | 0 < i < |calls|
      ensures calls[i] == rest[i - 1]
    {
    }
  }

  /** Over any series of events, the subtitle calls alternate between on and
      off, starting with the one that changes the initial state, and the final
      state is the last value sent. */
  lemma {:induction false} CaptionCallsAlternate(active: bool, values: seq<bool>)
    ensures var r := CaptionRun(active, values);
      && Alternates(r.calls)
      && (|r.calls| > 0 ==> r.calls[0] == (if active then ToggleSubtitles else ToggleSubtitlesOn))
      && (|r.calls| > 0 ==> r.calls[|r.calls| - 1] == (if r.active then ToggleSubtitlesOn else ToggleSubtitles))
      && (|values| > 0 ==> r.active == values[|values| - 1])
      && (|r.calls| == 0 ==> r.active == active)
    decreases |values|
  {
    if values != [] {
      var first := CaptionStep(active, values[0]);
      var rest := CaptionRun(first.active, values[1..]);
      CaptionCallsAlternate(first.active, values[1..]);
      if |values| > 1 {
        assert values[1..][|values[1..]| - 1] == values[|values| - 1];
      }
      if first.call.Some? {
        var calls := [first.call.value] + rest.calls;
        assert CaptionRun(active, values).calls == calls;
        ConsAlternates(first.call.value, rest.calls);
        if |rest.calls| > 0 {
          assert calls[|calls| - 1] == rest.calls[|rest.calls| - 1];
        }
      } else {
        assert CaptionRun(active, values).calls == rest.calls;
      }
    }
  }

  // ----- Stored settings -----

  /** `configManager.load`'s effect, given what `storageBridge.get("dropdown_config")`
      resolved with: each field of a truthy stored value, or its default. */
  function LoadedConfig(stored: Payload, current: Config): (c: Config)
    ensures !(stored.Value? && Truthy(stored.v)) ==> c == current
  {
    if stored.Value? && Truthy(stored.v) then
      var saved := Settings.Decode(stored.v);
      Config(saved.autoLoop.GetOr(true), saved.autoCaption.GetOr(true), saved.qualityService.GetOr(true), saved.preferredQuality.GetOr("hd1080"))
    else current
  }

  /** The watch feature reads back exactly what the dropdown saved. */
  lemma LoadsDropdownSave(c: Settings.DropdownConfig, current: Config, store: map<string, Json>)
    ensures LoadedConfig(Lookup(store[Settings.STORAGE_KEY := Settings.Encode(c)], Settings.STORAGE_KEY), current)
      == Config(c.autoLoop, c.autoCaption, c.qualityService, c.preferredQuality)
  {
    Settings.DecodeEncode(c);
  }

  /** Starting from the defaults, the watch feature and the dropdown read any
      stored value into the same settings. */
  lemma AgreesWithDropdown(stored: Payload)
    ensures var d := SettingsDropdown.Loaded(stored, Settings.DEFAULT_CONFIG);
      LoadedConfig(stored, DEFAULT_CONFIG) == Config(d.autoLoop, d.autoCaption, d.qualityService, d.preferredQuality)
  {
  }

  // ----- The module state -----

  class Watch {
    const host: Host
    var state: State
    var config: Config
    /** `cleanup.timeTracking` is set. */
    var timeTracking: bool
    /** `cleanup.countUp` is set. */
    var countUp: bool
    var handlers: seq<Handler>
    var playerCalls: seq<PlayerCall>
    var cleanupCalls: seq<CleanupCall>
    /** Keys passed to the missing `storageBridge.remove`, whose call threw. */
    var removeFailures: seq<string>

    constructor (host: Host)
      ensures this.host == host && state == INITIAL_STATE && config == DEFAULT_CONFIG
      ensures !timeTracking && !countUp && handlers == []
      ensures playerCalls == [] && cleanupCalls == [] && removeFailures == []
    {
      this.host := host;
      state := INITIAL_STATE;
      config := DEFAULT_CONFIG;
      timeTracking := false;
      countUp := false;
      handlers := [];
      playerCalls := [];
      cleanupCalls := [];
      removeFailures := [];
    }

    /** `resetState`. */
    method ResetState()
      modifies this`state
      ensures state == INITIAL_STATE
    {
      state := state.(id := None, videoState := None, player := None, isLiveNow := false);
      state := state.(currentViewCount := 0, currentDateText := "", lastSavedTime := 0.0);
      state := state.(isDestroyed := false, isCaptionActive := false);
    }

    /** `runCleanup`: stop time tracking, reset the count-up animation, call every
        handler once in order (an exception from one does not stop the rest),
        empty the list, and reset the state, which leaves `isDestroyed` false. */
    method RunCleanup()
      modifies this`state, this`timeTracking, this`countUp, this`handlers, this`cleanupCalls
      ensures cleanupCalls == old(cleanupCalls)
        + (if old(timeTracking) then [StopTimeTracking] else [])
        + (if old(countUp) then [ResetCountUp] else [])
        + RanAll(old(handlers))
      ensures !timeTracking && !countUp && handlers == []
      ensures state == INITIAL_STATE
    {
      state := state.(isDestroyed := true);
      if timeTracking {
        cleanupCalls := cleanupCalls + [StopTimeTracking];
      }
      timeTracking := false;
      if countUp {
        cleanupCalls := cleanupCalls + [ResetCountUp];
      }
      countUp := false;
      ghost var before := cleanupCalls;
      var i := 0;
      while i < |handlers|
        invariant 0 <= i <= |handlers|
        invariant handlers == old(handlers)
        invariant !timeTracking && !countUp
        invariant cleanupCalls == before + RanAll(handlers[..i])
      {
        // the call is made whether or not the handler throws; the exception is dropped
        cleanupCalls := cleanupCalls + [Ran(handlers[i])];
        assert handlers[..i + 1][..i] == handlers[..i];
        i := i + 1;
      }
      assert handlers[..i] == handlers;
      handlers := [];
      ResetState();
    }

    /** `timeTracking.save`. */
    method Save()
      modifies this`state, this`removeFailures, host
      ensures var a := SaveDecision(old(state));
        if a.Write? then
          && host.store == old(host.store)[a.key := JNum(a.time)]
          && host.posted == old(host.posted) + [Message(ThisWindow, SET_RESPONSE, Some(a.key), Undefined)]
          && state == old(state).(lastSavedTime := a.time)
        else
          host.store == old(host.store) && host.posted == old(host.posted) && state == old(state)
      ensures var a := SaveDecision(old(state));
        removeFailures == old(removeFailures) + (if a.RemoveFails? then [a.key] else [])
    {
      if state.isDestroyed || state.player.None? || !HasId(state.id) || state.isLiveNow {
        return;
      }
      var currentTime := state.player.value.currentTime;
      var duration := state.player.value.duration;
      if currentTime == 0.0 || duration == 0.0 {
        return;
      }
      var key := TimeKey(state.id.value);
      if currentTime < 30.0 || duration - currentTime < 30.0 {
        // `storageBridge.remove` is not a function: the call throws before
        // `lastSavedTime` is reset, and the surrounding catch swallows it
        removeFailures := removeFailures + [key];
        return;
      }
      if Abs(currentTime - state.lastSavedTime) >= 3.0 {
        var resolved := BridgeSet(host, key, JNum(currentTime));
        state := state.(lastSavedTime := currentTime);
      }
    }

    /** `timeTracking.restore`. */
    method Restore()
      modifies this`playerCalls, this`removeFailures, host
      ensures !TrackingAllowed(old(state)) ==>
        host.posted == old(host.posted) && playerCalls == old(playerCalls) && removeFailures == old(removeFailures)
      ensures host.store == old(host.store)
      ensures TrackingAllowed(old(state)) ==>
        var key := TimeKey(old(state).id.value);
        var saved := Lookup(old(host.store), key);
        var duration := old(state).player.value.duration;
        && host.posted == old(host.posted) + [Message(ThisWindow, GET_RESPONSE, Some(key), saved)]
        && playerCalls == old(playerCalls) + (var r := RestoreDecision(saved, duration); if r.Some? then [SeekTo(r.value, true)] else [])
        && removeFailures == old(removeFailures) + (if RestoreRemoves(saved, duration) then [key] else [])
    {
      if state.isDestroyed || state.player.None? || !HasId(state.id) || state.isLiveNow {
        return;
      }
      var key := TimeKey(state.id.value);
      var savedTime := BridgeGet(host, key);
      var duration := state.player.value.duration;
      if !(savedTime.Value? && savedTime.v.JNum?) || savedTime.v.n == 0.0 || duration == 0.0 {
        return;
      }
      if savedTime.v.n < 30.0 || duration - savedTime.v.n < 30.0 {
        removeFailures := removeFailures + [key];
        return;
      }
      playerCalls := playerCalls + [SeekTo(savedTime.v.n, true)];
    }

    /** `videoData.setState`: `isLiveNow` is set for a live video and never cleared here. */
    method SetState(liveNow: Option<bool>, isUpcoming: bool)
      modifies this`state
      ensures state == old(state).(videoState := Some(Classify(liveNow, isUpcoming)), isLiveNow := old(state).isLiveNow || liveNow == Some(true))
    {
      if liveNow == Some(true) {
        state := state.(videoState := Some(3), isLiveNow := true);
      } else if liveNow == Some(false) && !isUpcoming {
        state := state.(videoState := Some(2));
      } else if liveNow == Some(false) && isUpcoming {
        state := state.(videoState := Some(4));
      } else {
        state := state.(videoState := Some(1));
      }
    }

    /** `playerFeatures.setQuality`. */
    method SetQuality(quality: string)
      modifies this`playerCalls
      ensures playerCalls == old(playerCalls)
        + (if !state.isDestroyed && config.qualityService then [SetPlaybackQualityRange(quality)] else [])
    {
      if state.isDestroyed {
        return;
      }
      if !config.qualityService {
        return;
      }
      playerCalls := playerCalls + [SetPlaybackQualityRange(quality)];
    }

    /** `eventHandlers.setting` for an event with `{setting, value}`. */
    method OnSetting(setting: string, value: bool)
      modifies this`config, this`state, this`playerCalls
      ensures old(state).isDestroyed || old(state).player.None? || setting !in {"autoLoop", "qualityService", "autoCaption"} ==>
        config == old(config) && state == old(state) && playerCalls == old(playerCalls)
      ensures !old(state).isDestroyed && old(state).player.Some? && setting == "autoLoop" ==>
        config == old(config).(autoLoop := value) && state == old(state) && playerCalls == old(playerCalls) + [SetLoopVideo(value)]
      ensures !old(state).isDestroyed && old(state).player.Some? && setting == "qualityService" ==>
        && config == old(config).(qualityService := value) && state == old(state)
        && playerCalls == old(playerCalls) + (if value && config.quality != "" then [SetPlaybackQualityRange(config.quality)] else [])
      ensures !old(state).isDestroyed && old(state).player.Some? && setting == "autoCaption" ==>
        var step := CaptionStep(old(state).isCaptionActive, value);
        && config == old(config).(autoCaption := value) && state == old(state).(isCaptionActive := step.active)
        && playerCalls == old(playerCalls) + (if step.call.Some? then [step.call.value] else [])
    {
      if state.isDestroyed {
        return;
      }
      if state.player.None? {
        return;
      }
      if setting == "autoLoop" {
        config := config.(autoLoop := value);
        playerCalls := playerCalls + [SetLoopVideo(value)];
      } else if setting == "qualityService" {
        config := config.(qualityService := value);
        if value && config.quality != "" {
          SetQuality(config.quality);
        }
      } else if setting == "autoCaption" {
        config := config.(autoCaption := value);
        if value && !state.isCaptionActive {
          playerCalls := playerCalls + [ToggleSubtitlesOn];
          state := state.(isCaptionActive := true);
        } else if !value && state.isCaptionActive {
          playerCalls := playerCalls + [ToggleSubtitles];
          state := state.(isCaptionActive := false);
        }
      }
    }

    /** `eventHandlers.quality` for an event with `{quality}`. */
    method OnQuality(quality: string)
      modifies this`config, this`playerCalls
      ensures old(state).isDestroyed ==> config == old(config) && playerCalls == old(playerCalls)
      ensures !old(state).isDestroyed ==>
        && config == old(config).(quality := quality)
        && playerCalls == old(playerCalls) + (if state.player.Some? && config.qualityService then [SetPlaybackQualityRange(quality)] else [])
    {
      if state.isDestroyed {
        return;
      }
      config := config.(quality := quality);
      if state.player.Some? && config.qualityService {
        SetQuality(quality);
      }
    }

    /** `configManager.load`. */
    method LoadConfig()
      modifies this`config, host
      ensures config == LoadedConfig(Lookup(old(host.store), Settings.STORAGE_KEY), old(config))
      ensures host.store == old(host.store)
      ensures host.posted == old(host.posted) + [Message(ThisWindow, GET_RESPONSE, Some(Settings.STORAGE_KEY), Lookup(old(host.store), Settings.STORAGE_KEY))]
    {
      var saved := BridgeGet(host, Settings.STORAGE_KEY);
      if saved.Value? && Truthy(saved.v) {
        var s := Settings.Decode(saved.v);
        config := config.(autoLoop := s.autoLoop.GetOr(true));
        config := config.(qualityService := s.qualityService.GetOr(true));
        config := config.(autoCaption := s.autoCaption.GetOr(true));
        config := config.(quality := s.preferredQuality.GetOr("hd1080"));
      }
    }
  }

  /** The calls `runCleanup` makes for a list of handlers: each one once, in order. */
  function RanAll(hs: seq<Handler>): (r: seq<CleanupCall>)
    ensures |r| == |hs| && forall i | 0 <= i < |hs| :: r[i] == Ran(hs[i])
  {
    if hs == [] then [] else RanAll(hs[..|hs| - 1]) + [Ran(hs[|hs| - 1])]
  }
}
