/** The content script's entry point (main.ts) and the feature registry
    (features/index.ts): one sync at startup, the once-only dropdown, and the
    mutation observer that re-syncs only when the pathname or the `v` query
    parameter changes and re-injects a dropdown that has gone from the page. */
module ContentScript {
  import opened Wrappers
  import opened StorageBridge
  import opened FeatureController
  import SettingsDropdown
  import Settings
  import WatchFeature

  /** The cleanup function `watchFeature.init` resolves with (it calls `runCleanup`). */
  const WATCH_CLEANUP := Handle(0, false)

  /** `FEATURES`: the watch feature only. */
  const FEATURES: seq<Feature> := [Feature("watch", WatchFeature.Match, Resolves(Some(WATCH_CLEANUP)))]

  /** The registry selects the watch feature exactly on "/watch". */
  lemma WatchSelectedOnWatchPage(path: string)
    ensures FirstMatch(FEATURES, path) == (if path == "/watch" then Some(0) else None)
  {
    assert FEATURES[0].matches(path) == (path == "/watch");
  }

  /** Moving to another video on "/watch" restarts the watch feature: its cleanup
      runs, then its `init` runs again and its new cleanup is held. */
  lemma WatchRestartsOnNewVideo()
    ensures var s := SyncStep(Some(ActiveFeature(FEATURES[0], Some(WATCH_CLEANUP))), FEATURES, "/watch");
      && s.calls == [Destroyed(WATCH_CLEANUP), Initialized("watch", Some(WATCH_CLEANUP))]
      && s.active == Some(ActiveFeature(FEATURES[0], Some(WATCH_CLEANUP)))
  {
    WatchSelectedOnWatchPage("/watch");
    RematchRestarts(FEATURES[0], FEATURES, "/watch", Some(WATCH_CLEANUP));
  }

  /** The location the observer compares: `location.pathname` and the `v` parameter. */
  datatype Location = Location(path: string, videoId: Option<string>)

  /** The paths of the syncs a series of observed locations triggers, starting
      from the recorded location `last`. */
  function SyncedPaths(last: Location, seen: seq<Location>): (paths: seq<string>)
    ensures |paths| <= |seen|
    decreases |seen|
  {
    if seen == [] then []
    else (if seen[0] != last then [seen[0].path] else []) + SyncedPaths(seen[0], seen[1..])
  }

  /** The recorded location after observing `seen` from `last`. */
  function LastSeen(last: Location, seen: seq<Location>): Location {
    if seen == [] then last else seen[|seen| - 1]
  }

  lemma LastSeenSnoc(last: Location, seen: seq<Location>, l: Location)
    ensures LastSeen(last, seen + [l]) == l
  {
  }

  /** One more observation adds the sync it triggers, judged against the location recorded so far. */
  lemma {:induction false} SyncedPathsAppend(last: Location, seen: seq<Location>, l: Location)
    ensures SyncedPaths(last, seen + [l]) == SyncedPaths(last, seen) + SyncedPaths(LastSeen(last, seen), [l])
    decreases |seen|
  {
    if seen == [] {
      assert seen + [l] == [l];
    } else {
      assert (seen + [l])[0] == seen[0] && (seen + [l])[1..] == seen[1..] + [l];
      SyncedPathsAppend(seen[0], seen[1..], l);
      if |seen| > 1 {
        assert LastSeen(seen[0], seen[1..]) == LastSeen(last, seen);
      }
    }
  }

  /** The slot and the call log are those of the syncs `SyncedPaths` gives for
      the locations seen since `origin`, run after the startup sync. */
  ghost predicate Replayed(startActive: Option<ActiveFeature>, startCalls: seq<Call>, origin: Location, seen: seq<Location>,
                           active: Option<ActiveFeature>, calls: seq<Call>)
  {
    var run := Run(startActive, FEATURES, SyncedPaths(origin, seen));
    active == run.active && calls == startCalls + run.calls
  }

  /** Observing `l` adds one sync for its path when it differs from the last
      location seen, and nothing otherwise. */
  lemma ObserveOne(startActive: Option<ActiveFeature>, startCalls: seq<Call>, origin: Location, seen: seq<Location>,
                   active: Option<ActiveFeature>, calls: seq<Call>, l: Location)
    requires Replayed(startActive, startCalls, origin, seen, active, calls)
    ensures l != LastSeen(origin, seen) ==>
      var s := SyncStep(active, FEATURES, l.path);
      Replayed(startActive, startCalls, origin, seen + [l], s.active, calls + s.calls)
    ensures l == LastSeen(origin, seen) ==> Replayed(startActive, startCalls, origin, seen + [l], active, calls)
  {
    var paths := SyncedPaths(origin, seen);
    SyncedPathsAppend(origin, seen, l);
    if l != LastSeen(origin, seen) {
      assert SyncedPaths(origin, seen + [l]) == paths + [l.path];
      RunSnoc(startActive, FEATURES, paths, l.path);
    } else {
      assert SyncedPaths(origin, seen + [l]) == paths;
    }
  }

  /** Mutations that leave the location as recorded trigger no sync. */
  lemma {:induction false} SteadyLocationNoSync(last: Location, seen: seq<Location>)
    requires forall i | 0 <= i < |seen| :: seen[i] == last
    ensures SyncedPaths(last, seen) == []
    decreases |seen|
  {
    if seen != [] {
      SteadyLocationNoSync(last, seen[1..]);
    }
  }

  /** When every observed location differs from the one before it, each one is synced. */
  lemma {:induction false} EveryChangeSyncs(last: Location, seen: seq<Location>)
    requires |seen| > 0 ==> seen[0] != last
    requires forall i | 0 < i < |seen| :: seen[i] != seen[i - 1]
    ensures SyncedPaths(last, seen) == seq(|seen|, i requires 0 <= i < |seen| => seen[i].path)
    decreases |seen|
  {
    if seen != [] {
      EveryChangeSyncs(seen[0], seen[1..]);
    }
  }

  /** The module-level state of main.ts. */
  class Page {
    const host: Host
    const controller: Controller
    var lastPath: string
    var lastVideoId: Option<string>
    /** The `dropdown` singleton; `null` until `initDropdown` first runs. */
    var dropdown: SettingsDropdown.Dropdown?
    /** How many Dropdowns have been constructed. */
    var dropdownsCreated: nat
    /** How many times `dropdown.inject()` has been called. */
    var injections: nat

    /** The location recorded at startup, the slot and call log right after the
        startup sync, and every location the observer has seen since. */
    ghost var origin: Location
    ghost var startActive: Option<ActiveFeature>
    ghost var startCalls: seq<Call>
    ghost var observed: seq<Location>

    /** The singleton is created at most once, the recorded pair is the last
        location seen, and the controller has run exactly the syncs `SyncedPaths`
        gives for the observed locations. */
    ghost predicate Valid()
      reads this, controller
    {
      && dropdownsCreated <= 1 && (dropdown == null <==> dropdownsCreated == 0)
      && Location(lastPath, lastVideoId) == LastSeen(origin, observed)
      && Replayed(startActive, startCalls, origin, observed, controller.active, controller.calls)
    }

    /** Loading the script: `syncFeatures(FEATURES)`, `initDropdown()`, then the
        recorded location is the current one. */
    constructor (host: Host, path: string, videoId: Option<string>)
      modifies host
      ensures Valid()
      ensures this.host == host && fresh(controller)
      ensures controller.active == SyncStep(None, FEATURES, path).active
      ensures controller.calls == SyncStep(None, FEATURES, path).calls
      ensures dropdown != null && fresh(dropdown) && dropdownsCreated == 1
      ensures dropdown.config == SettingsDropdown.Loaded(Lookup(old(host.store), Settings.STORAGE_KEY), Settings.DEFAULT_CONFIG)
      ensures lastPath == path && lastVideoId == videoId && injections == 0
      ensures observed == []
    {
      this.host := host;
      var c := new Controller();
      controller := c;
      lastPath := path;
      lastVideoId := videoId;
      dropdown := null;
      dropdownsCreated := 0;
      injections := 0;
      origin := Location(path, videoId);
      observed := [];
      new;
      var _ := c.Sync(FEATURES, path);
      startActive := c.active;
      startCalls := c.calls;
      assert Run(startActive, FEATURES, []).calls == [];
      InitDropdown();
    }

    /** `initDropdown`: construct and initialise the dropdown the first time only. */
    method InitDropdown()
      requires Valid()
      modifies this`dropdown, this`dropdownsCreated, host
      ensures Valid() && dropdown != null && dropdownsCreated == 1
      ensures old(dropdown) != null ==> dropdown == old(dropdown) && host.store == old(host.store) && host.posted == old(host.posted)
      ensures old(dropdown) == null ==>
        fresh(dropdown) && dropdown.config == SettingsDropdown.Loaded(Lookup(old(host.store), Settings.STORAGE_KEY), Settings.DEFAULT_CONFIG)
    {
      if dropdown == null {
        var d := new SettingsDropdown.Dropdown(host);
        d.Init();
        dropdown := d;
        dropdownsCreated := dropdownsCreated + 1;
      }
    }

    /** The observer callback, with the location and whether `#yt-enhancer-dropdown`
        is in the document at that moment. */
    method OnMutation(path: string, videoId: Option<string>, dropdownInDocument: bool)
      requires Valid()
      modifies this`lastPath, this`lastVideoId, this`injections, this`observed, controller
      ensures Valid()
      ensures observed == old(observed) + [Location(path, videoId)]
      ensures lastPath == path && lastVideoId == videoId
      ensures path != old(lastPath) || videoId != old(lastVideoId) ==>
        var s := SyncStep(old(controller.active), FEATURES, path);
        controller.active == s.active && controller.calls == old(controller.calls) + s.calls
      ensures path == old(lastPath) && videoId == old(lastVideoId) ==>
        controller.active == old(controller.active) && controller.calls == old(controller.calls)
      ensures injections == old(injections) + (if !dropdownInDocument && dropdown != null then 1 else 0)
    {
      var l := Location(path, videoId);
      ObserveOne(startActive, startCalls, origin, observed, controller.active, controller.calls, l);
      LastSeenSnoc(origin, observed, l);
      observed := observed + [l];
      if path != lastPath || videoId != lastVideoId {
        lastPath := path;
        lastVideoId := videoId;
        // a rejected sync is an unhandled rejection of its own promise; the callback goes on
        var _ := controller.Sync(FEATURES, path);
        assert Replayed(startActive, startCalls, origin, observed, controller.active, controller.calls);
      } else {
        assert Replayed(startActive, startCalls, origin, observed, controller.active, controller.calls);
      }
      if !dropdownInDocument && dropdown != null {
        injections := injections + 1;
      }
    }
  }
}
