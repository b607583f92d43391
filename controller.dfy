/** The feature controller (controller/index.ts): one module-level slot holds
    the active feature and the cleanup its `init` returned; `syncFeatures`
    tears the old one down and starts the first feature whose `match` accepts
    the current path. Feature code is abstracted to what the controller sees:
    whether `init` exists, what it returns (now or through a promise) or that
    it throws, and whether a cleanup throws. */
module FeatureController {
  import opened Wrappers

  /** A cleanup function returned by `init`; `throws` says whether calling it raises. */
  datatype Handle = Handle(id: nat, throws: bool)

  /** What calling `init` does. */
  datatype InitBehaviour =
    | NoInit                           // the descriptor has no `init`
    | ReturnsNothing                   // returns undefined
    | Returns(cleanup: Handle)         // returns a cleanup function
    | Resolves(resolved: Option<Handle>) // returns a promise of a cleanup or undefined
    | Throws                           // throws, or returns a promise that rejects

  /** A feature descriptor: a name for the call log, `match(path)` and `init`. */
  datatype Feature = Feature(name: string, matches: string -> bool, init: InitBehaviour)

  /** The `activeFeature` record. */
  datatype ActiveFeature = ActiveFeature(feature: Feature, destroy: Option<Handle>)

  /** What the controller calls, in order: a cleanup, or an `init` (with the cleanup it yielded). */
  datatype Call = Destroyed(handle: Handle) | Initialized(feature: string, yielded: Option<Handle>)

  /** How a `syncFeatures` call ends: normally, or with an exception from the old
      cleanup or from `init`, which propagates to the caller. */
  datatype SyncOutcome = Done | DestroyThrew | InitThrew

  /** `features.find((f) => f.match(path))`. */
  function FirstMatch(features: seq<Feature>, path: string): (r: Option<nat>)
    ensures r.Some? ==> r.value < |features| && features[r.value].matches(path)
    ensures r.Some? ==> forall k | 0 <= k < r.value :: !features[k].matches(path)
    ensures r.None? ==> forall k | 0 <= k < |features| :: !features[k].matches(path)
  {
    if features == [] then None
    else if features[0].matches(path) then Some(0)
    else
      var rest := FirstMatch(features[1..], path);
      if rest.Some? then Some(rest.value + 1) else None
  }

  /** The cleanup that `init` yields once awaited; none when there is no `init` or it returns nothing. */
  function CleanupOf(b: InitBehaviour): Option<Handle> {
    match b
    case Returns(h) => Some(h)
    case Resolves(r) => r
    case _ => None
  }

  /** The cleanup held by the slot, if any. */
  function HeldCleanup(active: Option<ActiveFeature>): Option<Handle> {
    if active.Some? then active.value.destroy else None
  }

  /** The effect of one `syncFeatures` call run to completion. */
  datatype Step = Step(active: Option<ActiveFeature>, calls: seq<Call>, outcome: SyncOutcome)

  function SyncStep(active: Option<ActiveFeature>, features: seq<Feature>, path: string): (s: Step)
    // the old cleanup, when there is one, is the first call, on every sync
    ensures HeldCleanup(active).Some? ==> |s.calls| >= 1 && s.calls[0] == Destroyed(HeldCleanup(active).value)
    // no other cleanup is ever called
    ensures forall k | 0 <= k < |s.calls| && s.calls[k].Destroyed? :: k == 0 && HeldCleanup(active).Some?
    // an exception from the old cleanup stops everything and keeps the slot
    ensures s.outcome == DestroyThrew <==> HeldCleanup(active).Some? && HeldCleanup(active).value.throws
    ensures s.outcome == DestroyThrew ==> s.active == active && |s.calls| == 1
    // `init` runs only for the first matching feature, after the cleanup
    ensures forall k | 0 <= k < |s.calls| && s.calls[k].Initialized? ::
      k == |s.calls| - 1 && FirstMatch(features, path).Some? && s.calls[k].feature == features[FirstMatch(features, path).value].name
    // no match: the slot is emptied and nothing is initialised
    ensures s.outcome != DestroyThrew && FirstMatch(features, path).None? ==> s.active.None? && s.outcome == Done
    // a match: the slot holds that feature and what its `init` yielded
    ensures s.outcome == Done && FirstMatch(features, path).Some? ==>
      s.active == Some(ActiveFeature(features[FirstMatch(features, path).value], CleanupOf(features[FirstMatch(features, path).value].init)))
    // an exception from `init` leaves the old record in the slot
    ensures s.outcome == InitThrew ==> s.active == active
  {
    var held := HeldCleanup(active);
    var torn := if held.Some? then [Destroyed(held.value)] else [];
    var next := FirstMatch(features, path);
    if held.Some? && held.value.throws then Step(active, torn, DestroyThrew)
    else if next.None? then Step(None, torn, Done)
    else
      var f := features[next.value];
      if f.init.Throws? then Step(active, torn + [Initialized(f.name, None)], InitThrew)
      else if f.init.NoInit? then Step(Some(ActiveFeature(f, None)), torn, Done)
      else Step(Some(ActiveFeature(f, CleanupOf(f.init))), torn + [Initialized(f.name, CleanupOf(f.init))], Done)
  }

  /** The matched feature's `init` is called, after the old cleanup, whenever it has
      one; it is the sync's last call, and the sync fails in `init` exactly when
      that `init` throws. */
  lemma SyncStepRunsInit(active: Option<ActiveFeature>, features: seq<Feature>, path: string)
    ensures var s := SyncStep(active, features, path);
      && (s.outcome == InitThrew <==>
        && !(HeldCleanup(active).Some? && HeldCleanup(active).value.throws)
        && FirstMatch(features, path).Some? && features[FirstMatch(features, path).value].init.Throws?)
      && (s.outcome != DestroyThrew && FirstMatch(features, path).Some? ==>
        var f := features[FirstMatch(features, path).value];
        && (!f.init.NoInit? ==> |s.calls| >= 1 && s.calls[|s.calls| - 1] == Initialized(f.name, CleanupOf(f.init)))
        && (f.init.NoInit? ==> |s.calls| == if HeldCleanup(active).Some? then 1 else 0))
  {
  }

  /** The module-level `activeFeature` slot and the calls made so far. */
  class Controller {
    var active: Option<ActiveFeature>
    var calls: seq<Call>

    constructor ()
      ensures active.None? && calls == []
    {
      active := None;
      calls := [];
    }

    /** `syncFeatures(features)` with `location.pathname == path`. */
    method Sync(features: seq<Feature>, path: string) returns (outcome: SyncOutcome)
      modifies this
      ensures var s := SyncStep(old(active), features, path);
        active == s.active && calls == old(calls) + s.calls && outcome == s.outcome
    {
      var next := FirstMatch(features, path);
      if active.Some? && active.value.destroy.Some? {
        var h := active.value.destroy.value;
        calls := calls + [Destroyed(h)];
        if h.throws {
          return DestroyThrew;
        }
      }
      if next.None? {
        active := None;
        return Done;
      }
      var f := features[next.value];
      var cleanup: Option<Handle> := None;
      match f.init {
        case NoInit =>
        case ReturnsNothing =>
          calls := calls + [Initialized(f.name, None)];
        case Returns(h) =>
          calls := calls + [Initialized(f.name, Some(h))];
          cleanup := Some(h);
        case Resolves(r) =>
          calls := calls + [Initialized(f.name, r)];
          cleanup := r;
        case Throws =>
          calls := calls + [Initialized(f.name, None)];
          return InitThrew;
      }
      active := Some(ActiveFeature(f, cleanup));
      return Done;
    }
  }

  // ----- Runs of several syncs -----

  /** Successive syncs, one per path, each run to completion; the outcome is the last one's. */
  function Run(active: Option<ActiveFeature>, features: seq<Feature>, paths: seq<string>): (s: Step)
    decreases |paths|
  {
    if paths == [] then Step(active, [], Done)
    else
      var before := Run(active, features, paths[..|paths| - 1]);
      var last := SyncStep(before.active, features, paths[|paths| - 1]);
      Step(last.active, before.calls + last.calls, last.outcome)
  }

  /** One more sync at the end of a run. */
  lemma RunSnoc(active: Option<ActiveFeature>, features: seq<Feature>, paths: seq<string>, path: string)
    ensures var before := Run(active, features, paths);
      var s := SyncStep(before.active, features, path);
      && Run(active, features, paths + [path]).active == s.active
      && Run(active, features, paths + [path]).calls == before.calls + s.calls
  {
    assert (paths + [path])[..|paths|] == paths;
  }

  /** Cleanups handed out by `init` and not yet called, counted with multiplicity. */
  function Outstanding(calls: seq<Call>): multiset<Handle>
    decreases |calls|
  {
    if calls == [] then multiset{}
    else
      var before := Outstanding(calls[..|calls| - 1]);
      match calls[|calls| - 1]
      case Destroyed(h) => before - multiset{h}
      case Initialized(_, y) => if y.Some? then before + multiset{y.value} else before
  }

  function Holding(active: Option<ActiveFeature>): multiset<Handle> {
    if HeldCleanup(active).Some? then multiset{HeldCleanup(active).value} else multiset{}
  }

  /** No `init` and no cleanup in play throws. */
  ghost predicate WellBehaved(features: seq<Feature>) {
    forall k | 0 <= k < |features| ::
      !features[k].init.Throws? && (CleanupOf(features[k].init).Some? ==> !CleanupOf(features[k].init).value.throws)
  }

  /** At most one feature is active: when the features and their cleanups never
      throw, after any run of syncs exactly the cleanup in the slot (if any) has
      been handed out and not yet called. */
  lemma {:induction false} AtMostOneOutstanding(history: seq<Call>, active: Option<ActiveFeature>, features: seq<Feature>, paths: seq<string>)
    requires WellBehaved(features)
    requires HeldCleanup(active).Some? ==> !HeldCleanup(active).value.throws
    requires Outstanding(history) == Holding(active)
    ensures var s := Run(active, features, paths);
      && Outstanding(history + s.calls) == Holding(s.active)
      && (HeldCleanup(s.active).Some? ==> !HeldCleanup(s.active).value.throws)
    decreases |paths|
  {
    if paths == [] {
      assert history + [] == history;
    } else {
      var init := paths[..|paths| - 1];
      var before := Run(active, features, init);
      var last := SyncStep(before.active, features, paths[|paths| - 1]);
      assert Run(active, features, paths) == Step(last.active, before.calls + last.calls, last.outcome);
      AtMostOneOutstanding(history, active, features, init);
      SyncOutstanding(history + before.calls, before.active, features, paths[|paths| - 1]);
      OutstandingRegroup(history, before.calls, last.calls, last.active);
    }
  }

  lemma OutstandingRegroup(history: seq<Call>, first: seq<Call>, second: seq<Call>, active: Option<ActiveFeature>)
    requires Outstanding(history + first + second) == Holding(active)
    ensures Outstanding(history + (first + second)) == Holding(active)
  {
    assert history + first + second == history + (first + second);
  }

  lemma SyncOutstanding(history: seq<Call>, active: Option<ActiveFeature>, features: seq<Feature>, path: string)
    requires WellBehaved(features)
    requires HeldCleanup(active).Some? ==> !HeldCleanup(active).value.throws
    requires Outstanding(history) == Holding(active)
    ensures var s := SyncStep(active, features, path);
      && Outstanding(history + s.calls) == Holding(s.active)
      && (HeldCleanup(s.active).Some? ==> !HeldCleanup(s.active).value.throws)
      && s.outcome == Done
  {
    var s := SyncStep(active, features, path);
    var held := HeldCleanup(active);
    var torn := if held.Some? then [Destroyed(held.value)] else [];
    var afterTear := history + torn;
    assert Outstanding(afterTear) == multiset{} by {
      if held.Some? {
        OutstandingAppend(history, Destroyed(held.value));
      } else {
        assert afterTear == history;
      }
    }
    var next := FirstMatch(features, path);
    if next.Some? {
      var f := features[next.value];
      if !f.init.NoInit? {
        var init := Initialized(f.name, CleanupOf(f.init));
        assert s.calls == torn + [init];
        assert history + s.calls == afterTear + [init];
        OutstandingAppend(afterTear, init);
      } else {
        assert history + s.calls == afterTear;
      }
    } else {
      assert history + s.calls == afterTear;
    }
  }

  /** One more call: a cleanup called leaves the count, one handed out joins it. */
  lemma OutstandingAppend(calls: seq<Call>, c: Call)
    ensures c.Destroyed? ==> Outstanding(calls + [c]) == Outstanding(calls) - multiset{c.handle}
    ensures c.Initialized? && c.yielded.Some? ==> Outstanding(calls + [c]) == Outstanding(calls) + multiset{c.yielded.value}
    ensures c.Initialized? && c.yielded.None? ==> Outstanding(calls + [c]) == Outstanding(calls)
  {
    assert (calls + [c])[..|calls|] == calls;
  }

  /** Matching the same feature again is not a no-op: the held cleanup runs and
      `init` runs again, whether it returns its cleanup or resolves with it. */
  lemma RematchRestarts(f: Feature, features: seq<Feature>, path: string, held: Option<Handle>)
    requires FirstMatch(features, path).Some? && features[FirstMatch(features, path).value] == f
    requires !f.init.NoInit? && !f.init.Throws?
    requires held.Some? ==> !held.value.throws
    ensures var s := SyncStep(Some(ActiveFeature(f, held)), features, path);
      && s.calls == (if held.Some? then [Destroyed(held.value)] else []) + [Initialized(f.name, CleanupOf(f.init))]
      && s.active == Some(ActiveFeature(f, CleanupOf(f.init)))
      && s.outcome == Done
  {
  }

  /** When `init` throws, the torn-down record stays in the slot, so the next
      sync calls the same cleanup a second time. */
  lemma {:induction false} FailedInitCleansTwice(old_: Feature, h: Handle, next: Feature, features: seq<Feature>, path: string)
    requires !h.throws && next.init.Throws?
    requires FirstMatch(features, path).Some? && features[FirstMatch(features, path).value] == next
    ensures var s := Run(Some(ActiveFeature(old_, Some(h))), features, [path, path]);
      s.calls == [Destroyed(h), Initialized(next.name, None), Destroyed(h), Initialized(next.name, None)]
  {
    var a := Some(ActiveFeature(old_, Some(h)));
    var first := SyncStep(a, features, path);
    assert first.active == a && first.calls == [Destroyed(h), Initialized(next.name, None)];
    assert [path, path][..1] == [path];
    assert [path][..0] == [];
    assert Run(a, features, [path]).calls == [] + first.calls;
  }
}
