/** The args-to-state bridge of the RadarChart stories.

    Each story's `setup()` builds one reactive `state` record from the
    Storybook `args`, substituting a default for a missing `stepCount` or
    `radarSkeleton`, and registers one watcher per field that overwrites that
    field of `state` when the control changes. The block is the same in all
    three stories, so it is modelled once.

    The value-level view (`Snapshot`, `Initial`, `Apply`) specifies the class
    `State`, whose constructor and methods are the `reactive(...)` call, the
    six watcher callbacks and the `v-model` write of the active-layer select. */
module RadarChartStories {
  import opened Wrappers

  /** One axis of the chart; its position in the sequence is its angle. */
  datatype Category = Category(id: string, name: string, description: string)

  /** One data series: a value per category id. */
  datatype Layer = Layer(name: string, color: string, editable: bool, categoryValues: map<string, int>)

  /** Styling of the grid lines. */
  datatype Skeleton = Skeleton(strokeWidth: real, strokeColor: string, strokeOpacity: real)

  /** The Storybook `args` of a story: every field may be absent. */
  datatype Args = Args(
    categories: Option<seq<Category>>,
    layers: Option<seq<Layer>>,
    activeLayer: Option<string>,
    alignTo: Option<string>,
    stepCount: Option<int>,
    radarSkeleton: Option<Skeleton>)

  /** The value of the story's reactive `state`. `stepCount` and
      `radarSkeleton` always hold a value, because every write to them goes
      through `??`; the other four pass absence through. */
  datatype Snapshot = Snapshot(
    categories: Option<seq<Category>>,
    layers: Option<seq<Layer>>,
    activeLayer: Option<string>,
    alignTo: Option<string>,
    stepCount: int,
    radarSkeleton: Skeleton)

  /** Fallback when `stepCount` is absent. */
  const DefaultStepCount: int := 7

  /** Fallback when `radarSkeleton` is absent. */
  const DefaultSkeleton: Skeleton := Skeleton(1.0, "#dfdfdf", 1.0)

  /** The six watched fields. */
  datatype Field = Categories | Layers | ActiveLayer | AlignTo | StepCount | RadarSkeleton

  /** One watcher notification: the watched field of `args` took this new value. */
  datatype Change =
    | CategoriesSet(newCategories: Option<seq<Category>>)
    | LayersSet(newLayers: Option<seq<Layer>>)
    | ActiveLayerSet(newActiveLayer: Option<string>)
    | AlignToSet(newAlignTo: Option<string>)
    | StepCountSet(newStepCount: Option<int>)
    | RadarSkeletonSet(newRadarSkeleton: Option<Skeleton>)

  function FieldOf(c: Change): Field
  {
    match c
    case CategoriesSet(_) => Categories
    case LayersSet(_) => Layers
    case ActiveLayerSet(_) => ActiveLayer
    case AlignToSet(_) => AlignTo
    case StepCountSet(_) => StepCount
    case RadarSkeletonSet(_) => RadarSkeleton
  }

  /** `s` and `t` agree on every field except possibly `f`. */
  predicate SameExcept(s: Snapshot, t: Snapshot, f: Field)
  {
    && (f != Categories ==> s.categories == t.categories)
    && (f != Layers ==> s.layers == t.layers)
    && (f != ActiveLayer ==> s.activeLayer == t.activeLayer)
    && (f != AlignTo ==> s.alignTo == t.alignTo)
    && (f != StepCount ==> s.stepCount == t.stepCount)
    && (f != RadarSkeleton ==> s.radarSkeleton == t.radarSkeleton)
  }

  /** The state `reactive(...)` builds from `args`: four fields verbatim,
      `stepCount ?? 7` and `radarSkeleton ?? DefaultSkeleton`. */
  function Initial(a: Args): (r: Snapshot)
    ensures r.categories == a.categories && r.layers == a.layers
    ensures r.activeLayer == a.activeLayer && r.alignTo == a.alignTo
    ensures a.stepCount.Some? ==> r.stepCount == a.stepCount.value
    ensures a.stepCount.None? ==> r.stepCount == DefaultStepCount
    ensures a.radarSkeleton.Some? ==> r.radarSkeleton == a.radarSkeleton.value
    ensures a.radarSkeleton.None? ==> r.radarSkeleton == DefaultSkeleton
  {
    Snapshot(a.categories, a.layers, a.activeLayer, a.alignTo,
             a.stepCount.GetOr(DefaultStepCount), a.radarSkeleton.GetOr(DefaultSkeleton))
  }

  /** What one watcher callback does to the state: it overwrites its own
      field, with the same fallbacks as `Initial`, and touches nothing else. */
  function Apply(s: Snapshot, c: Change): (r: Snapshot)
    ensures SameExcept(s, r, FieldOf(c))
    ensures c.CategoriesSet? ==> r.categories == c.newCategories
    ensures c.LayersSet? ==> r.layers == c.newLayers
    ensures c.ActiveLayerSet? ==> r.activeLayer == c.newActiveLayer
    ensures c.AlignToSet? ==> r.alignTo == c.newAlignTo
    ensures c.StepCountSet? ==> r.stepCount == c.newStepCount.GetOr(DefaultStepCount)
    ensures c.RadarSkeletonSet? ==> r.radarSkeleton == c.newRadarSkeleton.GetOr(DefaultSkeleton)
  {
    match c
    case CategoriesSet(v) => s.(categories := v)
    case LayersSet(v) => s.(layers := v)
    case ActiveLayerSet(v) => s.(activeLayer := v)
    case AlignToSet(v) => s.(alignTo := v)
    case StepCountSet(v) => s.(stepCount := v.GetOr(DefaultStepCount))
    case RadarSkeletonSet(v) => s.(radarSkeleton := v.GetOr(DefaultSkeleton))
  }

  /** The notifications, applied in the order they are delivered. */
  function Replay(s: Snapshot, cs: seq<Change>): Snapshot
    decreases |cs|
  {
    if cs == [] then s else Replay(Apply(s, cs[0]), cs[1..])
  }

  /** The edit a Storybook control makes to `args`, the event the watcher sees. */
  function ArgsUpdate(a: Args, c: Change): (r: Args)
    ensures Initial(r) == Apply(Initial(a), c)
  {
    match c
    case CategoriesSet(v) => a.(categories := v)
    case LayersSet(v) => a.(layers := v)
    case ActiveLayerSet(v) => a.(activeLayer := v)
    case AlignToSet(v) => a.(alignTo := v)
    case StepCountSet(v) => a.(stepCount := v)
    case RadarSkeletonSet(v) => a.(radarSkeleton := v)
  }

  function ReplayArgs(a: Args, cs: seq<Change>): Args
    decreases |cs|
  {
    if cs == [] then a else ReplayArgs(ArgsUpdate(a, cs[0]), cs[1..])
  }

  /** One notification per field, each carrying the current value of `args`. */
  function SyncAll(a: Args): seq<Change>
  {
    [CategoriesSet(a.categories), LayersSet(a.layers), ActiveLayerSet(a.activeLayer),
     AlignToSet(a.alignTo), StepCountSet(a.stepCount), RadarSkeletonSet(a.radarSkeleton)]
  }

  /** The state stays a mirror of `args` through any sequence of control
      edits: a watcher delivering every edit keeps `state == Initial(args)`. */
  lemma {:induction false} ReplayKeepsMirror(a: Args, cs: seq<Change>)
    ensures Replay(Initial(a), cs) == Initial(ReplayArgs(a, cs))
    decreases |cs|
  {
    if cs != [] {
      assert Apply(Initial(a), cs[0]) == Initial(ArgsUpdate(a, cs[0]));
      ReplayKeepsMirror(ArgsUpdate(a, cs[0]), cs[1..]);
    }
  }

  /** Synchronisation is total: every field has a watcher, so one
      notification per field brings ANY state back to the mirror of `args`;
      in particular the constructor's defaults are the watchers' defaults. */
  lemma SyncAllRestoresMirror(s: Snapshot, a: Args)
    ensures Replay(s, SyncAll(a)) == Initial(a)
  {
    var cs := SyncAll(a);
    var s1 := Apply(s, cs[0]);
    var s2 := Apply(s1, cs[1]);
    var s3 := Apply(s2, cs[2]);
    var s4 := Apply(s3, cs[3]);
    var s5 := Apply(s4, cs[4]);
    var s6 := Apply(s5, cs[5]);
    assert cs[1..][1..][1..][1..][1..][1..] == [];
    assert Replay(s5, cs[5..]) == s6;
    assert Replay(s4, cs[4..]) == Replay(s5, cs[5..]);
    assert Replay(s3, cs[3..]) == Replay(s4, cs[4..]);
    assert Replay(s2, cs[2..]) == Replay(s3, cs[3..]);
    assert Replay(s1, cs[1..]) == Replay(s2, cs[2..]);
    assert Replay(s, cs) == Replay(s1, cs[1..]);
  }

  /** A later notification for the same field overwrites an earlier one. */
  lemma LastWriteWins(s: Snapshot, c1: Change, c2: Change)
    requires FieldOf(c1) == FieldOf(c2)
    ensures Apply(Apply(s, c1), c2) == Apply(s, c2)
  {
  }

  /** Each callback is idempotent: the same value sent twice in a row
      changes nothing the second time. */
  lemma ApplyIdempotent(s: Snapshot, c: Change)
    ensures Apply(Apply(s, c), c) == Apply(s, c)
  {
  }

  /** A notification stands for a change of the `args` value. One that
      carries the value `args` already holds is harmless while the state
      still mirrors `args`. */
  lemma UnchangedValueKeepsMirror(a: Args, c: Change)
    requires ArgsUpdate(a, c) == a
    ensures Apply(Initial(a), c) == Initial(a)
  {
  }

  /** ... but not after the select has written `state`: re-sending the
      unchanged `args.activeLayer` would reset the field to it, which Vue
      never does, because its watcher fires only when the value changes. */
  lemma ResentActiveLayerUndoesSelection(a: Args, name: string)
    requires a.activeLayer != Some(name)
    ensures var s := Apply(Initial(a), ActiveLayerSet(Some(name)));
            Apply(s, ActiveLayerSet(a.activeLayer)) != s
            && Apply(s, ActiveLayerSet(a.activeLayer)) == Initial(a)
  {
  }

  /** Notifications for different fields touch disjoint state, so they may be
      applied in either order. */
  lemma DistinctFieldsCommute(s: Snapshot, c1: Change, c2: Change)
    requires FieldOf(c1) != FieldOf(c2)
    ensures Apply(Apply(s, c1), c2) == Apply(Apply(s, c2), c1)
  {
  }

  /** A present `0` (falsy in JavaScript) is kept: `??` is not `||`. */
  lemma ZeroStepCountKept(s: Snapshot, a: Args)
    ensures Initial(a.(stepCount := Some(0))).stepCount == 0
    ensures Apply(s, StepCountSet(Some(0))).stepCount == 0
  {
  }

  /** The story's reactive `state`. One watcher notification is one method call. */
  class State {
    var categories: Option<seq<Category>>
    var layers: Option<seq<Layer>>
    var activeLayer: Option<string>
    var alignTo: Option<string>
    var stepCount: int
    var radarSkeleton: Skeleton

    /** The current value of the state. */
    function View(): Snapshot
      reads this
    {
      Snapshot(categories, layers, activeLayer, alignTo, stepCount, radarSkeleton)
    }

    /** `reactive({...})` over the story's `args`. */
    constructor Init(args: Args)
      ensures View() == Initial(args)
      ensures categories == args.categories && layers == args.layers
      ensures activeLayer == args.activeLayer && alignTo == args.alignTo
      ensures stepCount == args.stepCount.GetOr(DefaultStepCount)
      ensures radarSkeleton == args.radarSkeleton.GetOr(DefaultSkeleton)
    {
      categories := args.categories;
      layers := args.layers;
      activeLayer := args.activeLayer;
      alignTo := args.alignTo;
      stepCount := args.stepCount.GetOr(DefaultStepCount);
      radarSkeleton := args.radarSkeleton.GetOr(DefaultSkeleton);
    }

    /** Watcher on `args.categories`. */
    method OnCategories(newCategories: Option<seq<Category>>)
      modifies this`categories
      ensures categories == newCategories
      ensures View() == Apply(old(View()), CategoriesSet(newCategories))
    {
      categories := newCategories;
    }

    /** Watcher on `args.layers`. */
    method OnLayers(newLayers: Option<seq<Layer>>)
      modifies this`layers
      ensures layers == newLayers
      ensures View() == Apply(old(View()), LayersSet(newLayers))
    {
      layers := newLayers;
    }

    /** Watcher on `args.activeLayer`. */
    method OnActiveLayer(newActiveLayer: Option<string>)
      modifies this`activeLayer
      ensures activeLayer == newActiveLayer
      ensures View() == Apply(old(View()), ActiveLayerSet(newActiveLayer))
    {
      activeLayer := newActiveLayer;
    }

    /** Watcher on `args.alignTo`. */
    method OnAlignTo(newAlignTo: Option<string>)
      modifies this`alignTo
      ensures alignTo == newAlignTo
      ensures View() == Apply(old(View()), AlignToSet(newAlignTo))
    {
      alignTo := newAlignTo;
    }

    /** Watcher on `args.stepCount`: a cleared value falls back to 7. */
    method OnStepCount(newStepCount: Option<int>)
      modifies this`stepCount
      ensures newStepCount.Some? ==> stepCount == newStepCount.value
      ensures newStepCount.None? ==> stepCount == DefaultStepCount
      ensures View() == Apply(old(View()), StepCountSet(newStepCount))
    {
      stepCount := newStepCount.GetOr(DefaultStepCount);
    }

    /** Watcher on `args.radarSkeleton`: a cleared value falls back to the default skeleton. */
    method OnRadarSkeleton(newRadarSkeleton: Option<Skeleton>)
      modifies this`radarSkeleton
      ensures newRadarSkeleton.Some? ==> radarSkeleton == newRadarSkeleton.value
      ensures newRadarSkeleton.None? ==> radarSkeleton == DefaultSkeleton
      ensures View() == Apply(old(View()), RadarSkeletonSet(newRadarSkeleton))
    {
      radarSkeleton := newRadarSkeleton.GetOr(DefaultSkeleton);
    }

    /** The `<select v-model="activeLayer">` write-back: it writes the state,
        not `args`, with the same effect as the active-layer watcher
        receiving the chosen name. */
    method SelectActiveLayer(name: string)
      modifies this`activeLayer
      ensures activeLayer == Some(name)
      ensures View() == Apply(old(View()), ActiveLayerSet(Some(name)))
    {
      activeLayer := Some(name);
    }
  }

  /** The select writes `state` and not `args`: choosing a layer other than
      `args.activeLayer` leaves a state that is no longer the mirror of the
      (unchanged) args, until the next control edit of `activeLayer`. */
  lemma SelectionBreaksMirror(a: Args, name: string)
    requires a.activeLayer != Some(name)
    ensures Apply(Initial(a), ActiveLayerSet(Some(name))) != Initial(a)
  {
  }

  /** The seven categories and three layers of the Default story. */
  const DefaultCategories: seq<Category> := [
    Category("1", "Collaboration", "Description 1"),
    Category("2", "Execution", "Description 2"),
    Category("3", "Autonomy", "Description 3"),
    Category("4", "Quality", "Description 4"),
    Category("5", "Security", "Description 5"),
    Category("6", "Belonging", "Description 6"),
    Category("7", "Pride & Craft", "Description 7")]

  const DefaultLayers: seq<Layer> := [
    Layer("layer1", "#3b82f6", true,
          map["1" := 4, "2" := 5, "3" := 1, "4" := 3, "5" := 3, "6" := 2, "7" := 2]),
    Layer("layer2", "#ef4444", true,
          map["1" := 2, "2" := 3, "3" := 4, "4" := 5, "5" := 2, "6" := 4, "7" := 3]),
    Layer("layer3", "#10b981", false,
          map["1" := 5, "2" := 4, "3" := 2, "4" := 3, "5" := 4, "6" := 5, "7" := 1])]

  /** The skeleton every story passes explicitly. */
  const StorySkeleton: Skeleton := Skeleton(1.0, "#dfdfdf", 1.0)

  /** The ids of a sequence of categories. */
  function CategoryIds(cs: seq<Category>): set<string>
  {
    set c | c in cs :: c.id
  }

  /** What the chart expects of its args, which the bridge itself never
      checks: every field present, the active layer is one of the layers,
      every layer has a value for exactly the known category ids, and the
      alignment and step count are within the story controls' options. */
  predicate WellFormedStoryArgs(a: Args)
  {
    && a.categories.Some? && a.layers.Some? && a.activeLayer.Some?
    && a.alignTo.Some? && a.stepCount.Some? && a.radarSkeleton.Some?
    && (exists i :: 0 <= i < |a.layers.value| && a.layers.value[i].name == a.activeLayer.value)
    && (forall i :: 0 <= i < |a.layers.value| ==>
          a.layers.value[i].categoryValues.Keys == CategoryIds(a.categories.value))
    && a.alignTo.value in {"top", "polarZero"}
    && 2 <= a.stepCount.value <= 20
  }

  /** `Default.args`: its data is well formed. */
  function DefaultStoryArgs(): (a: Args)
    ensures WellFormedStoryArgs(a)
  {
    var ids := CategoryIds(DefaultCategories);
    assert ids == {"1", "2", "3", "4", "5", "6", "7"} by {
      assert forall c | c in DefaultCategories :: c.id in {"1", "2", "3", "4", "5", "6", "7"};
      assert DefaultCategories[0].id == "1" && DefaultCategories[1].id == "2";
      assert DefaultCategories[2].id == "3" && DefaultCategories[3].id == "4";
      assert DefaultCategories[4].id == "5" && DefaultCategories[5].id == "6";
      assert DefaultCategories[6].id == "7";
    }
    assert DefaultLayers[0].name == "layer1";
    Args(Some(DefaultCategories), Some(DefaultLayers), Some("layer1"), Some("top"),
         Some(7), Some(StorySkeleton))
  }

  /** The fallback skeleton is the one the stories pass, so leaving
      `radarSkeleton` out of any args does not change the initial state. */
  lemma StorySkeletonIsFallback(a: Args)
    requires a.radarSkeleton == Some(StorySkeleton)
    ensures Initial(a.(radarSkeleton := None)) == Initial(a)
  {
  }

  /** The Default story with `stepCount` and `radarSkeleton` left out starts
      with 7 steps, the default skeleton and its three layers, exactly as
      the Default story itself does. */
  lemma DefaultStoryWithoutOptionalArgs()
    ensures Initial(DefaultStoryArgs().(stepCount := None, radarSkeleton := None)) == Initial(DefaultStoryArgs())
    ensures Initial(DefaultStoryArgs()).stepCount == 7
    ensures Initial(DefaultStoryArgs()).radarSkeleton == DefaultSkeleton
    ensures Initial(DefaultStoryArgs()).layers.Some? && |Initial(DefaultStoryArgs()).layers.value| == 3
  {
  }

  /** A session of the Default story, from its own args: the step count is
      set to 5 and then cleared, and layer 2 is picked in the select. The
      final state differs from the initial one in the active layer alone. */
  method DefaultStorySession() returns (beforeClear: int, afterClear: int, final: Snapshot)
    ensures beforeClear == 5 && afterClear == DefaultStepCount
    ensures final == Initial(DefaultStoryArgs()).(activeLayer := Some("layer2"))
    ensures final.radarSkeleton == DefaultSkeleton
  {
    var state := new State.Init(DefaultStoryArgs());
    state.OnStepCount(Some(5));
    beforeClear := state.stepCount;
    state.OnStepCount(None);
    afterClear := state.stepCount;
    state.SelectActiveLayer("layer2");
    final := state.View();
  }
}
