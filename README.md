# Storybook RadarChart args bridge and component generator: a Dafny model

This repository is a Vue component library with Storybook stories and a Plop
generator for new components. Two pieces of it contain logic; this project
models both.

- **The RadarChart args-to-state bridge** (`RadarChart.stories.ts`). Each of
  the three RadarChart stories has a `setup()` that builds one reactive `state`
  from the Storybook `args`. It falls back to `7` when `stepCount` is missing
  and to the skeleton `{strokeWidth: 1, strokeColor: '#dfdfdf', strokeOpacity: 1}`
  when `radarSkeleton` is missing. It then registers one watcher per field, and
  each watcher overwrites that field of `state`, with the same fallbacks. "Missing"
  means `null` or `undefined` (`??`), so a present `0` is kept. The block is the
  same in all three stories, so it is modelled once. Two stories also have an
  active-layer `<select v-model="activeLayer">` that writes to `state` directly.
  - `radar_chart_stories.dfy`, module `RadarChartStories`: the value view of the
    state (`Snapshot`) and its reducers. `Initial` is the `reactive(...)` call.
    `Apply` is one watcher callback. `ArgsUpdate` is a control editing `args`.
  - The class `State` has the six fields of the reactive object. Its
    constructor `Init` and the methods `OnCategories`, `OnLayers`,
    `OnActiveLayer`, `OnAlignTo`, `OnStepCount`, `OnRadarSkeleton` and
    `SelectActiveLayer` each frame exactly the field they write. Each is
    specified by `Initial`/`Apply` on `View()`.
  - The lemmas cover the rest. The state mirrors `args` through any sequence of
    control edits. The active-layer select writes `state` and not `args`, so
    after a selection of a different layer the mirror no longer holds
    (`SelectionBreaksMirror`). One notification per field restores the mirror from any state.
    Writes are idempotent, and the last write to a field wins. Writes to
    different fields commute. The fallback skeleton is the one the stories pass.
- **The generator's name validator and paths** (`plopfile.js`), in
  `plopfile.dfy`, module `Plopfile`. `Validate` is the `validate` callback, over
  a possibly absent string. It is specified against independent predicates: "all
  characters are ECMAScript whitespace" and "the first character is `A`-`Z`".
  `Trim` is ECMAScript's `trim`, built from `TrimStart` and `TrimEnd`, which are
  characterised in their contracts. The two generated paths are written over
  `pascalCase`, which is passed in as a function and left uninterpreted.
- `wrappers.dfy`, module `Wrappers`: `Option`, with `GetOr` as JavaScript's `??`.

`state` holds the incoming references (`state.categories = newCategories`) and
copies nothing; see "Left out" on aliasing.

## Model

| member | source | states |
|---|---|---|
| `Wrappers.Option.GetOr` | src/components/RadarChart/RadarChart.stories.ts:147 | `??`: a present value is returned as is, even a falsy one; only an absent value becomes the fallback |
| `RadarChartStories.Initial` | src/components/RadarChart/RadarChart.stories.ts:142-153 | categories, layers, activeLayer and alignTo equal the args verbatim, absence included; stepCount is the given value or 7 when absent; radarSkeleton is the given value or `{1, '#dfdfdf', 1}` when absent |
| `RadarChartStories.Apply` | src/components/RadarChart/RadarChart.stories.ts:156-203 | a watcher callback sets its own field to the new value (stepCount and radarSkeleton with the fallbacks) and leaves the other five fields unchanged |
| `RadarChartStories.ArgsUpdate` | src/components/RadarChart/RadarChart.stories.ts:156-203 | editing one field of args and then running its watcher gives the state built fresh from the edited args |
| `RadarChartStories.ReplayKeepsMirror` | src/components/RadarChart/RadarChart.stories.ts:142-203 | after any sequence of control edits, each delivered to its watcher in order, the state equals the state initialised from the current args |
| `RadarChartStories.SyncAllRestoresMirror` | src/components/RadarChart/RadarChart.stories.ts:142-203 | every field has a watcher: one notification per field turns any state into exactly the initial state for the current args |
| `RadarChartStories.LastWriteWins` | src/components/RadarChart/RadarChart.stories.ts:156-203 | two notifications for the same field leave the state as the second one alone does |
| `RadarChartStories.ApplyIdempotent` | src/components/RadarChart/RadarChart.stories.ts:156-203 | the same value sent twice in a row: the second application changes nothing |
| `RadarChartStories.UnchangedValueKeepsMirror` | src/components/RadarChart/RadarChart.stories.ts:142-203 | a notification carrying the value args already holds leaves the mirror of args unchanged |
| `RadarChartStories.DistinctFieldsCommute` | src/components/RadarChart/RadarChart.stories.ts:156-203 | notifications for different fields give the same state in either order |
| `RadarChartStories.ZeroStepCountKept` | src/components/RadarChart/RadarChart.stories.ts:147-189 | a present stepCount of 0 is kept both at initialisation and by the watcher |
| `RadarChartStories.State.Init` | src/components/RadarChart/RadarChart.stories.ts:142-153 | the new state's six fields are those of `Initial(args)` |
| `RadarChartStories.State.OnCategories` | src/components/RadarChart/RadarChart.stories.ts:156-162 | categories becomes the new value verbatim; only that field may change |
| `RadarChartStories.State.OnLayers` | src/components/RadarChart/RadarChart.stories.ts:164-170 | layers becomes the new value verbatim; only that field may change |
| `RadarChartStories.State.OnActiveLayer` | src/components/RadarChart/RadarChart.stories.ts:172-177 | activeLayer becomes the new value verbatim; only that field may change |
| `RadarChartStories.State.OnAlignTo` | src/components/RadarChart/RadarChart.stories.ts:179-184 | alignTo becomes the new value verbatim; only that field may change |
| `RadarChartStories.State.OnStepCount` | src/components/RadarChart/RadarChart.stories.ts:186-191 | stepCount becomes the new value, or 7 when it is cleared; only that field may change |
| `RadarChartStories.State.OnRadarSkeleton` | src/components/RadarChart/RadarChart.stories.ts:193-203 | radarSkeleton becomes the new value, or the default skeleton when it is cleared; only that field may change |
| `RadarChartStories.State.SelectActiveLayer` | src/components/RadarChart/RadarChart.stories.ts:211 | the select writes the chosen name into activeLayer, with the effect of an active-layer notification carrying it; only that field may change |
| `RadarChartStories.SelectionBreaksMirror` | src/components/RadarChart/RadarChart.stories.ts:211 | selecting a layer other than `args.activeLayer` leaves a state that differs from the one initialised from the unchanged args |
| `RadarChartStories.ResentActiveLayerUndoesSelection` | src/components/RadarChart/RadarChart.stories.ts:172-211 | after a selection of another layer, a notification re-sending the unchanged `args.activeLayer` would change the state back to the mirror of args; such a notification stands for no change of args |
| `RadarChartStories.StorySkeletonIsFallback` | src/components/RadarChart/RadarChart.stories.ts:132-152 | the stories' own skeleton equals the fallback, so args with it and args without it give the same initial state |
| `RadarChartStories.DefaultStoryArgs` | src/components/RadarChart/RadarChart.stories.ts:125-137 | `Default.args`, whose data is well formed: every field present, `layer1` is one of the three layers, each layer has a value for exactly the seven category ids, `top` is an `alignTo` option and 7 lies in the control's range 2..20 |
| `RadarChartStories.DefaultStoryWithoutOptionalArgs` | src/components/RadarChart/RadarChart.stories.ts:125-153 | the Default story's args without stepCount and radarSkeleton give the same state as the full args: 7 steps, the default skeleton, three layers |
| `RadarChartStories.DefaultStorySession` | src/components/RadarChart/RadarChart.stories.ts:125-211 | from the Default story's own args, setting stepCount to 5 and then clearing it gives 5 and then 7; after layer2 is selected the final state equals the initial one except that activeLayer is layer2, so the skeleton stays the default and no other field changes |
| `Plopfile.TrimStart` | plopfile.js:10 | the leading part of `trim`: the result is the suffix of the input after its leading whitespace and does not begin with whitespace |
| `Plopfile.TrimEnd` | plopfile.js:10 | the trailing part of `trim`: the result is the prefix of the input before its trailing whitespace and does not end with whitespace |
| `Plopfile.Trim` | plopfile.js:10 | `value.trim()`: the result is the contiguous piece of the value between its leading and its trailing whitespace, and it neither begins nor ends with whitespace |
| `Plopfile.TrimEmptyIffBlank` | plopfile.js:10 | `value.trim() === ''` holds exactly when every character of the value is whitespace |
| `Plopfile.StartsWithUppercase` | plopfile.js:13 | `/^[A-Z]/.test(value)` on the untrimmed value: true when the first character is `A`-`Z`; such a value is never blank |
| `Plopfile.Validate` | plopfile.js:9-17 | "required" exactly for an absent or blank (incl. empty) value; the uppercase message exactly for a non-blank value whose untrimmed first character is not `A`-`Z`; `true` exactly when the first character is `A`-`Z`, whatever follows |
| `Plopfile.ValidateOutcomes` | plopfile.js:9-17 | the result is always `true` or one of the two messages |
| `Plopfile.AcceptedExamples` | plopfile.js:8-16 | "Button" and "UserCard" are accepted |
| `Plopfile.UppercaseExamples` | plopfile.js:13-15 | "button" and " Button" get the uppercase message; the regex tests the untrimmed value |
| `Plopfile.RequiredExamples` | plopfile.js:10-12 | an absent, empty or whitespace-only name gets the "required" message |
| `Plopfile.ComponentFilePath` | plopfile.js:23 | `src/components/P/P.vue` with `P = pascalCase(name)`, `pascalCase` uninterpreted, stated position by position; its properties are `GeneratedPathsShareStem`, `GeneratedPathsNeverCollide` and `GeneratedPathsInjective` |
| `Plopfile.StoryFilePath` | plopfile.js:28 | `src/components/P/P.stories.ts` with `P = pascalCase(name)`, `pascalCase` uninterpreted, stated position by position; its properties are the same three lemmas |
| `Plopfile.GeneratedPathsShareStem` | plopfile.js:23-28 | both paths are `src/components/P/P` followed by `.vue` or `.stories.ts`, with `P = pascalCase(name)` |
| `Plopfile.GeneratedPathsNeverCollide` | plopfile.js:23-28 | the component path of one name never equals the story path of any name |
| `Plopfile.GeneratedPathsInjective` | plopfile.js:23-28 | names with different `pascalCase` get different component paths and different story paths |
| `Plopfile.Generate` | plopfile.js:9-31 | a rejected name yields its message and no files; an accepted one yields the two distinct paths, component first |

## Left out

- Vue's reactivity is not modelled: proxies, `deep: true` traversal, flush timing, and a watcher firing only when the value changes. One notification is one method call, and it stands for a change of the args value. A notification that repeats the value args already holds is harmless only while the field still equals its args value (`UnchangedValueKeepsMirror`). After a selection in the active-layer select, re-sending the unchanged `activeLayer` would reset the field in the model (`ResentActiveLayerUndoesSelection`). Vue never sends it, because its watcher fires only when the value changes.
- `Option` merges `null` and `undefined`. The bridge never tests which one it has, but for categories, layers, activeLayer and alignTo it passes the one it got into `state`, where the rendering component could tell them apart (a Vue prop default applies only to `undefined`). The model does not keep that difference.
- Aliasing is not modelled. The code shares the `args` object graph with `state`, and the value model cannot observe a later mutation through a shared reference.
- Storybook's arg delivery, the story registry (`meta`, `argTypes`, and the `args` of the `ThreeCategoriesOneLayer` and `FourCategoriesEightLayers` stories at lines 262-274 and 469-481) and the templates are left out. They are declarative UI data. Those stories pass the same skeleton, which `StorySkeletonIsFallback` covers for any args.
- The `argTypes` control ranges (stepCount 2..20) and the `alignTo` options are UI hints that the bridge does not enforce. `alignTo` is an unconstrained string.
- RadarChart.vue is not part of this model. The rendering, and what it does with a malformed layer or an unknown active layer, are out of scope.
- JavaScript numbers are not IEEE doubles here. `stepCount` and category values are `int`, and stroke width and opacity are `real`. The bridge only copies them, so nothing depends on floating point.
- `SelectActiveLayer`: the option list of the select is markup, so any name may be chosen.
- `validate` is modelled on an absent value or a string. A non-string truthy value, on which `value.trim()` would throw, is not modelled: the prompt always supplies a string or nothing.
- Strings are sequences of Unicode scalar values, not UTF-16 code units. Every character that `trim` removes and every character that `/^[A-Z]/` matches is in the Basic Multilingual Plane, and an astral character is neither whitespace nor `A`-`Z` in either representation, so the results are the same.
- `pascalCase` is a foreign Handlebars helper and stays uninterpreted. Handlebars HTML-escaping of its output is ignored. Plop's file writing, the `.hbs` templates and the re-prompting on a rejected answer are I/O.
- The `console.log` callbacks of the other component stories are I/O. Those story files are declarative metadata and are not modelled.
