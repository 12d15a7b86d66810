# Cartesian subplots of plotly.js, modelled in Dafny

This project models the core of plotly.js's cartesian plot module,
`src/plots/cartesian/index.js`, and three orchestration routines of
`src/plot_api/subroutines.js`. It proves what they guarantee about subplots, layers,
backgrounds, axis lines, matched axis ranges and redraw order.

The cartesian part covers:

- **Subplot topology completion (`finalizeSubplots`).** Every x axis that is in no
  subplot is paired with its anchor, or with `y`. The same happens for y axes. When no
  subplot exists at all, one is built from the lowest-numbered axis keys of the input
  layout.
- **Trace selection (`plot`).** For each subplot, `plot` keeps the requested traces that
  are drawn on it, in calcdata order. A trace that fills to the next one (`tonext`,
  `tonextx`, `tonexty`) pulls in its predecessor on the same subplot.
- **Module layering (`plotOne`).** Each SVG module takes the traces whose plot method is
  its own; those traces then leave the pool. The resulting layer entries are sorted by
  the position of their class in `traceLayerClasses`. Scattergl takes its traces from
  what is left.
- **Backgrounds and axis lines (`style`).**
  - A subplot that is overlaid on another gets no background.
  - A regular subplot whose domain overlaps a lower one gets its own background inside
    its group.
  - Any other regular subplot adds its domain to the lower layer, and gets a
    lower-layer background unless paper and plot share one opaque colour.
  - Three helpers decide whether lines or ticks are drawn and how far an axis line
    extends to meet a crossing axis line.
- **Overlay bookkeeping (`makeSubplotData`).** Every listed subplot learns its main plot.
  Overlays are attached to their main plot. The subplot data lists regular subplots
  before overlays.
- **Removal set (`clean`).** When the new figure no longer needs subplot groups, gl
  scenes, subplot layers, drag layers or clip paths, `clean` removes them. A stale
  overlay also loses its layers inside its main plot.

The `subroutines.js` part covers:

- **The match-group loop of `doAutoRangeAndConstraints`.** The auto-ranged axes of a
  match group share the union of their ranges. A group containing an axis with
  `autorange: false` is left alone.
- **`redrawReglTraces`.** Splom scenes are drawn in trace order. Then comes each
  cartesian and each polar scene once, in the order of first appearance.
- **`doTraceStyle`.** It calls `arraysToCalcdata` and `editStyle` per trace. Only when
  some module has `editStyle` does it clear the gl canvases and redraw the regl traces.

Two kinds of code take two forms:

- **Code that works by mutation.** Here the model is imperative: classes
  (`SubplotLists`, `PlotTable`, `Drawing`, `AxisTable`) whose methods update fields,
  and methods whose loops carry invariants. Each method is proved equal to a
  specification function.
- **Pure code.** Here the model is functions and lemmas. The properties are proved as
  lemmas about those specification functions.

Modelling conventions:

- An axis id is a letter and a numeric suffix, where 0 stands for the bare letter. A
  subplot id `x2y3` is the pair of suffixes.
- Traces are named by their calcdata position.
- Effects on the page are values: sets of subplots that still have a group, drag layer
  or clip path, and sequences of draw events.

## Model

| member | source | states |
|---|---|---|
| Topology.SubplotLists.FinalizeSubplots | src/plots/cartesian/index.js:54-125 | The lists after the pass are `Finalized` of the input layout and the old lists: the x loop, then the y loop, then the default subplot when none exists. |
| Topology.CollectParts | src/plots/cartesian/index.js:64-68 | `allX` / `allY` are exactly the x parts and y parts of every subplot id. |
| Topology.LowestAxes | src/plots/cartesian/index.js:105-122 | Each default axis is no larger than any valid `xaxis*` / `yaxis*` key of its letter in the input layout and is one of those keys, or the bare letter when there is none. |
| Topology.LowestScan | src/plots/cartesian/index.js:106-121 | The scan finds a key iff it starts with one or meets a valid key. What it finds is at most the starting best and every key met, and is the starting best or one of the keys met. |
| Topology.DefaultIsLowest | src/plots/cartesian/index.js:105-122 | With some valid key of a letter, the default suffix is the least such key's suffix. Without one, it is the bare letter. |
| Topology.FinalizeOnlyAppends | src/plots/cartesian/index.js:71-124 | The pass only appends: the old subplot and axis lists are prefixes of the new ones, and the gl2d list is untouched. |
| Topology.LoopsCover | src/plots/cartesian/index.js:71-102 | After the two loops, every listed x axis and every listed y axis is part of some subplot, and if there is still no subplot, both axis lists are empty. |
| Topology.FinalizeCovers | src/plots/cartesian/index.js:54-125 | After the pass there is at least one subplot, and every listed axis is part of some subplot. |
| Topology.FinalizeAnchors | src/plots/cartesian/index.js:71-124 | Each new subplot is one of three: an unpaired listed x axis with its valid anchor (else `y`); an unpaired listed y axis with its valid anchor (else `x`); or, when nothing existed, the default pair. |
| Topology.FinalizeDistinct | src/plots/cartesian/index.js:71-124 | If the subplot and axis lists start without duplicates, they end without duplicates. |
| Topology.FinalizeIdempotent | src/plots/cartesian/index.js:54-125 | Running the pass on its own output changes nothing. |
| Topology.PairXsCreates | src/plots/cartesian/index.js:71-85 | Every subplot the x loop appends pairs a listed x axis that had no subplot with that axis's partner. |
| Topology.PairYsCreates | src/plots/cartesian/index.js:88-102 | Every subplot the y loop appends pairs a listed y axis that had no subplot with that axis's partner. |
| TraceSelection.NextOn | src/plots/cartesian/index.js:167-191 | The first calcdata position at or after `k` on the subplot, or none when there is no such position; everything skipped is on another subplot. |
| TraceSelection.SelectForSubplot | src/plots/cartesian/index.js:158-193 | `cdSubplot` is strictly increasing, holds valid positions only, and holds `j` exactly when trace `j` is on the subplot and is either requested (listed or on a carpet) or pulled in by the next trace there, which is requested and fills to next. |
| TraceSelection.AllTraces | src/plots/cartesian/index.js:146-151 | Without a list, every calcdata position `0..n-1` is requested, in order. |
| TraceSelection.SelectAll | src/plots/cartesian/index.js:146-196 | The requested list is the given one or all positions, and each subplot gets its selection. |
| TraceSelection.SelectionOnSubplot | src/plots/cartesian/index.js:167 | Every selected trace is drawn on the subplot. |
| TraceSelection.PulledInIsAdjacent | src/plots/cartesian/index.js:177-186 | A pulled-in trace is immediately followed in the selection by the trace that pulled it in: the next trace on the same subplot. |
| TraceSelection.AllTracesSelectEverything | src/plots/cartesian/index.js:146-151 | On a full replot, where calcdata positions equal trace indices, every trace on a subplot is selected for it. |
| TraceSelection.SelectionOfRequested | src/plots/cartesian/index.js:167-187 | When no trace fills to next, the selection is exactly the requested traces on the subplot. |
| PlotOne.IndexOf | src/plots/cartesian/index.js:226 | `indexOf` is -1 exactly when the class is absent; otherwise it is the first position holding it. |
| PlotOne.Insert | src/plots/cartesian/index.js:239 | Inserting into a list sorted by index keeps it sorted and adds exactly one entry, as a multiset. |
| PlotOne.SortByIndex | src/plots/cartesian/index.js:239 | The sorted layer list is ordered by index and is a permutation of its input. |
| PlotOne.PlotOne | src/plots/cartesian/index.js:199-273 | The layers are sorted by index and are a permutation of `LayerData`. The zoom-scale parts are the classes of the SVG zoom-scale modules. With scattergl, the gl traces are those with its plot method among the traces no SVG module took. |
| PlotOne.Plot | src/plots/cartesian/index.js:140-197 | Every subplot gets the selection of `plot` and a `plotOne` plan for it. |
| PlotOne.PlotEach | src/plots/cartesian/index.js:153-196 | Each selection gets a plan that is sorted and a permutation of its layer data. |
| PlotOne.PartitionMembers | src/plots/cartesian/index.js:218-222 | The taken part holds exactly the traces with the module's plot method; the rest holds exactly the others. |
| PlotOne.TakenLeft | src/plots/cartesian/index.js:218-222 | Taking one plot method's traces out of the pool leaves every other plot method's share unchanged. |
| PlotOne.TakenNone | src/plots/cartesian/index.js:218-224 | A module whose plot method no trace in the pool uses takes nothing. |
| PlotOne.PoolMembers | src/plots/cartesian/index.js:208-237 | After the module loop, the pool holds exactly the traces whose plot method belongs to no SVG module. |
| PlotOne.TakenFromPool | src/plots/cartesian/index.js:268-273 | Scattergl gets all the subplot's traces with its plot method when no SVG module shares that method, and nothing otherwise. |
| PlotOne.LayerDataFacts | src/plots/cartesian/index.js:208-237 | Each layer holds every trace with its plot method, and at least one, in calcdata order. Its method is an SVG module's. Its index is its class's position in the layer classes. No two layers share a plot method. |
| PlotOne.LayerDataComplete | src/plots/cartesian/index.js:208-237 | Every trace of the subplot is either in some layer or left in the pool. |
| PlotOne.PlanLayers | src/plots/cartesian/index.js:208-239 | The sorted layers of a plan satisfy all of `LayerDataFacts`. |
| PlotOne.PlanComplete | src/plots/cartesian/index.js:208-239 | After sorting, every selected trace is still in a layer or in the pool. |
| Style.OverlappingDomain | src/plots/cartesian/index.js:301-314 | The loop answers true exactly when the domain overlaps some recorded lower domain in both x and y. |
| Style.OverlapIsPositiveArea | src/plots/cartesian/index.js:301-314 | For proper intervals, overlap means the intersection has positive width and positive height. |
| Style.TouchingEdgesDoNotOverlap | src/plots/cartesian/index.js:306-311 | Domains that only share an edge do not overlap. |
| Style.OverlapSymmetric | src/plots/cartesian/index.js:301-314 | Overlap does not depend on which domain is the recorded one. |
| Style.ClassifyBackgrounds | src/plots/cartesian/index.js:373-415 | The loop over `_plots` yields the lower-background ids, the background ids and the lower domains that `Bg` defines. |
| Style.OverlayHasNoBackground | src/plots/cartesian/index.js:388-395 | A subplot with a `mainplot` gets no background of either kind. |
| Style.LowerDomainsDisjoint | src/plots/cartesian/index.js:397-412 | No two recorded lower domains overlap. |
| Style.LowerIdsAreBackgroundIds | src/plots/cartesian/index.js:379-412 | Every lower-background id is also a background id, and there are no lower backgrounds when paper and plot share one opaque colour. |
| Style.BgGrows | src/plots/cartesian/index.js:385-415 | Each step of the loop only appends to the three lists. |
| Style.BgIdsFromOrder | src/plots/cartesian/index.js:385-415 | Every background id is one of the visited subplots. |
| Style.RegularBackground | src/plots/cartesian/index.js:396-412 | A regular subplot gets a background iff it overlaps an earlier lower domain or a background is needed at all, and it gets a lower background iff it does not overlap and one is needed. When it does not overlap, its domain becomes a lower domain. |
| Style.AfterIdUnchanged | src/plots/cartesian/index.js:385-415 | Later subplots never change whether an earlier one got a background. |
| Style.LinesOrTicksPlacement | src/plots/cartesian/index.js:316-319 | Across the subplots of a figure, an axis that does not mirror to all shows its lines or ticks on at most one subplot, its main one. An axis mirroring to all shows them on every subplot once it has any. An axis with neither ticks nor a line shows them nowhere. |
| Style.ShouldShowLineThisSide | src/plots/cartesian/index.js:326-346 | A line shows only if the counter axis has a line and `ax` has a nonzero width. With `mirror` 'all' or 'allticks' it always shows. Otherwise the counter axis must be anchored, and, when it sits on the other side, must mirror. |
| Style.FindCounterAxisLineWidth | src/plots/cartesian/index.js:354-365 | The width is the counter axis's when it shows a line on this side, otherwise the width of the first listed axis that shares its main axis and shows one, otherwise 0. |
| Style.NoWidthNoCounterLine | src/plots/cartesian/index.js:327 | When `ax` has no line width, no crossing axis shows a line on its sides. |
| SubplotData.PlotTable.MakeSubplotData | src/plots/cartesian/index.js:697-757 | The new `_plots` is `Updated`. The data have one entry per id, listing the regular subplots first and then the overlays, each with its layers, its overlaying attributes and its overlays. |
| SubplotData.SplitSubplots | src/plots/cartesian/index.js:703-728 | Every listed subplot has its overlays reset and its `mainplot` set or cleared. The ids are split into regulars and overlays, each in list order. |
| SubplotData.PushOverlays | src/plots/cartesian/index.js:730-735 | Each overlay is appended, in order, to its main plot's overlays. |
| SubplotData.CollectData | src/plots/cartesian/index.js:737-754 | One datum per id, in the given order: the id, both axis layers, both overlaying attributes and the overlay ids. |
| SubplotData.Order | src/plots/cartesian/index.js:738 | Regulars followed by overlays is a permutation of the subplot list. |
| SubplotData.OverlaysAreIn | src/plots/cartesian/index.js:719-727 | A listed subplot is an overlay exactly when its main plot differs from it and exists; the regulars are exactly the others. |
| SubplotData.PartitionSize | src/plots/cartesian/index.js:703-738 | Regulars and overlays together are a permutation of the subplot list. |
| SubplotData.OverlaysOnMembers | src/plots/cartesian/index.js:730-735 | The overlays pushed onto `m` are exactly the overlays whose main plot is `m`. |
| SubplotData.UpdatedPlots | src/plots/cartesian/index.js:703-735 | A listed subplot's `mainplot` is its main plot if it is an overlay, and unset otherwise. Its overlays are exactly the listed overlays whose main plot it is. An unlisted subplot keeps its `mainplot` and its old overlays as a prefix. |
| SubplotData.RegularsFirst | src/plots/cartesian/index.js:737-738 | In the data order, no regular subplot comes after an overlay. |
| SubplotData.NoOverlaysKeepOrder | src/plots/cartesian/index.js:737-738 | Without overlays, the data keep the subplot list's order. |
| Clean.Drawing.Clean | src/plots/cartesian/index.js:600-660 | The drawing after `clean` is `Cleaned` of the old figure, the new figure and the old drawing. |
| Clean.Drawing.RemovePlotGroups | src/plots/cartesian/index.js:610-615 | Every old subplot's group is removed, and nothing else changes. |
| Clean.Drawing.DestroyScenes | src/plots/cartesian/index.js:620-625 | Exactly the old subplots with a scene have it destroyed. |
| Clean.Drawing.PurgeSubplotLayers | src/plots/cartesian/index.js:862-893 | Every subplot group goes, with its drag layer and clip path, and the trace layers of the overlays among them are emptied. |
| Clean.Drawing.RemoveStale | src/plots/cartesian/index.js:651-658 | The layers, drag layers and clip paths of the old cartesian subplots that the new figure lacks are removed. Such a subplot that was an overlay also has its layers inside its main plot removed. |
| Clean.OverlaysAmongStep | src/plots/cartesian/index.js:877-889 | Visiting one more subplot adds exactly its own overlays that are being removed. |
| Clean.StaleRemoved | src/plots/cartesian/index.js:648-659 | Unless cartesian traces are gone, an old cartesian subplot keeps its layer, drag layer and clip path iff the new figure has it. Its layers inside a main plot are removed iff it was an overlay the new figure lacks, or they were already gone. |
| Clean.OthersKept | src/plots/cartesian/index.js:642-659 | A subplot that was not an old cartesian subplot keeps its drag layer and clip path, and its layers inside a main plot. When cartesian traces are gone, it loses its drag layer only if it still had a group. |
| Clean.CartesianGoneLeavesNoGroups | src/plots/cartesian/index.js:642-647 | Without cartesian traces in the new figure, no subplot group remains, the purged groups have no drag layer, and the axis clip paths and constraint groups are gone. |
| Clean.ScenesDestroyed | src/plots/cartesian/index.js:617-625 | A scene is destroyed iff gl traces went away and it belongs to an old subplot. |
| Clean.CleanIdempotent | src/plots/cartesian/index.js:600-660 | Cleaning a second time with the same figures changes nothing. |
| MatchGroups.AxisTable.MatchGroupRanges | src/plot_api/subroutines.js:294-321 | The axes after the group loop are `Matched`: each group in turn either abandoned or given its common range. |
| MatchGroups.AxisTable.SetRanges | src/plot_api/subroutines.js:315-320 | Every member's `range` and `_input.range` become the common range converted by its `l2r`. |
| MatchGroups.ScanGroup | src/plot_api/subroutines.js:299-313 | The scan yields the group's accumulated range, or abandons at the first member with `autorange` false. |
| MatchGroups.Matched | src/plot_api/subroutines.js:294-321 | The set of axes is unchanged. |
| MatchGroups.FalseMemberAbandons | src/plot_api/subroutines.js:301-302 | A member with `autorange` false abandons the group. |
| MatchGroups.AbandonedGroupUnchanged | src/plot_api/subroutines.js:301-302 | Such a group's axes are left exactly as they were. |
| MatchGroups.AccumulatedMembersAutorange | src/plot_api/subroutines.js:299-313 | A group that reaches a range has no member with `autorange` false. |
| MatchGroups.AutorangedGroupAccumulates | src/plot_api/subroutines.js:299-313 | A non-empty group without any `autorange` false reaches a range. |
| MatchGroups.IncreasingUnion | src/plot_api/subroutines.js:303-312 | When all members' linearised ranges increase, the common range is their union: its start is the least start and its end the greatest end, both attained by members. |
| MatchGroups.ReversedUnion | src/plot_api/subroutines.js:303-312 | When all members' linearised ranges are reversed, the common range is their reversed union, with both ends attained. |
| MatchGroups.WriteBackUniform | src/plot_api/subroutines.js:315-320 | After the write-back, every member's range and input range are the common range converted by its `l2r`, and axes outside the group are unchanged. |
| MatchGroups.MergeSelf | src/plot_api/subroutines.js:304-312 | Merging a range with itself gives it back. |
| MatchGroups.MatchGroupIdempotent | src/plot_api/subroutines.js:294-321 | When each member's `r2l` undoes its `l2r`, matching a group twice is the same as matching it once. |
| MatchGroups.SameRangeScan | src/plot_api/subroutines.js:299-313 | Members that already share one linearised range keep that range. |
| MatchGroups.SingleMemberKeepsRange | src/plot_api/subroutines.js:295-321 | The first member seeds the accumulator unchanged. So a group of one autoranged axis keeps its range, in `range` and `_input.range`, when `l2r` undoes `r2l`. |
| MatchGroups.ScanReadsMembers | src/plot_api/subroutines.js:299-313 | The scan of a group depends only on the states of its members. |
| MatchGroups.MatchedUntouched | src/plot_api/subroutines.js:294-321 | An axis in no group keeps its state through the whole pass. |
| MatchGroups.MatchedPerGroup | src/plot_api/subroutines.js:294-321 | For groups that share no axis, the whole pass leaves each member of a group exactly as matching that group alone would. |
| Redraw.RedrawReglTraces | src/plot_api/subroutines.js:234-275 | The draw events are `ReglDraws`: nothing without regl; otherwise the splom grid if only large sploms, splom scenes in trace order, then cartesian and polar scenes. |
| Redraw.ScanFullData | src/plot_api/subroutines.js:251-263 | Splom scenes are drawn in trace order, and the cartesian and polar ids of drawable traces are collected once each, in order of first appearance. |
| Redraw.DrawCartesianScenes | src/plot_api/subroutines.js:265-268 | One scene draw per collected subplot that has a scene, in list order. |
| Redraw.DrawPolarScenes | src/plot_api/subroutines.js:270-273 | One scene draw per collected polar subplot that has a scene, in list order. |
| Redraw.CollectedAreKnown | src/plot_api/subroutines.js:265-273 | Every collected subplot id can be looked up. |
| Seqs.CollectNoDup | src/plot_api/subroutines.js:258-261 | A list built by `pushUnique` never holds a key twice. |
| Seqs.CollectMembers | src/plot_api/subroutines.js:258-261 | A key is collected exactly when some trace carries it. |
| Seqs.CollectFirstAppearance | src/plot_api/subroutines.js:258-261 | Collected keys are in order of first appearance. |
| Redraw.CartesianDrawsOnce | src/plot_api/subroutines.js:265-268 | Over a duplicate-free list, a subplot's scene is drawn iff it is listed and has a scene, and at most once. |
| Redraw.CartesianSceneOnce | src/plot_api/subroutines.js:234-275 | A cartesian scene is drawn at most once. It is drawn iff regl is on, the subplot has a scene, and some visible, non-empty scattergl trace is on it. |
| Redraw.PolarDrawsOnce | src/plot_api/subroutines.js:270-273 | Over a duplicate-free list, a polar subplot's scene is drawn iff it is listed and has a scene, and at most once. |
| Redraw.PolarSceneOnce | src/plot_api/subroutines.js:234-275 | A polar scene is drawn at most once. It is drawn iff regl is on, the polar subplot has a scene, and some visible, non-empty scatterpolargl trace is on it. |
| Redraw.ReglDrawsAreDraws | src/plot_api/subroutines.js:234-275 | The redraw emits only scene and splom-grid draws. |
| Redraw.DoTraceStyle | src/plot_api/subroutines.js:103-138 | The events are `TraceStyleEvents`: the `arraysToCalcdata` calls, then (if any `editStyle`) the edits, a canvas clear and the regl redraw, then `Plots.style` and the legend. |
| Redraw.ScanModules | src/plot_api/subroutines.js:108-122 | Each trace's `arraysToCalcdata` is called in order, and the traces with `editStyle` are recorded. |
| Redraw.CallEditStyles | src/plot_api/subroutines.js:125-128 | One `editStyle` call per recorded trace, in order. |
| Redraw.EditEvents | src/plot_api/subroutines.js:125-128 | One edit event per recorded call, element by element. |
| Redraw.EditCallsExact | src/plot_api/subroutines.js:108-122 | The recorded calls are strictly increasing trace positions, and a trace is recorded iff its module has `editStyle`. |
| Redraw.EditCallsEmpty | src/plot_api/subroutines.js:124 | No call is recorded iff no module has `editStyle`. |
| Redraw.ArraysCallsAreArrays | src/plot_api/subroutines.js:117-118 | The first phase only calls `arraysToCalcdata`. |
| Redraw.ClearOnlyAfterEdits | src/plot_api/subroutines.js:103-138 | The run always ends with `Plots.style` and the legend draw. The canvases are cleared iff some module has `editStyle`. After the clear there is no edit and no second clear, and no regl draw comes before it. Every regl draw has the clear before it, so without `editStyle` there is no clear and no regl redraw. |
| Redraw.StyleSegments | src/plot_api/subroutines.js:108-135 | With edits, the events run in this order: `arraysToCalcdata` calls, edits, the clear, regl draws, then style and legend. |

## Left out

- Everything on the page is modelled only as the sets and events described above: DOM nodes, d3 data joins and `layers.order()`, clip-url attributes, the zoom-scale selections, and `makeSubplotLayer` / `drawFramework`. `toSVG`, `rangePlot` and `transitionAxes` are not modelled.
- The module plot methods, `getModuleCalcData`, `editStyle`, `arraysToCalcdata`, `clearGlCanvases`, `Plots.style` and the legend are called but not modelled. A module's traces are the partition by plot method that `getModuleCalcData` makes; its visibility and `_length` filtering is not modelled.
- Colours and line widths are inputs: `Color.opacity` of both background colours and the width after `Drawing.crispRound`.
- Float behaviour (NaN, infinities, rounding) is not modelled: ranges and domains are reals.
- `Axes.getFromId`, `_mainAxis`, `_anchorAxis` and the `r2l` / `l2r` conversions are given as data and functions. `setScale`, `cleanAxisConstraints`, `doAutoRange` and `enforceAxisConstraints` are not modelled.
- MatchGroups.AxisTable.MatchGroupRanges: requires every member of every group to exist, because the source dereferences the axis it looks up.
- Redraw.RedrawReglTraces: when the figure has regl, requires every looked-up subplot, and every polar layout entry, to exist, since the source dereferences them then. `doTraceStyle` needs this only when some module has `editStyle`. The `_splomScenes[uid]` lookup is assumed to succeed and appears only as a draw event. A polar subplot's `_subplot._scene` is a boolean map.
- `plot`'s `transitionOpts` / `makeOnCompleteCallback`, and `doTraceStyle`'s returned promise, are not modelled.
- The `for (k in _plots)` iteration order is a given sequence in `style`. In `clean` it does not matter, so sets are used.
- Titles are not modelled in `clean`: deleting them depends on `axisIds.listIds` and `id2name`, which are not part of this model.
- `makeSubplotData` stores a `mainplotinfo` back-reference, which is not modelled; only the `mainplot` id is. On the regular-subplot branch the source clears `mainPlotinfo` (different case), so a stale `mainplotinfo` can remain. No modelled code reads it.
- PlotOne.SortByIndex: proves the result sorted and a permutation, not that it is stable. Entries with equal index, such as two classes missing from `traceLayerClasses` (index -1), have no proved relative order, while `Array.prototype.sort` keeps them in insertion order.
- `constants.js` (`traceLayerClasses`, the id patterns) and `alignment.js` (`FROM_BL`) are not part of this model. Layer classes are a parameter, the id pattern is "no suffix or a suffix of at least 2", and `FROM_BL` maps left and bottom to 0, right and top to 1.
- The `.<id>-x` and `.<id>-y` axis layers that `clean` removes with a stale overlay are not tracked apart from its trace group. Both are recorded as that overlay's layers inside its main plot.
