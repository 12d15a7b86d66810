/** The WebGL batch redraw and the style pass of src/plot_api/subroutines.js:
    `redrawReglTraces` (lines 234-275) and `doTraceStyle` (lines 103-138).

    WebGL-backed traces share one canvas, so after a clear every active scene has to be
    redrawn. `redrawReglTraces` does so: the splom grid when the figure has only large
    sploms, each visible non-empty splom trace's scene in data order, then the scene of
    every subplot that has a visible non-empty `scattergl` trace and of every polar
    subplot with a visible non-empty `scatterpolargl` trace, each subplot once, in order
    of first appearance.

    `doTraceStyle` restyles drawn traces: `arraysToCalcdata` for every trace whose module
    has it, then, only if some module has `editStyle`, every such `editStyle` call in
    calcdata order followed by a canvas clear and the batch redraw; last `Plots.style`
    and the legend.

    The draw calls go to code outside this model; both operations return the calls they
    make, in order, as a list of events. */
module Redraw {
  import opened Seqs
  import opened Layout

  datatype TraceType = Splom | Scattergl | Scatterpolargl | OtherType

  /** What `redrawReglTraces` reads of a `_fullData` trace: `visible === true`,
      `_length` (absent is `None`), `type`, `uid`, its cartesian subplot
      `xaxis + yaxis` and its polar `subplot`. */
  datatype FullTrace = FullTrace(
    visible: bool,
    length: Option<nat>,
    ttype: TraceType,
    uid: nat,
    subplot: SubplotId,
    polar: nat)

  /** A call the two operations make, in the order made. */
  datatype DrawEvent =
    | SplomGridDraw
    | SplomSceneDraw(uid: nat)
    | CartesianSceneDraw(sp: SubplotId)
    | PolarSceneDraw(polar: nat)
    | ArraysToCalcdata(trace: nat)
    | EditStyle(trace: nat)
    | ClearGlCanvases
    | PlotsStyle
    | LegendDraw

  /** The figure state `redrawReglTraces` reads besides the data. */
  datatype GlFigure = GlFigure(
    hasRegl: bool,
    onlyLargeSploms: bool,
    plots: map<SubplotId, PlotInfo>,
    polarHasScene: map<nat, bool>)

  /** `trace.visible === true && trace._length !== 0` */
  predicate Drawable(t: FullTrace)
  {
    t.visible && t.length != Some(0)
  }

  function CartesianKey(t: FullTrace): Option<SubplotId>
  {
    if Drawable(t) && t.ttype == Scattergl then Some(t.subplot) else None
  }

  function PolarKey(t: FullTrace): Option<nat>
  {
    if Drawable(t) && t.ttype == Scatterpolargl then Some(t.polar) else None
  }

  /** The splom scenes drawn by the loop over `_fullData`, in data order. */
  function SplomDraws(data: seq<FullTrace>): seq<DrawEvent>
  {
    if data == [] then []
    else
      var t := data[|data| - 1];
      SplomDraws(data[..|data| - 1]) + (if Drawable(t) && t.ttype == Splom then [SplomSceneDraw(t.uid)] else [])
  }

  ghost predicate CanLookUp(fig: GlFigure, data: seq<FullTrace>)
  {
    && (forall i :: 0 <= i < |data| && CartesianKey(data[i]).Some? ==> data[i].subplot in fig.plots)
    && (forall i :: 0 <= i < |data| && PolarKey(data[i]).Some? ==> data[i].polar in fig.polarHasScene)
  }

  /** `if(sp._scene) sp._scene.draw()` over the collected cartesian ids. */
  function CartesianDraws(ids: seq<SubplotId>, plots: map<SubplotId, PlotInfo>): seq<DrawEvent>
    requires forall id :: id in ids ==> id in plots
  {
    if ids == [] then []
    else
      var id := ids[|ids| - 1];
      CartesianDraws(ids[..|ids| - 1], plots) + (if plots[id].hasScene then [CartesianSceneDraw(id)] else [])
  }

  /** The same over the collected polar ids. */
  function PolarDraws(ids: seq<nat>, hasScene: map<nat, bool>): seq<DrawEvent>
    requires forall id :: id in ids ==> id in hasScene
  {
    if ids == [] then []
    else
      var id := ids[|ids| - 1];
      PolarDraws(ids[..|ids| - 1], hasScene) + (if hasScene[id] then [PolarSceneDraw(id)] else [])
  }

  /** Everything `redrawReglTraces` draws, in order. */
  function ReglDraws(fig: GlFigure, data: seq<FullTrace>): seq<DrawEvent>
    requires fig.hasRegl ==> CanLookUp(fig, data)
  {
    if !fig.hasRegl then []
    else
      CollectedAreKnown(fig, data);
      (if fig.onlyLargeSploms then [SplomGridDraw] else []) + SplomDraws(data)
      + CartesianDraws(Collect(data, CartesianKey), fig.plots)
      + PolarDraws(Collect(data, PolarKey), fig.polarHasScene)
  }

  lemma CollectedAreKnown(fig: GlFigure, data: seq<FullTrace>)
    requires CanLookUp(fig, data)
    ensures forall id :: id in Collect(data, CartesianKey) ==> id in fig.plots
    ensures forall id :: id in Collect(data, PolarKey) ==> id in fig.polarHasScene
  {
    forall id | id in Collect(data, CartesianKey) ensures id in fig.plots {
      CollectMembers(data, CartesianKey, id);
    }
    forall id | id in Collect(data, PolarKey) ensures id in fig.polarHasScene {
      CollectMembers(data, PolarKey, id);
    }
  }

  /** `redrawReglTraces(gd)` */
  method RedrawReglTraces(fig: GlFigure, data: seq<FullTrace>) returns (events: seq<DrawEvent>)
    requires fig.hasRegl ==> CanLookUp(fig, data)
    ensures events == ReglDraws(fig, data)
  {
    events := [];
    if !fig.hasRegl {
      return;
    }
    if fig.onlyLargeSploms {
      events := events + [SplomGridDraw];
    }
    var splomDraws, cartesianIds, polarIds := ScanFullData(data);
    CollectedAreKnown(fig, data);
    var cartesianDraws := DrawCartesianScenes(cartesianIds, fig.plots);
    var polarDraws := DrawPolarScenes(polarIds, fig.polarHasScene);
    events := events + splomDraws + cartesianDraws + polarDraws;
  }

  /** The loop over `_fullData` (lines 251-263): splom scenes drawn on the way, the
      cartesian and polar subplot ids gathered with `pushUnique`. */
  method ScanFullData(data: seq<FullTrace>) returns (splomDraws: seq<DrawEvent>, cartesianIds: seq<SubplotId>, polarIds: seq<nat>)
    ensures splomDraws == SplomDraws(data)
    ensures cartesianIds == Collect(data, CartesianKey) && polarIds == Collect(data, PolarKey)
  {
    splomDraws, cartesianIds, polarIds := [], [], [];
    var i := 0;
    while i < |data|
      invariant 0 <= i <= |data|
      invariant splomDraws == SplomDraws(data[..i])
      invariant cartesianIds == Collect(data[..i], CartesianKey)
      invariant polarIds == Collect(data[..i], PolarKey)
    {
      assert data[..i + 1][..i] == data[..i];
      var trace := data[i];
      if trace.visible && trace.length != Some(0) {
        if trace.ttype == Splom {
          splomDraws := splomDraws + [SplomSceneDraw(trace.uid)];
        } else if trace.ttype == Scattergl {
          cartesianIds := PushUnique(cartesianIds, trace.subplot);
        } else if trace.ttype == Scatterpolargl {
          polarIds := PushUnique(polarIds, trace.polar);
        }
      }
      i := i + 1;
    }
    assert data[..i] == data;
  }

  /** Lines 265-268. */
  method DrawCartesianScenes(ids: seq<SubplotId>, plots: map<SubplotId, PlotInfo>) returns (events: seq<DrawEvent>)
    requires forall id :: id in ids ==> id in plots
    ensures events == CartesianDraws(ids, plots)
  {
    events := [];
    var i := 0;
    while i < |ids|
      invariant 0 <= i <= |ids|
      invariant events == CartesianDraws(ids[..i], plots)
    {
      assert ids[..i + 1][..i] == ids[..i];
      assert ids[i] in ids;
      if plots[ids[i]].hasScene {
        events := events + [CartesianSceneDraw(ids[i])];
      }
      i := i + 1;
    }
    assert ids[..i] == ids;
  }

  /** Lines 270-273. */
  method DrawPolarScenes(ids: seq<nat>, hasScene: map<nat, bool>) returns (events: seq<DrawEvent>)
    requires forall id :: id in ids ==> id in hasScene
    ensures events == PolarDraws(ids, hasScene)
  {
    events := [];
    var i := 0;
    while i < |ids|
      invariant 0 <= i <= |ids|
      invariant events == PolarDraws(ids[..i], hasScene)
    {
      assert ids[..i + 1][..i] == ids[..i];
      assert ids[i] in ids;
      if hasScene[ids[i]] {
        events := events + [PolarSceneDraw(ids[i])];
      }
      i := i + 1;
    }
    assert ids[..i] == ids;
  }

  // ----- doTraceStyle -----

  /** What `doTraceStyle` reads of `cd[0].trace._module` (a missing module reads as
      having neither method). */
  datatype StyleModule = StyleModule(hasArraysToCalcdata: bool, hasEditStyle: bool)

  /** The `arraysToCalcdata` calls, in calcdata order. */
  function ArraysCalls(modules: seq<StyleModule>): seq<DrawEvent>
  {
    if modules == [] then []
    else
      var i := |modules| - 1;
      ArraysCalls(modules[..i]) + (if modules[i].hasArraysToCalcdata then [ArraysToCalcdata(i)] else [])
  }

  /** `editStyleCalls`: the calcdata positions whose module has `editStyle`. */
  function EditCalls(modules: seq<StyleModule>): seq<nat>
  {
    if modules == [] then []
    else
      var i := |modules| - 1;
      EditCalls(modules[..i]) + (if modules[i].hasEditStyle then [i] else [])
  }

  function EditEvents(calls: seq<nat>): (r: seq<DrawEvent>)
    ensures |r| == |calls| && forall k :: 0 <= k < |calls| ==> r[k] == EditStyle(calls[k])
  {
    if calls == [] then [] else EditEvents(calls[..|calls| - 1]) + [EditStyle(calls[|calls| - 1])]
  }

  /** Everything `doTraceStyle` calls, in order. */
  function TraceStyleEvents(modules: seq<StyleModule>, fig: GlFigure, data: seq<FullTrace>): seq<DrawEvent>
    requires EditCalls(modules) != [] && fig.hasRegl ==> CanLookUp(fig, data)
  {
    var calls := EditCalls(modules);
    ArraysCalls(modules)
    + (if calls != [] then EditEvents(calls) + [ClearGlCanvases] + ReglDraws(fig, data) else [])
    + [PlotsStyle, LegendDraw]
  }

  /** `doTraceStyle(gd)` */
  method DoTraceStyle(modules: seq<StyleModule>, fig: GlFigure, data: seq<FullTrace>) returns (events: seq<DrawEvent>)
    requires EditCalls(modules) != [] && fig.hasRegl ==> CanLookUp(fig, data)
    ensures events == TraceStyleEvents(modules, fig, data)
  {
    var editStyleCalls;
    events, editStyleCalls := ScanModules(modules);
    if |editStyleCalls| > 0 {
      var edits := CallEditStyles(editStyleCalls);
      var redraw := RedrawReglTraces(fig, data);
      events := events + edits + [ClearGlCanvases] + redraw;
    }
    events := events + [PlotsStyle, LegendDraw];
  }

  /** The loop over the calcdata (lines 108-122). */
  method ScanModules(modules: seq<StyleModule>) returns (events: seq<DrawEvent>, editStyleCalls: seq<nat>)
    ensures events == ArraysCalls(modules) && editStyleCalls == EditCalls(modules)
  {
    events, editStyleCalls := [], [];
    var i := 0;
    while i < |modules|
      invariant 0 <= i <= |modules|
      invariant events == ArraysCalls(modules[..i])
      invariant editStyleCalls == EditCalls(modules[..i])
    {
      assert modules[..i + 1][..i] == modules[..i];
      if modules[i].hasArraysToCalcdata {
        events := events + [ArraysToCalcdata(i)];
      }
      if modules[i].hasEditStyle {
        editStyleCalls := editStyleCalls + [i];
      }
      i := i + 1;
    }
    assert modules[..i] == modules;
  }

  /** Lines 125-128. */
  method CallEditStyles(calls: seq<nat>) returns (events: seq<DrawEvent>)
    ensures events == EditEvents(calls)
  {
    events := [];
    var i := 0;
    while i < |calls|
      invariant 0 <= i <= |calls|
      invariant events == EditEvents(calls[..i])
    {
      assert calls[..i + 1][..i] == calls[..i];
      events := events + [EditStyle(calls[i])];
      i := i + 1;
    }
    assert calls[..i] == calls;
  }

  // ----- properties -----

  /** `editStyle` is called for exactly the traces whose module has it, each once, in
      calcdata order. */
  lemma {:induction false} EditCallsExact(modules: seq<StyleModule>)
    ensures StrictlyIncreasing(EditCalls(modules))
    ensures forall k :: 0 <= k < |EditCalls(modules)| ==> EditCalls(modules)[k] < |modules|
    ensures forall i :: 0 <= i < |modules| ==> (i in EditCalls(modules) <==> modules[i].hasEditStyle)
  {
    if modules != [] {
      var n := |modules| - 1;
      EditCallsExact(modules[..n]);
      var c0, c := EditCalls(modules[..n]), EditCalls(modules);
      assert c == c0 + (if modules[n].hasEditStyle then [n] else []);
      assert forall k :: 0 <= k < |c0| ==> c[k] == c0[k] && c0[k] < n;
      assert n !in c0;
      forall i | 0 <= i < |modules| ensures i in c <==> modules[i].hasEditStyle {
        if i < n {
          assert modules[..n][i] == modules[i];
          assert i in c <==> i in c0;
        }
      }
    }
  }

  /** No trace with `editStyle`, no call of it. */
  lemma {:induction false} EditCallsEmpty(modules: seq<StyleModule>)
    ensures EditCalls(modules) == [] <==> forall i :: 0 <= i < |modules| ==> !modules[i].hasEditStyle
  {
    EditCallsExact(modules);
    if EditCalls(modules) != [] {
      assert EditCalls(modules)[0] in EditCalls(modules);
    }
  }

  predicate IsReglDraw(e: DrawEvent)
  {
    e.SplomGridDraw? || e.SplomSceneDraw? || e.CartesianSceneDraw? || e.PolarSceneDraw?
  }

  lemma {:induction false} ReglDrawsAreDraws(fig: GlFigure, data: seq<FullTrace>)
    requires fig.hasRegl ==> CanLookUp(fig, data)
    ensures forall k :: 0 <= k < |ReglDraws(fig, data)| ==> IsReglDraw(ReglDraws(fig, data)[k])
  {
    if fig.hasRegl {
      CollectedAreKnown(fig, data);
      SplomDrawsAreDraws(data);
      CartesianDrawsAreDraws(Collect(data, CartesianKey), fig.plots);
      PolarDrawsAreDraws(Collect(data, PolarKey), fig.polarHasScene);
    }
  }

  lemma {:induction false} SplomDrawsAreDraws(data: seq<FullTrace>)
    ensures forall k :: 0 <= k < |SplomDraws(data)| ==> SplomDraws(data)[k].SplomSceneDraw?
  {
    if data != [] {
      SplomDrawsAreDraws(data[..|data| - 1]);
    }
  }

  lemma {:induction false} CartesianDrawsAreDraws(ids: seq<SubplotId>, plots: map<SubplotId, PlotInfo>)
    requires forall id :: id in ids ==> id in plots
    ensures forall k :: 0 <= k < |CartesianDraws(ids, plots)| ==> CartesianDraws(ids, plots)[k].CartesianSceneDraw?
  {
    if ids != [] {
      CartesianDrawsAreDraws(ids[..|ids| - 1], plots);
    }
  }

  lemma {:induction false} PolarDrawsAreDraws(ids: seq<nat>, hasScene: map<nat, bool>)
    requires forall id :: id in ids ==> id in hasScene
    ensures forall k :: 0 <= k < |PolarDraws(ids, hasScene)| ==> PolarDraws(ids, hasScene)[k].PolarSceneDraw?
  {
    if ids != [] {
      PolarDrawsAreDraws(ids[..|ids| - 1], hasScene);
    }
  }

  lemma {:induction false} ArraysCallsAreArrays(modules: seq<StyleModule>)
    ensures forall k :: 0 <= k < |ArraysCalls(modules)| ==> ArraysCalls(modules)[k].ArraysToCalcdata?
  {
    if modules != [] {
      ArraysCallsAreArrays(modules[..|modules| - 1]);
    }
  }

  /** The style pass clears the GL canvases exactly when some trace's module has
      `editStyle`; it clears them at most once, after every `editStyle` call and before
      every GL scene is drawn, and no GL scene is drawn without the clear; `Plots.style`
      and the legend come last. */
  lemma ClearOnlyAfterEdits(modules: seq<StyleModule>, fig: GlFigure, data: seq<FullTrace>)
    requires EditCalls(modules) != [] && fig.hasRegl ==> CanLookUp(fig, data)
    ensures |TraceStyleEvents(modules, fig, data)| >= 2
    ensures TraceStyleEvents(modules, fig, data)[|TraceStyleEvents(modules, fig, data)| - 2] == PlotsStyle
    ensures TraceStyleEvents(modules, fig, data)[|TraceStyleEvents(modules, fig, data)| - 1] == LegendDraw
    ensures ClearGlCanvases in TraceStyleEvents(modules, fig, data) <==>
      exists i :: 0 <= i < |modules| && modules[i].hasEditStyle
    ensures forall p, q ::
      (0 <= p < q < |TraceStyleEvents(modules, fig, data)| && TraceStyleEvents(modules, fig, data)[p] == ClearGlCanvases) ==>
      !TraceStyleEvents(modules, fig, data)[q].EditStyle? && TraceStyleEvents(modules, fig, data)[q] != ClearGlCanvases
    ensures forall p, q ::
      (0 <= q < p < |TraceStyleEvents(modules, fig, data)| && TraceStyleEvents(modules, fig, data)[p] == ClearGlCanvases) ==>
      !IsReglDraw(TraceStyleEvents(modules, fig, data)[q])
    ensures forall q :: 0 <= q < |TraceStyleEvents(modules, fig, data)| && IsReglDraw(TraceStyleEvents(modules, fig, data)[q]) ==>
      exists p :: 0 <= p < q && TraceStyleEvents(modules, fig, data)[p] == ClearGlCanvases
    ensures (forall i :: 0 <= i < |modules| ==> !modules[i].hasEditStyle) ==>
      forall q :: 0 <= q < |TraceStyleEvents(modules, fig, data)| ==> !IsReglDraw(TraceStyleEvents(modules, fig, data)[q])
  {
    EditCallsEmpty(modules);
    var ev := TraceStyleEvents(modules, fig, data);
    if EditCalls(modules) != [] {
      StyleSegments(modules, fig, data);
      ClearBetweenSegments(ev, ClearAt(modules));
      assert ClearGlCanvases in ev;
      forall q | 0 <= q < |ev| && IsReglDraw(ev[q])
        ensures exists p :: 0 <= p < q && ev[p] == ClearGlCanvases
      {
        assert ev[ClearAt(modules)] == ClearGlCanvases;
      }
    } else {
      var a := ArraysCalls(modules);
      ArraysCallsAreArrays(modules);
      assert ev == a + [PlotsStyle, LegendDraw];
      forall p | 0 <= p < |ev|
        ensures ev[p].ArraysToCalcdata? || ev[p] == PlotsStyle || ev[p] == LegendDraw
      {
        if p < |a| {
          assert ev[p] == a[p];
        }
      }
      assert ClearGlCanvases !in ev;
    }
  }

  /** In a run of events with one canvas clear at `c`, only calls before it and only
      draws after it, nothing edits or clears after the clear and nothing is drawn
      before it. */
  lemma ClearBetweenSegments(ev: seq<DrawEvent>, c: nat)
    requires c < |ev| && ev[c] == ClearGlCanvases
    requires forall p :: 0 <= p < c ==> ev[p].ArraysToCalcdata? || ev[p].EditStyle?
    requires forall p :: c < p < |ev| ==> IsReglDraw(ev[p]) || ev[p] == PlotsStyle || ev[p] == LegendDraw
    ensures forall p, q :: (0 <= p < q < |ev| && ev[p] == ClearGlCanvases) ==> !ev[q].EditStyle? && ev[q] != ClearGlCanvases
    ensures forall p, q :: (0 <= q < p < |ev| && ev[p] == ClearGlCanvases) ==> !IsReglDraw(ev[q])
    ensures forall q :: 0 <= q < |ev| && IsReglDraw(ev[q]) ==> c < q
  {
    forall p | 0 <= p < |ev| && ev[p] == ClearGlCanvases ensures p == c {
    }
  }

  /** Where the canvas clear sits when there are `editStyle` calls. */
  function ClearAt(modules: seq<StyleModule>): nat
  {
    |ArraysCalls(modules)| + |EditCalls(modules)|
  }

  /** With `editStyle` calls, the style pass is: the `arraysToCalcdata` and `editStyle`
      calls, one canvas clear at `ClearAt`, the GL draws, `Plots.style` and the legend. */
  lemma StyleSegments(modules: seq<StyleModule>, fig: GlFigure, data: seq<FullTrace>)
    requires EditCalls(modules) != [] && (fig.hasRegl ==> CanLookUp(fig, data))
    ensures |TraceStyleEvents(modules, fig, data)| >= 2 + ClearAt(modules) + 1
    ensures TraceStyleEvents(modules, fig, data)[ClearAt(modules)] == ClearGlCanvases
    ensures TraceStyleEvents(modules, fig, data)[|TraceStyleEvents(modules, fig, data)| - 2] == PlotsStyle
    ensures TraceStyleEvents(modules, fig, data)[|TraceStyleEvents(modules, fig, data)| - 1] == LegendDraw
    ensures forall p :: 0 <= p < ClearAt(modules) ==>
      TraceStyleEvents(modules, fig, data)[p].ArraysToCalcdata? || TraceStyleEvents(modules, fig, data)[p].EditStyle?
    ensures forall p :: ClearAt(modules) < p < |TraceStyleEvents(modules, fig, data)| ==>
      IsReglDraw(TraceStyleEvents(modules, fig, data)[p]) || TraceStyleEvents(modules, fig, data)[p] == PlotsStyle ||
      TraceStyleEvents(modules, fig, data)[p] == LegendDraw
  {
    var ev := TraceStyleEvents(modules, fig, data);
    var a := ArraysCalls(modules);
    var e := EditEvents(EditCalls(modules));
    var r := ReglDraws(fig, data);
    ArraysCallsAreArrays(modules);
    ReglDrawsAreDraws(fig, data);
    assert ev == a + e + [ClearGlCanvases] + r + [PlotsStyle, LegendDraw];
    var c := |a| + |e|;
    forall p | 0 <= p < |ev|
      ensures p < |a| ==> ev[p].ArraysToCalcdata?
      ensures |a| <= p < c ==> ev[p].EditStyle?
      ensures c < p < c + 1 + |r| ==> IsReglDraw(ev[p])
      ensures c + 1 + |r| <= p ==> ev[p] == PlotsStyle || ev[p] == LegendDraw
    {
      if p < |a| {
        assert ev[p] == a[p];
      } else if p < c {
        assert ev[p] == e[p - |a|];
      } else if c < p < c + 1 + |r| {
        assert ev[p] == r[p - c - 1];
      }
    }
  }

  /** The cartesian scene of a subplot is drawn at most once, and drawn exactly when regl
      is present, the subplot has a scene and a visible non-empty `scattergl` trace is
      on it. */
  lemma CartesianSceneOnce(fig: GlFigure, data: seq<FullTrace>, sp: SubplotId)
    requires fig.hasRegl ==> CanLookUp(fig, data)
    ensures AtMostOnce(ReglDraws(fig, data), CartesianSceneDraw(sp))
    ensures CartesianSceneDraw(sp) in ReglDraws(fig, data) <==>
      fig.hasRegl && sp in fig.plots && fig.plots[sp].hasScene &&
      exists i :: 0 <= i < |data| && Drawable(data[i]) && data[i].ttype == Scattergl && data[i].subplot == sp
  {
    if fig.hasRegl {
      CollectedAreKnown(fig, data);
      var ids := Collect(data, CartesianKey);
      CollectNoDup(data, CartesianKey);
      CollectMembers(data, CartesianKey, sp);
      CartesianDrawsOnce(ids, fig.plots, sp);
      var g := (if fig.onlyLargeSploms then [SplomGridDraw] else []) + SplomDraws(data);
      var pd := PolarDraws(Collect(data, PolarKey), fig.polarHasScene);
      SplomDrawsAreDraws(data);
      PolarDrawsAreDraws(Collect(data, PolarKey), fig.polarHasScene);
      assert CartesianSceneDraw(sp) !in g;
      assert CartesianSceneDraw(sp) !in pd;
      OnlyInMiddle(g, CartesianDraws(ids, fig.plots), pd, CartesianSceneDraw(sp));
    }
  }

  /** The polar scene of a subplot is drawn at most once, and drawn exactly when regl is
      present, the polar subplot has a scene and a visible non-empty `scatterpolargl`
      trace is on it. */
  lemma PolarSceneOnce(fig: GlFigure, data: seq<FullTrace>, polar: nat)
    requires fig.hasRegl ==> CanLookUp(fig, data)
    ensures AtMostOnce(ReglDraws(fig, data), PolarSceneDraw(polar))
    ensures PolarSceneDraw(polar) in ReglDraws(fig, data) <==>
      fig.hasRegl && polar in fig.polarHasScene && fig.polarHasScene[polar] &&
      exists i :: 0 <= i < |data| && Drawable(data[i]) && data[i].ttype == Scatterpolargl && data[i].polar == polar
  {
    if fig.hasRegl {
      CollectedAreKnown(fig, data);
      var ids := Collect(data, PolarKey);
      CollectNoDup(data, PolarKey);
      CollectMembers(data, PolarKey, polar);
      PolarDrawsOnce(ids, fig.polarHasScene, polar);
      var cd := CartesianDraws(Collect(data, CartesianKey), fig.plots);
      var g := (if fig.onlyLargeSploms then [SplomGridDraw] else []) + SplomDraws(data) + cd;
      SplomDrawsAreDraws(data);
      CartesianDrawsAreDraws(Collect(data, CartesianKey), fig.plots);
      assert PolarSceneDraw(polar) !in g;
      assert ReglDraws(fig, data) == g + PolarDraws(ids, fig.polarHasScene) + [];
      OnlyInMiddle(g, PolarDraws(ids, fig.polarHasScene), [], PolarSceneDraw(polar));
    }
  }

  /** `x` occurs at most once in `s`. */
  ghost predicate AtMostOnce<T>(s: seq<T>, x: T)
  {
    forall p, q :: 0 <= p < q < |s| && s[p] == x ==> s[q] != x
  }

  /** An element found only in the middle part of a concatenation occurs as often there
      as in the whole. */
  lemma OnlyInMiddle<T>(g: seq<T>, c: seq<T>, pd: seq<T>, x: T)
    requires x !in g && x !in pd
    ensures x in g + c + pd <==> x in c
    ensures AtMostOnce(c, x) ==> AtMostOnce(g + c + pd, x)
  {
    var ev := g + c + pd;
    forall k | 0 <= k < |ev|
      ensures k < |g| ==> ev[k] != x
      ensures |g| <= k < |g| + |c| ==> ev[k] == c[k - |g|]
      ensures |g| + |c| <= k ==> ev[k] != x
    {
      if k < |g| {
        assert ev[k] == g[k];
      } else if k >= |g| + |c| {
        assert ev[k] == pd[k - |g| - |c|];
      }
    }
    if x in c {
      var k :| 0 <= k < |c| && c[k] == x;
      assert ev[|g| + k] == c[k];
    }
  }

  /** Over a duplicate-free id list, each subplot's scene is drawn at most once, and
      exactly when listed with a scene. */
  lemma {:induction false} CartesianDrawsOnce(ids: seq<SubplotId>, plots: map<SubplotId, PlotInfo>, sp: SubplotId)
    requires forall id :: id in ids ==> id in plots
    requires NoDup(ids)
    ensures CartesianSceneDraw(sp) in CartesianDraws(ids, plots) <==> sp in ids && plots[sp].hasScene
    ensures AtMostOnce(CartesianDraws(ids, plots), CartesianSceneDraw(sp))
  {
    if ids != [] {
      var pre := ids[..|ids| - 1];
      var last := ids[|ids| - 1];
      assert ids == pre + [last];
      CartesianDrawsOnce(pre, plots, sp);
      if last == sp {
        assert sp !in pre;
      }
    }
  }

  /** Over a duplicate-free id list, each polar subplot's scene is drawn at most once, and
      exactly when listed with a scene. */
  lemma {:induction false} PolarDrawsOnce(ids: seq<nat>, hasScene: map<nat, bool>, polar: nat)
    requires forall id :: id in ids ==> id in hasScene
    requires NoDup(ids)
    ensures PolarSceneDraw(polar) in PolarDraws(ids, hasScene) <==> polar in ids && hasScene[polar]
    ensures AtMostOnce(PolarDraws(ids, hasScene), PolarSceneDraw(polar))
  {
    if ids != [] {
      var pre := ids[..|ids| - 1];
      var last := ids[|ids| - 1];
      assert ids == pre + [last];
      PolarDrawsOnce(pre, hasScene, polar);
      if last == polar {
        assert polar !in pre;
      }
    }
  }
}
