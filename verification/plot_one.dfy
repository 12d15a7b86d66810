/** Module and layer selection for one subplot: `plotOne` in src/plots/cartesian/index.js,
    and `plot`, which runs it on every subplot's selection.

    Walking the registered modules in order, every SVG module takes from the subplot's
    pool of traces those whose module plot method is its own; the taken traces leave
    the pool, so a second module with the same plot method finds nothing. A module that
    took something yields a layer entry, indexed by the position of its layer class in
    `traceLayerClasses`; the entries are then sorted by that index. When the figure has
    scattergl traces, the scattergl module takes its traces from what is left.

    Traces are calcdata positions, and `plotFns[t]` is the identity of the plot method of
    trace `t`'s module. Which traces a module takes is the partition that
    `getModuleCalcData` makes by plot method. */
module PlotOne {
  import opened Seqs
  import opened Layout
  import opened TraceSelection

  /** What `plotOne` reads of an entry of `fullLayout._modules` and of its registry
      categories. An empty `layerName` stands for an absent one. */
  datatype Module = Module(name: string, layerName: string, plotFn: nat, svg: bool, zoomScale: bool)

  /** One entry of `layerData`. */
  datatype LayerDatum = LayerDatum(i: int, className: string, plotFn: nat, cdModule: seq<nat>)

  /** What one call of `plotOne` decides: the sorted layers, the zoom-scale selector parts,
      and the traces handed to the scattergl plot method, if it is called. */
  datatype PlotPlan = PlotPlan(layers: seq<LayerDatum>, zoomScaleParts: seq<string>, glTraces: Option<seq<nat>>)

  /** `_module.layerName || name + 'layer'` */
  function ClassName(m: Module): string
  {
    if m.layerName != "" then m.layerName else m.name + "layer"
  }

  /** `Array.prototype.indexOf`: the first position of `c`, or -1. */
  function IndexOf(classes: seq<string>, c: string): (r: int)
    ensures -1 <= r
    ensures r == -1 <==> c !in classes
    ensures 0 <= r ==> r < |classes| && classes[r] == c && c !in classes[..r]
  {
    if classes == [] then -1
    else if classes[0] == c then 0
    else
      var k := IndexOf(classes[1..], c);
      assert classes == [classes[0]] + classes[1..];
      assert k >= 0 ==> classes[..k + 1] == [classes[0]] + classes[1..][..k];
      if k == -1 then -1 else k + 1
  }

  ghost predicate Within(plotFns: seq<nat>, s: seq<nat>)
  {
    forall p :: 0 <= p < |s| ==> s[p] < |plotFns|
  }

  /** The traces of `s` whose plot method is `f`, in order: the first half of
      `getModuleCalcData(s, f)`. */
  function Taken(plotFns: seq<nat>, s: seq<nat>, f: nat): (r: seq<nat>)
    requires Within(plotFns, s)
    ensures Within(plotFns, r)
  {
    if s == [] then []
    else (if plotFns[s[0]] == f then [s[0]] else []) + Taken(plotFns, s[1..], f)
  }

  /** The other traces of `s`, in order: the second half of `getModuleCalcData(s, f)`. */
  function Left(plotFns: seq<nat>, s: seq<nat>, f: nat): (r: seq<nat>)
    requires Within(plotFns, s)
    ensures Within(plotFns, r)
  {
    if s == [] then []
    else (if plotFns[s[0]] != f then [s[0]] else []) + Left(plotFns, s[1..], f)
  }

  /** The plot methods of the SVG modules among `ms`. */
  function SvgPlotFns(ms: seq<Module>): set<nat>
  {
    set m | m in ms && m.svg :: m.plotFn
  }

  /** The pool after the modules `ms` have taken their traces. */
  function Pool(plotFns: seq<nat>, cdSubplot: seq<nat>, ms: seq<Module>): (r: seq<nat>)
    requires Within(plotFns, cdSubplot)
    ensures Within(plotFns, r)
  {
    if ms == [] then cdSubplot
    else
      var prev := Pool(plotFns, cdSubplot, ms[..|ms| - 1]);
      var m := ms[|ms| - 1];
      if m.svg then Left(plotFns, prev, m.plotFn) else prev
  }

  /** The unsorted `layerData` after the modules `ms`. */
  function LayerData(classes: seq<string>, plotFns: seq<nat>, cdSubplot: seq<nat>, ms: seq<Module>): seq<LayerDatum>
    requires Within(plotFns, cdSubplot)
  {
    if ms == [] then []
    else
      var prefix := ms[..|ms| - 1];
      var prev := LayerData(classes, plotFns, cdSubplot, prefix);
      var m := ms[|ms| - 1];
      var cdModule := Taken(plotFns, Pool(plotFns, cdSubplot, prefix), m.plotFn);
      if m.svg && |cdModule| > 0 then
        prev + [LayerDatum(IndexOf(classes, ClassName(m)), ClassName(m), m.plotFn, cdModule)]
      else prev
  }

  /** The zoom-scale selector parts after the modules `ms`. */
  function ZoomParts(ms: seq<Module>): seq<string>
  {
    if ms == [] then []
    else
      var m := ms[|ms| - 1];
      ZoomParts(ms[..|ms| - 1]) + (if m.svg && m.zoomScale then ["." + ClassName(m)] else [])
  }

  ghost predicate SortedByIndex(s: seq<LayerDatum>)
  {
    forall p, q :: 0 <= p < q < |s| ==> s[p].i <= s[q].i
  }

  /** Every element of `r` has an index of at least `lo` when `r` holds the elements of
      `s` and `x`, and those do. */
  lemma IndexBound(r: seq<LayerDatum>, s: seq<LayerDatum>, x: LayerDatum, lo: int)
    requires multiset(r) == multiset(s) + multiset{x}
    requires x.i >= lo && forall q :: 0 <= q < |s| ==> s[q].i >= lo
    ensures forall k :: 0 <= k < |r| ==> r[k].i >= lo
  {
    forall k | 0 <= k < |r| ensures r[k].i >= lo {
      assert r[k] in multiset(r);
      if r[k] != x {
        assert r[k] in multiset(s);
      }
    }
  }

  /** Insertion of one entry before the first one with an index at least as large. */
  function Insert(x: LayerDatum, s: seq<LayerDatum>): (r: seq<LayerDatum>)
    requires SortedByIndex(s)
    ensures SortedByIndex(r) && multiset(r) == multiset(s) + multiset{x}
  {
    if s == [] || x.i <= s[0].i then
      SortedCons(x, s);
      [x] + s
    else
      assert s == [s[0]] + s[1..];
      var rest := Insert(x, s[1..]);
      IndexBound(rest, s[1..], x, s[0].i);
      SortedCons(s[0], rest);
      [s[0]] + rest
  }

  lemma SortedCons(h: LayerDatum, s: seq<LayerDatum>)
    requires SortedByIndex(s) && forall k :: 0 <= k < |s| ==> h.i <= s[k].i
    ensures SortedByIndex([h] + s)
  {
  }

  /** `layerData.sort(function(a, b) { return a.i - b.i; })` */
  function SortByIndex(s: seq<LayerDatum>): (r: seq<LayerDatum>)
    ensures SortedByIndex(r) && multiset(r) == multiset(s)
  {
    if s == [] then []
    else
      assert s == [s[0]] + s[1..];
      Insert(s[0], SortByIndex(s[1..]))
  }

  /** `plotOne`, as far as it decides which traces each plot method receives. */
  method PlotOne(classes: seq<string>, plotFns: seq<nat>, cdSubplot: seq<nat>, modules: seq<Module>,
                 hasScattergl: bool, scatterglPlotFn: nat) returns (plan: PlotPlan)
    requires Within(plotFns, cdSubplot)
    ensures SortedByIndex(plan.layers)
    ensures multiset(plan.layers) == multiset(LayerData(classes, plotFns, cdSubplot, modules))
    ensures plan.zoomScaleParts == ZoomParts(modules)
    ensures plan.glTraces == if hasScattergl then Some(Taken(plotFns, Pool(plotFns, cdSubplot, modules), scatterglPlotFn)) else None
  {
    var layerData: seq<LayerDatum> := [];
    var zoomScaleQueryParts: seq<string> := [];
    var pool := cdSubplot;
    var i := 0;
    while i < |modules|
      invariant 0 <= i <= |modules|
      invariant pool == Pool(plotFns, cdSubplot, modules[..i])
      invariant layerData == LayerData(classes, plotFns, cdSubplot, modules[..i])
      invariant zoomScaleQueryParts == ZoomParts(modules[..i])
    {
      assert modules[..i + 1][..i] == modules[..i];
      var m := modules[i];
      if m.svg {
        var className := if m.layerName != "" then m.layerName else m.name + "layer";
        var cdModule := Taken(plotFns, pool, m.plotFn);
        pool := Left(plotFns, pool, m.plotFn);
        if |cdModule| > 0 {
          layerData := layerData + [LayerDatum(IndexOf(classes, className), className, m.plotFn, cdModule)];
        }
        if m.zoomScale {
          zoomScaleQueryParts := zoomScaleQueryParts + ["." + className];
        }
      }
      i := i + 1;
    }
    assert modules[..i] == modules;
    var glTraces := None;
    if hasScattergl {
      glTraces := Some(Taken(plotFns, pool, scatterglPlotFn));
    }
    plan := PlotPlan(SortByIndex(layerData), zoomScaleQueryParts, glTraces);
  }

  /** `plan` is what `plotOne` decides for the selection `sel`. */
  ghost predicate IsPlan(classes: seq<string>, plotFns: seq<nat>, sel: seq<nat>, modules: seq<Module>, plan: PlotPlan)
  {
    && Within(plotFns, sel)
    && SortedByIndex(plan.layers)
    && multiset(plan.layers) == multiset(LayerData(classes, plotFns, sel, modules))
  }

  /** `plot`: the selection of every subplot, each handed to `plotOne`. */
  method Plot(cd: seq<CalcTrace>, plotFns: seq<nat>, traces: Option<seq<nat>>, subplots: seq<SubplotId>,
              classes: seq<string>, modules: seq<Module>, hasScattergl: bool, scatterglPlotFn: nat)
    returns (requested: seq<nat>, selections: seq<seq<nat>>, plans: seq<PlotPlan>)
    requires |plotFns| == |cd|
    ensures traces.Some? ==> requested == traces.value
    ensures traces.None? ==> |requested| == |cd| && forall i :: 0 <= i < |cd| ==> requested[i] == i
    ensures |selections| == |plans| == |subplots|
    ensures forall i :: 0 <= i < |subplots| ==>
      IsSelection(cd, requested, subplots[i], selections[i]) &&
      IsPlan(classes, plotFns, selections[i], modules, plans[i])
  {
    requested, selections := SelectAll(cd, traces, subplots);
    forall i | 0 <= i < |selections| ensures Within(plotFns, selections[i]) {
      SelectionWithin(cd, requested, subplots[i], selections[i], plotFns);
    }
    plans := PlotEach(classes, plotFns, selections, modules, hasScattergl, scatterglPlotFn);
  }

  /** The loop of `plot` over the subplots, calling `plotOne` on each selection. */
  method PlotEach(classes: seq<string>, plotFns: seq<nat>, selections: seq<seq<nat>>, modules: seq<Module>,
                  hasScattergl: bool, scatterglPlotFn: nat) returns (plans: seq<PlotPlan>)
    requires forall i :: 0 <= i < |selections| ==> Within(plotFns, selections[i])
    ensures |plans| == |selections|
    ensures forall i :: 0 <= i < |selections| ==> IsPlan(classes, plotFns, selections[i], modules, plans[i])
  {
    plans := [];
    var i := 0;
    while i < |selections|
      invariant 0 <= i <= |selections|
      invariant |plans| == i
      invariant forall k :: 0 <= k < i ==> IsPlan(classes, plotFns, selections[k], modules, plans[k])
    {
      var plan := PlotOne(classes, plotFns, selections[i], modules, hasScattergl, scatterglPlotFn);
      plans := plans + [plan];
      i := i + 1;
    }
  }

  lemma SelectionWithin(cd: seq<CalcTrace>, traces: seq<nat>, sp: SubplotId, r: seq<nat>, plotFns: seq<nat>)
    requires IsSelection(cd, traces, sp, r) && |plotFns| == |cd|
    ensures Within(plotFns, r)
  {
  }

  // ----- what the partition guarantees -----

  /** The two halves of the partition: the traces with plot method `f`, and the others. */
  lemma {:induction false} PartitionMembers(plotFns: seq<nat>, s: seq<nat>, f: nat)
    requires Within(plotFns, s)
    ensures forall t :: t in Taken(plotFns, s, f) <==> t in s && plotFns[t] == f
    ensures forall t :: t in Left(plotFns, s, f) <==> t in s && plotFns[t] != f
  {
    if s != [] {
      PartitionMembers(plotFns, s[1..], f);
      assert s == [s[0]] + s[1..];
    }
  }

  /** Removing the traces of another plot method does not change what `f` takes. */
  lemma {:induction false} TakenLeft(plotFns: seq<nat>, s: seq<nat>, f: nat, g: nat)
    requires Within(plotFns, s) && f != g
    ensures Taken(plotFns, Left(plotFns, s, g), f) == Taken(plotFns, s, f)
  {
    if s != [] {
      TakenLeft(plotFns, s[1..], f, g);
      var rest := Left(plotFns, s[1..], g);
      if plotFns[s[0]] != g {
        var l := [s[0]] + rest;
        assert Left(plotFns, s, g) == l;
        assert l[0] == s[0] && l[1..] == rest;
      } else {
        assert Left(plotFns, s, g) == rest;
      }
    }
  }

  lemma {:induction false} TakenNone(plotFns: seq<nat>, s: seq<nat>, f: nat)
    requires Within(plotFns, s)
    requires forall p :: 0 <= p < |s| ==> plotFns[s[p]] != f
    ensures Taken(plotFns, s, f) == []
  {
    if s != [] {
      TakenNone(plotFns, s[1..], f);
    }
  }

  lemma SvgPlotFnsSnoc(ms: seq<Module>)
    requires ms != []
    ensures var m := ms[|ms| - 1];
      SvgPlotFns(ms) == SvgPlotFns(ms[..|ms| - 1]) + (if m.svg then {m.plotFn} else {})
  {
    assert ms == ms[..|ms| - 1] + [ms[|ms| - 1]];
  }

  /** The pool keeps exactly the traces that no SVG module claims. */
  lemma {:induction false} PoolMembers(plotFns: seq<nat>, cdSubplot: seq<nat>, ms: seq<Module>)
    requires Within(plotFns, cdSubplot)
    ensures forall t :: t in Pool(plotFns, cdSubplot, ms) <==> t in cdSubplot && plotFns[t] !in SvgPlotFns(ms)
  {
    if ms != [] {
      var prefix := ms[..|ms| - 1];
      PoolMembers(plotFns, cdSubplot, prefix);
      PartitionMembers(plotFns, Pool(plotFns, cdSubplot, prefix), ms[|ms| - 1].plotFn);
      SvgPlotFnsSnoc(ms);
    }
  }

  /** What a module finds in the pool: all the subplot's traces with its plot method, in
      their order, unless an earlier SVG module had the same plot method, in which case
      nothing. */
  lemma {:induction false} TakenFromPool(plotFns: seq<nat>, cdSubplot: seq<nat>, ms: seq<Module>, f: nat)
    requires Within(plotFns, cdSubplot)
    ensures f !in SvgPlotFns(ms) ==> Taken(plotFns, Pool(plotFns, cdSubplot, ms), f) == Taken(plotFns, cdSubplot, f)
    ensures f in SvgPlotFns(ms) ==> Taken(plotFns, Pool(plotFns, cdSubplot, ms), f) == []
  {
    if ms != [] {
      var prefix := ms[..|ms| - 1];
      var m := ms[|ms| - 1];
      TakenFromPool(plotFns, cdSubplot, prefix, f);
      SvgPlotFnsSnoc(ms);
      if m.svg && m.plotFn != f {
        TakenLeft(plotFns, Pool(plotFns, cdSubplot, prefix), f, m.plotFn);
      }
    }
    if f in SvgPlotFns(ms) {
      PoolMembers(plotFns, cdSubplot, ms);
      var pool := Pool(plotFns, cdSubplot, ms);
      forall p | 0 <= p < |pool| ensures plotFns[pool[p]] != f {
        assert pool[p] in pool;
      }
      TakenNone(plotFns, pool, f);
    }
  }

  /** Each layer entry holds every trace of the subplot with its plot method, in calcdata
      order, and at least one; its plot method is an SVG module's; its index is the
      position of its class in the layer class list; and no two entries share a plot
      method, so no trace is in two layers. */
  ghost predicate LayersFit(classes: seq<string>, plotFns: seq<nat>, cdSubplot: seq<nat>, ms: seq<Module>, layers: seq<LayerDatum>)
    requires Within(plotFns, cdSubplot)
  {
    && (forall p :: 0 <= p < |layers| ==>
          layers[p].cdModule == Taken(plotFns, cdSubplot, layers[p].plotFn) && |layers[p].cdModule| > 0 &&
          layers[p].plotFn in SvgPlotFns(ms) && layers[p].i == IndexOf(classes, layers[p].className))
    && (forall p, q :: 0 <= p < q < |layers| ==> layers[p].plotFn != layers[q].plotFn)
  }

  /** Each layer entry holds every trace of the subplot with its plot method, in calcdata
      order, and at least one; its index is the position of its class in the layer class
      list; and no two entries share a plot method, so no trace is in two layers. */
  lemma {:induction false} LayerDataFacts(classes: seq<string>, plotFns: seq<nat>, cdSubplot: seq<nat>, ms: seq<Module>)
    requires Within(plotFns, cdSubplot)
    ensures LayersFit(classes, plotFns, cdSubplot, ms, LayerData(classes, plotFns, cdSubplot, ms))
  {
    if ms != [] {
      var prefix := ms[..|ms| - 1];
      var m := ms[|ms| - 1];
      LayerDataFacts(classes, plotFns, cdSubplot, prefix);
      SvgPlotFnsSnoc(ms);
      TakenFromPool(plotFns, cdSubplot, prefix, m.plotFn);
      var prev := LayerData(classes, plotFns, cdSubplot, prefix);
      var layers := LayerData(classes, plotFns, cdSubplot, ms);
      var cdModule := Taken(plotFns, Pool(plotFns, cdSubplot, prefix), m.plotFn);
      if m.svg && |cdModule| > 0 {
        // a module that finds traces has a plot method no earlier SVG module had
        assert m.plotFn !in SvgPlotFns(prefix);
        assert layers == prev + [layers[|prev|]];
        forall p | 0 <= p < |prev| ensures layers[p] == prev[p] && prev[p].plotFn != m.plotFn {
        }
      }
    }
  }

  /** The trace is in one of the layer entries. */
  ghost predicate InSomeLayer(layers: seq<LayerDatum>, t: nat)
  {
    exists p :: 0 <= p < |layers| && t in layers[p].cdModule
  }

  /** Every trace of the subplot either stays in the pool or is in some layer entry. */
  lemma {:induction false} LayerDataComplete(classes: seq<string>, plotFns: seq<nat>, cdSubplot: seq<nat>, ms: seq<Module>, t: nat)
    requires Within(plotFns, cdSubplot) && t in cdSubplot
    ensures t in Pool(plotFns, cdSubplot, ms) || InSomeLayer(LayerData(classes, plotFns, cdSubplot, ms), t)
  {
    if ms != [] {
      var prefix := ms[..|ms| - 1];
      var m := ms[|ms| - 1];
      var prev := LayerData(classes, plotFns, cdSubplot, prefix);
      var layers := LayerData(classes, plotFns, cdSubplot, ms);
      var pool := Pool(plotFns, cdSubplot, prefix);
      LayerDataComplete(classes, plotFns, cdSubplot, prefix, t);
      if InSomeLayer(prev, t) {
        var p :| 0 <= p < |prev| && t in prev[p].cdModule;
        assert layers[p] == prev[p];
      } else if m.svg {
        assert t in pool;
        PartitionMembers(plotFns, pool, m.plotFn);
        if plotFns[t] == m.plotFn {
          assert t in layers[|prev|].cdModule;
        }
      }
    }
  }

  /** The facts about layer entries hold of the sorted list `plotOne` hands on. */
  lemma PlanLayers(classes: seq<string>, plotFns: seq<nat>, sel: seq<nat>, modules: seq<Module>, plan: PlotPlan)
    requires IsPlan(classes, plotFns, sel, modules, plan)
    ensures LayersFit(classes, plotFns, sel, modules, plan.layers) && SortedByIndex(plan.layers)
  {
    var unsorted := LayerData(classes, plotFns, sel, modules);
    LayerDataFacts(classes, plotFns, sel, modules);
    var layers := plan.layers;
    forall p | 0 <= p < |layers|
      ensures layers[p].cdModule == Taken(plotFns, sel, layers[p].plotFn) && |layers[p].cdModule| > 0
      ensures layers[p].plotFn in SvgPlotFns(modules) && layers[p].i == IndexOf(classes, layers[p].className)
    {
      assert layers[p] in multiset(layers);
      var p' :| 0 <= p' < |unsorted| && unsorted[p'] == layers[p];
    }
    PermutationKeepsDistinctFns(unsorted, layers);
  }

  /** Rearranging layer entries whose plot methods are pairwise distinct keeps them
      pairwise distinct. */
  lemma PermutationKeepsDistinctFns(u: seq<LayerDatum>, l: seq<LayerDatum>)
    requires multiset(u) == multiset(l)
    requires forall i, j :: 0 <= i < j < |u| ==> u[i].plotFn != u[j].plotFn
    ensures forall i, j :: 0 <= i < j < |l| ==> l[i].plotFn != l[j].plotFn
  {
    assert NoDup(u) by {
      forall i, j | 0 <= i < j < |u| ensures u[i] != u[j] {
      }
    }
    NoDupMultiplicity(u);
    NoDupMultiplicity(l);
    forall p, q | 0 <= p < q < |l| ensures l[p].plotFn != l[q].plotFn {
      assert l[p] in multiset(l) && l[q] in multiset(l);
      var p' :| 0 <= p' < |u| && u[p'] == l[p];
      var q' :| 0 <= q' < |u| && u[q'] == l[q];
      assert l[p] != l[q];
      if p' < q' {
        assert u[p'].plotFn != u[q'].plotFn;
      } else {
        assert u[q'].plotFn != u[p'].plotFn;
      }
    }
  }

  /** Every trace of the selection is in one of the sorted layers, unless no SVG module
      claims it. */
  lemma PlanComplete(classes: seq<string>, plotFns: seq<nat>, sel: seq<nat>, modules: seq<Module>, plan: PlotPlan, t: nat)
    requires IsPlan(classes, plotFns, sel, modules, plan) && t in sel
    ensures t in Pool(plotFns, sel, modules) || InSomeLayer(plan.layers, t)
  {
    var unsorted := LayerData(classes, plotFns, sel, modules);
    LayerDataComplete(classes, plotFns, sel, modules, t);
    if InSomeLayer(unsorted, t) {
      var p :| 0 <= p < |unsorted| && t in unsorted[p].cdModule;
      assert unsorted[p] in multiset(plan.layers);
      var q :| 0 <= q < |plan.layers| && plan.layers[q] == unsorted[p];
    }
  }
}
