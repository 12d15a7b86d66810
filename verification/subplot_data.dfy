/** The regular/overlay split of `makeSubplotData` in src/plots/cartesian/index.js.

    A subplot whose axes' main axes form another existing subplot is overlaid on that
    one (its `mainplot`); every other subplot is regular. The pass records `mainplot` on
    every listed subplot, rebuilds the `overlays` list of every main plot, and returns one
    datum per subplot: regular subplots first, then overlays, each group in list order.

    `_plots` is a map held by the class `PlotTable`, whose entries the pass updates. */
module SubplotData {
  import opened Seqs
  import opened Layout

  /** One entry of `subplotData`: `[id, xa.layer, ya.layer, xa.overlaying || '',
      ya.overlaying || '', ...overlay ids]`. */
  datatype SubplotDatum = SubplotDatum(
    id: SubplotId,
    xLayer: AxisLayer,
    yLayer: AxisLayer,
    xOverlaying: Option<nat>,
    yOverlaying: Option<nat>,
    overlays: seq<SubplotId>)

  /** `xa._mainAxis._id + ya._mainAxis._id` */
  function MainOf(plots: map<SubplotId, PlotInfo>, id: SubplotId): SubplotId
    requires id in plots
  {
    SubplotId(plots[id].xMain, plots[id].yMain)
  }

  /** `mainplot !== id && mainplotinfo` */
  predicate IsOverlay(plots: map<SubplotId, PlotInfo>, id: SubplotId)
    requires id in plots
  {
    MainOf(plots, id) != id && MainOf(plots, id) in plots
  }

  ghost predicate AllIn(plots: map<SubplotId, PlotInfo>, ids: seq<SubplotId>)
  {
    forall id :: id in ids ==> id in plots
  }

  /** `regulars`: the listed subplots that are not overlays, in list order. */
  function Regulars(plots: map<SubplotId, PlotInfo>, ids: seq<SubplotId>): seq<SubplotId>
    requires AllIn(plots, ids)
  {
    if ids == [] then []
    else
      var last := ids[|ids| - 1];
      Regulars(plots, ids[..|ids| - 1]) + (if IsOverlay(plots, last) then [] else [last])
  }

  /** `overlays`: the listed subplots that are overlays, in list order. */
  function Overlays(plots: map<SubplotId, PlotInfo>, ids: seq<SubplotId>): seq<SubplotId>
    requires AllIn(plots, ids)
  {
    if ids == [] then []
    else
      var last := ids[|ids| - 1];
      Overlays(plots, ids[..|ids| - 1]) + (if IsOverlay(plots, last) then [last] else [])
  }

  /** The overlays among `ovs` whose main plot is `m`, in order. */
  function OverlaysOn(plots: map<SubplotId, PlotInfo>, ovs: seq<SubplotId>, m: SubplotId): seq<SubplotId>
    requires AllIn(plots, ovs)
  {
    if ovs == [] then []
    else
      var last := ovs[|ovs| - 1];
      OverlaysOn(plots, ovs[..|ovs| - 1], m) + (if MainOf(plots, last) == m then [last] else [])
  }

  /** The first loop's update of one listed subplot: `overlays` emptied, `mainplot` set. */
  function Reset(plots: map<SubplotId, PlotInfo>, id: SubplotId): PlotInfo
    requires id in plots
  {
    plots[id].(overlays := [], mainplot := if IsOverlay(plots, id) then Some(MainOf(plots, id)) else None)
  }

  /** `_plots` after the first loop has run over `ids`. */
  function AfterReset(plots: map<SubplotId, PlotInfo>, ids: seq<SubplotId>): map<SubplotId, PlotInfo>
    requires AllIn(plots, ids)
  {
    map k | k in plots :: if k in ids then Reset(plots, k) else plots[k]
  }

  /** `_plots` after the second loop has pushed the overlays `ovs` onto their main plots. */
  function AfterPush(plots: map<SubplotId, PlotInfo>, base: map<SubplotId, PlotInfo>, ovs: seq<SubplotId>): map<SubplotId, PlotInfo>
    requires AllIn(plots, ovs)
  {
    map k | k in base :: base[k].(overlays := base[k].overlays + OverlaysOn(plots, ovs, k))
  }

  /** The whole effect of `makeSubplotData` on `_plots`. */
  function Updated(plots: map<SubplotId, PlotInfo>, ids: seq<SubplotId>): map<SubplotId, PlotInfo>
    requires AllIn(plots, ids)
  {
    OverlaysAreIn(plots, ids);
    AfterPush(plots, AfterReset(plots, ids), Overlays(plots, ids))
  }

  /** `subplotIds = regulars.concat(overlays)`: a rearrangement of the list. */
  function Order(plots: map<SubplotId, PlotInfo>, ids: seq<SubplotId>): (r: seq<SubplotId>)
    requires AllIn(plots, ids)
    ensures |r| == |ids| && multiset(r) == multiset(ids)
  {
    PartitionSize(plots, ids);
    Regulars(plots, ids) + Overlays(plots, ids)
  }

  function Datum(plots: map<SubplotId, PlotInfo>, id: SubplotId): SubplotDatum
    requires id in plots
  {
    var info := plots[id];
    SubplotDatum(id, info.xLayer, info.yLayer, info.xOverlaying, info.yOverlaying, info.overlays)
  }

  /** `_plots` of the figure, updated in place. */
  class PlotTable {
    var plots: map<SubplotId, PlotInfo>

    constructor (plots: map<SubplotId, PlotInfo>)
      ensures this.plots == plots
    {
      this.plots := plots;
    }

    /** `makeSubplotData(gd)` over `ids = _subplots.cartesian` (lines 697-757). */
    method MakeSubplotData(ids: seq<SubplotId>) returns (data: seq<SubplotDatum>)
      requires AllIn(plots, ids)
      modifies this
      ensures plots == Updated(old(plots), ids)
      ensures |data| == |ids|
      ensures forall i :: 0 <= i < |data| ==>
        Order(old(plots), ids)[i] in plots && data[i] == Datum(plots, Order(old(plots), ids)[i])
    {
      var reset, regulars, overlays := SplitSubplots(plots, ids);
      OverlaysAreIn(plots, ids);
      assert reset.Keys == plots.Keys;
      var pushed := PushOverlays(plots, reset, overlays);
      assert pushed.Keys == plots.Keys;
      assert regulars + overlays == Order(plots, ids);
      data := CollectData(pushed, regulars + overlays);
      plots := pushed;
    }
  }

  /** The first loop (lines 703-728): every listed subplot gets its `mainplot` and an
      empty `overlays`, and goes to the regular or the overlay group. */
  method SplitSubplots(plots: map<SubplotId, PlotInfo>, ids: seq<SubplotId>)
    returns (reset: map<SubplotId, PlotInfo>, regulars: seq<SubplotId>, overlays: seq<SubplotId>)
    requires AllIn(plots, ids)
    ensures reset == AfterReset(plots, ids)
    ensures regulars == Regulars(plots, ids) && overlays == Overlays(plots, ids)
  {
    reset, regulars, overlays := plots, [], [];
    var i := 0;
    assert AfterReset(plots, ids[..0]) == plots;
    while i < |ids|
      invariant 0 <= i <= |ids|
      invariant reset == AfterReset(plots, ids[..i])
      invariant regulars == Regulars(plots, ids[..i]) && overlays == Overlays(plots, ids[..i])
    {
      assert ids[..i + 1][..i] == ids[..i];
      ResetStep(plots, ids, i);
      var id := ids[i];
      var plotinfo := reset[id];
      var mainplot := SubplotId(plotinfo.xMain, plotinfo.yMain);
      if mainplot != id && mainplot in reset {
        reset := reset[id := plotinfo.(overlays := [], mainplot := Some(mainplot))];
        overlays := overlays + [id];
      } else {
        reset := reset[id := plotinfo.(overlays := [], mainplot := None)];
        regulars := regulars + [id];
      }
      i := i + 1;
    }
    assert ids[..i] == ids;
  }

  /** The second loop (lines 730-735): each overlay is appended, in order, to the
      `overlays` of its main plot. */
  method PushOverlays(plots: map<SubplotId, PlotInfo>, base: map<SubplotId, PlotInfo>, overlays: seq<SubplotId>)
    returns (pushed: map<SubplotId, PlotInfo>)
    requires AllIn(plots, overlays)
    requires forall id :: id in overlays ==> IsOverlay(plots, id)
    requires base.Keys == plots.Keys
    ensures pushed == AfterPush(plots, base, overlays)
  {
    pushed := base;
    var i := 0;
    PushNone(plots, base, overlays);
    while i < |overlays|
      invariant 0 <= i <= |overlays|
      invariant pushed == AfterPush(plots, base, overlays[..i])
    {
      PushStep(plots, base, overlays, i);
      var id := overlays[i];
      assert id in overlays;
      var m := SubplotId(plots[id].xMain, plots[id].yMain);
      pushed := pushed[m := pushed[m].(overlays := pushed[m].overlays + [id])];
      i := i + 1;
    }
    assert overlays[..i] == overlays;
  }

  /** The third loop (lines 737-754): one datum per subplot, in the given order. */
  method CollectData(plots: map<SubplotId, PlotInfo>, subplotIds: seq<SubplotId>) returns (data: seq<SubplotDatum>)
    requires AllIn(plots, subplotIds)
    ensures |data| == |subplotIds|
    ensures forall i :: 0 <= i < |data| ==> subplotIds[i] in plots && data[i] == Datum(plots, subplotIds[i])
  {
    data := [];
    var i := 0;
    while i < |subplotIds|
      invariant 0 <= i <= |subplotIds|
      invariant |data| == i
      invariant forall k :: 0 <= k < i ==> subplotIds[k] in plots && data[k] == Datum(plots, subplotIds[k])
    {
      assert subplotIds[i] in subplotIds;
      var id := subplotIds[i];
      var plotinfo := plots[id];
      data := data + [SubplotDatum(id, plotinfo.xLayer, plotinfo.yLayer, plotinfo.xOverlaying, plotinfo.yOverlaying, plotinfo.overlays)];
      i := i + 1;
    }
  }

  lemma ResetStep(plots: map<SubplotId, PlotInfo>, ids: seq<SubplotId>, i: nat)
    requires AllIn(plots, ids) && i < |ids|
    ensures AfterReset(plots, ids[..i + 1]) == AfterReset(plots, ids[..i])[ids[i] := Reset(plots, ids[i])]
    ensures AfterReset(plots, ids[..i]).Keys == plots.Keys
    ensures AfterReset(plots, ids[..i])[ids[i]].xMain == plots[ids[i]].xMain
    ensures AfterReset(plots, ids[..i])[ids[i]].yMain == plots[ids[i]].yMain
  {
    assert ids[..i + 1] == ids[..i] + [ids[i]];
  }

  lemma PushNone(plots: map<SubplotId, PlotInfo>, base: map<SubplotId, PlotInfo>, overlays: seq<SubplotId>)
    requires AllIn(plots, overlays)
    ensures AfterPush(plots, base, overlays[..0]) == base
  {
    forall k | k in base ensures base[k].overlays + OverlaysOn(plots, overlays[..0], k) == base[k].overlays {
    }
  }

  lemma PushStep(plots: map<SubplotId, PlotInfo>, base: map<SubplotId, PlotInfo>, ovs: seq<SubplotId>, i: nat)
    requires AllIn(plots, ovs) && i < |ovs| && MainOf(plots, ovs[i]) in base
    ensures MainOf(plots, ovs[i]) in AfterPush(plots, base, ovs[..i])
    ensures AfterPush(plots, base, ovs[..i + 1]) == Pushed(AfterPush(plots, base, ovs[..i]), MainOf(plots, ovs[i]), ovs[i])
  {
    assert ovs[..i + 1][..i] == ovs[..i];
    var m := MainOf(plots, ovs[i]);
    var p, q := AfterPush(plots, base, ovs[..i]), AfterPush(plots, base, ovs[..i + 1]);
    forall k | k in base ensures q[k] == Pushed(p, m, ovs[i])[k] {
      assert OverlaysOn(plots, ovs[..i + 1], k) == OverlaysOn(plots, ovs[..i], k) + (if m == k then [ovs[i]] else []);
    }
  }

  /** `mainplotinfo.overlays.push(plotinfo)` */
  function Pushed(p: map<SubplotId, PlotInfo>, m: SubplotId, id: SubplotId): map<SubplotId, PlotInfo>
    requires m in p
  {
    p[m := p[m].(overlays := p[m].overlays + [id])]
  }

  /** Both groups only hold listed subplots, and overlays are exactly the listed
      subplots that are overlays. */
  lemma {:induction false} OverlaysAreIn(plots: map<SubplotId, PlotInfo>, ids: seq<SubplotId>)
    requires AllIn(plots, ids)
    ensures AllIn(plots, Overlays(plots, ids)) && AllIn(plots, Regulars(plots, ids))
    ensures forall id :: id in Overlays(plots, ids) <==> id in ids && IsOverlay(plots, id)
    ensures forall id :: id in Regulars(plots, ids) <==> id in ids && !IsOverlay(plots, id)
  {
    if ids != [] {
      var prefix := ids[..|ids| - 1];
      OverlaysAreIn(plots, prefix);
      assert ids == prefix + [ids[|ids| - 1]];
    }
  }

  /** The two groups together hold the listed subplots, each as often as listed: the
      data is a rearrangement of the list. */
  lemma {:induction false} PartitionSize(plots: map<SubplotId, PlotInfo>, ids: seq<SubplotId>)
    requires AllIn(plots, ids)
    ensures multiset(Regulars(plots, ids) + Overlays(plots, ids)) == multiset(ids)
    ensures |Regulars(plots, ids) + Overlays(plots, ids)| == |ids|
  {
    if ids != [] {
      var prefix := ids[..|ids| - 1];
      var last := ids[|ids| - 1];
      assert ids == prefix + [last];
      assert forall id :: id in prefix ==> id in ids;
      PartitionSize(plots, prefix);
      SplitStep(Regulars(plots, prefix), Overlays(plots, prefix), Regulars(plots, ids), Overlays(plots, ids),
                prefix, last, IsOverlay(plots, last));
    }
  }

  /** One more subplot, sent to the regulars or to the overlays, keeps the two groups a
      rearrangement of the list. */
  lemma SplitStep(r0: seq<SubplotId>, o0: seq<SubplotId>, r: seq<SubplotId>, o: seq<SubplotId>,
                  prefix: seq<SubplotId>, last: SubplotId, overlay: bool)
    requires multiset(r0 + o0) == multiset(prefix) && |r0 + o0| == |prefix|
    requires overlay ==> r == r0 && o == o0 + [last]
    requires !overlay ==> r == r0 + [last] && o == o0
    ensures multiset(r + o) == multiset(prefix + [last]) && |r + o| == |prefix + [last]|
  {
    assert multiset(r0 + o0) == multiset(r0) + multiset(o0);
    assert multiset(r + o) == multiset(r) + multiset(o);
    assert multiset(prefix + [last]) == multiset(prefix) + multiset{last};
    if overlay {
      assert multiset(o) == multiset(o0) + multiset{last};
    } else {
      assert multiset(r) == multiset(r0) + multiset{last};
    }
  }

  /** An overlay's list on main plot `m` holds exactly the overlays whose main plot is `m`. */
  lemma {:induction false} OverlaysOnMembers(plots: map<SubplotId, PlotInfo>, ovs: seq<SubplotId>, m: SubplotId)
    requires AllIn(plots, ovs)
    ensures forall x :: x in OverlaysOn(plots, ovs, m) <==> x in ovs && MainOf(plots, x) == m
  {
    if ovs != [] {
      var prefix := ovs[..|ovs| - 1];
      OverlaysOnMembers(plots, prefix, m);
      assert ovs == prefix + [ovs[|ovs| - 1]];
    }
  }

  /** After the pass, every listed subplot records its main plot when it is an overlay and
      none otherwise; a listed main plot's `overlays` holds exactly the listed overlays on
      it; a main plot outside the list keeps its old overlays at the front of its list. */
  lemma UpdatedPlots(plots: map<SubplotId, PlotInfo>, ids: seq<SubplotId>, m: SubplotId)
    requires AllIn(plots, ids) && m in plots
    ensures m in Updated(plots, ids)
    ensures m in ids ==> Updated(plots, ids)[m].mainplot == (if IsOverlay(plots, m) then Some(MainOf(plots, m)) else None)
    ensures m in ids ==> forall o :: o in Updated(plots, ids)[m].overlays <==>
      o in ids && IsOverlay(plots, o) && MainOf(plots, o) == m
    ensures m !in ids ==> Updated(plots, ids)[m].mainplot == plots[m].mainplot
    ensures m !in ids ==> plots[m].overlays <= Updated(plots, ids)[m].overlays
  {
    OverlaysAreIn(plots, ids);
    OverlaysOnMembers(plots, Overlays(plots, ids), m);
  }

  /** `subplotData` lists every regular subplot before any overlay. */
  lemma RegularsFirst(plots: map<SubplotId, PlotInfo>, ids: seq<SubplotId>, i: nat, j: nat)
    requires AllIn(plots, ids)
    requires i < j < |ids|
    ensures Order(plots, ids)[i] in plots && Order(plots, ids)[j] in plots
    ensures IsOverlay(plots, Order(plots, ids)[i]) ==> IsOverlay(plots, Order(plots, ids)[j])
  {
    OverlaysAreIn(plots, ids);
    var r, o := Regulars(plots, ids), Overlays(plots, ids);
    assert Order(plots, ids) == r + o;
    if i < |r| {
      assert r[i] in r;
    }
    if |r| <= j {
      assert o[j - |r|] in o;
    } else {
      assert r[j] in r;
      assert r[i] in r;
    }
  }

  /** With no overlays, `subplotData` follows the list exactly. */
  lemma {:induction false} NoOverlaysKeepOrder(plots: map<SubplotId, PlotInfo>, ids: seq<SubplotId>)
    requires AllIn(plots, ids)
    requires forall id :: id in ids ==> !IsOverlay(plots, id)
    ensures Regulars(plots, ids) == ids && Overlays(plots, ids) == []
    ensures Order(plots, ids) == ids
  {
    if ids != [] {
      var prefix := ids[..|ids| - 1];
      assert ids == prefix + [ids[|ids| - 1]];
      NoOverlaysKeepOrder(plots, prefix);
    }
  }
}
