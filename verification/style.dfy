/** The decisions `style` of src/plots/cartesian/index.js makes before it draws: which
    subplots get a background rectangle and in which layer, and how far an axis line
    has to reach to meet the line of a crossing axis.

    A subplot overlaid on another one (it has a main plot) never gets a background. A
    regular subplot whose domain overlaps one already placed in the lower layer gets its
    background in its own plot group, above the others; otherwise its domain joins the
    lower layer, and it gets a lower-layer background unless paper and plot share one
    opaque colour. */
module Style {
  import opened Seqs
  import opened Layout

  /** A subplot's `[xDomain, yDomain]` pair. */
  datatype Rect = Rect(x: Interval, y: Interval)

  /** The test of `overlappingDomain` against one earlier rectangle: the x extents are not
      separated (touching counts as separated) and the y extents strictly interleave. */
  predicate Overlaps(e: Rect, x: Interval, y: Interval)
  {
    !(e.x.lo >= x.hi || e.x.hi <= x.lo) && e.y.lo < y.hi && e.y.hi > y.lo
  }

  predicate OverlapsAny(domains: seq<Rect>, x: Interval, y: Interval)
  {
    exists i :: 0 <= i < |domains| && Overlaps(domains[i], x, y)
  }

  /** `overlappingDomain(xDomain, yDomain, domains)` (lines 301-314). */
  method OverlappingDomain(x: Interval, y: Interval, domains: seq<Rect>) returns (r: bool)
    ensures r <==> OverlapsAny(domains, x, y)
  {
    var i := 0;
    while i < |domains|
      invariant 0 <= i <= |domains|
      invariant forall k :: 0 <= k < i ==> !Overlaps(domains[k], x, y)
    {
      var existingX := domains[i].x;
      var existingY := domains[i].y;
      if existingX.lo >= x.hi || existingX.hi <= x.lo {
        i := i + 1;
        continue;
      }
      if existingY.lo < y.hi && existingY.hi > y.lo {
        return true;
      }
      i := i + 1;
    }
    return false;
  }

  function Max(a: real, b: real): real { if a < b then b else a }
  function Min(a: real, b: real): real { if a < b then a else b }

  /** For domains given low end first and of positive length, the test is exactly "the
      intersection has positive width and positive height". */
  lemma OverlapIsPositiveArea(e: Rect, x: Interval, y: Interval)
    requires e.x.lo < e.x.hi && e.y.lo < e.y.hi && x.lo < x.hi && y.lo < y.hi
    ensures Overlaps(e, x, y) <==>
      Max(e.x.lo, x.lo) < Min(e.x.hi, x.hi) && Max(e.y.lo, y.lo) < Min(e.y.hi, y.hi)
  {
  }

  /** Rectangles that only share an edge do not overlap. */
  lemma TouchingEdgesDoNotOverlap(e: Rect, x: Interval, y: Interval)
    requires e.x.hi == x.lo || e.x.lo == x.hi || e.y.hi == y.lo || e.y.lo == y.hi
    ensures !Overlaps(e, x, y)
  {
  }

  /** The test does not depend on which of the two rectangles came first. */
  lemma OverlapSymmetric(a: Rect, b: Rect)
    ensures Overlaps(a, b.x, b.y) <==> Overlaps(b, a.x, a.y)
  {
  }

  // ----- the background loop (lines 369-415) -----

  /** No background is needed when paper and plot have the same fully opaque colour. */
  function NoNeedForBg(paperOpacity: real, plotOpacity: real, paperColor: string, plotColor: string): bool
  {
    paperOpacity == 1.0 && plotOpacity == 1.0 && paperColor == plotColor
  }

  /** `lowerBackgroundIDs`, `backgroundIds` and `lowerDomains`. */
  datatype Backgrounds = Backgrounds(lowerIds: seq<SubplotId>, bgIds: seq<SubplotId>, lowerDomains: seq<Rect>)

  /** One iteration of the loop, for subplot `id`. */
  function BgStep(st: Backgrounds, id: SubplotId, info: PlotInfo, noNeedForBg: bool): Backgrounds
  {
    if info.mainplot.Some? then st
    else if OverlapsAny(st.lowerDomains, info.xDomain, info.yDomain) then st.(bgIds := st.bgIds + [id])
    else
      var st' := st.(lowerDomains := st.lowerDomains + [Rect(info.xDomain, info.yDomain)]);
      if noNeedForBg then st'
      else st'.(lowerIds := st.lowerIds + [id], bgIds := st.bgIds + [id])
  }

  /** The loop run over the subplot ids `order`, in the order `for (subplot in _plots)`
      visits them. */
  function Bg(order: seq<SubplotId>, plots: map<SubplotId, PlotInfo>, noNeedForBg: bool): Backgrounds
    requires forall id :: id in order ==> id in plots
  {
    if order == [] then Backgrounds([], [], [])
    else
      var last := order[|order| - 1];
      BgStep(Bg(order[..|order| - 1], plots, noNeedForBg), last, plots[last], noNeedForBg)
  }

  method ClassifyBackgrounds(order: seq<SubplotId>, plots: map<SubplotId, PlotInfo>,
                             paperOpacity: real, plotOpacity: real, paperColor: string, plotColor: string)
    returns (lowerBackgroundIds: seq<SubplotId>, backgroundIds: seq<SubplotId>, lowerDomains: seq<Rect>)
    requires forall id :: id in order ==> id in plots
    ensures Backgrounds(lowerBackgroundIds, backgroundIds, lowerDomains) ==
      Bg(order, plots, NoNeedForBg(paperOpacity, plotOpacity, paperColor, plotColor))
  {
    var noNeedForBg := paperOpacity == 1.0 && plotOpacity == 1.0 && paperColor == plotColor;
    lowerBackgroundIds, backgroundIds, lowerDomains := [], [], [];
    var k := 0;
    while k < |order|
      invariant 0 <= k <= |order|
      invariant Backgrounds(lowerBackgroundIds, backgroundIds, lowerDomains) == Bg(order[..k], plots, noNeedForBg)
    {
      assert order[..k + 1][..k] == order[..k];
      var subplot := order[k];
      var plotinfo := plots[subplot];
      if plotinfo.mainplot.None? {
        var overlapping := OverlappingDomain(plotinfo.xDomain, plotinfo.yDomain, lowerDomains);
        if overlapping {
          backgroundIds := backgroundIds + [subplot];
        } else {
          lowerDomains := lowerDomains + [Rect(plotinfo.xDomain, plotinfo.yDomain)];
          if !noNeedForBg {
            lowerBackgroundIds := lowerBackgroundIds + [subplot];
            backgroundIds := backgroundIds + [subplot];
          }
        }
      }
      k := k + 1;
    }
    assert order[..k] == order;
  }

  /** An overlaid subplot never gets a background, in either layer. */
  lemma {:induction false} OverlayHasNoBackground(order: seq<SubplotId>, plots: map<SubplotId, PlotInfo>, noNeedForBg: bool, id: SubplotId)
    requires forall i :: i in order ==> i in plots
    requires id in plots && plots[id].mainplot.Some?
    ensures id !in Bg(order, plots, noNeedForBg).bgIds && id !in Bg(order, plots, noNeedForBg).lowerIds
  {
    if order != [] {
      OverlayHasNoBackground(order[..|order| - 1], plots, noNeedForBg, id);
    }
  }

  /** No rectangle overlaps one placed before it. */
  ghost predicate Disjoint(d: seq<Rect>)
  {
    forall i, j :: 0 <= i < j < |d| ==> !Overlaps(d[i], d[j].x, d[j].y)
  }

  /** No two rectangles of the lower layer overlap. */
  lemma {:induction false} LowerDomainsDisjoint(order: seq<SubplotId>, plots: map<SubplotId, PlotInfo>, noNeedForBg: bool)
    requires forall i :: i in order ==> i in plots
    ensures Disjoint(Bg(order, plots, noNeedForBg).lowerDomains)
  {
    if order != [] {
      var prefix := order[..|order| - 1];
      LowerDomainsDisjoint(prefix, plots, noNeedForBg);
      var prev := Bg(prefix, plots, noNeedForBg).lowerDomains;
      var d := Bg(order, plots, noNeedForBg).lowerDomains;
      var info := plots[order[|order| - 1]];
      var r := Rect(info.xDomain, info.yDomain);
      if d != prev {
        assert d == prev + [r];
        assert !OverlapsAny(prev, info.xDomain, info.yDomain);
        forall i, j | 0 <= i < j < |d| ensures !Overlaps(d[i], d[j].x, d[j].y) {
          if j == |prev| {
            assert d[i] == prev[i] && d[j] == r;
          } else {
            assert d[i] == prev[i] && d[j] == prev[j];
          }
        }
      }
    }
  }

  /** The lower-layer ids are those background ids that were not overlapping; with a
      shared opaque colour there are none. */
  lemma {:induction false} LowerIdsAreBackgroundIds(order: seq<SubplotId>, plots: map<SubplotId, PlotInfo>, noNeedForBg: bool)
    requires forall i :: i in order ==> i in plots
    ensures forall id :: id in Bg(order, plots, noNeedForBg).lowerIds ==> id in Bg(order, plots, noNeedForBg).bgIds
    ensures noNeedForBg ==> Bg(order, plots, noNeedForBg).lowerIds == []
  {
    if order != [] {
      LowerIdsAreBackgroundIds(order[..|order| - 1], plots, noNeedForBg);
    }
  }

  /** The lists only grow along the loop. */
  lemma {:induction false} BgGrows(order: seq<SubplotId>, plots: map<SubplotId, PlotInfo>, noNeedForBg: bool, k: nat)
    requires forall i :: i in order ==> i in plots
    requires k <= |order|
    ensures var a := Bg(order[..k], plots, noNeedForBg);
      var b := Bg(order, plots, noNeedForBg);
      a.lowerIds <= b.lowerIds && a.bgIds <= b.bgIds && a.lowerDomains <= b.lowerDomains
    decreases |order| - k
  {
    if k < |order| {
      var prefix := order[..|order| - 1];
      assert order[..k] == prefix[..k];
      BgGrows(prefix, plots, noNeedForBg, k);
    } else {
      assert order[..k] == order;
    }
  }

  /** Ids added by the loop all come from the ids it ran over. */
  lemma {:induction false} BgIdsFromOrder(order: seq<SubplotId>, plots: map<SubplotId, PlotInfo>, noNeedForBg: bool)
    requires forall i :: i in order ==> i in plots
    ensures forall id :: id in Bg(order, plots, noNeedForBg).bgIds ==> id in order
    ensures forall id :: id in Bg(order, plots, noNeedForBg).lowerIds ==> id in order
  {
    if order != [] {
      BgIdsFromOrder(order[..|order| - 1], plots, noNeedForBg);
    }
  }

  /** A regular subplot, visited once, gets a background exactly when its domain overlaps
      the lower layer built before it (then in its own plot group) or when a background is
      needed at all (then in the lower layer, its domain joining that layer). */
  lemma RegularBackground(order: seq<SubplotId>, plots: map<SubplotId, PlotInfo>, noNeedForBg: bool, k: nat)
    requires forall i :: i in order ==> i in plots
    requires NoDup(order) && k < |order|
    requires plots[order[k]].mainplot.None?
    ensures var id := order[k];
      var info := plots[id];
      var overlapping := OverlapsAny(Bg(order[..k], plots, noNeedForBg).lowerDomains, info.xDomain, info.yDomain);
      var r := Bg(order, plots, noNeedForBg);
      && (id in r.bgIds <==> overlapping || !noNeedForBg)
      && (id in r.lowerIds <==> !overlapping && !noNeedForBg)
      && (!overlapping ==> Rect(info.xDomain, info.yDomain) in r.lowerDomains)
  {
    var id := order[k];
    var before := order[..k];
    var upto := order[..k + 1];
    assert upto[..k] == before;
    assert id !in before by {
      forall j | 0 <= j < k ensures order[j] != id {
      }
    }
    BgIdsFromOrder(before, plots, noNeedForBg);
    BgGrows(order, plots, noNeedForBg, k + 1);
    AfterIdUnchanged(order, plots, noNeedForBg, k, |order|);
    assert order[..|order|] == order;
    var prev := Bg(before, plots, noNeedForBg);
    var step := Bg(upto, plots, noNeedForBg);
    assert step == BgStep(prev, id, plots[id], noNeedForBg);
    assert id !in prev.lowerIds && id !in prev.bgIds;
  }

  /** Subplots after `id` in the order do not add or remove `id`. */
  lemma {:induction false} AfterIdUnchanged(order: seq<SubplotId>, plots: map<SubplotId, PlotInfo>, noNeedForBg: bool, k: nat, n: nat)
    requires forall i :: i in order ==> i in plots
    requires NoDup(order) && k < n <= |order|
    ensures var id := order[k];
      (id in Bg(order[..n], plots, noNeedForBg).bgIds <==> id in Bg(order[..k + 1], plots, noNeedForBg).bgIds)
      && (id in Bg(order[..n], plots, noNeedForBg).lowerIds <==> id in Bg(order[..k + 1], plots, noNeedForBg).lowerIds)
    decreases n
  {
    if n > k + 1 {
      AfterIdUnchanged(order, plots, noNeedForBg, k, n - 1);
      assert order[..n][..n - 1] == order[..n - 1];
      assert order[k] != order[n - 1];
    }
  }

  // ----- where axis lines meet (lines 316-365) -----

  /** The `mirror` attribute: false, true, 'ticks', 'all' or 'allticks'. */
  datatype Mirror = NoMirror | Mirrored | MirrorTicks | MirrorAll | MirrorAllTicks

  /** The `side` attribute of an axis. */
  datatype Side = Left | Right | Bottom | Top

  /** What the line searches read of an axis: `showline`, whether `ticks` is set,
      `mirror`, `side`, `_mainSubplot`, the domain of `_anchorAxis` (none for a free
      axis), its own `domain`, `_mainAxis`, and its line width after `crispRound`. */
  datatype LineAxis = LineAxis(
    showline: bool,
    ticks: bool,
    mirror: Mirror,
    side: Side,
    mainSubplot: SubplotId,
    anchorDomain: Option<Interval>,
    domain: Interval,
    mainAxis: AxisId,
    lineWidth: real)

  predicate MirrorsAll(m: Mirror)
  {
    m == MirrorAll || m == MirrorAllTicks
  }

  /** `FROM_BL[side]`: 0 for the left and bottom sides, 1 for the right and top ones. */
  function FromBL(side: Side): nat
  {
    if side == Left || side == Bottom then 0 else 1
  }

  /** `domain[k]` for k = 0 or 1. */
  function End(d: Interval, k: nat): real
  {
    if k == 0 then d.lo else d.hi
  }

  /** `shouldShowLinesOrTicks(ax, subplot)`: lines or ticks are drawn on `subplot` when
      the axis has any, and the subplot is its main one or it mirrors on all subplots. */
  function ShouldShowLinesOrTicks(ax: LineAxis, subplot: SubplotId): (r: bool)
    ensures r ==> ax.ticks || ax.showline
    ensures (ax.ticks || ax.showline) && subplot == ax.mainSubplot ==> r
    ensures !r && (ax.ticks || ax.showline) ==> subplot != ax.mainSubplot && !MirrorsAll(ax.mirror)
  {
    (ax.ticks || ax.showline) && (subplot == ax.mainSubplot || MirrorsAll(ax.mirror))
  }

  /** Across the subplots of a figure: an axis that does not mirror to all subplots shows
      its lines or ticks on one subplot at most, its main one; an axis that mirrors to all
      shows them on every subplot as soon as it has any. */
  lemma LinesOrTicksPlacement(ax: LineAxis, subplots: seq<SubplotId>)
    ensures !MirrorsAll(ax.mirror) ==>
      forall i, j ::
        (0 <= i < |subplots| && 0 <= j < |subplots| &&
         ShouldShowLinesOrTicks(ax, subplots[i]) && ShouldShowLinesOrTicks(ax, subplots[j])) ==>
        subplots[i] == subplots[j] == ax.mainSubplot
    ensures MirrorsAll(ax.mirror) ==>
      forall i :: 0 <= i < |subplots| ==> (ShouldShowLinesOrTicks(ax, subplots[i]) <==> ax.ticks || ax.showline)
    ensures !ax.ticks && !ax.showline ==>
      forall i :: 0 <= i < |subplots| ==> !ShouldShowLinesOrTicks(ax, subplots[i])
  {
  }

  /** `shouldShowLineThisSide(ax, side, counterAx)`: does `counterAx` draw a line on the
      `side` end of `ax`? Note that the line-width test is on `ax`, not on `counterAx`. */
  function ShouldShowLineThisSide(ax: LineAxis, side: Side, counterAx: LineAxis): (r: bool)
    ensures r ==> counterAx.showline && ax.lineWidth != 0.0
    ensures counterAx.showline && ax.lineWidth != 0.0 && MirrorsAll(counterAx.mirror) ==> r
    ensures r && !MirrorsAll(counterAx.mirror) ==> counterAx.anchorDomain.Some?
    ensures r && !MirrorsAll(counterAx.mirror) && counterAx.side != side ==> counterAx.mirror != NoMirror
  {
    if !counterAx.showline || ax.lineWidth == 0.0 then false
    else if MirrorsAll(counterAx.mirror) then true
    else if counterAx.anchorDomain.None? then false
    else
      var k := FromBL(side);
      var anchorDomain := counterAx.anchorDomain.value;
      if counterAx.side == side then End(anchorDomain, k) == End(ax.domain, k)
      else counterAx.mirror != NoMirror && End(anchorDomain, 1 - k) == End(ax.domain, 1 - k)
  }

  /** A crossing axis whose line counts: it shares `counterAx`'s main axis and draws a
      line on this side of `ax`. */
  predicate Candidate(ax: LineAxis, side: Side, counterAx: LineAxis, axi: LineAxis)
  {
    axi.mainAxis == counterAx.mainAxis && ShouldShowLineThisSide(ax, side, axi)
  }

  /** `findCounterAxisLineWidth(ax, side, counterAx, axList)`: the width of `counterAx`'s
      line when it has one on this side, else of the first candidate in `axList`, else 0. */
  method FindCounterAxisLineWidth(ax: LineAxis, side: Side, counterAx: LineAxis, axList: seq<LineAxis>) returns (w: real)
    ensures ShouldShowLineThisSide(ax, side, counterAx) ==> w == counterAx.lineWidth
    ensures !ShouldShowLineThisSide(ax, side, counterAx) && (forall i :: 0 <= i < |axList| ==> !Candidate(ax, side, counterAx, axList[i])) ==> w == 0.0
    ensures !ShouldShowLineThisSide(ax, side, counterAx) && (exists i :: 0 <= i < |axList| && Candidate(ax, side, counterAx, axList[i])) ==>
      exists i :: 0 <= i < |axList| && Candidate(ax, side, counterAx, axList[i]) && w == axList[i].lineWidth &&
        forall j :: 0 <= j < i ==> !Candidate(ax, side, counterAx, axList[j])
  {
    if ShouldShowLineThisSide(ax, side, counterAx) {
      return counterAx.lineWidth;
    }
    var i := 0;
    while i < |axList|
      invariant 0 <= i <= |axList|
      invariant forall j :: 0 <= j < i ==> !Candidate(ax, side, counterAx, axList[j])
    {
      var axi := axList[i];
      if axi.mainAxis == counterAx.mainAxis && ShouldShowLineThisSide(ax, side, axi) {
        return axi.lineWidth;
      }
      i := i + 1;
    }
    return 0.0;
  }

  /** When `ax` has no line width, no crossing line is looked for at all. */
  lemma NoWidthNoCounterLine(ax: LineAxis, side: Side, counterAx: LineAxis, axList: seq<LineAxis>)
    requires ax.lineWidth == 0.0
    ensures !ShouldShowLineThisSide(ax, side, counterAx)
    ensures forall i :: 0 <= i < |axList| ==> !Candidate(ax, side, counterAx, axList[i])
  {
  }
}
