/** Subplot topology completion: `finalizeSubplots` of src/plots/cartesian/index.js.

    Given the subplots found so far (`_subplots.cartesian` and `_subplots.gl2d`) and the
    axis id lists (`_subplots.xaxis`, `_subplots.yaxis`), it pairs every x axis that is in
    no subplot with its anchor (or 'y'), does the same for y axes, and when no subplot
    exists at all creates one from the lowest-numbered axis keys of the input layout.

    `Finalized` is the specification of the whole pass as a function of the lists; the
    method `SubplotLists.FinalizeSubplots` runs the source's loops over mutable lists and
    is proved to produce it; the lemmas state what the pass guarantees. */
module Topology {
  import opened Seqs
  import opened Layout

  /** The `anchor` attribute of an input axis: an axis id, or anything the id patterns
      reject ('free', a missing attribute, a malformed string). */
  datatype Anchor = AnchorTo(letter: Letter, suffix: nat) | NoAnchorId

  /** One key of the input layout, in the order `for (ki in layoutIn)` visits them.
      `AxisEntry(l, n, a)` is the key "<l>axis<n>" (n = 0: no suffix) whose object has anchor a. */
  datatype LayoutEntry = AxisEntry(letter: Letter, suffix: nat, anchor: Anchor) | OtherEntry

  /** `layoutOut._subplots`, as far as the pass reads and writes it. */
  datatype Lists = Lists(cartesian: seq<SubplotId>, gl2d: seq<SubplotId>, xaxis: seq<nat>, yaxis: seq<nat>)

  /** The working state of the two pairing loops: the lists, plus the `allX` / `allY`
      look-up objects. */
  datatype Pass = Pass(cartesian: seq<SubplotId>, gl2d: seq<SubplotId>, allX: set<nat>, allY: set<nat>, xaxis: seq<nat>, yaxis: seq<nat>)

  function XParts(s: seq<SubplotId>): set<nat>
  {
    set sp | sp in s :: sp.x
  }

  function YParts(s: seq<SubplotId>): set<nat>
  {
    set sp | sp in s :: sp.y
  }

  /** `idRegex[l].test(a)` */
  predicate IsIdOf(a: Anchor, l: Letter)
  {
    a.AnchorTo? && a.letter == l && ValidSuffix(a.suffix)
  }

  /** `(layoutIn[id2name(id)] || {}).anchor` for the axis id (l, n). */
  function AnchorOf(layoutIn: seq<LayoutEntry>, l: Letter, n: nat): Anchor
  {
    if layoutIn == [] then NoAnchorId
    else if layoutIn[0].AxisEntry? && layoutIn[0].letter == l && layoutIn[0].suffix == n then layoutIn[0].anchor
    else AnchorOf(layoutIn[1..], l, n)
  }

  /** The y axis an unpaired x axis n is paired with: its anchor when that is a y id, else 'y'. */
  function YPartner(layoutIn: seq<LayoutEntry>, n: nat): nat
  {
    var a := AnchorOf(layoutIn, X, n);
    if IsIdOf(a, Y) then a.suffix else 0
  }

  /** The x axis an unpaired y axis n is paired with: its anchor when that is an x id, else 'x'. */
  function XPartner(layoutIn: seq<LayoutEntry>, n: nat): nat
  {
    var a := AnchorOf(layoutIn, Y, n);
    if IsIdOf(a, X) then a.suffix else 0
  }

  /** One iteration of the x loop (lines 71-84). */
  function PairX(layoutIn: seq<LayoutEntry>, xi: nat, st: Pass): Pass
  {
    if xi in st.allX then st
    else
      var yi := YPartner(layoutIn, xi);
      st.(cartesian := st.cartesian + [SubplotId(xi, yi)],
          allY := st.allY + {yi},
          yaxis := if yi in st.allY then st.yaxis else PushUnique(st.yaxis, yi))
  }

  function PairXs(layoutIn: seq<LayoutEntry>, xs: seq<nat>, st: Pass): Pass
    decreases |xs|
  {
    if xs == [] then st else PairXs(layoutIn, xs[1..], PairX(layoutIn, xs[0], st))
  }

  /** One iteration of the y loop (lines 87-100). */
  function PairY(layoutIn: seq<LayoutEntry>, yi: nat, st: Pass): Pass
  {
    if yi in st.allY then st
    else
      var xi := XPartner(layoutIn, yi);
      st.(cartesian := st.cartesian + [SubplotId(xi, yi)],
          allX := st.allX + {xi},
          xaxis := if xi in st.allX then st.xaxis else PushUnique(st.xaxis, xi))
  }

  function PairYs(layoutIn: seq<LayoutEntry>, ys: seq<nat>, st: Pass): Pass
    decreases |ys|
  {
    if ys == [] then st else PairYs(layoutIn, ys[1..], PairY(layoutIn, ys[0], st))
  }

  /** The scan of the input layout keys for the lowest suffix of one letter; a key
      replaces the best so far only when its suffix is strictly smaller, so the first
      key found wins ties. */
  function Lowest(layoutIn: seq<LayoutEntry>, l: Letter, best: Option<nat>): Option<nat>
    decreases |layoutIn|
  {
    if layoutIn == [] then best
    else
      var e := layoutIn[0];
      var best' := if AxisKeyOf(e, l) && (best.None? || e.suffix < best.value)
                   then Some(e.suffix) else best;
      Lowest(layoutIn[1..], l, best')
  }

  /** The axis of the default subplot: the lowest key found, or the bare letter. */
  function DefaultSuffix(layoutIn: seq<LayoutEntry>, l: Letter): nat
  {
    match Lowest(layoutIn, l, None)
    case Some(n) => n
    case None => 0
  }

  /** A key the scan for the default axis of letter l considers: a valid "<l>axis<n>" key. */
  predicate AxisKeyOf(e: LayoutEntry, l: Letter)
  {
    e.AxisEntry? && e.letter == l && ValidSuffix(e.suffix)
  }

  /** The scan finds a key iff it starts with one or meets one; what it finds is no
      larger than the starting best and than every key it meets, and is the starting
      best or one of the keys met. */
  lemma {:induction false} LowestScan(layoutIn: seq<LayoutEntry>, l: Letter, best: Option<nat>)
    ensures var r := Lowest(layoutIn, l, best);
      && (r.Some? <==> best.Some? || exists i :: 0 <= i < |layoutIn| && AxisKeyOf(layoutIn[i], l))
      && (r.Some? ==> forall i :: 0 <= i < |layoutIn| && AxisKeyOf(layoutIn[i], l) ==> r.value <= layoutIn[i].suffix)
      && (r.Some? && best.Some? ==> r.value <= best.value)
      && (r.Some? ==> r == best || exists i :: 0 <= i < |layoutIn| && AxisKeyOf(layoutIn[i], l) && r.value == layoutIn[i].suffix)
    decreases |layoutIn|
  {
    if layoutIn != [] {
      var e := layoutIn[0];
      var best' := if AxisKeyOf(e, l) && (best.None? || e.suffix < best.value) then Some(e.suffix) else best;
      assert Lowest(layoutIn, l, best) == Lowest(layoutIn[1..], l, best');
      LowestScan(layoutIn[1..], l, best');
      var r := Lowest(layoutIn, l, best);
      forall i | 0 <= i < |layoutIn[1..]|
        ensures layoutIn[1..][i] == layoutIn[i + 1]
      {
      }
      if r.Some? {
        forall i | 0 <= i < |layoutIn| && AxisKeyOf(layoutIn[i], l)
          ensures r.value <= layoutIn[i].suffix
        {
          if i > 0 {
            assert layoutIn[1..][i - 1] == layoutIn[i];
          }
        }
        if r != best && r != best' {
          var i :| 0 <= i < |layoutIn[1..]| && AxisKeyOf(layoutIn[1..][i], l) && r.value == layoutIn[1..][i].suffix;
          assert AxisKeyOf(layoutIn[i + 1], l) && r.value == layoutIn[i + 1].suffix;
        }
      }
      if best.None? && (exists i :: 0 <= i < |layoutIn| && AxisKeyOf(layoutIn[i], l)) {
        var i :| 0 <= i < |layoutIn| && AxisKeyOf(layoutIn[i], l);
        if i > 0 {
          assert AxisKeyOf(layoutIn[1..][i - 1], l);
        }
      }
    }
  }

  /** n is no larger than any valid key of letter l and is one of them; with no such key
      it is the bare letter. */
  predicate LowestKey(layoutIn: seq<LayoutEntry>, l: Letter, n: nat)
  {
    && (forall i :: 0 <= i < |layoutIn| && AxisKeyOf(layoutIn[i], l) ==> n <= layoutIn[i].suffix)
    && ((exists i :: 0 <= i < |layoutIn| && AxisKeyOf(layoutIn[i], l)) ==>
          exists i :: 0 <= i < |layoutIn| && AxisKeyOf(layoutIn[i], l) && n == layoutIn[i].suffix)
    && ((forall i :: 0 <= i < |layoutIn| ==> !AxisKeyOf(layoutIn[i], l)) ==> n == 0)
  }

  /** Lines 105-122: the default axis is the lowest suffix among the valid axis keys of
      that letter, attained by one of them, or the bare letter (suffix 0) when there is none. */
  lemma DefaultIsLowest(layoutIn: seq<LayoutEntry>, l: Letter)
    ensures (exists i :: 0 <= i < |layoutIn| && AxisKeyOf(layoutIn[i], l)) ==>
      && (forall i :: 0 <= i < |layoutIn| && AxisKeyOf(layoutIn[i], l) ==> DefaultSuffix(layoutIn, l) <= layoutIn[i].suffix)
      && (exists i :: 0 <= i < |layoutIn| && AxisKeyOf(layoutIn[i], l) && DefaultSuffix(layoutIn, l) == layoutIn[i].suffix)
    ensures (forall i :: 0 <= i < |layoutIn| ==> !AxisKeyOf(layoutIn[i], l)) ==> DefaultSuffix(layoutIn, l) == 0
  {
    LowestScan(layoutIn, l, None);
  }

  function Start(lists: Lists): Pass
  {
    var all := lists.cartesian + lists.gl2d;
    Pass(lists.cartesian, lists.gl2d, XParts(all), YParts(all), lists.xaxis, lists.yaxis)
  }

  function AfterX(layoutIn: seq<LayoutEntry>, lists: Lists): Pass
  {
    PairXs(layoutIn, lists.xaxis, Start(lists))
  }

  function AfterXY(layoutIn: seq<LayoutEntry>, lists: Lists): Pass
  {
    var st1 := AfterX(layoutIn, lists);
    PairYs(layoutIn, st1.yaxis, st1)
  }

  /** The whole of `finalizeSubplots(layoutIn, layoutOut)` on `layoutOut._subplots`. */
  function Finalized(layoutIn: seq<LayoutEntry>, lists: Lists): Lists
  {
    var st := AfterXY(layoutIn, lists);
    if |st.cartesian| + |st.gl2d| == 0 then
      var xi := DefaultSuffix(layoutIn, X);
      var yi := DefaultSuffix(layoutIn, Y);
      Lists(st.cartesian + [SubplotId(xi, yi)], st.gl2d, st.xaxis + [xi], st.yaxis + [yi])
    else
      Lists(st.cartesian, st.gl2d, st.xaxis, st.yaxis)
  }

  /** `layoutOut._subplots`, updated in place by finalizeSubplots. */
  class SubplotLists {
    var cartesian: seq<SubplotId>
    var gl2d: seq<SubplotId>
    var xaxis: seq<nat>
    var yaxis: seq<nat>

    function Value(): Lists
      reads this
    {
      Lists(cartesian, gl2d, xaxis, yaxis)
    }

    constructor (lists: Lists)
      ensures Value() == lists
    {
      cartesian, gl2d, xaxis, yaxis := lists.cartesian, lists.gl2d, lists.xaxis, lists.yaxis;
    }

    method FinalizeSubplots(layoutIn: seq<LayoutEntry>)
      modifies this
      ensures Value() == Finalized(layoutIn, old(Value()))
    {
      var xList, yList, spSVG := xaxis, yaxis, cartesian;
      var spAll := spSVG + gl2d;
      var allX, allY := CollectParts(spAll);
      assert Start(Value()) == Pass(spSVG, gl2d, allX, allY, xList, yList);

      // x axes with no subplot
      ghost var st1 := AfterX(layoutIn, Value());
      var i := 0;
      while i < |xList|
        invariant 0 <= i <= |xList|
        invariant xList == xaxis
        invariant |spAll| == |spSVG| + |gl2d|
        invariant PairXs(layoutIn, xList[i..], Pass(spSVG, gl2d, allX, allY, xList, yList)) == st1
      {
        assert xList[i..][1..] == xList[i + 1..];
        var xi := xList[i];
        if xi !in allX {
          var yi := 0;
          var anchor := AnchorOf(layoutIn, X, xi);
          if IsIdOf(anchor, Y) {
            yi := anchor.suffix;
          }
          assert yi == YPartner(layoutIn, xi);
          spSVG := spSVG + [SubplotId(xi, yi)];
          spAll := spAll + [SubplotId(xi, yi)];
          if yi !in allY {
            allY := allY + {yi};
            yList := PushUnique(yList, yi);
          } else {
            assert allY + {yi} == allY;
          }
        }
        i := i + 1;
      }

      // y axes with no subplot
      ghost var st2 := AfterXY(layoutIn, Value());
      i := 0;
      while i < |yList|
        invariant 0 <= i <= |yList|
        invariant yList == st1.yaxis
        invariant |spAll| == |spSVG| + |gl2d|
        invariant PairYs(layoutIn, yList[i..], Pass(spSVG, gl2d, allX, allY, xList, yList)) == st2
      {
        assert yList[i..][1..] == yList[i + 1..];
        var yi := yList[i];
        if yi !in allY {
          var xi := 0;
          var anchor := AnchorOf(layoutIn, Y, yi);
          if IsIdOf(anchor, X) {
            xi := anchor.suffix;
          }
          assert xi == XPartner(layoutIn, yi);
          spSVG := spSVG + [SubplotId(xi, yi)];
          spAll := spAll + [SubplotId(xi, yi)];
          if xi !in allX {
            allX := allX + {xi};
            xList := PushUnique(xList, xi);
          } else {
            assert allX + {xi} == allX;
          }
        }
        i := i + 1;
      }

      // no subplot at all: make one from the lowest-numbered axes of the input layout
      if |spAll| == 0 {
        var xi, yi := LowestAxes(layoutIn);
        xList := xList + [xi];
        yList := yList + [yi];
        spSVG := spSVG + [SubplotId(xi, yi)];
      }
      xaxis, yaxis, cartesian := xList, yList, spSVG;
    }
  }

  /** The `allX` / `allY` look-up objects of lines 64-68: the x and y parts of every subplot id. */
  method CollectParts(spAll: seq<SubplotId>) returns (allX: set<nat>, allY: set<nat>)
    ensures allX == XParts(spAll) && allY == YParts(spAll)
  {
    allX, allY := {}, {};
    var i := 0;
    while i < |spAll|
      invariant 0 <= i <= |spAll|
      invariant allX == XParts(spAll[..i]) && allY == YParts(spAll[..i])
    {
      assert spAll[..i + 1] == spAll[..i] + [spAll[i]];
      allX := allX + {spAll[i].x};
      allY := allY + {spAll[i].y};
      i := i + 1;
    }
    assert spAll[..i] == spAll;
  }

  /** Lines 106-121: the lowest-numbered `xaxis*` and `yaxis*` keys of the input layout,
      as axis ids, defaulting to 'x' and 'y'. */
  method LowestAxes(layoutIn: seq<LayoutEntry>) returns (xi: nat, yi: nat)
    ensures xi == DefaultSuffix(layoutIn, X) && yi == DefaultSuffix(layoutIn, Y)
    ensures LowestKey(layoutIn, X, xi) && LowestKey(layoutIn, Y, yi)
  {
    var xBest: Option<nat> := None;
    var yBest: Option<nat> := None;
    var k := 0;
    while k < |layoutIn|
      invariant 0 <= k <= |layoutIn|
      invariant Lowest(layoutIn[k..], X, xBest) == Lowest(layoutIn, X, None)
      invariant Lowest(layoutIn[k..], Y, yBest) == Lowest(layoutIn, Y, None)
    {
      assert layoutIn[k..][1..] == layoutIn[k + 1..];
      var e := layoutIn[k];
      if e.AxisEntry? && ValidSuffix(e.suffix) {
        if e.letter == X {
          if xBest.None? || e.suffix < xBest.value {
            xBest := Some(e.suffix);
          }
        } else if yBest.None? || e.suffix < yBest.value {
          yBest := Some(e.suffix);
        }
      }
      k := k + 1;
    }
    xi := if xBest.Some? then xBest.value else 0;
    yi := if yBest.Some? then yBest.value else 0;
    DefaultIsLowest(layoutIn, X);
    DefaultIsLowest(layoutIn, Y);
  }

  // ----- what one pass over the axis lists guarantees -----

  /** Every subplot known to the pass, in the order `spAll` holds them (up to the position
      of the gl2d ones, which no loop changes). */
  function All(st: Pass): seq<SubplotId>
  {
    st.cartesian + st.gl2d
  }

  /** The look-up objects only ever name axes that some subplot uses. */
  ghost predicate Inv(st: Pass)
  {
    st.allX <= XParts(All(st)) && st.allY <= YParts(All(st))
  }

  lemma PartsAppend(c: seq<SubplotId>, sp: SubplotId, g: seq<SubplotId>)
    ensures XParts(c + [sp] + g) == XParts(c + g) + {sp.x}
    ensures YParts(c + [sp] + g) == YParts(c + g) + {sp.y}
  {
    assert forall t :: t in c + [sp] + g <==> t in c + g || t == sp;
  }

  lemma PushUniqueFacts<T>(s: seq<T>, x: T)
    ensures s <= PushUnique(s, x)
    ensures forall y :: y in PushUnique(s, x) <==> y in s || y == x
    ensures NoDup(s) ==> NoDup(PushUnique(s, x))
  {
  }

  /** The x loop leaves the x list, `allX` and the gl2d list alone, only appends to the
      subplot list and the y list, and keeps the look-up objects within the subplots. */
  lemma {:induction false} PairXsFrame(layoutIn: seq<LayoutEntry>, xs: seq<nat>, st: Pass)
    requires Inv(st)
    ensures var r := PairXs(layoutIn, xs, st);
      && Inv(r)
      && r.gl2d == st.gl2d && r.allX == st.allX && r.xaxis == st.xaxis
      && st.cartesian <= r.cartesian && st.yaxis <= r.yaxis && st.allY <= r.allY
    decreases |xs|
  {
    if xs != [] {
      if xs[0] !in st.allX {
        var sp := SubplotId(xs[0], YPartner(layoutIn, xs[0]));
        PartsAppend(st.cartesian, sp, st.gl2d);
        PushUniqueFacts(st.yaxis, sp.y);
      }
      PairXsFrame(layoutIn, xs[1..], PairX(layoutIn, xs[0], st));
    }
  }

  /** After the x loop every x axis it visited is part of some subplot. */
  lemma {:induction false} PairXsCovers(layoutIn: seq<LayoutEntry>, xs: seq<nat>, st: Pass)
    requires Inv(st)
    ensures forall x :: x in xs ==> x in XParts(All(PairXs(layoutIn, xs, st)))
    decreases |xs|
  {
    if xs != [] {
      var st' := PairX(layoutIn, xs[0], st);
      if xs[0] !in st.allX {
        PartsAppend(st.cartesian, st'.cartesian[|st.cartesian|], st.gl2d);
      }
      assert Inv(st');
      PairXsCovers(layoutIn, xs[1..], st');
      PairXsFrame(layoutIn, xs[1..], st');
      var r := PairXs(layoutIn, xs, st);
      assert xs[0] in XParts(All(st'));
      var t :| t in All(st') && t.x == xs[0];
      assert t in All(r);
      forall x | x in xs ensures x in XParts(All(r)) {
        if x != xs[0] {
          assert x in xs[1..];
        }
      }
    }
  }

  /** The y axes the x loop adds to its list are recorded in `allY`, never twice; when
      `allY` starts out as exactly the y parts of the subplots, it stays so. */
  lemma {:induction false} PairXsOther(layoutIn: seq<LayoutEntry>, xs: seq<nat>, st: Pass)
    ensures var r := PairXs(layoutIn, xs, st);
      && (forall y :: y in r.yaxis ==> y in st.yaxis || y in r.allY)
      && (NoDup(st.yaxis) ==> NoDup(r.yaxis))
      && (st.allY == YParts(All(st)) ==> r.allY == YParts(All(r)))
    decreases |xs|
  {
    if xs != [] {
      var st' := PairX(layoutIn, xs[0], st);
      if xs[0] !in st.allX {
        PartsAppend(st.cartesian, st'.cartesian[|st.cartesian|], st.gl2d);
        PushUniqueFacts(st.yaxis, st'.cartesian[|st.cartesian|].y);
      }
      PairXsOther(layoutIn, xs[1..], st');
      PairXsAllYGrows(layoutIn, xs[1..], st');
    }
  }

  /** `allY` only grows during the x loop (no invariant needed). */
  lemma {:induction false} PairXsAllYGrows(layoutIn: seq<LayoutEntry>, xs: seq<nat>, st: Pass)
    ensures st.allY <= PairXs(layoutIn, xs, st).allY
    decreases |xs|
  {
    if xs != [] {
      PairXsAllYGrows(layoutIn, xs[1..], PairX(layoutIn, xs[0], st));
    }
  }

  /** Each subplot the x loop creates is one of its x axes that no subplot had, paired
      with that axis's anchor (or the default y axis). */
  lemma {:induction false} PairXsCreates(layoutIn: seq<LayoutEntry>, xs: seq<nat>, st: Pass)
    ensures var r := PairXs(layoutIn, xs, st);
      forall k :: |st.cartesian| <= k < |r.cartesian| ==>
        r.cartesian[k].x in xs && r.cartesian[k].x !in st.allX &&
        r.cartesian[k].y == YPartner(layoutIn, r.cartesian[k].x)
    decreases |xs|
  {
    if xs != [] {
      var st' := PairX(layoutIn, xs[0], st);
      PairXsCreates(layoutIn, xs[1..], st');
      PairXsPrefix(layoutIn, xs[1..], st');
      var r := PairXs(layoutIn, xs, st);
      forall k | |st.cartesian| <= k < |r.cartesian|
        ensures r.cartesian[k].x in xs && r.cartesian[k].x !in st.allX
      {
        if k >= |st'.cartesian| {
          assert r.cartesian[k].x in xs[1..];
        } else {
          assert r.cartesian[k] == st'.cartesian[k];
        }
      }
    }
  }

  /** The x loop keeps `allX` and extends the subplot list (no invariant needed). */
  lemma {:induction false} PairXsPrefix(layoutIn: seq<LayoutEntry>, xs: seq<nat>, st: Pass)
    ensures var r := PairXs(layoutIn, xs, st);
      st.cartesian <= r.cartesian && r.allX == st.allX
    decreases |xs|
  {
    if xs != [] {
      PairXsPrefix(layoutIn, xs[1..], PairX(layoutIn, xs[0], st));
    }
  }

  /** The y loop leaves the y list, `allY` and the gl2d list alone, only appends to the
      subplot list and the x list, and keeps the look-up objects within the subplots. */
  lemma {:induction false} PairYsFrame(layoutIn: seq<LayoutEntry>, ys: seq<nat>, st: Pass)
    requires Inv(st)
    ensures var r := PairYs(layoutIn, ys, st);
      && Inv(r)
      && r.gl2d == st.gl2d && r.allY == st.allY && r.yaxis == st.yaxis
      && st.cartesian <= r.cartesian && st.xaxis <= r.xaxis && st.allX <= r.allX
    decreases |ys|
  {
    if ys != [] {
      if ys[0] !in st.allY {
        var sp := SubplotId(XPartner(layoutIn, ys[0]), ys[0]);
        PartsAppend(st.cartesian, sp, st.gl2d);
        PushUniqueFacts(st.xaxis, sp.x);
      }
      PairYsFrame(layoutIn, ys[1..], PairY(layoutIn, ys[0], st));
    }
  }

  /** After the y loop every y axis it visited is part of some subplot. */
  lemma {:induction false} PairYsCovers(layoutIn: seq<LayoutEntry>, ys: seq<nat>, st: Pass)
    requires Inv(st)
    ensures forall y :: y in ys ==> y in YParts(All(PairYs(layoutIn, ys, st)))
    decreases |ys|
  {
    if ys != [] {
      var st' := PairY(layoutIn, ys[0], st);
      if ys[0] !in st.allY {
        PartsAppend(st.cartesian, st'.cartesian[|st.cartesian|], st.gl2d);
      }
      assert Inv(st');
      PairYsCovers(layoutIn, ys[1..], st');
      PairYsFrame(layoutIn, ys[1..], st');
      var r := PairYs(layoutIn, ys, st);
      assert ys[0] in YParts(All(st'));
      var t :| t in All(st') && t.y == ys[0];
      assert t in All(r);
      forall y | y in ys ensures y in YParts(All(r)) {
        if y != ys[0] {
          assert y in ys[1..];
        }
      }
    }
  }

  /** The x axes the y loop adds to its list are recorded in `allX`, never twice; when
      `allX` starts out as exactly the x parts of the subplots, it stays so. */
  lemma {:induction false} PairYsOther(layoutIn: seq<LayoutEntry>, ys: seq<nat>, st: Pass)
    ensures var r := PairYs(layoutIn, ys, st);
      && (forall x :: x in r.xaxis ==> x in st.xaxis || x in r.allX)
      && (NoDup(st.xaxis) ==> NoDup(r.xaxis))
      && (st.allX == XParts(All(st)) ==> r.allX == XParts(All(r)))
    decreases |ys|
  {
    if ys != [] {
      var st' := PairY(layoutIn, ys[0], st);
      if ys[0] !in st.allY {
        PartsAppend(st.cartesian, st'.cartesian[|st.cartesian|], st.gl2d);
        PushUniqueFacts(st.xaxis, st'.cartesian[|st.cartesian|].x);
      }
      PairYsOther(layoutIn, ys[1..], st');
      PairYsAllXGrows(layoutIn, ys[1..], st');
    }
  }

  /** `allX` only grows during the y loop (no invariant needed). */
  lemma {:induction false} PairYsAllXGrows(layoutIn: seq<LayoutEntry>, ys: seq<nat>, st: Pass)
    ensures st.allX <= PairYs(layoutIn, ys, st).allX
    decreases |ys|
  {
    if ys != [] {
      PairYsAllXGrows(layoutIn, ys[1..], PairY(layoutIn, ys[0], st));
    }
  }

  /** Each subplot the y loop creates is one of its y axes that no subplot had, paired
      with that axis's anchor (or the default x axis). */
  lemma {:induction false} PairYsCreates(layoutIn: seq<LayoutEntry>, ys: seq<nat>, st: Pass)
    ensures var r := PairYs(layoutIn, ys, st);
      forall k :: |st.cartesian| <= k < |r.cartesian| ==>
        r.cartesian[k].y in ys && r.cartesian[k].y !in st.allY &&
        r.cartesian[k].x == XPartner(layoutIn, r.cartesian[k].y)
    decreases |ys|
  {
    if ys != [] {
      var st' := PairY(layoutIn, ys[0], st);
      PairYsCreates(layoutIn, ys[1..], st');
      PairYsPrefix(layoutIn, ys[1..], st');
      var r := PairYs(layoutIn, ys, st);
      forall k | |st.cartesian| <= k < |r.cartesian|
        ensures r.cartesian[k].y in ys && r.cartesian[k].y !in st.allY
      {
        if k >= |st'.cartesian| {
          assert r.cartesian[k].y in ys[1..];
        } else {
          assert r.cartesian[k] == st'.cartesian[k];
        }
      }
    }
  }

  /** The y loop keeps `allY` and extends the subplot list (no invariant needed). */
  lemma {:induction false} PairYsPrefix(layoutIn: seq<LayoutEntry>, ys: seq<nat>, st: Pass)
    ensures var r := PairYs(layoutIn, ys, st);
      st.cartesian <= r.cartesian && r.allY == st.allY
    decreases |ys|
  {
    if ys != [] {
      PairYsPrefix(layoutIn, ys[1..], PairY(layoutIn, ys[0], st));
    }
  }

  lemma NoDupInsert(c: seq<SubplotId>, sp: SubplotId, g: seq<SubplotId>)
    requires NoDup(c + g) && sp !in c + g
    ensures NoDup(c + [sp] + g)
  {
    NoDupMultiplicity(c + g);
    NoDupMultiplicity(c + [sp] + g);
    assert multiset(c + [sp] + g) == multiset(c + g) + multiset{sp};
  }

  /** With no axis listed twice, the x loop never creates a subplot id that is already
      in use, nor the same one twice. */
  lemma {:induction false} PairXsDistinct(layoutIn: seq<LayoutEntry>, xs: seq<nat>, st: Pass)
    requires NoDup(All(st)) && NoDup(xs)
    requires forall x :: x in xs ==> x in st.allX || x !in XParts(All(st))
    ensures NoDup(All(PairXs(layoutIn, xs, st)))
    decreases |xs|
  {
    if xs != [] {
      var st' := PairX(layoutIn, xs[0], st);
      if xs[0] !in st.allX {
        var sp := SubplotId(xs[0], YPartner(layoutIn, xs[0]));
        assert sp !in All(st);
        NoDupInsert(st.cartesian, sp, st.gl2d);
        PartsAppend(st.cartesian, sp, st.gl2d);
      }
      forall x | x in xs[1..] ensures x in st'.allX || x !in XParts(All(st')) {
        assert x != xs[0] by {
          var j :| 0 <= j < |xs[1..]| && xs[1..][j] == x;
          assert xs[j + 1] == x;
        }
      }
      PairXsDistinct(layoutIn, xs[1..], st');
    }
  }

  lemma {:induction false} PairYsDistinct(layoutIn: seq<LayoutEntry>, ys: seq<nat>, st: Pass)
    requires NoDup(All(st)) && NoDup(ys)
    requires forall y :: y in ys ==> y in st.allY || y !in YParts(All(st))
    ensures NoDup(All(PairYs(layoutIn, ys, st)))
    decreases |ys|
  {
    if ys != [] {
      var st' := PairY(layoutIn, ys[0], st);
      if ys[0] !in st.allY {
        var sp := SubplotId(XPartner(layoutIn, ys[0]), ys[0]);
        assert sp !in All(st);
        NoDupInsert(st.cartesian, sp, st.gl2d);
        PartsAppend(st.cartesian, sp, st.gl2d);
      }
      forall y | y in ys[1..] ensures y in st'.allY || y !in YParts(All(st')) {
        assert y != ys[0] by {
          var j :| 0 <= j < |ys[1..]| && ys[1..][j] == y;
          assert ys[j + 1] == y;
        }
      }
      PairYsDistinct(layoutIn, ys[1..], st');
    }
  }

  /** A pass whose axes all already have a subplot changes nothing. */
  lemma {:induction false} PairXsNoop(layoutIn: seq<LayoutEntry>, xs: seq<nat>, st: Pass)
    requires forall x :: x in xs ==> x in st.allX
    ensures PairXs(layoutIn, xs, st) == st
    decreases |xs|
  {
    if xs != [] {
      PairXsNoop(layoutIn, xs[1..], st);
    }
  }

  lemma {:induction false} PairYsNoop(layoutIn: seq<LayoutEntry>, ys: seq<nat>, st: Pass)
    requires forall y :: y in ys ==> y in st.allY
    ensures PairYs(layoutIn, ys, st) == st
    decreases |ys|
  {
    if ys != [] {
      PairYsNoop(layoutIn, ys[1..], st);
    }
  }

  // ----- what finalizeSubplots guarantees -----

  /** The pass only appends: existing subplots and axis ids keep their positions, and the
      gl2d list is not touched. */
  lemma FinalizeOnlyAppends(layoutIn: seq<LayoutEntry>, lists: Lists)
    ensures var r := Finalized(layoutIn, lists);
      lists.cartesian <= r.cartesian && lists.xaxis <= r.xaxis && lists.yaxis <= r.yaxis
      && r.gl2d == lists.gl2d
  {
    var st0 := Start(lists);
    PairXsFrame(layoutIn, lists.xaxis, st0);
    var st1 := AfterX(layoutIn, lists);
    PairYsFrame(layoutIn, st1.yaxis, st1);
  }

  /** After the two loops every listed axis is in some subplot; in particular, with no
      subplot at all both axis lists are empty. */
  lemma {:induction false} LoopsCover(layoutIn: seq<LayoutEntry>, lists: Lists)
    ensures var st2 := AfterXY(layoutIn, lists);
      && (forall x :: x in st2.xaxis ==> x in XParts(All(st2)))
      && (forall y :: y in st2.yaxis ==> y in YParts(All(st2)))
      && (|All(st2)| == 0 ==> st2.xaxis == [] && st2.yaxis == [])
  {
    var st0 := Start(lists);
    PairXsFrame(layoutIn, lists.xaxis, st0);
    PairXsCovers(layoutIn, lists.xaxis, st0);
    var st1 := AfterX(layoutIn, lists);
    PairYsFrame(layoutIn, st1.yaxis, st1);
    PairYsCovers(layoutIn, st1.yaxis, st1);
    PairYsOther(layoutIn, st1.yaxis, st1);
    var st2 := AfterXY(layoutIn, lists);
    forall x | x in XParts(All(st1)) ensures x in XParts(All(st2)) {
      var t :| t in All(st1) && t.x == x;
      assert t in All(st2);
    }
    if |st2.xaxis| > 0 {
      assert st2.xaxis[0] in XParts(All(st2));
    }
    if |st2.yaxis| > 0 {
      assert st2.yaxis[0] in YParts(All(st2));
    }
  }

  /** Afterwards there is at least one subplot, and every listed x axis and y axis is
      part of some subplot. */
  lemma FinalizeCovers(layoutIn: seq<LayoutEntry>, lists: Lists)
    ensures var r := Finalized(layoutIn, lists);
      && |r.cartesian + r.gl2d| > 0
      && (forall x :: x in r.xaxis ==> x in XParts(r.cartesian + r.gl2d))
      && (forall y :: y in r.yaxis ==> y in YParts(r.cartesian + r.gl2d))
  {
    LoopsCover(layoutIn, lists);
    var st2 := AfterXY(layoutIn, lists);
    var r := Finalized(layoutIn, lists);
    if |All(st2)| == 0 {
      assert r.cartesian + r.gl2d == [SubplotId(DefaultSuffix(layoutIn, X), DefaultSuffix(layoutIn, Y))];
    } else {
      assert All(st2) == r.cartesian + r.gl2d;
    }
  }

  /** Each subplot the pass creates is either an x axis that had none, paired with its
      anchor (or 'y'), a y axis that had none, paired with its anchor (or 'x'), or, when
      there were no subplots and no axes at all, the pair of the lowest-numbered axis
      keys of the input layout. */
  lemma FinalizeAnchors(layoutIn: seq<LayoutEntry>, lists: Lists)
    ensures var r := Finalized(layoutIn, lists);
      var before := lists.cartesian + lists.gl2d;
      forall k :: |lists.cartesian| <= k < |r.cartesian| ==>
        var sp := r.cartesian[k];
        || (sp.x in lists.xaxis && sp.x !in XParts(before) && sp.y == YPartner(layoutIn, sp.x))
        || (sp.y in lists.yaxis && sp.y !in YParts(before) && sp.x == XPartner(layoutIn, sp.y))
        || (before == [] && lists.xaxis == [] && lists.yaxis == [] &&
            sp == SubplotId(DefaultSuffix(layoutIn, X), DefaultSuffix(layoutIn, Y)))
  {
    var st0 := Start(lists);
    PairXsFrame(layoutIn, lists.xaxis, st0);
    PairXsCreates(layoutIn, lists.xaxis, st0);
    PairXsOther(layoutIn, lists.xaxis, st0);
    var st1 := AfterX(layoutIn, lists);
    PairYsFrame(layoutIn, st1.yaxis, st1);
    PairYsCreates(layoutIn, st1.yaxis, st1);
    var st2 := AfterXY(layoutIn, lists);
    LoopsCover(layoutIn, lists);
  }

  /** Lists without repeats stay without repeats: no subplot id and no axis id is added
      twice or added when already present. */
  lemma FinalizeDistinct(layoutIn: seq<LayoutEntry>, lists: Lists)
    requires NoDup(lists.cartesian + lists.gl2d) && NoDup(lists.xaxis) && NoDup(lists.yaxis)
    ensures var r := Finalized(layoutIn, lists);
      NoDup(r.cartesian + r.gl2d) && NoDup(r.xaxis) && NoDup(r.yaxis)
  {
    var st0 := Start(lists);
    PairXsFrame(layoutIn, lists.xaxis, st0);
    PairXsOther(layoutIn, lists.xaxis, st0);
    PairXsDistinct(layoutIn, lists.xaxis, st0);
    var st1 := AfterX(layoutIn, lists);
    PairYsFrame(layoutIn, st1.yaxis, st1);
    PairYsOther(layoutIn, st1.yaxis, st1);
    PairYsDistinct(layoutIn, st1.yaxis, st1);
    FinalizeCovers(layoutIn, lists);
    LoopsCover(layoutIn, lists);
  }

  /** Running the pass a second time changes nothing. */
  lemma FinalizeIdempotent(layoutIn: seq<LayoutEntry>, lists: Lists)
    ensures Finalized(layoutIn, Finalized(layoutIn, lists)) == Finalized(layoutIn, lists)
  {
    var r := Finalized(layoutIn, lists);
    FinalizeCovers(layoutIn, lists);
    PairXsNoop(layoutIn, r.xaxis, Start(r));
    PairYsNoop(layoutIn, r.yaxis, Start(r));
  }
}
