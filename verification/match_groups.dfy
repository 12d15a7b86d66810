/** The match-group pass of `doAutoRangeAndConstraints` in src/plot_api/subroutines.js
    (lines 292-322).

    Axes that match each other (`matches`) form a group. After every axis has been
    autoranged on its own, each group whose members all autorange gets one common range:
    the union of the members' ranges, taken in the direction of the range gathered so far
    (smallest start and largest end for an increasing range; largest start and smallest
    end for a reversed one). The common range is written back to every member, both as
    `range` and as the user-facing `_input.range`. A group with any member that does not
    autorange is left alone.

    Ranges are compared after `r2l` (range to linear) and written back through `l2r`;
    both are per-axis conversions outside this model and become parameters. */
module MatchGroups {
  import opened Layout

  /** A two-ended range `[r0, r1]`; r0 > r1 means reversed. */
  datatype Range = Range(r0: real, r1: real)

  /** `ax.autorange`: only `false` matters to the pass. */
  datatype Autorange = AutorangeTrue | AutorangeFalse | AutorangeReversed

  datatype AxisState = AxisState(range: Range, inputRange: Range, autorange: Autorange)

  /** The accumulator `rng`: nothing yet, or the range so far; `Abandoned` is
      `continue groupLoop`. */
  datatype Scan = Empty | Accumulated(rng: Range) | Abandoned

  function Min(a: real, b: real): real { if a <= b then a else b }
  function Max(a: real, b: real): real { if a >= b then a else b }

  /** `Lib.simpleMap(range, f)` */
  function MapRange(r: Range, f: real -> real): Range
  {
    Range(f(r.r0), f(r.r1))
  }

  /** One member folded into `rng` (lines 304-312). */
  function Merge(rng: Range, axRng: Range): Range
  {
    if rng.r0 < rng.r1 then Range(Min(rng.r0, axRng.r0), Max(rng.r1, axRng.r1))
    else Range(Max(rng.r0, axRng.r0), Min(rng.r1, axRng.r1))
  }

  ghost predicate AllIn(axes: map<AxisId, AxisState>, group: seq<AxisId>)
  {
    forall id :: id in group ==> id in axes
  }

  function Step(acc: Scan, ax: AxisState, axRng: Range): Scan
  {
    if ax.autorange == AutorangeFalse then Abandoned
    else match acc
      case Abandoned => Abandoned
      case Empty => Accumulated(axRng)
      case Accumulated(rng) => Accumulated(Merge(rng, axRng))
  }

  /** The first loop over a group (lines 299-313), member by member in order. */
  function ScanOf(axes: map<AxisId, AxisState>, group: seq<AxisId>, r2l: AxisId -> real -> real): Scan
    requires AllIn(axes, group)
  {
    if group == [] then Empty
    else
      var id := group[|group| - 1];
      Step(ScanOf(axes, group[..|group| - 1], r2l), axes[id], MapRange(axes[id].range, r2l(id)))
  }

  /** The second loop (lines 315-320) with the common range `rng`. */
  function WriteBack(axes: map<AxisId, AxisState>, group: seq<AxisId>, rng: Range, l2r: AxisId -> real -> real): map<AxisId, AxisState>
  {
    map k | k in axes :: if k in group then axes[k].(range := MapRange(rng, l2r(k)), inputRange := MapRange(rng, l2r(k))) else axes[k]
  }

  /** One group: written back when its scan accumulated a range, unchanged otherwise. */
  function MatchGroup(axes: map<AxisId, AxisState>, group: seq<AxisId>, r2l: AxisId -> real -> real, l2r: AxisId -> real -> real): map<AxisId, AxisState>
    requires AllIn(axes, group)
  {
    match ScanOf(axes, group, r2l)
    case Accumulated(rng) => WriteBack(axes, group, rng, l2r)
    case _ => axes
  }

  ghost predicate AllGroupsIn(axes: map<AxisId, AxisState>, groups: seq<seq<AxisId>>)
  {
    forall g :: g in groups ==> AllIn(axes, g)
  }

  /** Every group in order, each seeing the ranges the earlier ones wrote. */
  function Matched(axes: map<AxisId, AxisState>, groups: seq<seq<AxisId>>, r2l: AxisId -> real -> real, l2r: AxisId -> real -> real): (r: map<AxisId, AxisState>)
    requires AllGroupsIn(axes, groups)
    ensures r.Keys == axes.Keys
  {
    if groups == [] then axes
    else
      var before := Matched(axes, groups[..|groups| - 1], r2l, l2r);
      assert groups[|groups| - 1] in groups;
      MatchGroup(before, groups[|groups| - 1], r2l, l2r)
  }

  /** The axes of the figure, whose ranges the pass updates in place. */
  class AxisTable {
    var axes: map<AxisId, AxisState>

    constructor (axes: map<AxisId, AxisState>)
      ensures this.axes == axes
    {
      this.axes := axes;
    }

    /** `groupLoop` over `_axisMatchGroups` (lines 294-321). */
    method MatchGroupRanges(groups: seq<seq<AxisId>>, r2l: AxisId -> real -> real, l2r: AxisId -> real -> real)
      requires AllGroupsIn(axes, groups)
      modifies this
      ensures axes == Matched(old(axes), groups, r2l, l2r)
    {
      ghost var axes0 := axes;
      var j := 0;
      while j < |groups|
        invariant 0 <= j <= |groups|
        invariant AllGroupsIn(axes0, groups[..j])
        invariant axes == Matched(axes0, groups[..j], r2l, l2r)
      {
        assert groups[..j + 1][..j] == groups[..j];
        var group := groups[j];
        assert group in groups;
        var scan := ScanGroup(axes, group, r2l);
        if scan.Accumulated? {
          SetRanges(group, scan.rng, l2r);
        }
        j := j + 1;
      }
      assert groups[..j] == groups;
    }

    /** Lines 315-320: the common range written to every member. */
    method SetRanges(group: seq<AxisId>, rng: Range, l2r: AxisId -> real -> real)
      requires AllIn(axes, group)
      modifies this
      ensures axes == WriteBack(old(axes), group, rng, l2r)
    {
      var i := 0;
      while i < |group|
        invariant 0 <= i <= |group|
        invariant axes == WriteBack(old(axes), group[..i], rng, l2r)
      {
        assert group[..i + 1] == group[..i] + [group[i]];
        var id := group[i];
        assert id in group;
        var r := MapRange(rng, l2r(id));
        axes := axes[id := axes[id].(range := r, inputRange := r)];
        i := i + 1;
      }
      assert group[..i] == group;
    }
  }

  /** Lines 299-313: the range of a group, or `Abandoned` at its first member that does
      not autorange. */
  method ScanGroup(axes: map<AxisId, AxisState>, group: seq<AxisId>, r2l: AxisId -> real -> real) returns (scan: Scan)
    requires AllIn(axes, group)
    ensures scan == ScanOf(axes, group, r2l)
  {
    scan := Empty;
    var i := 0;
    while i < |group|
      invariant 0 <= i <= |group|
      invariant scan == ScanOf(axes, group[..i], r2l) && !scan.Abandoned?
    {
      assert group[..i + 1][..i] == group[..i];
      var ax := axes[group[i]];
      if ax.autorange == AutorangeFalse {
        FalseMemberAbandons(axes, group, r2l, i);
        return Abandoned;
      }
      var axRng := MapRange(ax.range, r2l(group[i]));
      if scan.Accumulated? {
        var rng := scan.rng;
        if rng.r0 < rng.r1 {
          rng := Range(Min(rng.r0, axRng.r0), Max(rng.r1, axRng.r1));
        } else {
          rng := Range(Max(rng.r0, axRng.r0), Min(rng.r1, axRng.r1));
        }
        scan := Accumulated(rng);
      } else {
        scan := Accumulated(axRng);
      }
      i := i + 1;
    }
    assert group[..i] == group;
  }

  // ----- properties of the pass -----

  /** A member that does not autorange abandons the whole group. */
  lemma {:induction false} FalseMemberAbandons(axes: map<AxisId, AxisState>, group: seq<AxisId>, r2l: AxisId -> real -> real, i: nat)
    requires AllIn(axes, group) && i < |group|
    requires axes[group[i]].autorange == AutorangeFalse
    ensures ScanOf(axes, group, r2l) == Abandoned
  {
    if i < |group| - 1 {
      var prefix := group[..|group| - 1];
      assert prefix[i] == group[i];
      FalseMemberAbandons(axes, prefix, r2l, i);
    }
  }

  /** A group with a member that does not autorange keeps every range as it was. */
  lemma AbandonedGroupUnchanged(axes: map<AxisId, AxisState>, group: seq<AxisId>, r2l: AxisId -> real -> real, l2r: AxisId -> real -> real, i: nat)
    requires AllIn(axes, group) && i < |group|
    requires axes[group[i]].autorange == AutorangeFalse
    ensures MatchGroup(axes, group, r2l, l2r) == axes
  {
    FalseMemberAbandons(axes, group, r2l, i);
  }

  /** A group accumulates only when it is not empty and every member autoranges. */
  lemma {:induction false} AccumulatedMembersAutorange(axes: map<AxisId, AxisState>, group: seq<AxisId>, r2l: AxisId -> real -> real)
    requires AllIn(axes, group)
    ensures ScanOf(axes, group, r2l).Accumulated? ==>
      group != [] && forall id :: id in group ==> axes[id].autorange != AutorangeFalse
  {
    if group != [] {
      var prefix := group[..|group| - 1];
      assert group == prefix + [group[|group| - 1]];
      AccumulatedMembersAutorange(axes, prefix, r2l);
    }
  }

  /** A group whose members all autorange accumulates a range. */
  lemma {:induction false} AutorangedGroupAccumulates(axes: map<AxisId, AxisState>, group: seq<AxisId>, r2l: AxisId -> real -> real)
    requires AllIn(axes, group) && group != []
    requires forall id :: id in group ==> axes[id].autorange != AutorangeFalse
    ensures ScanOf(axes, group, r2l).Accumulated?
  {
    var prefix := group[..|group| - 1];
    assert group[|group| - 1] in group;
    if prefix != [] {
      assert forall id :: id in prefix ==> id in group;
      AutorangedGroupAccumulates(axes, prefix, r2l);
    }
  }

  /** The linearised range of a member. */
  function Lin(axes: map<AxisId, AxisState>, id: AxisId, r2l: AxisId -> real -> real): Range
    requires id in axes
  {
    MapRange(axes[id].range, r2l(id))
  }

  /** The range runs upwards (`up`) or is reversed. */
  predicate RunsWay(a: Range, up: bool)
  {
    if up then a.r0 < a.r1 else a.r0 > a.r1
  }

  /** `a` lies within `r`, both running the way `up` says. */
  predicate Inside(a: Range, r: Range, up: bool)
  {
    if up then r.r0 <= a.r0 && a.r1 <= r.r1 else a.r0 <= r.r0 && r.r1 <= a.r1
  }

  /** `r` holds the linearised range of every member of `group` and shares its start
      with one of them and its end with one of them. */
  ghost predicate Hull(axes: map<AxisId, AxisState>, group: seq<AxisId>, r2l: AxisId -> real -> real, r: Range, up: bool)
    requires AllIn(axes, group)
  {
    && RunsWay(r, up)
    && (forall i :: 0 <= i < |group| ==> Inside(Lin(axes, group[i], r2l), r, up))
    && (exists i :: 0 <= i < |group| && r.r0 == Lin(axes, group[i], r2l).r0)
    && (exists i :: 0 <= i < |group| && r.r1 == Lin(axes, group[i], r2l).r1)
  }

  /** Merging the last member into the hull of the others gives the hull of the group. */
  lemma HullStep(axes: map<AxisId, AxisState>, group: seq<AxisId>, r2l: AxisId -> real -> real, p: Range, up: bool)
    requires AllIn(axes, group) && |group| > 1
    requires AllIn(axes, group[..|group| - 1]) && Hull(axes, group[..|group| - 1], r2l, p, up)
    requires RunsWay(Lin(axes, group[|group| - 1], r2l), up)
    ensures Hull(axes, group, r2l, Merge(p, Lin(axes, group[|group| - 1], r2l)), up)
  {
    var n := |group| - 1;
    var prefix := group[..n];
    var l := Lin(axes, group[n], r2l);
    var r := Merge(p, l);
    forall i | 0 <= i < |group| ensures Inside(Lin(axes, group[i], r2l), r, up) {
      if i < n {
        assert group[i] == prefix[i];
      }
    }
    var w0 :| 0 <= w0 < n && p.r0 == Lin(axes, prefix[w0], r2l).r0;
    var w1 :| 0 <= w1 < n && p.r1 == Lin(axes, prefix[w1], r2l).r1;
    assert group[w0] == prefix[w0] && group[w1] == prefix[w1];
    var v0 := if r.r0 == p.r0 then w0 else n;
    var v1 := if r.r1 == p.r1 then w1 else n;
    assert r.r0 == Lin(axes, group[v0], r2l).r0;
    assert r.r1 == Lin(axes, group[v1], r2l).r1;
  }

  /** The scan of a non-empty group whose members' linearised ranges all run the same
      way accumulates their hull. */
  lemma {:induction false} ScanIsHull(axes: map<AxisId, AxisState>, group: seq<AxisId>, r2l: AxisId -> real -> real, up: bool)
    requires AllIn(axes, group) && group != []
    requires forall i :: 0 <= i < |group| ==>
      axes[group[i]].autorange != AutorangeFalse && RunsWay(Lin(axes, group[i], r2l), up)
    ensures ScanOf(axes, group, r2l).Accumulated?
    ensures Hull(axes, group, r2l, ScanOf(axes, group, r2l).rng, up)
  {
    var n := |group| - 1;
    var prefix := group[..n];
    var l := Lin(axes, group[n], r2l);
    assert forall id :: id in prefix ==> id in group;
    if n == 0 {
      assert ScanOf(axes, group, r2l) == Accumulated(l);
      assert l.r0 == Lin(axes, group[0], r2l).r0 && l.r1 == Lin(axes, group[0], r2l).r1;
    } else {
      forall i | 0 <= i < |prefix|
        ensures axes[prefix[i]].autorange != AutorangeFalse && RunsWay(Lin(axes, prefix[i], r2l), up)
      {
        assert prefix[i] == group[i];
      }
      ScanIsHull(axes, prefix, r2l, up);
      var p := ScanOf(axes, prefix, r2l).rng;
      HullStep(axes, group, r2l, p, up);
      assert ScanOf(axes, group, r2l) == Accumulated(Merge(p, l));
    }
  }

  /** When every member's range increases, the common range is the smallest range that
      holds them all: it starts at the least start and ends at the greatest end. */
  lemma IncreasingUnion(axes: map<AxisId, AxisState>, group: seq<AxisId>, r2l: AxisId -> real -> real)
    requires AllIn(axes, group)
    requires forall id :: id in group ==> axes[id].autorange != AutorangeFalse
    requires forall id :: id in group ==> Lin(axes, id, r2l).r0 < Lin(axes, id, r2l).r1
    ensures ScanOf(axes, group, r2l).Accumulated? <==> group != []
    ensures ScanOf(axes, group, r2l).Accumulated? ==>
      var r := ScanOf(axes, group, r2l).rng;
      r.r0 < r.r1 &&
      (forall id :: id in group ==> r.r0 <= Lin(axes, id, r2l).r0 && Lin(axes, id, r2l).r1 <= r.r1) &&
      (exists id :: id in group && r.r0 == Lin(axes, id, r2l).r0) &&
      (exists id :: id in group && r.r1 == Lin(axes, id, r2l).r1)
  {
    if group != [] {
      UnionFromHull(axes, group, r2l, true);
    }
  }

  /** When every member's range is reversed, the common range is reversed too and holds
      them all: it starts at the greatest start and ends at the least end. */
  lemma ReversedUnion(axes: map<AxisId, AxisState>, group: seq<AxisId>, r2l: AxisId -> real -> real)
    requires AllIn(axes, group)
    requires forall id :: id in group ==> axes[id].autorange != AutorangeFalse
    requires forall id :: id in group ==> Lin(axes, id, r2l).r0 > Lin(axes, id, r2l).r1
    ensures ScanOf(axes, group, r2l).Accumulated? <==> group != []
    ensures ScanOf(axes, group, r2l).Accumulated? ==>
      var r := ScanOf(axes, group, r2l).rng;
      r.r0 > r.r1 &&
      (forall id :: id in group ==> Lin(axes, id, r2l).r0 <= r.r0 && r.r1 <= Lin(axes, id, r2l).r1) &&
      (exists id :: id in group && r.r0 == Lin(axes, id, r2l).r0) &&
      (exists id :: id in group && r.r1 == Lin(axes, id, r2l).r1)
  {
    if group != [] {
      UnionFromHull(axes, group, r2l, false);
    }
  }

  /** The hull, stated over the members rather than their positions. */
  lemma UnionFromHull(axes: map<AxisId, AxisState>, group: seq<AxisId>, r2l: AxisId -> real -> real, up: bool)
    requires AllIn(axes, group) && group != []
    requires forall id :: id in group ==> axes[id].autorange != AutorangeFalse && RunsWay(Lin(axes, id, r2l), up)
    ensures ScanOf(axes, group, r2l).Accumulated?
    ensures var r := ScanOf(axes, group, r2l).rng;
      RunsWay(r, up) &&
      (forall id :: id in group ==> Inside(Lin(axes, id, r2l), r, up)) &&
      (exists id :: id in group && r.r0 == Lin(axes, id, r2l).r0) &&
      (exists id :: id in group && r.r1 == Lin(axes, id, r2l).r1)
  {
    forall i | 0 <= i < |group|
      ensures axes[group[i]].autorange != AutorangeFalse && RunsWay(Lin(axes, group[i], r2l), up)
    {
      assert group[i] in group;
    }
    ScanIsHull(axes, group, r2l, up);
    var r := ScanOf(axes, group, r2l).rng;
    var w0 :| 0 <= w0 < |group| && r.r0 == Lin(axes, group[w0], r2l).r0;
    var w1 :| 0 <= w1 < |group| && r.r1 == Lin(axes, group[w1], r2l).r1;
    assert group[w0] in group && group[w1] in group;
  }

  /** After a group accumulates, every member holds the same linear range, written to
      both `range` and `_input.range`; axes outside the group are untouched. */
  lemma WriteBackUniform(axes: map<AxisId, AxisState>, group: seq<AxisId>, r2l: AxisId -> real -> real, l2r: AxisId -> real -> real, k: AxisId)
    requires AllIn(axes, group) && ScanOf(axes, group, r2l).Accumulated? && k in axes
    ensures var after := MatchGroup(axes, group, r2l, l2r);
      k in after &&
      after[k].autorange == axes[k].autorange &&
      (k in group ==> after[k].range == after[k].inputRange == MapRange(ScanOf(axes, group, r2l).rng, l2r(k))) &&
      (k !in group ==> after[k] == axes[k])
  {
  }

  /** Merging a range with itself gives it back, in either direction. */
  lemma MergeSelf(r: Range)
    ensures Merge(r, r) == r
  {
  }

  /** When `r2l` undoes `l2r` on every member, matching a group a second time changes
      nothing: every member already holds the common range. */
  lemma MatchGroupIdempotent(axes: map<AxisId, AxisState>, group: seq<AxisId>, r2l: AxisId -> real -> real, l2r: AxisId -> real -> real)
    requires AllIn(axes, group)
    requires forall id, x :: id in group ==> r2l(id)(l2r(id)(x)) == x
    ensures MatchGroup(MatchGroup(axes, group, r2l, l2r), group, r2l, l2r) == MatchGroup(axes, group, r2l, l2r)
  {
    var once := MatchGroup(axes, group, r2l, l2r);
    match ScanOf(axes, group, r2l)
    case Accumulated(rng) =>
      AccumulatedMembersAutorange(axes, group, r2l);
      SameRangeScan(once, group, r2l, rng);
      assert MatchGroup(once, group, r2l, l2r) == WriteBack(once, group, rng, l2r);
      forall k | k in once ensures WriteBack(once, group, rng, l2r)[k] == once[k] {
      }
    case _ =>
  }

  /** A group whose members all autorange and all read `rng` scans to `rng`. */
  lemma {:induction false} SameRangeScan(axes: map<AxisId, AxisState>, group: seq<AxisId>, r2l: AxisId -> real -> real, rng: Range)
    requires AllIn(axes, group) && group != []
    requires forall id :: id in group ==> axes[id].autorange != AutorangeFalse && Lin(axes, id, r2l) == rng
    ensures ScanOf(axes, group, r2l) == Accumulated(rng)
  {
    var prefix := group[..|group| - 1];
    assert group[|group| - 1] in group;
    if prefix != [] {
      assert forall id :: id in prefix ==> id in group;
      SameRangeScan(axes, prefix, r2l, rng);
      MergeSelf(rng);
    }
  }

  /** The first member seeds the accumulator unchanged (line 311), so a group of one
      autoranged axis keeps its range when `l2r` undoes `r2l` on it. */
  lemma SingleMemberKeepsRange(axes: map<AxisId, AxisState>, id: AxisId, r2l: AxisId -> real -> real, l2r: AxisId -> real -> real)
    requires id in axes && axes[id].autorange != AutorangeFalse
    requires forall x :: l2r(id)(r2l(id)(x)) == x
    ensures var after := MatchGroup(axes, [id], r2l, l2r);
      id in after && after[id].range == after[id].inputRange == axes[id].range
  {
    assert AllIn(axes, [id]);
    SameRangeScan(axes, [id], r2l, Lin(axes, id, r2l));
    var r := axes[id].range;
    assert MapRange(MapRange(r, r2l(id)), l2r(id)) == Range(l2r(id)(r2l(id)(r.r0)), l2r(id)(r2l(id)(r.r1)));
  }

  /** Groups that share no axis. */
  ghost predicate Disjoint(groups: seq<seq<AxisId>>)
  {
    forall i, j, id :: 0 <= i < |groups| && 0 <= j < |groups| && i != j && id in groups[i] ==> id !in groups[j]
  }

  /** The scan of a group reads only its members. */
  lemma {:induction false} ScanReadsMembers(a: map<AxisId, AxisState>, b: map<AxisId, AxisState>, group: seq<AxisId>, r2l: AxisId -> real -> real)
    requires AllIn(a, group) && AllIn(b, group)
    requires forall i :: 0 <= i < |group| ==> a[group[i]] == b[group[i]]
    ensures ScanOf(a, group, r2l) == ScanOf(b, group, r2l)
  {
    if group != [] {
      var n := |group| - 1;
      assert group[n] in group;
      assert forall i :: 0 <= i < n ==> group[..n][i] == group[i];
      ScanReadsMembers(a, b, group[..n], r2l);
    }
  }

  /** An axis that is in no group keeps its state through the whole pass. */
  lemma {:induction false} MatchedUntouched(axes: map<AxisId, AxisState>, groups: seq<seq<AxisId>>, r2l: AxisId -> real -> real, l2r: AxisId -> real -> real, k: AxisId)
    requires AllGroupsIn(axes, groups) && k in axes
    requires forall j :: 0 <= j < |groups| ==> k !in groups[j]
    ensures Matched(axes, groups, r2l, l2r)[k] == axes[k]
  {
    if groups != [] {
      var n := |groups| - 1;
      assert forall g :: g in groups[..n] ==> g in groups;
      assert forall j :: 0 <= j < n ==> groups[..n][j] == groups[j];
      MatchedUntouched(axes, groups[..n], r2l, l2r, k);
    }
  }

  /** For groups that share no axis, the whole pass leaves every member of a group as
      matching that group alone against the original axes would. */
  lemma {:induction false} MatchedPerGroup(axes: map<AxisId, AxisState>, groups: seq<seq<AxisId>>, r2l: AxisId -> real -> real, l2r: AxisId -> real -> real, j: nat, k: AxisId)
    requires AllGroupsIn(axes, groups) && Disjoint(groups)
    requires j < |groups| && k in groups[j]
    ensures groups[j] in groups && k in axes
    ensures Matched(axes, groups, r2l, l2r)[k] == MatchGroup(axes, groups[j], r2l, l2r)[k]
  {
    assert groups[j] in groups;
    var n := |groups| - 1;
    var pre, last := groups[..n], groups[n];
    assert forall g :: g in pre ==> g in groups;
    assert forall i :: 0 <= i < n ==> pre[i] == groups[i];
    assert groups[n] in groups;
    var before := Matched(axes, pre, r2l, l2r);
    if j == n {
      forall i | 0 <= i < |last|
        ensures before[last[i]] == axes[last[i]]
      {
        assert last[i] in last;
        MatchedUntouched(axes, pre, r2l, l2r, last[i]);
      }
      ScanReadsMembers(before, axes, last, r2l);
    } else {
      assert k !in last;
      assert pre[j] == groups[j];
      MatchedPerGroup(axes, pre, r2l, l2r, j, k);
    }
  }
}
