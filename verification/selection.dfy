/** Per-subplot trace selection: the loop of `plot` in src/plots/cartesian/index.js.

    For every cartesian subplot, `plot` walks the calcdata in order and keeps the traces
    drawn on that subplot that were asked for (listed in `traces`, or carpet-based). When
    a kept trace fills to the next trace ('tonext', 'tonextx', 'tonexty'), the trace just
    before it on the same subplot is pulled in as well, unless it is already kept, because
    the fill of the later trace is drawn against it.

    Traces are named by their position in the calcdata. `SelectForSubplot` is the loop,
    proved against the characterisation `Selected`. */
module TraceSelection {
  import opened Seqs
  import opened Layout

  /** The `fill` attribute of a trace, as far as the selection cares. */
  datatype Fill = NoFill | ToZeroX | ToZeroY | ToNextX | ToNextY | ToNext | ToSelf

  /** What `plot` reads of `cd[0].trace`: its `index` in the full data, the subplot
      `xaxis + yaxis` it is drawn on, its fill, and whether `carpet` is set. */
  datatype CalcTrace = CalcTrace(index: nat, subplot: SubplotId, fill: Fill, carpet: bool)

  /** `['tonextx', 'tonexty', 'tonext'].indexOf(fill) !== -1` */
  predicate FillsToNext(f: Fill)
  {
    f == ToNextX || f == ToNextY || f == ToNext
  }

  predicate On(cd: seq<CalcTrace>, sp: SubplotId, j: nat)
    requires j < |cd|
  {
    cd[j].subplot == sp
  }

  /** The trace was asked for: its index is in the list, or it sits on a carpet. */
  predicate Requested(cd: seq<CalcTrace>, traces: seq<nat>, j: nat)
    requires j < |cd|
  {
    cd[j].index in traces || cd[j].carpet
  }

  /** The first calcdata position at or after `k` whose trace is on `sp`. */
  function NextOn(cd: seq<CalcTrace>, sp: SubplotId, k: nat): (r: Option<nat>)
    ensures r.Some? ==> k <= r.value < |cd| && On(cd, sp, r.value)
    ensures r.Some? ==> forall m :: k <= m < r.value ==> !On(cd, sp, m)
    ensures r.None? ==> forall m :: k <= m < |cd| ==> !On(cd, sp, m)
    decreases |cd| - k
  {
    if k >= |cd| then None
    else if cd[k].subplot == sp then Some(k)
    else NextOn(cd, sp, k + 1)
  }

  /** Trace `j` is pulled in by the next trace on the same subplot: that one is asked
      for and fills to its predecessor. */
  predicate PulledIn(cd: seq<CalcTrace>, traces: seq<nat>, sp: SubplotId, j: nat)
    requires j < |cd|
  {
    match NextOn(cd, sp, j + 1)
    case Some(k) => Requested(cd, traces, k) && FillsToNext(cd[k].fill)
    case None => false
  }

  /** Trace `j` ends up in the subplot's list. */
  predicate Selected(cd: seq<CalcTrace>, traces: seq<nat>, sp: SubplotId, j: nat)
    requires j < |cd|
  {
    On(cd, sp, j) && (Requested(cd, traces, j) || PulledIn(cd, traces, sp, j))
  }

  /** `cdSubplot` is the list `plot` builds for `sp`: the selected traces, each once, in
      calcdata order. */
  ghost predicate IsSelection(cd: seq<CalcTrace>, traces: seq<nat>, sp: SubplotId, r: seq<nat>)
  {
    && StrictlyIncreasing(r)
    && (forall p :: 0 <= p < |r| ==> r[p] < |cd|)
    && (forall j :: 0 <= j < |cd| ==> (j in r <==> Selected(cd, traces, sp, j)))
  }

  /** During the loop, the pull-in of `m` has already happened when its successor on
      the subplot lies before `j`. */
  predicate PulledBefore(cd: seq<CalcTrace>, traces: seq<nat>, sp: SubplotId, m: nat, j: nat)
    requires m < |cd|
  {
    PulledIn(cd, traces, sp, m) && NextOn(cd, sp, m + 1).value < j
  }

  /** The loop over the calcdata for one subplot (lines 158-189). */
  method SelectForSubplot(cd: seq<CalcTrace>, traces: seq<nat>, sp: SubplotId) returns (cdSubplot: seq<nat>)
    ensures IsSelection(cd, traces, sp, cdSubplot)
  {
    cdSubplot := [];
    var pcd: Option<nat> := None;
    var j := 0;
    while j < |cd|
      invariant 0 <= j <= |cd|
      invariant pcd.Some? ==> pcd.value < j && On(cd, sp, pcd.value)
      invariant pcd.Some? ==> forall m :: pcd.value < m < j ==> !On(cd, sp, m)
      invariant pcd.None? ==> forall m :: 0 <= m < j ==> !On(cd, sp, m)
      invariant StrictlyIncreasing(cdSubplot)
      invariant forall p :: 0 <= p < |cdSubplot| ==> cdSubplot[p] < j
      invariant forall m :: 0 <= m < j ==>
        (m in cdSubplot <==> On(cd, sp, m) && (Requested(cd, traces, m) || PulledBefore(cd, traces, sp, m, j)))
    {
      PulledBeforeStep(cd, traces, sp, pcd, j);
      if cd[j].subplot == sp {
        if cd[j].index in traces || cd[j].carpet {
          if pcd.Some? && cd[pcd.value].subplot == sp && FillsToNext(cd[j].fill) && pcd.value !in cdSubplot {
            // everything kept so far is on the subplot, so at or before pcd
            forall p | 0 <= p < |cdSubplot| ensures cdSubplot[p] < pcd.value {
              assert cdSubplot[p] in cdSubplot;
            }
            cdSubplot := cdSubplot + [pcd.value];
          }
          cdSubplot := cdSubplot + [j];
        }
        pcd := Some(j);
      }
      j := j + 1;
    }
  }

  /** The only pull-in decided at position `j` is that of `prev`, the previous trace on
      the subplot, and `j` itself is not pulled in yet. */
  lemma PulledBeforeStep(cd: seq<CalcTrace>, traces: seq<nat>, sp: SubplotId, prev: Option<nat>, j: nat)
    requires j < |cd|
    requires prev.Some? ==> prev.value < j && On(cd, sp, prev.value)
    requires prev.Some? ==> forall m :: prev.value < m < j ==> !On(cd, sp, m)
    requires prev.None? ==> forall m :: 0 <= m < j ==> !On(cd, sp, m)
    ensures forall m :: 0 <= m < j && On(cd, sp, m) ==>
      (PulledBefore(cd, traces, sp, m, j + 1) <==>
        PulledBefore(cd, traces, sp, m, j) ||
        (prev == Some(m) && On(cd, sp, j) && Requested(cd, traces, j) && FillsToNext(cd[j].fill)))
    ensures !PulledBefore(cd, traces, sp, j, j + 1)
  {
    forall m | 0 <= m < j && On(cd, sp, m)
      ensures PulledBefore(cd, traces, sp, m, j + 1) <==>
        PulledBefore(cd, traces, sp, m, j) ||
        (prev == Some(m) && On(cd, sp, j) && Requested(cd, traces, j) && FillsToNext(cd[j].fill))
    {
      if prev == Some(m) {
        if On(cd, sp, j) {
          NextOnIsSuccessor(cd, sp, m, j);
        }
      } else {
        assert m < prev.value;
      }
    }
  }

  /** With nothing on the subplot between `p` and `j`, the trace after `p` is `j`. */
  lemma NextOnIsSuccessor(cd: seq<CalcTrace>, sp: SubplotId, p: nat, j: nat)
    requires p < j < |cd| && On(cd, sp, j)
    requires forall m :: p < m < j ==> !On(cd, sp, m)
    ensures NextOn(cd, sp, p + 1) == Some(j)
  {
  }

  /** With no list of traces, `plot` asks for every calcdata position (lines 146-151). */
  method AllTraces(n: nat) returns (traces: seq<nat>)
    ensures |traces| == n && forall i :: 0 <= i < n ==> traces[i] == i
  {
    traces := [];
    var i := 0;
    while i < n
      invariant 0 <= i <= n
      invariant |traces| == i && forall k :: 0 <= k < i ==> traces[k] == k
    {
      traces := traces + [i];
      i := i + 1;
    }
  }

  /** The selection part of `plot`: one list per cartesian subplot, in subplot order. */
  method SelectAll(cd: seq<CalcTrace>, traces: Option<seq<nat>>, subplots: seq<SubplotId>)
    returns (requested: seq<nat>, selections: seq<seq<nat>>)
    ensures traces.Some? ==> requested == traces.value
    ensures traces.None? ==> |requested| == |cd| && forall i :: 0 <= i < |cd| ==> requested[i] == i
    ensures |selections| == |subplots|
    ensures forall i :: 0 <= i < |subplots| ==> IsSelection(cd, requested, subplots[i], selections[i])
  {
    if traces.Some? {
      requested := traces.value;
    } else {
      requested := AllTraces(|cd|);
    }
    selections := [];
    var i := 0;
    while i < |subplots|
      invariant 0 <= i <= |subplots|
      invariant |selections| == i
      invariant forall k :: 0 <= k < i ==> IsSelection(cd, requested, subplots[k], selections[k])
    {
      var s := SelectForSubplot(cd, requested, subplots[i]);
      selections := selections + [s];
      i := i + 1;
    }
  }

  // ----- properties of a selection -----

  /** A selected trace always belongs to the subplot it is listed under. */
  lemma SelectionOnSubplot(cd: seq<CalcTrace>, traces: seq<nat>, sp: SubplotId, r: seq<nat>, p: nat)
    requires IsSelection(cd, traces, sp, r) && p < |r|
    ensures r[p] < |cd| && cd[r[p]].subplot == sp
  {
    assert r[p] in r;
  }

  /** A trace that is pulled in sits immediately before the trace that pulled it in:
      no other trace of the list comes between them. */
  lemma {:induction false} PulledInIsAdjacent(cd: seq<CalcTrace>, traces: seq<nat>, sp: SubplotId, r: seq<nat>, p: nat)
    requires IsSelection(cd, traces, sp, r)
    requires p < |r| && PulledIn(cd, traces, sp, r[p])
    ensures p + 1 < |r| && Some(r[p + 1]) == NextOn(cd, sp, r[p] + 1)
  {
    var j := r[p];
    assert j in r;
    var k := NextOn(cd, sp, j + 1).value;
    assert Selected(cd, traces, sp, k);
    assert k in r;
    var q :| 0 <= q < |r| && r[q] == k;
    assert p < q;
    assert r[p + 1] <= r[q];
    assert r[p + 1] in r;
    assert On(cd, sp, r[p + 1]);
  }

  /** With no list of traces and calcdata indices that match the full-data indices, every
      trace of the subplot is selected. */
  lemma AllTracesSelectEverything(cd: seq<CalcTrace>, traces: seq<nat>, sp: SubplotId, r: seq<nat>, j: nat)
    requires |traces| == |cd| && forall i :: 0 <= i < |cd| ==> traces[i] == i
    requires forall i :: 0 <= i < |cd| ==> cd[i].index == i
    requires IsSelection(cd, traces, sp, r)
    requires j < |cd| && cd[j].subplot == sp
    ensures j in r
  {
    assert traces[j] == cd[j].index;
  }

  /** Asking for a trace on the subplot always selects it; without a tonext fill asking
      for nothing else selects nothing else. */
  lemma {:induction false} SelectionOfRequested(cd: seq<CalcTrace>, traces: seq<nat>, sp: SubplotId, r: seq<nat>)
    requires IsSelection(cd, traces, sp, r)
    requires forall i :: 0 <= i < |cd| ==> !FillsToNext(cd[i].fill)
    ensures forall j :: 0 <= j < |cd| ==> (j in r <==> On(cd, sp, j) && Requested(cd, traces, j))
  {
    forall j | 0 <= j < |cd| ensures !PulledIn(cd, traces, sp, j) {
      match NextOn(cd, sp, j + 1)
      case Some(k) =>
      case None =>
    }
  }
}
