/** The vocabulary of the cartesian layout: axis ids, subplot ids, domains and the
    per-subplot record (`plotinfo`) that `fullLayout._plots` holds.

    An axis id such as "x", "x2" or "y13" is a letter and a numeric suffix; suffix 0
    stands for the bare letter, which is also what `+ "".substr(5)` evaluates to when
    the source compares layout keys. The id and layout-key patterns of the source accept
    the bare letter or a suffix of at least 2 (never "x1" or "xaxis1").
    A subplot id "x2y3" is the pair of its two suffixes. */
module Layout {
  import opened Seqs

  datatype Letter = X | Y

  datatype AxisId = AxisId(letter: Letter, suffix: nat)

  /** The suffixes the id pattern accepts: none, or an integer of at least 2. */
  predicate ValidSuffix(n: nat)
  {
    n != 1
  }

  /** Subplot "x<x>y<y>": the x-axis suffix and the y-axis suffix. */
  datatype SubplotId = SubplotId(x: nat, y: nat)

  /** A domain or a range end pair `[d0, d1]`. */
  datatype Interval = Interval(lo: real, hi: real)

  /** Which layer an axis asks its lines and labels to go in ('above traces' or 'below traces'). */
  datatype AxisLayer = AboveTraces | BelowTraces

  /** The fields of a `plotinfo` that the core reads or writes.
      xMain / yMain are the suffixes of `xaxis._mainAxis._id` and `yaxis._mainAxis._id`;
      xOverlaying / yOverlaying are the axes' `overlaying` attributes;
      mainplot and overlays are filled in by makeSubplotData;
      hasScene says whether `plotinfo._scene` is set. */
  datatype PlotInfo = PlotInfo(
    xMain: nat,
    yMain: nat,
    xDomain: Interval,
    yDomain: Interval,
    xLayer: AxisLayer,
    yLayer: AxisLayer,
    xOverlaying: Option<nat>,
    yOverlaying: Option<nat>,
    mainplot: Option<SubplotId>,
    overlays: seq<SubplotId>,
    hasScene: bool)
}
