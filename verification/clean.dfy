/** The removal set of `clean` in src/plots/cartesian/index.js (lines 600-660).

    When a figure is replotted, `clean` compares the old and the new full layout and
    removes what the new one no longer needs: every old subplot group when a figure of
    only large sploms turns into something else, every gl scene when gl traces are gone,
    every subplot layer when cartesian traces are gone, and otherwise the layers, drag
    layers and clip paths of exactly the old cartesian subplots that the new figure does
    not have.

    The DOM becomes the class `Drawing`: the sets of subplots that still have a subplot
    group, a drag layer and a clip path, the scenes destroyed so far, the overlays whose
    trace layers were emptied, and whether the axis clip paths and the axis constraint
    groups are still present. */
module Clean {
  import opened Seqs
  import opened Layout

  /** What `clean` reads of one full layout: `_plots`, `_subplots.cartesian` (absent when
      the layout has no subplot list), `_hasOnlyLargeSploms` and `_has('gl')`,
      `_has('cartesian')`. */
  datatype Figure = Figure(
    plots: map<SubplotId, PlotInfo>,
    cartesian: Option<seq<SubplotId>>,
    onlyLargeSploms: bool,
    hasGl: bool,
    hasCartesian: bool)

  datatype DrawingState = DrawingState(
    groups: set<SubplotId>,
    draggers: set<SubplotId>,
    clips: set<SubplotId>,
    destroyedScenes: set<SubplotId>,
    clearedTraces: set<SubplotId>,
    axesClips: bool,
    constraintGroups: bool)

  /** The old subplots the new figure does not have. */
  function Stale(ids: seq<SubplotId>, newPlots: map<SubplotId, PlotInfo>): set<SubplotId>
  {
    set id | id in ids && id !in newPlots
  }

  /** The overlays, among all overlays of `plots`, that belong to `removed`. */
  function OverlaysAmong(plots: map<SubplotId, PlotInfo>, removed: set<SubplotId>): set<SubplotId>
  {
    set k, o | k in plots && o in plots[k].overlays && o in removed :: o
  }

  /** `plotinfo.plotgroup.remove()` for every old subplot. */
  function AfterSplom(o: Figure, n: Figure, s: DrawingState): DrawingState
  {
    if o.onlyLargeSploms && !n.onlyLargeSploms then s.(groups := s.groups - o.plots.Keys) else s
  }

  /** `plotinfo._scene.destroy()` for every old subplot that has a scene. */
  function AfterGl(o: Figure, n: Figure, s: DrawingState): DrawingState
  {
    if o.hasGl && !n.hasGl then
      s.(destroyedScenes := s.destroyedScenes + set k | k in o.plots && o.plots[k].hasScene)
    else s
  }

  /** `purgeSubplotLayers` over every subplot group, then the axis clip paths and the
      constraint groups. */
  function Purged(plots: map<SubplotId, PlotInfo>, s: DrawingState): DrawingState
  {
    s.(groups := {},
       draggers := s.draggers - s.groups,
       clips := s.clips - s.groups,
       clearedTraces := s.clearedTraces + OverlaysAmong(plots, s.groups),
       axesClips := false,
       constraintGroups := false)
  }

  /** The stale subplots that were overlays: the selector `.id` also matches an
      overlay's trace group inside its main plot, and `.id-x`, `.id-y` its axis layers. */
  function StaleOverlays(oldPlots: map<SubplotId, PlotInfo>, stale: set<SubplotId>): set<SubplotId>
  {
    set id | id in stale && id in oldPlots && oldPlots[id].mainplot.Some?
  }

  /** The layers, drag layers and clip paths of the stale subplots removed, and the layers
      of the stale overlays inside their main plots. */
  function WithoutStale(oldPlots: map<SubplotId, PlotInfo>, stale: set<SubplotId>, s: DrawingState): DrawingState
  {
    s.(groups := s.groups - stale, draggers := s.draggers - stale, clips := s.clips - stale,
       clearedTraces := s.clearedTraces + StaleOverlays(oldPlots, stale))
  }

  /** The drawing after `clean(newFullData, newFullLayout, oldFullData, oldFullLayout)`. */
  function Cleaned(o: Figure, n: Figure, s: DrawingState): DrawingState
  {
    var s1 := AfterGl(o, n, AfterSplom(o, n, s));
    if o.hasCartesian && !n.hasCartesian then Purged(o.plots, s1)
    else if o.cartesian.Some? then WithoutStale(o.plots, Stale(o.cartesian.value, n.plots), s1)
    else s1
  }

  class Drawing {
    var groups: set<SubplotId>
    var draggers: set<SubplotId>
    var clips: set<SubplotId>
    var destroyedScenes: set<SubplotId>
    var clearedTraces: set<SubplotId>
    var axesClips: bool
    var constraintGroups: bool

    function Value(): DrawingState
      reads this
    {
      DrawingState(groups, draggers, clips, destroyedScenes, clearedTraces, axesClips, constraintGroups)
    }

    constructor (s: DrawingState)
      ensures Value() == s
    {
      groups, draggers, clips := s.groups, s.draggers, s.clips;
      destroyedScenes, clearedTraces := s.destroyedScenes, s.clearedTraces;
      axesClips, constraintGroups := s.axesClips, s.constraintGroups;
    }

    /** `clean`, without the axis titles. */
    method Clean(o: Figure, n: Figure)
      modifies this
      ensures Value() == Cleaned(o, n, old(Value()))
    {
      if o.onlyLargeSploms && !n.onlyLargeSploms {
        RemovePlotGroups(o.plots);
      }
      if o.hasGl && !n.hasGl {
        DestroyScenes(o.plots);
      }
      if o.hasCartesian && !n.hasCartesian {
        PurgeSubplotLayers(o.plots);
        axesClips, constraintGroups := false, false;
      } else if o.cartesian.Some? {
        RemoveStale(o.plots, o.cartesian.value, n.plots);
      }
    }

    /** Lines 610-615. */
    method RemovePlotGroups(plots: map<SubplotId, PlotInfo>)
      modifies this
      ensures Value() == old(Value()).(groups := old(groups) - plots.Keys)
    {
      var keys := plots.Keys;
      while keys != {}
        invariant keys <= plots.Keys
        invariant Value() == old(Value()).(groups := old(groups) - (plots.Keys - keys))
        decreases keys
      {
        var k :| k in keys;
        groups := groups - {k};
        keys := keys - {k};
      }
    }

    /** Lines 620-625. */
    method DestroyScenes(plots: map<SubplotId, PlotInfo>)
      modifies this
      ensures Value() == old(Value()).(destroyedScenes := old(destroyedScenes) + set k | k in plots && plots[k].hasScene)
    {
      var keys := plots.Keys;
      while keys != {}
        invariant keys <= plots.Keys
        invariant Value() == old(Value()).(destroyedScenes :=
          old(destroyedScenes) + set k | k in plots && k !in keys && plots[k].hasScene)
        decreases keys
      {
        var k :| k in keys;
        if plots[k].hasScene {
          destroyedScenes := destroyedScenes + {k};
        }
        keys := keys - {k};
      }
    }

    /** `purgeSubplotLayers(_cartesianlayer.selectAll('.subplot'), oldFullLayout)`
        (lines 862-893): every subplot group goes, with its drag layer and clip path, and
        the trace layers of the overlays among them are emptied. */
    method PurgeSubplotLayers(plots: map<SubplotId, PlotInfo>)
      modifies this
      ensures Value() == old(Value()).(groups := {}, draggers := old(draggers) - old(groups),
        clips := old(clips) - old(groups), clearedTraces := old(clearedTraces) + OverlaysAmong(plots, old(groups)))
    {
      var layers := groups;
      var removed: set<SubplotId> := {};
      while layers != {}
        invariant layers + removed == old(groups) && layers !! removed
        invariant groups == layers
        invariant draggers == old(draggers) - removed && clips == old(clips) - removed
        invariant destroyedScenes == old(destroyedScenes) && clearedTraces == old(clearedTraces)
        invariant axesClips == old(axesClips) && constraintGroups == old(constraintGroups)
        decreases layers
      {
        var id :| id in layers;
        groups := groups - {id};
        draggers, clips := draggers - {id}, clips - {id};
        removed := removed + {id};
        layers := layers - {id};
      }
      var keys := plots.Keys;
      while keys != {}
        invariant keys <= plots.Keys
        invariant groups == {} && draggers == old(draggers) - removed && clips == old(clips) - removed
        invariant clearedTraces == old(clearedTraces) + OverlaysAmong(plots - keys, removed)
        invariant destroyedScenes == old(destroyedScenes)
        invariant axesClips == old(axesClips) && constraintGroups == old(constraintGroups)
        decreases keys
      {
        var k :| k in keys;
        var overlays := plots[k].overlays;
        var cleared := clearedTraces;
        var j := 0;
        while j < |overlays|
          invariant 0 <= j <= |overlays|
          invariant cleared == clearedTraces + set o | o in overlays[..j] && o in removed
        {
          assert overlays[..j + 1] == overlays[..j] + [overlays[j]];
          if overlays[j] in removed {
            cleared := cleared + {overlays[j]};
          }
          j := j + 1;
        }
        assert overlays[..j] == overlays;
        clearedTraces := cleared;
        OverlaysAmongStep(plots, keys, k, removed);
        keys := keys - {k};
      }
      assert plots - {} == plots;
    }

    /** Lines 651-658: the layers, drag layers and clip paths of every old cartesian
        subplot missing from the new plots, and the layers of such a subplot inside its
        main plot when it was an overlay. */
    method RemoveStale(oldPlots: map<SubplotId, PlotInfo>, ids: seq<SubplotId>, newPlots: map<SubplotId, PlotInfo>)
      modifies this
      ensures Value() == WithoutStale(oldPlots, Stale(ids, newPlots), old(Value()))
    {
      var i := 0;
      while i < |ids|
        invariant 0 <= i <= |ids|
        invariant groups == old(groups) - Stale(ids[..i], newPlots)
        invariant draggers == old(draggers) - Stale(ids[..i], newPlots)
        invariant clips == old(clips) - Stale(ids[..i], newPlots)
        invariant clearedTraces == old(clearedTraces) + StaleOverlays(oldPlots, Stale(ids[..i], newPlots))
        invariant destroyedScenes == old(destroyedScenes)
        invariant axesClips == old(axesClips) && constraintGroups == old(constraintGroups)
      {
        StaleStep(oldPlots, ids, i, newPlots);
        var oldSubplotId := ids[i];
        if oldSubplotId !in newPlots {
          groups := groups - {oldSubplotId};
          draggers, clips := draggers - {oldSubplotId}, clips - {oldSubplotId};
          if oldSubplotId in oldPlots && oldPlots[oldSubplotId].mainplot.Some? {
            clearedTraces := clearedTraces + {oldSubplotId};
          }
        }
        i := i + 1;
      }
      assert ids[..i] == ids;
    }
  }

  /** One more old cartesian subplot on the list. */
  lemma StaleStep(oldPlots: map<SubplotId, PlotInfo>, ids: seq<SubplotId>, i: nat, newPlots: map<SubplotId, PlotInfo>)
    requires i < |ids|
    ensures var id := ids[i];
      && Stale(ids[..i + 1], newPlots) == Stale(ids[..i], newPlots) + (if id !in newPlots then {id} else {})
      && StaleOverlays(oldPlots, Stale(ids[..i + 1], newPlots)) == StaleOverlays(oldPlots, Stale(ids[..i], newPlots)) +
        (if id !in newPlots && id in oldPlots && oldPlots[id].mainplot.Some? then {id} else {})
  {
    assert ids[..i + 1] == ids[..i] + [ids[i]];
  }

  lemma OverlaysAmongStep(plots: map<SubplotId, PlotInfo>, keys: set<SubplotId>, k: SubplotId, removed: set<SubplotId>)
    requires k in keys && keys <= plots.Keys
    ensures OverlaysAmong(plots - (keys - {k}), removed) ==
      OverlaysAmong(plots - keys, removed) + set o | o in plots[k].overlays && o in removed
  {
    var l, r := OverlaysAmong(plots - (keys - {k}), removed), OverlaysAmong(plots - keys, removed);
    forall o | o in l ensures o in r || o in plots[k].overlays {
      var k' :| k' in plots - (keys - {k}) && o in (plots - (keys - {k}))[k'].overlays && o in removed;
      if k' != k {
        assert k' in plots - keys;
      }
    }
    forall o | o in plots[k].overlays && o in removed ensures o in l {
      assert k in plots - (keys - {k});
    }
    forall o | o in r ensures o in l {
      var k' :| k' in plots - keys && o in (plots - keys)[k'].overlays && o in removed;
      assert k' in plots - (keys - {k});
    }
  }

  // ----- what `clean` removes -----

  /** Unless cartesian traces are gone altogether, an old cartesian subplot loses its layer,
      drag layer and clip path exactly when the new figure does not have it, and nothing
      else on the list is touched. */
  lemma StaleRemoved(o: Figure, n: Figure, s: DrawingState, id: SubplotId)
    requires !(o.hasCartesian && !n.hasCartesian) && o.cartesian.Some?
    requires id in o.cartesian.value
    ensures var s1 := AfterGl(o, n, AfterSplom(o, n, s)); var c := Cleaned(o, n, s);
      (id in c.groups <==> id in s1.groups && id in n.plots) &&
      (id in c.draggers <==> id in s.draggers && id in n.plots) &&
      (id in c.clips <==> id in s.clips && id in n.plots) &&
      (id in c.clearedTraces <==> id in s.clearedTraces || (id !in n.plots && id in o.plots && o.plots[id].mainplot.Some?))
  {
  }

  /** A subplot that was not an old cartesian subplot keeps its drag layer and clip path. */
  lemma OthersKept(o: Figure, n: Figure, s: DrawingState, id: SubplotId)
    requires o.cartesian.Some? ==> id !in o.cartesian.value
    ensures o.hasCartesian && !n.hasCartesian ==>
      (id in Cleaned(o, n, s).draggers <==> id in s.draggers && id !in AfterSplom(o, n, s).groups)
    ensures !(o.hasCartesian && !n.hasCartesian) ==>
      (id in Cleaned(o, n, s).draggers <==> id in s.draggers) &&
      (id in Cleaned(o, n, s).clips <==> id in s.clips) &&
      (id in Cleaned(o, n, s).groups <==> id in AfterSplom(o, n, s).groups) &&
      (id in Cleaned(o, n, s).clearedTraces <==> id in s.clearedTraces)
  {
  }

  /** Without cartesian traces in the new figure, no subplot group is left. */
  lemma CartesianGoneLeavesNoGroups(o: Figure, n: Figure, s: DrawingState)
    requires o.hasCartesian && !n.hasCartesian
    ensures Cleaned(o, n, s).groups == {}
    ensures Cleaned(o, n, s).draggers !! AfterSplom(o, n, s).groups
    ensures !Cleaned(o, n, s).axesClips && !Cleaned(o, n, s).constraintGroups
  {
  }

  /** Scenes are destroyed only when gl traces are gone, and then exactly those of the
      old subplots that have one. */
  lemma ScenesDestroyed(o: Figure, n: Figure, s: DrawingState, k: SubplotId)
    requires k !in s.destroyedScenes
    ensures k in Cleaned(o, n, s).destroyedScenes <==> o.hasGl && !n.hasGl && k in o.plots && o.plots[k].hasScene
  {
  }

  /** Cleaning a second time with the same two figures changes nothing more. */
  lemma CleanIdempotent(o: Figure, n: Figure, s: DrawingState)
    ensures Cleaned(o, n, Cleaned(o, n, s)) == Cleaned(o, n, s)
  {
    var c := Cleaned(o, n, s);
    var c2 := Cleaned(o, n, c);
    if o.hasCartesian && !n.hasCartesian {
      assert OverlaysAmong(o.plots, {}) == {};
      assert c2.draggers == c.draggers;
    }
  }
}
