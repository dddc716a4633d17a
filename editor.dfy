/**
 * The particle editor's state logic: the bound edits that reject a pair whose
 * minimum exceeds its maximum and keep the old bounds, the flag that drops one
 * simulation step after a file or reset operation, the cached save path with
 * its default extension, loading, resetting, and the active-particle count.
 *
 * Widgets and file dialogs are inputs: `None` when the widget reports no
 * change or the dialog is cancelled, `Some(v)` with the chosen value otherwise.
 */
module ParticleEditing {
  import opened Particles
  import opened Wrappers
  import Gl
  import ParticleRendering
  import RendererProperties

  // ---------------------------------------------------------------------------
  // The spawner record

  /** A clamped normal distribution, seen only through its two bounds. */
  datatype ClampedDist = ClampedDist(min: real, max: real)

  predicate WellFormed(d: ClampedDist) {
    d.min <= d.max
  }

  type Axes3 = s: seq<ClampedDist> | |s| == 3 witness [ClampedDist(0.0, 0.0), ClampedDist(0.0, 0.0), ClampedDist(0.0, 0.0)]
  type Axes2 = s: seq<ClampedDist> | |s| == 2 witness [ClampedDist(0.0, 0.0), ClampedDist(0.0, 0.0)]
  type Values3 = s: seq<real> | |s| == 3 witness [0.0, 0.0, 0.0]
  type Values2 = s: seq<real> | |s| == 2 witness [0.0, 0.0]

  /** The spawner component: per-axis position offsets, per-axis velocity direction, scalar distributions, fade-in and colors. */
  datatype Spawner = Spawner(
    position: Axes3,
    velocityDir: Axes2,
    size: ClampedDist,
    rotation: ClampedDist,
    amount: ClampedDist,
    ttl: ClampedDist,
    interval: ClampedDist,
    fadeIn: real,
    colorGradient: Gradient)

  predicate AllWellFormed(axes: seq<ClampedDist>) {
    forall i :: 0 <= i < |axes| ==> WellFormed(axes[i])
  }

  predicate SpawnerWellFormed(s: Spawner) {
    AllWellFormed(s.position) && AllWellFormed(s.velocityDir)
    && WellFormed(s.size) && WellFormed(s.rotation) && WellFormed(s.amount)
    && WellFormed(s.ttl) && WellFormed(s.interval)
  }

  /** aw::to_rad(): the rotation widget shows degrees and stores radians. */
  const RadiansPerDegree: real := 0.017453292519943295

  // ---------------------------------------------------------------------------
  // Bound edits

  /**
   * The generic min/max widget: a new pair replaces the distribution, scaled
   * back by `unScale`, only when its minimum does not exceed its maximum.
   */
  function EditBounds(dist: ClampedDist, edit: Option<(real, real)>, unScale: real): ClampedDist {
    match edit
    case None => dist
    case Some((lo, hi)) => if lo <= hi then ClampedDist(lo * unScale, hi * unScale) else dist
  }

  /** With a non-negative scale the edit never produces a distribution whose minimum exceeds its maximum. */
  lemma EditBoundsWellFormed(dist: ClampedDist, edit: Option<(real, real)>, unScale: real)
    requires WellFormed(dist) && 0.0 <= unScale
    ensures WellFormed(EditBounds(dist, edit, unScale))
  {
    if edit.Some? && edit.value.0 <= edit.value.1 {
      MulMonotone(edit.value.0, edit.value.1, unScale);
    }
  }

  lemma MulMonotone(a: real, b: real, k: real)
    requires a <= b && 0.0 <= k
    ensures a * k <= b * k
  {
    assert b * k - a * k == (b - a) * k;
  }

  /**
   * A "min" edit of several axes: axis `i` becomes (mins[i], old max) when
   * mins[i] does not exceed the old max, and is left alone otherwise.
   */
  function EditMins(axes: seq<ClampedDist>, mins: Option<seq<real>>): (r: seq<ClampedDist>)
    requires mins.Some? ==> |mins.value| == |axes|
    ensures |r| == |axes|
  {
    match mins
    case None => axes
    case Some(m) =>
      seq(|axes|, i requires 0 <= i < |axes| =>
        if m[i] <= axes[i].max then ClampedDist(m[i], axes[i].max) else axes[i])
  }

  /** A "max" edit of several axes: axis `i` becomes (old min, maxs[i]) when maxs[i] is at least the old min. */
  function EditMaxs(axes: seq<ClampedDist>, maxs: Option<seq<real>>): (r: seq<ClampedDist>)
    requires maxs.Some? ==> |maxs.value| == |axes|
    ensures |r| == |axes|
  {
    match maxs
    case None => axes
    case Some(m) =>
      seq(|axes|, i requires 0 <= i < |axes| =>
        if m[i] >= axes[i].min then ClampedDist(axes[i].min, m[i]) else axes[i])
  }

  /**
   * A "min" edit keeps every maximum, moves axis `i`'s minimum to mins[i]
   * exactly when that does not exceed the maximum, and leaves every rejected
   * axis as it was; so every axis that was well formed stays well formed.
   */
  lemma EditMinsPerAxis(axes: seq<ClampedDist>, m: seq<real>)
    requires |m| == |axes|
    ensures forall i :: 0 <= i < |axes| ==> EditMins(axes, Some(m))[i].max == axes[i].max
    ensures forall i :: 0 <= i < |axes| ==> (EditMins(axes, Some(m))[i].min == m[i] || EditMins(axes, Some(m))[i] == axes[i])
    ensures forall i :: 0 <= i < |axes| && m[i] <= axes[i].max ==> EditMins(axes, Some(m))[i].min == m[i]
    ensures forall i :: 0 <= i < |axes| && axes[i].max < m[i] ==> EditMins(axes, Some(m))[i] == axes[i]
    ensures forall i :: 0 <= i < |axes| && WellFormed(axes[i]) ==> WellFormed(EditMins(axes, Some(m))[i])
  {
  }

  /** The mirror image for a "max" edit. */
  lemma EditMaxsPerAxis(axes: seq<ClampedDist>, m: seq<real>)
    requires |m| == |axes|
    ensures forall i :: 0 <= i < |axes| ==> EditMaxs(axes, Some(m))[i].min == axes[i].min
    ensures forall i :: 0 <= i < |axes| ==> (EditMaxs(axes, Some(m))[i].max == m[i] || EditMaxs(axes, Some(m))[i] == axes[i])
    ensures forall i :: 0 <= i < |axes| && m[i] >= axes[i].min ==> EditMaxs(axes, Some(m))[i].max == m[i]
    ensures forall i :: 0 <= i < |axes| && m[i] < axes[i].min ==> EditMaxs(axes, Some(m))[i] == axes[i]
    ensures forall i :: 0 <= i < |axes| && WellFormed(axes[i]) ==> WellFormed(EditMaxs(axes, Some(m))[i])
  {
  }

  /**
   * The per-axis edits follow the same accept rule as the two-value widget:
   * a new minimum is the pair (new minimum, old maximum), a new maximum the
   * pair (old minimum, new maximum), each accepted unscaled exactly when it
   * is ordered.
   */
  lemma EditAxesAreBoundEdits(axes: seq<ClampedDist>, m: seq<real>)
    requires |m| == |axes|
    ensures forall i :: 0 <= i < |axes| ==>
              EditMins(axes, Some(m))[i] == EditBounds(axes[i], Some((m[i], axes[i].max)), 1.0)
    ensures forall i :: 0 <= i < |axes| ==>
              EditMaxs(axes, Some(m))[i] == EditBounds(axes[i], Some((axes[i].min, m[i])), 1.0)
  {
  }

  /** Each axis is decided on its own: its outcome depends only on its own bounds and its own new value. */
  lemma EditAxesIndependent(a: seq<ClampedDist>, b: seq<ClampedDist>, m: seq<real>, n: seq<real>, i: nat)
    requires |m| == |a| && |n| == |b| && i < |a| && i < |b|
    requires a[i] == b[i] && m[i] == n[i]
    ensures EditMins(a, Some(m))[i] == EditMins(b, Some(n))[i]
    ensures EditMaxs(a, Some(m))[i] == EditMaxs(b, Some(n))[i]
  {
  }

  /** Applying the same edit again changes nothing. */
  lemma EditAxesIdempotent(axes: seq<ClampedDist>, m: seq<real>)
    requires |m| == |axes|
    ensures EditMins(EditMins(axes, Some(m)), Some(m)) == EditMins(axes, Some(m))
    ensures EditMaxs(EditMaxs(axes, Some(m)), Some(m)) == EditMaxs(axes, Some(m))
  {
  }

  /** All widget results of one editor frame, in the order the editor applies them. */
  datatype Edits = Edits(
    transformPosition: Option<Vec3>,
    positionMins: Option<Values3>,
    positionMaxs: Option<Values3>,
    size: Option<(real, real)>,
    rotation: Option<(real, real)>,
    velocityMins: Option<Values2>,
    velocityMaxs: Option<Values2>,
    amount: Option<(real, real)>,
    ttl: Option<(real, real)>,
    interval: Option<(real, real)>,
    fadeIn: Option<real>,
    beginColor: Option<Color>,
    endColor: Option<Color>)

  // Re-typing helpers: the lengths are kept, so the subset types hold.
  function AsSeq3(v: Option<Values3>): (r: Option<seq<real>>)
    ensures r.Some? ==> |r.value| == 3
  {
    match v case None => None case Some(x) => Some(x)
  }

  function AsSeq2(v: Option<Values2>): (r: Option<seq<real>>)
    ensures r.Some? ==> |r.value| == 2
  {
    match v case None => None case Some(x) => Some(x)
  }

  // ---------------------------------------------------------------------------
  // Paths

  /** The last component of a POSIX path: everything after the last '/'. */
  function Filename(path: string): (r: string)
    ensures |r| <= |path| && r == path[|path| - |r|..]
    ensures '/' !in r
    ensures |r| < |path| ==> path[|path| - |r| - 1] == '/'
    decreases |path|
  {
    if path == [] then []
    else if path[|path| - 1] == '/' then []
    else Filename(path[..|path| - 1]) + [path[|path| - 1]]
  }

  /**
   * std::filesystem::path::has_extension: the file name contains a period
   * that is not its first character, and the file name is not "..".
   */
  predicate HasExtension(path: string) {
    NameHasExtension(Filename(path))
  }

  predicate NameHasExtension(name: string) {
    name != ".." && exists i :: 0 < i < |name| && name[i] == '.'
  }

  const DefaultExtension: string := ".awps"

  /** The save path rule: a chosen path without an extension gets ".awps" appended. */
  function EnsureExtension(path: string): string {
    if HasExtension(path) then path else path + DefaultExtension
  }

  // ---------------------------------------------------------------------------
  // The active-particle count

  /** std::accumulate over the layers, starting from `sum`, adding each layer's particle count. */
  function Accumulate(sum: int, layers: seq<Layer>): int
    decreases |layers|
  {
    if layers == [] then sum else Accumulate(sum + |layers[0].particles|, layers[1..])
  }

  /** The displayed count. */
  function ActiveParticles(layers: seq<Layer>): int {
    Accumulate(0, layers)
  }

  /** Every particle of every layer, layer by layer. */
  function AllParticles(layers: seq<Layer>): seq<Particle>
    decreases |layers|
  {
    if layers == [] then [] else layers[0].particles + AllParticles(layers[1..])
  }

  /** The fold starts from `sum` and adds one to it per particle of every layer. */
  lemma {:induction false} AccumulateCounts(sum: int, layers: seq<Layer>)
    ensures Accumulate(sum, layers) == sum + |AllParticles(layers)|
    decreases |layers|
  {
    if layers != [] {
      AccumulateCounts(sum + |layers[0].particles|, layers[1..]);
    }
  }

  /** The displayed count is the number of particles over all layers, so it is never negative. */
  lemma ActiveParticlesIsTotal(layers: seq<Layer>)
    ensures ActiveParticles(layers) == |AllParticles(layers)|
    ensures ActiveParticles(layers) >= 0
  {
    AccumulateCounts(0, layers);
  }

  /** The instance counts of a sequence of commands, summed over its instanced draws. */
  function InstanceTotal(cmds: seq<Gl.Command>): nat
    decreases |cmds|
  {
    if cmds == [] then 0
    else (if cmds[0].DrawArraysInstanced? then cmds[0].instanceCount else 0) + InstanceTotal(cmds[1..])
  }

  lemma {:induction false} DrawsMatchLayers(draws: seq<Gl.Command>, layers: seq<Layer>)
    requires |draws| == |layers|
    requires forall i :: 0 <= i < |layers| ==>
               draws[i] == Gl.DrawArraysInstanced(Gl.TriangleFan, 0, 4, |layers[i].particles|)
    ensures InstanceTotal(draws) == |AllParticles(layers)|
    decreases |layers|
  {
    if layers != [] {
      assert draws[0] == Gl.DrawArraysInstanced(Gl.TriangleFan, 0, 4, |layers[0].particles|);
      forall i | 0 <= i < |layers[1..]|
        ensures draws[1..][i] == Gl.DrawArraysInstanced(Gl.TriangleFan, 0, 4, |layers[1..][i].particles|)
      {
        assert draws[1..][i] == draws[i + 1];
      }
      DrawsMatchLayers(draws[1..], layers[1..]);
    }
  }

  /**
   * The count the editor displays is the number of instances the renderer
   * draws in the same frame: the editor renders the particle system's layers
   * and then folds over those same layers.
   */
  lemma DisplayedCountIsDrawnInstances(h: ParticleRendering.Handles, cache: Gradient, vp: Gl.Mat4, t: real, layers: seq<Layer>)
    ensures InstanceTotal(Gl.Select(ParticleRendering.RenderCommands(h, cache, vp, t, layers), Gl.IsDraw)) == ActiveParticles(layers)
  {
    RendererProperties.RenderDraws(h, cache, vp, t, layers);
    DrawsMatchLayers(Gl.Select(ParticleRendering.RenderCommands(h, cache, vp, t, layers), Gl.IsDraw), layers);
    ActiveParticlesIsTotal(layers);
  }

  // ---------------------------------------------------------------------------
  // Path lemmas

  /** Appending a string without separators extends the file name by that string. */
  lemma {:induction false} FilenameAppend(path: string, s: string)
    requires '/' !in s
    ensures Filename(path + s) == Filename(path) + s
    decreases |s|
  {
    if s == [] {
      assert path + s == path;
    } else {
      var init, last := s[..|s| - 1], s[|s| - 1];
      assert s == init + [last];
      assert path + s == (path + init) + [last];
      FilenameAppend(path, init);
      FilenameSnoc(path + init, last);
    }
  }

  /** A character other than the separator extends the file name by one. */
  lemma FilenameSnoc(path: string, c: char)
    requires c != '/'
    ensures Filename(path + [c]) == Filename(path) + [c]
  {
    assert (path + [c])[..|path|] == path;
  }

  /**
   * After the save rule the path has an extension exactly when its file name
   * is non-empty: a path ending in a separator becomes "<dir>/.awps", whose
   * file name starts with the period and so still has no extension.
   */
  lemma EnsureExtensionHasExtension(path: string)
    ensures HasExtension(EnsureExtension(path)) <==> Filename(path) != []
  {
    if !HasExtension(path) {
      FilenameAppend(path, DefaultExtension);
      if Filename(path) == [] {
        assert Filename(path) + DefaultExtension == DefaultExtension;
        DefaultExtensionAloneHasNone();
      } else {
        AppendedExtension(Filename(path));
      }
    }
  }

  /** A file name that is only ".awps" starts with its one period, so it has no extension. */
  lemma DefaultExtensionAloneHasNone()
    ensures !NameHasExtension(DefaultExtension)
  {
    forall i | 0 < i < |DefaultExtension| ensures DefaultExtension[i] != '.' {
    }
  }

  /** A non-empty file name followed by ".awps" has an extension. */
  lemma AppendedExtension(name: string)
    requires name != []
    ensures NameHasExtension(name + DefaultExtension)
  {
    var n := name + DefaultExtension;
    assert n[|name|] == '.';
    assert |n| > 2;
  }

  /** The rule only ever appends: it keeps a path that has an extension, and otherwise adds exactly ".awps". */
  lemma EnsureExtensionExtends(path: string)
    ensures path <= EnsureExtension(path)
    ensures HasExtension(path) ==> EnsureExtension(path) == path
    ensures !HasExtension(path) ==> EnsureExtension(path)[|path|..] == ".awps"
  {
  }

  /** Applying the rule twice is the same as once, for any path that names a file. */
  lemma EnsureExtensionIdempotent(path: string)
    requires Filename(path) != []
    ensures EnsureExtension(EnsureExtension(path)) == EnsureExtension(path)
  {
    EnsureExtensionHasExtension(path);
  }

  /**
   * For a path ending in a separator the rule is not idempotent: the result
   * "<dir>/.awps" still has no extension, so ".awps" is added again on every
   * application.
   */
  lemma EnsureExtensionOnDirectory(dir: string)
    requires |dir| > 0 && dir[|dir| - 1] == '/'
    ensures EnsureExtension(dir) == dir + ".awps"
    ensures !HasExtension(EnsureExtension(dir))
    ensures EnsureExtension(EnsureExtension(dir)) == dir + ".awps.awps"
  {
    assert Filename(dir) == [];
    FilenameAppend(dir, DefaultExtension);
    DefaultExtensionAloneHasNone();
    assert Filename(dir + DefaultExtension) == DefaultExtension;
    assert dir + DefaultExtension + DefaultExtension == dir + ".awps.awps";
  }

  // ---------------------------------------------------------------------------
  // Saving and loading, as functions of the dialog results

  /** Whether saving asks for a path: always for "Save as", and for "Save" while no path is cached. */
  predicate ShowsSaveDialog(useCachedPath: bool, cachedPath: string) {
    !useCachedPath || cachedPath == []
  }

  /**
   * The path a save writes to, or None when it writes nothing: the cached
   * path when no dialog is shown, otherwise the chosen path with the default
   * extension added, or None when the dialog is cancelled.
   */
  function SaveTarget(useCachedPath: bool, cachedPath: string, dialog: Option<string>): Option<string> {
    if !ShowsSaveDialog(useCachedPath, cachedPath) then Some(cachedPath)
    else match dialog
      case None => None
      case Some(chosen) => Some(EnsureExtension(chosen))
  }

  /** The cached path after a save: the chosen path, with the extension rule applied, when a dialog was answered. */
  function CachedAfterSave(useCachedPath: bool, cachedPath: string, dialog: Option<string>): string {
    if ShowsSaveDialog(useCachedPath, cachedPath) && dialog.Some? then EnsureExtension(dialog.value) else cachedPath
  }

  /**
   * "Save" with a cached path writes there and ignores any dialog answer;
   * a cancelled dialog writes nothing and keeps the cache; an answered one
   * writes to the new cached path, which keeps an existing extension.
   */
  lemma SaveTargetCases(useCachedPath: bool, cachedPath: string, dialog: Option<string>)
    ensures useCachedPath && cachedPath != [] ==>
              SaveTarget(useCachedPath, cachedPath, dialog) == Some(cachedPath)
              && CachedAfterSave(useCachedPath, cachedPath, dialog) == cachedPath
    ensures ShowsSaveDialog(useCachedPath, cachedPath) && dialog.None? ==>
              SaveTarget(useCachedPath, cachedPath, dialog).None?
              && CachedAfterSave(useCachedPath, cachedPath, dialog) == cachedPath
    ensures SaveTarget(useCachedPath, cachedPath, dialog).Some? ==>
              SaveTarget(useCachedPath, cachedPath, dialog).value == CachedAfterSave(useCachedPath, cachedPath, dialog)
    ensures ShowsSaveDialog(useCachedPath, cachedPath) && dialog.Some? && HasExtension(dialog.value) ==>
              CachedAfterSave(useCachedPath, cachedPath, dialog) == dialog.value
  {
  }

  /** A second "Save" after any save that wrote a file writes to the same path again, without a dialog. */
  lemma SaveThenSaveReusesPath(useCachedPath: bool, cachedPath: string, dialog: Option<string>, again: Option<string>)
    requires SaveTarget(useCachedPath, cachedPath, dialog).Some?
    ensures SaveTarget(true, CachedAfterSave(useCachedPath, cachedPath, dialog), again)
            == SaveTarget(useCachedPath, cachedPath, dialog)
  {
    var p := CachedAfterSave(useCachedPath, cachedPath, dialog);
    if ShowsSaveDialog(useCachedPath, cachedPath) {
      assert p == EnsureExtension(dialog.value);
      EnsureExtensionExtends(dialog.value);
      assert |p| >= 1 by {
        if !HasExtension(dialog.value) {
          assert |p| == |dialog.value| + 5;
        } else {
          assert Filename(dialog.value) != [];
        }
      }
    }
  }

  /** The spawner after a load: the parsed file, or the defaults when the dialog was cancelled. */
  function LoadResult(defaults: Spawner, dialog: Option<string>, parse: string -> Spawner): Spawner {
    match dialog
    case None => defaults
    case Some(path) => parse(path)
  }

  // ---------------------------------------------------------------------------
  // The editor state

  /** What the editor does outside its own fields, in order. */
  datatype Effect =
    | SimulationStep(dt: real)
    | SaveDialogShown
    | OpenDialogShown
    | FileWritten(path: string, spawner: Spawner)
    | FileParsed(path: string)

  class ParticleEditorState {
    /** The spawner component being edited. */
    var spawner: Spawner
    /** The spawner entity's transform position. */
    var position: Vec3
    var dropNextFrame: bool
    var cachedSavePath: string
    var effects: seq<Effect>
    /** A default-constructed spawner component. */
    const defaults: Spawner

    /** The spawner starts as the default component with an empty cached path and no effects. */
    constructor(defaults: Spawner, position: Vec3, dropNextFrame: bool)
      ensures this.defaults == defaults && spawner == defaults
      ensures this.position == position && this.dropNextFrame == dropNextFrame
      ensures cachedSavePath == [] && effects == []
    {
      this.defaults := defaults;
      spawner := defaults;
      this.position := position;
      this.dropNextFrame := dropNextFrame;
      cachedSavePath := [];
      effects := [];
    }

    /** One frame's simulation update: skipped once, clearing the flag, when the flag is set. */
    method Update(dt: real)
      modifies this`dropNextFrame, this`effects
      ensures !dropNextFrame
      ensures old(dropNextFrame) ==> effects == old(effects)
      ensures !old(dropNextFrame) ==> effects == old(effects) + [SimulationStep(dt)]
    {
      if dropNextFrame {
        dropNextFrame := false;
        return;
      }
      effects := effects + [SimulationStep(dt)];
    }

    /** "New": restore the default spawner and drop the next simulation step; the transform is kept. */
    method Reset()
      modifies this`dropNextFrame, this`spawner
      ensures dropNextFrame && spawner == defaults
    {
      dropNextFrame := true;
      spawner := defaults;
    }

    /**
     * "Save" (useCachedPath) or "Save as": `dialog` is the save dialog's
     * answer, consulted only when the dialog is shown.
     */
    method SaveSpawner(useCachedPath: bool, dialog: Option<string>)
      modifies this`dropNextFrame, this`cachedSavePath, this`effects
      ensures dropNextFrame
      ensures cachedSavePath == CachedAfterSave(useCachedPath, old(cachedSavePath), dialog)
      ensures effects == old(effects)
                         + (if ShowsSaveDialog(useCachedPath, old(cachedSavePath)) then [SaveDialogShown] else [])
                         + (match SaveTarget(useCachedPath, old(cachedSavePath), dialog)
                            case None => []
                            case Some(path) => [FileWritten(path, spawner)])
    {
      dropNextFrame := true;
      if !useCachedPath || cachedSavePath == [] {
        effects := effects + [SaveDialogShown];
        if dialog.None? {
          return;
        }
        cachedSavePath := dialog.value;
        if !HasExtension(cachedSavePath) {
          cachedSavePath := cachedSavePath + DefaultExtension;
        }
      }
      effects := effects + [FileWritten(cachedSavePath, spawner)];
    }

    /**
     * "Load": reset, show the open dialog, and on an answer replace the
     * spawner with what `parse` reads from the chosen path.
     */
    method LoadSpawner(dialog: Option<string>, parse: string -> Spawner)
      modifies this`dropNextFrame, this`spawner, this`effects
      ensures dropNextFrame
      ensures spawner == LoadResult(defaults, dialog, parse)
      ensures effects == old(effects) + [OpenDialogShown]
                         + (match dialog case None => [] case Some(path) => [FileParsed(path)])
    {
      dropNextFrame := true;
      Reset();
      effects := effects + [OpenDialogShown];
      if dialog.None? {
        return;
      }
      var path := dialog.value;
      effects := effects + [FileParsed(path)];
      spawner := parse(path);
    }

    /**
     * One frame's property widgets, applied in the order the editor lays
     * them out; each rejected bound pair leaves its distribution as it was.
     */
    method EditSpawner(ui: Edits)
      modifies this`spawner, this`position
      ensures position == (if ui.transformPosition.Some? then ui.transformPosition.value else old(position))
      ensures spawner.position == EditMaxs(EditMins(old(spawner).position, AsSeq3(ui.positionMins)), AsSeq3(ui.positionMaxs))
      ensures spawner.velocityDir == EditMaxs(EditMins(old(spawner).velocityDir, AsSeq2(ui.velocityMins)), AsSeq2(ui.velocityMaxs))
      ensures spawner.size == EditBounds(old(spawner).size, ui.size, 1.0)
      ensures spawner.rotation == EditBounds(old(spawner).rotation, ui.rotation, RadiansPerDegree)
      ensures spawner.amount == EditBounds(old(spawner).amount, ui.amount, 1.0)
      ensures spawner.ttl == EditBounds(old(spawner).ttl, ui.ttl, 1.0)
      ensures spawner.interval == EditBounds(old(spawner).interval, ui.interval, 1.0)
      ensures spawner.fadeIn == (if ui.fadeIn.Some? then ui.fadeIn.value else old(spawner).fadeIn)
      ensures spawner.colorGradient[0] == (if ui.beginColor.Some? then ui.beginColor.value else old(spawner).colorGradient[0])
      ensures spawner.colorGradient[1] == (if ui.endColor.Some? then ui.endColor.value else old(spawner).colorGradient[1])
      ensures SpawnerWellFormed(old(spawner)) ==> SpawnerWellFormed(spawner)
    {
      if ui.transformPosition.Some? {
        position := ui.transformPosition.value;
      }
      var s := spawner;
      var offsets := EditMaxs(EditMins(s.position, AsSeq3(ui.positionMins)), AsSeq3(ui.positionMaxs));
      var direction := EditMaxs(EditMins(s.velocityDir, AsSeq2(ui.velocityMins)), AsSeq2(ui.velocityMaxs));
      var begin := if ui.beginColor.Some? then ui.beginColor.value else s.colorGradient[0];
      var end := if ui.endColor.Some? then ui.endColor.value else s.colorGradient[1];
      spawner := Spawner(
        offsets,
        direction,
        EditBounds(s.size, ui.size, 1.0),
        EditBounds(s.rotation, ui.rotation, RadiansPerDegree),
        EditBounds(s.amount, ui.amount, 1.0),
        EditBounds(s.ttl, ui.ttl, 1.0),
        EditBounds(s.interval, ui.interval, 1.0),
        if ui.fadeIn.Some? then ui.fadeIn.value else s.fadeIn,
        [begin, end]);
      if SpawnerWellFormed(s) {
        AxesStayWellFormed(s.position, AsSeq3(ui.positionMins), AsSeq3(ui.positionMaxs));
        AxesStayWellFormed(s.velocityDir, AsSeq2(ui.velocityMins), AsSeq2(ui.velocityMaxs));
        EditBoundsWellFormed(s.size, ui.size, 1.0);
        EditBoundsWellFormed(s.rotation, ui.rotation, RadiansPerDegree);
        EditBoundsWellFormed(s.amount, ui.amount, 1.0);
        EditBoundsWellFormed(s.ttl, ui.ttl, 1.0);
        EditBoundsWellFormed(s.interval, ui.interval, 1.0);
      }
    }
  }

  /** A min edit followed by a max edit keeps every axis's minimum no greater than its maximum. */
  lemma AxesStayWellFormed(axes: seq<ClampedDist>, mins: Option<seq<real>>, maxs: Option<seq<real>>)
    requires mins.Some? ==> |mins.value| == |axes|
    requires maxs.Some? ==> |maxs.value| == |axes|
    requires AllWellFormed(axes)
    ensures AllWellFormed(EditMaxs(EditMins(axes, mins), maxs))
  {
    var after := EditMins(axes, mins);
    if mins.Some? {
      EditMinsPerAxis(axes, mins.value);
    }
    assert AllWellFormed(after);
    if maxs.Some? {
      EditMaxsPerAxis(after, maxs.value);
    }
  }

  // ---------------------------------------------------------------------------
  // Frame sequences

  /** After Save, Load or New, the next update is skipped and the one after it steps the simulation. */
  method DropsExactlyOneStep(e: ParticleEditorState, first: real, second: real)
    requires e.dropNextFrame
    modifies e`dropNextFrame, e`effects
    ensures e.effects == old(e.effects) + [SimulationStep(second)]
    ensures !e.dropNextFrame
  {
    e.Update(first);
    e.Update(second);
  }

  /** A cancelled load loses the edits: the spawner becomes the defaults even when it differed before. */
  method CancelledLoadRestoresDefaults(e: ParticleEditorState, parse: string -> Spawner)
    modifies e`dropNextFrame, e`spawner, e`effects
    ensures e.spawner == e.defaults
    ensures e.effects == old(e.effects) + [OpenDialogShown]
    ensures e.dropNextFrame
  {
    e.LoadSpawner(None, parse);
  }

  /**
   * Load replaces the spawner wholesale: two editors with the same defaults,
   * whatever they were editing, hold the same spawner after loading with the
   * same dialog answer, and both record the same effects.
   */
  method LoadForgetsEdits(a: ParticleEditorState, b: ParticleEditorState,
                          dialog: Option<string>, parse: string -> Spawner)
    requires a != b && a.defaults == b.defaults
    modifies a`dropNextFrame, a`spawner, a`effects, b`dropNextFrame, b`spawner, b`effects
    ensures a.spawner == b.spawner
    ensures old(a.effects) <= a.effects && old(b.effects) <= b.effects
    ensures a.effects[|old(a.effects)|..] == b.effects[|old(b.effects)|..]
    ensures a.dropNextFrame && b.dropNextFrame
  {
    a.LoadSpawner(dialog, parse);
    b.LoadSpawner(dialog, parse);
  }

  /** A cancelled "Save as" writes nothing, keeps the cached path, and still drops the next step. */
  method CancelledSaveKeepsPath(e: ParticleEditorState)
    modifies e`dropNextFrame, e`cachedSavePath, e`effects
    ensures e.cachedSavePath == old(e.cachedSavePath)
    ensures e.effects == old(e.effects) + [SaveDialogShown]
    ensures e.dropNextFrame
  {
    e.SaveSpawner(false, None);
  }
}
