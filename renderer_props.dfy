/**
 * What the renderer's command sequences guarantee: the gradient cache's upload
 * behaviour, one draw and one stream per layer, the once-per-call pipeline
 * state, the resource lifecycle, and, through the GL state interpreter, what
 * each draw actually reads.
 */
module RendererProperties {
  import opened Particles
  import opened Wrappers
  import opened Gl
  import opened ParticleRendering

  // ---------------------------------------------------------------------------
  // The gradient cache

  /** The one 1-D texture upload that holds gradient `g`: level 0, two RGBA float texels, no border. */
  function UploadOf(g: Gradient): Command {
    TexImage1D(Texture1D, 0, Rgba, 2, 0, Rgba, Float, g)
  }

  /** colorGradient uploads nothing on a cache hit and exactly one texture holding `g` on a miss. */
  lemma ColorGradientUploads(cache: Gradient, g: Gradient, texture: Name)
    ensures cache == g ==> ColorGradientCommands(cache, g, texture) == []
    ensures Select(ColorGradientCommands(cache, g, texture), IsUpload) == if cache == g then [] else [UploadOf(g)]
  {
    if cache != g {
      var u := GradientUpload(texture, g);
      assert u == [u[0]] + [u[1]] + u[2..];
      SelectAppend([u[0]] + [u[1]], u[2..], IsUpload);
      SelectAppend([u[0]], [u[1]], IsUpload);
      SelectNone(u[2..], IsUpload);
    }
  }

  /** A second call with the same gradient is a cache hit, so two calls upload at most once. */
  lemma ColorGradientTwice(cache: Gradient, g: Gradient, texture: Name)
    ensures ColorGradientCommands(cache, g, texture) + ColorGradientCommands(g, g, texture)
         == ColorGradientCommands(cache, g, texture)
    ensures |Select(ColorGradientCommands(cache, g, texture) + ColorGradientCommands(g, g, texture), IsUpload)| <= 1
  {
    ColorGradientUploads(cache, g, texture);
    assert ColorGradientCommands(cache, g, texture) + [] == ColorGradientCommands(cache, g, texture);
  }

  // ---------------------------------------------------------------------------
  // One render call, command by command

  /** A state-setting command that the pipeline needs once per frame, not once per layer. */
  predicate IsPipelineState(c: Command) {
    c.Disable? || c.Enable? || c.BlendFunc? || c.UseProgram? || c.UniformMatrix4fv? || c.Uniform1f?
  }

  /** The pipeline state a render call sets for all layers. */
  function PipelineState(h: Handles, vp: Mat4, t: real): seq<Command> {
    [ Disable(DepthTest), Enable(Blend), BlendFunc(SrcAlpha, One),
      UseProgram(h.program), UniformMatrix4fv(h.vpLoc, 1, false, vp), Uniform1f(h.simTimeLoc, t) ]
  }

  /** The stream of a layer's instances into the particle buffer: size of a particle times the count. */
  function StreamOf(ps: seq<Particle>): Command {
    BufferData(ArrayBuffer, ParticleBytes * |ps|, Instances(ps), StreamDraw)
  }

  /** The gradient layer `i` is compared with: the previous layer's, or the cache for the first layer. */
  function Previous(cache: Gradient, ls: seq<Layer>, i: nat): Gradient
    requires i < |ls|
  {
    if i == 0 then cache else ls[i - 1].colorGradient
  }

  /** The layers whose gradient differs from the one in effect before them. */
  function ChangedLayers(cache: Gradient, ls: seq<Layer>): set<nat> {
    set i: nat | i < |ls| && ls[i].colorGradient != Previous(cache, ls, i)
  }

  /** One layer issues exactly one draw, its own. */
  lemma LayerDraw(h: Handles, cache: Gradient, layer: Layer)
    ensures Select(LayerCommands(h, cache, layer), IsDraw) == [InstancedDraw(layer)]
  {
    var cg := ColorGradientCommands(cache, layer.colorGradient, h.gradientTexture);
    var st := StreamCommands(h.particleVbo, layer.particles);
    SelectAppend(cg + st, [InstancedDraw(layer)], IsDraw);
    SelectAppend(cg, st, IsDraw);
    SelectNone(cg, IsDraw);
    SelectNone(st, IsDraw);
  }

  /** One layer fills a buffer exactly once, with its own instances. */
  lemma LayerStream(h: Handles, cache: Gradient, layer: Layer)
    ensures Select(LayerCommands(h, cache, layer), IsBufferData) == [StreamOf(layer.particles)]
  {
    var cg := ColorGradientCommands(cache, layer.colorGradient, h.gradientTexture);
    var st := StreamCommands(h.particleVbo, layer.particles);
    SelectAppend(cg + st, [InstancedDraw(layer)], IsBufferData);
    SelectAppend(cg, st, IsBufferData);
    SelectNone(cg, IsBufferData);
    assert st == [st[0]] + [st[1]] + [st[2]];
    SelectAppend([st[0]] + [st[1]], [st[2]], IsBufferData);
    SelectAppend([st[0]], [st[1]], IsBufferData);
  }

  /** One layer uploads its gradient exactly when it differs from the cache. */
  lemma LayerUpload(h: Handles, cache: Gradient, layer: Layer)
    ensures Select(LayerCommands(h, cache, layer), IsUpload)
         == if cache == layer.colorGradient then [] else [UploadOf(layer.colorGradient)]
  {
    var cg := ColorGradientCommands(cache, layer.colorGradient, h.gradientTexture);
    var st := StreamCommands(h.particleVbo, layer.particles);
    SelectOfThree(cg, st, [InstancedDraw(layer)], IsUpload);
    SelectNone(st, IsUpload);
    SelectNone([InstancedDraw(layer)], IsUpload);
    ColorGradientUploads(cache, layer.colorGradient, h.gradientTexture);
  }

  lemma LayerNoPipelineState(h: Handles, cache: Gradient, layer: Layer)
    ensures forall i :: 0 <= i < |LayerCommands(h, cache, layer)| ==> !IsPipelineState(LayerCommands(h, cache, layer)[i])
  {
  }

  /** The layer loop issues one draw per layer, in input order. */
  lemma {:induction false} LoopDraws(h: Handles, cache: Gradient, ls: seq<Layer>)
    ensures |Select(LayerLoop(h, cache, ls), IsDraw)| == |ls|
    ensures forall i :: 0 <= i < |ls| ==> Select(LayerLoop(h, cache, ls), IsDraw)[i] == InstancedDraw(ls[i])
    decreases |ls|
  {
    if ls != [] {
      var init := ls[..|ls| - 1];
      var before := CacheAfter(cache, init);
      LoopDraws(h, cache, init);
      LayerDraw(h, before, ls[|ls| - 1]);
      SelectAppend(LayerLoop(h, cache, init), LayerCommands(h, before, ls[|ls| - 1]), IsDraw);
      Snoc(Select(LayerLoop(h, cache, init), IsDraw), init, ls, (l: Layer) => InstancedDraw(l));
    }
  }

  /** One layer's command appended to the commands of the layers before it gives one command per layer, in order. */
  lemma Snoc(a: seq<Command>, init: seq<Layer>, ls: seq<Layer>, f: Layer -> Command)
    requires ls != [] && init == ls[..|ls| - 1] && |a| == |init|
    requires forall i :: 0 <= i < |init| ==> a[i] == f(init[i])
    ensures |a + [f(ls[|ls| - 1])]| == |ls|
    ensures forall i :: 0 <= i < |ls| ==> (a + [f(ls[|ls| - 1])])[i] == f(ls[i])
  {
    forall i | 0 <= i < |ls| ensures (a + [f(ls[|ls| - 1])])[i] == f(ls[i]) {
      if i < |init| {
        assert ls[i] == init[i];
      }
    }
  }

  /** The layer loop streams every layer's instances once, in input order. */
  lemma {:induction false} LoopStreams(h: Handles, cache: Gradient, ls: seq<Layer>)
    ensures |Select(LayerLoop(h, cache, ls), IsBufferData)| == |ls|
    ensures forall i :: 0 <= i < |ls| ==> Select(LayerLoop(h, cache, ls), IsBufferData)[i] == StreamOf(ls[i].particles)
    decreases |ls|
  {
    if ls != [] {
      var init := ls[..|ls| - 1];
      var before := CacheAfter(cache, init);
      LoopStreams(h, cache, init);
      LayerStream(h, before, ls[|ls| - 1]);
      SelectAppend(LayerLoop(h, cache, init), LayerCommands(h, before, ls[|ls| - 1]), IsBufferData);
      Snoc(Select(LayerLoop(h, cache, init), IsBufferData), init, ls, (l: Layer) => StreamOf(l.particles));
    }
  }

  lemma ChangedLayersStep(cache: Gradient, ls: seq<Layer>)
    requires ls != []
    ensures var init := ls[..|ls| - 1];
            |ChangedLayers(cache, ls)|
            == |ChangedLayers(cache, init)| + (if ls[|ls| - 1].colorGradient != CacheAfter(cache, init) then 1 else 0)
  {
    var init := ls[..|ls| - 1];
    assert Previous(cache, ls, |init|) == CacheAfter(cache, init);
    assert forall i :: 0 <= i < |init| ==> Previous(cache, ls, i) == Previous(cache, init, i);
    var changed: set<nat> := if ls[|ls| - 1].colorGradient != CacheAfter(cache, init) then {|init|} else {};
    assert ChangedLayers(cache, ls) == ChangedLayers(cache, init) + changed;
    assert |init| !in ChangedLayers(cache, init);
  }

  /** The layer loop uploads once per layer whose gradient differs from the one before it. */
  lemma {:induction false} LoopUploads(h: Handles, cache: Gradient, ls: seq<Layer>)
    ensures |Select(LayerLoop(h, cache, ls), IsUpload)| == |ChangedLayers(cache, ls)|
    decreases |ls|
  {
    if ls == [] {
      assert ChangedLayers(cache, ls) == {};
    } else {
      var init := ls[..|ls| - 1];
      var before := CacheAfter(cache, init);
      LoopUploads(h, cache, init);
      LayerUpload(h, before, ls[|ls| - 1]);
      SelectAppend(LayerLoop(h, cache, init), LayerCommands(h, before, ls[|ls| - 1]), IsUpload);
      ChangedLayersStep(cache, ls);
    }
  }

  /** No command of the layer loop sets pipeline state. */
  lemma {:induction false} LoopNoPipelineState(h: Handles, cache: Gradient, ls: seq<Layer>)
    ensures forall i :: 0 <= i < |LayerLoop(h, cache, ls)| ==> !IsPipelineState(LayerLoop(h, cache, ls)[i])
    decreases |ls|
  {
    if ls != [] {
      var init := ls[..|ls| - 1];
      LoopNoPipelineState(h, cache, init);
      LayerNoPipelineState(h, CacheAfter(cache, init), ls[|ls| - 1]);
    }
  }

  /** For a kind of command the prologue and epilogue never issue, a render call's commands of that kind are the loop's. */
  lemma RenderSelectLoop(h: Handles, cache: Gradient, vp: Mat4, t: real, ls: seq<Layer>, p: Command -> bool)
    requires forall i :: 0 <= i < |Prologue(h, vp, t)| ==> !p(Prologue(h, vp, t)[i])
    requires !p(BindVertexArray(0))
    ensures Select(RenderCommands(h, cache, vp, t, ls), p) == Select(LayerLoop(h, cache, ls), p)
  {
    var pro := Prologue(h, vp, t);
    var loop := LayerLoop(h, cache, ls);
    SelectAppend(pro + loop, [BindVertexArray(0)], p);
    SelectAppend(pro, loop, p);
    SelectNone(pro, p);
    SelectNone([BindVertexArray(0)], p);
  }

  /**
   * render issues exactly one instanced draw per layer, in input order: a
   * triangle fan of the four quad corners, one instance per particle, empty
   * layers included.
   */
  lemma RenderDraws(h: Handles, cache: Gradient, vp: Mat4, t: real, ls: seq<Layer>)
    ensures |Select(RenderCommands(h, cache, vp, t, ls), IsDraw)| == |ls|
    ensures forall i :: 0 <= i < |ls| ==>
              Select(RenderCommands(h, cache, vp, t, ls), IsDraw)[i] == DrawArraysInstanced(TriangleFan, 0, 4, |ls[i].particles|)
  {
    RenderSelectLoop(h, cache, vp, t, ls, IsDraw);
    LoopDraws(h, cache, ls);
  }

  /** render streams each layer's particles once, in input order, sized as particle size times count, for streaming use. */
  lemma RenderStreams(h: Handles, cache: Gradient, vp: Mat4, t: real, ls: seq<Layer>)
    ensures |Select(RenderCommands(h, cache, vp, t, ls), IsBufferData)| == |ls|
    ensures forall i :: 0 <= i < |ls| ==>
              Select(RenderCommands(h, cache, vp, t, ls), IsBufferData)[i]
              == BufferData(ArrayBuffer, ParticleBytes * |ls[i].particles|, Instances(ls[i].particles), StreamDraw)
  {
    RenderSelectLoop(h, cache, vp, t, ls, IsBufferData);
    LoopStreams(h, cache, ls);
  }

  /** render uploads the gradient texture once per layer whose gradient differs from the one in effect before it. */
  lemma RenderUploadCount(h: Handles, cache: Gradient, vp: Mat4, t: real, ls: seq<Layer>)
    ensures |Select(RenderCommands(h, cache, vp, t, ls), IsUpload)| == |ChangedLayers(cache, ls)|
  {
    RenderSelectLoop(h, cache, vp, t, ls, IsUpload);
    LoopUploads(h, cache, ls);
  }

  /** Layers that all keep the cached gradient cause no upload at all. */
  lemma SteadyGradientUploadsNothing(h: Handles, cache: Gradient, vp: Mat4, t: real, ls: seq<Layer>)
    requires forall i :: 0 <= i < |ls| ==> ls[i].colorGradient == cache
    ensures Select(RenderCommands(h, cache, vp, t, ls), IsUpload) == []
  {
    RenderUploadCount(h, cache, vp, t, ls);
    forall i: nat | i < |ls|
      ensures i !in ChangedLayers(cache, ls)
    {
    }
    assert ChangedLayers(cache, ls) == {};
  }

  /** Two consecutive frames of one layer each, with the same gradient, upload at most once between them. */
  lemma TwoSteadyFrames(h: Handles, cache: Gradient, vp1: Mat4, t1: real, vp2: Mat4, t2: real, first: Layer, second: Layer)
    requires first.colorGradient == second.colorGradient
    ensures var frames := RenderCommands(h, cache, vp1, t1, [first])
                          + RenderCommands(h, CacheAfter(cache, [first]), vp2, t2, [second]);
            |Select(frames, IsUpload)| <= 1
  {
    var c1 := CacheAfter(cache, [first]);
    RenderUploadCount(h, cache, vp1, t1, [first]);
    SteadyGradientUploadsNothing(h, c1, vp2, t2, [second]);
    SelectAppend(RenderCommands(h, cache, vp1, t1, [first]), RenderCommands(h, c1, vp2, t2, [second]), IsUpload);
    if first.colorGradient == cache {
      assert ChangedLayers(cache, [first]) == {};
    } else {
      assert ChangedLayers(cache, [first]) == {0};
    }
  }

  /**
   * The one-entry cache does not hold two gradients: when two layers with
   * different gradients are drawn every frame, each frame after the first
   * uploads both again, and leaves the cache where the previous frame left it.
   */
  lemma AlternatingLayersReuploadEveryFrame(h: Handles, cache: Gradient, vp: Mat4, t: real,
                                            a: Gradient, b: Gradient, p: seq<Particle>, q: seq<Particle>)
    requires a != b
    ensures var ls := [Layer(a, p), Layer(b, q)];
            && CacheAfter(cache, ls) == b
            && |Select(RenderCommands(h, CacheAfter(cache, ls), vp, t, ls), IsUpload)| == 2
            && CacheAfter(CacheAfter(cache, ls), ls) == CacheAfter(cache, ls)
  {
    var ls := [Layer(a, p), Layer(b, q)];
    RenderUploadCount(h, b, vp, t, ls);
    assert Previous(b, ls, 0) == b && Previous(b, ls, 1) == a;
    assert ChangedLayers(b, ls) == {0, 1};
  }

  /**
   * The pipeline state (depth test off, blending on with source-alpha/one,
   * the program, the two per-frame uniforms) is set exactly once and in this
   * order per render call, and nothing after the prologue sets any of it.
   */
  lemma RenderPipelineStateOnce(h: Handles, cache: Gradient, vp: Mat4, t: real, ls: seq<Layer>)
    ensures Select(RenderCommands(h, cache, vp, t, ls), IsPipelineState) == PipelineState(h, vp, t)
    ensures forall i :: |Prologue(h, vp, t)| <= i < |RenderCommands(h, cache, vp, t, ls)| ==>
              !IsPipelineState(RenderCommands(h, cache, vp, t, ls)[i])
  {
    var pro := Prologue(h, vp, t);
    var loop := LayerLoop(h, cache, ls);
    var end := [BindVertexArray(0)];
    LoopNoPipelineState(h, cache, ls);
    ProloguePipelineState(h, vp, t);
    SelectNone(loop, IsPipelineState);
    SelectNone(end, IsPipelineState);
    SelectOfThree(pro, loop, end, IsPipelineState);
    NoneAfter(pro, loop, end, IsPipelineState);
  }

  /** Nothing after the first part satisfies `p` when neither later part has such a command. */
  lemma NoneAfter(a: seq<Command>, b: seq<Command>, c: seq<Command>, p: Command -> bool)
    requires forall i :: 0 <= i < |b| ==> !p(b[i])
    requires forall i :: 0 <= i < |c| ==> !p(c[i])
    ensures forall i :: |a| <= i < |a + b + c| ==> !p((a + b + c)[i])
  {
    forall i | |a| <= i < |a + b + c| ensures !p((a + b + c)[i]) {
      if i < |a| + |b| {
        assert (a + b + c)[i] == b[i - |a|];
      } else {
        assert (a + b + c)[i] == c[i - |a| - |b|];
      }
    }
  }

  /** The prologue's pipeline-state commands are its first six: depth, blend, blend factors, program and the two uniforms. */
  lemma ProloguePipelineState(h: Handles, vp: Mat4, t: real)
    ensures Select(Prologue(h, vp, t), IsPipelineState) == PipelineState(h, vp, t)
  {
    var ps := PipelineState(h, vp, t);
    var rest := [ActiveTexture(0), BindTexture(Texture1D, h.gradientTexture), BindVertexArray(h.vao)];
    assert Prologue(h, vp, t) == ps + rest;
    SelectAppend(ps, rest, IsPipelineState);
    SelectNone(rest, IsPipelineState);
    SelectAll(ps, IsPipelineState);
  }

  lemma SelectOfThree(a: seq<Command>, b: seq<Command>, c: seq<Command>, p: Command -> bool)
    ensures Select(a + b + c, p) == Select(a, p) + Select(b, p) + Select(c, p)
  {
    SelectAppend(a + b, c, p);
    SelectAppend(a, b, p);
  }

  lemma {:induction false} SelectAll(cmds: seq<Command>, p: Command -> bool)
    requires forall i :: 0 <= i < |cmds| ==> p(cmds[i])
    ensures Select(cmds, p) == cmds
    decreases |cmds|
  {
    if cmds != [] {
      var init := cmds[..|cmds| - 1];
      forall i | 0 <= i < |init| ensures p(init[i]) {
        assert init[i] == cmds[i];
      }
      SelectAll(init, p);
      assert p(cmds[|cmds| - 1]);
      assert init + [cmds[|cmds| - 1]] == cmds;
    }
  }

  // ---------------------------------------------------------------------------
  // Resource lifecycle

  /** The two shader stages: created and deleted inside the constructor. */
  function Stages(vs: Name, fs: Name): set<Resource> {
    {Resource(ShaderObject, vs), Resource(ShaderObject, fs)}
  }

  /**
   * The constructor creates the five owned objects and the two shader stages,
   * and deletes exactly the two stages, so what it leaves alive is what the
   * renderer owns.
   */
  lemma ConstructorLifetime(h: Handles, vs: Name, fs: Name)
    ensures Acquired(ConstructorCommands(h, vs, fs)) == Owned(h) + Stages(vs, fs)
    ensures Released(ConstructorCommands(h, vs, fs)) == Stages(vs, fs)
    ensures Acquired(ConstructorCommands(h, vs, fs)) - Released(ConstructorCommands(h, vs, fs)) == Owned(h)
  {
    var q := QuadSetup(h.vertexVbo, h.particleVbo, h.vao);
    var l := InstanceLayout(h.particleVbo);
    var p := ProgramSetup(h.program, vs, fs, h.gradientTextureLoc);
    var g := [Generate(TextureObject, h.gradientTexture)];
    QuadLifetime(h.vertexVbo, h.particleVbo, h.vao);
    LayoutLifetime(h.particleVbo);
    ProgramLifetime(h.program, vs, fs, h.gradientTextureLoc);
    TextureLifetime(h.gradientTexture);
    LifetimeOfFour(q, l, p, g);
    OwnedParts(h, vs, fs);
    DifferenceOfDisjoint(Owned(h), Stages(vs, fs));
  }

  lemma TextureLifetime(texture: Name)
    ensures Acquired([Generate(TextureObject, texture)]) == {Resource(TextureObject, texture)}
    ensures Released([Generate(TextureObject, texture)]) == {}
  {
    assert [Generate(TextureObject, texture)][..0] == [];
  }

  /** The objects the constructor's pieces acquire are the five owned objects and the two shader stages, which are of another kind. */
  lemma OwnedParts(h: Handles, vs: Name, fs: Name)
    ensures {Resource(BufferObject, h.vertexVbo), Resource(BufferObject, h.particleVbo), Resource(VertexArrayObject, h.vao)}
            + {} + (Stages(vs, fs) + {Resource(ProgramObject, h.program)}) + {Resource(TextureObject, h.gradientTexture)}
            == Owned(h) + Stages(vs, fs)
    ensures Owned(h) !! Stages(vs, fs)
  {
  }

  lemma DifferenceOfDisjoint(a: set<Resource>, b: set<Resource>)
    requires a !! b
    ensures (a + b) - b == a
  {
  }


  lemma LifetimeOfFour(a: seq<Command>, b: seq<Command>, c: seq<Command>, d: seq<Command>)
    ensures Acquired(a + b + c + d) == Acquired(a) + Acquired(b) + Acquired(c) + Acquired(d)
    ensures Released(a + b + c + d) == Released(a) + Released(b) + Released(c) + Released(d)
  {
    LifetimeAppend(a + b + c, d);
    LifetimeAppend(a + b, c);
    LifetimeAppend(a, b);
  }

  lemma LayoutLifetime(particleVbo: Name)
    ensures Acquired(InstanceLayout(particleVbo)) == {} && Released(InstanceLayout(particleVbo)) == {}
  {
    LifetimeNone(InstanceLayout(particleVbo));
  }

  lemma QuadLifetime(vertexVbo: Name, particleVbo: Name, vao: Name)
    ensures Acquired(QuadSetup(vertexVbo, particleVbo, vao))
         == {Resource(BufferObject, vertexVbo), Resource(BufferObject, particleVbo), Resource(VertexArrayObject, vao)}
    ensures Released(QuadSetup(vertexVbo, particleVbo, vao)) == {}
  {
    var q := QuadSetup(vertexVbo, particleVbo, vao);
    forall r
      ensures r in Acquired(q) <==> r in {Resource(BufferObject, vertexVbo), Resource(BufferObject, particleVbo), Resource(VertexArrayObject, vao)}
    {
      AcquiredMember(q, r);
      if r in {Resource(BufferObject, vertexVbo), Resource(BufferObject, particleVbo), Resource(VertexArrayObject, vao)} {
        assert r in Acquires(q[0]) || r in Acquires(q[1]) || r in Acquires(q[2]);
      }
    }
    forall r
      ensures r !in Released(q)
    {
      ReleasedMember(q, r);
    }
  }

  lemma ProgramLifetime(program: Name, vs: Name, fs: Name, loc: int)
    ensures Acquired(ProgramSetup(program, vs, fs, loc)) == Stages(vs, fs) + {Resource(ProgramObject, program)}
    ensures Released(ProgramSetup(program, vs, fs, loc)) == Stages(vs, fs)
  {
    var p := ProgramSetup(program, vs, fs, loc);
    forall r
      ensures r in Acquired(p) <==> r in Stages(vs, fs) + {Resource(ProgramObject, program)}
    {
      AcquiredMember(p, r);
      if r in Stages(vs, fs) + {Resource(ProgramObject, program)} {
        assert r in Acquires(p[0]) || r in Acquires(p[1]) || r in Acquires(p[2]);
      }
    }
    forall r
      ensures r in Released(p) <==> r in Stages(vs, fs)
    {
      ReleasedMember(p, r);
      if r in Stages(vs, fs) {
        assert r in Releases(p[3]) || r in Releases(p[4]);
      }
    }
  }

  /** The destructor deletes exactly the five owned objects and creates nothing. */
  lemma DestructorLifetime(h: Handles)
    ensures Released(DestructorCommands(h)) == Owned(h)
    ensures Acquired(DestructorCommands(h)) == {}
  {
    var d := DestructorCommands(h);
    forall r
      ensures r in Released(d) <==> r in Owned(h)
      ensures r !in Acquired(d)
    {
      ReleasedMember(d, r);
      if r in Owned(h) {
        assert r in Releases(d[0]) || r in Releases(d[1]) || r in Releases(d[2]) || r in Releases(d[3]) || r in Releases(d[4]);
      }
      AcquiredMember(d, r);
    }
  }

  /** A render call creates and deletes no object. */
  lemma {:induction false} RenderKeepsObjects(h: Handles, cache: Gradient, vp: Mat4, t: real, ls: seq<Layer>)
    ensures Acquired(RenderCommands(h, cache, vp, t, ls)) == {}
    ensures Released(RenderCommands(h, cache, vp, t, ls)) == {}
  {
    LoopKeepsObjects(h, cache, ls);
    LifetimeNone(Prologue(h, vp, t));
    LifetimeNone([BindVertexArray(0)]);
    LifetimeOfThree(Prologue(h, vp, t), LayerLoop(h, cache, ls), [BindVertexArray(0)]);
  }

  lemma {:induction false} LoopKeepsObjects(h: Handles, cache: Gradient, ls: seq<Layer>)
    ensures Acquired(LayerLoop(h, cache, ls)) == {}
    ensures Released(LayerLoop(h, cache, ls)) == {}
    decreases |ls|
  {
    if ls != [] {
      var init := ls[..|ls| - 1];
      var before := CacheAfter(cache, init);
      LoopKeepsObjects(h, cache, init);
      LifetimeAppend(LayerLoop(h, cache, init), LayerCommands(h, before, ls[|ls| - 1]));
      LayerKeepsObjects(h, before, ls[|ls| - 1]);
    }
  }

  lemma LayerKeepsObjects(h: Handles, cache: Gradient, layer: Layer)
    ensures Acquired(LayerCommands(h, cache, layer)) == {}
    ensures Released(LayerCommands(h, cache, layer)) == {}
  {
    var cg := ColorGradientCommands(cache, layer.colorGradient, h.gradientTexture);
    var st := StreamCommands(h.particleVbo, layer.particles);
    LifetimeNone(cg);
    LifetimeNone(st);
    LifetimeNone([InstancedDraw(layer)]);
    LifetimeOfThree(cg, st, [InstancedDraw(layer)]);
  }

  lemma LifetimeOfThree(a: seq<Command>, b: seq<Command>, c: seq<Command>)
    ensures Acquired(a + b + c) == Acquired(a) + Acquired(b) + Acquired(c)
    ensures Released(a + b + c) == Released(a) + Released(b) + Released(c)
  {
    LifetimeAppend(a + b, c);
    LifetimeAppend(a, b);
  }

  /**
   * A renderer's whole life (construction, any frames that create and delete
   * nothing, destruction) deletes every object it creates and nothing else.
   */
  lemma LifecycleBalanced(h: Handles, vs: Name, fs: Name, frames: seq<Command>)
    requires Acquired(frames) == {} && Released(frames) == {}
    ensures Acquired(ConstructorCommands(h, vs, fs) + frames + DestructorCommands(h))
         == Released(ConstructorCommands(h, vs, fs) + frames + DestructorCommands(h))
  {
    ConstructorLifetime(h, vs, fs);
    DestructorLifetime(h);
    LifetimeAppend(ConstructorCommands(h, vs, fs) + frames, DestructorCommands(h));
    LifetimeAppend(ConstructorCommands(h, vs, fs), frames);
  }

  /** The handles a constructor hands out are distinct, so the renderer owns five objects. */
  lemma OwnedFive(h: Handles)
    requires h.vertexVbo != h.particleVbo
    ensures |Owned(h)| == 5
  {
    var buffers := {Resource(BufferObject, h.particleVbo), Resource(BufferObject, h.vertexVbo)};
    var others := {Resource(TextureObject, h.gradientTexture), Resource(ProgramObject, h.program),
                   Resource(VertexArrayObject, h.vao)};
    assert Owned(h) == others + buffers;
    assert others * buffers == {};
  }

  lemma LifetimeNone(cmds: seq<Command>)
    requires forall i :: 0 <= i < |cmds| ==> Acquires(cmds[i]) == {} && Releases(cmds[i]) == {}
    ensures Acquired(cmds) == {} && Released(cmds) == {}
    decreases |cmds|
  {
    if cmds != [] {
      LifetimeNone(cmds[..|cmds| - 1]);
    }
  }

  // ---------------------------------------------------------------------------
  // What each draw reads

  /** Uploading a gradient binds the texture and replaces its texels; nothing else changes. */
  lemma GradientUploadEffect(s: GlState, texture: Name, g: Gradient)
    requires texture != 0
    ensures Run(s, GradientUpload(texture, g)) == s.(texture1D := texture, textures := s.textures[texture := g])
  {
    var a := [BindTexture(Texture1D, texture), TexImage1D(Texture1D, 0, Rgba, |g|, 0, Rgba, Float, g),
              TexParameteri(Texture1D, MinFilter, Linear)];
    var b := [TexParameteri(Texture1D, MagFilter, Linear), TexParameteri(Texture1D, WrapS, ClampToEdge),
              TexParameteri(Texture1D, WrapR, ClampToEdge)];
    assert GradientUpload(texture, g) == a + b;
    RunAppend(s, a, b);
    TextureFill(s, texture, g);
    TextureParameters(Run(s, a));
  }

  lemma TextureFill(s: GlState, texture: Name, g: Gradient)
    requires texture != 0
    ensures Run(s, [BindTexture(Texture1D, texture), TexImage1D(Texture1D, 0, Rgba, |g|, 0, Rgba, Float, g),
                    TexParameteri(Texture1D, MinFilter, Linear)])
         == s.(texture1D := texture, textures := s.textures[texture := g])
  {
    Run3(s, BindTexture(Texture1D, texture), TexImage1D(Texture1D, 0, Rgba, |g|, 0, Rgba, Float, g),
         TexParameteri(Texture1D, MinFilter, Linear));
  }

  lemma TextureParameters(s: GlState)
    ensures Run(s, [TexParameteri(Texture1D, MagFilter, Linear), TexParameteri(Texture1D, WrapS, ClampToEdge),
                    TexParameteri(Texture1D, WrapR, ClampToEdge)]) == s
  {
    Run3(s, TexParameteri(Texture1D, MagFilter, Linear), TexParameteri(Texture1D, WrapS, ClampToEdge),
         TexParameteri(Texture1D, WrapR, ClampToEdge));
  }

  /** Streaming fills the particle buffer and leaves the array buffer unbound; nothing else changes. */
  lemma StreamEffect(s: GlState, vbo: Name, ps: seq<Particle>)
    requires vbo != 0
    ensures Run(s, StreamCommands(vbo, ps)) == s.(arrayBuffer := 0, buffers := s.buffers[vbo := Instances(ps)])
  {
    var st := StreamCommands(vbo, ps);
    Run3(s, st[0], st[1], st[2]);
  }

  /** The prologue sets the pipeline state and binds the program, texture and vertex array. */
  lemma PrologueEffect(s: GlState, h: Handles, vp: Mat4, t: real)
    ensures Run(s, Prologue(h, vp, t))
         == s.(depthTest := false, blend := true, blendSrc := SrcAlpha, blendDst := One, program := h.program,
               texture1D := h.gradientTexture, vertexArray := h.vao)
  {
    var a := [Disable(DepthTest), Enable(Blend), BlendFunc(SrcAlpha, One)];
    var b := [UseProgram(h.program), UniformMatrix4fv(h.vpLoc, 1, false, vp), Uniform1f(h.simTimeLoc, t)];
    var c := [ActiveTexture(0), BindTexture(Texture1D, h.gradientTexture), BindVertexArray(h.vao)];
    assert Prologue(h, vp, t) == a + b + c;
    Compose3(s, a, b, c);
    BlendState(s);
    ProgramState(Run(s, a), h.program, h.vpLoc, vp, h.simTimeLoc, t);
    BindingState(Run(Run(s, a), b), h.gradientTexture, h.vao);
  }

  lemma BlendState(s: GlState)
    ensures Run(s, [Disable(DepthTest), Enable(Blend), BlendFunc(SrcAlpha, One)])
         == s.(depthTest := false, blend := true, blendSrc := SrcAlpha, blendDst := One)
  {
    Run3(s, Disable(DepthTest), Enable(Blend), BlendFunc(SrcAlpha, One));
  }

  lemma ProgramState(s: GlState, program: Name, vpLoc: int, vp: Mat4, timeLoc: int, t: real)
    ensures Run(s, [UseProgram(program), UniformMatrix4fv(vpLoc, 1, false, vp), Uniform1f(timeLoc, t)])
         == s.(program := program)
  {
    Run3(s, UseProgram(program), UniformMatrix4fv(vpLoc, 1, false, vp), Uniform1f(timeLoc, t));
  }

  lemma BindingState(s: GlState, texture: Name, vao: Name)
    ensures Run(s, [ActiveTexture(0), BindTexture(Texture1D, texture), BindVertexArray(vao)])
         == s.(texture1D := texture, vertexArray := vao)
  {
    Run3(s, ActiveTexture(0), BindTexture(Texture1D, texture), BindVertexArray(vao));
  }

  /** The state every draw of the layer loop relies on. */
  predicate Ready(s: GlState, h: Handles) {
    s.vertexArray == h.vao && s.texture1D == h.gradientTexture && AttribOf(s, h.vao, 1).buffer == h.particleVbo
    && h.particleVbo != 0 && h.gradientTexture != 0
  }

  /** What a draw of `layer` should read: the renderer's vertex array, its particles, its gradient. */
  function Fed(h: Handles, layer: Layer): DrawView {
    DrawView(InstancedDraw(layer), h.vao, 0, Some(Instances(layer.particles)), Some(layer.colorGradient))
  }

  /** A layer's commands change only the array-buffer binding, the particle buffer and, on a cache miss, the gradient texture. */
  lemma LayerRun(s: GlState, h: Handles, cache: Gradient, layer: Layer)
    requires Ready(s, h)
    ensures Run(s, LayerCommands(h, cache, layer))
         == s.(arrayBuffer := 0, buffers := s.buffers[h.particleVbo := Instances(layer.particles)],
               textures := if cache == layer.colorGradient then s.textures
                           else s.textures[h.gradientTexture := layer.colorGradient])
  {
    var cg := ColorGradientCommands(cache, layer.colorGradient, h.gradientTexture);
    var st := StreamCommands(h.particleVbo, layer.particles);
    var dr := [InstancedDraw(layer)];
    LayerPrefix(s, h, cache, layer);
    RunAppend(s, cg + st, dr);
    assert dr[..0] == [];
  }

  /**
   * One layer's draw reads the renderer's vertex array with no array buffer
   * bound, the layer's own particles, and the texture as the cache left it.
   */
  lemma LayerView(s: GlState, h: Handles, cache: Gradient, layer: Layer)
    requires Ready(s, h)
    ensures var texture := if cache == layer.colorGradient then TextureOf(s, h.gradientTexture) else Some(layer.colorGradient);
            DrawViews(s, LayerCommands(h, cache, layer))
            == [DrawView(InstancedDraw(layer), h.vao, 0, Some(Instances(layer.particles)), texture)]
  {
    var cg := ColorGradientCommands(cache, layer.colorGradient, h.gradientTexture);
    var st := StreamCommands(h.particleVbo, layer.particles);
    var dr := [InstancedDraw(layer)];
    LayerPrefix(s, h, cache, layer);
    var s2 := Run(s, cg + st);
    DrawViewsAppend(s, cg + st, dr);
    assert dr[..0] == [];
    assert DrawViews(s2, dr) == [ViewAt(s2, InstancedDraw(layer))];
  }

  /** Before its draw a layer's commands draw nothing; they fill the particle buffer and, on a cache miss, the texture. */
  lemma LayerPrefix(s: GlState, h: Handles, cache: Gradient, layer: Layer)
    requires Ready(s, h)
    ensures DrawViews(s, ColorGradientCommands(cache, layer.colorGradient, h.gradientTexture)
                         + StreamCommands(h.particleVbo, layer.particles)) == []
    ensures Run(s, ColorGradientCommands(cache, layer.colorGradient, h.gradientTexture)
                   + StreamCommands(h.particleVbo, layer.particles))
         == s.(arrayBuffer := 0, buffers := s.buffers[h.particleVbo := Instances(layer.particles)],
               textures := if cache == layer.colorGradient then s.textures
                           else s.textures[h.gradientTexture := layer.colorGradient])
  {
    var cg := ColorGradientCommands(cache, layer.colorGradient, h.gradientTexture);
    var st := StreamCommands(h.particleVbo, layer.particles);
    var s1 := CacheUpdateRun(s, h, cache, layer.colorGradient);
    var s2 := StreamRun(s1, h.particleVbo, layer.particles);
    RunAppend(s, cg, st);
    PrefixNoDraws(s, cg, st);
  }

  lemma StreamRun(s: GlState, vbo: Name, ps: seq<Particle>) returns (s2: GlState)
    requires vbo != 0
    ensures s2 == Run(s, StreamCommands(vbo, ps))
    ensures s2 == s.(arrayBuffer := 0, buffers := s.buffers[vbo := Instances(ps)])
    ensures DrawViews(s, StreamCommands(vbo, ps)) == []
  {
    s2 := Run(s, StreamCommands(vbo, ps));
    StreamEffect(s, vbo, ps);
    DrawViewsNone(s, StreamCommands(vbo, ps));
  }

  lemma PrefixNoDraws(s: GlState, a: seq<Command>, b: seq<Command>)
    requires forall i :: 0 <= i < |a| ==> !IsDraw(a[i])
    requires DrawViews(Run(s, a), b) == []
    ensures DrawViews(s, a + b) == []
  {
    DrawViewsAppend(s, a, b);
    DrawViewsNone(s, a);
  }

  /** The cache update leaves the state alone on a hit and fills the bound texture on a miss. */
  lemma CacheUpdateRun(s: GlState, h: Handles, cache: Gradient, g: Gradient) returns (s1: GlState)
    requires Ready(s, h)
    ensures s1 == Run(s, ColorGradientCommands(cache, g, h.gradientTexture))
    ensures s1 == if cache == g then s else s.(textures := s.textures[h.gradientTexture := g])
  {
    s1 := Run(s, ColorGradientCommands(cache, g, h.gradientTexture));
    if cache != g {
      GradientUploadEffect(s, h.gradientTexture, g);
    }
  }

  /** The texture holds the cached gradient, or the next layer's gradient misses the cache and gets uploaded before its draw. */
  predicate TextureValid(s: GlState, h: Handles, cache: Gradient, ls: seq<Layer>) {
    TextureOf(s, h.gradientTexture) == Some(cache) || (ls != [] && ls[0].colorGradient != cache)
  }

  /**
   * After the layer loop only the array-buffer binding, the buffer contents and
   * the texture contents differ, and the texture holds the cached gradient.
   */
  lemma {:induction false} LoopState(s: GlState, h: Handles, cache: Gradient, ls: seq<Layer>)
    requires Ready(s, h)
    requires TextureValid(s, h, cache, ls)
    ensures var after := Run(s, LayerLoop(h, cache, ls));
            after == s.(arrayBuffer := after.arrayBuffer, buffers := after.buffers, textures := after.textures)
    ensures ls != [] ==> TextureOf(Run(s, LayerLoop(h, cache, ls)), h.gradientTexture) == Some(CacheAfter(cache, ls))
    decreases |ls|
  {
    if ls != [] {
      var init := ls[..|ls| - 1];
      var last := ls[|ls| - 1];
      var before := CacheAfter(cache, init);
      var s1 := Run(s, LayerLoop(h, cache, init));
      if init != [] {
        assert init[0] == ls[0];
        LoopState(s, h, cache, init);
      }
      assert Ready(s1, h);
      LayerRun(s1, h, before, last);
      RunAppend(s, LayerLoop(h, cache, init), LayerCommands(h, before, last));
    }
  }

  /** The layer loop feeds every draw its own layer: the vertex array, the layer's particles and the layer's gradient. */
  lemma {:induction false} LoopFeedsDraws(s: GlState, h: Handles, cache: Gradient, ls: seq<Layer>)
    requires Ready(s, h)
    requires TextureValid(s, h, cache, ls)
    ensures |DrawViews(s, LayerLoop(h, cache, ls))| == |ls|
    ensures forall i :: 0 <= i < |ls| ==> DrawViews(s, LayerLoop(h, cache, ls))[i] == Fed(h, ls[i])
    decreases |ls|
  {
    if ls != [] {
      var init := ls[..|ls| - 1];
      var last := ls[|ls| - 1];
      if init != [] {
        assert init[0] == ls[0];
        LoopFeedsDraws(s, h, cache, init);
      }
      LoopLastFed(s, h, cache, ls);
      DrawViewsAppend(s, LayerLoop(h, cache, init), LayerCommands(h, CacheAfter(cache, init), last));
      FedSnoc(DrawViews(s, LayerLoop(h, cache, init)), h, init, ls);
    }
  }

  /** The last layer of the loop is fed its own particles and gradient. */
  lemma LoopLastFed(s: GlState, h: Handles, cache: Gradient, ls: seq<Layer>)
    requires Ready(s, h)
    requires TextureValid(s, h, cache, ls)
    requires ls != []
    ensures var init := ls[..|ls| - 1];
            DrawViews(Run(s, LayerLoop(h, cache, init)), LayerCommands(h, CacheAfter(cache, init), ls[|ls| - 1]))
            == [Fed(h, ls[|ls| - 1])]
  {
    var init := ls[..|ls| - 1];
    var s1 := Run(s, LayerLoop(h, cache, init));
    if init != [] {
      assert init[0] == ls[0];
      LoopState(s, h, cache, init);
    }
    assert Ready(s1, h);
    LayerView(s1, h, CacheAfter(cache, init), ls[|ls| - 1]);
  }

  lemma FedSnoc(views: seq<DrawView>, h: Handles, init: seq<Layer>, ls: seq<Layer>)
    requires ls != [] && init == ls[..|ls| - 1] && |views| == |init|
    requires forall i :: 0 <= i < |init| ==> views[i] == Fed(h, init[i])
    ensures |views + [Fed(h, ls[|ls| - 1])]| == |ls|
    ensures forall i :: 0 <= i < |ls| ==> (views + [Fed(h, ls[|ls| - 1])])[i] == Fed(h, ls[i])
  {
    forall i | 0 <= i < |ls| ensures (views + [Fed(h, ls[|ls| - 1])])[i] == Fed(h, ls[i]) {
      if i < |init| {
        assert ls[i] == init[i];
      }
    }
  }

  /**
   * One render call, from any state where the renderer's vertex array reads
   * attribute 1 from the particle buffer and the texture is valid for the
   * first layer: draw `i` reads the renderer's vertex array, no bound array
   * buffer, exactly layer `i`'s particles and layer `i`'s gradient.
   */
  lemma RenderFeedsEachDraw(s: GlState, h: Handles, cache: Gradient, vp: Mat4, t: real, ls: seq<Layer>)
    requires AttribOf(s, h.vao, 1).buffer == h.particleVbo && h.particleVbo != 0 && h.gradientTexture != 0
    requires TextureValid(s, h, cache, ls)
    ensures |DrawViews(s, RenderCommands(h, cache, vp, t, ls))| == |ls|
    ensures forall i :: 0 <= i < |ls| ==> DrawViews(s, RenderCommands(h, cache, vp, t, ls))[i] == Fed(h, ls[i])
  {
    var pro := Prologue(h, vp, t);
    var loop := LayerLoop(h, cache, ls);
    var end := [BindVertexArray(0)];
    var s1 := PrologueReady(s, h, cache, vp, t, ls);
    PrologueNoDraws(s, h, vp, t);
    LoopFeedsDraws(s1, h, cache, ls);
    EpilogueEffect(Run(s1, loop));
    ViewsOfThree(s, pro, loop, end);
  }

  /** After the prologue the renderer's vertex array and texture are bound, and the texture is still valid for the first layer. */
  lemma PrologueReady(s: GlState, h: Handles, cache: Gradient, vp: Mat4, t: real, ls: seq<Layer>) returns (s1: GlState)
    requires AttribOf(s, h.vao, 1).buffer == h.particleVbo && h.particleVbo != 0 && h.gradientTexture != 0
    requires TextureValid(s, h, cache, ls)
    ensures s1 == Run(s, Prologue(h, vp, t))
    ensures Ready(s1, h) && TextureValid(s1, h, cache, ls)
    ensures s1.attribs == s.attribs && s1.textures == s.textures
  {
    PrologueEffect(s, h, vp, t);
    s1 := Run(s, Prologue(h, vp, t));
  }

  /** When the first and last parts draw nothing, the draws of the whole are those of the middle part. */
  lemma ViewsOfThree(s: GlState, a: seq<Command>, b: seq<Command>, c: seq<Command>)
    requires DrawViews(s, a) == [] && DrawViews(Run(Run(s, a), b), c) == []
    ensures DrawViews(s, a + b + c) == DrawViews(Run(s, a), b)
  {
    Compose3(s, a, b, c);
  }

  /**
   * After a render call depth testing is off, additive alpha blending is on,
   * the program is bound, the vertex array is unbound, the attribute tables
   * are untouched, and the texture holds the cached gradient.
   */
  lemma RenderFinalState(s: GlState, h: Handles, cache: Gradient, vp: Mat4, t: real, ls: seq<Layer>)
    requires AttribOf(s, h.vao, 1).buffer == h.particleVbo && h.particleVbo != 0 && h.gradientTexture != 0
    requires TextureValid(s, h, cache, ls)
    ensures var after := Run(s, RenderCommands(h, cache, vp, t, ls));
            && !after.depthTest && after.blend && after.blendSrc == SrcAlpha && after.blendDst == One
            && after.program == h.program && after.vertexArray == 0 && after.texture1D == h.gradientTexture
            && after.attribs == s.attribs
            && TextureOf(after, h.gradientTexture) == if ls == [] then TextureOf(s, h.gradientTexture) else Some(CacheAfter(cache, ls))
  {
    var pro := Prologue(h, vp, t);
    var loop := LayerLoop(h, cache, ls);
    var end := [BindVertexArray(0)];
    var s1 := PrologueReady(s, h, cache, vp, t, ls);
    PrologueEffect(s, h, vp, t);
    LoopState(s1, h, cache, ls);
    EpilogueEffect(Run(s1, loop));
    Compose3(s, pro, loop, end);
  }

  lemma PrologueNoDraws(s: GlState, h: Handles, vp: Mat4, t: real)
    ensures DrawViews(s, Prologue(h, vp, t)) == []
  {
    DrawViewsNone(s, Prologue(h, vp, t));
  }

  /** Unbinding the vertex array draws nothing and changes only that binding. */
  lemma EpilogueEffect(s: GlState)
    ensures DrawViews(s, [BindVertexArray(0)]) == []
    ensures Run(s, [BindVertexArray(0)]) == s.(vertexArray := 0)
  {
    assert [BindVertexArray(0)][..0] == [];
  }

  lemma Compose3(s: GlState, a: seq<Command>, b: seq<Command>, c: seq<Command>)
    ensures Run(s, a + b + c) == Run(Run(Run(s, a), b), c)
    ensures DrawViews(s, a + b + c) == DrawViews(s, a) + DrawViews(Run(s, a), b) + DrawViews(Run(Run(s, a), b), c)
  {
    RunAppend(s, a, b);
    RunAppend(s, a + b, c);
    DrawViewsAppend(s, a + b, c);
    DrawViewsAppend(s, a, b);
  }

  // ---------------------------------------------------------------------------
  // The state the constructor leaves

  /** The quad setup: attribute 0 of the new vertex array reads two floats per vertex from the filled vertex buffer. */
  lemma QuadEffect(s: GlState, vertexVbo: Name, particleVbo: Name, vao: Name)
    requires vertexVbo != 0 && vertexVbo != particleVbo
    ensures var after := Run(s, QuadSetup(vertexVbo, particleVbo, vao));
            && AttribOf(after, vao, 0) == Attrib(true, vertexVbo, 2, 0, 0, 0)
            && AttribOf(after, vao, 1) == DefaultAttrib && AttribOf(after, vao, 2) == DefaultAttrib
            && BufferOf(after, vertexVbo) == Some(Corners(QuadCorners)) && BufferOf(after, particleVbo) == None
            && after.vertexArray == vao && after.textures == s.textures && after.program == s.program
  {
    var q := QuadSetup(vertexVbo, particleVbo, vao);
    var a, b, c := [q[0], q[1], q[2]], [q[3], q[4], q[5]], [q[6], q[7]];
    assert q == a + b + c;
    RunAppend(s, a + b, c);
    RunAppend(s, a, b);
    QuadGenerate(s, vertexVbo, particleVbo, vao);
    QuadFill(Run(s, a), vertexVbo, particleVbo, vao);
    QuadAttribute(Run(s, a + b), vertexVbo, vao);
  }

  lemma QuadGenerate(s: GlState, vertexVbo: Name, particleVbo: Name, vao: Name)
    ensures var after := Run(s, [Generate(BufferObject, vertexVbo), Generate(BufferObject, particleVbo), Generate(VertexArrayObject, vao)]);
            && BufferOf(after, vertexVbo) == None && BufferOf(after, particleVbo) == None
            && AttribOf(after, vao, 0) == DefaultAttrib && AttribOf(after, vao, 1) == DefaultAttrib
            && AttribOf(after, vao, 2) == DefaultAttrib
            && after.textures == s.textures && after.program == s.program
  {
    Run3(s, Generate(BufferObject, vertexVbo), Generate(BufferObject, particleVbo), Generate(VertexArrayObject, vao));
  }

  lemma QuadFill(s: GlState, vertexVbo: Name, particleVbo: Name, vao: Name)
    requires vertexVbo != 0 && vertexVbo != particleVbo
    ensures var after := Run(s, [BindVertexArray(vao), BindBuffer(ArrayBuffer, vertexVbo),
                                 BufferData(ArrayBuffer, Vec2Bytes * |QuadCorners|, Corners(QuadCorners), StaticDraw)]);
            && after.attribs == s.attribs && after.vertexArray == vao && after.arrayBuffer == vertexVbo
            && BufferOf(after, vertexVbo) == Some(Corners(QuadCorners)) && BufferOf(after, particleVbo) == BufferOf(s, particleVbo)
            && after.textures == s.textures && after.program == s.program
  {
    Run3(s, BindVertexArray(vao), BindBuffer(ArrayBuffer, vertexVbo),
         BufferData(ArrayBuffer, Vec2Bytes * |QuadCorners|, Corners(QuadCorners), StaticDraw));
  }

  lemma QuadAttribute(s: GlState, vertexVbo: Name, vao: Name)
    requires s.vertexArray == vao && s.arrayBuffer == vertexVbo && AttribOf(s, vao, 0) == DefaultAttrib
    ensures var after := Run(s, [EnableVertexAttribArray(0), VertexAttribPointer(0, 2, Float, false, 0, 0)]);
            && AttribOf(after, vao, 0) == Attrib(true, vertexVbo, 2, 0, 0, 0)
            && AttribOf(after, vao, 1) == AttribOf(s, vao, 1) && AttribOf(after, vao, 2) == AttribOf(s, vao, 2)
            && after.buffers == s.buffers && after.vertexArray == vao
            && after.textures == s.textures && after.program == s.program
  {
    var c0, c1 := EnableVertexAttribArray(0), VertexAttribPointer(0, 2, Float, false, 0, 0);
    Run2(s, c0, c1);
    var s1 := Apply(s, c0);
    AttribStep(s, c0, vao, 0); AttribStep(s, c0, vao, 1); AttribStep(s, c0, vao, 2);
    AttribStep(s1, c1, vao, 0); AttribStep(s1, c1, vao, 1); AttribStep(s1, c1, vao, 2);
  }

  /** The instance layout: attributes 1 and 2 read four floats per instance from the particle buffer. */
  lemma LayoutEffect(s: GlState, particleVbo: Name, vao: Name)
    requires s.vertexArray == vao
    requires AttribOf(s, vao, 1) == DefaultAttrib && AttribOf(s, vao, 2) == DefaultAttrib
    ensures var after := Run(s, InstanceLayout(particleVbo));
            && AttribOf(after, vao, 0) == AttribOf(s, vao, 0)
            && AttribOf(after, vao, 1) == Attrib(true, particleVbo, 4, ParticleBytes, 0, 1)
            && AttribOf(after, vao, 2) == Attrib(true, particleVbo, 4, ParticleBytes, VelocityOffset, 1)
            && after.buffers == s.buffers && after.textures == s.textures && after.program == s.program
            && after.vertexArray == 0 && after.arrayBuffer == particleVbo
  {
    var l := InstanceLayout(particleVbo);
    var a, b, c := [l[0], l[1], l[2]], [l[3], l[4], l[5]], [l[6], l[7]];
    assert l == a + b + c;
    RunAppend(s, a + b, c);
    RunAppend(s, a, b);
    LayoutFirst(s, particleVbo, vao);
    LayoutSecond(Run(s, a), particleVbo, vao);
    LayoutLast(Run(s, a + b), vao);
  }

  lemma LayoutFirst(s: GlState, particleVbo: Name, vao: Name)
    requires s.vertexArray == vao && AttribOf(s, vao, 1) == DefaultAttrib
    ensures var after := Run(s, [BindBuffer(ArrayBuffer, particleVbo), EnableVertexAttribArray(1),
                                 VertexAttribPointer(1, 4, Float, false, ParticleBytes, 0)]);
            && AttribOf(after, vao, 0) == AttribOf(s, vao, 0)
            && AttribOf(after, vao, 1) == Attrib(true, particleVbo, 4, ParticleBytes, 0, 0)
            && AttribOf(after, vao, 2) == AttribOf(s, vao, 2)
            && after.buffers == s.buffers && after.textures == s.textures && after.program == s.program
            && after.vertexArray == vao && after.arrayBuffer == particleVbo
  {
    var c0, c1, c2 := BindBuffer(ArrayBuffer, particleVbo), EnableVertexAttribArray(1),
                      VertexAttribPointer(1, 4, Float, false, ParticleBytes, 0);
    Run3(s, c0, c1, c2);
    var s1 := Apply(s, c0);
    var s2 := Apply(s1, c1);
    AttribStep(s1, c1, vao, 0); AttribStep(s1, c1, vao, 1); AttribStep(s1, c1, vao, 2);
    AttribStep(s2, c2, vao, 0); AttribStep(s2, c2, vao, 1); AttribStep(s2, c2, vao, 2);
  }

  lemma LayoutSecond(s: GlState, particleVbo: Name, vao: Name)
    requires s.vertexArray == vao && s.arrayBuffer == particleVbo && AttribOf(s, vao, 2) == DefaultAttrib
    ensures var after := Run(s, [VertexAttribDivisor(1, 1), EnableVertexAttribArray(2),
                                 VertexAttribPointer(2, 4, Float, false, ParticleBytes, VelocityOffset)]);
            && AttribOf(after, vao, 0) == AttribOf(s, vao, 0)
            && AttribOf(after, vao, 1) == AttribOf(s, vao, 1).(divisor := 1)
            && AttribOf(after, vao, 2) == Attrib(true, particleVbo, 4, ParticleBytes, VelocityOffset, 0)
            && after.buffers == s.buffers && after.textures == s.textures && after.program == s.program
            && after.vertexArray == vao && after.arrayBuffer == particleVbo
  {
    var c0, c1, c2 := VertexAttribDivisor(1, 1), EnableVertexAttribArray(2),
                      VertexAttribPointer(2, 4, Float, false, ParticleBytes, VelocityOffset);
    Run3(s, c0, c1, c2);
    var s1 := Apply(s, c0);
    var s2 := Apply(s1, c1);
    AttribStep(s, c0, vao, 0); AttribStep(s, c0, vao, 1); AttribStep(s, c0, vao, 2);
    AttribStep(s1, c1, vao, 0); AttribStep(s1, c1, vao, 1); AttribStep(s1, c1, vao, 2);
    AttribStep(s2, c2, vao, 0); AttribStep(s2, c2, vao, 1); AttribStep(s2, c2, vao, 2);
  }

  lemma LayoutLast(s: GlState, vao: Name)
    requires s.vertexArray == vao
    ensures var after := Run(s, [VertexAttribDivisor(2, 1), BindVertexArray(0)]);
            && AttribOf(after, vao, 0) == AttribOf(s, vao, 0) && AttribOf(after, vao, 1) == AttribOf(s, vao, 1)
            && AttribOf(after, vao, 2) == AttribOf(s, vao, 2).(divisor := 1)
            && after.buffers == s.buffers && after.textures == s.textures && after.program == s.program
            && after.vertexArray == 0 && after.arrayBuffer == s.arrayBuffer
  {
    var c0 := VertexAttribDivisor(2, 1);
    Run2(s, c0, BindVertexArray(0));
    AttribStep(s, c0, vao, 0); AttribStep(s, c0, vao, 1); AttribStep(s, c0, vao, 2);
  }

  /** Building the program leaves no program bound. */
  lemma ProgramEffect(s: GlState, program: Name, vs: Name, fs: Name, loc: int)
    ensures Run(s, ProgramSetup(program, vs, fs, loc)) == s.(program := 0)
  {
    var p := ProgramSetup(program, vs, fs, loc);
    var a, b, c := [p[0], p[1], p[2]], [p[3], p[4], p[5]], [p[6], p[7]];
    assert p == a + b + c;
    RunAppend(s, a + b, c);
    RunAppend(s, a, b);
    Run3(s, p[0], p[1], p[2]);
    Run3(Run(s, a), p[3], p[4], p[5]);
    Run2(Run(s, a + b), p[6], p[7]);
  }

  lemma Compose4(s: GlState, a: seq<Command>, b: seq<Command>, c: seq<Command>, d: seq<Command>)
    ensures Run(s, a + b + c + d) == Run(Run(Run(Run(s, a), b), c), d)
  {
    RunAppend(s, a + b + c, d);
    RunAppend(s, a + b, c);
    RunAppend(s, a, b);
  }

  /**
   * After construction the vertex array holds the quad corners on attribute 0
   * and the particle buffer, one step per instance, on attributes 1 and 2;
   * no vertex array and no program is bound, the array buffer stays bound to
   * the particle buffer, the particle buffer has no data yet, and the gradient
   * texture has no texels until the first upload.
   */
  lemma ConstructorLayout(s: GlState, h: Handles, vs: Name, fs: Name)
    requires h.vertexVbo != 0 && h.particleVbo != 0 && h.vertexVbo != h.particleVbo
    ensures var after := Run(s, ConstructorCommands(h, vs, fs));
            && AttribOf(after, h.vao, 0) == Attrib(true, h.vertexVbo, 2, 0, 0, 0)
            && AttribOf(after, h.vao, 1) == Attrib(true, h.particleVbo, 4, ParticleBytes, 0, 1)
            && AttribOf(after, h.vao, 2) == Attrib(true, h.particleVbo, 4, ParticleBytes, VelocityOffset, 1)
            && BufferOf(after, h.vertexVbo) == Some(Corners(QuadCorners)) && BufferOf(after, h.particleVbo) == None
            && TextureOf(after, h.gradientTexture) == None
            && after.vertexArray == 0 && after.program == 0 && after.arrayBuffer == h.particleVbo
  {
    var q := QuadSetup(h.vertexVbo, h.particleVbo, h.vao);
    var l := InstanceLayout(h.particleVbo);
    var p := ProgramSetup(h.program, vs, fs, h.gradientTextureLoc);
    var g := [Generate(TextureObject, h.gradientTexture)];
    QuadEffect(s, h.vertexVbo, h.particleVbo, h.vao);
    var s1 := Run(s, q);
    LayoutEffect(s1, h.particleVbo, h.vao);
    var s2 := Run(s1, l);
    ProgramEffect(s2, h.program, vs, fs, h.gradientTextureLoc);
    var s3 := Run(s2, p);
    assert g[..0] == [];
    assert Run(s3, g) == s3.(textures := s3.textures - {h.gradientTexture});
    Compose4(s, q, l, p, g);
  }

  /**
   * The cache starts with whatever gradient the renderer was built with, but
   * the texture starts empty: a first frame whose layer has that same
   * gradient uploads nothing and its draw samples a texture with no texels.
   */
  lemma FirstFrameMaySampleEmptyTexture(s: GlState, h: Handles, vs: Name, fs: Name, initial: Gradient,
                                        vp: Mat4, t: real, layer: Layer)
    requires h.vertexVbo != 0 && h.particleVbo != 0 && h.vertexVbo != h.particleVbo && h.gradientTexture != 0
    requires layer.colorGradient == initial
    ensures var built := Run(s, ConstructorCommands(h, vs, fs));
            && |DrawViews(built, RenderCommands(h, initial, vp, t, [layer]))| == 1
            && DrawViews(built, RenderCommands(h, initial, vp, t, [layer]))[0].gradient == None
  {
    ConstructorLayout(s, h, vs, fs);
    var built := Run(s, ConstructorCommands(h, vs, fs));
    var pro := Prologue(h, vp, t);
    var end := [BindVertexArray(0)];
    var lc := LayerCommands(h, initial, layer);
    assert [layer][..0] == [];
    assert LayerLoop(h, initial, [layer]) == [] + lc;
    assert [] + lc == lc;
    PrologueEffect(built, h, vp, t);
    PrologueNoDraws(built, h, vp, t);
    var s1 := Run(built, pro);
    LayerView(s1, h, initial, layer);
    EpilogueEffect(Run(s1, lc));
    Compose3(built, pro, lc, end);
  }

  lemma SelectNone(cmds: seq<Command>, p: Command -> bool)
    requires forall i :: 0 <= i < |cmds| ==> !p(cmds[i])
    ensures Select(cmds, p) == []
    decreases |cmds|
  {
    if cmds != [] {
      SelectNone(cmds[..|cmds| - 1], p);
    }
  }
}
