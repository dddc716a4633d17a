/**
 * The particle renderer: it owns a quad vertex buffer, a per-instance particle
 * buffer, a vertex array object, the particle shader program and a 1-D
 * gradient texture, and draws every layer of simulation output with one
 * instanced draw. The last uploaded gradient is cached so that the texture is
 * only re-uploaded when a layer's gradient differs from it.
 *
 * Every GL call becomes a command appended to the context's trace; the
 * functions below give the exact command sequence of each operation, and the
 * lemmas state what those sequences guarantee.
 */
module ParticleRendering {
  import opened Particles
  import opened Gl

  /** The renderer's GL handles and uniform locations. */
  datatype Handles = Handles(vertexVbo: Name, particleVbo: Name, vao: Name, program: Name,
                             gradientTexture: Name, vpLoc: int, simTimeLoc: int, gradientTextureLoc: int)

  /** The four corners of the unit quad, centred on the origin. */
  const QuadCorners: seq<Vec2> := [Vec2(-0.5, -0.5), Vec2(0.5, -0.5), Vec2(0.5, 0.5), Vec2(-0.5, 0.5)]

  const VertexShaderPath: string := "shaders/particle.vert"
  const FragmentShaderPath: string := "shaders/particle.frag"

  // ---------------------------------------------------------------------------
  // Construction and destruction

  /** The shared quad: buffer and vertex array generation, attribute 0 on the quad corners. */
  function QuadSetup(vertexVbo: Name, particleVbo: Name, vao: Name): seq<Command> {
    [ Generate(BufferObject, vertexVbo),
      Generate(BufferObject, particleVbo),
      Generate(VertexArrayObject, vao),
      BindVertexArray(vao),
      BindBuffer(ArrayBuffer, vertexVbo),
      BufferData(ArrayBuffer, Vec2Bytes * |QuadCorners|, Corners(QuadCorners), StaticDraw),
      EnableVertexAttribArray(0),
      VertexAttribPointer(0, 2, Float, false, 0, 0) ]
  }

  /** The per-instance attributes 1 and 2, both sourced from the particle buffer, one step per instance. */
  function InstanceLayout(particleVbo: Name): seq<Command> {
    [ BindBuffer(ArrayBuffer, particleVbo),
      EnableVertexAttribArray(1),
      VertexAttribPointer(1, 4, Float, false, ParticleBytes, 0),
      VertexAttribDivisor(1, 1),
      EnableVertexAttribArray(2),
      VertexAttribPointer(2, 4, Float, false, ParticleBytes, VelocityOffset),
      VertexAttribDivisor(2, 1),
      BindVertexArray(0) ]
  }

  /** Shader stages, program link, stage deletion, the texture-unit uniform. */
  function ProgramSetup(program: Name, vs: Name, fs: Name, gradientTextureLoc: int): seq<Command> {
    [ CreateShader(VertexStage, VertexShaderPath, vs),
      CreateShader(FragmentStage, FragmentShaderPath, fs),
      CreateProgram(vs, fs, program),
      Delete(ShaderObject, fs),
      Delete(ShaderObject, vs),
      UseProgram(program),
      Uniform1i(gradientTextureLoc, 0),
      UseProgram(0) ]
  }

  /** Everything the constructor issues; `vs` and `fs` are the two shader stages. */
  function ConstructorCommands(h: Handles, vs: Name, fs: Name): seq<Command> {
    QuadSetup(h.vertexVbo, h.particleVbo, h.vao) + InstanceLayout(h.particleVbo)
    + ProgramSetup(h.program, vs, fs, h.gradientTextureLoc) + [Generate(TextureObject, h.gradientTexture)]
  }

  function DestructorCommands(h: Handles): seq<Command> {
    [ Delete(TextureObject, h.gradientTexture),
      Delete(ProgramObject, h.program),
      Delete(VertexArrayObject, h.vao),
      Delete(BufferObject, h.particleVbo),
      Delete(BufferObject, h.vertexVbo) ]
  }

  /** The five objects the renderer keeps for its whole life. */
  function Owned(h: Handles): set<Resource> {
    { Resource(TextureObject, h.gradientTexture), Resource(ProgramObject, h.program),
      Resource(VertexArrayObject, h.vao), Resource(BufferObject, h.particleVbo),
      Resource(BufferObject, h.vertexVbo) }
  }

  // ---------------------------------------------------------------------------
  // Per frame

  /** A full upload of gradient `g` into `texture`: bind, two RGBA float texels, linear filter, clamped edges. */
  function GradientUpload(texture: Name, g: Gradient): seq<Command> {
    [ BindTexture(Texture1D, texture),
      TexImage1D(Texture1D, 0, Rgba, |g|, 0, Rgba, Float, g),
      TexParameteri(Texture1D, MinFilter, Linear),
      TexParameteri(Texture1D, MagFilter, Linear),
      TexParameteri(Texture1D, WrapS, ClampToEdge),
      TexParameteri(Texture1D, WrapR, ClampToEdge) ]
  }

  /** colorGradient: nothing when `g` is the cached gradient, one upload otherwise. */
  function ColorGradientCommands(cache: Gradient, g: Gradient, texture: Name): seq<Command> {
    if cache == g then [] else GradientUpload(texture, g)
  }

  /** Stream a layer's instances into the particle buffer, then unbind the array buffer. */
  function StreamCommands(vbo: Name, ps: seq<Particle>): seq<Command> {
    [ BindBuffer(ArrayBuffer, vbo),
      BufferData(ArrayBuffer, ParticleBytes * |ps|, Instances(ps), StreamDraw),
      BindBuffer(ArrayBuffer, 0) ]
  }

  function InstancedDraw(layer: Layer): Command {
    DrawArraysInstanced(TriangleFan, 0, 4, |layer.particles|)
  }

  function LayerCommands(h: Handles, cache: Gradient, layer: Layer): seq<Command> {
    ColorGradientCommands(cache, layer.colorGradient, h.gradientTexture)
    + StreamCommands(h.particleVbo, layer.particles)
    + [InstancedDraw(layer)]
  }

  /** The cached gradient after the layers `ls` have been drawn. */
  function CacheAfter(cache: Gradient, ls: seq<Layer>): Gradient {
    if ls == [] then cache else ls[|ls| - 1].colorGradient
  }

  /** The body of the layer loop, run over `ls` in order starting from cache `cache`. */
  function LayerLoop(h: Handles, cache: Gradient, ls: seq<Layer>): seq<Command>
    decreases |ls|
  {
    if ls == [] then []
    else
      var init := ls[..|ls| - 1];
      LayerLoop(h, cache, init) + LayerCommands(h, CacheAfter(cache, init), ls[|ls| - 1])
  }

  /** The fixed pipeline state set once per call, ending with the vertex array bind. */
  function Prologue(h: Handles, vp: Mat4, t: real): seq<Command> {
    [ Disable(DepthTest),
      Enable(Blend),
      BlendFunc(SrcAlpha, One),
      UseProgram(h.program),
      UniformMatrix4fv(h.vpLoc, 1, false, vp),
      Uniform1f(h.simTimeLoc, t),
      ActiveTexture(0),
      BindTexture(Texture1D, h.gradientTexture),
      BindVertexArray(h.vao) ]
  }

  function RenderCommands(h: Handles, cache: Gradient, vp: Mat4, t: real, ls: seq<Layer>): seq<Command> {
    Prologue(h, vp, t) + LayerLoop(h, cache, ls) + [BindVertexArray(0)]
  }

  lemma Assoc(a: seq<Command>, b: seq<Command>, c: seq<Command>)
    ensures a + b + c == a + (b + c)
  {}

  lemma LayerLoopStep(h: Handles, cache: Gradient, ls: seq<Layer>, i: nat)
    requires i < |ls|
    ensures LayerLoop(h, cache, ls[..i + 1]) == LayerLoop(h, cache, ls[..i]) + LayerCommands(h, CacheAfter(cache, ls[..i]), ls[i])
    ensures CacheAfter(cache, ls[..i + 1]) == ls[i].colorGradient
  {
    assert ls[..i + 1][..i] == ls[..i];
  }

  // ---------------------------------------------------------------------------
  // The renderer object

  class ParticleRenderer {
    /** mColorGradient: the gradient last uploaded (or the initial value). */
    var lastGradient: Gradient
    var vertexVbo: Name
    var particleVbo: Name
    var gradientTexture: Name
    var vao: Name
    var program: Name
    var vpLoc: int
    var simTimeLoc: int
    var gradientTextureLoc: int
    /**
     * Set once the constructor has acquired every object: the setup steps
     * exist only inside the constructor, the frame operations only after it.
     */
    ghost var built: bool
    /** Set by Destroy; nothing may be called afterwards. */
    ghost var destroyed: bool

    function Resources(): Handles
      reads this`vertexVbo, this`particleVbo, this`vao, this`program, this`gradientTexture
      reads this`vpLoc, this`simTimeLoc, this`gradientTextureLoc
    {
      Handles(vertexVbo, particleVbo, vao, program, gradientTexture, vpLoc, simTimeLoc, gradientTextureLoc)
    }

    /**
     * Acquire every GL resource. The handles are fresh, positive and distinct;
     * the two shader stages are the names right after the vertex array.
     */
    constructor (gl: Context, initialGradient: Gradient)
      modifies gl`trace, gl`lastName
      ensures built && !destroyed && lastGradient == initialGradient
      ensures vertexVbo == old(gl.lastName) + 1 && particleVbo == old(gl.lastName) + 2
      ensures vao == old(gl.lastName) + 3 && program == old(gl.lastName) + 6
      ensures gradientTexture == old(gl.lastName) + 7 == gl.lastName
      ensures vpLoc == UniformLocation(gl.uniformLocations, "viewProjection")
      ensures simTimeLoc == UniformLocation(gl.uniformLocations, "simulationTime")
      ensures gradientTextureLoc == UniformLocation(gl.uniformLocations, "colorGradient")
      ensures gl.trace == old(gl.trace) + ConstructorCommands(Resources(), old(gl.lastName) + 4, old(gl.lastName) + 5)
    {
      // the member initialisers: no objects yet, unknown uniform locations
      lastGradient := initialGradient;
      vertexVbo, particleVbo, gradientTexture, vao, program := 0, 0, 0, 0, 0;
      vpLoc, simTimeLoc, gradientTextureLoc := -1, -1, -1;
      built, destroyed := false, false;
      new;
      ghost var trace0 := gl.trace;
      ghost var n := gl.lastName;
      CreateQuad(gl);
      ghost var quad := gl.trace[|trace0|..];
      assert gl.trace == trace0 + quad;
      DescribeInstances(gl);
      ghost var layout := InstanceLayout(particleVbo);
      LinkProgram(gl);
      ghost var programSetup := ProgramSetup(program, n + 4, n + 5, gradientTextureLoc);

      gradientTexture := gl.Gen(TextureObject);
      Assoc(trace0, quad, layout);
      Assoc(trace0, quad + layout, programSetup);
      Assoc(trace0, quad + layout + programSetup, [Generate(TextureObject, gradientTexture)]);
      built := true;
    }

    /** The quad's vertex buffer, the particle buffer, the vertex array, and attribute 0 on the quad corners. */
    method CreateQuad(gl: Context)
      requires !built
      modifies this`vertexVbo, this`particleVbo, this`vao, gl`trace, gl`lastName
      ensures vertexVbo == old(gl.lastName) + 1 && particleVbo == old(gl.lastName) + 2
      ensures vao == old(gl.lastName) + 3 == gl.lastName
      ensures gl.trace == old(gl.trace) + QuadSetup(vertexVbo, particleVbo, vao)
    {
      vertexVbo := gl.Gen(BufferObject);
      particleVbo := gl.Gen(BufferObject);

      vao := gl.Gen(VertexArrayObject);
      gl.Issue(BindVertexArray(vao));

      gl.Issue(BindBuffer(ArrayBuffer, vertexVbo));
      gl.Issue(BufferData(ArrayBuffer, Vec2Bytes * |QuadCorners|, Corners(QuadCorners), StaticDraw));
      gl.Issue(EnableVertexAttribArray(0));
      gl.Issue(VertexAttribPointer(0, 2, Float, false, 0, 0));
    }

    /** Attributes 1 (ttl, position) and 2 (velocity, size) read the particle buffer once per instance. */
    method DescribeInstances(gl: Context)
      requires !built
      modifies gl`trace
      ensures gl.trace == old(gl.trace) + InstanceLayout(particleVbo)
    {
      gl.Issue(BindBuffer(ArrayBuffer, particleVbo));
      gl.Issue(EnableVertexAttribArray(1));
      gl.Issue(VertexAttribPointer(1, 4, Float, false, ParticleBytes, 0));
      gl.Issue(VertexAttribDivisor(1, 1));
      gl.Issue(EnableVertexAttribArray(2));
      gl.Issue(VertexAttribPointer(2, 4, Float, false, ParticleBytes, VelocityOffset));
      gl.Issue(VertexAttribDivisor(2, 1));
      gl.Issue(BindVertexArray(0));
    }

    /** Both shader stages, the linked program, the stages' deletion, the uniform locations. */
    method LinkProgram(gl: Context)
      requires !built
      modifies this`program, this`vpLoc, this`simTimeLoc, this`gradientTextureLoc, gl`trace, gl`lastName
      ensures program == old(gl.lastName) + 3 == gl.lastName
      ensures vpLoc == UniformLocation(gl.uniformLocations, "viewProjection")
      ensures simTimeLoc == UniformLocation(gl.uniformLocations, "simulationTime")
      ensures gradientTextureLoc == UniformLocation(gl.uniformLocations, "colorGradient")
      ensures gl.trace == old(gl.trace) + ProgramSetup(program, old(gl.lastName) + 1, old(gl.lastName) + 2, gradientTextureLoc)
    {
      var vShader := gl.NewShader(VertexStage, VertexShaderPath);
      var fShader := gl.NewShader(FragmentStage, FragmentShaderPath);
      program := gl.NewProgram(vShader, fShader);
      gl.Issue(Delete(ShaderObject, fShader));
      gl.Issue(Delete(ShaderObject, vShader));

      gl.Issue(UseProgram(program));
      vpLoc := gl.GetUniformLocation(program, "viewProjection");
      simTimeLoc := gl.GetUniformLocation(program, "simulationTime");
      gradientTextureLoc := gl.GetUniformLocation(program, "colorGradient");
      gl.Issue(Uniform1i(gradientTextureLoc, 0));
      gl.Issue(UseProgram(0));
    }

    /** Release the five objects the constructor kept. */
    method Destroy(gl: Context)
      requires built && !destroyed
      modifies this`destroyed, gl`trace
      ensures destroyed
      ensures gl.trace == old(gl.trace) + DestructorCommands(Resources())
    {
      gl.Issue(Delete(TextureObject, gradientTexture));
      gl.Issue(Delete(ProgramObject, program));
      gl.Issue(Delete(VertexArrayObject, vao));
      gl.Issue(Delete(BufferObject, particleVbo));
      gl.Issue(Delete(BufferObject, vertexVbo));
      destroyed := true;
    }

    /** colorGradient: the one-entry cache in front of the gradient texture upload. */
    method ColorGradient(gl: Context, gradient: Gradient)
      requires built && !destroyed
      modifies this`lastGradient, gl`trace
      ensures lastGradient == gradient
      ensures gl.trace == old(gl.trace) + ColorGradientCommands(old(lastGradient), gradient, gradientTexture)
    {
      if lastGradient == gradient {
        return;
      }
      lastGradient := gradient;
      gl.Issue(BindTexture(Texture1D, gradientTexture));
      gl.Issue(TexImage1D(Texture1D, 0, Rgba, |lastGradient|, 0, Rgba, Float, lastGradient));
      gl.Issue(TexParameteri(Texture1D, MinFilter, Linear));
      gl.Issue(TexParameteri(Texture1D, MagFilter, Linear));
      gl.Issue(TexParameteri(Texture1D, WrapS, ClampToEdge));
      gl.Issue(TexParameteri(Texture1D, WrapR, ClampToEdge));
    }

    /** Draw every layer, in order, with one instanced draw each. The layers are values and are not changed. */
    method Render(gl: Context, vp: Mat4, simulationTime: real, layers: seq<Layer>)
      requires built && !destroyed
      modifies this`lastGradient, gl`trace
      ensures lastGradient == CacheAfter(old(lastGradient), layers)
      ensures gl.trace == old(gl.trace) + RenderCommands(Resources(), old(lastGradient), vp, simulationTime, layers)
    {
      ghost var h := Resources();
      gl.Issue(Disable(DepthTest));
      gl.Issue(Enable(Blend));
      gl.Issue(BlendFunc(SrcAlpha, One));

      gl.Issue(UseProgram(program));
      gl.Issue(UniformMatrix4fv(vpLoc, 1, false, vp));
      gl.Issue(Uniform1f(simTimeLoc, simulationTime));

      gl.Issue(ActiveTexture(0));
      gl.Issue(BindTexture(Texture1D, gradientTexture));

      gl.Issue(BindVertexArray(vao));

      ghost var start := gl.trace;
      ghost var cache0 := lastGradient;
      assert start == old(gl.trace) + Prologue(h, vp, simulationTime);
      var i := 0;
      while i < |layers|
        invariant 0 <= i <= |layers|
        invariant lastGradient == CacheAfter(cache0, layers[..i])
        invariant gl.trace == start + LayerLoop(h, cache0, layers[..i])
      {
        ghost var cache := lastGradient;
        DrawLayer(gl, layers[i]);
        LayerLoopStep(h, cache0, layers, i);
        Assoc(start, LayerLoop(h, cache0, layers[..i]), LayerCommands(h, cache, layers[i]));
        i := i + 1;
      }
      assert layers[..i] == layers;

      gl.Issue(BindVertexArray(0));
      Assoc(old(gl.trace), Prologue(h, vp, simulationTime), LayerLoop(h, cache0, layers));
      Assoc(old(gl.trace), Prologue(h, vp, simulationTime) + LayerLoop(h, cache0, layers), [BindVertexArray(0)]);
    }

    /** The body of the layer loop: cache update, instance stream, one instanced draw. */
    method DrawLayer(gl: Context, layer: Layer)
      requires built && !destroyed
      modifies this`lastGradient, gl`trace
      ensures lastGradient == layer.colorGradient
      ensures gl.trace == old(gl.trace) + LayerCommands(Resources(), old(lastGradient), layer)
    {
      ColorGradient(gl, layer.colorGradient);

      var p := layer.particles;
      gl.Issue(BindBuffer(ArrayBuffer, particleVbo));
      gl.Issue(BufferData(ArrayBuffer, ParticleBytes * |p|, Instances(p), StreamDraw));
      gl.Issue(BindBuffer(ArrayBuffer, 0));

      gl.Issue(DrawArraysInstanced(TriangleFan, 0, 4, |p|));
    }
  }
}
