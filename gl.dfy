/**
 * The graphics context seen as a command trace. Every OpenGL call the renderer
 * makes is one `Command`; a `Context` object records them in order. A small
 * interpreter (`Apply`, `Run`) gives the part of the GL state that the
 * renderer relies on: capability flags, bindings, buffer and texture contents,
 * and the vertex attribute table of each vertex array object.
 */
module Gl {
  import opened Particles
  import opened Wrappers

  /** A GL object name; 0 stands for "no object". */
  type Name = nat

  datatype ObjectKind = BufferObject | VertexArrayObject | TextureObject | ShaderObject | ProgramObject

  /** A GL object: names of different kinds live in different name spaces. */
  datatype Resource = Resource(kind: ObjectKind, name: Name)

  datatype Capability = DepthTest | Blend
  datatype BlendFactor = SrcAlpha | One
  datatype BufferTarget = ArrayBuffer
  datatype Usage = StaticDraw | StreamDraw
  datatype TextureTarget = Texture1D
  datatype PixelFormat = Rgba
  datatype ComponentType = Float
  datatype TexParameter = MinFilter | MagFilter | WrapS | WrapR
  datatype TexValue = Linear | ClampToEdge
  datatype ShaderStage = VertexStage | FragmentStage
  datatype Primitive = TriangleFan

  /** A 4x4 matrix, passed through to the shader unchanged. */
  datatype Mat4 = Mat4(entries: seq<real>)

  /** What a glBufferData call copies into a buffer. */
  datatype Payload = Corners(corners: seq<Vec2>) | Instances(instances: seq<Particle>)

  datatype Command =
    | Generate(kind: ObjectKind, name: Name)
    | CreateShader(stage: ShaderStage, path: string, name: Name)
    | CreateProgram(vertexShader: Name, fragmentShader: Name, name: Name)
    | Delete(kind: ObjectKind, name: Name)
    | Enable(cap: Capability)
    | Disable(cap: Capability)
    | BlendFunc(src: BlendFactor, dst: BlendFactor)
    | UseProgram(name: Name)
    | Uniform1i(location: int, intValue: int)
    | Uniform1f(location: int, realValue: real)
    | UniformMatrix4fv(location: int, count: nat, transpose: bool, matrix: Mat4)
    | ActiveTexture(textureUnit: nat)
    | BindTexture(textureTarget: TextureTarget, name: Name)
    | TexImage1D(textureTarget: TextureTarget, level: nat, internalFormat: PixelFormat, width: nat,
                 border: nat, format: PixelFormat, componentType: ComponentType, texels: seq<Color>)
    | TexParameteri(textureTarget: TextureTarget, parameter: TexParameter, value: TexValue)
    | BindVertexArray(name: Name)
    | BindBuffer(bufferTarget: BufferTarget, name: Name)
    | BufferData(bufferTarget: BufferTarget, size: nat, data: Payload, usage: Usage)
    | EnableVertexAttribArray(index: nat)
    | VertexAttribPointer(index: nat, components: nat, componentType: ComponentType, normalized: bool,
                          stride: nat, offset: nat)
    | VertexAttribDivisor(index: nat, divisor: nat)
    | DrawArraysInstanced(mode: Primitive, first: nat, count: nat, instanceCount: nat)

  predicate IsUpload(c: Command) { c.TexImage1D? }
  predicate IsDraw(c: Command) { c.DrawArraysInstanced? }
  predicate IsBufferData(c: Command) { c.BufferData? }

  /** The commands of `cmds` that satisfy `p`, in trace order. */
  function Select(cmds: seq<Command>, p: Command -> bool): (r: seq<Command>)
    decreases |cmds|
  {
    if cmds == [] then []
    else Select(cmds[..|cmds| - 1], p) + (if p(cmds[|cmds| - 1]) then [cmds[|cmds| - 1]] else [])
  }

  lemma {:induction false} SelectAppend(a: seq<Command>, b: seq<Command>, p: Command -> bool)
    ensures Select(a + b, p) == Select(a, p) + Select(b, p)
    decreases |b|
  {
    if b == [] {
      assert a + b == a;
    } else {
      var b' := b[..|b| - 1];
      assert (a + b)[..|a + b| - 1] == a + b';
      SelectAppend(a, b', p);
    }
  }

  // ---------------------------------------------------------------------------
  // Resource lifetime

  function Acquires(c: Command): set<Resource> {
    match c
    case Generate(k, n) => {Resource(k, n)}
    case CreateShader(_, _, n) => {Resource(ShaderObject, n)}
    case CreateProgram(_, _, n) => {Resource(ProgramObject, n)}
    case _ => {}
  }

  function Releases(c: Command): set<Resource> {
    match c
    case Delete(k, n) => {Resource(k, n)}
    case _ => {}
  }

  /** Every object a trace creates. */
  function Acquired(cmds: seq<Command>): set<Resource>
    decreases |cmds|
  {
    if cmds == [] then {} else Acquired(cmds[..|cmds| - 1]) + Acquires(cmds[|cmds| - 1])
  }

  /** Every object a trace deletes. */
  function Released(cmds: seq<Command>): set<Resource>
    decreases |cmds|
  {
    if cmds == [] then {} else Released(cmds[..|cmds| - 1]) + Releases(cmds[|cmds| - 1])
  }

  lemma {:induction false} LifetimeAppend(a: seq<Command>, b: seq<Command>)
    ensures Acquired(a + b) == Acquired(a) + Acquired(b)
    ensures Released(a + b) == Released(a) + Released(b)
    decreases |b|
  {
    if b == [] {
      assert a + b == a;
    } else {
      var b' := b[..|b| - 1];
      assert (a + b)[..|a + b| - 1] == a + b';
      LifetimeAppend(a, b');
    }
  }

  /** An object is created by a trace exactly when one of its commands creates it. */
  lemma {:induction false} AcquiredMember(cmds: seq<Command>, r: Resource)
    ensures r in Acquired(cmds) <==> exists i :: 0 <= i < |cmds| && r in Acquires(cmds[i])
    decreases |cmds|
  {
    if cmds != [] {
      var init := cmds[..|cmds| - 1];
      AcquiredMember(init, r);
      if r in Acquired(init) {
        var i :| 0 <= i < |init| && r in Acquires(init[i]);
        assert cmds[i] == init[i];
      }
      if exists i :: 0 <= i < |cmds| && r in Acquires(cmds[i]) {
        var i :| 0 <= i < |cmds| && r in Acquires(cmds[i]);
        if i < |init| {
          assert init[i] == cmds[i];
        }
      }
    }
  }

  /** An object is deleted by a trace exactly when one of its commands deletes it. */
  lemma {:induction false} ReleasedMember(cmds: seq<Command>, r: Resource)
    ensures r in Released(cmds) <==> exists i :: 0 <= i < |cmds| && r in Releases(cmds[i])
    decreases |cmds|
  {
    if cmds != [] {
      var init := cmds[..|cmds| - 1];
      ReleasedMember(init, r);
      if r in Released(init) {
        var i :| 0 <= i < |init| && r in Releases(init[i]);
        assert cmds[i] == init[i];
      }
      if exists i :: 0 <= i < |cmds| && r in Releases(cmds[i]) {
        var i :| 0 <= i < |cmds| && r in Releases(cmds[i]);
        if i < |init| {
          assert init[i] == cmds[i];
        }
      }
    }
  }

  // ---------------------------------------------------------------------------
  // The GL state the renderer depends on

  /** One entry of a vertex array object's attribute table. */
  datatype Attrib = Attrib(enabled: bool, buffer: Name, components: nat, stride: nat, offset: nat, divisor: nat)

  /** The initial state of a vertex attribute: disabled, no buffer, four components, tightly packed, per vertex. */
  const DefaultAttrib: Attrib := Attrib(false, 0, 4, 0, 0, 0)

  datatype GlState = GlState(
    depthTest: bool,
    blend: bool,
    blendSrc: BlendFactor,
    blendDst: BlendFactor,
    program: Name,
    vertexArray: Name,
    arrayBuffer: Name,
    texture1D: Name,
    buffers: map<Name, Payload>,
    textures: map<Name, seq<Color>>,
    attribs: map<(Name, nat), Attrib>)

  function AttribOf(s: GlState, vao: Name, index: nat): Attrib {
    if (vao, index) in s.attribs then s.attribs[(vao, index)] else DefaultAttrib
  }

  function BufferOf(s: GlState, name: Name): Option<Payload> {
    if name in s.buffers then Some(s.buffers[name]) else None
  }

  function TextureOf(s: GlState, name: Name): Option<seq<Color>> {
    if name in s.textures then Some(s.textures[name]) else None
  }

  /** The effect of one command on the tracked state; commands not listed leave it unchanged. */
  function Apply(s: GlState, c: Command): GlState {
    match c
    case Generate(BufferObject, n) => s.(buffers := s.buffers - {n})
    case Generate(VertexArrayObject, n) =>
      s.(attribs := map k | k in s.attribs && k.0 != n :: s.attribs[k])
    case Generate(TextureObject, n) => s.(textures := s.textures - {n})
    case Enable(DepthTest) => s.(depthTest := true)
    case Enable(Blend) => s.(blend := true)
    case Disable(DepthTest) => s.(depthTest := false)
    case Disable(Blend) => s.(blend := false)
    case BlendFunc(src, dst) => s.(blendSrc := src, blendDst := dst)
    case UseProgram(n) => s.(program := n)
    case BindTexture(Texture1D, n) => s.(texture1D := n)
    case TexImage1D(_, _, _, _, _, _, _, texels) =>
      if s.texture1D == 0 then s else s.(textures := s.textures[s.texture1D := texels])
    case BindVertexArray(n) => s.(vertexArray := n)
    case BindBuffer(ArrayBuffer, n) => s.(arrayBuffer := n)
    case BufferData(_, _, data, _) =>
      if s.arrayBuffer == 0 then s else s.(buffers := s.buffers[s.arrayBuffer := data])
    case EnableVertexAttribArray(i) =>
      s.(attribs := s.attribs[(s.vertexArray, i) := AttribOf(s, s.vertexArray, i).(enabled := true)])
    case VertexAttribPointer(i, size, _, _, stride, offset) =>
      s.(attribs := s.attribs[(s.vertexArray, i) :=
           AttribOf(s, s.vertexArray, i).(buffer := s.arrayBuffer, components := size, stride := stride, offset := offset)])
    case VertexAttribDivisor(i, d) =>
      s.(attribs := s.attribs[(s.vertexArray, i) := AttribOf(s, s.vertexArray, i).(divisor := d)])
    case _ => s
  }

  /** The state after issuing `cmds` in order from `s`. */
  function Run(s: GlState, cmds: seq<Command>): GlState
    decreases |cmds|
  {
    if cmds == [] then s else Apply(Run(s, cmds[..|cmds| - 1]), cmds[|cmds| - 1])
  }

  lemma {:induction false} RunAppend(s: GlState, a: seq<Command>, b: seq<Command>)
    ensures Run(s, a + b) == Run(Run(s, a), b)
    decreases |b|
  {
    if b == [] {
      assert a + b == a;
    } else {
      var b' := b[..|b| - 1];
      assert (a + b)[..|a + b| - 1] == a + b';
      RunAppend(s, a, b');
    }
  }

  /** An attribute command changes only the bound vertex array's entry at the command's index. */
  lemma AttribStep(s: GlState, c: Command, vao: Name, j: nat)
    requires c.EnableVertexAttribArray? || c.VertexAttribPointer? || c.VertexAttribDivisor?
    ensures Apply(s, c) == s.(attribs := Apply(s, c).attribs)
    ensures AttribOf(Apply(s, c), vao, j)
         == if vao != s.vertexArray || j != c.index then AttribOf(s, vao, j)
            else match c
              case EnableVertexAttribArray(_) => AttribOf(s, vao, j).(enabled := true)
              case VertexAttribPointer(_, size, _, _, stride, offset) =>
                AttribOf(s, vao, j).(buffer := s.arrayBuffer, components := size, stride := stride, offset := offset)
              case VertexAttribDivisor(_, d) => AttribOf(s, vao, j).(divisor := d)
  {
  }

  /** Two commands in a row. */
  lemma Run2(s: GlState, a: Command, b: Command)
    ensures Run(s, [a, b]) == Apply(Apply(s, a), b)
  {
    assert [a][..0] == [];
    assert Run(s, [a]) == Apply(s, a);
    assert [a, b][..1] == [a];
  }

  /** Three commands in a row. */
  lemma Run3(s: GlState, a: Command, b: Command, c: Command)
    ensures Run(s, [a, b, c]) == Apply(Apply(Apply(s, a), b), c)
  {
    assert [a][..0] == [];
    assert Run(s, [a]) == Apply(s, a);
    assert [a, b][..1] == [a];
    assert Run(s, [a, b]) == Apply(Run(s, [a]), b);
    assert [a, b, c][..2] == [a, b];
  }

  /**
   * What one instanced draw reads at the moment it is issued: the draw itself,
   * the bound vertex array, the bound array buffer, the contents of the buffer
   * that attribute 1 of that vertex array points to, and the bound 1-D texture's texels.
   * Only attribute 1's buffer is tracked; attribute 2 reads the same buffer in
   * this renderer's layout, but a view does not record it separately.
   */
  datatype DrawView = DrawView(draw: Command, vertexArray: Name, arrayBuffer: Name,
                               instanceData: Option<Payload>, gradient: Option<seq<Color>>)

  function ViewAt(s: GlState, draw: Command): DrawView {
    DrawView(draw, s.vertexArray, s.arrayBuffer,
             BufferOf(s, AttribOf(s, s.vertexArray, 1).buffer), TextureOf(s, s.texture1D))
  }

  /** The view of every draw of `cmds` issued from `s`, in trace order. */
  function DrawViews(s: GlState, cmds: seq<Command>): seq<DrawView>
    decreases |cmds|
  {
    if cmds == [] then []
    else
      var init := cmds[..|cmds| - 1];
      DrawViews(s, init) + (if IsDraw(cmds[|cmds| - 1]) then [ViewAt(Run(s, init), cmds[|cmds| - 1])] else [])
  }

  lemma {:induction false} DrawViewsAppend(s: GlState, a: seq<Command>, b: seq<Command>)
    ensures DrawViews(s, a + b) == DrawViews(s, a) + DrawViews(Run(s, a), b)
    decreases |b|
  {
    if b == [] {
      assert a + b == a;
    } else {
      var b' := b[..|b| - 1];
      assert (a + b)[..|a + b| - 1] == a + b';
      DrawViewsAppend(s, a, b');
      RunAppend(s, a, b');
    }
  }

  /** A trace without draws has no draw views. */
  lemma DrawViewsNone(s: GlState, cmds: seq<Command>)
    requires forall i :: 0 <= i < |cmds| ==> !IsDraw(cmds[i])
    ensures DrawViews(s, cmds) == []
    decreases |cmds|
  {
    if cmds != [] {
      DrawViewsNone(s, cmds[..|cmds| - 1]);
    }
  }

  // ---------------------------------------------------------------------------
  // The context object

  /** A uniform's location, or -1 when the linked program has no active uniform of that name. */
  function UniformLocation(locations: map<string, int>, uniform: string): int {
    if uniform in locations then locations[uniform] else -1
  }

  /**
   * The single GL context. It records every command issued, hands out fresh
   * object names, and answers uniform-location queries from a table fixed by
   * the driver when the program is linked.
   */
  class Context {
    var trace: seq<Command>
    /** The last object name handed out; names are positive and never reused. */
    var lastName: Name
    const uniformLocations: map<string, int>

    constructor (uniformLocations: map<string, int>)
      ensures trace == [] && lastName == 0 && this.uniformLocations == uniformLocations
    {
      trace := [];
      lastName := 0;
      this.uniformLocations := uniformLocations;
    }

    method Issue(c: Command)
      modifies this`trace
      ensures trace == old(trace) + [c]
    {
      trace := trace + [c];
    }

    /** glGen*: a fresh object of the given kind. */
    method Gen(kind: ObjectKind) returns (n: Name)
      modifies this`trace, this`lastName
      ensures n == old(lastName) + 1 && lastName == n
      ensures trace == old(trace) + [Generate(kind, n)]
    {
      lastName := lastName + 1;
      n := lastName;
      trace := trace + [Generate(kind, n)];
    }

    /** Load, compile and create one shader stage from a file under the asset path. */
    method NewShader(stage: ShaderStage, path: string) returns (n: Name)
      modifies this`trace, this`lastName
      ensures n == old(lastName) + 1 && lastName == n
      ensures trace == old(trace) + [CreateShader(stage, path, n)]
    {
      lastName := lastName + 1;
      n := lastName;
      trace := trace + [CreateShader(stage, path, n)];
    }

    /** Create and link a program from a vertex and a fragment stage. */
    method NewProgram(vs: Name, fs: Name) returns (n: Name)
      modifies this`trace, this`lastName
      ensures n == old(lastName) + 1 && lastName == n
      ensures trace == old(trace) + [CreateProgram(vs, fs, n)]
    {
      lastName := lastName + 1;
      n := lastName;
      trace := trace + [CreateProgram(vs, fs, n)];
    }

    /** glGetUniformLocation: the location the driver assigned to `uniform`. */
    method GetUniformLocation(program: Name, uniform: string) returns (loc: int)
      ensures loc == UniformLocation(uniformLocations, uniform)
    {
      loc := UniformLocation(uniformLocations, uniform);
    }
  }
}
