# Particle renderer and particle editor state, modelled in Dafny

The project models two pieces of a small particle editor.

- **The particle renderer.** It owns five OpenGL objects: the quad vertex buffer, the per-instance particle buffer, a vertex array, a shader program and a 1-D gradient texture. Each frame it draws every particle layer with one instanced draw, and it keeps a one-entry cache of the last uploaded color gradient.
- **The editor's state logic.** This covers:
  - bound edits that reject a `(min, max)` pair whose minimum exceeds its maximum and keep the previous bounds;
  - the flag that drops one simulation step after New, Save or Load;
  - the cached save path, with its default `.awps` extension;
  - load semantics, which reset first and then replace the spawner wholesale;
  - the displayed active-particle count.

OpenGL is modelled as an abstract command trace. The `Gl.Context` class holds the commands issued so far (`seq<Command>`) and a counter for generated object names. Three interpretations of a trace state the properties:

- `Gl.Select` keeps only the commands of one kind: uploads, draws, streams or pipeline state.
- `Gl.Acquired` and `Gl.Released` collect the objects a trace creates and deletes. The resource lifecycle is stated with these.
- `Gl.Run` replays the trace on a small model of the GL state. That state holds the capabilities, the blend factors, the bindings, buffer and texture contents, and per-vertex-array attribute tables. `Gl.DrawViews` records what each draw reads: the bound vertex array, the array-buffer binding, the contents of the buffer named by attribute 1, and the bound texture. Attribute 2 reads the same particle buffer, as `RendererProperties.ConstructorLayout` shows, but a draw's view does not record it separately.

The renderer is a class with the source's fields. Its constructor, destructor, `render` and `colorGradient` append to the trace. Each is proved to append exactly a command-sequence function, and the properties are lemmas about those functions.

The editor is a class holding:

- the spawner component and the spawner's transform position;
- the drop-frame flag and the cached save path;
- a trace of external effects: simulation steps, dialogs shown, files written and files parsed.

Widgets and file dialogs are inputs of type `Option`: `None` means no change or cancel, `Some(v)` means the chosen value. The parser is a function parameter from path to spawner. A clamped normal distribution is modelled as its `(min, max)` pair.

Module layout:

- `wrappers.dfy`: `Option`.
- `particles.dfy`: colors, two-color gradients, particles, layers, byte sizes.
- `gl.dfy`: commands, trace interpretations, the GL state model and the `Context` class.
- `renderer.dfy`: the renderer's command sequences and the `ParticleRenderer` class.
- `renderer_props.dfy`: the renderer's properties.
- `editor.dfy`: the editor's edits, paths, particle count and the `ParticleEditorState` class.

The system's design makes four promises that the code does not keep. The model follows the code in each case:

- **Empty layers.** The design promises that a layer without particles issues no draw. The loop in `src/particleRenderer.cpp:89-98` issues the instanced draw with instance count 0, and `RenderDraws` states exactly that.
- **Cancelled loads.** The design promises that a cancelled operation leaves the state unchanged. `loadSpawner` resets the spawner before showing the dialog (`src/particleEditorState.cpp:224`), so a cancelled load leaves the defaults. `CancelledLoadRestoresDefaults` and `LoadForgetsEdits` state this.
- **Repeated gradient uploads.** The design promises that a gradient is uploaded at most once per distinct value, and never again while a layer's gradient stays the same from frame to frame. The cache in `src/particleRenderer.cpp:105-109` holds one gradient only. With two layers of different gradients, every frame after the first uploads both gradients again, indefinitely. `AlternatingLayersReuploadEveryFrame` states this; `TwoSteadyFrames` shows the promise holds for a single layer.
- **Parse failures.** The design promises that a failed parse either replaces the spawner completely or keeps it. The "keeps it" half cannot hold: `loadSpawner` resets the spawner before the dialog and the parse (`src/particleEditorState.cpp:224`), so there is no previous configuration left to keep. The parse call itself (`src/particleEditorState.cpp:234`) is a foreign call whose failure behaviour is not visible, so the model treats parsing as total.

`RendererProperties.FirstFrameMaySampleEmptyTexture` records one consequence of the gradient cache:

- The constructor generates the gradient texture but never fills it.
- When the first frame's first layer has a gradient equal to the cache's initial value, nothing is uploaded, and that draw samples an empty texture.

The initial value of the cache is the default `aw::Color` pair, which is not part of this model. The lemma therefore only shows that this can happen when the first layer's gradient equals it.

## Model

| member | source | states |
|---|---|---|
| ParticleRendering.ParticleRenderer.constructor | src/particleRenderer.cpp:11-61 | the handles become five fresh names and the two shader stages the two names after the vertex array; the uniform locations are the program's locations; exactly the constructor's command sequence is appended; the cache holds the initial gradient |
| ParticleRendering.ParticleRenderer.CreateQuad | src/particleRenderer.cpp:13-25 | two buffers and a vertex array are generated in that order; the quad corners are uploaded to the vertex buffer and described as attribute 0; callable only while the constructor runs |
| ParticleRendering.ParticleRenderer.DescribeInstances | src/particleRenderer.cpp:27-39 | attributes 1 and 2 are described on the particle buffer, with divisors; the vertex array is unbound; callable only while the constructor runs |
| ParticleRendering.ParticleRenderer.LinkProgram | src/particleRenderer.cpp:41-57 | two stages and a program are created; both stages are deleted right after linking; three uniform locations are queried; the sampler is set to unit 0 and the program unbound; callable only while the constructor runs |
| ParticleRendering.ParticleRenderer.Destroy | src/particleRenderer.cpp:63-71 | the destructor's five deletions are appended, in order |
| ParticleRendering.ParticleRenderer.ColorGradient | src/particleRenderer.cpp:103-119 | the cache becomes the requested gradient; nothing is issued on a hit; on a miss one texture bind, upload and parameter sequence is issued |
| ParticleRendering.ParticleRenderer.Render | src/particleRenderer.cpp:73-101 | exactly the prologue, the per-layer commands in input order, and the vertex-array unbind are appended; the cache ends as the last layer's gradient, or unchanged for no layers |
| ParticleRendering.ParticleRenderer.DrawLayer | src/particleRenderer.cpp:89-98 | one loop iteration appends the cache update, the instance stream and one instanced draw |
| RendererProperties.ColorGradientUploads | src/particleRenderer.cpp:105-113 | a cache hit issues no commands; a miss issues exactly one upload of two RGBA float texels holding the gradient |
| RendererProperties.ColorGradientTwice | src/particleRenderer.cpp:105-109 | two calls with the same gradient upload at most once, and the second call issues nothing |
| RendererProperties.LayerDraw | src/particleRenderer.cpp:89-97 | a layer's commands contain exactly one draw: a triangle fan of 4 vertices with one instance per particle |
| RendererProperties.LayerStream | src/particleRenderer.cpp:92-95 | a layer's commands contain exactly one buffer upload: the layer's particles, sized by particle count, for streaming use |
| RendererProperties.LayerUpload | src/particleRenderer.cpp:89-90 | a layer's commands upload its gradient exactly when it differs from the cache |
| RendererProperties.LayerNoPipelineState | src/particleRenderer.cpp:89-97 | no command of a layer changes depth, blending, the program or the two per-call uniforms |
| RendererProperties.LoopDraws | src/particleRenderer.cpp:89-98 | the loop issues one draw per layer, in layer order, each with that layer's particle count |
| RendererProperties.LoopStreams | src/particleRenderer.cpp:89-98 | the loop streams each layer's particles once, in layer order |
| RendererProperties.ChangedLayersStep | src/particleRenderer.cpp:89-90 | the set of layers whose gradient differs from the previous one grows by the last layer exactly when that layer differs |
| RendererProperties.LoopUploads | src/particleRenderer.cpp:89-98 | the loop uploads exactly as many gradients as there are layers whose gradient differs from the previous layer's, or from the cache for the first layer |
| RendererProperties.LoopNoPipelineState | src/particleRenderer.cpp:89-98 | no pipeline-state command is issued inside the loop |
| RendererProperties.RenderSelectLoop | src/particleRenderer.cpp:73-101 | for any command kind the prologue and the unbind do not contain, the render call's commands of that kind are those of the loop |
| RendererProperties.RenderDraws | src/particleRenderer.cpp:89-98 | one render call issues exactly one instanced draw per layer, in input order, including a draw with count 0 for an empty layer |
| RendererProperties.RenderStreams | src/particleRenderer.cpp:92-95 | one render call streams exactly one buffer per layer, in input order, with size particle bytes times count |
| RendererProperties.RenderUploadCount | src/particleRenderer.cpp:89-90 | one render call uploads exactly as many gradients as there are changed layers |
| RendererProperties.SteadyGradientUploadsNothing | src/particleRenderer.cpp:105-107 | when every layer's gradient equals the cache, a render call uploads nothing |
| RendererProperties.TwoSteadyFrames | src/particleRenderer.cpp:105-109 | two consecutive render calls whose single layer has the same gradient upload at most once in total |
| RendererProperties.AlternatingLayersReuploadEveryFrame | src/particleRenderer.cpp:105-109 | with two layers of different gradients, every render call after the first uploads exactly two gradients and leaves the cache as it found it, so the uploads repeat every frame |
| RendererProperties.RenderPipelineStateOnce | src/particleRenderer.cpp:76-82 | depth off, blend on, blend factors, program bind and the two uniforms are issued once each, in that order, and none after the prologue |
| RendererProperties.ProloguePipelineState | src/particleRenderer.cpp:76-82 | the prologue's pipeline-state commands are exactly the six per-call settings |
| RendererProperties.ConstructorLifetime | src/particleRenderer.cpp:13-60 | the constructor acquires exactly the five owned objects and the two shader stages, and releases exactly the two stages |
| RendererProperties.QuadLifetime | src/particleRenderer.cpp:13-25 | the quad setup acquires the two buffers and the vertex array and releases nothing |
| RendererProperties.LayoutLifetime | src/particleRenderer.cpp:27-39 | the attribute layout acquires and releases nothing |
| RendererProperties.ProgramLifetime | src/particleRenderer.cpp:41-57 | program setup acquires the two stages and the program and releases exactly the two stages |
| RendererProperties.TextureLifetime | src/particleRenderer.cpp:60 | generating the gradient texture acquires exactly that texture |
| RendererProperties.DestructorLifetime | src/particleRenderer.cpp:63-71 | the destructor releases exactly the five owned objects and acquires nothing |
| RendererProperties.RenderKeepsObjects | src/particleRenderer.cpp:73-101 | a render call creates and deletes no object |
| RendererProperties.LoopKeepsObjects | src/particleRenderer.cpp:89-98 | the layer loop creates and deletes no object |
| RendererProperties.LayerKeepsObjects | src/particleRenderer.cpp:89-97 | one layer's commands create and delete no object |
| RendererProperties.LifecycleBalanced | src/particleRenderer.cpp:11-71 | construction, any frames that create and delete nothing, and destruction acquire exactly what they release |
| RendererProperties.OwnedFive | src/particleRenderer.hpp:35-41 | the renderer owns five distinct objects |
| RendererProperties.GradientUploadEffect | src/particleRenderer.cpp:111-118 | an upload binds the gradient texture and stores the gradient in it, and changes nothing else |
| RendererProperties.TextureFill | src/particleRenderer.cpp:111-115 | binding and filling the texture stores the gradient in the gradient texture |
| RendererProperties.TextureParameters | src/particleRenderer.cpp:116-118 | the filter and wrap parameters do not change the modelled state |
| RendererProperties.StreamEffect | src/particleRenderer.cpp:93-95 | streaming fills the particle buffer with the layer's instances and leaves no array buffer bound |
| RendererProperties.StreamRun | src/particleRenderer.cpp:93-95 | streaming draws nothing and fills the particle buffer |
| RendererProperties.PrologueEffect | src/particleRenderer.cpp:76-87 | after the prologue depth is off, blending is additive alpha, the program, gradient texture and vertex array are bound, and nothing else changed |
| RendererProperties.BlendState | src/particleRenderer.cpp:76-78 | depth off, blend on, factors source-alpha and one |
| RendererProperties.ProgramState | src/particleRenderer.cpp:80-82 | the program is bound; the uniform uploads change no modelled state |
| RendererProperties.BindingState | src/particleRenderer.cpp:84-87 | the gradient texture and the vertex array are bound |
| RendererProperties.LayerRun | src/particleRenderer.cpp:89-97 | one layer changes only the array-buffer binding, the particle buffer and, on a miss, the texture contents |
| RendererProperties.LayerPrefix | src/particleRenderer.cpp:90-95 | before its draw a layer draws nothing and has filled the particle buffer and, on a miss, the texture |
| RendererProperties.CacheUpdateRun | src/particleRenderer.cpp:103-113 | the cache update leaves the state alone on a hit and fills the bound texture on a miss |
| RendererProperties.LayerView | src/particleRenderer.cpp:89-97 | a layer's draw reads the renderer's vertex array, no bound array buffer, the layer's particles, and the layer's gradient on a miss or the texture's content on a hit |
| RendererProperties.LoopState | src/particleRenderer.cpp:89-98 | the loop changes only buffer and texture contents and the array-buffer binding, and leaves the last layer's gradient in the texture |
| RendererProperties.LoopFeedsDraws | src/particleRenderer.cpp:89-98 | each of the loop's draws reads exactly its own layer's particles and gradient |
| RendererProperties.LoopLastFed | src/particleRenderer.cpp:89-98 | the last layer's draw reads its own particles and gradient |
| RendererProperties.RenderFeedsEachDraw | src/particleRenderer.cpp:73-101 | when the texture holds the cached gradient, draw i of a render call reads the renderer's vertex array, layer i's particles and layer i's gradient |
| RendererProperties.PrologueReady | src/particleRenderer.cpp:76-87 | after the prologue the vertex array and texture the loop needs are bound, and the attribute tables and textures are unchanged |
| RendererProperties.RenderFinalState | src/particleRenderer.cpp:73-101 | after a render call depth is off, blending is additive alpha, the program stays bound, no vertex array is bound, the attributes are unchanged, and the texture holds the cache |
| RendererProperties.PrologueNoDraws | src/particleRenderer.cpp:76-87 | the prologue draws nothing |
| RendererProperties.EpilogueEffect | src/particleRenderer.cpp:100 | the final unbind only resets the vertex-array binding to 0 |
| RendererProperties.QuadEffect | src/particleRenderer.cpp:13-25 | after the quad setup attribute 0 reads two floats per vertex from the vertex buffer, which holds the four corners (±0.5, ±0.5) |
| RendererProperties.QuadGenerate | src/particleRenderer.cpp:13-19 | generating the names leaves the new buffers empty and the new vertex array's attributes at their defaults |
| RendererProperties.QuadFill | src/particleRenderer.cpp:19-23 | the vertex buffer holds the four corners and the particle buffer is untouched |
| RendererProperties.QuadAttribute | src/particleRenderer.cpp:24-25 | attribute 0 is enabled on the bound vertex buffer with two components |
| RendererProperties.LayoutEffect | src/particleRenderer.cpp:27-39 | attributes 1 and 2 are enabled on the particle buffer with 4 components, stride the particle size, offsets 0 and the velocity offset, and divisor 1; the vertex array is unbound |
| RendererProperties.LayoutFirst | src/particleRenderer.cpp:28-31 | attribute 1 is described on the particle buffer and the other attributes are unchanged |
| RendererProperties.LayoutSecond | src/particleRenderer.cpp:32-36 | attribute 1 gets divisor 1 and attribute 2 is described at the velocity offset |
| RendererProperties.LayoutLast | src/particleRenderer.cpp:37-39 | attribute 2 gets divisor 1 and the vertex array is unbound |
| RendererProperties.ProgramEffect | src/particleRenderer.cpp:41-57 | program setup leaves no program bound and changes nothing else |
| RendererProperties.ConstructorLayout | src/particleRenderer.cpp:11-61 | after construction attribute 0 reads the corners, attributes 1 and 2 read the particle buffer per instance, the particle buffer and texture are empty, no vertex array and no program is bound, and the array buffer stays bound to the particle buffer |
| RendererProperties.FirstFrameMaySampleEmptyTexture | src/particleRenderer.cpp:103-107 | when a first frame's layer has the initial cache gradient, its draw samples the never-filled texture |
| ParticleEditing.EditBoundsWellFormed | src/particleEditorState.cpp:94-99 | with a non-negative scale the edit keeps min <= max |
| ParticleEditing.EditMinsPerAxis | src/particleEditorState.cpp:110-122 | a min edit keeps every maximum; axis i takes the new minimum exactly when it does not exceed that axis's maximum; rejected axes are untouched; min <= max is kept |
| ParticleEditing.EditMaxsPerAxis | src/particleEditorState.cpp:123-134 | a max edit keeps every minimum; axis i takes the new maximum exactly when it is at least that axis's minimum; rejected axes are untouched; min <= max is kept |
| ParticleEditing.EditAxesAreBoundEdits | src/particleEditorState.cpp:91-134 | each per-axis min or max edit is the two-value widget's accept rule applied, unscaled, to the pair (new min, old max) or (old min, new max) |
| ParticleEditing.EditAxesIndependent | src/particleEditorState.cpp:110-134 | each axis's outcome depends only on that axis's bounds and new value |
| ParticleEditing.EditAxesIdempotent | src/particleEditorState.cpp:110-134 | repeating the same min or max edit changes nothing more |
| ParticleEditing.AxesStayWellFormed | src/particleEditorState.cpp:110-156 | a min edit followed by a max edit keeps min <= max on every axis, for the three position axes and the two velocity axes alike |
| ParticleEditing.ParticleEditorState.EditSpawner | src/particleEditorState.cpp:102-165 | each widget result is applied by its accept-or-keep rule; rotation is scaled by degrees-to-radians; fade-in and the two colors are replaced when edited; a well-formed spawner stays well formed |
| ParticleEditing.AccumulateCounts | src/particleEditorState.cpp:79-80 | the fold adds one per particle of every layer to its start value |
| ParticleEditing.ActiveParticlesIsTotal | src/particleEditorState.cpp:79-80 | the displayed count is the number of particles over all layers |
| ParticleEditing.DisplayedCountIsDrawnInstances | src/particleEditorState.cpp:68-80 | the displayed count equals the total instance count the renderer draws for the same layers |
| ParticleEditing.Filename | src/particleEditorState.cpp:211 | the file name is the longest suffix of the path that contains no separator |
| ParticleEditing.FilenameAppend | src/particleEditorState.cpp:211-213 | appending text without separators extends the file name by that text |
| ParticleEditing.EnsureExtensionHasExtension | src/particleEditorState.cpp:211-214 | after the save rule the path has an extension exactly when its file name is non-empty |
| ParticleEditing.DefaultExtensionAloneHasNone | src/particleEditorState.cpp:213 | a file name that is only ".awps" has no extension |
| ParticleEditing.AppendedExtension | src/particleEditorState.cpp:213 | a non-empty file name followed by ".awps" has an extension |
| ParticleEditing.EnsureExtensionIdempotent | src/particleEditorState.cpp:211-214 | for a path naming a file, applying the rule twice equals applying it once |
| ParticleEditing.EnsureExtensionOnDirectory | src/particleEditorState.cpp:211-214 | for every path ending in a separator the rule yields "<dir>/.awps", which still has no extension, so a second application yields "<dir>/.awps.awps" |
| ParticleEditing.SaveTargetCases | src/particleEditorState.cpp:202-218 | Save with a cached path writes there and shows no dialog; a cancelled dialog writes nothing and keeps the cache; an answered dialog writes to the new cached path, which keeps an existing extension |
| ParticleEditing.SaveThenSaveReusesPath | src/particleEditorState.cpp:202-218 | after a save that wrote a file, Save writes to the same path again without a dialog |
| ParticleEditing.ParticleEditorState.constructor | src/particleEditorState.cpp:22-43 | the spawner starts as the default component, the cached path empty, no effects |
| ParticleEditing.ParticleEditorState.Update | src/particleEditorState.cpp:45-52 | with the flag set the step is skipped and the flag cleared; otherwise exactly one simulation step with dt is taken |
| ParticleEditing.ParticleEditorState.Reset | src/particleEditorState.cpp:238-242 | the flag is set and the spawner becomes the default component |
| ParticleEditing.ParticleEditorState.SaveSpawner | src/particleEditorState.cpp:197-219 | the flag is set; the dialog is shown exactly when asked for or no path is cached; the cached path and the written file follow the save target |
| ParticleEditing.ParticleEditorState.LoadSpawner | src/particleEditorState.cpp:221-236 | the flag is set; the open dialog is always shown; the spawner becomes the defaults on cancel and the parsed file otherwise |
| ParticleEditing.DropsExactlyOneStep | src/particleEditorState.cpp:45-52 | after New, Save or Load the next update takes no step and the one after takes exactly one |
| ParticleEditing.CancelledLoadRestoresDefaults | src/particleEditorState.cpp:221-231 | a cancelled load leaves the default spawner and writes nothing |
| ParticleEditing.LoadForgetsEdits | src/particleEditorState.cpp:221-236 | two editors with the same defaults, whatever they were editing, hold the same spawner and record the same effects after loading with the same dialog answer |
| ParticleEditing.CancelledSaveKeepsPath | src/particleEditorState.cpp:197-208 | a cancelled "Save as" keeps the cached path, writes nothing and still sets the flag |

## Left out

- Real OpenGL semantics, `GL_CHECK` error handling, and shader file loading and compilation are not modelled. GL is modelled as a command trace replayed on a small state model. Object creation always succeeds. Names come from one counter shared by all object kinds. Uniform locations come from a fixed table, the same for every program.
- Deleting an object leaves the modelled GL state as it was. Only the acquire/release sets track deletion.
- The shader asset path prefix is not modelled: the model keeps only the relative shader paths.
- `mViewportSize` is left out: it is stored and never used.
- `ParticleRendering.ParticleRenderer.constructor`: the zero handles and `-1` locations from the member initialisers (`src/particleRenderer.hpp:35-44`) are the constructor's first assignments. The constructor overwrites all of them before it returns, so no contract observes them.
- Non-copyability (`src/particleRenderer.hpp:21-22`) has no Dafny counterpart: class references alias. Single ownership is stated instead as the lifecycle lemmas over the trace.
- `sizeof(Particle)` and `offsetof(Particle, velocity)` are fixed at 32 and 16 bytes, from the two four-float instance attributes. The particle system's own definition is not part of this model.
- The initial `mColorGradient` is a constructor parameter, because the default `aw::Color` is not part of this model.
- The initial drop-frame flag and the initial transform position are also constructor parameters. `src/particleEditorState.hpp` (lines 21-28) declares neither `mDropNextFrame` nor the spawner's transform, so their initial values are not visible.
- `ParticleEditing.ParticleEditorState.Reset`: the design promises that a reset spawner has a spawn interval greater than zero and `min <= max` in every clamped distribution. The default `aw::ParticleSpawner` is not part of this model, so `defaults` is an unconstrained constructor parameter and this promise is not modelled. The constructor, `Reset` and a cancelled `LoadSpawner` may therefore yield a spawner that is not `SpawnerWellFormed`. `EditSpawner` only proves that a well-formed spawner stays well formed.
- ImGui, its widget ranges, range clamping and layout are not modelled. Each widget is an optional new value.
- The "Save as" button is shown only while a path is cached (`src/particleEditorState.cpp:173-178`). This button dispatch is left out, so "Save as" is always callable in the model.
- tinyfiledialogs, `aw::serialize::file` and `aw::parse::file` are foreign calls whose encoding and error behaviour are not visible. Dialogs are optional paths, parsing is a total function parameter, and writing is an effect record. No round trip or parse error is modelled. The `APP_INFO` and `APP_ERROR` log messages of `saveSpawner` (`src/particleEditorState.cpp:211`, `215`) are not modelled either.
- The particle simulation step, distribution sampling, the orthographic projection and the unused model-view-projection product are not modelled. A simulation step appears only as an effect record.
- Colour channels are real numbers and the gradient cache compares them with exact equality. The `aw::Color` equality operator is not part of this model. On floats a NaN channel never equals itself, so in the source such a gradient misses the cache on every call; the model excludes NaN channels.
- `RadiansPerDegree` is a real constant. The floating-point rounding of `aw::to_deg` and `aw::to_rad` and of the `float` widget values is not modelled. The rotation widget's display scaling is not modelled either: only the stored value matters.
- `RendererProperties.RenderDraws`: the instance count of `glDrawArraysInstanced` is a `GLsizei`, and the source narrows the `size_t` particle count into it (`src/particleRenderer.cpp:97`). This narrowing is not modelled. A layer of 2^31 or more particles would get a wrapped or negative count, so such layers are outside the model. The same holds for `RendererProperties.LoopDraws`, `RendererProperties.LayerDraw`, `ParticleRendering.ParticleRenderer.DrawLayer` and `ParticleEditing.DisplayedCountIsDrawnInstances`.
- `ParticleEditing.ActiveParticlesIsTotal`: the `int` accumulator of `std::accumulate` can overflow past 2^31 - 1 particles. The model uses unbounded integers.
- `ParticleEditing.Filename`: paths use POSIX separators only. Root names and the other special cases of `std::filesystem::path` are not modelled.
- The `modelNormalDistribution` helper (`src/particleEditorState.cpp:83-89`) is left out: it is never called.
