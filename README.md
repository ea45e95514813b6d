# HelloMetal frame protocol in Dafny

This project models the per-frame rendering core of the HelloMetal sample app, a Swift/Metal
program that renders a lit, textured scene once per display refresh.

- **`Renderer.draw(in:)`** runs once per frame. It binds the depth-stencil state, the light array
  and the fragment uniforms (which carry the camera position). It then walks every model, every
  mesh of each model and every submesh of each mesh:
  - it binds each model's vertex uniforms and pipeline state;
  - it binds each mesh's vertex buffer at index 0;
  - it binds each submesh's base-colour texture and issues one indexed draw.

  Finally it ends the encoding and, when the view has a drawable, presents and commits.
- **`Renderer.init`** builds the scene: one house model, plus the light count in the stored
  fragment uniforms.
- **The light builders** build a default light, then the sun, ambient, red and spot lights from it.
- **`ViewController.render()`** is a single-mesh wireframe renderer driven by a frame counter.

## How the model is built

**Commands as values.** Metal objects are opaque `Handle`s. A frame's encoder and command-buffer
calls are `Metal.Cmd` values, and each frame method returns the sequence of commands it issues,
in order.

**Stored state is real state.** The fields the source updates in place are fields of a Dafny
`class`:
- the renderer's `uniforms` and `fragmentUniforms`, and its model list;
- the view controller's frame counter.

**Loops stay loops.** The loops of `draw(in:)` and `render()` are `for` loops. Each is proved to
produce a trace function of the inputs (`FrameTrace`, `RenderTrace`).

**An independent partner.** `Metal.Run` is a reference semantics for a command buffer with one
render encoder:
- it keeps the argument tables as maps;
- it records each draw together with every binding in effect when the draw was issued;
- it flags encoder use after `endEncoding`, a repeated `endEncoding`, and a `present` or `commit`
  out of order.

**What is proved against it.** Executing a frame's trace:
- performs exactly one draw per submesh of the scene, in model, mesh, submesh order;
- gives each draw exactly the bindings of its own model, mesh and submesh, and nothing else;
- ends the encoding once, without misuse;
- presents and commits exactly when a drawable exists.

`Renderer.Sites` and `Renderer.ExpectedBindings` state these expected draws independently of the
trace.

**Matrices** are opaque. A 4x4 matrix is its upper-left 3x3 block plus its other entries, so the
source's `upperLeft` is a real block extraction.

**Floats** are exact reals: light colours, intensities and so on. `Float.pi` is the exact value
of the single-precision constant, pi rounded toward zero (0x1.921fb4p1 = 3.141592502593994140625).
`degreesToRadians` is the exact real `d * pi / 180`, without single-precision rounding.

**The shader-interface indices** from the shared header (`BufferIndexUniforms`, `BufferIndexLight`,
`BufferFragUniforms`, `BaseColorTexture`) are symbolic `Slot`s. Literal indices are `Index(n)`.

**`MemoryLayout<…>.stride`** of the shared records is a `Strides` value in the renderer's
configuration. `MemoryLayout<Float>.stride` is 4.

### Behaviour worth knowing

- **Normal matrix.** `draw(in:)` stores the upper-left 3x3 block of the model matrix itself as
  the normal matrix (HelloMetal/Renderer.swift:189), and `ModelUniforms` does the same. Standard
  graphics practice uses the inverse-transpose of that block, which coincides with it only for
  rotations combined with uniform scaling.
- **Frames without a drawable.** `draw(in:)` asks the view for its drawable only after every
  command has been encoded and `endEncoding` has run (HelloMetal/Renderer.swift:218-221). A frame
  without a drawable therefore still encodes every command and only skips `present` and
  `commit`. It has also already written the camera matrices and position into the stored
  uniforms. `render()` advances `_time` before its drawable check
  (HelloMetal/ViewController.swift:219-220), so a skipped frame still advances it.
- **Light count.** `lightCount` is set once in `init` (HelloMetal/Renderer.swift:148) and not
  recomputed per frame. The model keeps the lighting set fixed for the renderer's lifetime, so
  `Renderer.Renderer.Valid` holds across frames.

## Model

| member | source | states |
|---|---|---|
| RendererLights.BuildDefaultLight | HelloMetal/Renderer.swift:151-160 | A Sunlight at the origin with white colour, specular 0.6, intensity 1 and attenuation (1,0,0). It differs from the zero-initialised `Light()` in exactly colour, specular colour, intensity, attenuation and kind; the position assignment leaves the zero position as it was. |
| RendererLights.BuildSunlight | HelloMetal/Renderer.swift:58-62 | Differs from the default light only in its position, which is (1,2,-2). |
| RendererLights.BuildAmbientLight | HelloMetal/Renderer.swift:64-70 | Differs from the default light in exactly colour (0.5,1,0), intensity 0.15 and kind Ambientlight. |
| RendererLights.BuildRedLight | HelloMetal/Renderer.swift:72-79 | Differs from the default light in exactly position (0,0.5,-0.5), colour (1,0,0), attenuation (1,3,4) and kind Pointlight. |
| RendererLights.BuildSpotlight | HelloMetal/Renderer.swift:81-91 | Differs from the default light in exactly the seven fields it assigns: position, colour, attenuation, kind Spotlight, a cone angle of 40 degrees in radians, cone direction (-2,0,-1.5) and cone attenuation 12. |
| Renderer.Renderer.constructor | HelloMetal/Renderer.swift:106-149 | The model list is the house model alone. The stored uniforms are zero. The stored fragment uniforms hold the lighting set's size as light count, which must fit in a UInt32. The renderer invariant holds. |
| Renderer.Renderer.Draw | HelloMetal/Renderer.swift:168-224 | Without a descriptor, command buffer and encoder: no command is issued and no field changes. Otherwise: the frame's commands are `FrameTrace`; the uniforms hold the camera matrices and the last model's matrices; the fragment uniforms change only in camera position. The model list and the light count are unchanged, and the invariant is kept. |
| Renderer.Renderer.EncodeModels | HelloMetal/Renderer.swift:186-214 | The model loop appends each model's uniforms, pipeline and mesh commands in list order. It leaves the uniforms holding the last model's model matrix and its upper-left block as normal matrix. |
| Renderer.EncodeMeshes | HelloMetal/Renderer.swift:196-213 | The mesh loop appends, per mesh in order, the vertex buffer at index 0 with offset 0, followed by the mesh's submesh commands. |
| Renderer.EncodeSubmeshes | HelloMetal/Renderer.swift:201-212 | The submesh loop appends, per submesh in order, its base-colour texture binding and then its indexed draw. |
| RendererProofs.FrameReplay | HelloMetal/Renderer.swift:168-224 | Executing a frame on a fresh command buffer draws exactly once per submesh of the scene, in model, mesh, submesh order (as many draws as submeshes). Each draw sees its own submesh's count, type, buffer and offset; its texture; its mesh's vertex buffer at 0; its model's uniforms and pipeline; and the frame's depth state, lights and fragment uniforms. Encoding ends without misuse. Present and commit each happen once exactly when there is a drawable, otherwise never. |
| RendererProofs.ModelsRun | HelloMetal/Renderer.swift:186-214 | Executing the model loop's commands adds exactly the expected draws of every site of the model list, and keeps the frame-level bindings. |
| RendererProofs.MeshesRun | HelloMetal/Renderer.swift:196-213 | Executing a model's mesh commands adds exactly the expected draws of its meshes' submeshes, and keeps the model's pipeline and uniforms bound. |
| RendererProofs.SubmeshesRun | HelloMetal/Renderer.swift:201-212 | Executing a mesh's submesh commands adds one draw per submesh, each seeing that submesh's texture. |
| RendererProofs.FrameDrawCount | HelloMetal/Renderer.swift:186-213 | The number of indexed draw commands in a frame equals the total number of submeshes over all models and meshes. |
| RendererProofs.FrameOpening | HelloMetal/Renderer.swift:176-184 | A frame starts with the depth-stencil state, the light array (stride times light count bytes) and the fragment uniforms carrying the camera position. The depth-stencil state is set nowhere else, and fragment bytes only at those two positions. |
| RendererProofs.FrameLightCount | HelloMetal/Renderer.swift:182-184 | Under the renderer invariant (light count from `init`, line 148), every draw sees fragment uniforms whose light count is the size of the bound light array, and the camera position. |
| RendererProofs.SitesCount | HelloMetal/Renderer.swift:186-213 | The expected draw sites number exactly the scene's submeshes. |
| RendererProofs.SitesMembership | HelloMetal/Renderer.swift:186-213 | A site is expected exactly when its model is in the model list, its mesh in that model and its submesh in that mesh. |
| ViewController.ViewController.constructor | HelloMetal/ViewController.swift:174-175 | The stored vertex buffer is the mesh's vertex buffer, and no frame has been rendered yet. |
| ViewController.ViewController.Render | HelloMetal/ViewController.swift:217-258 | The frame counter advances by one on every call, also when no drawable is available. Without a drawable no command is issued; otherwise the commands are `RenderTrace` of the new counter value. |
| ViewController.RenderTraceShape | HelloMetal/ViewController.swift:234-256 | The commands are: pipeline state; vertex buffer at 0 with offset 0; the time at index 1 with the stride of a Float; line fill mode. Then exactly one draw per submesh, in order, each with that submesh's parameters. Then `endEncoding`, present and commit, once each and last. |
| ViewController.RenderReplay | HelloMetal/ViewController.swift:217-258 | Executing a frame on a fresh command buffer: every draw sees the pipeline, the vertex buffer at 0, the time at 1 and line fill mode, one draw per submesh in order. The encoding ends without misuse, and the drawable is presented once and committed. |
| ViewController.DrawsRun | HelloMetal/ViewController.swift:247-249 | Executing the draw loop's commands adds one draw per submesh with that submesh's parameters and changes nothing else. |
| ViewController.DrawsTraceShape | HelloMetal/ViewController.swift:247-249 | The draw loop issues one command per submesh, and the k-th is the k-th submesh's draw. |
| ViewController.DrawsTraceCount | HelloMetal/ViewController.swift:247-249 | The draw loop issues as many indexed draws as the mesh has submeshes. |

## Left out

- `viewDidLoad` setup (device, layer, OBJ asset loading, vertex descriptors, shader library, pipeline construction, the Documents-directory check) and `Primitive.makeCube`: foreign Metal, ModelIO and UIKit calls. The view controller's constructor stands for the state they leave.
- The `CADisplayLink` timer, `gameloop` and `autoreleasepool`: host glue. Each call to `Render` is one tick.
- `04_coordinate/ViewController.swift`: it has no loop over scene data. Per frame it advances `_time`, allocates two one-vertex buffers and issues a fixed sequence of two point draws. The second buffer holds the vertex translated in floating point (a `map` over the one-element vertex list).
- Floating-point arithmetic:
  - the camera aspect in `mtkView(_:drawableSizeWillChange:)` is not modelled;
  - `sin(_time)` and the exact 0.016 step are replaced by a frame counter, which `TimeBytes` carries;
  - clear colours and all matrix contents stay opaque.
- `Camera`, `Lighting`, `Model`/`Node` and `Submesh` types are not part of this model. Their members (view and projection matrices, position, lights, model matrix, meshes, base-colour texture) are inputs.
- Lighting is a fixed sequence in the renderer's configuration, so light registration after `init` is not modelled.
- The lazy `camera`, `sunlight`, `lightPipelineState` properties and `buildDepthStencilState`: lazy initialisation and device calls. The light builders are modelled as plain functions.
- The debug-light drawing: it is commented out in the source (HelloMetal/Renderer.swift:215-217).
- Trapping paths are not modelled: force unwraps (`makeCommandBuffer()!`, `makeRenderCommandEncoder(descriptor:)!`, `buildDepthStencilState()!`), `vertexBuffers[0]` on a mesh without vertex buffers, and `fatalError` in `init`. The one exception is the `UInt32` light-count conversion, which the constructor's precondition rules out.
- Three facts about the shared shader header and the `Lighting` type are not part of this model; the model assumes them:
  - The header's argument-table indices are pairwise distinct and distinct from the literal indices 0 and 1: `Slot` gives each its own constructor. `RendererProofs.FrameReplay` relies on this. Because of it, binding the uniforms at `BufferIndexUniforms` does not overwrite the vertex buffer at index 0 (HelloMetal/Renderer.swift:191-199), and the light array and the fragment uniforms occupy separate slots (lines 183-184).
  - The zero value of the `LightType` enumeration is none of the named kinds (`Unused` here). `RendererLights.BuildDefaultLight`'s claim that `kind` differs from the zero-initialised light relies on this.
  - `lighting.count` (HelloMetal/Renderer.swift:148) equals the number of elements of `lighting.lights` (lines 182-183). Both are read from the one `lighting` sequence of the configuration, which `Renderer.Renderer.Valid` and `RendererProofs.FrameLightCount` rely on.
- Asynchronous GPU execution after `commit`, and the rendered image itself: `Metal.Run` records what each draw binds, not what it draws.
- The view's `currentRenderPassDescriptor`, the command queue and `currentDrawable`: each frame gets three availability flags and an optional drawable handle instead.
