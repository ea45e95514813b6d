/**
 * The renderer's per-frame command protocol (`draw(in:)`) and its scene
 * setup (`init`).
 *
 * A frame binds the depth-stencil state, the light array and the fragment
 * uniforms once; then, for each model in order, its vertex uniforms and its
 * pipeline state; for each of the model's meshes its vertex buffer at index
 * 0; and for each submesh its base-colour texture followed by one indexed
 * draw. The frame ends the encoding and, when a drawable is available,
 * presents and commits.
 *
 * `FrameTrace` states the commands of one frame; `Sites` and `ExpectedDraw`
 * state independently which draws a frame must execute and with what
 * bindings, which the lemmas in `RendererProofs` connect through the
 * encoder semantics of `Metal.Run`.
 */
module Renderer {
  import opened ShaderTypes
  import opened Metal

  datatype Submesh = Submesh(mtkSubmesh: MtkSubmesh, baseColor: Option<Handle>)

  datatype Mesh = Mesh(mtkMesh: MtkMesh, submeshes: seq<Submesh>)

  /** A model: its pipeline state, its (transform-derived) model matrix and its meshes. */
  datatype Model = Model(pipelineState: Handle, modelMatrix: Float4x4, meshes: seq<Mesh>)

  /** What a frame reads from the camera. */
  datatype CameraView = CameraView(projectionMatrix: Float4x4, viewMatrix: Float4x4, position: Float3)

  /** `MemoryLayout<…>.stride` of the three uploaded record types. */
  datatype Strides = Strides(light: nat, uniforms: nat, fragmentUniforms: nat)

  /** What the renderer fixes at construction and never reassigns. */
  datatype Config = Config(depthStencilState: Handle, lighting: seq<Light>, strides: Strides)

  // ---------------------------------------------------------------------
  // The commands of one frame
  // ---------------------------------------------------------------------

  /** The vertex uniforms of `m` in a frame seen through `cam`. */
  function ModelUniforms(cam: CameraView, m: Model): Uniforms {
    Uniforms(m.modelMatrix, cam.viewMatrix, cam.projectionMatrix, m.modelMatrix.upperLeft)
  }

  /** The fragment uniforms a frame binds: the stored ones with the camera position. */
  function FrameFragmentUniforms(fu: FragmentUniforms, cam: CameraView): FragmentUniforms {
    fu.(cameraPosition := cam.position)
  }

  function LightArg(cfg: Config): Arg {
    Bytes(LightBytes(cfg.lighting), cfg.strides.light * |cfg.lighting|)
  }

  function FragmentUniformsArg(cfg: Config, fu: FragmentUniforms): Arg {
    Bytes(FragmentUniformBytes(fu), cfg.strides.fragmentUniforms)
  }

  function UniformsArg(cfg: Config, cam: CameraView, m: Model): Arg {
    Bytes(UniformBytes(ModelUniforms(cam, m)), cfg.strides.uniforms)
  }

  function Prologue(cfg: Config, fu: FragmentUniforms): seq<Cmd> {
    [ SetDepthStencilState(cfg.depthStencilState),
      SetFragmentBytes(LightBytes(cfg.lighting), cfg.strides.light * |cfg.lighting|, BufferIndexLight),
      SetFragmentBytes(FragmentUniformBytes(fu), cfg.strides.fragmentUniforms, BufferFragUniforms) ]
  }

  function SubmeshCmds(s: Submesh): seq<Cmd> {
    [SetFragmentTexture(s.baseColor, BaseColorTexture), DrawSubmesh(s.mtkSubmesh)]
  }

  function SubmeshesTrace(subs: seq<Submesh>): seq<Cmd>
    decreases |subs|
  {
    if subs == [] then []
    else SubmeshesTrace(subs[..|subs| - 1]) + SubmeshCmds(subs[|subs| - 1])
  }

  function MeshHead(mesh: Mesh): seq<Cmd> {
    [SetVertexBuffer(mesh.mtkMesh.vertexBuffer, 0, Index(0))]
  }

  function MeshTrace(mesh: Mesh): seq<Cmd> {
    MeshHead(mesh) + SubmeshesTrace(mesh.submeshes)
  }

  function MeshesTrace(meshes: seq<Mesh>): seq<Cmd>
    decreases |meshes|
  {
    if meshes == [] then []
    else MeshesTrace(meshes[..|meshes| - 1]) + MeshTrace(meshes[|meshes| - 1])
  }

  function ModelHead(cfg: Config, cam: CameraView, m: Model): seq<Cmd> {
    [ SetVertexBytes(UniformBytes(ModelUniforms(cam, m)), cfg.strides.uniforms, BufferIndexUniforms),
      SetRenderPipelineState(m.pipelineState) ]
  }

  function ModelTrace(cfg: Config, cam: CameraView, m: Model): seq<Cmd> {
    ModelHead(cfg, cam, m) + MeshesTrace(m.meshes)
  }

  function ModelsTrace(cfg: Config, cam: CameraView, ms: seq<Model>): seq<Cmd>
    decreases |ms|
  {
    if ms == [] then []
    else ModelsTrace(cfg, cam, ms[..|ms| - 1]) + ModelTrace(cfg, cam, ms[|ms| - 1])
  }

  function Epilogue(drawable: Option<Handle>): seq<Cmd> {
    [EndEncoding] + (if drawable.Some? then [Present(drawable.value), Commit] else [])
  }

  /** The commands of a frame whose descriptor, command buffer and encoder all exist. */
  function FrameTrace(cfg: Config, fu: FragmentUniforms, cam: CameraView, ms: seq<Model>,
                      drawable: Option<Handle>): seq<Cmd>
  {
    Prologue(cfg, FrameFragmentUniforms(fu, cam)) + ModelsTrace(cfg, cam, ms) + Epilogue(drawable)
  }

  // One iteration of each loop of `draw(in:)` extends the trace by one element's commands.

  lemma SubmeshStep(cmds0: seq<Cmd>, subs: seq<Submesh>, k: nat, before: seq<Cmd>, after: seq<Cmd>)
    requires k < |subs|
    requires before == cmds0 + SubmeshesTrace(subs[..k])
    requires after == before + [SetFragmentTexture(subs[k].baseColor, BaseColorTexture)]
                             + [DrawSubmesh(subs[k].mtkSubmesh)]
    ensures after == cmds0 + SubmeshesTrace(subs[..k + 1])
  {
    assert subs[..k + 1][..k] == subs[..k];
  }

  lemma MeshStep(cmds0: seq<Cmd>, meshes: seq<Mesh>, j: nat, before: seq<Cmd>, after: seq<Cmd>)
    requires j < |meshes|
    requires before == cmds0 + MeshesTrace(meshes[..j])
    requires after == before + [SetVertexBuffer(meshes[j].mtkMesh.vertexBuffer, 0, Index(0))]
                             + SubmeshesTrace(meshes[j].submeshes)
    ensures after == cmds0 + MeshesTrace(meshes[..j + 1])
  {
    assert meshes[..j + 1][..j] == meshes[..j];
  }

  lemma ModelStep(cmds0: seq<Cmd>, cfg: Config, cam: CameraView, ms: seq<Model>, i: nat,
                  before: seq<Cmd>, after: seq<Cmd>)
    requires i < |ms|
    requires before == cmds0 + ModelsTrace(cfg, cam, ms[..i])
    requires after == before + [SetVertexBytes(UniformBytes(ModelUniforms(cam, ms[i])), cfg.strides.uniforms,
                                               BufferIndexUniforms)]
                             + [SetRenderPipelineState(ms[i].pipelineState)]
                             + MeshesTrace(ms[i].meshes)
    ensures after == cmds0 + ModelsTrace(cfg, cam, ms[..i + 1])
  {
    assert ms[..i + 1][..i] == ms[..i];
  }

  /** The stored uniforms after the model loop has run over `ms`. */
  function UniformsAfter(u: Uniforms, cam: CameraView, ms: seq<Model>): Uniforms {
    if ms == [] then u.(projectionMatrix := cam.projectionMatrix, viewMatrix := cam.viewMatrix)
    else ModelUniforms(cam, ms[|ms| - 1])
  }

  // ---------------------------------------------------------------------
  // What a frame must draw: one draw per (model, mesh, submesh)
  // ---------------------------------------------------------------------

  /** One iteration of the innermost loop: a submesh of a mesh of a model. */
  datatype Site = Site(model: Model, mesh: Mesh, submesh: Submesh)

  function SubmeshSites(m: Model, mesh: Mesh, subs: seq<Submesh>): seq<Site>
    decreases |subs|
  {
    if subs == [] then []
    else SubmeshSites(m, mesh, subs[..|subs| - 1]) + [Site(m, mesh, subs[|subs| - 1])]
  }

  function MeshSites(m: Model, meshes: seq<Mesh>): seq<Site>
    decreases |meshes|
  {
    if meshes == [] then []
    else MeshSites(m, meshes[..|meshes| - 1])
         + SubmeshSites(m, meshes[|meshes| - 1], meshes[|meshes| - 1].submeshes)
  }

  /** All submeshes of the scene in model, then mesh, then submesh order. */
  function Sites(ms: seq<Model>): seq<Site>
    decreases |ms|
  {
    if ms == [] then []
    else Sites(ms[..|ms| - 1]) + MeshSites(ms[|ms| - 1], ms[|ms| - 1].meshes)
  }

  /** The number of submeshes of a list of meshes. */
  function MeshSubmeshCount(meshes: seq<Mesh>): nat
    decreases |meshes|
  {
    if meshes == [] then 0
    else MeshSubmeshCount(meshes[..|meshes| - 1]) + |meshes[|meshes| - 1].submeshes|
  }

  /** The number of submeshes in the scene. */
  function TotalSubmeshes(ms: seq<Model>): nat
    decreases |ms|
  {
    if ms == [] then 0
    else TotalSubmeshes(ms[..|ms| - 1]) + MeshSubmeshCount(ms[|ms| - 1].meshes)
  }

  /**
   * The complete encoder state a draw of `site` must see: the frame's
   * depth-stencil state, light array and fragment uniforms; its model's
   * pipeline and uniforms; its mesh's vertex buffer at index 0; and its
   * submesh's base-colour texture. Nothing else is bound.
   */
  function ExpectedBindings(cfg: Config, fu: FragmentUniforms, cam: CameraView, site: Site): Bindings {
    Bindings(
      Some(cfg.depthStencilState),
      Some(site.model.pipelineState),
      map[BufferIndexUniforms := UniformsArg(cfg, cam, site.model),
          Index(0) := Buffer(site.mesh.mtkMesh.vertexBuffer, 0)],
      map[BufferIndexLight := LightArg(cfg), BufferFragUniforms := FragmentUniformsArg(cfg, fu)],
      map[BaseColorTexture := site.submesh.baseColor],
      Fill)
  }

  function ExpectedDraw(cfg: Config, fu: FragmentUniforms, cam: CameraView, site: Site): DrawRecord {
    DrawRecord(ExpectedBindings(cfg, fu, cam, site), CallOf(site.submesh.mtkSubmesh))
  }

  function ExpectedDraws(cfg: Config, fu: FragmentUniforms, cam: CameraView, sites: seq<Site>): seq<DrawRecord> {
    seq(|sites|, k requires 0 <= k < |sites| => ExpectedDraw(cfg, fu, cam, sites[k]))
  }

  /**
   * The innermost loop of `draw(in:)`: for each submesh of a mesh, bind its
   * base-colour texture and issue its indexed draw.
   */
  method EncodeSubmeshes(cmds0: seq<Cmd>, subs: seq<Submesh>) returns (cmds: seq<Cmd>)
    ensures cmds == cmds0 + SubmeshesTrace(subs)
  {
    cmds := cmds0;
    for k := 0 to |subs|
      invariant cmds == cmds0 + SubmeshesTrace(subs[..k])
    {
      var submesh := subs[k];
      ghost var before := cmds;
      cmds := cmds + [SetFragmentTexture(submesh.baseColor, BaseColorTexture)];
      cmds := cmds + [DrawSubmesh(submesh.mtkSubmesh)];
      SubmeshStep(cmds0, subs, k, before, cmds);
    }
    assert subs[..|subs|] == subs;
  }

  /**
   * The mesh loop of `draw(in:)` for one model: for each mesh bind its
   * vertex buffer at index 0, then encode its submeshes.
   */
  method EncodeMeshes(cmds0: seq<Cmd>, meshes: seq<Mesh>) returns (cmds: seq<Cmd>)
    ensures cmds == cmds0 + MeshesTrace(meshes)
  {
    cmds := cmds0;
    for j := 0 to |meshes|
      invariant cmds == cmds0 + MeshesTrace(meshes[..j])
    {
      var mesh := meshes[j];
      ghost var before := cmds;
      cmds := cmds + [SetVertexBuffer(mesh.mtkMesh.vertexBuffer, 0, Index(0))];
      cmds := EncodeSubmeshes(cmds, mesh.submeshes);
      MeshStep(cmds0, meshes, j, before, cmds);
    }
    assert meshes[..|meshes|] == meshes;
  }

  // ---------------------------------------------------------------------
  // The renderer object
  // ---------------------------------------------------------------------

  class Renderer {
    const config: Config
    var uniforms: Uniforms
    var fragmentUniforms: FragmentUniforms
    var models: seq<Model>

    /** The stored light count is the number of lights in the lighting set. */
    ghost predicate Valid()
      reads this
    {
      fragmentUniforms.lightCount == |config.lighting|
    }

    /**
     * `init`: the scene is the single house model; the stored fragment
     * uniforms carry the light count (a `UInt32`, so the lighting set must
     * fit in one).
     */
    constructor (config: Config, house: Model)
      requires |config.lighting| <= MaxUInt32
      ensures this.config == config
      ensures models == [house]
      ensures uniforms == ZeroUniforms
      ensures fragmentUniforms == ZeroFragmentUniforms.(lightCount := |config.lighting|)
      ensures Valid()
    {
      this.config := config;
      uniforms := ZeroUniforms;
      fragmentUniforms := ZeroFragmentUniforms;
      models := [];
      new;
      models := models + [house];
      fragmentUniforms := fragmentUniforms.(lightCount := |config.lighting|);
    }

    /**
     * The model loop of `draw(in:)`: for each model in order, store its
     * model and normal matrices in the uniforms, bind the uniforms and the
     * model's pipeline state, then encode its meshes.
     */
    method EncodeModels(cmds0: seq<Cmd>, camera: CameraView) returns (cmds: seq<Cmd>)
      requires uniforms.projectionMatrix == camera.projectionMatrix
      requires uniforms.viewMatrix == camera.viewMatrix
      modifies this`uniforms
      ensures cmds == cmds0 + ModelsTrace(config, camera, models)
      ensures uniforms == if models == [] then old(uniforms) else ModelUniforms(camera, models[|models| - 1])
    {
      cmds := cmds0;
      for i := 0 to |models|
        invariant cmds == cmds0 + ModelsTrace(config, camera, models[..i])
        invariant uniforms == if i == 0 then old(uniforms) else ModelUniforms(camera, models[i - 1])
      {
        var model := models[i];
        ghost var before := cmds;
        uniforms := uniforms.(modelMatrix := model.modelMatrix);
        uniforms := uniforms.(normalMatrix := model.modelMatrix.upperLeft);
        cmds := cmds + [SetVertexBytes(UniformBytes(uniforms), config.strides.uniforms, BufferIndexUniforms)];
        cmds := cmds + [SetRenderPipelineState(model.pipelineState)];
        cmds := EncodeMeshes(cmds, model.meshes);
        ModelStep(cmds0, config, camera, models, i, before, cmds);
      }
      assert models[..|models|] == models;
    }

    /**
     * `draw(in:)`. The three flags say whether the render-pass descriptor,
     * the command buffer and the encoder could be obtained; `drawable` is
     * the view's current drawable, if any. Without all three the frame
     * issues nothing and changes nothing. Otherwise it issues `FrameTrace`,
     * writes the camera matrices and position and the last model's matrices
     * into the stored uniforms, and leaves the light count and the model
     * list alone.
     */
    method Draw(descriptorAvailable: bool, commandBufferAvailable: bool, encoderAvailable: bool,
                camera: CameraView, drawable: Option<Handle>)
      returns (cmds: seq<Cmd>)
      requires Valid()
      modifies this`uniforms, this`fragmentUniforms
      ensures Valid()
      ensures !(descriptorAvailable && commandBufferAvailable && encoderAvailable) ==>
                cmds == [] && uniforms == old(uniforms) && fragmentUniforms == old(fragmentUniforms)
      ensures descriptorAvailable && commandBufferAvailable && encoderAvailable ==>
                && cmds == FrameTrace(config, old(fragmentUniforms), camera, models, drawable)
                && uniforms == UniformsAfter(old(uniforms), camera, models)
                && fragmentUniforms == FrameFragmentUniforms(old(fragmentUniforms), camera)
    {
      cmds := [];
      if !descriptorAvailable || !commandBufferAvailable || !encoderAvailable {
        return;
      }
      cmds := cmds + [SetDepthStencilState(config.depthStencilState)];

      uniforms := uniforms.(projectionMatrix := camera.projectionMatrix);
      uniforms := uniforms.(viewMatrix := camera.viewMatrix);
      fragmentUniforms := fragmentUniforms.(cameraPosition := camera.position);

      var lights := config.lighting;
      cmds := cmds + [SetFragmentBytes(LightBytes(lights), config.strides.light * |lights|, BufferIndexLight)];
      cmds := cmds + [SetFragmentBytes(FragmentUniformBytes(fragmentUniforms), config.strides.fragmentUniforms,
                                       BufferFragUniforms)];
      assert cmds == Prologue(config, FrameFragmentUniforms(old(fragmentUniforms), camera));

      cmds := EncodeModels(cmds, camera);

      cmds := cmds + [EndEncoding];
      if drawable.None? {
        return;
      }
      cmds := cmds + [Present(drawable.value)];
      cmds := cmds + [Commit];
    }
  }
}
