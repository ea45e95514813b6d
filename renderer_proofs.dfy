/**
 * What one frame of `Renderer.Draw` achieves, proved against the encoder
 * semantics of `Metal.Run`: the GPU executes exactly one draw per submesh of
 * the scene, in model, mesh, submesh order, and each draw sees exactly the
 * bindings `ExpectedBindings` names for it; encoding ends once and, with a
 * drawable, the frame is presented and committed once each.
 */
module RendererProofs {
  import opened ShaderTypes
  import opened Metal
  import opened Renderer

  // ---------------------------------------------------------------------
  // The scene's submesh sites
  // ---------------------------------------------------------------------

  lemma {:induction false} SubmeshSitesCount(m: Model, mesh: Mesh, subs: seq<Submesh>)
    ensures |SubmeshSites(m, mesh, subs)| == |subs|
    decreases |subs|
  {
    if subs != [] {
      SubmeshSitesCount(m, mesh, subs[..|subs| - 1]);
    }
  }

  lemma {:induction false} MeshSitesCount(m: Model, meshes: seq<Mesh>)
    ensures |MeshSites(m, meshes)| == MeshSubmeshCount(meshes)
    decreases |meshes|
  {
    if meshes != [] {
      var last := meshes[|meshes| - 1];
      MeshSitesCount(m, meshes[..|meshes| - 1]);
      SubmeshSitesCount(m, last, last.submeshes);
    }
  }

  /** There is one site per submesh of the scene. */
  lemma {:induction false} SitesCount(ms: seq<Model>)
    ensures |Sites(ms)| == TotalSubmeshes(ms)
    decreases |ms|
  {
    if ms != [] {
      var last := ms[|ms| - 1];
      SitesCount(ms[..|ms| - 1]);
      MeshSitesCount(last, last.meshes);
    }
  }

  lemma {:induction false} SubmeshSitesMembership(m: Model, mesh: Mesh, subs: seq<Submesh>, site: Site)
    ensures site in SubmeshSites(m, mesh, subs) <==> site.model == m && site.mesh == mesh && site.submesh in subs
    decreases |subs|
  {
    if subs != [] {
      var init := subs[..|subs| - 1];
      SubmeshSitesMembership(m, mesh, init, site);
      assert subs == init + [subs[|subs| - 1]];
    }
  }

  lemma {:induction false} MeshSitesMembership(m: Model, meshes: seq<Mesh>, site: Site)
    ensures site in MeshSites(m, meshes) <==>
              site.model == m && site.mesh in meshes && site.submesh in site.mesh.submeshes
    decreases |meshes|
  {
    if meshes != [] {
      var init, last := meshes[..|meshes| - 1], meshes[|meshes| - 1];
      MeshSitesMembership(m, init, site);
      SubmeshSitesMembership(m, last, last.submeshes, site);
      assert meshes == init + [last];
    }
  }

  /** A site belongs to the scene exactly when its submesh belongs to its mesh, and its mesh to its model. */
  lemma {:induction false} SitesMembership(ms: seq<Model>, site: Site)
    ensures site in Sites(ms) <==>
              site.model in ms && site.mesh in site.model.meshes && site.submesh in site.mesh.submeshes
    decreases |ms|
  {
    if ms != [] {
      var init, last := ms[..|ms| - 1], ms[|ms| - 1];
      SitesMembership(init, site);
      MeshSitesMembership(last, last.meshes, site);
      assert ms == init + [last];
    }
  }

  // ---------------------------------------------------------------------
  // Counting draw commands
  // ---------------------------------------------------------------------

  lemma {:induction false} SubmeshesTraceDraws(subs: seq<Submesh>)
    ensures CountDraws(SubmeshesTrace(subs)) == |subs|
    decreases |subs|
  {
    if subs != [] {
      var init, last := subs[..|subs| - 1], subs[|subs| - 1];
      SubmeshesTraceDraws(init);
      var tex, draw := SetFragmentTexture(last.baseColor, BaseColorTexture), DrawSubmesh(last.mtkSubmesh);
      CountDrawsAppend(SubmeshesTrace(init), SubmeshCmds(last));
      assert SubmeshCmds(last) == [tex] + [draw];
      CountDrawsAppend([tex], [draw]);
      CountDrawsOne(tex);
      CountDrawsOne(draw);
    }
  }

  lemma {:induction false} MeshesTraceDraws(meshes: seq<Mesh>)
    ensures CountDraws(MeshesTrace(meshes)) == MeshSubmeshCount(meshes)
    decreases |meshes|
  {
    if meshes != [] {
      var init, last := meshes[..|meshes| - 1], meshes[|meshes| - 1];
      MeshesTraceDraws(init);
      SubmeshesTraceDraws(last.submeshes);
      CountDrawsAppend(MeshesTrace(init), MeshTrace(last));
      CountDrawsAppend(MeshHead(last), SubmeshesTrace(last.submeshes));
      CountDrawsNone(MeshHead(last));
    }
  }

  lemma {:induction false} ModelsTraceDraws(cfg: Config, cam: CameraView, ms: seq<Model>)
    ensures CountDraws(ModelsTrace(cfg, cam, ms)) == TotalSubmeshes(ms)
    decreases |ms|
  {
    if ms != [] {
      var init, last := ms[..|ms| - 1], ms[|ms| - 1];
      ModelsTraceDraws(cfg, cam, init);
      MeshesTraceDraws(last.meshes);
      CountDrawsAppend(ModelsTrace(cfg, cam, init), ModelTrace(cfg, cam, last));
      CountDrawsAppend(ModelHead(cfg, cam, last), MeshesTrace(last.meshes));
      CountDrawsNone(ModelHead(cfg, cam, last));
    }
  }

  /** A frame issues exactly as many indexed draws as the scene has submeshes. */
  lemma FrameDrawCount(cfg: Config, fu: FragmentUniforms, cam: CameraView, ms: seq<Model>, drawable: Option<Handle>)
    ensures CountDraws(FrameTrace(cfg, fu, cam, ms, drawable)) == TotalSubmeshes(ms)
  {
    var p := Prologue(cfg, FrameFragmentUniforms(fu, cam));
    var body := ModelsTrace(cfg, cam, ms);
    ModelsTraceDraws(cfg, cam, ms);
    CountDrawsAppend(p + body, Epilogue(drawable));
    CountDrawsAppend(p, body);
    CountDrawsNone(p);
    CountDrawsNone(Epilogue(drawable));
  }

  // ---------------------------------------------------------------------
  // The frame-level bindings come first, once
  // ---------------------------------------------------------------------

  /** The commands issued inside the model loop. */
  predicate ModelLevel(c: Cmd) {
    c.SetVertexBytes? || c.SetRenderPipelineState? || c.SetVertexBuffer? || c.SetFragmentTexture?
    || c.DrawIndexedTriangles?
  }

  lemma {:induction false} SubmeshesTraceModelLevel(subs: seq<Submesh>)
    ensures forall c | c in SubmeshesTrace(subs) :: ModelLevel(c)
    decreases |subs|
  {
    if subs != [] {
      SubmeshesTraceModelLevel(subs[..|subs| - 1]);
    }
  }

  lemma {:induction false} MeshesTraceModelLevel(meshes: seq<Mesh>)
    ensures forall c | c in MeshesTrace(meshes) :: ModelLevel(c)
    decreases |meshes|
  {
    if meshes != [] {
      MeshesTraceModelLevel(meshes[..|meshes| - 1]);
      SubmeshesTraceModelLevel(meshes[|meshes| - 1].submeshes);
    }
  }

  lemma {:induction false} ModelsTraceModelLevel(cfg: Config, cam: CameraView, ms: seq<Model>)
    ensures forall c | c in ModelsTrace(cfg, cam, ms) :: ModelLevel(c)
    decreases |ms|
  {
    if ms != [] {
      ModelsTraceModelLevel(cfg, cam, ms[..|ms| - 1]);
      MeshesTraceModelLevel(ms[|ms| - 1].meshes);
    }
  }

  /**
   * A frame starts with the depth-stencil state, then the light array (of
   * stride times light-count bytes), then the fragment uniforms carrying
   * the camera position; the depth-stencil state and the fragment state are
   * set nowhere else in the frame.
   */
  lemma FrameOpening(cfg: Config, fu: FragmentUniforms, cam: CameraView, ms: seq<Model>, drawable: Option<Handle>)
    ensures var t := FrameTrace(cfg, fu, cam, ms, drawable);
      && |t| >= 4
      && t[0] == SetDepthStencilState(cfg.depthStencilState)
      && t[1] == SetFragmentBytes(LightBytes(cfg.lighting), cfg.strides.light * |cfg.lighting|, BufferIndexLight)
      && t[2] == SetFragmentBytes(FragmentUniformBytes(FragmentUniforms(fu.lightCount, cam.position)),
                                  cfg.strides.fragmentUniforms, BufferFragUniforms)
      && (forall k | 0 < k < |t| :: !t[k].SetDepthStencilState?)
      && (forall k | 0 <= k < |t| && t[k].SetFragmentBytes? :: k == 1 || k == 2)
  {
    var t := FrameTrace(cfg, fu, cam, ms, drawable);
    var p := Prologue(cfg, FrameFragmentUniforms(fu, cam));
    var body := ModelsTrace(cfg, cam, ms);
    ModelsTraceModelLevel(cfg, cam, ms);
    assert t == p + body + Epilogue(drawable);
    forall k | 3 <= k < |t|
      ensures !t[k].SetDepthStencilState? && !t[k].SetFragmentBytes?
    {
      if k < 3 + |body| {
        assert t[k] == body[k - 3];
        assert ModelLevel(body[k - 3]);
      } else {
        assert t[k] == Epilogue(drawable)[k - 3 - |body|];
      }
    }
  }

  // ---------------------------------------------------------------------
  // Executing a frame
  // ---------------------------------------------------------------------

  function FragmentArgs(cfg: Config, fu: FragmentUniforms): map<Slot, Arg> {
    map[BufferIndexLight := LightArg(cfg), BufferFragUniforms := FragmentUniformsArg(cfg, fu)]
  }

  /** The encoder holds the frame-level state and no bindings beyond the slots a frame uses. */
  predicate FrameReady(cfg: Config, fu: FragmentUniforms, b: Bindings) {
    && b.depthStencil == Some(cfg.depthStencilState)
    && b.fragmentArgs == FragmentArgs(cfg, fu)
    && b.fillMode == Fill
    && b.vertexArgs.Keys <= {BufferIndexUniforms, Index(0)}
    && b.fragmentTextures.Keys <= {BaseColorTexture}
  }

  /** Still encoding, and nothing presented, committed or misused that was not before. */
  predicate SameBuffer(s: BufferState, r: BufferState) {
    r.phase == s.phase && r.presented == s.presented && r.committed == s.committed && r.misuse == s.misuse
  }

  lemma ExpectedDrawsAppend(cfg: Config, fu: FragmentUniforms, cam: CameraView, a: seq<Site>, b: seq<Site>)
    ensures ExpectedDraws(cfg, fu, cam, a + b) == ExpectedDraws(cfg, fu, cam, a) + ExpectedDraws(cfg, fu, cam, b)
  {
  }

  /** One iteration of the submesh loop: bind the texture, then draw with the bindings now in effect. */
  lemma SubmeshRun(cfg: Config, fu: FragmentUniforms, cam: CameraView, site: Site, s: BufferState)
    requires s.phase == Encoding && FrameReady(cfg, fu, s.bindings)
    requires s.bindings.pipeline == Some(site.model.pipelineState)
    requires s.bindings.vertexArgs
          == map[BufferIndexUniforms := UniformsArg(cfg, cam, site.model),
                 Index(0) := Buffer(site.mesh.mtkMesh.vertexBuffer, 0)]
    ensures var r := Run(s, SubmeshCmds(site.submesh));
      && SameBuffer(s, r) && FrameReady(cfg, fu, r.bindings)
      && r.bindings.pipeline == s.bindings.pipeline && r.bindings.vertexArgs == s.bindings.vertexArgs
      && r.draws == s.draws + [ExpectedDraw(cfg, fu, cam, site)]
  {
    var sub := site.submesh;
    RunTwo(s, SetFragmentTexture(sub.baseColor, BaseColorTexture), DrawSubmesh(sub.mtkSubmesh));
    var b := s.bindings.(fragmentTextures := s.bindings.fragmentTextures[BaseColorTexture := sub.baseColor]);
    assert b.fragmentTextures == map[BaseColorTexture := sub.baseColor];
  }

  lemma {:induction false} SubmeshesRun(cfg: Config, fu: FragmentUniforms, cam: CameraView, m: Model, mesh: Mesh,
                                        subs: seq<Submesh>, s: BufferState)
    requires s.phase == Encoding && FrameReady(cfg, fu, s.bindings)
    requires s.bindings.pipeline == Some(m.pipelineState)
    requires s.bindings.vertexArgs
          == map[BufferIndexUniforms := UniformsArg(cfg, cam, m), Index(0) := Buffer(mesh.mtkMesh.vertexBuffer, 0)]
    ensures var r := Run(s, SubmeshesTrace(subs));
      && SameBuffer(s, r) && FrameReady(cfg, fu, r.bindings)
      && r.bindings.pipeline == s.bindings.pipeline && r.bindings.vertexArgs == s.bindings.vertexArgs
      && r.draws == s.draws + ExpectedDraws(cfg, fu, cam, SubmeshSites(m, mesh, subs))
    decreases |subs|
  {
    if subs == [] {
      assert ExpectedDraws(cfg, fu, cam, []) == [];
    } else {
      var init, last := subs[..|subs| - 1], subs[|subs| - 1];
      SubmeshesRun(cfg, fu, cam, m, mesh, init, s);
      var r1 := Run(s, SubmeshesTrace(init));
      RunAppend(s, SubmeshesTrace(init), SubmeshCmds(last));
      SubmeshRun(cfg, fu, cam, Site(m, mesh, last), r1);
      ExpectedDrawsAppend(cfg, fu, cam, SubmeshSites(m, mesh, init), [Site(m, mesh, last)]);
    }
  }

  /** Binding a mesh's vertex buffer: index 0 now holds it, the model's uniforms stay. */
  lemma MeshHeadRun(cfg: Config, fu: FragmentUniforms, cam: CameraView, m: Model, mesh: Mesh, s: BufferState)
    requires s.phase == Encoding && FrameReady(cfg, fu, s.bindings)
    requires BufferIndexUniforms in s.bindings.vertexArgs
    requires s.bindings.vertexArgs[BufferIndexUniforms] == UniformsArg(cfg, cam, m)
    ensures var r := Run(s, MeshHead(mesh));
      && SameBuffer(s, r) && FrameReady(cfg, fu, r.bindings)
      && r.bindings.pipeline == s.bindings.pipeline && r.draws == s.draws
      && r.bindings.vertexArgs
         == map[BufferIndexUniforms := UniformsArg(cfg, cam, m), Index(0) := Buffer(mesh.mtkMesh.vertexBuffer, 0)]
  {
  }

  /** One iteration of the mesh loop. */
  lemma MeshRun(cfg: Config, fu: FragmentUniforms, cam: CameraView, m: Model, mesh: Mesh, s: BufferState)
    requires s.phase == Encoding && FrameReady(cfg, fu, s.bindings)
    requires s.bindings.pipeline == Some(m.pipelineState)
    requires BufferIndexUniforms in s.bindings.vertexArgs
    requires s.bindings.vertexArgs[BufferIndexUniforms] == UniformsArg(cfg, cam, m)
    ensures var r := Run(s, MeshTrace(mesh));
      && SameBuffer(s, r) && FrameReady(cfg, fu, r.bindings)
      && r.bindings.pipeline == s.bindings.pipeline
      && BufferIndexUniforms in r.bindings.vertexArgs
      && r.bindings.vertexArgs[BufferIndexUniforms] == UniformsArg(cfg, cam, m)
      && r.draws == s.draws + ExpectedDraws(cfg, fu, cam, SubmeshSites(m, mesh, mesh.submeshes))
  {
    RunAppend(s, MeshHead(mesh), SubmeshesTrace(mesh.submeshes));
    MeshHeadRun(cfg, fu, cam, m, mesh, s);
    SubmeshesRun(cfg, fu, cam, m, mesh, mesh.submeshes, Run(s, MeshHead(mesh)));
  }

  lemma {:induction false} MeshesRun(cfg: Config, fu: FragmentUniforms, cam: CameraView, m: Model,
                                     meshes: seq<Mesh>, s: BufferState)
    requires s.phase == Encoding && FrameReady(cfg, fu, s.bindings)
    requires s.bindings.pipeline == Some(m.pipelineState)
    requires BufferIndexUniforms in s.bindings.vertexArgs
    requires s.bindings.vertexArgs[BufferIndexUniforms] == UniformsArg(cfg, cam, m)
    ensures var r := Run(s, MeshesTrace(meshes));
      && SameBuffer(s, r) && FrameReady(cfg, fu, r.bindings)
      && r.bindings.pipeline == s.bindings.pipeline
      && BufferIndexUniforms in r.bindings.vertexArgs
      && r.bindings.vertexArgs[BufferIndexUniforms] == UniformsArg(cfg, cam, m)
      && r.draws == s.draws + ExpectedDraws(cfg, fu, cam, MeshSites(m, meshes))
    decreases |meshes|
  {
    if meshes == [] {
      assert ExpectedDraws(cfg, fu, cam, []) == [];
    } else {
      var init, last := meshes[..|meshes| - 1], meshes[|meshes| - 1];
      MeshesRun(cfg, fu, cam, m, init, s);
      RunAppend(s, MeshesTrace(init), MeshTrace(last));
      MeshRun(cfg, fu, cam, m, last, Run(s, MeshesTrace(init)));
      ExpectedDrawsAppend(cfg, fu, cam, MeshSites(m, init), SubmeshSites(m, last, last.submeshes));
    }
  }

  /** Binding a model's uniforms and pipeline. */
  lemma ModelHeadRun(cfg: Config, fu: FragmentUniforms, cam: CameraView, m: Model, s: BufferState)
    requires s.phase == Encoding && FrameReady(cfg, fu, s.bindings)
    ensures var r := Run(s, ModelHead(cfg, cam, m));
      && SameBuffer(s, r) && FrameReady(cfg, fu, r.bindings) && r.draws == s.draws
      && r.bindings.pipeline == Some(m.pipelineState)
      && BufferIndexUniforms in r.bindings.vertexArgs
      && r.bindings.vertexArgs[BufferIndexUniforms] == UniformsArg(cfg, cam, m)
  {
    RunTwo(s, ModelHead(cfg, cam, m)[0], ModelHead(cfg, cam, m)[1]);
  }

  /** One iteration of the model loop. */
  lemma ModelRun(cfg: Config, fu: FragmentUniforms, cam: CameraView, m: Model, s: BufferState)
    requires s.phase == Encoding && FrameReady(cfg, fu, s.bindings)
    ensures var r := Run(s, ModelTrace(cfg, cam, m));
      && SameBuffer(s, r) && FrameReady(cfg, fu, r.bindings)
      && r.draws == s.draws + ExpectedDraws(cfg, fu, cam, MeshSites(m, m.meshes))
  {
    RunAppend(s, ModelHead(cfg, cam, m), MeshesTrace(m.meshes));
    ModelHeadRun(cfg, fu, cam, m, s);
    MeshesRun(cfg, fu, cam, m, m.meshes, Run(s, ModelHead(cfg, cam, m)));
  }

  lemma {:induction false} ModelsRun(cfg: Config, fu: FragmentUniforms, cam: CameraView, ms: seq<Model>,
                                     s: BufferState)
    requires s.phase == Encoding && FrameReady(cfg, fu, s.bindings)
    ensures var r := Run(s, ModelsTrace(cfg, cam, ms));
      && SameBuffer(s, r) && FrameReady(cfg, fu, r.bindings)
      && r.draws == s.draws + ExpectedDraws(cfg, fu, cam, Sites(ms))
    decreases |ms|
  {
    if ms == [] {
      assert ExpectedDraws(cfg, fu, cam, []) == [];
    } else {
      var init, last := ms[..|ms| - 1], ms[|ms| - 1];
      ModelsRun(cfg, fu, cam, init, s);
      RunAppend(s, ModelsTrace(cfg, cam, init), ModelTrace(cfg, cam, last));
      ModelRun(cfg, fu, cam, last, Run(s, ModelsTrace(cfg, cam, init)));
      ExpectedDrawsAppend(cfg, fu, cam, Sites(init), MeshSites(last, last.meshes));
    }
  }

  /**
   * Executing a frame's commands on a fresh command buffer: the draws are
   * exactly the expected draw of each site, in order, with the frame's
   * fragment uniforms; encoding has ended without misuse; and the drawable,
   * if any, is presented once and the buffer committed, otherwise neither.
   */
  lemma FrameReplay(cfg: Config, fu: FragmentUniforms, cam: CameraView, ms: seq<Model>, drawable: Option<Handle>)
    ensures var r := Run(Fresh, FrameTrace(cfg, fu, cam, ms, drawable));
      && r.draws == ExpectedDraws(cfg, FrameFragmentUniforms(fu, cam), cam, Sites(ms))
      && |r.draws| == TotalSubmeshes(ms)
      && r.phase == Ended && !r.misuse
      && r.presented == (if drawable.Some? then [drawable.value] else [])
      && r.committed == drawable.Some?
  {
    var bound := FrameFragmentUniforms(fu, cam);
    var p := Prologue(cfg, bound);
    var body := ModelsTrace(cfg, cam, ms);
    RunAppend(Fresh, p + body, Epilogue(drawable));
    RunAppend(Fresh, p, body);
    var r0 := Run(Fresh, p);
    RunThree(Fresh, p[0], p[1], p[2]);
    assert r0.bindings.fragmentArgs == FragmentArgs(cfg, bound);
    ModelsRun(cfg, bound, cam, ms, r0);
    var r1 := Run(r0, body);
    if drawable.Some? {
      RunThree(r1, EndEncoding, Present(drawable.value), Commit);
    } else {
      RunOne(r1, EndEncoding);
    }
    SitesCount(ms);
  }

  /**
   * With the renderer's invariant (the stored light count is the size of
   * the lighting set), every draw sees fragment uniforms whose light count
   * is the number of lights bound beside them.
   */
  lemma FrameLightCount(cfg: Config, fu: FragmentUniforms, cam: CameraView, ms: seq<Model>, drawable: Option<Handle>)
    requires fu.lightCount == |cfg.lighting|
    ensures var r := Run(Fresh, FrameTrace(cfg, fu, cam, ms, drawable));
      forall d | d in r.draws ::
        && BufferIndexLight in d.bindings.fragmentArgs && BufferFragUniforms in d.bindings.fragmentArgs
        && d.bindings.fragmentArgs[BufferIndexLight]
           == Bytes(LightBytes(cfg.lighting), cfg.strides.light * |cfg.lighting|)
        && d.bindings.fragmentArgs[BufferFragUniforms]
           == Bytes(FragmentUniformBytes(FragmentUniforms(|cfg.lighting|, cam.position)), cfg.strides.fragmentUniforms)
  {
    FrameReplay(cfg, fu, cam, ms, drawable);
  }
}
