/**
 * The single-mesh renderer of the view controller (`render()`): per frame it
 * advances the frame counter, and with a drawable binds the pipeline state,
 * the mesh's vertex buffer at index 0 and the time value at index 1,
 * switches to wireframe, draws every submesh of the mesh in order, then ends
 * the encoding, presents and commits.
 *
 * `_time` advances by a fixed step per frame, so it is modelled as the
 * number of frames so far; `TimeBytes(n)` stands for the sine of the time
 * after `n` frames.
 */
module ViewController {
  import opened Metal

  /** `MemoryLayout<Float>.stride`. */
  const FloatStride: nat := 4

  /** The draw loop of `render()`: one indexed draw per submesh. */
  function DrawsTrace(subs: seq<MtkSubmesh>): seq<Cmd>
    decreases |subs|
  {
    if subs == [] then [] else DrawsTrace(subs[..|subs| - 1]) + [DrawSubmesh(subs[|subs| - 1])]
  }

  /** What `render()` binds before its draws. */
  function RenderHead(pipeline: Handle, vertexBuffer: Handle, time: nat): seq<Cmd> {
    [ SetRenderPipelineState(pipeline),
      SetVertexBuffer(vertexBuffer, 0, Index(0)),
      SetVertexBytes(TimeBytes(time), FloatStride, Index(1)),
      SetTriangleFillMode(Lines) ]
  }

  /** The commands of a frame with a drawable. */
  function RenderTrace(pipeline: Handle, vertexBuffer: Handle, time: nat, subs: seq<MtkSubmesh>,
                       drawable: Handle): seq<Cmd>
  {
    RenderHead(pipeline, vertexBuffer, time) + DrawsTrace(subs) + [EndEncoding, Present(drawable), Commit]
  }

  class ViewController {
    var pipelineState: Handle
    var vertexBuffer: Handle
    var mesh: MtkMesh
    /** The number of `render()` calls so far (`_time` is this many fixed steps). */
    var time: nat

    /**
     * The state `viewDidLoad` leaves: the loaded mesh, the vertex buffer
     * taken from it, the pipeline state, and no frame rendered yet.
     */
    constructor (pipelineState: Handle, mesh: MtkMesh)
      ensures this.pipelineState == pipelineState && this.mesh == mesh
      ensures vertexBuffer == mesh.vertexBuffer
      ensures time == 0
    {
      this.pipelineState := pipelineState;
      this.mesh := mesh;
      vertexBuffer := mesh.vertexBuffer;
      time := 0;
    }

    /**
     * `render()`. The frame counter advances first, whether or not a
     * drawable is available; without one nothing is issued.
     */
    method Render(drawable: Option<Handle>) returns (cmds: seq<Cmd>)
      modifies this`time
      ensures time == old(time) + 1
      ensures drawable.None? ==> cmds == []
      ensures drawable.Some? ==> cmds == RenderTrace(pipelineState, vertexBuffer, time, mesh.submeshes, drawable.value)
    {
      time := time + 1;
      cmds := [];
      if drawable.None? {
        return;
      }
      cmds := cmds + [SetRenderPipelineState(pipelineState)];
      cmds := cmds + [SetVertexBuffer(vertexBuffer, 0, Index(0))];
      cmds := cmds + [SetVertexBytes(TimeBytes(time), FloatStride, Index(1))];
      cmds := cmds + [SetTriangleFillMode(Lines)];
      ghost var head := cmds;
      var subs := mesh.submeshes;
      for k := 0 to |subs|
        invariant cmds == head + DrawsTrace(subs[..k])
      {
        assert subs[..k + 1][..k] == subs[..k];
        cmds := cmds + [DrawSubmesh(subs[k])];
      }
      assert subs[..|subs|] == subs;
      cmds := cmds + [EndEncoding];
      cmds := cmds + [Present(drawable.value)];
      cmds := cmds + [Commit];
    }
  }

  // ---------------------------------------------------------------------
  // What a frame does
  // ---------------------------------------------------------------------

  lemma {:induction false} DrawsTraceShape(subs: seq<MtkSubmesh>)
    ensures |DrawsTrace(subs)| == |subs|
    ensures forall k | 0 <= k < |subs| :: DrawsTrace(subs)[k] == DrawSubmesh(subs[k])
    decreases |subs|
  {
    if subs != [] {
      var init := subs[..|subs| - 1];
      DrawsTraceShape(init);
      forall k | 0 <= k < |init| ensures DrawsTrace(subs)[k] == DrawSubmesh(subs[k]) {
        assert subs[k] == init[k];
      }
    }
  }

  /**
   * A frame with a drawable: the four bindings, then exactly one draw per
   * submesh in order with that submesh's own parameters, then end, present
   * and commit, each once and last; it issues one draw per submesh.
   */
  lemma RenderTraceShape(pipeline: Handle, vertexBuffer: Handle, time: nat, subs: seq<MtkSubmesh>, drawable: Handle)
    ensures var t := RenderTrace(pipeline, vertexBuffer, time, subs, drawable);
      && |t| == |subs| + 7
      && t[..4] == RenderHead(pipeline, vertexBuffer, time)
      && (forall k | 0 <= k < |subs| :: t[4 + k] == DrawSubmesh(subs[k]))
      && t[|t| - 3..] == [EndEncoding, Present(drawable), Commit]
      && (forall k | 0 <= k < |t| - 3 :: IsEncoderCmd(t[k]))
      && CountDraws(t) == |subs|
  {
    var head := RenderHead(pipeline, vertexBuffer, time);
    var body := DrawsTrace(subs);
    var tail := [EndEncoding, Present(drawable), Commit];
    var t := RenderTrace(pipeline, vertexBuffer, time, subs, drawable);
    DrawsTraceShape(subs);
    assert t == head + body + tail;
    forall k | 0 <= k < |subs| ensures t[4 + k] == DrawSubmesh(subs[k]) {
      assert t[4 + k] == body[k];
    }
    forall k | 0 <= k < |t| - 3 ensures IsEncoderCmd(t[k]) {
      if k >= 4 {
        assert t[k] == body[k - 4];
      }
    }
    CountDrawsAppend(head + body, tail);
    CountDrawsAppend(head, body);
    CountDrawsNone(head);
    CountDrawsNone(tail);
    DrawsTraceCount(subs);
  }

  lemma {:induction false} DrawsTraceCount(subs: seq<MtkSubmesh>)
    ensures CountDraws(DrawsTrace(subs)) == |subs|
    decreases |subs|
  {
    if subs != [] {
      var init := subs[..|subs| - 1];
      DrawsTraceCount(init);
      CountDrawsAppend(DrawsTrace(init), [DrawSubmesh(subs[|subs| - 1])]);
      CountDrawsOne(DrawSubmesh(subs[|subs| - 1]));
    }
  }

  /** The encoder state every draw of a frame sees. */
  function RenderBindings(pipeline: Handle, vertexBuffer: Handle, time: nat): Bindings {
    NoBindings.(
      pipeline := Some(pipeline),
      vertexArgs := map[Index(0) := Buffer(vertexBuffer, 0), Index(1) := Bytes(TimeBytes(time), FloatStride)],
      fillMode := Lines)
  }

  function RenderDraws(b: Bindings, subs: seq<MtkSubmesh>): seq<DrawRecord> {
    seq(|subs|, k requires 0 <= k < |subs| => DrawRecord(b, CallOf(subs[k])))
  }

  lemma {:induction false} DrawsRun(subs: seq<MtkSubmesh>, s: BufferState)
    requires s.phase == Encoding
    ensures Run(s, DrawsTrace(subs)) == s.(draws := s.draws + RenderDraws(s.bindings, subs))
    decreases |subs|
  {
    if subs == [] {
      assert s.draws + RenderDraws(s.bindings, subs) == s.draws;
    } else {
      var init, last := subs[..|subs| - 1], subs[|subs| - 1];
      DrawsRun(init, s);
      RunAppend(s, DrawsTrace(init), [DrawSubmesh(last)]);
      RunOne(Run(s, DrawsTrace(init)), DrawSubmesh(last));
      assert RenderDraws(s.bindings, subs) == RenderDraws(s.bindings, init) + [DrawRecord(s.bindings, CallOf(last))];
    }
  }

  /**
   * Executing a frame on a fresh command buffer: every draw runs with the
   * pipeline, the vertex buffer at index 0, the time at index 1 and line fill
   * mode, one per submesh in order; the encoding ends without misuse, the
   * drawable is presented once and the buffer is committed.
   */
  lemma RenderReplay(pipeline: Handle, vertexBuffer: Handle, time: nat, subs: seq<MtkSubmesh>, drawable: Handle)
    ensures Run(Fresh, RenderTrace(pipeline, vertexBuffer, time, subs, drawable))
         == BufferState(RenderBindings(pipeline, vertexBuffer, time),
                        RenderDraws(RenderBindings(pipeline, vertexBuffer, time), subs),
                        Ended, [drawable], true, false)
  {
    var head := RenderHead(pipeline, vertexBuffer, time);
    var body := DrawsTrace(subs);
    var tail := [EndEncoding, Present(drawable), Commit];
    RunAppend(Fresh, head + body, tail);
    RunAppend(Fresh, head, body);
    assert head == [head[0], head[1], head[2]] + [head[3]];
    RunAppend(Fresh, [head[0], head[1], head[2]], [head[3]]);
    RunThree(Fresh, head[0], head[1], head[2]);
    var s := Run(Fresh, [head[0], head[1], head[2]]);
    RunOne(s, head[3]);
    var r0 := Run(Fresh, head);
    assert r0.bindings == RenderBindings(pipeline, vertexBuffer, time);
    DrawsRun(subs, r0);
    RunThree(Run(r0, body), EndEncoding, Present(drawable), Commit);
  }
}
