/**
 * The part of Metal the renderers talk to, as values: opaque object handles,
 * the commands a frame records, and a reference semantics for a command
 * buffer with one render command encoder. The semantics keeps the encoder's
 * argument tables and records every indexed draw together with the bindings
 * in effect when it was issued; it flags any use of the encoder after
 * `endEncoding`, a second `endEncoding`, and a `present` or `commit` out of
 * order.
 */
module Metal {
  import opened ShaderTypes

  datatype Option<T> = None | Some(value: T)

  /** An opaque Metal object: a buffer, texture, pipeline, depth-stencil state or drawable. */
  datatype Handle = Handle(id: nat)

  datatype IndexType = UInt16 | UInt32

  /** A buffer together with a byte offset into it. */
  datatype MeshBuffer = MeshBuffer(buffer: Handle, offset: nat)

  /** Index range of one submesh, as the mesh importer supplies it. */
  datatype MtkSubmesh = MtkSubmesh(indexCount: nat, indexType: IndexType, indexBuffer: MeshBuffer)

  /** A GPU mesh: the buffer at vertex-buffer index 0 and the submeshes. */
  datatype MtkMesh = MtkMesh(vertexBuffer: Handle, submeshes: seq<MtkSubmesh>)

  /**
   * An argument-table index. The named ones are the shader-interface
   * constants; `Index(n)` is a literal index.
   */
  datatype Slot = Index(n: nat) | BufferIndexUniforms | BufferIndexLight | BufferFragUniforms | BaseColorTexture

  /** What `setVertexBytes` / `setFragmentBytes` copy into the command stream. */
  datatype Payload =
    | LightBytes(lights: seq<Light>)
    | FragmentUniformBytes(fragmentUniforms: FragmentUniforms)
    | UniformBytes(uniforms: Uniforms)
    | TimeBytes(step: nat)  // the value sin(_time) after `step` frames

  datatype FillMode = Fill | Lines

  datatype Cmd =
    | SetDepthStencilState(state: Handle)
    | SetRenderPipelineState(pipeline: Handle)
    | SetVertexBytes(vertexBytes: Payload, vertexLength: nat, vertexIndex: Slot)
    | SetVertexBuffer(buffer: Handle, offset: nat, bufferIndex: Slot)
    | SetFragmentBytes(fragmentBytes: Payload, fragmentLength: nat, fragmentIndex: Slot)
    | SetFragmentTexture(texture: Option<Handle>, textureIndex: Slot)
    | SetTriangleFillMode(mode: FillMode)
    | DrawIndexedTriangles(indexCount: nat, indexType: IndexType, indexBuffer: Handle, indexBufferOffset: nat)
    | EndEncoding
    | Present(drawable: Handle)
    | Commit

  /** `drawIndexedPrimitives(type: .triangle, …)` for one submesh. */
  function DrawSubmesh(s: MtkSubmesh): (c: Cmd)
    ensures c.DrawIndexedTriangles?
  {
    DrawIndexedTriangles(s.indexCount, s.indexType, s.indexBuffer.buffer, s.indexBuffer.offset)
  }

  // ---------------------------------------------------------------------
  // Reference semantics of a command buffer and its render encoder
  // ---------------------------------------------------------------------

  /** An entry of a buffer argument table. */
  datatype Arg = Bytes(payload: Payload, length: nat) | Buffer(handle: Handle, offset: nat)

  /** The encoder's current state: argument tables and render state. */
  datatype Bindings = Bindings(
    depthStencil: Option<Handle>,
    pipeline: Option<Handle>,
    vertexArgs: map<Slot, Arg>,
    fragmentArgs: map<Slot, Arg>,
    fragmentTextures: map<Slot, Option<Handle>>,
    fillMode: FillMode)

  const NoBindings: Bindings := Bindings(None, None, map[], map[], map[], Fill)

  /** The parameters of one indexed draw. */
  datatype DrawCall = DrawCall(indexCount: nat, indexType: IndexType, indexBuffer: Handle, indexBufferOffset: nat)

  function CallOf(s: MtkSubmesh): DrawCall {
    DrawCall(s.indexCount, s.indexType, s.indexBuffer.buffer, s.indexBuffer.offset)
  }

  /** A draw as the GPU will execute it: with the bindings in effect at the time. */
  datatype DrawRecord = DrawRecord(bindings: Bindings, call: DrawCall)

  datatype Phase = Encoding | Ended

  datatype BufferState = BufferState(
    bindings: Bindings,
    draws: seq<DrawRecord>,
    phase: Phase,
    presented: seq<Handle>,
    committed: bool,
    misuse: bool)

  /** A fresh command buffer with an active render encoder. */
  const Fresh: BufferState := BufferState(NoBindings, [], Encoding, [], false, false)

  predicate IsEncoderCmd(c: Cmd) {
    !c.EndEncoding? && !c.Present? && !c.Commit?
  }

  /** The effect of one encoder command on an active encoder. */
  function Encode(s: BufferState, c: Cmd): BufferState {
    var b := s.bindings;
    match c
    case SetDepthStencilState(h) => s.(bindings := b.(depthStencil := Some(h)))
    case SetRenderPipelineState(p) => s.(bindings := b.(pipeline := Some(p)))
    case SetVertexBytes(p, n, i) => s.(bindings := b.(vertexArgs := b.vertexArgs[i := Bytes(p, n)]))
    case SetVertexBuffer(h, o, i) => s.(bindings := b.(vertexArgs := b.vertexArgs[i := Buffer(h, o)]))
    case SetFragmentBytes(p, n, i) => s.(bindings := b.(fragmentArgs := b.fragmentArgs[i := Bytes(p, n)]))
    case SetFragmentTexture(t, i) => s.(bindings := b.(fragmentTextures := b.fragmentTextures[i := t]))
    case SetTriangleFillMode(m) => s.(bindings := b.(fillMode := m))
    case DrawIndexedTriangles(n, t, ib, o) => s.(draws := s.draws + [DrawRecord(b, DrawCall(n, t, ib, o))])
    case _ => s
  }

  function Step(s: BufferState, c: Cmd): BufferState {
    if c.EndEncoding? then
      if s.phase == Ended then s.(misuse := true) else s.(phase := Ended)
    else if c.Present? then
      if s.phase != Ended || s.committed then s.(misuse := true) else s.(presented := s.presented + [c.drawable])
    else if c.Commit? then
      if s.phase != Ended || s.committed then s.(misuse := true) else s.(committed := true)
    else if s.phase == Ended then s.(misuse := true)
    else Encode(s, c)
  }

  /** The state after executing `cmds` in order from `s`. */
  function Run(s: BufferState, cmds: seq<Cmd>): BufferState
    decreases |cmds|
  {
    if cmds == [] then s else Run(Step(s, cmds[0]), cmds[1..])
  }

  lemma {:induction false} RunAppend(s: BufferState, a: seq<Cmd>, b: seq<Cmd>)
    ensures Run(s, a + b) == Run(Run(s, a), b)
    decreases |a|
  {
    if a == [] {
      assert a + b == b;
    } else {
      assert (a + b)[0] == a[0];
      assert (a + b)[1..] == a[1..] + b;
      RunAppend(Step(s, a[0]), a[1..], b);
    }
  }

  lemma RunOne(s: BufferState, a: Cmd)
    ensures Run(s, [a]) == Step(s, a)
  {
  }

  lemma RunTwo(s: BufferState, a: Cmd, b: Cmd)
    ensures Run(s, [a, b]) == Step(Step(s, a), b)
  {
    assert [a, b][1..] == [b];
    RunOne(Step(s, a), b);
  }

  lemma RunThree(s: BufferState, a: Cmd, b: Cmd, c: Cmd)
    ensures Run(s, [a, b, c]) == Step(Step(Step(s, a), b), c)
  {
    assert [a, b, c][1..] == [b, c];
    RunTwo(Step(s, a), b, c);
  }

  /** The number of indexed draws among `cmds`. */
  function CountDraws(cmds: seq<Cmd>): nat
    decreases |cmds|
  {
    if cmds == [] then 0
    else CountDraws(cmds[..|cmds| - 1]) + (if cmds[|cmds| - 1].DrawIndexedTriangles? then 1 else 0)
  }

  lemma {:induction false} CountDrawsAppend(a: seq<Cmd>, b: seq<Cmd>)
    ensures CountDraws(a + b) == CountDraws(a) + CountDraws(b)
    decreases |b|
  {
    if b == [] {
      assert a + b == a;
    } else {
      var b' := b[..|b| - 1];
      assert (a + b)[..|a + b| - 1] == a + b';
      CountDrawsAppend(a, b');
    }
  }

  lemma CountDrawsOne(c: Cmd)
    ensures CountDraws([c]) == if c.DrawIndexedTriangles? then 1 else 0
  {
  }

  lemma {:induction false} CountDrawsNone(cmds: seq<Cmd>)
    requires forall k | 0 <= k < |cmds| :: !cmds[k].DrawIndexedTriangles?
    ensures CountDraws(cmds) == 0
    decreases |cmds|
  {
    if cmds != [] {
      CountDrawsNone(cmds[..|cmds| - 1]);
    }
  }
}
