/**
 * The observable effect of the OpenGL calls the batch makes: the commands
 * issued on the instance buffer, what those commands leave in it, and the
 * calls one draw makes.
 */
module Gl {
  import opened Ranges
  import opened Shader

  /**
   * A command on a buffer object, with offsets and sizes counted in floats
   * (the source passes byte counts, these times sizeof(GLfloat)).
   * BufferData (glBufferData) replaces the whole store; BufferSubData
   * (glBufferSubData) overwrites `size` floats starting at `offset`.
   */
  datatype BufferCommand<T> =
    | BufferData(data: seq<T>)
    | BufferSubData(offset: int, size: int, data: seq<T>)

  /**
   * The effect of one command. A sub-range write that does not fit in the
   * current store is rejected by GL with GL_INVALID_VALUE and changes
   * nothing.
   */
  function Apply<T>(buffer: seq<T>, cmd: BufferCommand<T>): (r: seq<T>)
  {
    match cmd
    case BufferData(data) => data
    case BufferSubData(offset, size, data) =>
      if 0 <= offset && 0 <= size <= |data| && offset + size <= |buffer|
      then Overwrite(buffer, offset, data[..size])
      else buffer
  }

  /** The contents after issuing `cmds`, in order, on a buffer holding `buffer`. */
  function ApplyAll<T>(buffer: seq<T>, cmds: seq<BufferCommand<T>>): (r: seq<T>)
    decreases |cmds|
  {
    if cmds == [] then buffer else ApplyAll(Apply(buffer, cmds[0]), cmds[1..])
  }

  /** Issuing one more command applies it to what the earlier ones left. */
  lemma {:induction false} ApplyAllSnoc<T>(buffer: seq<T>, cmds: seq<BufferCommand<T>>, cmd: BufferCommand<T>)
    ensures ApplyAll(buffer, cmds + [cmd]) == Apply(ApplyAll(buffer, cmds), cmd)
    decreases |cmds|
  {
    if cmds == [] {
      assert cmds + [cmd] == [cmd];
      assert [cmd][1..] == [];
    } else {
      assert (cmds + [cmd])[1..] == cmds[1..] + [cmd];
      ApplyAllSnoc(Apply(buffer, cmds[0]), cmds[1..], cmd);
    }
  }

  /** The size reported by the render target (sf::RenderTarget::getSize). */
  datatype RenderTarget = RenderTarget(width: nat, height: nat)

  datatype Primitive = TriangleFan

  /** The GL and SFML calls a draw makes, in the order it makes them. */
  datatype GlCall =
    | UseProgram(program: Program)
    | BindVertexArray
    | SetTransformUniform(targetWidth: nat, targetHeight: nat)  // scale 2/width, 2/height, offset (-1, -1)
    | DrawArraysInstanced(mode: Primitive, first: int, count: int, instanceCount: int)
    | UnbindVertexArray
    | ResetGLStates

  /** The instanced draw calls among `calls`, in order. */
  function InstancedDraws(calls: seq<GlCall>): (r: seq<GlCall>)
    ensures forall c :: c in r ==> c.DrawArraysInstanced? && c in calls
  {
    if calls == [] then []
    else (if calls[0].DrawArraysInstanced? then [calls[0]] else []) + InstancedDraws(calls[1..])
  }

  /**
   * One draw of a batch: bind the program and the vertex array, upload the
   * pixel-to-clip transform for the target, draw the ring `vertexCount`
   * times per instance for `instanceCount` instances, unbind, and let SFML
   * reset its GL state.
   */
  function DrawCalls(program: Program, vertexCount: int, instanceCount: int, target: RenderTarget): (r: seq<GlCall>)
  {
    [UseProgram(program), BindVertexArray, SetTransformUniform(target.width, target.height),
     DrawArraysInstanced(TriangleFan, 0, vertexCount, instanceCount), UnbindVertexArray, ResetGLStates]
  }

  /**
   * A draw issues exactly one instanced draw call, whatever the number of
   * instances; it starts by using the batch's program and ends by resetting
   * SFML's GL state.
   */
  lemma DrawCallsIssueOneDraw(program: Program, vertexCount: int, instanceCount: int, target: RenderTarget)
    ensures InstancedDraws(DrawCalls(program, vertexCount, instanceCount, target))
            == [DrawArraysInstanced(TriangleFan, 0, vertexCount, instanceCount)]
    ensures DrawCalls(program, vertexCount, instanceCount, target)[0] == UseProgram(program)
    ensures DrawCalls(program, vertexCount, instanceCount, target)[5] == ResetGLStates
    ensures SetTransformUniform(target.width, target.height) in DrawCalls(program, vertexCount, instanceCount, target)
  {
    var calls := DrawCalls(program, vertexCount, instanceCount, target);
    assert InstancedDraws(calls[5..]) == [];
    assert InstancedDraws(calls[4..]) == [];
    assert InstancedDraws(calls[3..]) == [calls[3]];
    assert InstancedDraws(calls[2..]) == [calls[3]];
    assert InstancedDraws(calls[1..]) == [calls[3]];
  }
}
