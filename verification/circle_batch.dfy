/**
 * CircleBatch, the mutable batch: a host copy of the circles, a GPU
 * instance buffer kept equal to their encoding, and range updates that
 * re-upload only the changed circles, with one sub-range write per call.
 */
module CircleBatchModel {
  import opened Wrappers
  import opened Circles
  import opened Ranges
  import opened Layout
  import opened Geometry
  import opened Shader
  import opened Gl

  class CircleBatch {
    /** _circles: the host copy, fixed in length, updated in place. */
    const circles: array<Circle>
    /** _sizePerInstance: floats per instance in the instance buffer. */
    const sizePerInstance: int
    /** _numVerticesForACircle: the size of the vertex list, in floats. */
    const numVerticesForACircle: int
    /** _shaderProgram. */
    const program: Program
    /** The contents uploaded to _vbo: the shared ring, never modified. */
    const vertexBuffer: seq<RingFloat>
    /** The attribute pointers recorded in the vertex array. */
    const attributes: seq<AttribPointer>
    /** The commands issued on _instanceVBO, oldest first. */
    var instanceWrites: seq<BufferCommand<Slot>>

    /** What the instance buffer holds: the effect of every command issued on it. */
    ghost function GpuContents(): seq<Slot>
      reads this
    {
      ApplyAll([], instanceWrites)
    }

    /** The GPU instance buffer always holds the encoding of the host copy. */
    ghost predicate Valid()
      reads this, circles
    {
      sizePerInstance == InstanceFloats
      && numVerticesForACircle == |vertexBuffer|
      && attributes == AttribLayout
      && GpuContents() == EncodeAll(circles[..])
    }

    /**
     * The body of the C++ constructor after the shaders have compiled: copy
     * the circles, build and upload the ring and the instance data, and set
     * the attribute pointers.
     */
    constructor (initial: seq<Circle>, segmentsPerCircle: int, program: Program)
      ensures Valid()
      ensures fresh(circles) && circles[..] == initial
      ensures sizePerInstance == 7
      ensures vertexBuffer == VertexRing(segmentsPerCircle)
      ensures numVerticesForACircle == |vertexBuffer|
      ensures numVerticesForACircle == if segmentsPerCircle >= 0 then 2 * (segmentsPerCircle + 1) else 0
      ensures this.program == program
      ensures attributes == AttribLayout
      ensures instanceWrites == [BufferData(EncodeAll(initial))]
    {
      circles := new Circle[|initial|](i requires 0 <= i < |initial| => initial[i]);
      sizePerInstance := 2 + 1 + 4;
      this.program := program;
      var vertices := BuildVertexRing(segmentsPerCircle);
      numVerticesForACircle := |vertices|;
      vertexBuffer := vertices;
      attributes := [LocalPosAttrib, CenterAttrib, RadiusAttrib, ColorAttrib];
      var instanceData := BuildInstanceData(initial);
      instanceWrites := [BufferData(instanceData)];
      new;
      assert circles[..] == initial;
      assert GpuContents() == ApplyAll(Apply([], instanceWrites[0]), instanceWrites[1..]);
      assert instanceWrites[1..] == [];
    }

    /**
     * The C++ constructor: a failed compile status of either stage throws,
     * so no batch exists; a failed link status does not stop construction.
     */
    static method Create(initial: seq<Circle>, segmentsPerCircle: int, status: ShaderStatus)
      returns (r: Result<CircleBatch, ShaderError>)
      ensures r.Failure? <==> !status.vertexCompiles || !status.fragmentCompiles
      ensures r.Failure? ==> r.error.what == CompileFailedMessage
      ensures r.Success? ==> fresh(r.value) && fresh(r.value.circles) && r.value.Valid()
      ensures r.Success? ==> r.value.circles[..] == initial && r.value.program.linked == status.linkSucceeds
      ensures r.Success? ==> r.value.vertexBuffer == VertexRing(segmentsPerCircle)
      ensures r.Success? ==>
                r.value.numVerticesForACircle == if segmentsPerCircle >= 0 then 2 * (segmentsPerCircle + 1) else 0
    {
      var built := BuildProgram(status);
      if built.Failure? {
        return Failure(built.error);
      }
      var batch := new CircleBatch(initial, segmentsPerCircle, built.value);
      return Success(batch);
    }

    /** numCircles: the length of the host copy, with no GPU access. */
    method NumCircles() returns (n: int)
      ensures n == circles.Length
    {
      n := circles.Length;
    }

    /**
     * modifyCircles: re-encode `cs`, write it with one sub-range write at
     * float offset start * 7, then copy `cs` over the host copy from
     * `start`. The source checks no bounds, so the range is a precondition.
     */
    method ModifyCircles(start: int, cs: seq<Circle>)
      requires Valid()
      requires 0 <= start && start + |cs| <= circles.Length
      modifies circles, this`instanceWrites
      ensures Valid()
      ensures circles[..] == Overwrite(old(circles[..]), start, cs)
      ensures forall j :: 0 <= j < |cs| ==> circles[start + j] == cs[j]
      ensures forall k :: 0 <= k < circles.Length && !(start <= k < start + |cs|) ==> circles[k] == old(circles[k])
      ensures instanceWrites == old(instanceWrites) + [BufferSubData(start * 7, 7 * |cs|, EncodeAll(cs))]
    {
      ghost var before := circles[..];
      var instanceData := BuildInstanceData(cs);
      assert start * sizePerInstance == start * 7;
      instanceWrites := instanceWrites + [BufferSubData(start * sizePerInstance, |instanceData|, instanceData)];
      // std::copy(circles.begin(), circles.end(), _circles.begin() + startIndex)
      for j := 0 to |cs|
        modifies circles
        invariant forall k :: 0 <= k < circles.Length ==>
                    circles[k] == if start <= k < start + j then cs[k - start] else before[k]
      {
        circles[start + j] := cs[j];
      }
      assert circles[..] == Overwrite(before, start, cs);
      RangeWriteKeepsEncoding(old(instanceWrites), before, start, cs);
    }

    /** modifyCircle: modifyCircles with a one-element list. */
    method ModifyCircle(circleIndex: int, circle: Circle)
      requires Valid()
      requires 0 <= circleIndex < circles.Length
      modifies circles, this`instanceWrites
      ensures Valid()
      ensures circles[..] == old(circles[..])[circleIndex := circle]
      ensures instanceWrites == old(instanceWrites) + [BufferSubData(circleIndex * 7, 7, Encode(circle))]
    {
      assert [circle][1..] == [];
      assert EncodeAll([circle]) == Encode(circle) + EncodeAll([]) == Encode(circle);
      ModifyCircles(circleIndex, [circle]);
      assert circles[..] == old(circles[..])[circleIndex := circle];
    }

    /**
     * What the header contrasts modifyCircles with: the same circles
     * updated by one modifyCircle call each. The host copy ends the same,
     * but one write per circle is issued instead of one in all.
     */
    method ModifyCirclesOneByOne(start: int, cs: seq<Circle>)
      requires Valid()
      requires 0 <= start && start + |cs| <= circles.Length
      modifies circles, this`instanceWrites
      ensures Valid()
      ensures circles[..] == Overwrite(old(circles[..]), start, cs)
      ensures instanceWrites == old(instanceWrites) + PerCircleWrites(start, cs)
    {
      ghost var h0 := circles[..];
      ghost var w0 := instanceWrites;
      for j := 0 to |cs|
        invariant Valid()
        invariant circles[..] == Overwrite(h0, start, cs[..j])
        invariant instanceWrites == w0 + PerCircleWrites(start, cs[..j])
      {
        ModifyCircle(start + j, cs[j]);
        assert cs[..j + 1] == cs[..j] + [cs[j]];
        PerCircleWritesSnoc(start, cs[..j], cs[j]);
        OverwriteOneMore(h0, start, cs[..j], cs[j]);
      }
      assert cs[..|cs|] == cs;
    }

    /** getCircle: read from the host copy only. The source checks no bounds. */
    method GetCircle(circleIndex: int) returns (c: Circle)
      requires 0 <= circleIndex < circles.Length
      ensures c == circles[circleIndex]
    {
      c := circles[circleIndex];
    }

    /** A circle written with modifyCircle is what getCircle then returns. */
    method ModifyCircleThenGet(circleIndex: int, circle: Circle) returns (c: Circle)
      requires Valid()
      requires 0 <= circleIndex < circles.Length
      modifies circles, this`instanceWrites
      ensures Valid()
      ensures c == circle
    {
      ModifyCircle(circleIndex, circle);
      c := GetCircle(circleIndex);
    }

    /**
     * draw: one instanced triangle-fan draw with the stored vertex count
     * and one instance per circle. It changes no state of the batch.
     */
    method Draw(target: RenderTarget) returns (calls: seq<GlCall>)
      ensures InstancedDraws(calls) == [DrawArraysInstanced(TriangleFan, 0, numVerticesForACircle, circles.Length)]
      ensures |calls| > 0 && calls[0] == UseProgram(program) && calls[|calls| - 1] == ResetGLStates
      ensures SetTransformUniform(target.width, target.height) in calls
    {
      calls := DrawCalls(program, numVerticesForACircle, circles.Length, target);
      DrawCallsIssueOneDraw(program, numVerticesForACircle, circles.Length, target);
    }

    /**
     * The host copy and the GPU buffer agree circle by circle: reading
     * instance i through the attribute pointers gives back circle i.
     */
    lemma GpuMatchesHost(i: nat)
      requires Valid()
      requires i < circles.Length
      ensures 7 * i + 7 <= |GpuContents()|
      ensures ReadInstance(GpuContents(), i) == Some(circles[i])
    {
      ReadInstanceOfEncoded(circles[..], i);
    }
  }

  /**
   * If a command log leaves the encoding of `host` in the buffer, then one
   * more sub-range write of the encoding of `cs` at float offset 7 * start
   * leaves the encoding of `host` with `cs` copied in at `start`.
   */
  lemma RangeWriteKeepsEncoding(log: seq<BufferCommand<Slot>>, host: seq<Circle>, start: nat, cs: seq<Circle>)
    requires ApplyAll([], log) == EncodeAll(host)
    requires start + |cs| <= |host|
    ensures ApplyAll([], log + [BufferSubData(start * 7, 7 * |cs|, EncodeAll(cs))]) == EncodeAll(Overwrite(host, start, cs))
  {
    var data := EncodeAll(cs);
    EncodeAllOverwrite(host, start, cs);
    ApplyAllSnoc([], log, BufferSubData(start * 7, 7 * |cs|, data));
    assert data[..7 * |cs|] == data;
  }

  /** The writes `|cs|` successive modifyCircle calls from `start` issue, one per circle. */
  function PerCircleWrites(start: nat, cs: seq<Circle>): (r: seq<BufferCommand<Slot>>)
    ensures |r| == |cs|
    decreases |cs|
  {
    if cs == [] then [] else [BufferSubData(7 * start, 7, Encode(cs[0]))] + PerCircleWrites(start + 1, cs[1..])
  }

  /** Setting the next position after an overwritten range extends the range by one. */
  lemma OverwriteOneMore(s: seq<Circle>, start: nat, done: seq<Circle>, c: Circle)
    requires start + |done| + 1 <= |s|
    ensures Overwrite(s, start, done)[start + |done| := c] == Overwrite(s, start, done + [c])
  {
    var h := Overwrite(s, start, done);
    OverwriteAdjacent(s, start, done, [c]);
    assert h[start + |done| := c] == Overwrite(h, start + |done|, [c]);
  }

  /** One more circle adds one more single-circle write, at the next offset. */
  lemma {:induction false} PerCircleWritesSnoc(start: nat, cs: seq<Circle>, c: Circle)
    ensures PerCircleWrites(start, cs + [c]) == PerCircleWrites(start, cs) + [BufferSubData(7 * (start + |cs|), 7, Encode(c))]
    decreases |cs|
  {
    if cs == [] {
      assert [c][1..] == [];
    } else {
      assert (cs + [c])[1..] == cs[1..] + [c];
      PerCircleWritesSnoc(start + 1, cs[1..], c);
    }
  }

  /**
   * Updating k circles one at a time issues k sub-range writes, where one
   * modifyCircles call issues one; both leave the same host copy and the
   * same GPU buffer.
   */
  lemma {:induction false} PerCircleUpdatesMatchRangeUpdate(host: seq<Circle>, gpu: seq<Slot>, start: nat, cs: seq<Circle>)
    requires start + |cs| <= |host|
    requires |gpu| == 7 * |host|
    ensures SetEach(host, start, cs) == Overwrite(host, start, cs)
    ensures ApplyAll(gpu, PerCircleWrites(start, cs)) == Apply(gpu, BufferSubData(7 * start, 7 * |cs|, EncodeAll(cs)))
    decreases |cs|
  {
    SetEachIsOverwrite(host, start, cs);
    var whole := EncodeAll(cs);
    assert whole[..7 * |cs|] == whole;
    if cs == [] {
      assert Overwrite(gpu, 7 * start, []) == gpu;
    } else {
      var first := Encode(cs[0]);
      var gpu1 := Apply(gpu, BufferSubData(7 * start, 7, first));
      assert first[..7] == first;
      assert gpu1 == Overwrite(gpu, 7 * start, first);
      PerCircleUpdatesMatchRangeUpdate(host[start := cs[0]], gpu1, start + 1, cs[1..]);
      var rest := EncodeAll(cs[1..]);
      assert rest[..7 * |cs[1..]|] == rest;
      OverwriteAdjacent(gpu, 7 * start, first, rest);
    }
  }
}
