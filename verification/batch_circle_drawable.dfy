/**
 * BatchCircleDrawable, the display-only batch: it uploads the circles once
 * at construction, keeps no host copy and has no update path, so every
 * field is fixed by the constructor.
 */
module BatchCircleDrawableModel {
  import opened Wrappers
  import opened Circles
  import opened Layout
  import opened Geometry
  import opened Shader
  import opened Gl

  class BatchCircleDrawable {
    /** _numCircles. */
    const numCircles: int
    /** _segmentsPerCircle. */
    const segmentsPerCircle: int
    /** _numVertices: the size of the vertex list, in floats. */
    const numVertices: int
    /** _shaderProgram. */
    const program: Program
    /** The contents uploaded to _vbo: the shared ring. */
    const vertexBuffer: seq<RingFloat>
    /** The contents uploaded to the instance buffer, whose handle is not kept. */
    const instanceBuffer: seq<Slot>
    /** The attribute pointers recorded in the vertex array. */
    const attributes: seq<AttribPointer>
    /** The circles the batch was built from; only their encoding exists at run time. */
    ghost const circles: seq<Circle>

    /** The layout invariant the constructor establishes and nothing can change. */
    ghost predicate Valid()
    {
      numCircles == |circles|
      && instanceBuffer == EncodeAll(circles)
      && vertexBuffer == VertexRing(segmentsPerCircle)
      && numVertices == |vertexBuffer|
      && attributes == AttribLayout
    }

    /**
     * The body of the C++ constructor after the shaders have compiled:
     * record the counts, build and upload the ring and the instance data,
     * and set the attribute pointers.
     */
    constructor (initial: seq<Circle>, segmentsPerCircle: int, program: Program)
      ensures Valid()
      ensures circles == initial && numCircles == |initial|
      ensures this.segmentsPerCircle == segmentsPerCircle && this.program == program
      ensures |instanceBuffer| == 7 * |initial|
      ensures numVertices == if segmentsPerCircle >= 0 then 2 * (segmentsPerCircle + 1) else 0
    {
      numCircles := |initial|;
      this.segmentsPerCircle := segmentsPerCircle;
      this.program := program;
      circles := initial;
      var vertices := BuildVertexRing(segmentsPerCircle);
      numVertices := |vertices|;
      vertexBuffer := vertices;
      attributes := [LocalPosAttrib, CenterAttrib, RadiusAttrib, ColorAttrib];
      var instanceData := BuildInstanceData(initial);
      instanceBuffer := instanceData;
    }

    /**
     * The C++ constructor: a failed compile status of either stage throws,
     * so no drawable exists; a failed link status does not stop
     * construction.
     */
    static method Create(initial: seq<Circle>, segmentsPerCircle: int, status: ShaderStatus)
      returns (r: Result<BatchCircleDrawable, ShaderError>)
      ensures r.Failure? <==> !status.vertexCompiles || !status.fragmentCompiles
      ensures r.Failure? ==> r.error.what == CompileFailedMessage
      ensures r.Success? ==> fresh(r.value) && r.value.Valid()
      ensures r.Success? ==> r.value.circles == initial && r.value.segmentsPerCircle == segmentsPerCircle
      ensures r.Success? ==> r.value.program.linked == status.linkSucceeds
    {
      var built := BuildProgram(status);
      if built.Failure? {
        return Failure(built.error);
      }
      var drawable := new BatchCircleDrawable(initial, segmentsPerCircle, built.value);
      return Success(drawable);
    }

    /**
     * draw: one instanced triangle-fan draw with the stored vertex count
     * and one instance per circle; it reads only fields set at construction.
     */
    method Draw(target: RenderTarget) returns (calls: seq<GlCall>)
      ensures InstancedDraws(calls) == [DrawArraysInstanced(TriangleFan, 0, numVertices, numCircles)]
      ensures |calls| > 0 && calls[0] == UseProgram(program) && calls[|calls| - 1] == ResetGLStates
      ensures SetTransformUniform(target.width, target.height) in calls
    {
      calls := DrawCalls(program, numVertices, numCircles, target);
      DrawCallsIssueOneDraw(program, numVertices, numCircles, target);
    }

    /**
     * Reading attribute center, radius or colour of instance i at float
     * 7*i + offset gives back exactly the fields of circle i.
     */
    lemma InstanceReadsBack(i: nat)
      requires Valid()
      requires i < numCircles
      ensures 7 * i + 7 <= |instanceBuffer|
      ensures ReadInstance(instanceBuffer, i) == Some(circles[i])
    {
      ReadInstanceOfEncoded(circles, i);
    }
  }
}
