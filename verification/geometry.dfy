/**
 * The shared unit-circle geometry: a ring of segmentsPerCircle + 1 points
 * (the last one at angle 2*pi, closing the triangle fan), uploaded once as
 * a float list x0, y0, x1, y1, ... that every instance reuses.
 */
module Geometry {
  import opened Layout

  /**
   * One float of the ring: cosf (resp. sinf) of the angle
   * 2*pi * step / segments. The trigonometry is not modelled; the value is
   * named by the step and segment count it is computed from.
   */
  datatype RingFloat = CosStep(step: int, segments: int) | SinStep(step: int, segments: int)

  /** The floats the ring loop has pushed after its first n iterations. */
  function RingPrefix(segments: int, n: nat): (r: seq<RingFloat>)
    ensures |r| == 2 * n
  {
    if n == 0 then [] else RingPrefix(segments, n - 1) + [CosStep(n - 1, segments), SinStep(n - 1, segments)]
  }

  /**
   * The whole vertex list for `segments`. The loop runs for i = 0 ..
   * segments inclusive, so it makes no iteration at all for a negative
   * count; the count is never checked.
   */
  function VertexRing(segments: int): (r: seq<RingFloat>)
  {
    RingPrefix(segments, if segments >= 0 then segments + 1 else 0)
  }

  /** Point v of the ring is the pair (cos, sin) of step v, at floats 2*v and 2*v + 1. */
  lemma {:induction false} RingPrefixAt(segments: int, n: nat, v: nat)
    requires v < n
    ensures RingPrefix(segments, n)[2 * v] == CosStep(v, segments)
    ensures RingPrefix(segments, n)[2 * v + 1] == SinStep(v, segments)
  {
    if v < n - 1 {
      RingPrefixAt(segments, n - 1, v);
    }
  }

  /** The vertex loop of both constructors: push x = cos, y = sin for each i in [0, segments]. */
  method BuildVertexRing(segmentsPerCircle: int) returns (vertices: seq<RingFloat>)
    ensures vertices == VertexRing(segmentsPerCircle)
    ensures |vertices| == if segmentsPerCircle >= 0 then 2 * (segmentsPerCircle + 1) else 0
  {
    vertices := [];
    var i := 0;
    while i <= segmentsPerCircle
      invariant 0 <= i
      invariant segmentsPerCircle >= 0 ==> i <= segmentsPerCircle + 1
      invariant segmentsPerCircle < 0 ==> i == 0
      invariant vertices == RingPrefix(segmentsPerCircle, i)
    {
      vertices := vertices + [CosStep(i, segmentsPerCircle)];
      vertices := vertices + [SinStep(i, segmentsPerCircle)];
      i := i + 1;
    }
  }

  /**
   * The number of whole vertices in a float list laid out as LocalPosAttrib
   * (two floats per vertex): the count a draw over the ring should use.
   */
  function VerticesInRing(ring: seq<RingFloat>): (n: nat)
  {
    |ring| / LocalPosAttrib.stride
  }

  /**
   * With the vertex count taken as VerticesInRing, every vertex a draw reads
   * lies inside the ring and is point v of the circle, and one more vertex
   * would read past its end.
   */
  lemma RingVertexFetches(segments: int, v: nat)
    requires segments >= 0
    ensures VerticesInRing(VertexRing(segments)) == segments + 1
    ensures (VerticesInRing(VertexRing(segments)) + 1) * LocalPosAttrib.stride > |VertexRing(segments)|
    ensures v < VerticesInRing(VertexRing(segments)) ==>
              v * LocalPosAttrib.stride + LocalPosAttrib.size <= |VertexRing(segments)|
              && Fetch(VertexRing(segments), LocalPosAttrib, v) == [CosStep(v, segments), SinStep(v, segments)]
  {
    var ring := VertexRing(segments);
    if v < VerticesInRing(ring) {
      RingPrefixAt(segments, segments + 1, v);
      assert v * LocalPosAttrib.stride == 2 * v;
    }
  }

  /**
   * As written, the vertex count the constructors store is vertices.size(),
   * the number of floats. Drawing that many vertices reads vertex
   * 2*segments + 1, whose floats start at 4*segments + 2, past the end of a
   * ring of 2*segments + 2 floats.
   */
  lemma FloatCountOverreadsRing(segments: int)
    requires segments >= 0
    ensures |VertexRing(segments)| == 2 * (segments + 1)
    ensures |VertexRing(segments)| > VerticesInRing(VertexRing(segments))
    ensures (|VertexRing(segments)| - 1) * LocalPosAttrib.stride + LocalPosAttrib.size > |VertexRing(segments)|
  {
  }
}
