/**
 * The per-instance layout of the instance buffer: each circle occupies
 * InstanceFloats = 2 + 1 + 4 consecutive float slots, in the order
 * x, y, radius, r, g, b, a, and the vertex shader reads them back through
 * three instanced attribute pointers (center, radius, color).
 */
module Layout {
  import opened Wrappers
  import opened Circles
  import opened Ranges

  /**
   * One float slot of a GPU buffer. Positions and radii are copied
   * unchanged; a colour channel c is stored as the float c / 255.0f, which
   * is distinct for each of the 256 channel values, so it is kept as the
   * channel it came from.
   */
  datatype Slot = Copied(value: Float32) | Normalized(channel: Byte)

  /** Floats per instance: 2 for position, 1 for radius, 4 for colour (rgba). */
  const InstanceFloats: nat := 7

  /** The seven slots one circle contributes to the instance data. */
  function Encode(c: Circle): (r: seq<Slot>)
    ensures |r| == InstanceFloats
  {
    [Copied(c.position.x), Copied(c.position.y), Copied(c.radius),
     Normalized(c.color.r), Normalized(c.color.g), Normalized(c.color.b), Normalized(c.color.a)]
  }

  /** The instance data for a list of circles: their encodings, in order. */
  function EncodeAll(cs: seq<Circle>): (r: seq<Slot>)
    ensures |r| == 7 * |cs|
  {
    if cs == [] then [] else Encode(cs[0]) + EncodeAll(cs[1..])
  }

  lemma {:induction false} EncodeAllAppend(xs: seq<Circle>, ys: seq<Circle>)
    ensures EncodeAll(xs + ys) == EncodeAll(xs) + EncodeAll(ys)
  {
    if xs == [] {
      assert xs + ys == ys;
    } else {
      assert (xs + ys)[1..] == xs[1..] + ys;
      EncodeAllAppend(xs[1..], ys);
    }
  }

  /** The instance data of a prefix or suffix is the matching slice of the whole. */
  lemma EncodeAllSplit(cs: seq<Circle>, a: nat)
    requires a <= |cs|
    ensures EncodeAll(cs[..a]) == EncodeAll(cs)[..7 * a]
    ensures EncodeAll(cs[a..]) == EncodeAll(cs)[7 * a..]
  {
    assert cs == cs[..a] + cs[a..];
    EncodeAllAppend(cs[..a], cs[a..]);
  }

  /** Circle i occupies exactly slots [7*i, 7*i + 7), field k at slot 7*i + k. */
  lemma EncodeAllAt(cs: seq<Circle>, i: nat)
    requires i < |cs|
    ensures EncodeAll(cs)[7 * i .. 7 * i + 7] == Encode(cs[i])
  {
    EncodeAllSplit(cs, i);
    var tail := cs[i..];
    assert tail[0] == cs[i];
    var et := EncodeAll(tail);
    assert et == Encode(cs[i]) + EncodeAll(tail[1..]);
    assert et[..7] == Encode(cs[i]);
    var whole := EncodeAll(cs);
    assert whole[7 * i..] == et;
    forall k | 0 <= k < 7
      ensures whole[7 * i .. 7 * i + 7][k] == et[k]
    {
      assert whole[7 * i..][k] == whole[7 * i + k];
    }
  }

  /**
   * Re-encoding a range of circles and writing it at float offset 7*start
   * gives the encoding of the updated circle list: the invariant that keeps
   * the GPU buffer equal to the encoding of the host copy.
   */
  lemma EncodeAllOverwrite(s: seq<Circle>, start: nat, cs: seq<Circle>)
    requires start + |cs| <= |s|
    ensures 7 * start + |EncodeAll(cs)| <= |EncodeAll(s)|
    ensures EncodeAll(Overwrite(s, start, cs)) == Overwrite(EncodeAll(s), 7 * start, EncodeAll(cs))
  {
    var rest := s[start + |cs|..];
    assert Overwrite(s, start, cs) == s[..start] + (cs + rest);
    EncodeAllAppend(s[..start], cs + rest);
    EncodeAllAppend(cs, rest);
    EncodeAllSplit(s, start);
    EncodeAllSplit(s, start + |cs|);
  }

  /**
   * Builds the instance data the way the constructors and modifyCircles do:
   * one pass over the circles, pushing seven floats per circle.
   */
  method BuildInstanceData(circles: seq<Circle>) returns (instanceData: seq<Slot>)
    ensures instanceData == EncodeAll(circles)
  {
    instanceData := [];
    for i := 0 to |circles|
      invariant instanceData == EncodeAll(circles[..i])
    {
      var c := circles[i];
      instanceData := instanceData + [Copied(c.position.x)];
      instanceData := instanceData + [Copied(c.position.y)];
      instanceData := instanceData + [Copied(c.radius)];
      instanceData := instanceData + [Normalized(c.color.r)];
      instanceData := instanceData + [Normalized(c.color.g)];
      instanceData := instanceData + [Normalized(c.color.b)];
      instanceData := instanceData + [Normalized(c.color.a)];
      assert circles[..i + 1] == circles[..i] + [c];
      EncodeAllAppend(circles[..i], [c]);
    }
    assert circles[..|circles|] == circles;
  }

  /**
   * A glVertexAttribPointer setting: `size` floats read at float `offset`
   * within each element of `stride` floats (the source passes stride and
   * offset in bytes, these times sizeof(GLfloat)); `divisor` 1 makes the
   * attribute advance once per instance instead of once per vertex.
   */
  datatype AttribPointer = AttribPointer(location: nat, size: nat, stride: nat, offset: nat, divisor: nat)

  /** Location 0: the shared unit-circle vertex, two floats per vertex. */
  const LocalPosAttrib := AttribPointer(0, 2, 2, 0, 0)
  /** Location 1: the circle's center, floats 0..1 of its instance. */
  const CenterAttrib := AttribPointer(1, 2, 7, 0, 1)
  /** Location 2: the radius, float 2 of its instance. */
  const RadiusAttrib := AttribPointer(2, 1, 7, 2, 1)
  /** Location 3: the normalised colour, floats 3..6 of its instance. */
  const ColorAttrib := AttribPointer(3, 4, 7, 3, 1)

  /** The attribute pointers both constructors set, in the order they set them. */
  const AttribLayout := [LocalPosAttrib, CenterAttrib, RadiusAttrib, ColorAttrib]

  /** The floats attribute `attrib` reads for element `i` of `buffer`. */
  function Fetch<T>(buffer: seq<T>, attrib: AttribPointer, i: nat): (r: seq<T>)
    requires i * attrib.stride + attrib.offset + attrib.size <= |buffer|
  {
    buffer[i * attrib.stride + attrib.offset .. i * attrib.stride + attrib.offset + attrib.size]
  }

  /**
   * The circle the vertex shader sees for instance `i`: center, radius and
   * colour read through their attribute pointers, or None when the slots
   * there are not of the kind the layout puts there.
   */
  function ReadInstance(buffer: seq<Slot>, i: nat): (r: Option<Circle>)
    requires 7 * i + 7 <= |buffer|
  {
    var center := Fetch(buffer, CenterAttrib, i);
    var radius := Fetch(buffer, RadiusAttrib, i);
    var color := Fetch(buffer, ColorAttrib, i);
    if center[0].Copied? && center[1].Copied? && radius[0].Copied?
       && color[0].Normalized? && color[1].Normalized? && color[2].Normalized? && color[3].Normalized?
    then
      Some(Circle(Vector2f(center[0].value, center[1].value), radius[0].value,
                  Color(color[0].channel, color[1].channel, color[2].channel, color[3].channel)))
    else
      None
  }

  /** An instanced attribute of instance i reads within floats [7*i, 7*i + 7). */
  lemma FetchInstance<T>(buffer: seq<T>, attrib: AttribPointer, i: nat)
    requires attrib.stride == 7 && attrib.offset + attrib.size <= 7
    requires 7 * i + 7 <= |buffer|
    ensures i * attrib.stride + attrib.offset + attrib.size <= |buffer|
    ensures Fetch(buffer, attrib, i) == buffer[7 * i .. 7 * i + 7][attrib.offset .. attrib.offset + attrib.size]
  {
    assert i * attrib.stride == 7 * i;
    var lhs := Fetch(buffer, attrib, i);
    var rhs := buffer[7 * i .. 7 * i + 7][attrib.offset .. attrib.offset + attrib.size];
    assert |lhs| == |rhs| == attrib.size;
    forall k | 0 <= k < attrib.size
      ensures lhs[k] == rhs[k]
    {
      assert lhs[k] == buffer[7 * i + attrib.offset + k];
      assert rhs[k] == buffer[7 * i + attrib.offset + k];
    }
  }

  /**
   * The three instanced attributes of instance `i` tile its seven floats:
   * center, then radius, then colour, with no gap and no overlap.
   */
  lemma InstanceAttributesTile<T>(buffer: seq<T>, i: nat)
    requires 7 * i + 7 <= |buffer|
    ensures Fetch(buffer, CenterAttrib, i) + Fetch(buffer, RadiusAttrib, i) + Fetch(buffer, ColorAttrib, i)
            == buffer[7 * i .. 7 * i + 7]
  {
  }

  /**
   * Reading instance i of the encoded data through the attribute pointers
   * recovers exactly circle i: the layout and the encoding agree.
   */
  lemma ReadInstanceOfEncoded(cs: seq<Circle>, i: nat)
    requires i < |cs|
    ensures 7 * i + 7 <= |EncodeAll(cs)|
    ensures ReadInstance(EncodeAll(cs), i) == Some(cs[i])
  {
    var buffer := EncodeAll(cs);
    EncodeAllAt(cs, i);
    var e := buffer[7 * i .. 7 * i + 7];
    assert e == Encode(cs[i]);
    FetchInstance(buffer, CenterAttrib, i);
    FetchInstance(buffer, RadiusAttrib, i);
    FetchInstance(buffer, ColorAttrib, i);
    assert e == [e[0], e[1], e[2], e[3], e[4], e[5], e[6]];
  }
}
