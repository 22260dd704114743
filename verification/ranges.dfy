/** Overwriting a contiguous range of a fixed-length sequence. */
module Ranges {
  /**
   * `s` with positions [start, start + |xs|) replaced by `xs`: what
   * std::copy(xs.begin(), xs.end(), s.begin() + start) leaves in `s`, and
   * what a sub-range write leaves in a buffer.
   */
  function Overwrite<T>(s: seq<T>, start: nat, xs: seq<T>): (r: seq<T>)
    requires start + |xs| <= |s|
    ensures |r| == |s|
    ensures forall j :: 0 <= j < |xs| ==> r[start + j] == xs[j]
    ensures forall k :: 0 <= k < |s| && !(start <= k < start + |xs|) ==> r[k] == s[k]
  {
    s[..start] + xs + s[start + |xs|..]
  }

  /** Replacing the elements one at a time, left to right, as repeated single updates do. */
  function SetEach<T>(s: seq<T>, start: nat, xs: seq<T>): (r: seq<T>)
    requires start + |xs| <= |s|
    decreases |xs|
  {
    if xs == [] then s else SetEach(s[start := xs[0]], start + 1, xs[1..])
  }

  /** Updating k positions one at a time ends in the same state as one range update. */
  lemma {:induction false} SetEachIsOverwrite<T>(s: seq<T>, start: nat, xs: seq<T>)
    requires start + |xs| <= |s|
    ensures SetEach(s, start, xs) == Overwrite(s, start, xs)
    decreases |xs|
  {
    if xs == [] {
      assert Overwrite(s, start, xs) == s;
    } else {
      SetEachIsOverwrite(s[start := xs[0]], start + 1, xs[1..]);
      var lhs := Overwrite(s[start := xs[0]], start + 1, xs[1..]);
      var rhs := Overwrite(s, start, xs);
      forall k | 0 <= k < |s|
        ensures lhs[k] == rhs[k]
      {
        if start < k < start + |xs| {
          assert lhs[(start + 1) + (k - start - 1)] == xs[1..][k - start - 1];
          assert rhs[start + (k - start)] == xs[k - start];
        } else if k == start {
          assert rhs[start + 0] == xs[0];
        }
      }
      assert lhs == rhs;
    }
  }

  /** Two writes to adjacent ranges leave what one write of the joined data leaves. */
  lemma OverwriteAdjacent<T>(s: seq<T>, start: nat, xs: seq<T>, ys: seq<T>)
    requires start + |xs| + |ys| <= |s|
    ensures Overwrite(Overwrite(s, start, xs), start + |xs|, ys) == Overwrite(s, start, xs + ys)
  {
    var lhs := Overwrite(Overwrite(s, start, xs), start + |xs|, ys);
    var rhs := Overwrite(s, start, xs + ys);
    forall k | 0 <= k < |s|
      ensures lhs[k] == rhs[k]
    {
      if start <= k < start + |xs| {
        assert rhs[start + (k - start)] == (xs + ys)[k - start];
      } else if start + |xs| <= k < start + |xs| + |ys| {
        assert lhs[(start + |xs|) + (k - start - |xs|)] == ys[k - start - |xs|];
        assert rhs[start + (k - start)] == (xs + ys)[k - start];
      }
    }
    assert lhs == rhs;
  }
}
