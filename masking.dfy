/**
 * Element-wise array operations the experiment scripts use on label vectors:
 * boolean-mask selection (`xs[mask]`), the positions a mask selects (the
 * reference definition that selection gathers from), and subtraction of a
 * scalar (`xs - d`).
 */
module Masking {

  /** Number of true entries of a mask. */
  function Count(m: seq<bool>): (n: nat)
    ensures n <= |m|
  {
    if |m| == 0 then 0 else (if m[0] then 1 else 0) + Count(m[1..])
  }

  /** Boolean-mask selection `xs[m]`: the entries of `xs` where `m` is true, in order. */
  function Compress<T>(xs: seq<T>, m: seq<bool>): (r: seq<T>)
    requires |xs| == |m|
    ensures |r| == Count(m)
  {
    if |xs| == 0 then [] else (if m[0] then [xs[0]] else []) + Compress(xs[1..], m[1..])
  }

  /** Adds `d` to every entry of an index sequence. */
  function Offset(p: seq<nat>, d: nat): (r: seq<nat>)
    ensures |r| == |p|
    ensures forall k :: 0 <= k < |p| ==> r[k] == p[k] + d
  {
    seq(|p|, k requires 0 <= k < |p| => p[k] + d)
  }

  /** The positions where the mask is true, in ascending order: the indices `xs[m]` gathers. */
  function Positions(m: seq<bool>): (p: seq<nat>)
    ensures |p| == Count(m)
    ensures forall k :: 0 <= k < |p| ==> p[k] < |m| && m[p[k]]
    ensures forall k, l :: 0 <= k < l < |p| ==> p[k] < p[l]
  {
    if |m| == 0 then [] else (if m[0] then [0] else []) + Offset(Positions(m[1..]), 1)
  }

  /** Every position where the mask is true is listed by Positions: with the
      ensures of Positions, it lists those positions exactly, each once, in order. */
  lemma {:induction false} PositionsComplete(m: seq<bool>, i: nat)
    requires i < |m| && m[i]
    ensures i in Positions(m)
  {
    var k := PositionIndex(m, i);
  }

  /** Where in Positions(m) a true position `i` is listed. */
  lemma {:induction false} PositionIndex(m: seq<bool>, i: nat) returns (k: nat)
    requires i < |m| && m[i]
    ensures k < |Positions(m)| && Positions(m)[k] == i
  {
    var head: seq<nat> := if m[0] then [0] else [];
    var rest := Positions(m[1..]);
    assert Positions(m) == head + Offset(rest, 1);
    if i == 0 {
      k := 0;
    } else {
      var k' := PositionIndex(m[1..], i - 1);
      k := |head| + k';
      assert Offset(rest, 1)[k'] == i;
    }
  }

  /** Mask selection is the gather of the entries at the positions the mask selects. */
  lemma {:induction false} CompressIsGather<T>(xs: seq<T>, m: seq<bool>)
    requires |xs| == |m|
    ensures |Compress(xs, m)| == |Positions(m)|
    ensures forall k :: 0 <= k < |Positions(m)| ==> Compress(xs, m)[k] == xs[Positions(m)[k]]
  {
    if |xs| > 0 {
      CompressIsGather(xs[1..], m[1..]);
      var p, rest := Positions(m), Positions(m[1..]);
      var tail := Compress(xs[1..], m[1..]);
      var head := if m[0] then [xs[0]] else [];
      var shift := if m[0] then 1 else 0;
      assert Compress(xs, m) == head + tail;
      assert p == (if m[0] then [0] else []) + Offset(rest, 1);
      forall k | shift <= k < |p|
        ensures Compress(xs, m)[k] == xs[p[k]]
      {
        assert p[k] == rest[k - shift] + 1;
        assert tail[k - shift] == xs[1..][rest[k - shift]];
      }
    }
  }

  /** An all-true mask selects everything. */
  lemma {:induction false} CompressAll<T>(xs: seq<T>, m: seq<bool>)
    requires |xs| == |m|
    requires forall i :: 0 <= i < |m| ==> m[i]
    ensures Compress(xs, m) == xs
  {
    if |xs| > 0 {
      CompressAll(xs[1..], m[1..]);
    }
  }

  /** Point-wise conjunction of two masks of equal length. */
  function And(a: seq<bool>, b: seq<bool>): (r: seq<bool>)
    requires |a| == |b|
    ensures |r| == |a|
    ensures forall i :: 0 <= i < |a| ==> (r[i] <==> a[i] && b[i])
  {
    seq(|a|, i requires 0 <= i < |a| => a[i] && b[i])
  }

  /** Masking twice, the second mask being indexed by the kept entries, is masking once
      by the conjunction. */
  lemma {:induction false} CompressCompose<T>(xs: seq<T>, m: seq<bool>, b: seq<bool>)
    requires |xs| == |m| == |b|
    ensures Compress(Compress(xs, m), Compress(b, m)) == Compress(xs, And(m, b))
  {
    if |xs| > 0 {
      CompressCompose(xs[1..], m[1..], b[1..]);
      assert And(m, b)[1..] == And(m[1..], b[1..]);
      if m[0] {
        assert Compress(xs, m) == [xs[0]] + Compress(xs[1..], m[1..]);
        assert Compress(b, m) == [b[0]] + Compress(b[1..], m[1..]);
        assert ([xs[0]] + Compress(xs[1..], m[1..]))[1..] == Compress(xs[1..], m[1..]);
        assert ([b[0]] + Compress(b[1..], m[1..]))[1..] == Compress(b[1..], m[1..]);
      } else {
        assert Compress(xs, m) == Compress(xs[1..], m[1..]);
        assert Compress(b, m) == Compress(b[1..], m[1..]);
      }
    }
  }

  /** Element-wise subtraction of a scalar, `xs - d`. */
  function Minus(xs: seq<int>, d: int): (r: seq<int>)
    ensures |r| == |xs|
    ensures forall i :: 0 <= i < |xs| ==> r[i] == xs[i] - d
  {
    seq(|xs|, i requires 0 <= i < |xs| => xs[i] - d)
  }

  /** Subtracting before or after masking gives the same labels. */
  lemma {:induction false} CompressMinus(xs: seq<int>, m: seq<bool>, d: int)
    requires |xs| == |m|
    ensures Compress(Minus(xs, d), m) == Minus(Compress(xs, m), d)
  {
    if |xs| > 0 {
      CompressMinus(xs[1..], m[1..], d);
      assert Minus(xs, d)[1..] == Minus(xs[1..], d);
    }
  }
}
