/** Componentwise 3-vector arithmetic and the flattening of a list of arrays,
    which is all the numeric machinery the observation builder needs. */
module Vectors {

  /** A 3-vector: a position, a velocity or a direction. */
  type Vec3 = v: seq<real> | |v| == 3 witness [0.0, 0.0, 0.0]

  /** Componentwise difference `a - b`. */
  function Sub(a: Vec3, b: Vec3): (r: Vec3)
    ensures forall k :: 0 <= k < 3 ==> r[k] == a[k] - b[k]
  {
    [a[0] - b[0], a[1] - b[1], a[2] - b[2]]
  }

  /** Every component of `a` multiplied by the coefficient `c`. */
  function Scale(a: Vec3, c: real): (r: Vec3)
    ensures forall k :: 0 <= k < 3 ==> r[k] == a[k] * c
  {
    [a[0] * c, a[1] * c, a[2] * c]
  }

  /** Concatenation of a list of arrays, in list order. */
  function Flatten<T>(parts: seq<seq<T>>): seq<T>
  {
    if |parts| == 0 then [] else parts[0] + Flatten(parts[1..])
  }

  /** Flattening distributes over concatenation of lists. */
  lemma {:induction false} FlattenAppend<T>(a: seq<seq<T>>, b: seq<seq<T>>)
    ensures Flatten(a + b) == Flatten(a) + Flatten(b)
  {
    if |a| == 0 {
      assert a + b == b;
    } else {
      assert (a + b)[1..] == a[1..] + b;
      FlattenAppend(a[1..], b);
    }
  }

  /** When every part has width `w`, the flat sequence has `|parts| * w` elements. */
  lemma {:induction false} FlattenUniformLength<T>(parts: seq<seq<T>>, w: nat)
    requires forall k :: 0 <= k < |parts| ==> |parts[k]| == w
    ensures |Flatten(parts)| == |parts| * w
  {
    if |parts| > 0 {
      FlattenUniformLength(parts[1..], w);
      MulStep(|parts|, w);
    }
  }

  /** When every part has width `w`, part `k` occupies exactly the slice
      `[k * w, k * w + w)` of the flat sequence. */
  lemma {:induction false} FlattenUniformPart<T>(parts: seq<seq<T>>, w: nat, k: nat)
    requires forall j :: 0 <= j < |parts| ==> |parts[j]| == w
    requires k < |parts|
    ensures k * w + w <= |Flatten(parts)|
    ensures Flatten(parts)[k * w .. k * w + w] == parts[k]
  {
    var tail := parts[1..];
    FlattenUniformLength(tail, w);
    if k == 0 {
    } else {
      FlattenUniformPart(tail, w, k - 1);
      MulStep(k, w);
      assert Flatten(parts) == parts[0] + Flatten(tail);
    }
  }

  /** `k * w` splits off one `w`. */
  lemma MulStep(k: nat, w: nat)
    requires k > 0
    ensures k * w == w + (k - 1) * w
  {
  }
}
