/** Windows: where a piece sits inside a larger sequence. Every layout fact
    about the observation is a window, and windows compose, so the facts are
    proved once here on plain sequences and only chained elsewhere. */
module Windows {
  import opened Vectors

  /** `out` holds `x` starting at offset `i`. */
  ghost predicate Window<T>(out: seq<T>, i: int, x: seq<T>)
  {
    0 <= i && i + |x| <= |out| && out[i .. i + |x|] == x
  }

  /** A window inside a window is a window of the outer sequence, at the sum
      of the offsets. */
  lemma WindowInWindow<T>(out: seq<T>, i: int, x: seq<T>, j: int, y: seq<T>)
    requires Window(out, i, x) && Window(x, j, y)
    ensures Window(out, i + j, y)
  {
    forall t | 0 <= t < |y|
      ensures out[i + j + t] == y[t]
    {
      assert y[t] == x[j + t];
      assert x[j + t] == out[i + j + t];
    }
    assert out[i + j .. i + j + |y|] == y;
  }

  /** A window inside a window, with the sum of the offsets given whole as
      `o`. */
  lemma WindowShift<T>(out: seq<T>, i: int, x: seq<T>, j: int, o: int, y: seq<T>)
    requires Window(out, i, x)
    requires Window(x, j, y)
    requires o == i + j
    ensures Window(out, o, y)
  {
    WindowInWindow(out, i, x, j, y);
  }

  /** Each piece of a four-way concatenation is a window at the sum of the
      lengths before it, and nothing follows the last piece. */
  lemma Concat4Windows<T>(a: seq<T>, b: seq<T>, c: seq<T>, d: seq<T>)
    ensures
      var x := a + b + c + d;
      && |x| == |a| + |b| + |c| + |d|
      && Window(x, 0, a)
      && Window(x, |a|, b)
      && Window(x, |a| + |b|, c)
      && Window(x, |a| + |b| + |c|, d)
  {
    var x := a + b + c + d;
    assert x[..|a|] == a;
    assert x[|a| .. |a| + |b|] == b;
    assert x[|a| + |b| .. |a| + |b| + |c|] == c;
    assert x[|a| + |b| + |c| .. |x|] == d;
  }

  /** Both halves of a concatenation are windows of it. */
  lemma Concat2Windows<T>(a: seq<T>, b: seq<T>)
    ensures Window(a + b, 0, a) && Window(a + b, |a|, b)
  {
    assert (a + b)[..|a|] == a;
    assert (a + b)[|a| .. |a| + |b|] == b;
  }

  /** With parts of uniform width `w`, part `k` is the window at `k * w` of
      the flattening. */
  lemma BlockWindow<T>(parts: seq<seq<T>>, w: nat, k: nat)
    requires forall j :: 0 <= j < |parts| ==> |parts[j]| == w
    requires k < |parts|
    ensures Window(Flatten(parts), k * w, parts[k])
  {
    FlattenUniformPart(parts, w, k);
  }
}
