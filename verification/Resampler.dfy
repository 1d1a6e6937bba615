/** `upsample_8k_to_16k` and `downsample_16k_to_8k` of apps/bridge/vocalflow_bridge/codec.py, on
    16-bit samples with 32-bit sums. */
module Resampler {

  type Sample = x: int | -0x8000 <= x < 0x8000

  /** `astype(np.int16)` keeps the low 16 bits. */
  function ToInt16(x: int): Sample {
    (x + 0x8000) % 0x1_0000 - 0x8000
  }

  /** `//` of numpy rounds down, as `/` does here for a positive divisor. */
  function Midpoint(a: Sample, b: Sample): Sample {
    ToInt16((a + b) / 2)
  }

  /** The sample after the `i`th; the last is its own. */
  function Following(x: seq<Sample>, i: nat): Sample
    requires i < |x|
  {
    if i + 1 < |x| then x[i + 1] else x[i]
  }

  function UpAt(x: seq<Sample>, k: nat): Sample
    requires k < 2 * |x|
  {
    if k % 2 == 0 then x[k / 2] else Midpoint(x[k / 2], Following(x, k / 2))
  }

  /** Each sample is followed by the midpoint to the next. */
  function Upsampled(x: seq<Sample>): (up: seq<Sample>)
    ensures |up| == 2 * |x|
  {
    seq(2 * |x|, k requires 0 <= k < 2 * |x| => UpAt(x, k))
  }

  function DownAt(x: seq<Sample>, i: nat): Sample
    requires i < |x| / 2
  {
    Midpoint(x[2 * i], x[2 * i + 1])
  }

  /** Pairs are averaged; an odd last sample is dropped. */
  function Downsampled(x: seq<Sample>): (down: seq<Sample>)
    ensures |down| == |x| / 2
  {
    seq(|x| / 2, i requires 0 <= i < |x| / 2 => DownAt(x, i))
  }

  method Upsample(samples: array<Sample>) returns (out: array<Sample>)
    ensures fresh(out) && out[..] == Upsampled(samples[..])
  {
    var n := samples.Length;
    out := new Sample[2 * n];
    ghost var x := samples[..];
    var i := 0;
    while i < n
      invariant 0 <= i <= n
      invariant forall k :: 0 <= k < 2 * i && k % 2 == 0 ==> out[k] == UpAt(x, k)
    {
      out[2 * i] := samples[i];
      i := i + 1;
    }
    i := 0;
    while i < n
      invariant 0 <= i <= n
      invariant forall k :: 0 <= k < 2 * n && k % 2 == 0 ==> out[k] == UpAt(x, k)
      invariant forall k :: 0 <= k < 2 * i ==> out[k] == UpAt(x, k)
    {
      var a: int := samples[i];
      var b: int := if i + 1 < n then samples[i + 1] else samples[n - 1];
      out[2 * i + 1] := ToInt16((a + b) / 2);
      i := i + 1;
    }
    assert out[..] == Upsampled(x);
  }

  // ---------------------------------------------------------------------------------------------
  // No overflow
  // ---------------------------------------------------------------------------------------------

  ghost predicate Bounded(x: seq<Sample>, lo: int, hi: int) {
    forall i :: 0 <= i < |x| ==> lo <= x[i] <= hi
  }

  /** The conversion to 16 bits never wraps, and a midpoint lies between its ends. */
  lemma MidpointIsBetween(a: Sample, b: Sample)
    ensures Midpoint(a, b) == (a + b) / 2
    ensures (if a < b then a else b) <= Midpoint(a, b) <= (if a < b then b else a)
  {
  }

  /** No output sample leaves the range of the input. */
  lemma StaysInRange(x: seq<Sample>, lo: int, hi: int)
    requires Bounded(x, lo, hi)
    ensures Bounded(Upsampled(x), lo, hi) && Bounded(Downsampled(x), lo, hi)
  {
    forall k | 0 <= k < 2 * |x| ensures lo <= UpAt(x, k) <= hi {
      MidpointIsBetween(x[k / 2], Following(x, k / 2));
    }
    forall i | 0 <= i < |x| / 2 ensures lo <= DownAt(x, i) <= hi {
      MidpointIsBetween(x[2 * i], x[2 * i + 1]);
    }
  }

  // ---------------------------------------------------------------------------------------------
  // There and back
  // ---------------------------------------------------------------------------------------------

  function Rise(a: int, b: int): int {
    b - a
  }

  lemma NestedFloor(a: Sample, b: Sample)
    ensures Midpoint(a, Midpoint(a, b)) == a + Rise(a, b) / 4
  {
    MidpointIsBetween(a, b);
    MidpointIsBetween(a, Midpoint(a, b));
  }

  lemma UpPair(x: seq<Sample>, i: nat)
    requires i < |x|
    ensures Upsampled(x)[2 * i] == x[i] && Upsampled(x)[2 * i + 1] == Midpoint(x[i], Following(x, i))
  {
    assert 2 * i / 2 == i && (2 * i + 1) / 2 == i;
  }

  /** Up and down again moves each sample a quarter of the way to the next, rounded down, and leaves
      the last one. */
  lemma ThereAndBack(x: seq<Sample>, i: nat)
    requires i < |x|
    ensures Downsampled(Upsampled(x))[i] == x[i] + if i + 1 < |x| then Rise(x[i], x[i + 1]) / 4 else 0
  {
    UpPair(x, i);
    NestedFloor(x[i], Following(x, i));
  }

  ghost predicate RisesSlowly(x: seq<Sample>) {
    forall i :: 0 <= i < |x| - 1 ==> 0 <= Rise(x[i], x[i + 1]) <= 3
  }

  /** Nothing changes exactly when no sample falls below, or is more than 3 above, the one before. */
  lemma ThereAndBackIsIdentity(x: seq<Sample>)
    ensures Downsampled(Upsampled(x)) == x <==> RisesSlowly(x)
  {
    var y := Downsampled(Upsampled(x));
    forall i | 0 <= i < |x| ensures y[i] == x[i] <==> i == |x| - 1 || 0 <= Rise(x[i], x[i + 1]) <= 3 {
      ThereAndBack(x, i);
    }
  }

  // ---------------------------------------------------------------------------------------------
  // Frame by frame
  // ---------------------------------------------------------------------------------------------

  /** Frames of even length can be brought down one by one. */
  lemma DownFrameByFrame(x: seq<Sample>, y: seq<Sample>)
    requires |x| % 2 == 0
    ensures Downsampled(x + y) == Downsampled(x) + Downsampled(y)
  {
    var n := |x| / 2;
    forall i | 0 <= i < |x + y| / 2
      ensures DownAt(x + y, i) == if i < n then DownAt(x, i) else DownAt(y, i - n)
    {
      assert i >= n ==> (x + y)[2 * i] == y[2 * (i - n)] && (x + y)[2 * i + 1] == y[2 * (i - n) + 1];
    }
  }

  lemma UpAtJoin(x: seq<Sample>, y: seq<Sample>, k: nat)
    requires k < 2 * |x + y| && k != 2 * |x| - 1
    ensures UpAt(x + y, k) == if k < 2 * |x| then UpAt(x, k) else UpAt(y, k - 2 * |x|)
  {
    if k >= 2 * |x| {
      var j := k - 2 * |x|;
      assert k / 2 == |x| + j / 2 && k % 2 == j % 2;
      assert Following(x + y, k / 2) == Following(y, j / 2);
    }
  }

  /** Bringing two frames up one by one equals bringing them up together exactly when the second
      starts on the last sample of the first or one above it. */
  lemma UpFrameByFrame(x: seq<Sample>, y: seq<Sample>)
    requires x != [] && y != []
    ensures Upsampled(x + y) == Upsampled(x) + Upsampled(y) <==> 0 <= Rise(x[|x| - 1], y[0]) <= 1
  {
    var m := 2 * |x| - 1;
    var all, both := Upsampled(x + y), Upsampled(x) + Upsampled(y);
    forall k | 0 <= k < |all| && k != m ensures all[k] == both[k] {
      UpAtJoin(x, y, k);
    }
    assert m / 2 == |x| - 1 && m % 2 == 1;
    assert all[m] == UpAt(x + y, m) == Midpoint(x[|x| - 1], y[0]);
    assert both[m] == UpAt(x, m) == Midpoint(x[|x| - 1], x[|x| - 1]);
    MidpointIsBetween(x[|x| - 1], y[0]);
    MidpointIsBetween(x[|x| - 1], x[|x| - 1]);
    assert all[m] == both[m] <==> 0 <= Rise(x[|x| - 1], y[0]) <= 1;
  }
}
