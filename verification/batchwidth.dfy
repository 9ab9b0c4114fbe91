/** The common (height, width) every artifact of a batch is resized to
    (Synthtext/gen.py:279-288): each background crop is scaled to the
    requested height, the scaled widths are averaged with floor division, and
    the average is rounded to a multiple of 8 with Python's round, which
    sends halves to the even neighbour. */
module BatchWidth {
  import opened Outcomes
  import opened Geometry

  function Abs(x: int): nat {
    if x < 0 then -x else x
  }

  /** int(w * (H / h)). The source computes H / h and the product in floating
      point; this is the exact floor (w * H) / h, from which the float result
      can differ by one when the product lands just below an integer. */
  function ScaledWidth(w: nat, h: nat, height: nat): (sw: nat)
    requires h > 0
    ensures sw * h <= w * height < (sw + 1) * h
  {
    (w * height) / h
  }

  /** Every crop has a positive height, so `data_shape[0] / h` does not
      divide by zero. */
  predicate AllPositiveHeights(sizes: seq<Size>) {
    forall k :: 0 <= k < |sizes| ==> sizes[k].h > 0
  }

  /** w_sum, the sum of the scaled widths of the crops, in order. */
  function TotalScaledWidth(sizes: seq<Size>, height: nat): nat
    requires AllPositiveHeights(sizes)
  {
    if |sizes| == 0 then 0
    else
      var last := sizes[|sizes| - 1];
      TotalScaledWidth(sizes[..|sizes| - 1], height) + ScaledWidth(last.w, last.h, height)
  }

  /** int(round(v / 8)) * 8 for a non-negative v: the nearest multiple of 8,
      a tie (remainder 4) going to the multiple whose quotient is even. */
  function RoundToEight(v: nat): (r: nat)
    ensures r % 8 == 0
    ensures v - 4 <= r <= v + 4
    ensures v % 8 < 4 ==> r <= v
    ensures v % 8 > 4 ==> r > v
    ensures v % 8 == 4 ==> (r / 8) % 2 == 0
  {
    var q := v / 8;
    var rem := v % 8;
    if rem < 4 || (rem == 4 && q % 2 == 0) then 8 * q else 8 * (q + 1)
  }

  /** No multiple of 8 is closer to v than the rounded value. */
  lemma RoundToEightNearest(v: nat, k: int)
    ensures Abs(RoundToEight(v) - v) <= Abs(8 * k - v)
  {
    var q := v / 8;
    assert v == 8 * q + v % 8;
    if k <= q {
      assert 8 * k <= 8 * q;
    } else {
      assert 8 * k >= 8 * (q + 1);
    }
  }

  /** (to_h, to_w) for the drained crops, or the ZeroDivisionError the width
      loop raises on a crop of height 0. */
  function CommonBatchSize(sizes: seq<Size>, height: nat): (r: Result<Size>)
    requires |sizes| > 0
    ensures r.Ok? <==> AllPositiveHeights(sizes)
    ensures r.Err? ==> r.error == DivisionByZero
    ensures r.Ok? ==>
      var avg := TotalScaledWidth(sizes, height) / |sizes|;
      && r.value.h == height
      && r.value.w % 8 == 0
      && avg - 4 <= r.value.w <= avg + 4
      && (avg % 8 == 4 ==> (r.value.w / 8) % 2 == 0)
  {
    if exists k :: 0 <= k < |sizes| && sizes[k].h == 0 then Err(DivisionByZero)
    else Ok(Size(height, RoundToEight(TotalScaledWidth(sizes, height) / |sizes|)))
  }

  /** The width loop as the source writes it: one pass over the crops,
      stopping at the first zero height. */
  method ComputeBatchSize(sizes: seq<Size>, height: nat) returns (r: Result<Size>)
    requires |sizes| > 0
    ensures r == CommonBatchSize(sizes, height)
  {
    var wSum: nat := 0;
    var i := 0;
    while i < |sizes|
      invariant 0 <= i <= |sizes|
      invariant AllPositiveHeights(sizes[..i])
      invariant wSum == TotalScaledWidth(sizes[..i], height)
    {
      var sz := sizes[i];
      if sz.h == 0 {
        assert sizes[i].h == 0;
        return Err(DivisionByZero);
      }
      TotalScaledWidthStep(sizes, i, height);
      wSum := wSum + ScaledWidth(sz.w, sz.h, height);
      i := i + 1;
    }
    assert sizes[..i] == sizes;
    assert !exists k :: 0 <= k < |sizes| && sizes[k].h == 0;
    r := Ok(Size(height, RoundToEight(wSum / |sizes|)));
  }

  lemma TotalScaledWidthStep(sizes: seq<Size>, i: nat, height: nat)
    requires i < |sizes| && AllPositiveHeights(sizes[..i]) && sizes[i].h > 0
    ensures AllPositiveHeights(sizes[..i + 1])
    ensures TotalScaledWidth(sizes[..i + 1], height)
         == TotalScaledWidth(sizes[..i], height) + ScaledWidth(sizes[i].w, sizes[i].h, height)
  {
    assert sizes[..i + 1][..i] == sizes[..i];
  }

  /** Four 100 x 300 crops and a requested height of 64 give a 64 x 192 batch. */
  lemma CommonBatchSizeExample()
    ensures CommonBatchSize([Size(100, 300), Size(100, 300), Size(100, 300), Size(100, 300)], 64)
         == Ok(Size(64, 192))
  {
    var s := [Size(100, 300), Size(100, 300), Size(100, 300), Size(100, 300)];
    assert ScaledWidth(300, 100, 64) == 192;
    assert s[..1][..0] == [] && s[..2][..1] == s[..1] && s[..3][..2] == s[..2] && s[..3] == s[..|s| - 1];
    assert TotalScaledWidth(s[..1], 64) == 192;
    assert TotalScaledWidth(s[..2], 64) == 384;
    assert TotalScaledWidth(s[..3], 64) == 576;
    assert TotalScaledWidth(s, 64) == 768;
    assert RoundToEight(192) == 192;
  }

  /** The common width can be 0: nothing in the computation keeps it
      positive. One crop of width 3 at the requested height rounds 0.375
      down. */
  lemma CommonBatchSizeCanBeZero()
    ensures CommonBatchSize([Size(64, 3)], 64) == Ok(Size(64, 0))
  {
    assert [Size(64, 3)][..0] == [];
  }
}
