/** The value-range normalisation at the end of dequeue_batch
    (Synthtext/gen.py:308-314), over exact reals instead of float32. */
module Normalize {

  /** Colour images: x / 127.5 - 1. */
  function NormalizeColor(v: int): (r: real)
    requires 0 <= v <= 255
    ensures -1.0 <= r <= 1.0
    ensures (r + 1.0) * 127.5 == v as real
  {
    v as real / 127.5 - 1.0
  }

  /** Skeleton and mask: x / 255. */
  function NormalizeMask(v: int): (r: real)
    requires 0 <= v <= 255
    ensures 0.0 <= r <= 1.0
    ensures r * 255.0 == v as real
    ensures v == 0 <==> r == 0.0
    ensures v == 255 <==> r == 1.0
  {
    v as real / 255.0
  }
}
