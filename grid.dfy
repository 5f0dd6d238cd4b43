// Row-major addressing of a `width` x `height` pixel or texel grid: slot
// `j * width + i` holds column `i` of row `j`.

module Grid {

  /** Column and row of slot `idx`, as `raytrace_samples` computes them. */
  function PixelOf(idx: nat, width: nat): (ij: (nat, nat))
    requires width > 0
    ensures ij.1 * width + ij.0 == idx && ij.0 < width
  {
    (idx % width, idx / width)
  }

  /** Slot of column `i`, row `j`. */
  function SlotOf(i: nat, j: nat, width: nat): nat { j * width + i }

  /** Every slot of a `width * height` buffer lies on the grid ... */
  lemma PixelOfInGrid(idx: nat, width: nat, height: nat)
    requires idx < width * height
    ensures width > 0
    ensures PixelOf(idx, width).0 < width && PixelOf(idx, width).1 < height
  {
  }

  /** ... every grid point has a slot inside the buffer ... */
  lemma SlotInBuffer(i: nat, j: nat, width: nat, height: nat)
    requires i < width && j < height
    ensures SlotOf(i, j, width) < width * height
  {
    assert j * width + i < j * width + width == (j + 1) * width;
    assert (j + 1) * width <= height * width;
  }

  /** ... and the two maps are inverse to each other, so `PixelOf` is a bijection
      from the slots onto the grid. */
  lemma PixelOfSlot(i: nat, j: nat, width: nat)
    requires i < width
    ensures PixelOf(SlotOf(i, j, width), width) == (i, j)
  {
    var ij := PixelOf(SlotOf(i, j, width), width);
    var q, r := ij.1, ij.0;
    assert q * width + r == j * width + i;
    if q < j {
      MulMonotone(q + 1, j, width);
    } else if q > j {
      MulMonotone(j + 1, q, width);
    }
  }

  lemma MulMonotone(a: nat, b: nat, c: nat)
    requires a <= b
    ensures a * c <= b * c
  {
  }

  lemma SlotOfPixel(idx: nat, width: nat)
    requires width > 0
    ensures SlotOf(PixelOf(idx, width).0, PixelOf(idx, width).1, width) == idx
  {
  }
}
