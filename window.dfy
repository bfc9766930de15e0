/**
 The 3x3 window of the mean-neighbourhood search, as index offsets into the
 flattened row-major raster, measured from the window's lowest-index cell
 (its origin).

 The source builds the offsets from the `uint32` width `w` with `uint32`
 arithmetic (`w+2`, `w+w`, `w+w+1`, `w+w+2`, `w+1`) and only then widens them
 to `size_t`, so each offset is reduced modulo 2^32; the model does the same.
 */
module Window {
  import opened Pixel

  /** Number of neighbours in the window. */
  const NeighbourCount: nat := 8

  /**
   The eight neighbour offsets, in the source's order:
     5 6 7
     3 . 4
     0 1 2
   */
  function NeighbourOffsets(w: nat): (offs: seq<nat>)
    requires w < WordRange
    ensures |offs| == NeighbourCount
    ensures forall k :: 0 <= k < |offs| ==> offs[k] <= 2 * w + 2
    ensures 2 * w + 2 < WordRange ==> offs[7] == 2 * w + 2
  {
    [0, 1, 2, w, Wrap32(w + 2), Wrap32(w + w), Wrap32(w + w + 1), Wrap32(w + w + 2)]
  }

  /** The offset of the cell under test, the centre of the window. */
  function ComparedOffset(w: nat): (off: nat)
    requires w < WordRange
    ensures off <= w + 1
    ensures w + 1 < WordRange ==> off == w + 1
  {
    Wrap32(w + 1)
  }

  /**
   Exclusive upper bound on window origins, `npixels - w - w - 2`. Every
   neighbour offset and the centre offset, added to the bound, stay within
   `npixels` (the centre strictly inside), so every cell of every window with
   origin `j < bound` lies in the buffer; this holds even when offsets wrap.
   */
  function OriginBound(npixels: nat, w: nat): (bound: nat)
    requires w < WordRange && 2 * w + 2 <= npixels
    ensures bound + 2 * w + 2 == npixels
    ensures forall k :: 0 <= k < NeighbourCount ==> bound + NeighbourOffsets(w)[k] <= npixels
    ensures bound + ComparedOffset(w) < npixels
  {
    npixels - w - w - 2
  }

  /** The nine cells of a 3x3 block of a raster of width `w`, row by row. */
  function Block(w: nat): (cells: seq<nat>)
    ensures |cells| == 9
  {
    seq(9, k requires 0 <= k < 9 => (k / 3) * w + k % 3)
  }

  /** The window's cells, neighbours and centre together, in row-major order. */
  function WindowCells(w: nat): (cells: seq<nat>)
    requires w < WordRange
    ensures |cells| == 9
  {
    NeighbourOffsets(w)[..4] + [ComparedOffset(w)] + NeighbourOffsets(w)[4..]
  }

  /**
   When no offset wraps, the eight neighbours and the centre are exactly the
   3x3 block starting at the origin.
   */
  lemma WindowIsBlock(w: nat)
    requires 2 * w + 2 < WordRange
    ensures WindowCells(w) == Block(w)
  {
    var cells := WindowCells(w);
    forall k | 0 <= k < 9
      ensures cells[k] == Block(w)[k]
    {
      if k < 4 {
        assert cells[k] == NeighbourOffsets(w)[k];
      } else if k > 4 {
        assert cells[k] == NeighbourOffsets(w)[k - 1];
      }
    }
  }

  /**
   When the `uint32` offsets wrap, the window is not the 3x3 block: its last
   cell `w+w+2` has been reduced modulo 2^32 and falls short of `2w + 2`.
   */
  lemma WrappedWindowIsNotBlock(w: nat)
    requires w < WordRange && 2 * w + 2 >= WordRange
    ensures WindowCells(w) != Block(w)
  {
    assert WindowCells(w)[8] == NeighbourOffsets(w)[7] == Wrap32(w + w + 2);
    assert Block(w)[8] == 2 * w + 2;
  }

  /**
   For a width of at least 3 the cells of a block are distinct and increasing,
   so in particular the centre is not one of the neighbours.
   */
  lemma BlockStrictlyIncreasing(w: nat)
    requires w >= 3
    ensures forall j, k :: 0 <= j < k < 9 ==> Block(w)[j] < Block(w)[k]
  {
    var b := Block(w);
    forall j, k | 0 <= j < k < 9
      ensures b[j] < b[k]
    {
      var rj, cj, rk, ck := j / 3, j % 3, k / 3, k % 3;
      assert b[j] == rj * w + cj && b[k] == rk * w + ck;
      if rj < rk {
        RowStep(rj, rk, w);
      }
    }
  }

  /**
   The centre is not among the neighbours once the row has at least two cells,
   for every width whose centre offset `w+1` does not wrap, even where the
   neighbour offsets do. The one width beyond, `2^32 - 1`, is
   `WidestRasterCentreAlias`.
   */
  lemma CentreNotNeighbour(w: nat)
    requires 2 <= w && w + 2 <= WordRange
    ensures ComparedOffset(w) !in NeighbourOffsets(w)
  {
  }

  /**
   Nothing in the search rejects widths whose offsets overflow `uint32`: with
   `w == 2^31` the offset `w+w` wraps to 0, so the window counts its own
   origin twice instead of reading the cell two rows below.
   */
  lemma WideRasterOffsetsAlias()
    ensures NeighbourOffsets(0x8000_0000)[5] == NeighbourOffsets(0x8000_0000)[0] == 0
  {
  }

  /**
   At the largest `uint32` width the centre offset `w+1` wraps to 0, so the
   cell under test is the origin, which is also neighbour 0.
   */
  lemma WidestRasterCentreAlias()
    ensures ComparedOffset(WordRange - 1) == NeighbourOffsets(WordRange - 1)[0] == 0
  {
  }

  /**
   No column guard: for an origin in one of the last two columns of its row,
   the neighbour at offset 2 lies on the next row, and for an origin in the
   last column so does the neighbour at offset 1; the window wraps around the
   right edge of the raster.
   */
  lemma LastColumnsWindowWraps(w: nat, i: nat)
    requires 2 <= w < WordRange
    requires i % w >= w - 2
    ensures (i + NeighbourOffsets(w)[2]) / w == i / w + 1
    ensures i % w == w - 1 ==> (i + NeighbourOffsets(w)[1]) / w == i / w + 1
  {
    var r := i / w;
    assert i == r * w + i % w;
    if i % w == w - 1 {
      DivModUnique(i + 1, w, r + 1, 0);
      DivModUnique(i + 2, w, r + 1, 1);
    } else {
      DivModUnique(i + 2, w, r + 1, 0);
    }
  }

  /** Division with remainder is unique: a quotient and remainder that rebuild `x` are the ones `/` and `%` give. */
  lemma DivModUnique(x: nat, w: nat, q: nat, rem: nat)
    requires 0 <= rem < w && x == q * w + rem
    ensures x / w == q && x % w == rem
  {
    var q', rem' := x / w, x % w;
    assert q' * w + rem' == q * w + rem;
    if q' < q {
      RowStep(q', q, w);
    } else if q' > q {
      RowStep(q, q', w);
    }
  }

  /** A later row starts at least one full row further on. */
  lemma RowStep(a: nat, b: nat, w: nat)
    requires a < b
    ensures a * w + w <= b * w
  {
    var d := b - a;
    assert b * w == a * w + d * w;
    assert d * w == (d - 1) * w + w;
  }
}
