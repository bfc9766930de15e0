/**
 A worked example of the search on a small raster, 3 cells wide and 4 rows
 high, black except for one white cell in the middle of the first 3x3 block of the buffer.
 */
module MeanSearchScenarios {
  import opened Pixel
  import opened Window
  import opened MeanSearch

  /** A row-major 3x4 raster whose cell 4 (row 1, column 1) is white and every other cell black. */
  predicate OneWhiteCell(raster: seq<Word>)
  {
    |raster| == 12 && raster[4] == 0xFFFF_FFFF &&
    forall j :: 0 <= j < |raster| && j != 4 ==> raster[j] == 0
  }

  /**
   Each of the four windows is flagged on the red channel for any error bound
   below 255/8: the window with origin 0 has the white cell at its centre
   (mean 0 against 255), the others have it among their neighbours (mean
   31.875 against 0).
   */
  lemma WhiteCellWindowFlagged(raster: seq<Word>, i: nat, error: real)
    requires OneWhiteCell(raster)
    requires error < 31.875
    requires i < OriginBound(|raster|, 3)
    ensures Flagged(raster, 3, i, error)
  {
    var offs := NeighbourOffsets(3);
    assert offs == [0, 1, 2, 3, 5, 6, 7, 8];
    assert ChannelOf(0, 0) == 0;
    assert ChannelOf(0xFFFF_FFFF, 0) == 255;
    if i == 0 {
      ChannelSumOfEqualCells(raster, 0, offs, 0, 0);
    } else {
      ChannelSumOfOneCell(raster, i, offs, 0, 4 - i);
    }
    assert Deviates(Delta(raster, 3, i, 0), error);
  }

  /**
   The search reports every origin: the white cell's own window under its
   origin 0 (not under the cell 4 it tests), and also the three windows that
   merely contain it, among them origin 2, whose window wraps from the last
   column into the next row.
   */
  lemma WhiteCellReportsEveryWindowReadingIt(raster: seq<Word>, error: real)
    requires OneWhiteCell(raster)
    requires error < 31.875
    ensures BrokenPixels(raster, 3, error) == [0, 1, 2, 3]
  {
    forall i: nat | i < OriginBound(|raster|, 3)
      ensures Flagged(raster, 3, i, error)
    {
      WhiteCellWindowFlagged(raster, i, error);
    }
    ScanAllFlagged(raster, 3, error, 4);
    var found := BrokenPixels(raster, 3, error);
    assert found[0] == 0 && found[1] == 1 && found[2] == 2 && found[3] == 3;
  }
}
