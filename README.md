# BrokenPixels: the mean-neighbourhood broken-pixel search

This project models `avgBrokenPixelSearch`, the broken-pixel detector of
BrokenPixels, and proves properties of the model. The detector takes a
TIFF image that has been read into a flat, row-major buffer of packed 32-bit
RGBA pixels. It slides a 3x3 window over the buffer. For each window origin
`i` it does three things:

- it adds up each 8-bit channel over the eight neighbours at offsets
  `0, 1, 2, w, w+2, 2w, 2w+1, 2w+2`;
- it takes the mean (`sum/8`) and compares it with the same channel of the
  centre cell `i + w + 1`;
- it appends `i` to the result list when some channel differs from the mean
  by more than `error`.

Files and modules:

- `pixel.dfy` (module `Pixel`): packed pixels (`bv32`) and extraction of
  channel `c` as `(p >> 8c) & 0xff`. It also holds the `uint16` accumulator
  type and the 2^32 modulus of `uint32` arithmetic.
- `window.dfy` (module `Window`): the offset table, the centre offset and the
  loop bound, with lemmas about the window's shape and reach.
- `search.dfy` (module `MeanSearch`): the specification functions. `Delta` is
  `sum/8 - centre` for one channel, `Deviates` is the two-branch threshold
  test, `Flagged` says a window is reported, and `BrokenPixels` is the whole
  result list. The file also holds the imperative search
  `AvgBrokenPixelSearch`, proved equal to `BrokenPixels`, and lemmas about
  the result list.
- `scenarios.dfy` (module `MeanSearchScenarios`): a 3x4 raster with one white
  cell, searched end to end.

The model follows `main.cpp` as written:

- There is no column guard. A window whose origin is in the last two columns
  of a row reaches into the next row through offset 2, and from the last
  column also through offset 1 (`LastColumnsWindowWraps`). A bright cell
  also raises the mean of every window that has it as a neighbour, by 255/8
  in a black raster, so for `error < 255/8` each such window is reported too,
  including ones that wrap across the row end
  (`WhiteCellReportsEveryWindowReadingIt`).
- `avgBrokenPixelSearch` has no column bound and no margin exclusion, and it
  reports window origins, not the centres it tests.
- The loop bound `npixels - w - w - 2` is unsigned `size_t` arithmetic. It
  would wrap below zero, so the search requires `npixels >= 2w + 2`.
- The offsets are computed from the `uint32` width with `uint32` arithmetic
  (`w+2`, `w+w`, `w+w+1`, `w+w+2`, `w+1`), then widened. The model reduces
  each of them modulo 2^32. Every read stays in bounds either way
  (`OriginBound`). The window is the 3x3 block when `2w + 2 < 2^32`
  (`WindowIsBlock`) and is not when `2w + 2 >= 2^32`
  (`WrappedWindowIsNotBlock`). For `w = 2^31` the offset `w+w` becomes 0
  (`WideRasterOffsetsAlias`), and for `w = 2^32 - 1` the compared offset
  `w+1` becomes 0 (`WidestRasterCentreAlias`).
- `error` is a `double`. `sum/8` and the subtraction are exact in double
  precision, because `sum <= 2040` and channels are at most 255. So the model
  uses Dafny `real` for the comparison.
- `sum` is a `uint16` array. The model uses a range-checked `U16` newtype, so
  Dafny proves that no addition overflows.

## Model

| member | source | states |
|---|---|---|
| `Pixel.ChannelOf` | main.cpp:45 | an extracted channel is at most 255 |
| `Pixel.Wrap32` | main.cpp:34-35 | `uint32` addition: the result is below 2^32, never above the exact sum, and equal to it when the sum is in range |
| `Window.NeighbourOffsets` | main.cpp:28-34 | eight offsets, none above `2w+2`; the last one is exactly `2w+2` when nothing wraps |
| `Window.ComparedOffset` | main.cpp:35 | the compared cell is at most `w+1` past the origin, and exactly `w+1` when that fits in `uint32` |
| `Window.OriginBound` | main.cpp:34-51 | the loop bound `npixels-w-w-2` leaves room for the whole window: every neighbour offset and the centre offset added to it stay within `npixels`, so every cell read from a visited origin is inside the buffer, even when offsets wrap |
| `Window.WindowIsBlock` | main.cpp:28-35 | without wrap-around, the neighbours plus the centre, in row-major order, are exactly the 3x3 block `r*w + c`, `r, c` in `0..2` |
| `Window.WrappedWindowIsNotBlock` | main.cpp:34-35 | when `2w + 2 >= 2^32` the `uint32` offsets wrap and the window cells differ from the 3x3 block |
| `Window.BlockStrictlyIncreasing` | main.cpp:28-35 | for `w >= 3` the nine block cells are distinct and increasing |
| `Window.CentreNotNeighbour` | main.cpp:34-35 | for every `w >= 2` whose `w+1` does not wrap (`w + 2 <= 2^32`) the compared offset is not one of the eight neighbour offsets, even where those wrap |
| `Window.WidestRasterCentreAlias` | main.cpp:28-35 | at the one width left out above, `w = 2^32 - 1`, the `uint32` offset `w+1` wraps to 0, so the compared cell is the origin, which is also neighbour 0 |
| `Window.WideRasterOffsetsAlias` | main.cpp:34 | with `w = 2^31` the `uint32` offset `w+w` wraps to 0, the origin's own offset |
| `Window.LastColumnsWindowWraps` | main.cpp:40-45 | no column guard: for an origin in the last two columns the neighbour at offset 2 is on the next row, and for the last column so is the neighbour at offset 1 |
| `MeanSearch.ChannelSum` | main.cpp:43-47 | a channel summed over `n` cells is at most `255 n` |
| `MeanSearch.NeighbourSum` | main.cpp:41-47 | a window's neighbour sum for one channel is at most `8 * 255` |
| `MeanSearch.CentreChannel` | main.cpp:51 | the centre cell's channel is at most 255 |
| `MeanSearch.Delta` | main.cpp:51 | defines `delta = sum/8 - centre` for one channel, exactly; it lies between -255 and 255 |
| `MeanSearch.Deviates` | main.cpp:52-58 | defines the two-branch test `delta >= 0 && delta > error` or `delta < 0 && delta < -error`; it equals `abs(delta) > error` for every `error`, negative included |
| `MeanSearch.Flagged` | main.cpp:48-59 | defines when a window is reported: some channel passes the two-branch test; equivalently some channel has `abs(sum/8 - centre) > error` |
| `MeanSearch.Scan` | main.cpp:40-62 | defines the result after scanning the first `n` origins: the flagged ones in increasing order; at most `n` of them, each below `n` |
| `MeanSearch.BrokenPixels` | main.cpp:40-62 | defines the whole result list: strictly increasing, each element below the loop bound, and an origin is in it iff it is below the bound and flagged |
| `MeanSearch.NeighbourSumFitsAccumulator` | main.cpp:36-45 | every neighbour sum is at most 2040, below the `uint16` limit |
| `MeanSearch.AvgBrokenPixelSearch` | main.cpp:27-64 | returns exactly `BrokenPixels` of the first `npixels` cells; the list is strictly increasing and below the loop bound; an origin is in it iff it is below the bound and flagged |
| `MeanSearch.SumNeighbours` | main.cpp:41-47 | after resetting and accumulating, each `uint16` accumulator holds that channel's neighbour sum |
| `MeanSearch.AddChannels` | main.cpp:44-46 | each accumulator grows by the cell's channel and nothing overflows |
| `MeanSearch.DeviatesFromMean` | main.cpp:48-59 | the channel loop with early `break` returns true iff some channel's `sum/8 - centre` passes the two-branch test |
| `MeanSearch.DeviatesScaled` | main.cpp:51-58 | the test on a channel equals the integer-scaled form `abs(sum - 8 centre) > 8 error` |
| `MeanSearch.ScanStrictlyIncreasing` | main.cpp:40-61 | reported origins are strictly increasing, so there are no duplicates |
| `MeanSearch.ScanMembership` | main.cpp:40-61 | an origin is reported iff it was scanned and its window is flagged |
| `MeanSearch.ScanNoneFlagged` | main.cpp:40-61 | when no scanned window is flagged, nothing is reported |
| `MeanSearch.ScanAllFlagged` | main.cpp:40-61 | when every scanned window is flagged, the result has length `n` and its `k`-th element is `k` |
| `MeanSearch.ChannelSumOfEqualCells` | main.cpp:43-47 | `n` cells with equal channel value `v` sum to `n v` |
| `MeanSearch.ChannelSumOfOneCell` | main.cpp:43-47 | when only one of the cells has a non-zero channel, the sum is that cell's channel |
| `MeanSearch.UniformRasterHasNoBrokenPixels` | main.cpp:40-62 | a raster of identical pixels yields an empty result for every `error >= 0` |
| `MeanSearch.FlaggedMonotone` | main.cpp:52-58 | a window flagged at a larger `error` is flagged at every smaller one |
| `MeanSearch.ScanThresholdMonotone` | main.cpp:40-61 | over any prefix of origins, the result for a larger `error` is a sub-list (order kept) of the result for a smaller one |
| `MeanSearch.ThresholdMonotone` | main.cpp:40-62 | raising `error` gives a sub-list of the whole result for the smaller `error` |
| `MeanSearchScenarios.WhiteCellWindowFlagged` | main.cpp:40-59 | in a black 3x4 raster with white cell 4, each of the four windows is flagged for any `error < 255/8` |
| `MeanSearchScenarios.WhiteCellReportsEveryWindowReadingIt` | main.cpp:27-64 | that search returns `[0, 1, 2, 3]`: origin 0 for the window centred on the white cell, plus every window that reads it, including the row-wrapping origin 2 |

## Left out

- `getImage` (main.cpp:10-25) is not modelled: it decodes a TIFF file through libtiff, which is foreign I/O. The model starts from the pixel buffer it fills.
- `main` (main.cpp:68-87) is not modelled: it does clock timing, uses a hard-coded file path and prints each result as `el/w`, `el%h`, which is output formatting.
- `calcAvg` (main.cpp:8) is declared but never defined, so there is nothing to model.
- The `QList` the search allocates on the heap (main.cpp:38, 63) is modelled as a returned sequence. Ownership and freeing of the list are not modelled.
- `error` is modelled as a real number. A NaN or infinite `double` is not modelled.
- `npixels` and the indices are unbounded naturals, so the 64-bit range of `size_t` is not modelled. It matters only for buffers beyond 2^64 cells. The 32-bit wrap of the offsets is modelled.
- Median-of-pairs, hierarchical weighted and 5x5-window detectors, and merging several detectors' results, are not part of this source file and are not modelled.
