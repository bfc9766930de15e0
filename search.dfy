/**
 The mean-neighbourhood broken-pixel search (`avgBrokenPixelSearch`).

 For every window origin `i` below `npixels - 2w - 2`, the search adds up each
 8-bit channel over the eight neighbours of the 3x3 window, divides the sum
 by 8 and compares that mean with the same channel of the centre cell
 `i + w + 1`. The origin `i` (not the centre) is reported when some channel
 deviates from the mean by more than `error`.

 The raster is the first `npixels` cells of the buffer; the specification
 functions work on it as a sequence, the search itself on the buffer.
 */
module MeanSearch {
  import opened Pixel
  import opened Window

  /** The geometry the search needs: a `uint32` width and room for at least one window reach. */
  predicate ValidGeometry(raster: seq<Word>, w: nat)
  {
    w < WordRange && 2 * w + 2 <= |raster|
  }

  /** Sum of channel `c` over the cells `i + offs[k]`. */
  function ChannelSum(raster: seq<Word>, i: nat, offs: seq<nat>, c: nat): (s: nat)
    requires c < Channels
    requires forall k :: 0 <= k < |offs| ==> i + offs[k] < |raster|
    ensures s <= ChannelMax * |offs|
    decreases |offs|
  {
    if offs == [] then 0
    else ChannelSum(raster, i, offs[..|offs| - 1], c) + ChannelOf(raster[i + offs[|offs| - 1]], c)
  }

  /** Sum of channel `c` over the eight neighbours of the window with origin `i`. */
  function NeighbourSum(raster: seq<Word>, w: nat, i: nat, c: nat): (s: nat)
    requires ValidGeometry(raster, w) && i < OriginBound(|raster|, w) && c < Channels
    ensures s <= NeighbourCount * ChannelMax
  {
    ChannelSum(raster, i, NeighbourOffsets(w), c)
  }

  /** Channel `c` of the centre cell of the window with origin `i`. */
  function CentreChannel(raster: seq<Word>, w: nat, i: nat, c: nat): (v: nat)
    requires ValidGeometry(raster, w) && i < OriginBound(|raster|, w) && c < Channels
    ensures v <= ChannelMax
  {
    ChannelOf(raster[i + ComparedOffset(w)], c)
  }

  /** `sum/8 - centre` for channel `c`; exact, as the source's `double` arithmetic is on these values. */
  function Delta(raster: seq<Word>, w: nat, i: nat, c: nat): (d: real)
    requires ValidGeometry(raster, w) && i < OriginBound(|raster|, w) && c < Channels
    ensures -(ChannelMax as real) <= d <= ChannelMax as real
  {
    NeighbourSum(raster, w, i, c) as real / 8.0 - CentreChannel(raster, w, i, c) as real
  }

  /** The source's two-branch threshold test; for every `error` it is the test `|delta| > error`. */
  predicate Deviates(delta: real, error: real)
    ensures Deviates(delta, error) <==> Abs(delta) > error
  {
    (delta >= 0.0 && delta > error) || (delta < 0.0 && delta < -error)
  }

  function Abs(x: real): real
  {
    if x < 0.0 then -x else x
  }

  /**
   The window with origin `i` is reported: some channel deviates from the
   neighbours' mean, that is, some channel has `|sum/8 - centre| > error`.
   */
  predicate Flagged(raster: seq<Word>, w: nat, i: nat, error: real)
    requires ValidGeometry(raster, w) && i < OriginBound(|raster|, w)
    ensures Flagged(raster, w, i, error) <==>
              exists c :: 0 <= c < Channels && Abs(Delta(raster, w, i, c)) > error
  {
    exists c :: 0 <= c < Channels && Deviates(Delta(raster, w, i, c), error)
  }

  /** The origins below `n` that are flagged, in increasing order; no more than `n` of them, each below `n`. */
  function Scan(raster: seq<Word>, w: nat, error: real, n: nat): (found: seq<nat>)
    requires ValidGeometry(raster, w) && n <= OriginBound(|raster|, w)
    ensures |found| <= n
    ensures forall k :: 0 <= k < |found| ==> found[k] < n
  {
    if n == 0 then []
    else Scan(raster, w, error, n - 1) + (if Flagged(raster, w, n - 1, error) then [n - 1] else [])
  }

  /**
   What the search returns for a raster, a width and an error bound: the
   flagged window origins, strictly increasing, each below the loop bound.
   */
  function BrokenPixels(raster: seq<Word>, w: nat, error: real): (broken: seq<nat>)
    requires ValidGeometry(raster, w)
    ensures forall k :: 0 <= k < |broken| ==> broken[k] < OriginBound(|raster|, w)
    ensures forall j, k :: 0 <= j < k < |broken| ==> broken[j] < broken[k]
    ensures forall i: nat :: i in broken <==> i < OriginBound(|raster|, w) && Flagged(raster, w, i, error)
  {
    ScanStrictlyIncreasing(raster, w, error, OriginBound(|raster|, w));
    ScanMembership(raster, w, error, OriginBound(|raster|, w));
    Scan(raster, w, error, OriginBound(|raster|, w))
  }

  /**
   The search over the first `npixels` cells of `raster`, as the source runs
   it: one pass over the window origins, appending each flagged origin.
   */
  method AvgBrokenPixelSearch(raster: array<Word>, w: nat, npixels: nat, error: real)
    returns (brokenPixels: seq<nat>)
    requires w < WordRange
    requires 2 * w + 2 <= npixels <= raster.Length
    ensures brokenPixels == BrokenPixels(raster[..npixels], w, error)
    ensures forall k :: 0 <= k < |brokenPixels| ==> brokenPixels[k] < OriginBound(npixels, w)
    ensures forall j, k :: 0 <= j < k < |brokenPixels| ==> brokenPixels[j] < brokenPixels[k]
    ensures forall i: nat :: i in brokenPixels <==>
              i < OriginBound(npixels, w) && Flagged(raster[..npixels], w, i, error)
  {
    ghost var pixels := raster[..npixels];
    var sum := new U16[Channels];
    brokenPixels := [];
    var i := 0;
    while i < npixels - w - w - 2
      invariant i <= OriginBound(npixels, w)
      invariant brokenPixels == Scan(pixels, w, error, i)
    {
      SumNeighbours(raster, w, npixels, i, sum);
      var isBrokenPixel := DeviatesFromMean(raster, w, npixels, i, sum, error);
      if isBrokenPixel {
        brokenPixels := brokenPixels + [i];
      }
      i := i + 1;
    }
  }

  /**
   Resets the four `uint16` channel accumulators and adds each channel of the
   eight neighbours of the window with origin `i` into them.
   */
  method SumNeighbours(raster: array<Word>, w: nat, npixels: nat, i: nat, sum: array<U16>)
    requires w < WordRange
    requires 2 * w + 2 <= npixels <= raster.Length
    requires i < OriginBound(npixels, w)
    requires sum.Length == Channels && sum as object != raster as object
    modifies sum
    ensures forall c :: 0 <= c < Channels ==> sum[c] as int == NeighbourSum(raster[..npixels], w, i, c)
  {
    ghost var pixels := raster[..npixels];
    var adjacentPositions := NeighbourOffsets(w);
    for channel := 0 to Channels
      invariant forall c :: 0 <= c < channel ==> sum[c] == 0
    {
      sum[channel] := 0;
    }
    for pos := 0 to NeighbourCount
      invariant pixels == raster[..npixels]
      invariant forall c :: 0 <= c < Channels ==>
                  sum[c] as int == ChannelSum(pixels, i, adjacentPositions[..pos], c)
    {
      assert adjacentPositions[..pos + 1][..pos] == adjacentPositions[..pos];
      AddChannels(raster, i + adjacentPositions[pos], sum);
    }
    assert adjacentPositions[..NeighbourCount] == adjacentPositions;
  }

  /**
   Adds each channel of the cell `cell` into the matching accumulator; the
   caller keeps every accumulator at least one channel's range below the
   `uint16` limit, so no addition overflows.
   */
  method AddChannels(raster: array<Word>, cell: nat, sum: array<U16>)
    requires cell < raster.Length
    requires sum.Length == Channels && sum as object != raster as object
    requires forall c :: 0 <= c < Channels ==> sum[c] as int + ChannelMax < 0x1_0000
    modifies sum
    ensures forall c :: 0 <= c < Channels ==> sum[c] as int == old(sum[c]) as int + ChannelOf(raster[cell], c)
  {
    for channel := 0 to Channels
      invariant forall c :: 0 <= c < channel ==> sum[c] as int == old(sum[c]) as int + ChannelOf(raster[cell], c)
      invariant forall c :: channel <= c < Channels ==> sum[c] == old(sum[c])
    {
      sum[channel] := sum[channel] + ChannelOf(raster[cell], channel) as U16;
    }
  }

  /**
   The per-channel test of the window with origin `i`, given its neighbour
   sums: stops at the first channel whose mean deviates from the centre by
   more than `error`.
   */
  method DeviatesFromMean(raster: array<Word>, w: nat, npixels: nat, i: nat, sum: array<U16>, error: real)
    returns (isBrokenPixel: bool)
    requires w < WordRange
    requires 2 * w + 2 <= npixels <= raster.Length
    requires i < OriginBound(npixels, w)
    requires sum.Length == Channels
    requires forall c :: 0 <= c < Channels ==> sum[c] as int == NeighbourSum(raster[..npixels], w, i, c)
    ensures isBrokenPixel <==> Flagged(raster[..npixels], w, i, error)
  {
    ghost var pixels := raster[..npixels];
    var comparedPosition := ComparedOffset(w);
    isBrokenPixel := false;
    for channel := 0 to Channels
      invariant !isBrokenPixel
      invariant forall c :: 0 <= c < channel ==> !Deviates(Delta(pixels, w, i, c), error)
    {
      var delta := sum[channel] as real / 8.0 - ChannelOf(raster[i + comparedPosition], channel) as real;
      assert delta == Delta(pixels, w, i, channel);
      if delta >= 0.0 && delta > error {
        isBrokenPixel := true;
        break;
      } else if delta < 0.0 && delta < -error {
        isBrokenPixel := true;
        break;
      }
    }
  }

  /** The reported origins are strictly increasing, so none is reported twice. */
  lemma {:induction false} ScanStrictlyIncreasing(raster: seq<Word>, w: nat, error: real, n: nat)
    requires ValidGeometry(raster, w) && n <= OriginBound(|raster|, w)
    ensures forall j, k :: 0 <= j < k < |Scan(raster, w, error, n)| ==>
              Scan(raster, w, error, n)[j] < Scan(raster, w, error, n)[k]
  {
    if n > 0 {
      ScanStrictlyIncreasing(raster, w, error, n - 1);
    }
  }

  /** An origin is reported exactly when it is visited and flagged. */
  lemma {:induction false} ScanMembership(raster: seq<Word>, w: nat, error: real, n: nat)
    requires ValidGeometry(raster, w) && n <= OriginBound(|raster|, w)
    ensures forall i: nat :: i in Scan(raster, w, error, n) <==> i < n && Flagged(raster, w, i, error)
  {
    if n > 0 {
      ScanMembership(raster, w, error, n - 1);
      var prev, tail := Scan(raster, w, error, n - 1), if Flagged(raster, w, n - 1, error) then [n - 1] else [];
      assert Scan(raster, w, error, n) == prev + tail;
      forall i: nat
        ensures i in prev + tail <==> i < n && Flagged(raster, w, i, error)
      {
        assert i in prev + tail <==> i in prev || i in tail;
      }
    }
  }

  /** The test on a window channel, in the scaled integer form `|sum - 8 centre| > 8 error`. */
  lemma DeviatesScaled(raster: seq<Word>, w: nat, i: nat, c: nat, error: real)
    requires ValidGeometry(raster, w) && i < OriginBound(|raster|, w) && c < Channels
    ensures Deviates(Delta(raster, w, i, c), error) <==>
              Abs((NeighbourSum(raster, w, i, c) - 8 * CentreChannel(raster, w, i, c)) as real) > 8.0 * error
  {
    var d := Delta(raster, w, i, c);
    var scaled := (NeighbourSum(raster, w, i, c) - 8 * CentreChannel(raster, w, i, c)) as real;
    assert scaled == 8.0 * d;
  }

  /**
   Documents the margin of the source's `uint16` accumulator: a channel sum is
   at most 2040, far below 2^16. The no-overflow proof itself is the `U16`
   range check in `AddChannels`.
   */
  lemma NeighbourSumFitsAccumulator(raster: seq<Word>, w: nat, i: nat, c: nat)
    requires ValidGeometry(raster, w) && i < OriginBound(|raster|, w) && c < Channels
    ensures NeighbourSum(raster, w, i, c) <= 2040 < 0x1_0000
  {
  }

  /** Cells that all hold the same channel value `v` sum to `v` times their number. */
  lemma {:induction false} ChannelSumOfEqualCells(raster: seq<Word>, i: nat, offs: seq<nat>, c: nat, v: nat)
    requires c < Channels
    requires forall k :: 0 <= k < |offs| ==> i + offs[k] < |raster|
    requires forall k :: 0 <= k < |offs| ==> ChannelOf(raster[i + offs[k]], c) == v
    ensures ChannelSum(raster, i, offs, c) == |offs| * v
    decreases |offs|
  {
    if offs != [] {
      var n := |offs|;
      var init := offs[..n - 1];
      assert forall k :: 0 <= k < |init| ==> init[k] == offs[k];
      ChannelSumOfEqualCells(raster, i, init, c, v);
      assert ChannelSum(raster, i, offs, c) == ChannelSum(raster, i, init, c) + v;
      MulSucc(n - 1, v);
    }
  }

  /** One more row of `v`: `m v + v == (m + 1) v`, kept apart so that the induction above stays linear. */
  lemma MulSucc(m: nat, v: nat)
    ensures m * v + v == (m + 1) * v
  {
  }

  /** When only the cell `i + offs[hot]` has a non-zero channel `c`, the sum is that cell's channel. */
  lemma {:induction false} ChannelSumOfOneCell(raster: seq<Word>, i: nat, offs: seq<nat>, c: nat, hot: nat)
    requires c < Channels && hot < |offs|
    requires forall k :: 0 <= k < |offs| ==> i + offs[k] < |raster|
    requires forall k :: 0 <= k < |offs| && k != hot ==> ChannelOf(raster[i + offs[k]], c) == 0
    ensures ChannelSum(raster, i, offs, c) == ChannelOf(raster[i + offs[hot]], c)
    decreases |offs|
  {
    var n := |offs|;
    var init := offs[..n - 1];
    assert forall k :: 0 <= k < |init| ==> init[k] == offs[k];
    if hot == n - 1 {
      ChannelSumOfEqualCells(raster, i, init, c, 0);
    } else {
      ChannelSumOfOneCell(raster, i, init, c, hot);
    }
  }

  /** A scan over origins none of which is flagged reports nothing. */
  lemma {:induction false} ScanNoneFlagged(raster: seq<Word>, w: nat, error: real, n: nat)
    requires ValidGeometry(raster, w) && n <= OriginBound(|raster|, w)
    requires forall i: nat :: i < n ==> !Flagged(raster, w, i, error)
    ensures Scan(raster, w, error, n) == []
  {
    if n > 0 {
      ScanNoneFlagged(raster, w, error, n - 1);
    }
  }

  /** A scan over origins every one of which is flagged reports all of them. */
  lemma {:induction false} ScanAllFlagged(raster: seq<Word>, w: nat, error: real, n: nat)
    requires ValidGeometry(raster, w) && n <= OriginBound(|raster|, w)
    requires forall i: nat :: i < n ==> Flagged(raster, w, i, error)
    ensures |Scan(raster, w, error, n)| == n
    ensures forall k :: 0 <= k < n ==> Scan(raster, w, error, n)[k] == k
  {
    if n > 0 {
      ScanAllFlagged(raster, w, error, n - 1);
      var prev := Scan(raster, w, error, n - 1);
      var found := prev + [n - 1];
      assert Scan(raster, w, error, n) == found;
      forall k | 0 <= k < n
        ensures found[k] == k
      {
        if k < n - 1 {
          assert found[k] == prev[k];
        }
      }
    }
  }

  /** A uniform raster has no broken pixel for any non-negative error bound. */
  lemma UniformRasterHasNoBrokenPixels(raster: seq<Word>, w: nat, error: real)
    requires ValidGeometry(raster, w)
    requires forall j :: 0 <= j < |raster| ==> raster[j] == raster[0]
    requires error >= 0.0
    ensures BrokenPixels(raster, w, error) == []
  {
    var bound := OriginBound(|raster|, w);
    forall i: nat | i < bound
      ensures !Flagged(raster, w, i, error)
    {
      forall c | 0 <= c < Channels
        ensures Delta(raster, w, i, c) == 0.0
      {
        ChannelSumOfEqualCells(raster, i, NeighbourOffsets(w), c, ChannelOf(raster[0], c));
      }
    }
    ScanNoneFlagged(raster, w, error, bound);
  }

  /** `a` is a sub-list of `b`: `b` with some of its elements removed, order kept. */
  predicate SubList(a: seq<nat>, b: seq<nat>)
    decreases |b|
  {
    if a == [] then true
    else if b == [] then false
    else if a[|a| - 1] == b[|b| - 1] then SubList(a[..|a| - 1], b[..|b| - 1])
    else SubList(a, b[..|b| - 1])
  }

  /** A window that deviates by more than a larger bound deviates by more than a smaller one. */
  lemma FlaggedMonotone(raster: seq<Word>, w: nat, i: nat, small: real, large: real)
    requires ValidGeometry(raster, w) && i < OriginBound(|raster|, w)
    requires small <= large
    ensures Flagged(raster, w, i, large) ==> Flagged(raster, w, i, small)
  {
    if Flagged(raster, w, i, large) {
      var c :| 0 <= c < Channels && Deviates(Delta(raster, w, i, c), large);
      assert Deviates(Delta(raster, w, i, c), small);
    }
  }

  /** Appending the same element to both lists keeps a sub-list a sub-list. */
  lemma SubListAppendBoth(a: seq<nat>, b: seq<nat>, x: nat)
    requires SubList(a, b)
    ensures SubList(a + [x], b + [x])
  {
    assert (a + [x])[..|a|] == a;
    assert (b + [x])[..|b|] == b;
  }

  /** Appending to the longer list an element above everything in the shorter one keeps a sub-list. */
  lemma SubListAppendRight(a: seq<nat>, b: seq<nat>, x: nat)
    requires SubList(a, b)
    requires forall k :: 0 <= k < |a| ==> a[k] < x
    ensures SubList(a, b + [x])
  {
    assert (b + [x])[..|b|] == b;
  }

  /** Raising the error bound keeps a sub-list of the origins reported for the smaller bound. */
  lemma {:induction false} ScanThresholdMonotone(raster: seq<Word>, w: nat, small: real, large: real, n: nat)
    requires ValidGeometry(raster, w) && n <= OriginBound(|raster|, w)
    requires small <= large
    ensures SubList(Scan(raster, w, large, n), Scan(raster, w, small, n))
  {
    if n > 0 {
      var a, b := Scan(raster, w, large, n - 1), Scan(raster, w, small, n - 1);
      ScanThresholdMonotone(raster, w, small, large, n - 1);
      FlaggedMonotone(raster, w, n - 1, small, large);
      if Flagged(raster, w, n - 1, large) {
        assert Scan(raster, w, large, n) == a + [n - 1];
        assert Scan(raster, w, small, n) == b + [n - 1];
        SubListAppendBoth(a, b, n - 1);
      } else if Flagged(raster, w, n - 1, small) {
        assert Scan(raster, w, large, n) == a;
        assert Scan(raster, w, small, n) == b + [n - 1];
        SubListAppendRight(a, b, n - 1);
      } else {
        assert Scan(raster, w, large, n) == a;
        assert Scan(raster, w, small, n) == b;
      }
    }
  }

  /** Raising the error bound never reports an origin the smaller bound did not. */
  lemma ThresholdMonotone(raster: seq<Word>, w: nat, small: real, large: real)
    requires ValidGeometry(raster, w)
    requires small <= large
    ensures SubList(BrokenPixels(raster, w, large), BrokenPixels(raster, w, small))
  {
    ScanThresholdMonotone(raster, w, small, large, OriginBound(|raster|, w));
  }
}
