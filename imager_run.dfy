/** The imager driver (oskar_imager_run and its two readers): choosing the
    reader from the file name, the block arithmetic of the visibility
    reader, the time-range test, the optional coordinate pass before the
    full pass, progress reporting, the row chunking of the table reader and
    the two buffer rearrangements it performs (splitting uvw triples and
    swapping the baseline and channel dimensions). Reading files and the
    calls into the imager are recorded as abstract effects. */
module ImagerRun {
  import opened Common
  import ImagerUpdate
  import opened VisBlockData

  // ---------------------------------------------------------------------
  // Choosing the reader

  datatype Reader = TableReader | VisReader

  /** The table suffix test: the last three characters are ".MS" or ".ms". */
  predicate HasTableSuffix(name: string)
  {
    |name| >= 3 && (name[|name| - 3..] == ".MS" || name[|name| - 3..] == ".ms")
  }

  /** Exactly the two spellings of the suffix select the table reader; any
      other three final characters, mixed case included, do not. */
  lemma TableSuffixExact(stem: string, suffix: string)
    requires |suffix| == 3
    ensures HasTableSuffix(stem + suffix) <==> suffix == ".MS" || suffix == ".ms"
  {
    assert (stem + suffix)[|stem + suffix| - 3..] == suffix;
  }

  /** Names shorter than three characters never select the table reader. */
  lemma ShortNamesAreVis(name: string)
    requires |name| < 3
    ensures !HasTableSuffix(name)
  {
  }

  /** oskar_imager_run up to the choice of reader: a set status returns at
      once; a missing or empty input name is a FileIO error; otherwise the
      suffix decides. */
  function ChooseReader(status: Status, inputFile: Option<string>): (r: (Status, Option<Reader>))
    ensures status.IsError() ==> r == (status, None)
    ensures !status.IsError() && (inputFile.None? || |inputFile.value| == 0) ==> r == (FileIO, None)
    ensures r.1.Some? <==> !status.IsError() && inputFile.Some? && |inputFile.value| > 0
    ensures r.1.Some? ==> r.0 == Success && (r.1.value == TableReader <==> HasTableSuffix(inputFile.value))
  {
    if status.IsError() then (status, None)
    else if inputFile.None? then (FileIO, None)
    else if |inputFile.value| == 0 then (FileIO, None)
    else if HasTableSuffix(inputFile.value) then (Success, Some(TableReader))
    else (Success, Some(VisReader))
  }

  // ---------------------------------------------------------------------
  // Block arithmetic of the visibility reader

  /** The number of baselines of n stations, n (n - 1) / 2. */
  function NumBaselines(n: nat): nat
  {
    n * (n - 1) / 2
  }

  /** n (n - 1) / 2 is the number of station pairs, so the integer division
      never truncates. */
  lemma NumBaselinesCountsPairs(n: nat)
    ensures NumBaselines(n) == PairCount(n)
  {
    TwicePairCount(n);
  }

  /** Four polarisations for matrix amplitudes, one otherwise. */
  function NumPols(ampType: MemType): (r: nat)
    ensures r == 1 || r == 4
    ensures r == 4 <==> ampType.matrix
  {
    if ampType.matrix then 4 else 1
  }

  /** The number of blocks of at most `maxPerBlock` times: the rounded-up
      quotient. */
  function NumBlocks(numTimes: nat, maxPerBlock: nat): nat
    requires maxPerBlock > 0
  {
    (numTimes + maxPerBlock - 1) / maxPerBlock
  }

  /** NumBlocks is the ceiling: k blocks of maxPerBlock hold all times and
      k - 1 blocks do not. */
  lemma NumBlocksIsCeiling(numTimes: nat, maxPerBlock: nat)
    requires maxPerBlock > 0
    ensures numTimes <= maxPerBlock * NumBlocks(numTimes, maxPerBlock)
    ensures NumBlocks(numTimes, maxPerBlock) > 0 ==>
      maxPerBlock * (NumBlocks(numTimes, maxPerBlock) - 1) < numTimes
  {
    var k := NumBlocks(numTimes, maxPerBlock);
    var s := numTimes + maxPerBlock - 1;
    assert maxPerBlock * k <= s < maxPerBlock * k + maxPerBlock;
    if k > 0 {
      assert maxPerBlock * (k - 1) == maxPerBlock * k - maxPerBlock;
    }
  }

  /** dim_start_and_size as read for one block: start time, start channel,
      number of times and number of channels. */
  datatype BlockDims = BlockDims(startTime: int, startChan: int, numTimes: int, numChans: int)
  {
    function EndTime(): int { startTime + numTimes - 1 }
    function EndChan(): int { startChan + numChans - 1 }
  }

  /** The time-range test: the block reaches time_range[0], and starts no
      later than time_range[1] unless that bound is negative (open). */
  predicate InRange(d: BlockDims, range0: int, range1: int)
  {
    d.EndTime() >= range0 && (d.startTime <= range1 || range1 < 0)
  }

  /** Time t lies in the block. */
  predicate TimeInBlock(d: BlockDims, t: int)
  {
    d.startTime <= t <= d.EndTime()
  }

  /** Time t lies in the selected time range (range1 < 0 leaves it open). */
  predicate TimeSelected(t: int, range0: int, range1: int)
  {
    range0 <= t && (range1 < 0 || t <= range1)
  }

  /** For a non-empty block and a range that is open or not reversed, the
      test holds exactly when some time of the block lies in the range. */
  lemma InRangeIsOverlap(d: BlockDims, range0: int, range1: int)
    requires d.numTimes >= 1 && (range1 < 0 || range0 <= range1)
    ensures InRange(d, range0, range1) <==>
      exists t :: TimeInBlock(d, t) && TimeSelected(t, range0, range1)
  {
    if InRange(d, range0, range1) {
      var t := if d.startTime < range0 then range0 else d.startTime;
      assert TimeInBlock(d, t) && TimeSelected(t, range0, range1);
    }
  }

  /** A reversed range with 0 <= range1 < range0 still lets through a block
      that spans it, although no time at all is selected. */
  lemma ReversedRangeSpanned()
    ensures InRange(BlockDims(0, 0, 10, 1), 5, 3)
    ensures !exists t :: TimeSelected(t, 5, 3)
  {
  }

  /** The coordinate pass runs exactly for uniform weighting or
      W-projection. */
  predicate NeedsCoordPass(weighting: ImagerUpdate.Weighting, algorithm: ImagerUpdate.Algorithm)
  {
    weighting == ImagerUpdate.Uniform || algorithm == ImagerUpdate.WProj
  }

  // ---------------------------------------------------------------------
  // Progress

  /** percent_done = (int)(100 * done / (double)total); for these
      magnitudes the truncated quotient is the integer quotient. */
  function Percent(done: nat, total: nat): nat
    requires total > 0
  {
    100 * done / total
  }

  lemma PercentMonotone(d1: nat, d2: nat, total: nat)
    requires total > 0 && d1 <= d2
    ensures Percent(d1, total) <= Percent(d2, total)
  {
    MulMonotone(100, d1, d2);
    DivMonotone(100 * d1, 100 * d2, total);
  }

  lemma DivMonotone(a: nat, b: nat, n: nat)
    requires n > 0 && a <= b
    ensures a / n <= b / n
  {
    var qa, qb := a / n, b / n;
    assert n * qa <= a && b < n * qb + n;
    assert n * qa < n * (qb + 1);
    MulStrictCancel(n, qa, qb + 1);
  }

  lemma PercentBelowHundred(done: nat, total: nat)
    requires 0 < total && done < total
    ensures Percent(done, total) < 100
  {
    var q := Percent(done, total);
    assert total * q <= 100 * done;
    MulMonotone(100, done, total - 1);
    assert total * q < total * 100;
    MulStrictCancel(total, q, 100);
  }

  lemma PercentAll(total: nat)
    requires total > 0
    ensures Percent(total, total) == 100
  {
    DivInGroup(total, 100, 100 * total);
  }

  predicate StrictlyIncreasing(s: seq<nat>)
  {
    forall i, j :: 0 <= i < j < |s| ==> s[i] < s[j]
  }

  /** The progress bookkeeping of one pass, given the number of items done
      after each block. A block reports its percentage when it has reached
      percent_next, which then rises by 10. At most one report per block,
      each report at least its threshold, and once everything is done the
      last report is 100%. */
  method Progress(done: seq<nat>, total: nat) returns (reports: seq<nat>, percentNext: int)
    requires total > 0
    requires StrictlyIncreasing(done) && forall i :: 0 <= i < |done| ==> done[i] <= total
    ensures |reports| <= |done|
    ensures percentNext == 10 + 10 * |reports|
    ensures forall k :: 0 <= k < |reports| ==> 10 * (k + 1) <= reports[k] <= 100
    ensures |done| > 0 && done[|done| - 1] == total ==> |reports| > 0 && reports[|reports| - 1] == 100
  {
    reports, percentNext := [], 10;
    var i := 0;
    ghost var previous := 0;
    while i < |done|
      invariant 0 <= i <= |done| && |reports| <= i
      invariant percentNext == 10 + 10 * |reports|
      invariant forall k :: 0 <= k < |reports| ==> 10 * (k + 1) <= reports[k] <= 100
      invariant percentNext <= previous + 10
      invariant previous == if i == 0 then 0 else Percent(done[i - 1], total)
      invariant i > 0 && done[i - 1] == total ==> |reports| > 0 && reports[|reports| - 1] == 100
    {
      var percentDone := Percent(done[i], total);
      ProgressStep(done, total, i);
      assert previous <= percentDone <= 100;
      if done[i] == total {
        assert previous < 100 && percentDone == 100;
        assert percentNext <= 100;
      }
      if percentDone >= percentNext {
        reports := reports + [percentDone];
        percentNext := percentNext + 10;
      }
      previous := percentDone;
      i := i + 1;
    }
  }

  /** What one block's percentage relates to the previous one. */
  lemma ProgressStep(done: seq<nat>, total: nat, i: nat)
    requires total > 0 && i < |done|
    requires StrictlyIncreasing(done) && forall j :: 0 <= j < |done| ==> done[j] <= total
    ensures Percent(done[i], total) <= 100
    ensures i > 0 ==> Percent(done[i - 1], total) <= Percent(done[i], total)
    ensures done[i] == total ==> Percent(done[i], total) == 100
    ensures done[i] == total && i > 0 ==> Percent(done[i - 1], total) < 100
  {
    if i > 0 {
      PercentMonotone(done[i - 1], done[i], total);
    }
    if done[i] == total {
      PercentAll(total);
      if i > 0 {
        PercentBelowHundred(done[i - 1], total);
      }
    } else {
      PercentBelowHundred(done[i], total);
    }
  }

  /** The visibility reader reports after block i with i + 1 of numBlocks
      blocks done. */
  function VisDone(numBlocks: nat): (r: seq<nat>)
    ensures |r| == numBlocks && StrictlyIncreasing(r)
    ensures forall i :: 0 <= i < numBlocks ==> r[i] == i + 1 && r[i] <= numBlocks
  {
    seq(numBlocks, i => i + 1)
  }

  // ---------------------------------------------------------------------
  // The passes over the data

  /** One call of oskar_imager_update as the driver makes it: the imager's
      coordinate mode at the time, whether amplitudes are passed, the time
      and channel ranges, the number of rows and of polarisations. */
  datatype UpdateCall = UpdateCall(coordsOnly: bool, withAmps: bool, startTime: int, endTime: int,
                                   startChan: int, endChan: int, numRows: nat, numPols: nat)

  /** The call for one in-range block of the visibility reader. */
  function VisCall(d: BlockDims, coordsOnly: bool, withAmps: bool, numBaselines: nat, numPols: nat): UpdateCall
  {
    UpdateCall(coordsOnly, withAmps, d.startTime, d.EndTime(), d.startChan, d.EndChan(), numBaselines, numPols)
  }

  /** The calls of one pass of the visibility reader over its first n
      blocks: one per block in the time range, in block order. */
  function VisPass(blocks: seq<BlockDims>, n: nat, coordsOnly: bool, withAmps: bool,
                   range0: int, range1: int, numBaselines: nat, numPols: nat): seq<UpdateCall>
    requires n <= |blocks|
  {
    if n == 0 then []
    else
      var earlier := VisPass(blocks, n - 1, coordsOnly, withAmps, range0, range1, numBaselines, numPols);
      if InRange(blocks[n - 1], range0, range1)
      then earlier + [VisCall(blocks[n - 1], coordsOnly, withAmps, numBaselines, numPols)]
      else earlier
  }

  /** The indices below n of the blocks in the time range, in increasing
      order. */
  function InRangeIndices(blocks: seq<BlockDims>, n: nat, range0: int, range1: int): (r: seq<nat>)
    requires n <= |blocks|
    ensures forall k :: 0 <= k < |r| ==> r[k] < n && InRange(blocks[r[k]], range0, range1)
    ensures forall k, l :: 0 <= k < l < |r| ==> r[k] < r[l]
    ensures forall i :: 0 <= i < n && InRange(blocks[i], range0, range1) ==> i in r
  {
    if n == 0 then []
    else
      var earlier := InRangeIndices(blocks, n - 1, range0, range1);
      if InRange(blocks[n - 1], range0, range1) then earlier + [n - 1] else earlier
  }

  /** A pass makes one call per block in the time range and none for any
      other block, in block order: its k-th call is for the k-th in-range
      block. */
  lemma {:induction false} VisPassSelects(blocks: seq<BlockDims>, n: nat, coordsOnly: bool, withAmps: bool,
                                          range0: int, range1: int, numBaselines: nat, numPols: nat)
    requires n <= |blocks|
    ensures var pass := VisPass(blocks, n, coordsOnly, withAmps, range0, range1, numBaselines, numPols);
      var idx := InRangeIndices(blocks, n, range0, range1);
      && |pass| == |idx| <= n
      && forall k :: 0 <= k < |pass| ==> pass[k] == VisCall(blocks[idx[k]], coordsOnly, withAmps, numBaselines, numPols)
  {
    if n > 0 {
      VisPassSelects(blocks, n - 1, coordsOnly, withAmps, range0, range1, numBaselines, numPols);
      var earlier := VisPass(blocks, n - 1, coordsOnly, withAmps, range0, range1, numBaselines, numPols);
      var idx := InRangeIndices(blocks, n - 1, range0, range1);
      IncreasingBelow(idx, n - 1);
      if InRange(blocks[n - 1], range0, range1) {
        var c := VisCall(blocks[n - 1], coordsOnly, withAmps, numBaselines, numPols);
        var pass, idx' := earlier + [c], idx + [n - 1];
        forall k | 0 <= k < |pass|
          ensures pass[k] == VisCall(blocks[idx'[k]], coordsOnly, withAmps, numBaselines, numPols)
        {
          if k < |earlier| {
            assert pass[k] == earlier[k] && idx'[k] == idx[k];
          }
        }
      }
    }
  }

  /** A strictly increasing sequence of indices below n has at most n
      entries. */
  lemma {:induction false} IncreasingBelow(idx: seq<nat>, n: nat)
    requires forall k :: 0 <= k < |idx| ==> idx[k] < n
    requires forall k, l :: 0 <= k < l < |idx| ==> idx[k] < idx[l]
    ensures |idx| <= n
  {
    if |idx| > 0 {
      var init := idx[..|idx| - 1];
      IncreasingBelow(init, idx[|idx| - 1]);
    }
  }

  /** A pass over fewer blocks makes the leading calls of a pass over
      more. */
  lemma {:induction false} VisPassPrefix(blocks: seq<BlockDims>, i: nat, n: nat, coordsOnly: bool, withAmps: bool,
                                         range0: int, range1: int, numBaselines: nat, numPols: nat)
    requires i <= n <= |blocks|
    ensures VisPass(blocks, i, coordsOnly, withAmps, range0, range1, numBaselines, numPols)
      <= VisPass(blocks, n, coordsOnly, withAmps, range0, range1, numBaselines, numPols)
    decreases n - i
  {
    if i < n {
      VisPassPrefix(blocks, i, n - 1, coordsOnly, withAmps, range0, range1, numBaselines, numPols);
    }
  }

  /** start_row and block_size of one chunk of table rows. */
  datatype Chunk = Chunk(startRow: nat, size: nat)

  /** The chunks of the table reader: chunk k starts at row B k and holds
      min(B, numRows - B k) rows. */
  function TableChunks(numRows: nat, numBaselines: nat): (r: seq<Chunk>)
    requires numBaselines > 0
    ensures |r| == NumBlocks(numRows, numBaselines)
  {
    seq(NumBlocks(numRows, numBaselines),
        k requires 0 <= k < NumBlocks(numRows, numBaselines) => ChunkAt(numRows, numBaselines, k))
  }

  function ChunkAt(numRows: nat, numBaselines: nat, k: nat): (r: Chunk)
    requires numBaselines > 0 && k < NumBlocks(numRows, numBaselines)
    ensures r.startRow == numBaselines * k && r.startRow < numRows
  {
    ChunkStartBelow(numRows, numBaselines, k);
    Chunk(numBaselines * k, Min(numBaselines, numRows - numBaselines * k))
  }

  /** Chunk k exists exactly while its first row is a row of the table. */
  lemma ChunkStartBelow(numRows: nat, numBaselines: nat, k: nat)
    requires numBaselines > 0
    ensures k < NumBlocks(numRows, numBaselines) <==> numBaselines * k < numRows
  {
    var n := NumBlocks(numRows, numBaselines);
    NumBlocksIsCeiling(numRows, numBaselines);
    if k < n {
      MulMonotone(numBaselines, k, n - 1);
    } else {
      MulMonotone(numBaselines, n, k);
    }
  }

  /** The chunks cover the rows [0, numRows) exactly once: each holds
      between 1 and B rows, the first starts at row 0, each starts where the
      previous one ends and the last ends at numRows. */
  lemma ChunksCoverRows(numRows: nat, numBaselines: nat)
    requires numBaselines > 0
    ensures var ch := TableChunks(numRows, numBaselines);
      && (|ch| == 0 <==> numRows == 0)
      && (forall k :: 0 <= k < |ch| ==> 1 <= ch[k].size <= numBaselines)
      && (|ch| > 0 ==> ch[0].startRow == 0 && ch[|ch| - 1].startRow + ch[|ch| - 1].size == numRows)
      && (forall k :: 0 <= k < |ch| - 1 ==> ch[k].startRow + ch[k].size == ch[k + 1].startRow)
  {
    var ch := TableChunks(numRows, numBaselines);
    var B := numBaselines;
    ChunkStartBelow(numRows, B, 0);
    forall k | 0 <= k < |ch|
      ensures 1 <= ch[k].size <= B
    {
      ChunkStartBelow(numRows, B, k);
    }
    forall k | 0 <= k < |ch| - 1
      ensures ch[k].startRow + ch[k].size == ch[k + 1].startRow
    {
      ChunkStartBelow(numRows, B, k + 1);
      assert B * (k + 1) == B * k + B;
    }
    if |ch| > 0 {
      var last := |ch| - 1;
      ChunkStartBelow(numRows, B, last + 1);
      assert B * (last + 1) == B * last + B;
    }
  }

  /** Rows done after each chunk, for the progress report. */
  function TableDone(numRows: nat, numBaselines: nat): (r: seq<nat>)
    requires numBaselines > 0
    ensures |r| == NumBlocks(numRows, numBaselines)
    ensures StrictlyIncreasing(r) && forall i :: 0 <= i < |r| ==> r[i] <= numRows
    ensures |r| > 0 ==> r[|r| - 1] == numRows
  {
    var ch := TableChunks(numRows, numBaselines);
    ChunksCoverRows(numRows, numBaselines);
    var r := seq(|ch|, k requires 0 <= k < |ch| => ch[k].startRow + ch[k].size);
    ChunkEndsIncrease(numRows, numBaselines, r);
    r
  }

  lemma ChunkEndsIncrease(numRows: nat, numBaselines: nat, r: seq<nat>)
    requires numBaselines > 0 && |r| == NumBlocks(numRows, numBaselines)
    requires forall k :: 0 <= k < |r| ==>
      r[k] == TableChunks(numRows, numBaselines)[k].startRow + TableChunks(numRows, numBaselines)[k].size
    ensures StrictlyIncreasing(r) && forall i :: 0 <= i < |r| ==> r[i] <= numRows
  {
    var ch := TableChunks(numRows, numBaselines);
    ChunksCoverRows(numRows, numBaselines);
    forall i | 0 <= i < |r|
      ensures r[i] <= numRows && (i + 1 < |r| ==> r[i] < r[i + 1])
    {
      ChunkStartBelow(numRows, numBaselines, i);
      if i + 1 < |r| {
        assert r[i] == ch[i + 1].startRow;
      }
    }
    forall i, j | 0 <= i < j < |r|
      ensures r[i] < r[j]
    {
      StepsIncrease(r, i, j);
    }
  }

  lemma {:induction false} StepsIncrease(r: seq<nat>, i: nat, j: nat)
    requires i < j < |r|
    requires forall k :: 0 <= k < |r| - 1 ==> r[k] < r[k + 1]
    ensures r[i] < r[j]
    decreases j - i
  {
    if i + 1 < j {
      StepsIncrease(r, i + 1, j);
    }
  }

  /** The call for chunk k of the table reader: time index k, all
      channels. */
  function TableCall(k: nat, c: Chunk, coordsOnly: bool, withAmps: bool, numChannels: nat, numPols: nat): UpdateCall
  {
    UpdateCall(coordsOnly, withAmps, k, k, 0, numChannels - 1, c.size, numPols)
  }

  /** The calls of one pass of the table reader over its first n chunks. */
  function TablePass(chunks: seq<Chunk>, n: nat, coordsOnly: bool, withAmps: bool,
                     numChannels: nat, numPols: nat): (r: seq<UpdateCall>)
    requires n <= |chunks|
    ensures |r| == n
    ensures forall k :: 0 <= k < n ==> r[k] == TableCall(k, chunks[k], coordsOnly, withAmps, numChannels, numPols)
  {
    seq(n, k requires 0 <= k < n => TableCall(k, chunks[k], coordsOnly, withAmps, numChannels, numPols))
  }

  lemma TablePassPrefix(chunks: seq<Chunk>, i: nat, n: nat, coordsOnly: bool, withAmps: bool,
                        numChannels: nat, numPols: nat)
    requires i <= n <= |chunks|
    ensures TablePass(chunks, i, coordsOnly, withAmps, numChannels, numPols)
      <= TablePass(chunks, n, coordsOnly, withAmps, numChannels, numPols)
  {
    var a := TablePass(chunks, i, coordsOnly, withAmps, numChannels, numPols);
    var b := TablePass(chunks, n, coordsOnly, withAmps, numChannels, numPols);
    assert a == b[..i];
  }

  /** The time settings the table reader may override. */
  datatype TimeSettings = TimeSettings(timeStart: int, timeEnd: int, snapshots: bool)

  /** Irregular data (rows not a whole number of times) switch to full time
      synthesis over all times. */
  function TableTimeSettings(numRows: nat, numBaselines: nat, s: TimeSettings): (r: TimeSettings)
    requires numBaselines > 0
    ensures r == s || r == TimeSettings(0, -1, false)
  {
    if numRows % numBaselines != 0 then TimeSettings(0, -1, false) else s
  }

  /** Data with a whole number of times keep the settings; one extra row
      overrides them. */
  lemma RegularDataKeepSettings(numTimes: nat, numBaselines: nat, s: TimeSettings)
    requires numBaselines > 0
    ensures TableTimeSettings(numBaselines * numTimes, numBaselines, s) == s
    ensures numBaselines > 1 ==> TableTimeSettings(numBaselines * numTimes + 1, numBaselines, s) == TimeSettings(0, -1, false)
    ensures numBaselines == 1 ==> forall numRows: nat :: TableTimeSettings(numRows, 1, s) == s
  {
    DivInGroup(numBaselines, numTimes, numBaselines * numTimes);
    if numBaselines > 1 {
      DivInGroup(numBaselines, numTimes, numBaselines * numTimes + 1);
    }
  }

  // ---------------------------------------------------------------------
  // Tables without baselines

  /** As written, the table reader steps start_row by num_baselines. */
  function NextStartRow(startRow: nat, numBaselines: nat): nat
  {
    startRow + numBaselines
  }

  /** start_row after k steps of the row loop as written. */
  function StartRowAfter(k: nat, numBaselines: nat): nat
  {
    if k == 0 then 0 else NextStartRow(StartRowAfter(k - 1, numBaselines), numBaselines)
  }

  /** As written, a table of fewer than two stations has no baselines: the
      reader divides the row count by zero, and its row loop, entered with
      rows to read, never moves past row 0, however many steps it takes. */
  lemma {:induction false} FewStationsNeverAdvance(numStations: nat, numRows: nat, k: nat)
    requires numStations < 2 && numRows > 0
    ensures NumBaselines(numStations) == 0
    ensures StartRowAfter(k, NumBaselines(numStations)) == 0 < numRows
  {
    if k > 0 {
      FewStationsNeverAdvance(numStations, numRows, k - 1);
    }
  }

  /** The check the table reader evidently needs before it divides by the
      number of baselines: a table of fewer than two stations is refused
      with InvalidArgument; otherwise status, the status after the
      metadata calls, carries on. */
  function TableStatus(numStations: nat, status: Status): (r: Status)
    ensures r.IsError() <==> numStations < 2 || status.IsError()
    ensures numStations < 2 ==> r == InvalidArgument
    ensures numStations >= 2 ==> r == status
    ensures !r.IsError() ==> NumBaselines(numStations) > 0
  {
    if NumBaselines(numStations) == 0 then InvalidArgument else status
  }

  /** The outcome of a reader's passes entered with status: the calls
      made and the status left. The coordinate plan runs up to its first
      failure; oskar_imager_check_init then sets initStatus unless the
      status is already set; the full plan runs up to its first failure,
      and not at all once the status is set. update is the status each
      call, with the reads before it, leaves. */
  function TwoPasses(status: Status, coordPlan: seq<UpdateCall>, initStatus: Status,
                     fullPlan: seq<UpdateCall>, update: UpdateCall -> Status): (seq<UpdateCall>, Status)
  {
    var first := RunFrom(status, coordPlan, update);
    var afterInit := if first.1.IsError() then first.1 else initStatus;
    var second := RunFrom(afterInit, fullPlan, update);
    (first.0 + second.0, second.1)
  }

  /** The passes stop at the first failure: a status set on entry makes no
      call; the calls made are always a leading part of the two plans; the
      full pass starts only after a clear check_init; the status stays
      clear exactly when nothing failed, and then every planned call was
      made. */
  lemma TwoPassesStop(status: Status, coordPlan: seq<UpdateCall>, initStatus: Status,
                      fullPlan: seq<UpdateCall>, update: UpdateCall -> Status)
    ensures var out := TwoPasses(status, coordPlan, initStatus, fullPlan, update);
      && (status.IsError() ==> out == ([], status))
      && out.0 <= coordPlan + fullPlan
      && (|out.0| > |coordPlan| ==> !initStatus.IsError())
      && (!out.1.IsError() <==>
            (!status.IsError() && !initStatus.IsError()
             && forall c :: c in coordPlan + fullPlan ==> !update(c).IsError()))
      && (!out.1.IsError() ==> out.0 == coordPlan + fullPlan)
  {
    RunFromClear(status, coordPlan, update);
    var first := RunFrom(status, coordPlan, update);
    var afterInit := if first.1.IsError() then first.1 else initStatus;
    RunFromClear(afterInit, fullPlan, update);
    var plan := coordPlan + fullPlan;
    assert forall c :: c in plan <==> c in coordPlan || c in fullPlan;
    if !first.1.IsError() {
      assert first.0 + RunFrom(afterInit, fullPlan, update).0 <= plan;
    }
  }

  /** Chunk k holds the rows from its start up to B of them, and the next
      chunk, if any, starts B rows later. */
  lemma ChunkNext(numRows: nat, numBaselines: nat, k: nat)
    requires numBaselines > 0 && k < NumBlocks(numRows, numBaselines)
    ensures var ch := TableChunks(numRows, numBaselines);
      && ch[k].size == Min(numBaselines, numRows - ch[k].startRow)
      && (k + 1 < |ch| <==> ch[k].startRow + numBaselines < numRows)
      && (k + 1 < |ch| ==> ch[k + 1].startRow == ch[k].startRow + numBaselines)
  {
    ChunkStartBelow(numRows, numBaselines, k + 1);
    assert numBaselines * (k + 1) == numBaselines * k + numBaselines;
  }

  /** One more chunk of a table pass whose calls so far have succeeded. */
  lemma TableStep(ch: seq<Chunk>, k: nat, coordsOnly: bool, withAmps: bool, numChannels: nat, numPols: nat,
                  update: UpdateCall -> Status, status: Status)
    requires k < |ch| && !RunFrom(status, TablePass(ch, k, coordsOnly, withAmps, numChannels, numPols), update).1.IsError()
    ensures var plan := TablePass(ch, k, coordsOnly, withAmps, numChannels, numPols);
      var c := TableCall(k, ch[k], coordsOnly, withAmps, numChannels, numPols);
      && RunFrom(status, plan, update).0 == plan
      && RunFrom(status, TablePass(ch, k + 1, coordsOnly, withAmps, numChannels, numPols), update) == (plan + [c], update(c))
  {
    var plan := TablePass(ch, k, coordsOnly, withAmps, numChannels, numPols);
    var c := TableCall(k, ch[k], coordsOnly, withAmps, numChannels, numPols);
    assert TablePass(ch, k + 1, coordsOnly, withAmps, numChannels, numPols) == plan + [c];
    RunFromNext(status, plan, c, update);
  }

  /** A table pass stopped at chunk k by a failure has made all its calls. */
  lemma TableStop(ch: seq<Chunk>, k: nat, coordsOnly: bool, withAmps: bool, numChannels: nat, numPols: nat,
                  update: UpdateCall -> Status, status: Status)
    requires k <= |ch| && RunFrom(status, TablePass(ch, k, coordsOnly, withAmps, numChannels, numPols), update).1.IsError()
    ensures RunFrom(status, TablePass(ch, |ch|, coordsOnly, withAmps, numChannels, numPols), update)
      == RunFrom(status, TablePass(ch, k, coordsOnly, withAmps, numChannels, numPols), update)
  {
    TablePassPrefix(ch, k, |ch|, coordsOnly, withAmps, numChannels, numPols);
    RunFromDone(status, TablePass(ch, k, coordsOnly, withAmps, numChannels, numPols),
      TablePass(ch, |ch|, coordsOnly, withAmps, numChannels, numPols), update);
  }

  /** The driver state that the passes change: the imager's coordinate
      mode and the record of the update calls made. */
  class Driver {
    const weighting: ImagerUpdate.Weighting
    const algorithm: ImagerUpdate.Algorithm
    const range0: int
    const range1: int
    var coordsOnly: bool
    var calls: seq<UpdateCall>

    constructor (weighting: ImagerUpdate.Weighting, algorithm: ImagerUpdate.Algorithm, range0: int, range1: int)
      ensures this.weighting == weighting && this.algorithm == algorithm
      ensures this.range0 == range0 && this.range1 == range1
      ensures !coordsOnly && calls == []
    {
      this.weighting, this.algorithm := weighting, algorithm;
      this.range0, this.range1 := range0, range1;
      coordsOnly, calls := false, [];
    }

    /** The passes of oskar_imager_run_vis, entered with the status after
        the header read and the metadata calls: when needed, a coordinate
        pass without amplitudes in coordinate mode, check_init, then the
        full pass with amplitudes; each pass stops at the first failure,
        and coordinate mode is off again at the end whatever happened. */
    method RunVisPasses(blocks: seq<BlockDims>, numBaselines: nat, numPols: nat,
                        update: UpdateCall -> Status, initStatus: Status, status: Status) returns (st: Status)
      requires !coordsOnly
      modifies this
      ensures !coordsOnly
      ensures var out := TwoPasses(status,
          if NeedsCoordPass(weighting, algorithm)
          then VisPass(blocks, |blocks|, true, false, range0, range1, numBaselines, numPols) else [],
          initStatus, VisPass(blocks, |blocks|, false, true, range0, range1, numBaselines, numPols), update);
        calls == old(calls) + out.0 && st == out.1
    {
      ghost var coordPlan := if NeedsCoordPass(weighting, algorithm)
        then VisPass(blocks, |blocks|, true, false, range0, range1, numBaselines, numPols) else [];
      ghost var fullPlan := VisPass(blocks, |blocks|, false, true, range0, range1, numBaselines, numPols);
      ghost var first := RunFrom(status, coordPlan, update);
      st := status;
      if weighting == ImagerUpdate.Uniform || algorithm == ImagerUpdate.WProj {
        coordsOnly := true;
        st := VisBlocks(blocks, false, numBaselines, numPols, update, st);
        coordsOnly := false;
      }
      if !st.IsError() {
        st := initStatus;
      }
      ghost var second := RunFrom(st, fullPlan, update);
      st := VisBlocks(blocks, true, numBaselines, numPols, update, st);
      AppendAssoc(old(calls), first.0, second.0);
      assert TwoPasses(status, coordPlan, initStatus, fullPlan, update) == (first.0 + second.0, second.1);
    }

    /** One loop over the blocks of the visibility file, entered with
        status and left at the first failure. */
    method VisBlocks(blocks: seq<BlockDims>, withAmps: bool, numBaselines: nat, numPols: nat,
                     update: UpdateCall -> Status, status: Status) returns (st: Status)
      modifies this`calls
      ensures var out := RunFrom(status,
          VisPass(blocks, |blocks|, coordsOnly, withAmps, range0, range1, numBaselines, numPols), update);
        calls == old(calls) + out.0 && st == out.1
    {
      st := status;
      var i := 0;
      while i < |blocks|
        invariant 0 <= i <= |blocks|
        invariant var out := RunFrom(status,
            VisPass(blocks, i, coordsOnly, withAmps, range0, range1, numBaselines, numPols), update);
          calls == old(calls) + out.0 && st == out.1
      {
        ghost var plan := VisPass(blocks, i, coordsOnly, withAmps, range0, range1, numBaselines, numPols);
        if st.IsError() {
          VisPassPrefix(blocks, i, |blocks|, coordsOnly, withAmps, range0, range1, numBaselines, numPols);
          RunFromDone(status, plan,
            VisPass(blocks, |blocks|, coordsOnly, withAmps, range0, range1, numBaselines, numPols), update);
          return;
        }
        var d := blocks[i];
        if d.startTime + d.numTimes - 1 >= range0 && (d.startTime <= range1 || range1 < 0) {
          var c := UpdateCall(coordsOnly, withAmps, d.startTime, d.startTime + d.numTimes - 1,
                              d.startChan, d.startChan + d.numChans - 1, numBaselines, numPols);
          assert VisPass(blocks, i + 1, coordsOnly, withAmps, range0, range1, numBaselines, numPols) == plan + [c];
          RunFromNext(status, plan, c, update);
          calls := calls + [c];
          st := update(c);
        } else {
          assert VisPass(blocks, i + 1, coordsOnly, withAmps, range0, range1, numBaselines, numPols) == plan;
        }
        i := i + 1;
      }
    }

    /** The passes of oskar_imager_run_ms, entered with the status after
        the metadata calls and the station count of the table: a table of
        fewer than two stations is refused before any pass; otherwise the
        passes run as for the visibility file, over chunks of one time's
        rows. */
    method RunTablePasses(numRows: nat, numStations: nat, numChannels: nat, numPols: nat,
                          update: UpdateCall -> Status, initStatus: Status, status: Status) returns (st: Status)
      requires !coordsOnly
      modifies this
      ensures !coordsOnly
      ensures TableStatus(numStations, status).IsError() ==>
        calls == old(calls) && st == TableStatus(numStations, status)
      ensures !TableStatus(numStations, status).IsError() ==>
        var ch := TableChunks(numRows, NumBaselines(numStations));
        var out := TwoPasses(status,
          if NeedsCoordPass(weighting, algorithm) then TablePass(ch, |ch|, true, false, numChannels, numPols) else [],
          initStatus, TablePass(ch, |ch|, false, true, numChannels, numPols), update);
        calls == old(calls) + out.0 && st == out.1
    {
      st := TableStatus(numStations, status);
      if st.IsError() {
        return;
      }
      st := TableChunkPasses(numRows, NumBaselines(numStations), numChannels, numPols, update, initStatus, st);
    }

    /** The two passes over the chunks of a table with baselines. */
    method TableChunkPasses(numRows: nat, numBaselines: nat, numChannels: nat, numPols: nat,
                            update: UpdateCall -> Status, initStatus: Status, status: Status) returns (st: Status)
      requires !coordsOnly && numBaselines > 0
      modifies this
      ensures !coordsOnly
      ensures var ch := TableChunks(numRows, numBaselines);
        var out := TwoPasses(status,
          if NeedsCoordPass(weighting, algorithm) then TablePass(ch, |ch|, true, false, numChannels, numPols) else [],
          initStatus, TablePass(ch, |ch|, false, true, numChannels, numPols), update);
        calls == old(calls) + out.0 && st == out.1
    {
      ghost var ch := TableChunks(numRows, numBaselines);
      ghost var coordPlan := if NeedsCoordPass(weighting, algorithm)
        then TablePass(ch, |ch|, true, false, numChannels, numPols) else [];
      ghost var fullPlan := TablePass(ch, |ch|, false, true, numChannels, numPols);
      ghost var first := RunFrom(status, coordPlan, update);
      st := status;
      if weighting == ImagerUpdate.Uniform || algorithm == ImagerUpdate.WProj {
        coordsOnly := true;
        st := TableRows(numRows, numBaselines, false, numChannels, numPols, update, st);
        coordsOnly := false;
      }
      if !st.IsError() {
        st := initStatus;
      }
      ghost var second := RunFrom(st, fullPlan, update);
      st := TableRows(numRows, numBaselines, true, numChannels, numPols, update, st);
      AppendAssoc(old(calls), first.0, second.0);
      assert TwoPasses(status, coordPlan, initStatus, fullPlan, update) == (first.0 + second.0, second.1);
    }

    /** One loop over the table in chunks of numBaselines rows, entered
        with status and left at the first failure. */
    method TableRows(numRows: nat, numBaselines: nat, withAmps: bool, numChannels: nat, numPols: nat,
                     update: UpdateCall -> Status, status: Status) returns (st: Status)
      requires numBaselines > 0
      modifies this`calls
      ensures var ch := TableChunks(numRows, numBaselines);
        var out := RunFrom(status, TablePass(ch, |ch|, coordsOnly, withAmps, numChannels, numPols), update);
        calls == old(calls) + out.0 && st == out.1
    {
      ghost var ch := TableChunks(numRows, numBaselines);
      st := status;
      var startRow, startTime, endTime := 0, 0, 0;
      ghost var k := 0;
      ChunkStartBelow(numRows, numBaselines, 0);
      while startRow < numRows
        invariant k <= |ch| && startTime == endTime == k
        invariant k < |ch| ==> startRow == ch[k].startRow
        invariant k < |ch| <==> startRow < numRows
        invariant var out := RunFrom(status, TablePass(ch, k, coordsOnly, withAmps, numChannels, numPols), update);
          calls == old(calls) + out.0 && st == out.1
      {
        if st.IsError() {
          TableStop(ch, k, coordsOnly, withAmps, numChannels, numPols, update, status);
          return;
        }
        ChunkNext(numRows, numBaselines, k);
        var blockSize := numRows - startRow;
        if blockSize > numBaselines {
          blockSize := numBaselines;
        }
        var c := UpdateCall(coordsOnly, withAmps, startTime, endTime, 0, numChannels - 1, blockSize, numPols);
        TableStep(ch, k, coordsOnly, withAmps, numChannels, numPols, update, status);
        calls := calls + [c];
        st := update(c);
        startTime, endTime := startTime + 1, endTime + 1;
        startRow := startRow + numBaselines;
        k := k + 1;
      }
    }
  }

  // ---------------------------------------------------------------------
  // Buffer rearrangements of the table reader

  /** u, v and w interleaved as the UVW column stores them. */
  function Interleave(u: seq<real>, v: seq<real>, w: seq<real>): (r: seq<real>)
    requires |u| == |v| == |w|
    ensures |r| == 3 * |u|
  {
    if |u| == 0 then [] else [u[0], v[0], w[0]] + Interleave(u[1..], v[1..], w[1..])
  }

  lemma {:induction false} InterleaveIndex(u: seq<real>, v: seq<real>, w: seq<real>, i: nat)
    requires |u| == |v| == |w| && i < |u|
    ensures Interleave(u, v, w)[3 * i] == u[i]
    ensures Interleave(u, v, w)[3 * i + 1] == v[i]
    ensures Interleave(u, v, w)[3 * i + 2] == w[i]
  {
    if i > 0 {
      InterleaveIndex(u[1..], v[1..], w[1..], i - 1);
    }
  }

  /** Splitting up the baseline coordinates: u[i], v[i], w[i] are the three
      components of triple i; entries from n on are untouched. */
  method SplitUvw(uvw: array<real>, n: nat, u: array<real>, v: array<real>, w: array<real>)
    requires 3 * n <= uvw.Length && n <= u.Length && n <= v.Length && n <= w.Length
    requires u != v && v != w && u != w && uvw != u && uvw != v && uvw != w
    modifies u, v, w
    ensures forall i :: 0 <= i < n ==> u[i] == uvw[3 * i] && v[i] == uvw[3 * i + 1] && w[i] == uvw[3 * i + 2]
    ensures u[n..] == old(u[n..]) && v[n..] == old(v[n..]) && w[n..] == old(w[n..])
  {
    var i := 0;
    while i < n
      invariant 0 <= i <= n
      invariant forall j :: 0 <= j < i ==> u[j] == uvw[3 * j] && v[j] == uvw[3 * j + 1] && w[j] == uvw[3 * j + 2]
      invariant u[n..] == old(u[n..]) && v[n..] == old(v[n..]) && w[n..] == old(w[n..])
    {
      u[i] := uvw[3 * i + 0];
      v[i] := uvw[3 * i + 1];
      w[i] := uvw[3 * i + 2];
      i := i + 1;
    }
  }

  /** The split loses nothing: interleaving the three columns again gives
      back the first 3 n values of uvw. */
  lemma SplitIsInverse(uvw: seq<real>, u: seq<real>, v: seq<real>, w: seq<real>, n: nat)
    requires 3 * n <= |uvw| && n <= |u| && n <= |v| && n <= |w|
    requires forall i :: 0 <= i < n ==> u[i] == uvw[3 * i] && v[i] == uvw[3 * i + 1] && w[i] == uvw[3 * i + 2]
    ensures Interleave(u[..n], v[..n], w[..n]) == uvw[..3 * n]
  {
    var r := Interleave(u[..n], v[..n], w[..n]);
    forall k | 0 <= k < 3 * n
      ensures r[k] == uvw[k]
    {
      FlatOnto(n, 3, k);
      var i := k / 3;
      InterleaveIndex(u[..n], v[..n], w[..n], i);
      assert k == 3 * i + k % 3;
    }
  }

  /** Position of (channel c, baseline b, polarisation p) in the
      channel-major layout the imager expects. */
  function OutIndex(B: nat, P: nat, c: nat, b: nat, p: nat): nat
  {
    Flat(P, Flat(B, c, b), p)
  }

  /** Position of the same amplitude in the baseline-major rows of the
      table. */
  function InIndex(C: nat, P: nat, c: nat, b: nat, p: nat): nat
  {
    Flat(P, Flat(C, b, c), p)
  }

  lemma OutIndexInRange(C: nat, B: nat, P: nat, c: nat, b: nat, p: nat)
    requires c < C && b < B && p < P
    ensures OutIndex(B, P, c, b, p) < C * B * P
  {
    FlatInRange(C, B, c, b);
    FlatInRange(C * B, P, Flat(B, c, b), p);
  }

  lemma InIndexInRange(C: nat, B: nat, P: nat, c: nat, b: nat, p: nat)
    requires c < C && b < B && p < P
    ensures InIndex(C, P, c, b, p) < C * B * P
  {
    FlatInRange(B, C, b, c);
    FlatInRange(B * C, P, Flat(C, b, c), p);
    assert B * C * P == C * B * P;
  }

  lemma OutIndexInjective(B: nat, P: nat, c1: nat, b1: nat, p1: nat, c2: nat, b2: nat, p2: nat)
    requires b1 < B && b2 < B && p1 < P && p2 < P
    requires OutIndex(B, P, c1, b1, p1) == OutIndex(B, P, c2, b2, p2)
    ensures c1 == c2 && b1 == b2 && p1 == p2
  {
    FlatInjective(P, Flat(B, c1, b1), p1, Flat(B, c2, b2), p2);
    FlatInjective(B, c1, b1, c2, b2);
  }

  lemma InIndexInjective(C: nat, P: nat, c1: nat, b1: nat, p1: nat, c2: nat, b2: nat, p2: nat)
    requires c1 < C && c2 < C && p1 < P && p2 < P
    requires InIndex(C, P, c1, b1, p1) == InIndex(C, P, c2, b2, p2)
    ensures c1 == c2 && b1 == b2 && p1 == p2
  {
    FlatInjective(P, Flat(C, b1, c1), p1, Flat(C, b2, c2), p2);
    FlatInjective(C, b1, c1, b2, c2);
  }

  /** The transpose is a bijection on the block: every position of either
      layout belongs to exactly one (c, b, p), so every input amplitude lands
      in exactly one output position. */
  lemma TransposeBijective(C: nat, B: nat, P: nat, j: nat)
    requires C > 0 && B > 0 && P > 0 && j < C * B * P
    ensures var q := j / P;
      q / B < C && q % B < B && j % P < P &&
      OutIndex(B, P, q / B, q % B, j % P) == j
    ensures var q := j / P;
      q % C < C && q / C < B && j % P < P &&
      InIndex(C, P, q % C, q / C, j % P) == j
  {
    assert C * B * P == P * (C * B) == P * (B * C);
    FlatOnto(C * B, P, j);
    FlatOnto(C, B, j / P);
    FlatOnto(B * C, P, j);
    FlatOnto(B, C, j / P);
  }

  /** The output positions of the triples before position k in output
      order hold their input amplitudes. */
  ghost predicate TransposedBelow(out: seq<Complex>, inp: seq<Complex>, C: nat, B: nat, P: nat, k: nat)
  {
    forall c: nat, b: nat, p: nat :: c < C && b < B && p < P && OutIndex(B, P, c, b, p) < k ==>
      OutIndex(B, P, c, b, p) < |out| && InIndex(C, P, c, b, p) < |inp| &&
      out[OutIndex(B, P, c, b, p)] == inp[InIndex(C, P, c, b, p)]
  }

  /** Swapping the baseline and channel dimensions of a block of B rows:
      afterwards the amplitude of (c, b, p) sits at its channel-major
      position. Each complex element stands for the two floats the loop
      copies. */
  method Transpose(inp: array<Complex>, out: array<Complex>, C: nat, B: nat, P: nat)
    requires inp != out && C * B * P <= inp.Length && C * B * P <= out.Length
    modifies out
    ensures forall c: nat, b: nat, p: nat :: c < C && b < B && p < P ==>
      OutIndex(B, P, c, b, p) < out.Length && InIndex(C, P, c, b, p) < inp.Length &&
      out[OutIndex(B, P, c, b, p)] == inp[InIndex(C, P, c, b, p)]
  {
    var c := 0;
    while c < C
      invariant 0 <= c <= C
      invariant TransposedBelow(out[..], inp[..], C, B, P, Flat(P, Flat(B, c, 0), 0))
    {
      TransposeChannel(inp, out, C, B, P, c);
      NextChannelStart(B, c);
      c := c + 1;
    }
    TransposedAll(out[..], inp[..], C, B, P);
  }

  lemma NextChannelStart(B: nat, c: nat)
    ensures Flat(B, c, B) == Flat(B, c + 1, 0)
  {
    assert B * c + B == B * (c + 1);
  }

  /** Once the positions below the end of the last channel are done, all
      of them are. */
  lemma TransposedAll(out: seq<Complex>, inp: seq<Complex>, C: nat, B: nat, P: nat)
    requires TransposedBelow(out, inp, C, B, P, Flat(P, Flat(B, C, 0), 0))
    ensures forall c: nat, b: nat, p: nat :: c < C && b < B && p < P ==>
      OutIndex(B, P, c, b, p) < |out| && InIndex(C, P, c, b, p) < |inp| &&
      out[OutIndex(B, P, c, b, p)] == inp[InIndex(C, P, c, b, p)]
  {
    forall c: nat, b: nat, p: nat | c < C && b < B && p < P
      ensures OutIndex(B, P, c, b, p) < Flat(P, Flat(B, C, 0), 0)
    {
      OutIndexInRange(C, B, P, c, b, p);
      assert C * B * P == P * (B * C);
    }
  }

  /** The loop over the baselines of channel c. */
  method TransposeChannel(inp: array<Complex>, out: array<Complex>, C: nat, B: nat, P: nat, c: nat)
    requires inp != out && C * B * P <= inp.Length && C * B * P <= out.Length && c < C
    requires TransposedBelow(out[..], inp[..], C, B, P, Flat(P, Flat(B, c, 0), 0))
    modifies out
    ensures TransposedBelow(out[..], inp[..], C, B, P, Flat(P, Flat(B, c, B), 0))
  {
    var b := 0;
    while b < B
      invariant 0 <= b <= B
      invariant TransposedBelow(out[..], inp[..], C, B, P, Flat(P, Flat(B, c, b), 0))
    {
      TransposeBaseline(inp, out, C, B, P, c, b);
      assert P * Flat(B, c, b) + P == P * Flat(B, c, b + 1);
      b := b + 1;
    }
  }

  /** The loop over the polarisations of baseline b in channel c. */
  method TransposeBaseline(inp: array<Complex>, out: array<Complex>, C: nat, B: nat, P: nat, c: nat, b: nat)
    requires inp != out && C * B * P <= inp.Length && C * B * P <= out.Length && c < C && b < B
    requires TransposedBelow(out[..], inp[..], C, B, P, Flat(P, Flat(B, c, b), 0))
    modifies out
    ensures TransposedBelow(out[..], inp[..], C, B, P, Flat(P, Flat(B, c, b), P))
  {
    var p := 0;
    while p < P
      invariant 0 <= p <= P
      invariant TransposedBelow(out[..], inp[..], C, B, P, OutIndex(B, P, c, b, p))
    {
      var k := OutIndex(B, P, c, b, p);
      var l := InIndex(C, P, c, b, p);
      OutIndexInRange(C, B, P, c, b, p);
      InIndexInRange(C, B, P, c, b, p);
      ghost var before := out[..];
      out[k] := inp[l];
      TransposeStep(before, out[..], inp[..], C, B, P, c, b, p);
      p := p + 1;
    }
  }

  /** Writing the amplitude of (c, b, p) extends the transposed prefix by
      one position. */
  lemma TransposeStep(before: seq<Complex>, after: seq<Complex>, inp: seq<Complex>,
                      C: nat, B: nat, P: nat, c: nat, b: nat, p: nat)
    requires c < C && b < B && p < P && |before| == |after| && C * B * P <= |inp|
    requires OutIndex(B, P, c, b, p) < |after| && InIndex(C, P, c, b, p) < |inp|
    requires TransposedBelow(before, inp, C, B, P, OutIndex(B, P, c, b, p))
    requires after == before[OutIndex(B, P, c, b, p) := inp[InIndex(C, P, c, b, p)]]
    ensures TransposedBelow(after, inp, C, B, P, OutIndex(B, P, c, b, p) + 1)
  {
    forall c': nat, b': nat, p': nat | c' < C && b' < B && p' < P && OutIndex(B, P, c', b', p') < OutIndex(B, P, c, b, p) + 1
      ensures OutIndex(B, P, c', b', p') < |after| && InIndex(C, P, c', b', p') < |inp|
      ensures after[OutIndex(B, P, c', b', p')] == inp[InIndex(C, P, c', b', p')]
    {
      if OutIndex(B, P, c', b', p') == OutIndex(B, P, c, b, p) {
        OutIndexInjective(B, P, c', b', p', c, b, p);
      }
    }
  }
}
