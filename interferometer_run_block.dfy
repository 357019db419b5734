/** One visibility block of the interferometer simulator
    (oskar_interferometer_run_block): the block index arithmetic that picks
    the block's time and channel ranges, the work-unit loop over (sky
    chunk, time) pairs with its channel loop, the index guard of
    sim_baselines, the output offset and the digit count of the progress
    messages. The correlators and beam evaluation are not modelled: each
    simulation is a recorded call whose status the caller supplies. */
module InterferometerRunBlock {
  import opened Common
  import ImagerRun
  import opened VisBlockData

  // ---------------------------------------------------------------------
  // Block index arithmetic

  /** The time and channel ranges of a block, both ends inclusive. */
  datatype BlockRange = BlockRange(timeStart: int, timeEnd: int, chanStart: int, chanEnd: int)
  {
    function NumTimes(): int { 1 + timeEnd - timeStart }
    function NumChans(): int { 1 + chanEnd - chanStart }
  }

  /** The end of a range of at most maxPerBlock indices from start, clamped
      to the last index total - 1. */
  function RangeEnd(start: int, maxPerBlock: int, total: int): (r: int)
    ensures r == Min(start + maxPerBlock - 1, total - 1)
  {
    if start + maxPerBlock - 1 >= total then total - 1 else start + maxPerBlock - 1
  }

  lemma NumBlocksPositive(total: nat, maxPerBlock: nat)
    requires maxPerBlock > 0 && total > 0
    ensures ImagerRun.NumBlocks(total, maxPerBlock) > 0
  {
    ImagerRun.NumBlocksIsCeiling(total, maxPerBlock);
  }

  /** The ranges of block blockIndex: channel blocks vary fastest, so the
      block is channel block blockIndex mod num_blocks_chan of time block
      blockIndex div num_blocks_chan. */
  function Range(blockIndex: nat, totalChans: nat, totalTimes: nat, maxChans: nat, maxTimes: nat): BlockRange
    requires maxChans > 0 && totalChans > 0
  {
    NumBlocksPositive(totalChans, maxChans);
    var numBlocksChan := ImagerRun.NumBlocks(totalChans, maxChans);
    var chanStart := (blockIndex % numBlocksChan) * maxChans;
    var timeStart := (blockIndex / numBlocksChan) * maxTimes;
    BlockRange(timeStart, RangeEnd(timeStart, maxTimes, totalTimes),
               chanStart, RangeEnd(chanStart, maxChans, totalChans))
  }

  /** A block index splits into its time block and its channel block, and
      the channel block is one of the num_blocks_chan channel blocks. */
  lemma BlockIndexSplits(blockIndex: nat, totalChans: nat, maxChans: nat)
    requires maxChans > 0 && totalChans > 0
    ensures var n := ImagerRun.NumBlocks(totalChans, maxChans);
      n > 0 && blockIndex == (blockIndex / n) * n + blockIndex % n && blockIndex % n < n
  {
    NumBlocksPositive(totalChans, maxChans);
  }

  /** Block k of maxPerBlock indices starts inside [0, total) when k is
      below the number of blocks. */
  lemma BlockStartInside(k: nat, total: nat, maxPerBlock: nat)
    requires maxPerBlock > 0 && k < ImagerRun.NumBlocks(total, maxPerBlock)
    ensures k * maxPerBlock < total
  {
    ImagerRun.NumBlocksIsCeiling(total, maxPerBlock);
    var n := ImagerRun.NumBlocks(total, maxPerBlock);
    MulMonotone(maxPerBlock, k, n - 1);
  }

  /** Every block has between 1 and max_channels_per_block channels, and a
      block whose time block is in range has between 1 and
      max_times_per_block times. */
  lemma RangeSizes(blockIndex: nat, totalChans: nat, totalTimes: nat, maxChans: nat, maxTimes: nat)
    requires maxChans > 0 && totalChans > 0 && maxTimes > 0
    ensures var r := Range(blockIndex, totalChans, totalTimes, maxChans, maxTimes);
      && 1 <= r.NumChans() <= maxChans
      && 0 <= r.chanStart <= r.chanEnd < totalChans
      && (blockIndex / ImagerRun.NumBlocks(totalChans, maxChans) < ImagerRun.NumBlocks(totalTimes, maxTimes) ==>
            1 <= r.NumTimes() <= maxTimes && 0 <= r.timeStart <= r.timeEnd < totalTimes)
  {
    NumBlocksPositive(totalChans, maxChans);
    var n := ImagerRun.NumBlocks(totalChans, maxChans);
    BlockStartInside(blockIndex % n, totalChans, maxChans);
    if blockIndex / n < ImagerRun.NumBlocks(totalTimes, maxTimes) {
      BlockStartInside(blockIndex / n, totalTimes, maxTimes);
    }
  }

  /** Consecutive channel blocks tile the channels: each block starts just
      after the previous one ends, and the last block ends at the last
      channel. */
  lemma ChannelBlocksTile(k: nat, totalChans: nat, maxChans: nat)
    requires maxChans > 0 && totalChans > 0 && k < ImagerRun.NumBlocks(totalChans, maxChans)
    ensures k + 1 < ImagerRun.NumBlocks(totalChans, maxChans) ==>
      RangeEnd(k * maxChans, maxChans, totalChans) + 1 == (k + 1) * maxChans
    ensures k + 1 == ImagerRun.NumBlocks(totalChans, maxChans) ==>
      RangeEnd(k * maxChans, maxChans, totalChans) == totalChans - 1
  {
    ImagerRun.NumBlocksIsCeiling(totalChans, maxChans);
    var n := ImagerRun.NumBlocks(totalChans, maxChans);
    assert (k + 1) * maxChans == k * maxChans + maxChans;
    if k + 1 < n {
      BlockStartInside(k + 1, totalChans, maxChans);
    } else {
      assert maxChans * n == (k + 1) * maxChans;
    }
  }

  // ---------------------------------------------------------------------
  // Work units

  /** One call of sim_baselines: the sky chunk, the channel and time
      indices inside the block, and the same indices in the whole
      simulation. */
  datatype SimCall = SimCall(chunk: nat, channelBlock: nat, timeBlock: nat, channelSim: int, timeSim: int)

  /** Work unit w is sky chunk w div num_times_block at time w mod
      num_times_block of the block, for every channel of the block. */
  function UnitCalls(w: nat, r: BlockRange): (s: seq<SimCall>)
    requires r.NumTimes() > 0
    ensures |s| == Max(r.NumChans(), 0)
  {
    var chunk := w / r.NumTimes();
    var time := w % r.NumTimes();
    seq(Max(r.NumChans(), 0), (ch: nat) => SimCall(chunk, ch, time, r.chanStart + ch, r.timeStart + time))
  }

  /** The calls of work units w0 .. n - 1, in order. */
  function UnitsCalls(w0: nat, n: int, r: BlockRange): seq<SimCall>
    requires n <= w0 || r.NumTimes() > 0
    decreases n - w0
  {
    if n <= w0 then [] else UnitsCalls(w0, n - 1, r) + UnitCalls(n - 1, r)
  }

  /** A work unit below num_times_block * total_chunks names one (chunk,
      time) pair of the block: w == chunk * num_times_block + time. */
  lemma {:induction false} WorkUnitDecomposes(w: nat, numTimesBlock: int, totalChunks: nat)
    requires w < numTimesBlock * totalChunks
    ensures numTimesBlock > 0
    ensures w == (w / numTimesBlock) * numTimesBlock + w % numTimesBlock
    ensures 0 <= w % numTimesBlock < numTimesBlock && w / numTimesBlock < totalChunks
  {
    NonPositiveProduct(numTimesBlock, totalChunks);
    var q := w / numTimesBlock;
    if q >= totalChunks {
      MulMonotone(numTimesBlock, totalChunks, q);
    }
  }

  /** Every call the work units issue lies inside the block: sim_baselines'
      index guard never rejects it, and its chunk exists. */
  lemma {:induction false} UnitsCallsInBlock(w0: nat, n: int, r: BlockRange, totalChunks: nat, i: nat)
    requires n <= r.NumTimes() * totalChunks && (n <= w0 || r.NumTimes() > 0)
    requires i < |UnitsCalls(w0, n, r)|
    ensures var call := UnitsCalls(w0, n, r)[i];
      && call.timeBlock < r.NumTimes() && call.channelBlock < r.NumChans()
      && call.chunk < totalChunks
      && call.timeSim == r.timeStart + call.timeBlock && call.channelSim == r.chanStart + call.channelBlock
      && Flat(r.NumTimes(), call.chunk, call.timeBlock) < n
    decreases n - w0
  {
    var earlier := UnitsCalls(w0, n - 1, r);
    if i < |earlier| {
      UnitsCallsInBlock(w0, n - 1, r, totalChunks, i);
      assert UnitsCalls(w0, n, r)[i] == earlier[i];
    } else {
      var call := UnitsCalls(w0, n, r)[i];
      assert call == UnitCalls(n - 1, r)[i - |earlier|];
      WorkUnitDecomposes(n - 1, r.NumTimes(), totalChunks);
    }
  }

  // ---------------------------------------------------------------------
  // The simulator's state and the block loop

  class Interferometer {
    const hasHeader: bool
    const numSkyChunks: nat
    const numChannels: nat
    const numTimeSteps: nat
    const maxChannelsPerBlock: nat
    const maxTimesPerBlock: nat
    const coordsOnly: bool
    /** The shared work-unit counter. */
    var workUnitIndex: nat
    /** The chunk last copied to the device, -1 before the first. */
    var previousChunkIndex: int
    /** The visibility block's ranges after resizing. */
    var blockRange: BlockRange
    /** The sim_baselines calls made, the sky chunks copied to the device
        and the host buffers the block was copied to, in order. */
    var calls: seq<SimCall>
    var chunkCopies: seq<nat>
    var hostCopies: seq<nat>

    constructor (hasHeader: bool, numSkyChunks: nat, numChannels: nat, numTimeSteps: nat,
                 maxChannelsPerBlock: nat, maxTimesPerBlock: nat, coordsOnly: bool)
      ensures this.hasHeader == hasHeader && this.numSkyChunks == numSkyChunks
      ensures this.numChannels == numChannels && this.numTimeSteps == numTimeSteps
      ensures this.maxChannelsPerBlock == maxChannelsPerBlock && this.maxTimesPerBlock == maxTimesPerBlock
      ensures this.coordsOnly == coordsOnly
      ensures workUnitIndex == 0 && previousChunkIndex == -1
      ensures calls == [] && chunkCopies == [] && hostCopies == []
    {
      this.hasHeader, this.numSkyChunks := hasHeader, numSkyChunks;
      this.numChannels, this.numTimeSteps := numChannels, numTimeSteps;
      this.maxChannelsPerBlock, this.maxTimesPerBlock := maxChannelsPerBlock, maxTimesPerBlock;
      this.coordsOnly := coordsOnly;
      workUnitIndex, previousChunkIndex := 0, -1;
      blockRange := BlockRange(0, -1, 0, -1);
      calls, chunkCopies, hostCopies := [], [], [];
    }

    /** oskar_interferometer_run_block for one device. */
    method RunBlock(blockIndex: nat, simulate: SimCall -> Status, status: Status) returns (st: Status)
      requires hasHeader ==> maxChannelsPerBlock > 0 && numChannels > 0
      modifies this
      ensures status.IsError() || !hasHeader ==> unchanged(this)
      ensures status.IsError() ==> st == status
      ensures !status.IsError() && !hasHeader ==> st == MemoryNotAllocated
      ensures !status.IsError() && hasHeader ==>
        var r := Range(blockIndex, numChannels, numTimeSteps, maxChannelsPerBlock, maxTimesPerBlock);
        var n := r.NumTimes() * numSkyChunks;
        && blockRange == r
        && hostCopies == old(hostCopies) + (if st.IsError() then [] else [blockIndex % 2])
        && (coordsOnly ==> st == Success && calls == old(calls) && workUnitIndex == old(workUnitIndex))
        && (!coordsOnly ==>
              && calls == old(calls) + UntilFailure(UnitsCalls(old(workUnitIndex), n, r), simulate)
              && st == FirstFailure(UnitsCalls(old(workUnitIndex), n, r), simulate)
              && (!st.IsError() ==> workUnitIndex == Max(old(workUnitIndex), n) + 1)
              && (st.IsError() ==>
                    && workUnitIndex <= n + 1 && UnitFailed(old(workUnitIndex), workUnitIndex - 1, r, simulate)))
    {
      if status.IsError() {
        return status;
      }
      if !hasHeader {
        return MemoryNotAllocated;
      }
      var r := Range(blockIndex, numChannels, numTimeSteps, maxChannelsPerBlock, maxTimesPerBlock);
      blockRange := r;
      st := Success;
      if !coordsOnly {
        st := RunWorkUnits(r, simulate);
      }
      if !st.IsError() {
        hostCopies := hostCopies + [blockIndex % 2];
      }
    }

    /** The work-unit loop: take the next unit from the counter, stop when
        it is past the block's units or after a failure, otherwise copy the
        sky chunk if it changed and simulate every channel. */
    method RunWorkUnits(r: BlockRange, simulate: SimCall -> Status) returns (st: Status)
      modifies this`workUnitIndex, this`previousChunkIndex, this`calls, this`chunkCopies
      ensures var n := r.NumTimes() * numSkyChunks;
        && calls == old(calls) + UntilFailure(UnitsCalls(old(workUnitIndex), n, r), simulate)
        && st == FirstFailure(UnitsCalls(old(workUnitIndex), n, r), simulate)
        && (!st.IsError() ==> workUnitIndex == Max(old(workUnitIndex), n) + 1)
        && (st.IsError() ==>
              && workUnitIndex <= n + 1 && UnitFailed(old(workUnitIndex), workUnitIndex - 1, r, simulate))
    {
      var n := r.NumTimes() * numSkyChunks;
      ghost var w0 := workUnitIndex;
      st := Success;
      var w := workUnitIndex;
      workUnitIndex := workUnitIndex + 1;
      while w < n && !st.IsError()
        invariant w0 <= w && (w > w0 ==> w <= n) && workUnitIndex == w + 1
        invariant w <= w0 || r.NumTimes() > 0
        invariant UnitsRun(old(calls), calls, st, w0, w, r, simulate)
        decreases n - w
      {
        assert r.NumTimes() > 0 by {
          WorkUnitDecomposes(w, r.NumTimes(), numSkyChunks);
        }
        ghost var before := calls;
        st := RunWorkUnit(w, r, simulate);
        UnitsAdvance(old(calls), before, calls, st, w0, w, r, simulate);
        w := w + 1;
        workUnitIndex := w + 1;
      }
      if !st.IsError() {
        assert w == Max(w0, n);
      } else {
        FailureStays(w0, w, n, r, simulate);
      }
    }

    /** One work unit: the chunk is copied when it differs from the
        previous one, then channel after channel is simulated until one
        sets the status. */
    method RunWorkUnit(w: nat, r: BlockRange, simulate: SimCall -> Status) returns (st: Status)
      requires r.NumTimes() > 0
      modifies this`previousChunkIndex, this`calls, this`chunkCopies
      ensures chunkCopies == old(chunkCopies) + (if w / r.NumTimes() != old(previousChunkIndex) then [w / r.NumTimes()] else [])
      ensures previousChunkIndex == w / r.NumTimes()
      ensures calls == old(calls) + UntilFailure(UnitCalls(w, r), simulate)
      ensures st == FirstFailure(UnitCalls(w, r), simulate)
    {
      var chunk := w / r.NumTimes();
      var time := w - chunk * r.NumTimes();
      assert time == w % r.NumTimes();
      if chunk != previousChunkIndex {
        chunkCopies := chunkCopies + [chunk];
      }
      st := RunChannels(UnitCalls(w, r), simulate);
      previousChunkIndex := chunk;
    }

    /** The channel loop of one work unit: the calls in order until one
        sets the status, which ends the loop. */
    method RunChannels(all: seq<SimCall>, simulate: SimCall -> Status) returns (st: Status)
      modifies this`calls
      ensures calls == old(calls) + UntilFailure(all, simulate)
      ensures st == FirstFailure(all, simulate)
    {
      st := Success;
      var ch := 0;
      while ch < |all|
        invariant 0 <= ch <= |all|
        invariant calls == old(calls) + UntilFailure(all[..ch], simulate)
        invariant st == FirstFailure(all[..ch], simulate)
      {
        if st.IsError() {
          FailureStaysSeq(all, ch, simulate);
          break;
        }
        var call := all[ch];
        assert all[..ch + 1] == all[..ch] + [call];
        UntilFailureStops(all[..ch], simulate);
        UntilFailureAppend(all[..ch], [call], simulate);
        assert UntilFailure([call], simulate) == [call];
        AppendAssoc(old(calls), all[..ch], [call]);
        calls := calls + [call];
        st := simulate(call);
        ch := ch + 1;
      }
      if ch == |all| {
        assert all[..ch] == all;
      }
    }
  }

  /** Work unit u - 1 is the one that failed: the units w0 .. u - 2 all
      succeeded and unit u - 1 set the status. */
  predicate UnitFailed(w0: nat, u: int, r: BlockRange, simulate: SimCall -> Status)
    requires u <= w0 || r.NumTimes() > 0
  {
    && w0 + 1 <= u
    && !FirstFailure(UnitsCalls(w0, u - 1, r), simulate).IsError()
    && FirstFailure(UnitsCalls(w0, u, r), simulate).IsError()
  }

  /** Running one more unit after units that all succeeded appends its
      calls up to its first failure. */
  lemma UnitsStep(w0: nat, w: nat, r: BlockRange, simulate: SimCall -> Status)
    requires w0 <= w && r.NumTimes() > 0
    ensures !FirstFailure(UnitsCalls(w0, w, r), simulate).IsError() ==>
      UntilFailure(UnitsCalls(w0, w, r), simulate) == UnitsCalls(w0, w, r)
    ensures !FirstFailure(UnitsCalls(w0, w, r), simulate).IsError() ==>
      UntilFailure(UnitsCalls(w0, w + 1, r), simulate) == UnitsCalls(w0, w, r) + UntilFailure(UnitCalls(w, r), simulate)
    ensures !FirstFailure(UnitsCalls(w0, w, r), simulate).IsError() ==>
      FirstFailure(UnitsCalls(w0, w + 1, r), simulate) == FirstFailure(UnitCalls(w, r), simulate)
  {
    var before := UnitsCalls(w0, w, r);
    assert UnitsCalls(w0, w + 1, r) == before + UnitCalls(w, r);
    UntilFailureStops(before, simulate);
    UntilFailureAppend(before, UnitCalls(w, r), simulate);
  }

  /** The units w0 .. w - 1 have run: their calls up to the first failure
      follow start, st is their first failure, and a failure was set by
      unit w - 1. */
  ghost predicate UnitsRun(start: seq<SimCall>, calls: seq<SimCall>, st: Status,
                           w0: nat, w: nat, r: BlockRange, simulate: SimCall -> Status)
    requires w <= w0 || r.NumTimes() > 0
  {
    && calls == start + UntilFailure(UnitsCalls(w0, w, r), simulate)
    && st == FirstFailure(UnitsCalls(w0, w, r), simulate)
    && (st.IsError() ==> UnitFailed(w0, w, r, simulate))
  }

  /** What one more successful-so-far work unit adds to the run of units
      w0 .. w - 1. */
  lemma UnitsAdvance(start: seq<SimCall>, before: seq<SimCall>, after: seq<SimCall>, st: Status,
                     w0: nat, w: nat, r: BlockRange, simulate: SimCall -> Status)
    requires w0 <= w && r.NumTimes() > 0
    requires !FirstFailure(UnitsCalls(w0, w, r), simulate).IsError()
    requires before == start + UntilFailure(UnitsCalls(w0, w, r), simulate)
    requires after == before + UntilFailure(UnitCalls(w, r), simulate)
    requires st == FirstFailure(UnitCalls(w, r), simulate)
    ensures UnitsRun(start, after, st, w0, w + 1, r, simulate)
  {
    UnitsStep(w0, w, r, simulate);
    AppendAssoc(start, UnitsCalls(w0, w, r), UntilFailure(UnitCalls(w, r), simulate));
  }

  /** Once a prefix of the channel calls has failed, the whole run stops
      there. */
  lemma FailureStaysSeq(all: seq<SimCall>, k: nat, simulate: SimCall -> Status)
    requires k <= |all| && FirstFailure(all[..k], simulate).IsError()
    ensures UntilFailure(all, simulate) == UntilFailure(all[..k], simulate)
    ensures FirstFailure(all, simulate) == FirstFailure(all[..k], simulate)
  {
    assert all == all[..k] + all[k..];
    UntilFailureAppend(all[..k], all[k..], simulate);
  }

  /** Once the units up to u have failed, later units add nothing. */
  lemma {:induction false} FailureStays(w0: nat, u: int, n: int, r: BlockRange, simulate: SimCall -> Status)
    requires w0 <= u <= Max(w0, n) && (n <= w0 || r.NumTimes() > 0)
    requires FirstFailure(UnitsCalls(w0, u, r), simulate).IsError()
    ensures UntilFailure(UnitsCalls(w0, n, r), simulate) == UntilFailure(UnitsCalls(w0, u, r), simulate)
    ensures FirstFailure(UnitsCalls(w0, n, r), simulate) == FirstFailure(UnitsCalls(w0, u, r), simulate)
    decreases n - u
  {
    if u < n {
      UntilFailureAppend(UnitsCalls(w0, u, r), UnitCalls(u, r), simulate);
      assert UnitsCalls(w0, u + 1, r) == UnitsCalls(w0, u, r) + UnitCalls(u, r);
      FailureStays(w0, u + 1, n, r, simulate);
    }
  }

  // ---------------------------------------------------------------------
  // sim_baselines and the output offset

  /** sim_baselines simulates only for a chunk with sources and block
      indices inside the block. */
  predicate SimRuns(numSources: nat, timeIndexBlock: int, channelIndexBlock: int, numTimesBlock: int, numChansBlock: int)
  {
    numSources != 0 && timeIndexBlock < numTimesBlock && channelIndexBlock < numChansBlock
  }

  /** Every call of the work-unit loop passes the index guard; only an
      empty chunk makes sim_baselines return early. */
  lemma CallsPassGuard(w0: nat, n: int, r: BlockRange, totalChunks: nat, i: nat, numSources: nat)
    requires n <= r.NumTimes() * totalChunks && (n <= w0 || r.NumTimes() > 0)
    requires i < |UnitsCalls(w0, n, r)|
    ensures var call := UnitsCalls(w0, n, r)[i];
      SimRuns(numSources, call.timeBlock, call.channelBlock, r.NumTimes(), r.NumChans()) <==> numSources != 0
  {
    UnitsCallsInBlock(w0, n, r, totalChunks, i);
  }

  /** The output offset of (time, channel) in the block. */
  function Offset(numChansBlock: nat, timeIndexBlock: nat, channelIndexBlock: nat): nat
  {
    numChansBlock * timeIndexBlock + channelIndexBlock
  }

  /** The correlators write station a and baseline b of (time, channel) at
      num_stations * offset + a and num_baselines * offset + b: the
      positions the block layout gives them. */
  lemma OffsetMatchesLayout(numChansBlock: nat, t: nat, c: nat, n: nat, k: nat)
    ensures n * Offset(numChansBlock, t, c) + k == CorrIndex(n, numChansBlock, t, c, k)
  {
  }

  /** Distinct (time, channel) pairs of a block have distinct offsets below
      num_times_block * num_chans_block. */
  lemma OffsetsDistinct(numTimesBlock: nat, numChansBlock: nat, t1: nat, c1: nat, t2: nat, c2: nat)
    requires t1 < numTimesBlock && t2 < numTimesBlock && c1 < numChansBlock && c2 < numChansBlock
    ensures Offset(numChansBlock, t1, c1) < numTimesBlock * numChansBlock
    ensures Offset(numChansBlock, t1, c1) == Offset(numChansBlock, t2, c2) ==> t1 == t2 && c1 == c2
  {
    FlatInRange(numTimesBlock, numChansBlock, t1, c1);
    if Offset(numChansBlock, t1, c1) == Offset(numChansBlock, t2, c2) {
      FlatInjective(numChansBlock, t1, c1, t2, c2);
    }
  }

  // ---------------------------------------------------------------------
  // disp_width

  /** The field width of the progress messages. */
  function DispWidth(v: nat): nat
  {
    if v >= 100000 then 6 else if v >= 10000 then 5 else if v >= 1000 then 4
    else if v >= 100 then 3 else if v >= 10 then 2 else 1
  }

  /** The number of decimal digits of v, with 0 written as one digit. */
  function NumDigits(v: nat): (r: nat)
    ensures r >= 1
  {
    if v < 10 then 1 else 1 + NumDigits(v / 10)
  }

  /** disp_width is the digit count below 100000 and 6 from there on. */
  lemma {:induction false} DispWidthIsDigits(v: nat)
    ensures v < 100000 ==> DispWidth(v) == NumDigits(v)
    ensures v >= 100000 ==> DispWidth(v) == 6 <= NumDigits(v)
  {
    if v >= 10 { assert NumDigits(v) == 1 + NumDigits(v / 10); }
    if v >= 100 { assert NumDigits(v / 10) == 1 + NumDigits(v / 100); }
    if v >= 1000 { assert NumDigits(v / 100) == 1 + NumDigits(v / 1000); }
    if v >= 10000 { assert NumDigits(v / 1000) == 1 + NumDigits(v / 10000); }
    if v >= 100000 { assert NumDigits(v / 10000) == 1 + NumDigits(v / 100000); }
  }
}
