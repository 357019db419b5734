/** Writing one visibility block to a Measurement Set
    (oskar_vis_block_write_ms): the consistency checks against the table,
    then, for every time of the block, the assembly of the baseline
    coordinates and of all channels' visibilities in table row order, and
    the two writes. The table is modelled by its dimensions, its metadata
    and the record of the writes it receives. */
module VisBlockWriteMs {
  import opened Common
  import opened VisBlockData
  import VisHeaderCreate

  /** The tolerance of the frequency and phase-centre comparisons. */
  const Tolerance: real := 0.0000000001

  /** One write into the table: visibilities of numChannels channels from
      startChan for numBaselines rows from row0, or the coordinates of
      numBaselines rows from row0 with their exposure, interval and time
      centroid. */
  datatype MsWrite =
    | VisWrite(row0: nat, startChan: nat, numChannels: nat, numBaselines: nat, vis: seq<Amp>)
    | CoordsWrite(row0: nat, numBaselines: nat, uu: seq<real>, vv: seq<real>, ww: seq<real>,
                  exposureSec: real, intervalSec: real, timeCentroid: real)

  class MeasurementSet {
    const numPols: nat
    const numStations: nat
    const freqStartHz: real
    const phaseCentreRaRad: real
    const phaseCentreDecRad: real
    var writes: seq<MsWrite>

    constructor (numPols: nat, numStations: nat, freqStartHz: real, raRad: real, decRad: real)
      ensures this.numPols == numPols && this.numStations == numStations
      ensures this.freqStartHz == freqStartHz
      ensures phaseCentreRaRad == raRad && phaseCentreDecRad == decRad
      ensures writes == []
    {
      this.numPols, this.numStations := numPols, numStations;
      this.freqStartHz := freqStartHz;
      phaseCentreRaRad, phaseCentreDecRad := raRad, decRad;
      writes := [];
    }

    /** oskar_ms_write_vis_d / _f: records the visibility write. */
    method WriteVis(row0: nat, startChan: nat, numChannels: nat, numBaselines: nat, vis: seq<Amp>)
      modifies this
      ensures writes == old(writes) + [VisWrite(row0, startChan, numChannels, numBaselines, vis)]
    {
      writes := writes + [VisWrite(row0, startChan, numChannels, numBaselines, vis)];
    }

    /** oskar_ms_write_coords_d / _f: records the coordinate write. */
    method WriteCoords(row0: nat, numBaselines: nat, uu: seq<real>, vv: seq<real>, ww: seq<real>,
                       exposureSec: real, intervalSec: real, timeCentroid: real)
      modifies this
      ensures writes == old(writes) + [CoordsWrite(row0, numBaselines, uu, vv, ww, exposureSec, intervalSec, timeCentroid)]
    {
      writes := writes + [CoordsWrite(row0, numBaselines, uu, vv, ww, exposureSec, intervalSec, timeCentroid)];
    }
  }

  // ---------------------------------------------------------------------
  // Checks

  /** What the checks decide: nothing to write, an error, or go ahead. */
  datatype Outcome = NothingToWrite | Fail(error: Status) | Proceed

  /** The checks ahead of any write, in the order the writer makes them.
      The second dimension check compares the table's polarisations with
      num_pols_out, which was read from the table, so only its station half
      can fail. */
  function Checks(hasAuto: bool, hasCross: bool, numPolsIn: nat, numStations: nat,
                  msNumPols: nat, msNumStations: nat, msFreqHz: real, freqHz: real,
                  msRa: real, ra: real, msDec: real, dec: real): (r: Outcome)
    ensures r == NothingToWrite <==> !hasAuto && !hasCross
    ensures r == Fail(DimensionMismatch) <==>
      (hasAuto || hasCross) && (numPolsIn > msNumPols || msNumStations != numStations)
    ensures r == Fail(ValueMismatch) <==>
      (hasAuto || hasCross) && numPolsIn <= msNumPols && msNumStations == numStations &&
      (Abs(msFreqHz - freqHz) > Tolerance || Abs(msRa - ra) > Tolerance || Abs(msDec - dec) > Tolerance)
    ensures r.Fail? ==> r.error == DimensionMismatch || r.error == ValueMismatch
  {
    if !hasAuto && !hasCross then NothingToWrite
    else if numPolsIn > msNumPols then Fail(DimensionMismatch)
    else if msNumPols != msNumPols || msNumStations != numStations then Fail(DimensionMismatch)
    else if Abs(msFreqHz - freqHz) > Tolerance then Fail(ValueMismatch)
    else if Abs(msRa - ra) > Tolerance || Abs(msDec - dec) > Tolerance then Fail(ValueMismatch)
    else Proceed
  }

  /** Rows per time in the table: the cross baselines plus, with
      autocorrelations, one row per station. */
  function NumBaselinesOut(blk: VisBlock): nat
  {
    blk.numBaselines + (if blk.hasAuto then blk.numStations else 0)
  }

  // ---------------------------------------------------------------------
  // Polarisation conversion

  /** COPY_SCALAR as written: a scalar becomes [val, 0, 0, val] whatever the
      table's number of polarisations. */
  function ConvertAsWritten(v: Amp, numPolsIn: nat, numPolsOut: nat): Amp
    requires |v| == numPolsIn && (numPolsIn == 1 || numPolsIn == 4)
  {
    if numPolsIn == 4 then v
    else if numPolsOut == 1 then v
    else [v[0], Zero, Zero, v[0]]
  }

  /** A scalar block written to a two-polarisation table: each element
      yields four values where the buffer (num_baseln_out * num_channels *
      num_pols_out values) has room for two. */
  lemma ScalarToTwoPolsOverflows(v: Amp)
    requires |v| == 1
    ensures |ConvertAsWritten(v, 1, 2)| == 4 > 2
  {
  }

  /** The conversion with the expansion sized to the table: 4x4 and 1x1
      copy, a scalar becomes the diagonal [val, 0, 0, val] of a 2x2 table and
      [val, val] (XX and YY) of a two-polarisation table. */
  function Convert(v: Amp, numPolsIn: nat, numPolsOut: nat): (r: Amp)
    requires |v| == numPolsIn && (numPolsIn == 1 || numPolsIn == 4)
    ensures numPolsIn <= numPolsOut && numPolsOut in {1, 2, 4} ==> |r| == numPolsOut
    ensures numPolsOut != 2 ==> r == ConvertAsWritten(v, numPolsIn, numPolsOut)
    ensures numPolsIn == 1 && numPolsOut == 4 ==> r == [v[0], Zero, Zero, v[0]]
  {
    if numPolsIn == 4 then v
    else if numPolsOut == 1 then v
    else if numPolsOut == 2 then [v[0], v[0]]
    else [v[0], Zero, Zero, v[0]]
  }

  // ---------------------------------------------------------------------
  // Row order

  /** Cross baselines of the stations before a1: (S - 1) + ... + (S - a1). */
  function CrossBefore(S: nat, a1: nat): nat
    requires a1 <= S
  {
    if a1 == 0 then 0 else CrossBefore(S, a1 - 1) + (S - a1)
  }

  lemma {:induction false} CrossBeforeAll(S: nat, a1: nat)
    requires a1 <= S
    ensures 2 * CrossBefore(S, a1) == a1 * (2 * S - 1 - a1)
  {
    if a1 > 0 {
      CrossBeforeAll(S, a1 - 1);
      assert (a1 - 1) * (2 * S - a1) + 2 * (S - a1) == a1 * (2 * S - 1 - a1);
    }
  }

  /** Station a1's baselines (a1, a2) for a2 > a1 take the running baseline
      indices CrossBefore(a1) .. CrossBefore(a1 + 1) - 1, and all stations
      together take exactly PairCount(S) of them. */
  lemma CrossBeforeBounds(S: nat, a1: nat)
    requires a1 < S
    ensures CrossBefore(S, a1) + (S - 1 - a1) == CrossBefore(S, a1 + 1) <= PairCount(S)
  {
    CrossBeforeMonotone(S, a1 + 1, S);
    CrossBeforeAll(S, S);
    TwicePairCount(S);
  }

  lemma {:induction false} CrossBeforeMonotone(S: nat, a: nat, a': nat)
    requires a <= a' <= S
    ensures CrossBefore(S, a) <= CrossBefore(S, a')
    decreases a' - a
  {
    if a < a' {
      CrossBeforeMonotone(S, a, a' - 1);
    }
  }

  /** One table row of a time step: station a's autocorrelation, or the
      cross baseline (a1, a2) with running baseline index `baseline`. */
  datatype Row = AutoRow(station: nat) | CrossRow(station1: nat, station2: nat, baseline: nat)

  /** A row the writer can produce for S stations: an autocorrelation row
      only with autocorrelations, a cross row only with cross-correlations
      and with the running index of (a1, a2). */
  predicate RowIn(S: nat, hasAuto: bool, hasCross: bool, r: Row)
  {
    match r
    case AutoRow(a) => hasAuto && a < S
    case CrossRow(a1, a2, b) => hasCross && a1 < a2 < S && b == CrossBefore(S, a1) + (a2 - a1 - 1)
  }

  predicate AllIn(S: nat, hasAuto: bool, hasCross: bool, rows: seq<Row>)
  {
    forall j :: 0 <= j < |rows| ==> RowIn(S, hasAuto, hasCross, rows[j])
  }

  /** Station a1's first n cross rows (a1, a1 + 1) .. (a1, a1 + n). */
  function CrossRows(S: nat, a1: nat, n: nat): (r: seq<Row>)
    requires a1 < S
    ensures |r| == n
  {
    seq(n, (k: nat) => CrossRow(a1, a1 + 1 + k, CrossBefore(S, a1) + k))
  }

  /** Station a1's rows: its autocorrelation, if written, then its cross
      baselines (a1, a2) for every a2 > a1. */
  function StationRows(S: nat, hasAuto: bool, hasCross: bool, a1: nat): (r: seq<Row>)
    requires a1 < S
    ensures |r| == (if hasAuto then 1 else 0) + (if hasCross then S - 1 - a1 else 0)
  {
    (if hasAuto then [AutoRow(a1)] else []) + (if hasCross then CrossRows(S, a1, S - 1 - a1) else [])
  }

  /** The rows of the first n stations. */
  function RowsBefore(S: nat, hasAuto: bool, hasCross: bool, n: nat): seq<Row>
    requires n <= S
  {
    if n == 0 then [] else RowsBefore(S, hasAuto, hasCross, n - 1) + StationRows(S, hasAuto, hasCross, n - 1)
  }

  /** The row order of one time step and channel, as both assembly loops
      produce it. */
  function RowOrder(S: nat, hasAuto: bool, hasCross: bool): seq<Row>
  {
    RowsBefore(S, hasAuto, hasCross, S)
  }

  lemma CrossRowsStep(S: nat, a1: nat, n: nat)
    requires a1 < S
    ensures CrossRows(S, a1, n + 1) == CrossRows(S, a1, n) + [CrossRow(a1, a1 + 1 + n, CrossBefore(S, a1) + n)]
  {
    assert CrossRows(S, a1, n + 1)[..n] == CrossRows(S, a1, n);
  }

  lemma StationRowsIn(S: nat, hasAuto: bool, hasCross: bool, a1: nat)
    requires a1 < S
    ensures AllIn(S, hasAuto, hasCross, StationRows(S, hasAuto, hasCross, a1))
  {
  }

  lemma AppendIn(S: nat, hasAuto: bool, hasCross: bool, a: seq<Row>, b: seq<Row>)
    requires AllIn(S, hasAuto, hasCross, a) && AllIn(S, hasAuto, hasCross, b)
    ensures AllIn(S, hasAuto, hasCross, a + b)
  {
    forall j | 0 <= j < |a + b|
      ensures RowIn(S, hasAuto, hasCross, (a + b)[j])
    {
      if j >= |a| {
        assert (a + b)[j] == b[j - |a|];
      }
    }
  }

  lemma {:induction false} RowsBeforeIn(S: nat, hasAuto: bool, hasCross: bool, n: nat)
    requires n <= S
    ensures AllIn(S, hasAuto, hasCross, RowsBefore(S, hasAuto, hasCross, n))
  {
    if n > 0 {
      RowsBeforeIn(S, hasAuto, hasCross, n - 1);
      StationRowsIn(S, hasAuto, hasCross, n - 1);
      AppendIn(S, hasAuto, hasCross, RowsBefore(S, hasAuto, hasCross, n - 1), StationRows(S, hasAuto, hasCross, n - 1));
    }
  }

  lemma {:induction false} RowsBeforeLength(S: nat, hasAuto: bool, hasCross: bool, n: nat)
    requires n <= S
    ensures |RowsBefore(S, hasAuto, hasCross, n)| == (if hasAuto then n else 0) + (if hasCross then CrossBefore(S, n) else 0)
  {
    if n > 0 {
      RowsBeforeLength(S, hasAuto, hasCross, n - 1);
    }
  }

  lemma {:induction false} RowsBeforePrefix(S: nat, hasAuto: bool, hasCross: bool, n: nat, m: nat)
    requires n <= m <= S
    ensures RowsBefore(S, hasAuto, hasCross, n) <= RowsBefore(S, hasAuto, hasCross, m)
    decreases m - n
  {
    if n < m {
      RowsBeforePrefix(S, hasAuto, hasCross, n, m - 1);
    }
  }

  /** Every row the writer produces is one it can produce: the row order
      holds autocorrelation rows only with autocorrelations, cross rows
      only with cross-correlations, each with its own running index. */
  lemma RowOrderIn(S: nat, hasAuto: bool, hasCross: bool)
    ensures AllIn(S, hasAuto, hasCross, RowOrder(S, hasAuto, hasCross))
  {
    RowsBeforeIn(S, hasAuto, hasCross, S);
  }

  /** A time step has one row per station with autocorrelations and one per
      station pair with cross-correlations: num_baseln_out rows whenever
      cross-correlations are written. */
  lemma RowOrderLength(S: nat, hasAuto: bool, hasCross: bool)
    ensures |RowOrder(S, hasAuto, hasCross)| == (if hasAuto then S else 0) + (if hasCross then PairCount(S) else 0)
  {
    RowsBeforeLength(S, hasAuto, hasCross, S);
    CrossBeforeAll(S, S);
    TwicePairCount(S);
  }

  /** Row i of station a1's rows is at position |RowsBefore(a1)| + i. */
  lemma {:induction false} StationRowAt(S: nat, hasAuto: bool, hasCross: bool, a1: nat, i: nat, pos: nat)
    requires a1 < S && i < |StationRows(S, hasAuto, hasCross, a1)|
    requires pos == |RowsBefore(S, hasAuto, hasCross, a1)| + i
    ensures pos < |RowOrder(S, hasAuto, hasCross)|
    ensures RowOrder(S, hasAuto, hasCross)[pos] == StationRows(S, hasAuto, hasCross, a1)[i]
  {
    RowsBeforePrefix(S, hasAuto, hasCross, a1 + 1, S);
    ConcatIndex(RowsBefore(S, hasAuto, hasCross, a1), StationRows(S, hasAuto, hasCross, a1), RowOrder(S, hasAuto, hasCross), i);
  }

  lemma ConcatIndex<T>(a: seq<T>, b: seq<T>, whole: seq<T>, i: nat)
    requires a + b <= whole && i < |b|
    ensures |a| + i < |whole| && whole[|a| + i] == b[i]
  {
    assert (a + b)[|a| + i] == b[i];
  }

  /** Station a1's autocorrelation is row a1 (+ CrossBefore(a1) with
      cross-correlations). */
  lemma AutoRowAt(S: nat, hasAuto: bool, hasCross: bool, a1: nat)
    requires hasAuto && a1 < S
    ensures var pos := a1 + (if hasCross then CrossBefore(S, a1) else 0);
      pos < |RowOrder(S, hasAuto, hasCross)| && RowOrder(S, hasAuto, hasCross)[pos] == AutoRow(a1)
  {
    RowsBeforeLength(S, hasAuto, hasCross, a1);
    StationRowAt(S, hasAuto, hasCross, a1, 0, a1 + (if hasCross then CrossBefore(S, a1) else 0));
  }

  /** Baseline (a1, a2), a2 > a1, follows station a1's earlier rows and
      carries running baseline index CrossBefore(a1) + (a2 - a1 - 1), which
      is below the block's PairCount(S) baselines. */
  lemma CrossRowAt(S: nat, hasAuto: bool, hasCross: bool, a1: nat, a2: nat)
    requires hasCross && a1 < a2 < S
    ensures var b := CrossBefore(S, a1) + (a2 - a1 - 1);
      var pos := (if hasAuto then a1 + 1 else 0) + b;
      && b < PairCount(S)
      && pos < |RowOrder(S, hasAuto, hasCross)|
      && RowOrder(S, hasAuto, hasCross)[pos] == CrossRow(a1, a2, b)
  {
    var k := a2 - a1 - 1;
    RowsBeforeLength(S, hasAuto, hasCross, a1);
    CrossBeforeBounds(S, a1);
    StationRowAt(S, hasAuto, hasCross, a1, (if hasAuto then 1 else 0) + k, (if hasAuto then a1 + 1 else 0) + CrossBefore(S, a1) + k);
  }

  /** A cross row's running index is one of the block's baselines. */
  lemma CrossRowBaseline(S: nat, hasAuto: bool, hasCross: bool, r: Row)
    requires RowIn(S, hasAuto, hasCross, r) && r.CrossRow?
    ensures r.baseline < PairCount(S)
  {
    CrossBeforeBounds(S, r.station1);
  }

  // ---------------------------------------------------------------------
  // Visibilities

  /** What row r holds in channel c at time t, converted to the table's
      polarisations: the station's autocorrelation or the baseline's
      cross-correlation. */
  function RowVis(blk: VisBlock, numPolsOut: nat, t: nat, c: nat, r: Row): Amp
    requires Assemblable(blk) && t < blk.numTimes && c < blk.numChannels
    requires RowIn(blk.numStations, blk.hasAuto, blk.hasCross, r)
  {
    match r
    case AutoRow(a) =>
      CorrIndexInRange(blk.numStations, blk.numTimes, blk.numChannels, t, c, a);
      Convert(blk.autoCorr[CorrIndex(blk.numStations, blk.numChannels, t, c, a)], blk.numPols, numPolsOut)
    case CrossRow(_, _, b) =>
      CrossRowBaseline(blk.numStations, blk.hasAuto, blk.hasCross, r);
      CorrIndexInRange(blk.numBaselines, blk.numTimes, blk.numChannels, t, c, b);
      Convert(blk.crossCorr[CorrIndex(blk.numBaselines, blk.numChannels, t, c, b)], blk.numPols, numPolsOut)
  }

  /** The visibilities of a run of rows in channel c at time t. */
  function VisOf(blk: VisBlock, numPolsOut: nat, t: nat, c: nat, rows: seq<Row>): (r: seq<Amp>)
    requires Assemblable(blk) && t < blk.numTimes && c < blk.numChannels
    requires AllIn(blk.numStations, blk.hasAuto, blk.hasCross, rows)
    ensures |r| == |rows|
  {
    seq(|rows|, j requires 0 <= j < |rows| => RowVis(blk, numPolsOut, t, c, rows[j]))
  }

  lemma VisStep(blk: VisBlock, numPolsOut: nat, t: nat, c: nat, rows: seq<Row>, r: Row)
    requires Assemblable(blk) && t < blk.numTimes && c < blk.numChannels
    requires AllIn(blk.numStations, blk.hasAuto, blk.hasCross, rows)
    requires RowIn(blk.numStations, blk.hasAuto, blk.hasCross, r)
    ensures AllIn(blk.numStations, blk.hasAuto, blk.hasCross, rows + [r])
    ensures VisOf(blk, numPolsOut, t, c, rows + [r]) == VisOf(blk, numPolsOut, t, c, rows) + [RowVis(blk, numPolsOut, t, c, r)]
  {
    AppendIn(blk.numStations, blk.hasAuto, blk.hasCross, rows, [r]);
  }

  /** One channel of one time step in table row order. */
  function ChannelVis(blk: VisBlock, numPolsOut: nat, t: nat, c: nat): seq<Amp>
    requires Assemblable(blk) && t < blk.numTimes && c < blk.numChannels
  {
    RowOrderIn(blk.numStations, blk.hasAuto, blk.hasCross);
    VisOf(blk, numPolsOut, t, c, RowOrder(blk.numStations, blk.hasAuto, blk.hasCross))
  }

  /** Station a1's autocorrelation is row a1 (+ CrossBefore(a1) with
      cross-correlations) of every channel. */
  lemma ChannelAutoRow(blk: VisBlock, numPolsOut: nat, t: nat, c: nat, a1: nat)
    requires Assemblable(blk) && blk.hasAuto && t < blk.numTimes && c < blk.numChannels && a1 < blk.numStations
    ensures var pos := a1 + (if blk.hasCross then CrossBefore(blk.numStations, a1) else 0);
      && pos < |ChannelVis(blk, numPolsOut, t, c)|
      && CorrIndex(blk.numStations, blk.numChannels, t, c, a1) < |blk.autoCorr|
      && ChannelVis(blk, numPolsOut, t, c)[pos] ==
           Convert(blk.autoCorr[CorrIndex(blk.numStations, blk.numChannels, t, c, a1)], blk.numPols, numPolsOut)
  {
    AutoRowAt(blk.numStations, blk.hasAuto, blk.hasCross, a1);
    CorrIndexInRange(blk.numStations, blk.numTimes, blk.numChannels, t, c, a1);
  }

  /** Baseline (a1, a2), a2 > a1, reads the cross-correlation at running
      baseline index CrossBefore(a1) + (a2 - a1 - 1) of channel c at time
      t. */
  lemma ChannelCrossRow(blk: VisBlock, numPolsOut: nat, t: nat, c: nat, a1: nat, a2: nat)
    requires Assemblable(blk) && blk.hasCross && t < blk.numTimes && c < blk.numChannels
    requires a1 < a2 < blk.numStations
    ensures var b := CrossBefore(blk.numStations, a1) + (a2 - a1 - 1);
      var pos := (if blk.hasAuto then a1 + 1 else 0) + b;
      && b < blk.numBaselines
      && pos < |ChannelVis(blk, numPolsOut, t, c)|
      && CorrIndex(blk.numBaselines, blk.numChannels, t, c, b) < |blk.crossCorr|
      && ChannelVis(blk, numPolsOut, t, c)[pos] ==
           Convert(blk.crossCorr[CorrIndex(blk.numBaselines, blk.numChannels, t, c, b)], blk.numPols, numPolsOut)
  {
    var b := CrossBefore(blk.numStations, a1) + (a2 - a1 - 1);
    CrossRowAt(blk.numStations, blk.hasAuto, blk.hasCross, a1, a2);
    CorrIndexInRange(blk.numBaselines, blk.numTimes, blk.numChannels, t, c, b);
  }

  /** With cross-correlations a channel holds exactly num_baseln_out rows. */
  lemma ChannelVisLength(blk: VisBlock, numPolsOut: nat, t: nat, c: nat)
    requires Assemblable(blk) && t < blk.numTimes && c < blk.numChannels
    ensures |ChannelVis(blk, numPolsOut, t, c)| ==
      (if blk.hasAuto then blk.numStations else 0) + (if blk.hasCross then blk.numBaselines else 0)
    ensures blk.hasCross ==> |ChannelVis(blk, numPolsOut, t, c)| == NumBaselinesOut(blk)
  {
    RowOrderLength(blk.numStations, blk.hasAuto, blk.hasCross);
  }

  /** The first n channels of time t, channel after channel. */
  function ChannelsVis(blk: VisBlock, numPolsOut: nat, t: nat, n: nat): seq<Amp>
    requires Assemblable(blk) && t < blk.numTimes && n <= blk.numChannels
  {
    if n == 0 then [] else ChannelsVis(blk, numPolsOut, t, n - 1) + ChannelVis(blk, numPolsOut, t, n - 1)
  }

  /** The visibility buffer of time t: all channels of the block. */
  function TimeVis(blk: VisBlock, numPolsOut: nat, t: nat): seq<Amp>
    requires Assemblable(blk) && t < blk.numTimes
  {
    ChannelsVis(blk, numPolsOut, t, blk.numChannels)
  }

  /** Row j of channel c sits at R * c + j of the first n channels, with R
      the rows per channel. */
  lemma {:induction false} ChannelsVisAt(blk: VisBlock, numPolsOut: nat, t: nat, n: nat, c: nat, j: nat)
    requires Assemblable(blk) && t < blk.numTimes && n <= blk.numChannels
    requires c < n && j < |RowOrder(blk.numStations, blk.hasAuto, blk.hasCross)|
    ensures var R := |RowOrder(blk.numStations, blk.hasAuto, blk.hasCross)|;
      && |ChannelsVis(blk, numPolsOut, t, n)| == R * n
      && Flat(R, c, j) < R * n
      && ChannelsVis(blk, numPolsOut, t, n)[Flat(R, c, j)] == ChannelVis(blk, numPolsOut, t, c)[j]
  {
    var R := |RowOrder(blk.numStations, blk.hasAuto, blk.hasCross)|;
    var earlier := ChannelsVis(blk, numPolsOut, t, n - 1);
    if c < n - 1 {
      ChannelsVisAt(blk, numPolsOut, t, n - 1, c, j);
      assert R * n == R * (n - 1) + R;
      assert ChannelsVis(blk, numPolsOut, t, n)[Flat(R, c, j)] == earlier[Flat(R, c, j)];
    } else {
      ChannelsVisLength(blk, numPolsOut, t, n - 1);
      assert R * n == R * (n - 1) + R;
      assert ChannelsVis(blk, numPolsOut, t, n)[Flat(R, c, j)] == ChannelVis(blk, numPolsOut, t, c)[j];
    }
  }

  lemma {:induction false} ChannelsVisLength(blk: VisBlock, numPolsOut: nat, t: nat, n: nat)
    requires Assemblable(blk) && t < blk.numTimes && n <= blk.numChannels
    ensures |ChannelsVis(blk, numPolsOut, t, n)| == |RowOrder(blk.numStations, blk.hasAuto, blk.hasCross)| * n
  {
    if n > 0 {
      ChannelsVisLength(blk, numPolsOut, t, n - 1);
      var R := |RowOrder(blk.numStations, blk.hasAuto, blk.hasCross)|;
      assert R * n == R * (n - 1) + R;
    }
  }

  /** The buffer of time t is channel-major: row j of channel c is element
      R * c + j, and with cross-correlations R is num_baseln_out. */
  lemma TimeVisLayout(blk: VisBlock, numPolsOut: nat, t: nat, c: nat, j: nat)
    requires Assemblable(blk) && t < blk.numTimes && c < blk.numChannels
    requires j < |RowOrder(blk.numStations, blk.hasAuto, blk.hasCross)|
    ensures var R := |RowOrder(blk.numStations, blk.hasAuto, blk.hasCross)|;
      && (blk.hasCross ==> R == NumBaselinesOut(blk))
      && |TimeVis(blk, numPolsOut, t)| == R * blk.numChannels
      && Flat(R, c, j) < |TimeVis(blk, numPolsOut, t)|
      && TimeVis(blk, numPolsOut, t)[Flat(R, c, j)] == ChannelVis(blk, numPolsOut, t, c)[j]
  {
    RowOrderLength(blk.numStations, blk.hasAuto, blk.hasCross);
    ChannelsVisAt(blk, numPolsOut, t, blk.numChannels, c, j);
  }

  // ---------------------------------------------------------------------
  // Coordinates

  /** What row r holds in one coordinate column at time t: zero for an
      autocorrelation, the baseline's coordinate for a cross row. */
  function RowCoord(col: seq<real>, blk: VisBlock, t: nat, r: Row): real
    requires Assemblable(blk) && t < blk.numTimes && |col| >= blk.numTimes * blk.numBaselines
    requires RowIn(blk.numStations, blk.hasAuto, blk.hasCross, r)
  {
    match r
    case AutoRow(_) => 0.0
    case CrossRow(_, _, b) =>
      CrossRowBaseline(blk.numStations, blk.hasAuto, blk.hasCross, r);
      FlatInRange(blk.numTimes, blk.numBaselines, t, b);
      col[Flat(blk.numBaselines, t, b)]
  }

  function CoordsOf(col: seq<real>, blk: VisBlock, t: nat, rows: seq<Row>): (r: seq<real>)
    requires Assemblable(blk) && t < blk.numTimes && |col| >= blk.numTimes * blk.numBaselines
    requires AllIn(blk.numStations, blk.hasAuto, blk.hasCross, rows)
    ensures |r| == |rows|
  {
    seq(|rows|, j requires 0 <= j < |rows| => RowCoord(col, blk, t, rows[j]))
  }

  lemma CoordStep(col: seq<real>, blk: VisBlock, t: nat, rows: seq<Row>, r: Row)
    requires Assemblable(blk) && t < blk.numTimes && |col| >= blk.numTimes * blk.numBaselines
    requires AllIn(blk.numStations, blk.hasAuto, blk.hasCross, rows)
    requires RowIn(blk.numStations, blk.hasAuto, blk.hasCross, r)
    ensures AllIn(blk.numStations, blk.hasAuto, blk.hasCross, rows + [r])
    ensures CoordsOf(col, blk, t, rows + [r]) == CoordsOf(col, blk, t, rows) + [RowCoord(col, blk, t, r)]
  {
    AppendIn(blk.numStations, blk.hasAuto, blk.hasCross, rows, [r]);
  }

  /** One coordinate column of time t in table row order. */
  function TimeCoords(col: seq<real>, blk: VisBlock, t: nat): seq<real>
    requires Assemblable(blk) && t < blk.numTimes && |col| >= blk.numTimes * blk.numBaselines
  {
    RowOrderIn(blk.numStations, blk.hasAuto, blk.hasCross);
    CoordsOf(col, blk, t, RowOrder(blk.numStations, blk.hasAuto, blk.hasCross))
  }

  /** Autocorrelation rows have zero baseline coordinates. */
  lemma CoordsAutoRow(col: seq<real>, blk: VisBlock, t: nat, a1: nat)
    requires Assemblable(blk) && blk.hasAuto && t < blk.numTimes && |col| >= blk.numTimes * blk.numBaselines
    requires a1 < blk.numStations
    ensures var pos := a1 + (if blk.hasCross then CrossBefore(blk.numStations, a1) else 0);
      pos < |TimeCoords(col, blk, t)| && TimeCoords(col, blk, t)[pos] == 0.0
  {
    AutoRowAt(blk.numStations, blk.hasAuto, blk.hasCross, a1);
  }

  /** Baseline (a1, a2) carries the coordinate of running baseline
      CrossBefore(a1) + (a2 - a1 - 1) at time t. */
  lemma CoordsCrossRow(col: seq<real>, blk: VisBlock, t: nat, a1: nat, a2: nat)
    requires Assemblable(blk) && blk.hasCross && t < blk.numTimes && |col| >= blk.numTimes * blk.numBaselines
    requires a1 < a2 < blk.numStations
    ensures var b := CrossBefore(blk.numStations, a1) + (a2 - a1 - 1);
      var pos := (if blk.hasAuto then a1 + 1 else 0) + b;
      && Flat(blk.numBaselines, t, b) < |col|
      && pos < |TimeCoords(col, blk, t)|
      && TimeCoords(col, blk, t)[pos] == col[Flat(blk.numBaselines, t, b)]
  {
    var b := CrossBefore(blk.numStations, a1) + (a2 - a1 - 1);
    CrossRowAt(blk.numStations, blk.hasAuto, blk.hasCross, a1, a2);
    FlatInRange(blk.numTimes, blk.numBaselines, t, b);
  }

  // ---------------------------------------------------------------------
  // Assembly (ASSEMBLE_ALL_FOR_TIME)

  /** The running index a row of station a1 reads, as the loops keep it:
      CrossBefore(a1) + (a2 - a1 - 1) is the cross row (a1, a2). */
  lemma NextCrossRow(S: nat, hasAuto: bool, hasCross: bool, rows: seq<Row>, a1: nat, a2: nat)
    requires hasCross && a1 < a2 < S
    requires rows == RowsBefore(S, hasAuto, hasCross, a1) + (if hasAuto then [AutoRow(a1)] else []) + CrossRows(S, a1, a2 - a1 - 1)
    ensures RowIn(S, hasAuto, hasCross, CrossRow(a1, a2, CrossBefore(S, a1) + (a2 - a1 - 1)))
    ensures rows + [CrossRow(a1, a2, CrossBefore(S, a1) + (a2 - a1 - 1))] ==
      RowsBefore(S, hasAuto, hasCross, a1) + (if hasAuto then [AutoRow(a1)] else []) + CrossRows(S, a1, a2 - a1)
  {
    CrossRowsStep(S, a1, a2 - a1 - 1);
  }

  /** Station a1's rows complete RowsBefore(a1 + 1). */
  lemma StationDone(S: nat, hasAuto: bool, hasCross: bool, rows: seq<Row>, a1: nat)
    requires a1 < S
    requires rows == RowsBefore(S, hasAuto, hasCross, a1) + (if hasAuto then [AutoRow(a1)] else []) +
      (if hasCross then CrossRows(S, a1, S - 1 - a1) else [])
    ensures rows == RowsBefore(S, hasAuto, hasCross, a1 + 1)
  {
  }

  /** The visibilities of channel c at time t, assembled station by station
      with the running baseline index b, as ASSEMBLE_VIS and COPY_SCALAR
      do. */
  method AssembleChannel(blk: VisBlock, numPolsOut: nat, t: nat, c: nat) returns (out: seq<Amp>)
    requires Assemblable(blk) && t < blk.numTimes && c < blk.numChannels
    ensures out == ChannelVis(blk, numPolsOut, t, c)
  {
    var S := blk.numStations;
    out := [];
    var a1, b := 0, 0;
    while a1 < S
      invariant a1 <= S
      invariant blk.hasCross ==> b == CrossBefore(S, a1)
      invariant AllIn(S, blk.hasAuto, blk.hasCross, RowsBefore(S, blk.hasAuto, blk.hasCross, a1))
      invariant out == VisOf(blk, numPolsOut, t, c, RowsBefore(S, blk.hasAuto, blk.hasCross, a1))
    {
      out, b := AssembleStation(blk, numPolsOut, t, c, a1, out, b);
      a1 := a1 + 1;
    }
  }

  /** One pass of the station loop: station a1's autocorrelation, then its
      cross baselines (a1, a2), a2 > a1, read at ix + b. */
  method AssembleStation(blk: VisBlock, numPolsOut: nat, t: nat, c: nat, a1: nat, out0: seq<Amp>, b0: nat)
    returns (out: seq<Amp>, b: nat)
    requires Assemblable(blk) && t < blk.numTimes && c < blk.numChannels && a1 < blk.numStations
    requires blk.hasCross ==> b0 == CrossBefore(blk.numStations, a1)
    requires AllIn(blk.numStations, blk.hasAuto, blk.hasCross, RowsBefore(blk.numStations, blk.hasAuto, blk.hasCross, a1))
    requires out0 == VisOf(blk, numPolsOut, t, c, RowsBefore(blk.numStations, blk.hasAuto, blk.hasCross, a1))
    ensures blk.hasCross ==> b == CrossBefore(blk.numStations, a1 + 1)
    ensures AllIn(blk.numStations, blk.hasAuto, blk.hasCross, RowsBefore(blk.numStations, blk.hasAuto, blk.hasCross, a1 + 1))
    ensures out == VisOf(blk, numPolsOut, t, c, RowsBefore(blk.numStations, blk.hasAuto, blk.hasCross, a1 + 1))
  {
    var S, C, B := blk.numStations, blk.numChannels, blk.numBaselines;
    var ia := S * (t * C + c);
    var ix := B * (t * C + c);
    assert t * C == C * t;
    out, b := out0, b0;
    ghost var rows := RowsBefore(S, blk.hasAuto, blk.hasCross, a1);
    if blk.hasAuto {
      VisStep(blk, numPolsOut, t, c, rows, AutoRow(a1));
      CorrIndexInRange(S, blk.numTimes, C, t, c, a1);
      out := out + [Convert(blk.autoCorr[ia + a1], blk.numPols, numPolsOut)];
      rows := rows + [AutoRow(a1)];
    }
    if blk.hasCross {
      out, b, rows := AssembleCross(blk, numPolsOut, t, c, a1, out, b, rows);
    }
    StationDone(S, blk.hasAuto, blk.hasCross, rows, a1);
  }

  /** The cross baselines (a1, a2), a2 > a1, of station a1, read at ix + b. */
  method AssembleCross(blk: VisBlock, numPolsOut: nat, t: nat, c: nat, a1: nat, out0: seq<Amp>, b0: nat,
                       ghost rows0: seq<Row>)
    returns (out: seq<Amp>, b: nat, ghost rows: seq<Row>)
    requires Assemblable(blk) && blk.hasCross && t < blk.numTimes && c < blk.numChannels && a1 < blk.numStations
    requires b0 == CrossBefore(blk.numStations, a1)
    requires rows0 == RowsBefore(blk.numStations, blk.hasAuto, blk.hasCross, a1) + (if blk.hasAuto then [AutoRow(a1)] else [])
    requires AllIn(blk.numStations, blk.hasAuto, blk.hasCross, rows0) && out0 == VisOf(blk, numPolsOut, t, c, rows0)
    ensures b == CrossBefore(blk.numStations, a1) + (blk.numStations - a1 - 1)
    ensures rows == rows0 + CrossRows(blk.numStations, a1, blk.numStations - a1 - 1)
    ensures AllIn(blk.numStations, blk.hasAuto, blk.hasCross, rows) && out == VisOf(blk, numPolsOut, t, c, rows)
  {
    var S, C, B := blk.numStations, blk.numChannels, blk.numBaselines;
    var ix := B * (t * C + c);
    out, b, rows := out0, b0, rows0;
    var a2 := a1 + 1;
    CrossBeforeBounds(S, a1);
    while a2 < S
      invariant a1 < a2 <= S
      invariant b == CrossBefore(S, a1) + (a2 - a1 - 1)
      invariant rows == rows0 + CrossRows(S, a1, a2 - a1 - 1)
      invariant AllIn(S, blk.hasAuto, blk.hasCross, rows) && out == VisOf(blk, numPolsOut, t, c, rows)
    {
      NextCrossRow(S, blk.hasAuto, blk.hasCross, rows, a1, a2);
      VisStep(blk, numPolsOut, t, c, rows, CrossRow(a1, a2, b));
      CorrIndexInRange(B, blk.numTimes, C, t, c, b);
      out := out + [Convert(blk.crossCorr[ix + b], blk.numPols, numPolsOut)];
      rows := rows + [CrossRow(a1, a2, b)];
      a2, b := a2 + 1, b + 1;
    }
  }

  /** All channels of time t, the channel loop continuing the output index
      j from one channel to the next. */
  method AssembleVis(blk: VisBlock, numPolsOut: nat, t: nat) returns (out: seq<Amp>)
    requires Assemblable(blk) && t < blk.numTimes
    ensures out == TimeVis(blk, numPolsOut, t)
  {
    out := [];
    var c := 0;
    while c < blk.numChannels
      invariant c <= blk.numChannels
      invariant out == ChannelsVis(blk, numPolsOut, t, c)
    {
      var channel := AssembleChannel(blk, numPolsOut, t, c);
      out := out + channel;
      c := c + 1;
    }
  }

  /** The three coordinate columns hold the coordinates of `rows`. */
  ghost predicate ColumnsAre(blk: VisBlock, t: nat, rows: seq<Row>, uu: seq<real>, vv: seq<real>, ww: seq<real>)
    requires Assemblable(blk) && t < blk.numTimes
  {
    && AllIn(blk.numStations, blk.hasAuto, blk.hasCross, rows)
    && uu == CoordsOf(blk.uu, blk, t, rows)
    && vv == CoordsOf(blk.vv, blk, t, rows)
    && ww == CoordsOf(blk.ww, blk, t, rows)
  }

  /** The baseline coordinates of time t: zero for autocorrelation rows,
      the block's (u, v, w) at num_baseln_in * t + b for cross rows. */
  method AssembleCoords(blk: VisBlock, t: nat) returns (uu: seq<real>, vv: seq<real>, ww: seq<real>)
    requires Assemblable(blk) && t < blk.numTimes
    ensures uu == TimeCoords(blk.uu, blk, t)
    ensures vv == TimeCoords(blk.vv, blk, t)
    ensures ww == TimeCoords(blk.ww, blk, t)
  {
    uu, vv, ww := [], [], [];
    var a1, b := 0, 0;
    while a1 < blk.numStations
      invariant a1 <= blk.numStations
      invariant blk.hasCross ==> b == CrossBefore(blk.numStations, a1)
      invariant ColumnsAre(blk, t, RowsBefore(blk.numStations, blk.hasAuto, blk.hasCross, a1), uu, vv, ww)
    {
      uu, vv, ww, b := CoordsStation(blk, t, a1, uu, vv, ww, b);
      a1 := a1 + 1;
    }
  }

  lemma CoordsStep(blk: VisBlock, t: nat, rows: seq<Row>, uu: seq<real>, vv: seq<real>, ww: seq<real>, r: Row,
                   u: real, v: real, w: real)
    requires Assemblable(blk) && t < blk.numTimes
    requires ColumnsAre(blk, t, rows, uu, vv, ww)
    requires RowIn(blk.numStations, blk.hasAuto, blk.hasCross, r)
    requires u == RowCoord(blk.uu, blk, t, r) && v == RowCoord(blk.vv, blk, t, r) && w == RowCoord(blk.ww, blk, t, r)
    ensures ColumnsAre(blk, t, rows + [r], uu + [u], vv + [v], ww + [w])
  {
    CoordStep(blk.uu, blk, t, rows, r);
    CoordStep(blk.vv, blk, t, rows, r);
    CoordStep(blk.ww, blk, t, rows, r);
  }

  /** One pass of the coordinate station loop. */
  method CoordsStation(blk: VisBlock, t: nat, a1: nat, uu0: seq<real>, vv0: seq<real>, ww0: seq<real>, b0: nat)
    returns (uu: seq<real>, vv: seq<real>, ww: seq<real>, b: nat)
    requires Assemblable(blk) && t < blk.numTimes && a1 < blk.numStations
    requires blk.hasCross ==> b0 == CrossBefore(blk.numStations, a1)
    requires ColumnsAre(blk, t, RowsBefore(blk.numStations, blk.hasAuto, blk.hasCross, a1), uu0, vv0, ww0)
    ensures blk.hasCross ==> b == CrossBefore(blk.numStations, a1 + 1)
    ensures ColumnsAre(blk, t, RowsBefore(blk.numStations, blk.hasAuto, blk.hasCross, a1 + 1), uu, vv, ww)
  {
    var S, B := blk.numStations, blk.numBaselines;
    uu, vv, ww, b := uu0, vv0, ww0, b0;
    ghost var rows := RowsBefore(S, blk.hasAuto, blk.hasCross, a1);
    if blk.hasAuto {
      CoordsStep(blk, t, rows, uu, vv, ww, AutoRow(a1), 0.0, 0.0, 0.0);
      uu, vv, ww := uu + [0.0], vv + [0.0], ww + [0.0];
      rows := rows + [AutoRow(a1)];
    }
    if blk.hasCross {
      var a2 := a1 + 1;
      CrossBeforeBounds(S, a1);
      while a2 < S
        invariant a1 < a2 <= S
        invariant b == CrossBefore(S, a1) + (a2 - a1 - 1)
        invariant rows == RowsBefore(S, blk.hasAuto, blk.hasCross, a1) + (if blk.hasAuto then [AutoRow(a1)] else []) +
          CrossRows(S, a1, a2 - a1 - 1)
        invariant ColumnsAre(blk, t, rows, uu, vv, ww)
      {
        NextCrossRow(S, blk.hasAuto, blk.hasCross, rows, a1, a2);
        FlatInRange(blk.numTimes, B, t, b);
        var i := B * t + b;
        CoordsStep(blk, t, rows, uu, vv, ww, CrossRow(a1, a2, b), blk.uu[i], blk.vv[i], blk.ww[i]);
        uu, vv, ww := uu + [blk.uu[i]], vv + [blk.vv[i]], ww + [blk.ww[i]];
        rows := rows + [CrossRow(a1, a2, b)];
        a2, b := a2 + 1, b + 1;
      }
    }
    StationDone(S, blk.hasAuto, blk.hasCross, rows, a1);
  }

  // ---------------------------------------------------------------------
  // The writes

  /** The centre of time index t of the block in seconds: half an interval
      after the start of its integration, from the start MJD. */
  function TimeCentroid(startTime: nat, t: nat, intervalSec: real, timeStartMjd: real): real
  {
    ((startTime + t) as real + 0.5) * intervalSec + timeStartMjd * 86400.0
  }

  /** The first table row of time index t: whole times of num_baseln_out
      rows precede it. */
  function Row0(blk: VisBlock, t: nat): nat
  {
    (blk.startTime + t) * NumBaselinesOut(blk)
  }

  /** The writes of time index t: the visibilities of all channels, then,
      for a block starting at channel 0, the coordinates. */
  function TimeWrites(blk: VisBlock, h: VisHeaderCreate.VisHeader, numPolsOut: nat, t: nat): seq<MsWrite>
    requires Assemblable(blk) && t < blk.numTimes
  {
    var nOut := NumBaselinesOut(blk);
    [VisWrite(Row0(blk, t), blk.startChan, blk.numChannels, nOut, TimeVis(blk, numPolsOut, t))] +
    (if blk.startChan == 0 then
       [CoordsWrite(Row0(blk, t), nOut, TimeCoords(blk.uu, blk, t), TimeCoords(blk.vv, blk, t), TimeCoords(blk.ww, blk, t),
                    h.timeAverageSec, h.timeIncSec, TimeCentroid(blk.startTime, t, h.timeIncSec, h.timeStartMjdUtc))]
     else [])
  }

  /** The writes of the first n time indices, in time order. */
  function BlockWrites(blk: VisBlock, h: VisHeaderCreate.VisHeader, numPolsOut: nat, n: nat): seq<MsWrite>
    requires Assemblable(blk) && n <= blk.numTimes
  {
    if n == 0 then [] else BlockWrites(blk, h, numPolsOut, n - 1) + TimeWrites(blk, h, numPolsOut, n - 1)
  }

  /** Writes per time index: two from channel 0, one otherwise. */
  function WritesPerTime(blk: VisBlock): nat
  {
    if blk.startChan == 0 then 2 else 1
  }

  lemma {:induction false} BlockWritesLength(blk: VisBlock, h: VisHeaderCreate.VisHeader, numPolsOut: nat, n: nat)
    requires Assemblable(blk) && n <= blk.numTimes
    ensures |BlockWrites(blk, h, numPolsOut, n)| == WritesPerTime(blk) * n
  {
    if n > 0 {
      BlockWritesLength(blk, h, numPolsOut, n - 1);
      assert WritesPerTime(blk) * n == WritesPerTime(blk) * (n - 1) + WritesPerTime(blk);
    }
  }

  /** Time index t's writes sit at WritesPerTime * t: its visibilities
      from row Row0(t), then, from channel 0, its coordinates for the same
      rows. */
  lemma {:induction false} BlockWritesAt(blk: VisBlock, h: VisHeaderCreate.VisHeader, numPolsOut: nat, n: nat, t: nat)
    requires Assemblable(blk) && n <= blk.numTimes && t < n
    ensures var w := WritesPerTime(blk);
      && w * t + w <= |BlockWrites(blk, h, numPolsOut, n)|
      && BlockWrites(blk, h, numPolsOut, n)[w * t] ==
           VisWrite(Row0(blk, t), blk.startChan, blk.numChannels, NumBaselinesOut(blk), TimeVis(blk, numPolsOut, t))
      && (blk.startChan == 0 ==>
            BlockWrites(blk, h, numPolsOut, n)[w * t + 1] ==
            CoordsWrite(Row0(blk, t), NumBaselinesOut(blk),
                        TimeCoords(blk.uu, blk, t), TimeCoords(blk.vv, blk, t), TimeCoords(blk.ww, blk, t),
                        h.timeAverageSec, h.timeIncSec, TimeCentroid(blk.startTime, t, h.timeIncSec, h.timeStartMjdUtc)))
  {
    var w := WritesPerTime(blk);
    var earlier := BlockWrites(blk, h, numPolsOut, n - 1);
    BlockWritesLength(blk, h, numPolsOut, n - 1);
    assert w * n == w * (n - 1) + w;
    if t < n - 1 {
      BlockWritesAt(blk, h, numPolsOut, n - 1, t);
      assert BlockWrites(blk, h, numPolsOut, n)[w * t] == earlier[w * t];
      if blk.startChan == 0 {
        assert BlockWrites(blk, h, numPolsOut, n)[w * t + 1] == earlier[w * t + 1];
      }
    } else {
      assert BlockWrites(blk, h, numPolsOut, n)[w * t] == TimeWrites(blk, h, numPolsOut, t)[0];
      if blk.startChan == 0 {
        assert BlockWrites(blk, h, numPolsOut, n)[w * t + 1] == TimeWrites(blk, h, numPolsOut, t)[1];
      }
    }
  }

  /** Different time indices write disjoint runs of num_baseln_out rows,
      later times further down the table. */
  lemma RowsDisjoint(blk: VisBlock, t1: nat, t2: nat)
    requires t1 < t2
    ensures Row0(blk, t1) + NumBaselinesOut(blk) <= Row0(blk, t2)
  {
    MulMonotone(NumBaselinesOut(blk), blk.startTime + t1 + 1, blk.startTime + t2);
  }

  /** The checks of oskar_vis_block_write_ms for this block, header and
      table, with D2R the degree-to-radian factor. */
  function MsChecks(blk: VisBlock, h: VisHeaderCreate.VisHeader, ms: MeasurementSet, degToRad: real): Outcome
  {
    Checks(blk.hasAuto, blk.hasCross, blk.numPols, blk.numStations, ms.numPols, ms.numStations,
           ms.freqStartHz, h.freqStartHz, ms.phaseCentreRaRad, h.phaseCentreRaDeg * degToRad,
           ms.phaseCentreDecRad, h.phaseCentreDecDeg * degToRad)
  }

  /** oskar_vis_block_write_ms: with `precision` the precision of the
      block's cross-correlations, writes every time index of the block to
      the table, or fails before the first write. */
  method WriteMs(blk: VisBlock, h: VisHeaderCreate.VisHeader, ms: MeasurementSet, precision: Precision,
                 degToRad: real, status: Status) returns (st: Status)
    requires Assemblable(blk)
    modifies ms
    ensures status.IsError() ==> st == status && ms.writes == old(ms.writes)
    ensures !status.IsError() && MsChecks(blk, h, ms, degToRad) == NothingToWrite ==>
      st == Success && ms.writes == old(ms.writes)
    ensures !status.IsError() && MsChecks(blk, h, ms, degToRad).Fail? ==>
      st == MsChecks(blk, h, ms, degToRad).error && ms.writes == old(ms.writes)
    ensures !status.IsError() && MsChecks(blk, h, ms, degToRad) == Proceed && precision != Double && precision != Single ==>
      st == BadDataType && ms.writes == old(ms.writes)
    ensures !status.IsError() && MsChecks(blk, h, ms, degToRad) == Proceed && (precision == Double || precision == Single) ==>
      st == Success && ms.writes == old(ms.writes) + BlockWrites(blk, h, ms.numPols, blk.numTimes)
  {
    if status.IsError() {
      return status;
    }
    match MsChecks(blk, h, ms, degToRad)
    case NothingToWrite => return Success;
    case Fail(e) => return e;
    case Proceed =>
    if precision != Double && precision != Single {
      return BadDataType;
    }
    var nOut := blk.numBaselines;
    if blk.hasAuto {
      nOut := nOut + blk.numStations;
    }
    assert nOut == NumBaselinesOut(blk);
    var t := 0;
    while t < blk.numTimes
      invariant t <= blk.numTimes
      invariant ms.writes == old(ms.writes) + BlockWrites(blk, h, ms.numPols, t)
    {
      WriteTime(blk, h, ms, t, nOut);
      t := t + 1;
    }
    return Success;
  }

  /** One pass of the time loop: assemble, then write the visibilities and,
      from channel 0, the coordinates. */
  method WriteTime(blk: VisBlock, h: VisHeaderCreate.VisHeader, ms: MeasurementSet, t: nat, nOut: nat)
    requires Assemblable(blk) && t < blk.numTimes && nOut == NumBaselinesOut(blk)
    modifies ms
    ensures ms.writes == old(ms.writes) + TimeWrites(blk, h, ms.numPols, t)
  {
    var exposureSec, intervalSec := h.timeAverageSec, h.timeIncSec;
    var tStartSec := h.timeStartMjdUtc * 86400.0;
    var uu, vv, ww := [], [], [];
    if blk.startChan == 0 {
      uu, vv, ww := AssembleCoords(blk, t);
    }
    var vis := AssembleVis(blk, ms.numPols, t);
    var row0 := (blk.startTime + t) * nOut;
    ms.WriteVis(row0, blk.startChan, blk.numChannels, nOut, vis);
    if blk.startChan == 0 {
      ghost var afterVis := ms.writes;
      ms.WriteCoords(row0, nOut, uu, vv, ww, exposureSec, intervalSec,
        ((blk.startTime + t) as real + 0.5) * intervalSec + tStartSec);
      assert ms.writes == afterVis + [ms.writes[|ms.writes| - 1]];
      assert afterVis == old(ms.writes) + [TimeWrites(blk, h, ms.numPols, t)[0]];
      assert ms.writes[|ms.writes| - 1] == TimeWrites(blk, h, ms.numPols, t)[1];
      assert ms.writes == old(ms.writes) + TimeWrites(blk, h, ms.numPols, t);
    }
  }
}
