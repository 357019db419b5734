/** The visibility header and its constructor (oskar_vis_header_create): it
    validates the amplitude type, fills in defaults for the block dimensions
    and zeroes all observation metadata. */
module VisHeaderCreate {
  import opened Common

  /** Polarisation layout of the amplitudes. */
  datatype PolType = StokesI | LinearXxXyYxYy

  /** An oskar_Mem buffer described by its element precision and length; the
      contents of freshly created buffers are not modelled. */
  datatype MemInfo = MemInfo(precision: Precision, length: int)

  datatype VisHeader = VisHeader(
    ampType: MemType,
    coordPrecision: Precision,
    numTagsPerBlock: int,
    maxTimesPerBlock: int,
    numTimesTotal: int,
    maxChannelsPerBlock: int,
    numChannelsTotal: int,
    numStations: int,
    polType: PolType,
    writeAutocorr: int,
    writeCrosscorr: int,
    freqStartHz: real,
    freqIncHz: real,
    channelBandwidthHz: real,
    timeStartMjdUtc: real,
    timeIncSec: real,
    timeAverageSec: real,
    phaseCentreType: int,
    phaseCentreRaDeg: real,
    phaseCentreDecDeg: real,
    telescopeCentreLonDeg: real,
    telescopeCentreLatDeg: real,
    telescopeCentreAltM: real,
    telescopePath: MemInfo,
    settings: MemInfo,
    stationXOffsetEcefMetres: MemInfo,
    stationYOffsetEcefMetres: MemInfo,
    stationZOffsetEcefMetres: MemInfo)

  /** Tags written per block: one always, four more for cross-correlations
      and one more for autocorrelations. */
  function TagsPerBlock(writeAutocorr: int, writeCrosscor: int): (r: int)
    ensures 1 <= r <= 6
  {
    1 + (if writeCrosscor != 0 then 4 else 0) + (if writeAutocorr != 0 then 1 else 0)
  }

  /** A non-positive maximum block dimension means "everything in one block". */
  function DefaultMax(maxPerBlock: int, total: int): (r: int)
    ensures maxPerBlock > 0 ==> r == maxPerBlock
    ensures maxPerBlock <= 0 ==> r == total
  {
    if maxPerBlock <= 0 then total else maxPerBlock
  }

  /** oskar_vis_header_create. `allocOk` says whether the allocation of
      the structure succeeded. The header exists exactly when the incoming
      status is clear, the amplitude type is complex and allocation succeeded;
      each failure gives its own status. */
  function Create(ampType: MemType, coordPrecision: Precision,
                  maxTimesPerBlock: int, numTimesTotal: int,
                  maxChannelsPerBlock: int, numChannelsTotal: int, numStations: int,
                  writeAutocorr: int, writeCrosscor: int, status: Status, allocOk: bool)
      : (r: (Option<VisHeader>, Status))
    ensures r.0.Some? <==> !status.IsError() && ampType.complex && allocOk
    ensures status.IsError() ==> r.1 == status
    ensures !status.IsError() && !ampType.complex ==> r.1 == BadDataType
    ensures !status.IsError() && ampType.complex && !allocOk ==> r.1 == MemoryAllocFailure
    ensures r.0.Some? ==> r.1 == Success
  {
    if status.IsError() then (None, status)
    else if !ampType.complex then (None, BadDataType)
    else if !allocOk then (None, MemoryAllocFailure)
    else
      var hdr := VisHeader(
        ampType, coordPrecision,
        TagsPerBlock(writeAutocorr, writeCrosscor),
        DefaultMax(maxTimesPerBlock, numTimesTotal), numTimesTotal,
        DefaultMax(maxChannelsPerBlock, numChannelsTotal), numChannelsTotal,
        numStations,
        if ampType.matrix then LinearXxXyYxYy else StokesI,
        writeAutocorr, writeCrosscor,
        0.0, 0.0, 0.0, 0.0, 0.0, 0.0, 0, 0.0, 0.0, 0.0, 0.0, 0.0,
        MemInfo(Char, 0), MemInfo(Char, 0),
        MemInfo(coordPrecision, numStations), MemInfo(coordPrecision, numStations),
        MemInfo(coordPrecision, numStations));
      (Some(hdr), Success)
  }

  /** What a created header holds: the tag count, the block maxima with their
      defaults, the polarisation type from the matrix flag, the write flags
      as given, all metadata zero, and station offsets of `numStations`
      elements in the coordinate precision. */
  lemma CreatedHeader(ampType: MemType, coordPrecision: Precision,
                      maxTimesPerBlock: int, numTimesTotal: int,
                      maxChannelsPerBlock: int, numChannelsTotal: int, numStations: int,
                      writeAutocorr: int, writeCrosscor: int)
    requires ampType.complex
    ensures var (h, st) := Create(ampType, coordPrecision, maxTimesPerBlock, numTimesTotal,
                                  maxChannelsPerBlock, numChannelsTotal, numStations,
                                  writeAutocorr, writeCrosscor, Success, true);
      && st == Success && h.Some?
      && h.value.numTagsPerBlock == 1 + 4 * (if writeCrosscor != 0 then 1 else 0)
                                      + (if writeAutocorr != 0 then 1 else 0)
      && (h.value.maxTimesPerBlock == if maxTimesPerBlock > 0 then maxTimesPerBlock else numTimesTotal)
      && (h.value.maxChannelsPerBlock == if maxChannelsPerBlock > 0 then maxChannelsPerBlock else numChannelsTotal)
      && h.value.numTimesTotal == numTimesTotal && h.value.numChannelsTotal == numChannelsTotal
      && h.value.numStations == numStations
      && (h.value.polType == LinearXxXyYxYy <==> ampType.matrix)
      && h.value.writeAutocorr == writeAutocorr && h.value.writeCrosscorr == writeCrosscor
      && h.value.freqStartHz == 0.0 && h.value.freqIncHz == 0.0 && h.value.channelBandwidthHz == 0.0
      && h.value.timeStartMjdUtc == 0.0 && h.value.timeIncSec == 0.0 && h.value.timeAverageSec == 0.0
      && h.value.phaseCentreType == 0 && h.value.phaseCentreRaDeg == 0.0 && h.value.phaseCentreDecDeg == 0.0
      && h.value.telescopeCentreLonDeg == 0.0 && h.value.telescopeCentreLatDeg == 0.0
      && h.value.telescopeCentreAltM == 0.0
      && h.value.stationXOffsetEcefMetres == MemInfo(coordPrecision, numStations)
      && h.value.stationYOffsetEcefMetres == MemInfo(coordPrecision, numStations)
      && h.value.stationZOffsetEcefMetres == MemInfo(coordPrecision, numStations)
  {
  }

  /** With positive totals, a created header has positive block maxima, so
      the number of blocks ceil(total / max) is well defined. */
  lemma CreatedMaximaPositive(ampType: MemType, coordPrecision: Precision,
                              maxTimesPerBlock: int, numTimesTotal: int,
                              maxChannelsPerBlock: int, numChannelsTotal: int, numStations: int,
                              writeAutocorr: int, writeCrosscor: int, status: Status, allocOk: bool)
    requires numTimesTotal > 0 && numChannelsTotal > 0
    ensures var (h, _) := Create(ampType, coordPrecision, maxTimesPerBlock, numTimesTotal,
                                 maxChannelsPerBlock, numChannelsTotal, numStations,
                                 writeAutocorr, writeCrosscor, status, allocOk);
      h.Some? ==> h.value.maxTimesPerBlock > 0 && h.value.maxChannelsPerBlock > 0
  {
  }

  /** The tag count takes only the values 1, 2, 5 and 6, and it determines
      both write flags. */
  lemma TagsDetermineFlags(a1: int, c1: int, a2: int, c2: int)
    ensures TagsPerBlock(a1, c1) in {1, 2, 5, 6}
    ensures TagsPerBlock(a1, c1) == TagsPerBlock(a2, c2) ==> (a1 != 0 <==> a2 != 0) && (c1 != 0 <==> c2 != 0)
  {
  }
}
