/** The deep copy of a station element model (oskar_element_copy): the
    scalar fields, then per frequency the frequency, the spherical-wave
    order, the coordinate flag and the file names, and the spline and
    spherical-wave handles, which are created in the destination only
    where the source has one and the destination does not. */
module ElementCopy {
  import opened Common

  /** A spline set (four coefficient and knot arrays in OSKAR) with the
      precision and memory location it was created with. */
  datatype Splines = Splines(precision: Precision, location: int, data: seq<real>)

  /** An oskar_Mem block with its element type and location. */
  datatype MemBlock = MemBlock(memType: MemType, location: int, data: seq<real>)

  /** The handles an element holds for one frequency; None is a null
      handle. */
  datatype FreqHandles = FreqHandles(
    xVRe: Option<Splines>, xVIm: Option<Splines>, xHRe: Option<Splines>, xHIm: Option<Splines>,
    yVRe: Option<Splines>, yVIm: Option<Splines>, yHRe: Option<Splines>, yHIm: Option<Splines>,
    scalarRe: Option<Splines>, scalarIm: Option<Splines>,
    sphWave: Option<MemBlock>)

  const NoHandles := FreqHandles(None, None, None, None, None, None, None, None, None, None, None)

  /** s cut or padded with d to length n: what resizing a per-frequency
      array keeps. */
  function Resized<T>(s: seq<T>, n: nat, d: T): (r: seq<T>)
    ensures |r| == n
    ensures forall i :: 0 <= i < n ==> r[i] == if i < |s| then s[i] else d
  {
    if n <= |s| then s[..n] else s + seq(n - |s|, _ => d)
  }

  /** oskar_splines_copy: the destination takes the source's data and
      keeps its own precision and location. */
  function CopySplines(dst: Option<Splines>, src: Option<Splines>): Option<Splines>
  {
    if dst.Some? && src.Some? then Some(dst.value.(data := src.value.data)) else dst
  }

  function CopyMem(dst: Option<MemBlock>, src: Option<MemBlock>): Option<MemBlock>
  {
    if dst.Some? && src.Some? then Some(dst.value.(data := src.value.data)) else dst
  }

  /** A new spline handle of the given precision and location. */
  function NewSplines(precision: Precision, location: int, old_: Option<Splines>, create: bool): Option<Splines>
  {
    if create then Some(Splines(precision, location, [])) else old_
  }

  /** The handles of one frequency after the copy: each group (x, y,
      scalar) is created when the source has its first handle and the
      destination lacks it, then every handle takes the source's data; the
      spherical-wave block is created as a complex matrix of the
      destination's precision. */
  function CopyHandles(dst: FreqHandles, src: FreqHandles, precision: Precision, location: int): (r: FreqHandles)
  {
    var cx := src.xVRe.Some? && dst.xVRe.None?;
    var cy := src.yVRe.Some? && dst.yVRe.None?;
    var cs := src.scalarRe.Some? && dst.scalarRe.None?;
    var cw := src.sphWave.Some? && dst.sphWave.None?;
    var sph := if cw then Some(MemBlock(MemType(precision, true, true), location, [])) else dst.sphWave;
    FreqHandles(
      CopySplines(NewSplines(precision, location, dst.xVRe, cx), src.xVRe),
      CopySplines(NewSplines(precision, location, dst.xVIm, cx), src.xVIm),
      CopySplines(NewSplines(precision, location, dst.xHRe, cx), src.xHRe),
      CopySplines(NewSplines(precision, location, dst.xHIm, cx), src.xHIm),
      CopySplines(NewSplines(precision, location, dst.yVRe, cy), src.yVRe),
      CopySplines(NewSplines(precision, location, dst.yVIm, cy), src.yVIm),
      CopySplines(NewSplines(precision, location, dst.yHRe, cy), src.yHRe),
      CopySplines(NewSplines(precision, location, dst.yHIm, cy), src.yHIm),
      CopySplines(NewSplines(precision, location, dst.scalarRe, cs), src.scalarRe),
      CopySplines(NewSplines(precision, location, dst.scalarIm, cs), src.scalarIm),
      CopyMem(sph, src.sphWave))
  }

  /** After the copy the destination has a handle wherever the source's
      group leader has one, holding the source's data; a handle the
      destination already had keeps its precision and location; a handle
      that is new was created with the given precision and location, and
      only because the source had one where the destination did not. */
  lemma CopyHandlesLeaders(dst: FreqHandles, src: FreqHandles, precision: Precision, location: int)
    ensures var r := CopyHandles(dst, src, precision, location);
      && (src.xVRe.Some? ==> r.xVRe.Some? && r.xVRe.value.data == src.xVRe.value.data)
      && (src.yVRe.Some? ==> r.yVRe.Some? && r.yVRe.value.data == src.yVRe.value.data)
      && (src.scalarRe.Some? ==> r.scalarRe.Some? && r.scalarRe.value.data == src.scalarRe.value.data)
      && (src.sphWave.Some? ==> r.sphWave.Some? && r.sphWave.value.data == src.sphWave.value.data)
      && (dst.xVRe.Some? ==> r.xVRe.value.precision == dst.xVRe.value.precision && r.xVRe.value.location == dst.xVRe.value.location)
      && (dst.sphWave.Some? ==> r.sphWave.value.memType == dst.sphWave.value.memType && r.sphWave.value.location == dst.sphWave.value.location)
      && (dst.xVRe.None? && r.xVRe.Some? ==> src.xVRe.Some? && r.xVRe.value.precision == precision && r.xVRe.value.location == location)
      && (dst.sphWave.None? && r.sphWave.Some? ==>
            src.sphWave.Some? && r.sphWave.value.memType == MemType(precision, true, true) && r.sphWave.value.location == location)
      && (src == NoHandles ==> r == dst)
  {
  }

  /** An element whose group handles are present together copies every
      handle of the source into the destination when the destination's
      groups are consistent too. */
  predicate GroupsConsistent(h: FreqHandles)
  {
    && (h.xVRe.Some? <==> h.xVIm.Some?) && (h.xVRe.Some? <==> h.xHRe.Some?) && (h.xVRe.Some? <==> h.xHIm.Some?)
    && (h.yVRe.Some? <==> h.yVIm.Some?) && (h.yVRe.Some? <==> h.yHRe.Some?) && (h.yVRe.Some? <==> h.yHIm.Some?)
    && (h.scalarRe.Some? <==> h.scalarIm.Some?)
  }

  /** The data of the handles, with null handles as None. */
  function Data(h: FreqHandles): seq<Option<seq<real>>>
  {
    [SplineData(h.xVRe), SplineData(h.xVIm), SplineData(h.xHRe), SplineData(h.xHIm),
     SplineData(h.yVRe), SplineData(h.yVIm), SplineData(h.yHRe), SplineData(h.yHIm),
     SplineData(h.scalarRe), SplineData(h.scalarIm),
     if h.sphWave.Some? then Some(h.sphWave.value.data) else None]
  }

  function SplineData(s: Option<Splines>): Option<seq<real>>
  {
    if s.Some? then Some(s.value.data) else None
  }

  /** Copying into a destination with no handles gives the source's data
      in every slot: the copy is deep and complete. */
  lemma CopyIntoEmptyIsDeep(src: FreqHandles, precision: Precision, location: int)
    requires GroupsConsistent(src)
    ensures Data(CopyHandles(NoHandles, src, precision, location)) == Data(src)
    ensures GroupsConsistent(CopyHandles(NoHandles, src, precision, location))
  {
  }

  /** The type fields of an element. */
  datatype Kind = Kind(precision: Precision, elementType: int, taperType: int, cosinePower: real,
                       gaussianFwhmRad: real, dipoleLength: real, dipoleLengthUnits: int)

  /** What an element holds for one frequency: the frequency, the
      spherical-wave order, the coordinate flag, the three file names and
      the handles. */
  datatype FreqData = FreqData(freqHz: real, lMax: int, commonPhiCoords: int,
                               filenameX: string, filenameY: string, filenameScalar: string,
                               handles: FreqHandles)

  /** An entry as resizing creates it. */
  const EmptyFreq := FreqData(0.0, 0, 0, "", "", "", NoHandles)

  /** One pass of the copy loop: the destination's entry takes the
      source's values and file names, and handles made by CopyHandles from
      its own. */
  function CopyFreq(dst: FreqData, src: FreqData, precision: Precision, location: int): (r: FreqData)
    ensures r.freqHz == src.freqHz && r.lMax == src.lMax && r.commonPhiCoords == src.commonPhiCoords
    ensures r.filenameX == src.filenameX && r.filenameY == src.filenameY && r.filenameScalar == src.filenameScalar
    ensures r.handles == CopyHandles(dst.handles, src.handles, precision, location)
  {
    src.(handles := CopyHandles(dst.handles, src.handles, precision, location))
  }

  /** A station element model: the type fields, then one entry per
      frequency (OSKAR keeps one array per field, all of the same
      length). */
  class Element {
    var kind: Kind
    const memLocation: int
    var numFreq: nat
    var freqs: seq<FreqData>

    /** Every per-frequency array has one entry per frequency. */
    predicate Valid()
      reads this
    {
      |freqs| == numFreq
    }

    constructor (precision: Precision, memLocation: int)
      ensures Valid() && numFreq == 0
      ensures kind.precision == precision && this.memLocation == memLocation
    {
      kind := Kind(precision, 0, 0, 0.0, 0.0, 0.0, 0);
      this.memLocation := memLocation;
      numFreq := 0;
      freqs := [];
    }

    /** oskar_element_resize_freq_data: the per-frequency arrays keep
        their first entries and new entries start empty. */
    method ResizeFreqData(n: nat)
      modifies this`numFreq, this`freqs
      ensures numFreq == n && Valid()
      ensures freqs == Resized(old(freqs), n, EmptyFreq)
    {
      numFreq := n;
      freqs := Resized(freqs, n, EmptyFreq);
    }
  }

  /** The loop over frequencies of oskar_element_copy, after the resize:
      frequency i takes the source's entry through CopyFreq, with the
      destination's precision and location. */
  method CopyFrequencies(dst: Element, sFreqs: seq<FreqData>)
    requires dst.Valid() && |sFreqs| == dst.numFreq
    modifies dst`freqs
    ensures dst.Valid()
    ensures forall k :: 0 <= k < |sFreqs| ==>
      dst.freqs[k] == CopyFreq(old(dst.freqs)[k], sFreqs[k], dst.kind.precision, dst.memLocation)
  {
    var n := dst.numFreq;
    var prec := dst.kind.precision;
    var loc := dst.memLocation;
    ghost var start := dst.freqs;
    var i := 0;
    while i < n
      invariant 0 <= i <= n && |dst.freqs| == n
      invariant forall k :: 0 <= k < i ==> dst.freqs[k] == CopyFreq(start[k], sFreqs[k], prec, loc)
      invariant forall k :: i <= k < n ==> dst.freqs[k] == start[k]
    {
      dst.freqs := dst.freqs[i := CopyFreq(dst.freqs[i], sFreqs[i], prec, loc)];
      i := i + 1;
    }
  }

  /** oskar_element_copy: with a fault status the destination is left
      alone; otherwise it takes the source's type fields and frequency
      count, and entry i becomes CopyFreq of its resized self and the
      source's entry, with its own (copied) precision and its own
      location, which is never changed. */
  method Copy(dst: Element, src: Element, status: Status) returns (st: Status)
    requires src.Valid()
    modifies dst
    ensures st == status
    ensures status.IsError() ==> unchanged(dst)
    ensures !status.IsError() ==>
      && dst.Valid()
      && dst.kind == old(src.kind)
      && dst.numFreq == old(src.numFreq)
      && (forall i :: 0 <= i < old(src.numFreq) ==>
            dst.freqs[i] == CopyFreq(Resized(old(dst.freqs), old(src.numFreq), EmptyFreq)[i],
                                     old(src.freqs[i]), old(src.kind.precision), dst.memLocation))
  {
    if status.IsError() {
      return status;
    }
    st := status;
    // src may be dst itself: read src first.
    var n := src.numFreq;
    var sFreqs := src.freqs;
    dst.kind := src.kind;
    dst.ResizeFreqData(n);
    CopyFrequencies(dst, sFreqs);
  }
}
