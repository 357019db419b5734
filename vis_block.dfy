/** The visibility block (oskar_VisBlock) as the imager and the Measurement
    Set writer read it. Correlations are stored time-major, then channel,
    then station (autocorrelations) or baseline (cross-correlations). */
module VisBlockData {
  import opened Common

  /** One correlation element: a scalar (one value) or a 2x2 matrix stored
      as XX, XY, YX, YY. */
  type Amp = seq<Complex>

  datatype VisBlock = VisBlock(
    startTime: nat,
    startChan: nat,
    numTimes: nat,
    numChannels: nat,
    numStations: nat,
    numBaselines: nat,
    numPols: nat,
    hasAuto: bool,
    hasCross: bool,
    /** baseline coordinates, at numBaselines * t + b */
    uu: seq<real>,
    vv: seq<real>,
    ww: seq<real>,
    /** at numStations * (numChannels * t + c) + a */
    autoCorr: seq<Amp>,
    /** at numBaselines * (numChannels * t + c) + b */
    crossCorr: seq<Amp>)

  /** The position of element k (station or baseline) of channel c at time
      t, with n elements per channel. */
  function CorrIndex(n: nat, numChannels: nat, t: nat, c: nat, k: nat): nat
  {
    Flat(n, Flat(numChannels, t, c), k)
  }

  /** Every (t, c, k) in range has its own position inside the
      numTimes * numChannels * n elements. */
  lemma CorrIndexInRange(n: nat, numTimes: nat, numChannels: nat, t: nat, c: nat, k: nat)
    requires t < numTimes && c < numChannels && k < n
    ensures CorrIndex(n, numChannels, t, c, k) < numTimes * numChannels * n
  {
    FlatInRange(numTimes, numChannels, t, c);
    FlatInRange(numTimes * numChannels, n, Flat(numChannels, t, c), k);
  }

  lemma CorrIndexInjective(n: nat, numChannels: nat, t1: nat, c1: nat, k1: nat, t2: nat, c2: nat, k2: nat)
    requires c1 < numChannels && c2 < numChannels && k1 < n && k2 < n
    requires CorrIndex(n, numChannels, t1, c1, k1) == CorrIndex(n, numChannels, t2, c2, k2)
    ensures t1 == t2 && c1 == c2 && k1 == k2
  {
    FlatInjective(n, Flat(numChannels, t1, c1), k1, Flat(numChannels, t2, c2), k2);
    FlatInjective(numChannels, t1, c1, t2, c2);
  }

  /** The block's arrays are as long as its dimensions say. */
  ghost predicate WellFormed(b: VisBlock)
  {
    && |b.uu| >= b.numTimes * b.numBaselines
    && |b.vv| >= b.numTimes * b.numBaselines
    && |b.ww| >= b.numTimes * b.numBaselines
    && (b.hasAuto ==> |b.autoCorr| >= b.numTimes * b.numChannels * b.numStations)
    && (b.hasCross ==> |b.crossCorr| >= b.numTimes * b.numChannels * b.numBaselines)
  }

  /** The number of unordered station pairs (a1, a2) with a1 < a2 < n,
      counted one station at a time. */
  function PairCount(n: nat): nat
  {
    if n == 0 then 0 else PairCount(n - 1) + (n - 1)
  }

  lemma {:induction false} TwicePairCount(n: nat)
    ensures 2 * PairCount(n) == n * (n - 1)
  {
    if n > 0 {
      TwicePairCount(n - 1);
      assert (n - 1) * (n - 2) + 2 * (n - 1) == n * (n - 1);
    }
  }

  /** A block of the simulator's shape: one baseline per station pair,
      scalar or 2x2 correlations, each correlation element holding
      numPols values. */
  ghost predicate Assemblable(b: VisBlock)
  {
    && WellFormed(b)
    && b.numBaselines == PairCount(b.numStations)
    && (b.numPols == 1 || b.numPols == 4)
    && (forall i :: 0 <= i < |b.autoCorr| ==> |b.autoCorr[i]| == b.numPols)
    && (forall i :: 0 <= i < |b.crossCorr| ==> |b.crossCorr[i]| == b.numPols)
  }
}
