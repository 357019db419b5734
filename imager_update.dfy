/** The imager update engine (oskar_imager_update.c): how a batch of
    visibilities is split per image plane, selected, filtered, optionally
    sorted by |w|, re-weighted and handed to a gridding kernel, and how the
    coordinate-only pass accumulates weight grids and w statistics.

    The routines whose code is not part of this model (data selection, the
    time and uv filters, phase rotation, Stokes conversion, uniform weighting,
    the weight-grid writer, the DFT/FFT/W-projection kernels and check_init)
    are the fields of a `Helpers` value; each is applied only while the
    status is clear, as every OSKAR routine returns early on a set status.
    Precision conversion is the identity on values. */
module ImagerUpdate {
  import opened Common
  import opened ImagerSort
  import opened VisBlockData
  import WeightRadial
  import VisHeaderCreate

  datatype ImageType =
    | TypeStokes | TypeI | TypeQ | TypeU | TypeV
    | TypeLinear | TypeXX | TypeXY | TypeYX | TypeYY | TypePsf

  datatype Algorithm = Dft2D | Dft3D | Fft | WProj | UnknownAlgorithm(code: int)

  datatype Weighting = Natural | Radial | Uniform | UnknownWeighting(code: int)

  /** Imager settings that the update routines read and never change. */
  datatype Config = Config(
    imType: ImageType,
    algorithm: Algorithm,
    weighting: Weighting,
    numImChannels: nat,
    numImPols: nat,
    imFreqs: seq<real>,
    planeSize: nat,
    useStokes: bool,
    chanSnaps: bool,
    directionR: bool)
  {
    /** One plane per image channel and polarisation. */
    function NumPlanes(): nat { numImChannels * numImPols }
  }

  // ---------------------------------------------------------------------------
  // Plane indexing.

  /** The plane updated for image channel c and polarisation p. */
  function PlaneIndex(numPols: nat, c: nat, p: nat): nat
  {
    Flat(numPols, c, p)
  }

  /** Every (c, p) in range updates a plane in [0, C * P). */
  lemma PlaneIndexInRange(numChannels: nat, numPols: nat, c: nat, p: nat)
    requires c < numChannels && p < numPols
    ensures PlaneIndex(numPols, c, p) < numChannels * numPols
  {
    FlatInRange(numChannels, numPols, c, p);
  }

  /** Distinct (c, p) pairs update distinct planes. */
  lemma PlaneIndexInjective(numPols: nat, c1: nat, p1: nat, c2: nat, p2: nat)
    requires p1 < numPols && p2 < numPols
    requires PlaneIndex(numPols, c1, p1) == PlaneIndex(numPols, c2, p2)
    ensures c1 == c2 && p1 == p2
  {
    FlatInjective(numPols, c1, p1, c2, p2);
  }

  /** Every plane j in [0, C * P) is the plane of channel j / P and
      polarisation j % P. */
  lemma PlaneIndexOnto(numChannels: nat, numPols: nat, j: nat)
    requires j < numChannels * numPols
    ensures numPols > 0 && j / numPols < numChannels && j % numPols < numPols
    ensures PlaneIndex(numPols, j / numPols, j % numPols) == j
  {
    FlatOnto(numChannels, numPols, j);
  }

  // ---------------------------------------------------------------------------
  // Planes and weight grids, and their lazy allocation.

  /** The imager's per-plane storage: `None` is a null pointer array. */
  datatype PlaneStore = PlaneStore(
    weightsGrids: Option<seq<seq<real>>>,
    planes: Option<seq<seq<Complex>>>,
    planeNorm: seq<real>)

  ghost predicate StoreShape(s: PlaneStore, n: nat)
  {
    && (s.weightsGrids.Some? ==> |s.weightsGrids.value| == n)
    && (s.planes.Some? ==> |s.planes.value| == n && |s.planeNorm| == n)
  }

  /** What an update of a plane needs: the weight grids, and in full mode the
      planes, exist. */
  ghost predicate StoreReady(s: PlaneStore, n: nat, coordsOnly: bool)
  {
    StoreShape(s, n) && s.weightsGrids.Some? && (!coordsOnly ==> s.planes.Some?)
  }

  /** oskar_imager_allocate_planes on a clear status. */
  function Allocate(s: PlaneStore, coordsOnly: bool, numPlanes: nat, planeSize: nat): (r: PlaneStore)
    ensures StoreShape(s, numPlanes) ==> StoreReady(r, numPlanes, coordsOnly)
  {
    var grids := if s.weightsGrids.None? then Some(seq(numPlanes, _ => [])) else s.weightsGrids;
    if coordsOnly || s.planes.Some? then s.(weightsGrids := grids)
    else PlaneStore(grids, Some(seq(numPlanes, _ => seq(planeSize * planeSize, _ => Zero))),
                    seq(numPlanes, _ => 0.0))
  }

  /** Weight grids are created once, empty; existing grids and planes are
      kept; planes (of planeSize^2 cells) and zeroed norms are created only
      in full mode when absent; a second allocation changes nothing. */
  lemma AllocateOnce(s: PlaneStore, coordsOnly: bool, numPlanes: nat, planeSize: nat)
    ensures var r := Allocate(s, coordsOnly, numPlanes, planeSize);
      && (s.weightsGrids.Some? ==> r.weightsGrids == s.weightsGrids)
      && (s.weightsGrids.None? ==> r.weightsGrids == Some(seq(numPlanes, _ => [])))
      && (coordsOnly || s.planes.Some? ==> r.planes == s.planes && r.planeNorm == s.planeNorm)
      && (!coordsOnly && s.planes.None? ==>
            && r.planes.Some? && |r.planes.value| == numPlanes
            && (forall j :: 0 <= j < numPlanes ==> |r.planes.value[j]| == planeSize * planeSize)
            && r.planeNorm == seq(numPlanes, _ => 0.0))
      && Allocate(r, coordsOnly, numPlanes, planeSize) == r
  {
  }

  // ---------------------------------------------------------------------------
  // Running w statistics.

  /** ww_min, ww_max, ww_rms (a running sum of squares at this stage) and
      ww_points. */
  datatype WStats = WStats(wwMin: real, wwMax: real, wwRms: real, wwPoints: nat)

  /** One iteration of the statistics loop. */
  function StepW(s: WStats, w: real): WStats
  {
    var val := Abs(w);
    WStats(if val < s.wwMin then val else s.wwMin,
           if val > s.wwMax then val else s.wwMax,
           s.wwRms + val * val,
           s.wwPoints)
  }

  function FoldW(s: WStats, ws: seq<real>): WStats
    decreases |ws|
  {
    if |ws| == 0 then s else StepW(FoldW(s, ws[..|ws| - 1]), ws[|ws| - 1])
  }

  lemma FoldWSnoc(s: WStats, ws: seq<real>)
    requires |ws| > 0
    ensures FoldW(s, ws) == StepW(FoldW(s, ws[..|ws| - 1]), ws[|ws| - 1])
  {
  }

  /** The statistics after processing the w values ws. */
  function Accumulated(s: WStats, ws: seq<real>): WStats
  {
    FoldW(s, ws).(wwPoints := s.wwPoints + |ws|)
  }

  function SumSq(ws: seq<real>): real
    decreases |ws|
  {
    if |ws| == 0 then 0.0 else SumSq(ws[..|ws| - 1]) + Abs(ws[|ws| - 1]) * Abs(ws[|ws| - 1])
  }

  /** The point count grows by exactly |ws|, the sum of squares by the sum of
      |w|^2, the minimum never rises and the maximum never falls, and every
      processed |w| lies between them. */
  lemma {:induction false} AccumulatedBounds(s: WStats, ws: seq<real>)
    ensures var r := Accumulated(s, ws);
      && r.wwPoints == s.wwPoints + |ws|
      && r.wwRms == s.wwRms + SumSq(ws)
      && r.wwMin <= s.wwMin && r.wwMax >= s.wwMax
      && forall j :: 0 <= j < |ws| ==> r.wwMin <= Abs(ws[j]) <= r.wwMax
  {
    if |ws| > 0 {
      var init := ws[..|ws| - 1];
      AccumulatedBounds(s, init);
      assert forall j :: 0 <= j < |init| ==> init[j] == ws[j];
    }
  }

  /** The minimum is either the old one or one of the processed |w|. */
  lemma {:induction false} AccumulatedMinAttained(s: WStats, ws: seq<real>)
    ensures var r := Accumulated(s, ws);
      r.wwMin == s.wwMin || exists j :: 0 <= j < |ws| && r.wwMin == Abs(ws[j])
  {
    if |ws| > 0 {
      var init := ws[..|ws| - 1];
      AccumulatedMinAttained(s, init);
      if FoldW(s, ws).wwMin != FoldW(s, init).wwMin {
        assert FoldW(s, ws).wwMin == Abs(ws[|ws| - 1]);
      } else if FoldW(s, init).wwMin != s.wwMin {
        var j :| 0 <= j < |init| && FoldW(s, init).wwMin == Abs(init[j]);
        assert init[j] == ws[j];
      }
    }
  }

  /** Two successive updates accumulate the same statistics as one update
      over the concatenated batches. */
  lemma {:induction false} AccumulatedConcat(s: WStats, a: seq<real>, b: seq<real>)
    ensures Accumulated(Accumulated(s, a), b) == Accumulated(s, a + b)
  {
    FoldConcat(s, a, b);
    FoldKeepsPoints(s, a);
    FoldPointsIrrelevant(FoldW(s, a), b, s.wwPoints + |a|);
  }

  lemma {:induction false} FoldConcat(s: WStats, a: seq<real>, b: seq<real>)
    ensures FoldW(FoldW(s, a), b) == FoldW(s, a + b)
    decreases |b|
  {
    if |b| == 0 {
      assert a + b == a;
    } else {
      FoldConcat(s, a, b[..|b| - 1]);
      assert (a + b)[..|a + b| - 1] == a + b[..|b| - 1];
    }
  }

  lemma {:induction false} FoldKeepsPoints(s: WStats, ws: seq<real>)
    ensures FoldW(s, ws).wwPoints == s.wwPoints
    decreases |ws|
  {
    if |ws| > 0 {
      FoldKeepsPoints(s, ws[..|ws| - 1]);
    }
  }

  lemma FoldPointsIrrelevant(s: WStats, ws: seq<real>, n: nat)
    ensures FoldW(s.(wwPoints := n), ws) == FoldW(s, ws).(wwPoints := n)
    decreases |ws|
  {
    if |ws| > 0 {
      FoldPointsIrrelevant(s, ws[..|ws| - 1], n);
    }
  }

  /** The statistics loop of oskar_imager_update_weights_grid over the
      first n values of ww. */
  method AccumulateW(s: WStats, ww: array<real>, n: nat) returns (r: WStats)
    requires n <= ww.Length
    ensures r == Accumulated(s, ww[..n])
  {
    r := s;
    var j := 0;
    while j < n
      invariant 0 <= j <= n
      invariant r == FoldW(s, ww[..j])
    {
      ghost var prev := r;
      var val := Abs(ww[j]);
      r := r.(wwRms := r.wwRms + val * val);
      if val < r.wwMin { r := r.(wwMin := val); }
      if val > r.wwMax { r := r.(wwMax := val); }
      assert r == StepW(prev, ww[j]);
      FoldWSnoc(s, ww[..j + 1]);
      assert ww[..j + 1][..j] == ww[..j];
      j := j + 1;
    }
    r := r.(wwPoints := r.wwPoints + n);
    FoldKeepsPoints(s, ww[..n]);
  }

  // ---------------------------------------------------------------------------
  // The helpers and the per-plane visibility pipeline.

  /** The arguments of one call of oskar_imager_update; `None` amplitudes are
      a null pointer. */
  datatype UpdateInput = UpdateInput(
    numRows: nat, startChan: int, endChan: int, numPols: int,
    uu: seq<real>, vv: seq<real>, ww: seq<real>,
    amps: Option<seq<Amp>>, weight: seq<real>, timeCentroid: seq<real>)

  datatype Coords = Coords(u: real, v: real, w: real)

  /** A visibility picked for one plane, with its time centroid. */
  datatype Selected = Selected(row: Row, time: real)

  /** What a gridding kernel leaves: the plane, its normalisation and the
      status. */
  datatype PlaneUpdate = PlaneUpdate(plane: seq<Complex>, norm: real, status: Status)

  datatype Helpers = Helpers(
    /** the status oskar_imager_check_init leaves on a clear status */
    checkInit: Status,
    /** oskar_imager_select_data: (input, rows, amplitudes, frequency, pol) */
    select: (UpdateInput, nat, Option<seq<Amp>>, real, nat) -> seq<Selected>,
    /** the rows oskar_imager_filter_time and oskar_imager_filter_uv keep */
    keepTime: Selected -> bool,
    keepUv: Selected -> bool,
    rotateCoords: Coords -> Coords,
    /** oskar_imager_rotate_vis, given the unrotated coordinates */
    rotateVis: (Coords, Complex) -> Complex,
    linearToStokes: seq<Amp> -> seq<Amp>,
    /** oskar_imager_weight_uniform: a row's new weight from the weight grid */
    weightUniform: (Row, seq<real>) -> real,
    /** oskar_grid_weights_write: the new value of one grid cell */
    gridWeights: (seq<Row>, nat, real) -> real,
    dft: (seq<Complex>, real, seq<Row>) -> PlaneUpdate,
    fft: (seq<Complex>, real, seq<Row>) -> PlaneUpdate,
    wproj: (seq<Complex>, real, seq<Row>) -> PlaneUpdate,
    sqrt: real -> real)

  /** num_rows == 0 means "all of uu". */
  function RowsIn(input: UpdateInput): nat
  {
    if input.numRows == 0 then |input.uu| else input.numRows
  }

  /** The size the work arrays are grown to. */
  function MaxNumVis(input: UpdateInput, chanSnaps: bool): nat
    requires input.startChan <= input.endChan + 1
  {
    var channels: nat := 1 + input.endChan - input.startChan;
    NatProduct(RowsIn(input), channels);
    if chanSnaps then RowsIn(input) else RowsIn(input) * channels
  }

  /** The contract of select_data this model relies on: it never selects
      more visibilities than the work arrays are sized for. */
  ghost predicate SelectBounded(h: Helpers, chanSnaps: bool)
  {
    forall input: UpdateInput, n: nat, a: Option<seq<Amp>>, f: real, p: nat
      {:trigger h.select(input, n, a, f, p)} ::
      input.startChan <= input.endChan + 1 ==>
        |h.select(input, n, a, f, p)| <=
          (if chanSnaps then n else n * (1 + input.endChan - input.startChan))
  }

  /** Every selection of one update fits in arrays of MaxNumVis rows. */
  lemma SelectFits(h: Helpers, chanSnaps: bool, input: UpdateInput, n: nat, a: Option<seq<Amp>>,
                   freqs: seq<real>, numPols: nat, maxNumVis: nat)
    requires SelectBounded(h, chanSnaps) && input.startChan <= input.endChan + 1
    requires maxNumVis == if chanSnaps then n else n * (1 + input.endChan - input.startChan)
    ensures forall c: nat, p: nat :: c < |freqs| && p < numPols ==> |h.select(input, n, a, freqs[c], p)| <= maxNumVis
  {
    forall c: nat, p: nat | c < |freqs| && p < numPols
      ensures |h.select(input, n, a, freqs[c], p)| <= maxNumVis
    {
      var f := freqs[c];
      var bound := if chanSnaps then n else n * (1 + input.endChan - input.startChan);
      assert |h.select(input, n, a, f, p)| <= bound;
    }
  }

  /** The rows a filter keeps, in their original order. */
  function Filter(keep: Selected -> bool, s: seq<Selected>): (r: seq<Selected>)
    ensures |r| <= |s|
    ensures forall x :: x in r <==> x in s && keep(x)
    decreases |s|
  {
    if |s| == 0 then []
    else (if keep(s[0]) then [s[0]] else []) + Filter(keep, s[1..])
  }

  /** Coordinate rotation, then the PSF overwrite or phase rotation (in full
      mode only), for one selected row. */
  function Prepare(h: Helpers, cfg: Config, coordsOnly: bool, s: Selected): Selected
  {
    var orig := Coords(s.row.u, s.row.v, s.row.w);
    var c := if cfg.directionR then h.rotateCoords(orig) else orig;
    var amp :=
      if coordsOnly then s.row.amp
      else if cfg.imType == TypePsf then Complex(1.0, 0.0)
      else if cfg.directionR then h.rotateVis(orig, s.row.amp)
      else s.row.amp;
    Selected(Row(c.u, c.v, c.w, amp, s.row.weight), s.time)
  }

  /** The rows that reach update_plane for one selection. */
  function PlaneRows(h: Helpers, cfg: Config, coordsOnly: bool, sel: seq<Selected>): (r: seq<Row>)
    ensures |r| <= |sel|
  {
    var prepared := seq(|sel|, j requires 0 <= j < |sel| => Prepare(h, cfg, coordsOnly, sel[j]));
    var kept := Filter(h.keepUv, Filter(h.keepTime, prepared));
    seq(|kept|, j requires 0 <= j < |kept| => kept[j].row)
  }

  /** In PSF mode every visibility that reaches a plane has amplitude 1. */
  lemma PsfRowsHaveUnitAmplitude(h: Helpers, cfg: Config, sel: seq<Selected>)
    requires cfg.imType == TypePsf
    ensures forall r :: r in PlaneRows(h, cfg, false, sel) ==> r.amp == Complex(1.0, 0.0)
  {
    var prepared := seq(|sel|, j requires 0 <= j < |sel| => Prepare(h, cfg, false, sel[j]));
    var kept := Filter(h.keepUv, Filter(h.keepTime, prepared));
    forall r | r in PlaneRows(h, cfg, false, sel)
      ensures r.amp == Complex(1.0, 0.0)
    {
      var j :| 0 <= j < |kept| && kept[j].row == r;
      assert kept[j] in prepared;
    }
  }

  /** Every row that reaches a plane passed both filters. */
  lemma PlaneRowsPassFilters(h: Helpers, cfg: Config, coordsOnly: bool, sel: seq<Selected>)
    ensures forall r :: r in PlaneRows(h, cfg, coordsOnly, sel) ==>
      exists x :: x in sel && h.keepTime(Prepare(h, cfg, coordsOnly, x)) &&
                  h.keepUv(Prepare(h, cfg, coordsOnly, x)) && Prepare(h, cfg, coordsOnly, x).row == r
  {
    var prepared := seq(|sel|, j requires 0 <= j < |sel| => Prepare(h, cfg, coordsOnly, sel[j]));
    var kept := Filter(h.keepUv, Filter(h.keepTime, prepared));
    forall r | r in PlaneRows(h, cfg, coordsOnly, sel)
      ensures exists x :: x in sel && h.keepTime(Prepare(h, cfg, coordsOnly, x)) &&
                  h.keepUv(Prepare(h, cfg, coordsOnly, x)) && Prepare(h, cfg, coordsOnly, x).row == r
    {
      var j :| 0 <= j < |kept| && kept[j].row == r;
      assert kept[j] in Filter(h.keepTime, prepared);
      var k :| 0 <= k < |prepared| && prepared[k] == kept[j];
      assert sel[k] in sel;
    }
  }

  function WsOf(rows: seq<Row>): (r: seq<real>)
    ensures |r| == |rows| && forall j :: 0 <= j < |rows| ==> r[j] == rows[j].w
  {
    seq(|rows|, j requires 0 <= j < |rows| => rows[j].w)
  }

  // ---------------------------------------------------------------------------
  // update_plane and update_weights_grid as functions of the state.

  /** The re-weighting switch: the status and the rows the kernel sees. An
      unknown weighting sets FUNCTION_NOT_AVAILABLE whatever the status was. */
  function Reweight(h: Helpers, weighting: Weighting, status: Status, rows: seq<Row>, grid: seq<real>)
      : (r: (Status, seq<Row>))
    ensures |r.1| == |rows|
  {
    match weighting
      case Natural => (status, rows)
      case Radial =>
        if status.IsError() then (status, rows)
        else (status, seq(|rows|, j requires 0 <= j < |rows| =>
          rows[j].(weight := WeightRadial.RadialWeight(h.sqrt, rows[j].u, rows[j].v, rows[j].weight))))
      case Uniform =>
        if status.IsError() then (status, rows)
        else (status, seq(|rows|, j requires 0 <= j < |rows| => rows[j].(weight := h.weightUniform(rows[j], grid))))
      case UnknownWeighting(_) => (FunctionNotAvailable, rows)
  }

  function RunKernel(kernel: (seq<Complex>, real, seq<Row>) -> PlaneUpdate, status: Status,
                     plane: seq<Complex>, norm: real, rows: seq<Row>): PlaneUpdate
  {
    if status.IsError() then PlaneUpdate(plane, norm, status) else kernel(plane, norm, rows)
  }

  /** The algorithm switch. An unknown algorithm sets FUNCTION_NOT_AVAILABLE
      whatever the status was. */
  function Grid(h: Helpers, algorithm: Algorithm, status: Status, plane: seq<Complex>, norm: real,
                rows: seq<Row>): PlaneUpdate
  {
    match algorithm
      case Dft2D => RunKernel(h.dft, status, plane, norm, rows)
      case Dft3D => RunKernel(h.dft, status, plane, norm, rows)
      case Fft => RunKernel(h.fft, status, plane, norm, rows)
      case WProj => RunKernel(h.wproj, status, plane, norm, rows)
      case UnknownAlgorithm(_) => PlaneUpdate(plane, norm, FunctionNotAvailable)
  }

  /** update_plane in full mode, on a clear status and a non-empty batch. */
  function FullPlaneUpdate(h: Helpers, cfg: Config, plane: seq<Complex>, norm: real, grid: seq<real>,
                           rows: seq<Row>): PlaneUpdate
  {
    var (st, weighted) := Reweight(h, cfg.weighting, h.checkInit, rows, grid);
    Grid(h, cfg.algorithm, st, plane, norm, weighted)
  }

  /** oskar_mem_ensure: a buffer grown, if needed, to at least m cells. */
  function EnsureCells(g: seq<real>, m: nat): (r: seq<real>)
    ensures |r| >= m && |r| >= |g| && r[..|g|] == g
  {
    if |g| >= m then g else g + seq(m - |g|, _ => 0.0)
  }

  function GridWeightsWritten(h: Helpers, g: seq<real>, rows: seq<Row>): (r: seq<real>)
    ensures |r| == |g|
  {
    seq(|g|, idx requires 0 <= idx < |g| => h.gridWeights(rows, idx, g[idx]))
  }

  datatype PlaneState = PlaneState(status: Status, store: PlaneStore, stats: WStats)

  /** oskar_imager_update_weights_grid for plane i. */
  function WeightsGridStep(h: Helpers, cfg: Config, status: Status, rows: seq<Row>, i: nat,
                           store: PlaneStore, stats: WStats): PlaneState
    requires store.weightsGrids.Some? && i < |store.weightsGrids.value|
  {
    if status.IsError() then PlaneState(status, store, stats)
    else
      var grids := store.weightsGrids.value;
      var store' :=
        if cfg.weighting == Uniform then
          store.(weightsGrids := Some(grids[i := GridWeightsWritten(h, EnsureCells(grids[i], cfg.planeSize * cfg.planeSize), rows)]))
        else store;
      var stats' := if cfg.algorithm == WProj then Accumulated(stats, WsOf(rows)) else stats;
      PlaneState(status, store', stats')
  }

  /** oskar_imager_update_plane for plane i. */
  function PlaneStep(h: Helpers, cfg: Config, coordsOnly: bool, status: Status, rows: seq<Row>, i: nat,
                     store: PlaneStore, stats: WStats): PlaneState
    requires StoreReady(store, cfg.NumPlanes(), coordsOnly) && i < cfg.NumPlanes()
  {
    if status.IsError() || |rows| == 0 then PlaneState(status, store, stats)
    else if coordsOnly then WeightsGridStep(h, cfg, status, rows, i, store, stats)
    else
      var r := FullPlaneUpdate(h, cfg, store.planes.value[i], store.planeNorm[i],
                               store.weightsGrids.value[i], rows);
      PlaneState(r.status, store.(planes := Some(store.planes.value[i := r.plane]),
                                  planeNorm := store.planeNorm[i := r.norm]), stats)
  }

  /** Plane j of two stores holds the same grid, plane and norm. */
  ghost predicate SameSlot(a: PlaneStore, b: PlaneStore, j: nat)
  {
    && (a.weightsGrids.Some? && b.weightsGrids.Some? && j < |a.weightsGrids.value| && j < |b.weightsGrids.value| ==>
          a.weightsGrids.value[j] == b.weightsGrids.value[j])
    && (a.planes.Some? && b.planes.Some? && j < |a.planes.value| && j < |b.planes.value| ==>
          a.planes.value[j] == b.planes.value[j])
    && (j < |a.planeNorm| && j < |b.planeNorm| ==> a.planeNorm[j] == b.planeNorm[j])
  }

  /** An update of plane i touches only plane i's grid, plane and norm; the
      coordinate pass never touches planes and the full pass never touches
      grids or statistics; a set status or an empty batch changes nothing. */
  lemma PlaneStepFrame(h: Helpers, cfg: Config, coordsOnly: bool, status: Status, rows: seq<Row>, i: nat,
                       store: PlaneStore, stats: WStats)
    requires StoreReady(store, cfg.NumPlanes(), coordsOnly) && i < cfg.NumPlanes()
    ensures var r := PlaneStep(h, cfg, coordsOnly, status, rows, i, store, stats);
      && StoreReady(r.store, cfg.NumPlanes(), coordsOnly)
      && (coordsOnly ==> r.store.planes == store.planes && r.store.planeNorm == store.planeNorm)
      && (!coordsOnly ==> r.store.weightsGrids == store.weightsGrids && r.stats == stats)
      && (forall j :: 0 <= j < cfg.NumPlanes() && j != i ==> SameSlot(r.store, store, j))
      && (status.IsError() || |rows| == 0 ==> r == PlaneState(status, store, stats))
  {
  }

  /** In full mode an unknown weighting or an unknown algorithm sets
      FUNCTION_NOT_AVAILABLE and leaves the plane and its norm as they were. */
  lemma UnknownMethodNotAvailable(h: Helpers, cfg: Config, rows: seq<Row>, i: nat,
                                  store: PlaneStore, stats: WStats)
    requires StoreReady(store, cfg.NumPlanes(), false) && i < cfg.NumPlanes() && |rows| > 0
    requires cfg.algorithm.UnknownAlgorithm? || cfg.weighting.UnknownWeighting?
    ensures var r := PlaneStep(h, cfg, false, Success, rows, i, store, stats);
      && r.status == FunctionNotAvailable
      && r.store.planes.value[i] == store.planes.value[i]
      && r.store.planeNorm[i] == store.planeNorm[i]
  {
  }

  /** Natural weighting hands the rows to the kernel as they are; radial
      weighting scales each weight by its baseline length. */
  lemma WeightingIsApplied(h: Helpers, cfg: Config, rows: seq<Row>, grid: seq<real>)
    requires !h.checkInit.IsError()
    ensures cfg.weighting == Natural ==> Reweight(h, cfg.weighting, h.checkInit, rows, grid) == (h.checkInit, rows)
    ensures cfg.weighting == Radial ==>
      forall j :: 0 <= j < |rows| ==>
        Reweight(h, cfg.weighting, h.checkInit, rows, grid).1[j] ==
          rows[j].(weight := rows[j].weight * h.sqrt(rows[j].u * rows[j].u + rows[j].v * rows[j].v))
  {
  }

  /** Under W-projection the coordinate pass adds exactly the batch to the
      statistics, and under uniform weighting the plane's grid afterwards
      has at least planeSize^2 cells. */
  lemma CoordinatePassEffects(h: Helpers, cfg: Config, rows: seq<Row>, i: nat, store: PlaneStore, stats: WStats)
    requires StoreReady(store, cfg.NumPlanes(), true) && i < cfg.NumPlanes() && |rows| > 0
    ensures var r := PlaneStep(h, cfg, true, Success, rows, i, store, stats);
      && (cfg.algorithm == WProj ==>
            r.stats.wwPoints == stats.wwPoints + |rows| &&
            forall j :: 0 <= j < |rows| ==> r.stats.wwMin <= Abs(rows[j].w) <= r.stats.wwMax)
      && (cfg.algorithm != WProj ==> r.stats == stats)
      && (cfg.weighting == Uniform ==> |r.store.weightsGrids.value[i]| >= cfg.planeSize * cfg.planeSize)
  {
    AccumulatedBounds(stats, WsOf(rows));
  }

  // ---------------------------------------------------------------------------
  // The imager object.


  class Imager {
    const cfg: Config
    var coordsOnly: bool
    var store: PlaneStore
    var wStats: WStats
    /** The work arrays uu_im, vv_im, ww_im, vis_im and weight_im. */
    var uuIm: array<real>
    var vvIm: array<real>
    var wwIm: array<real>
    var visIm: array<Complex>
    var weightIm: array<real>
    const weightTmp: RealBuffer
    /** What oskar_imager_set_vis_frequency and _set_vis_phase_centre record. */
    var visFreqStartHz: real
    var visFreqIncHz: real
    var visNumChannels: int
    var visRaDeg: real
    var visDecDeg: real

    ghost predicate Valid()
      reads this
    {
      && |cfg.imFreqs| == cfg.numImChannels
      && StoreShape(store, cfg.NumPlanes())
      && Columns(uuIm, vvIm, wwIm, visIm, weightIm, 0)
      && vvIm.Length == uuIm.Length && wwIm.Length == uuIm.Length
      && visIm.Length == uuIm.Length && weightIm.Length == uuIm.Length
    }

    /** The work arrays are the same objects as before. */
    twostate predicate WorkKept()
      reads this
    {
      && uuIm == old(uuIm) && vvIm == old(vvIm) && wwIm == old(wwIm)
      && visIm == old(visIm) && weightIm == old(weightIm)
    }

    /** The recorded frequency and phase centre are as before. */
    twostate predicate VisKept()
      reads this
    {
      && visFreqStartHz == old(visFreqStartHz) && visFreqIncHz == old(visFreqIncHz)
      && visNumChannels == old(visNumChannels) && visRaDeg == old(visRaDeg) && visDecDeg == old(visDecDeg)
    }

    /** An imager in the given state with empty work arrays. */
    constructor (cfg: Config, coordsOnly: bool, store: PlaneStore, stats: WStats, weightTmp: RealBuffer)
      requires |cfg.imFreqs| == cfg.numImChannels && StoreShape(store, cfg.NumPlanes())
      ensures Valid()
      ensures this.cfg == cfg && this.coordsOnly == coordsOnly && this.store == store
      ensures this.wStats == stats && this.weightTmp == weightTmp
    {
      this.cfg := cfg;
      this.coordsOnly := coordsOnly;
      this.store := store;
      this.wStats := stats;
      this.weightTmp := weightTmp;
      uuIm := new real[0];
      vvIm := new real[0];
      wwIm := new real[0];
      visIm := new Complex[0];
      weightIm := new real[0];
    }

    /** oskar_imager_allocate_planes. */
    method AllocatePlanes(status: Status) returns (st: Status)
      requires Valid()
      modifies this
      ensures Valid() && st == status && coordsOnly == old(coordsOnly)
      ensures store == if status.IsError() then old(store)
                       else Allocate(old(store), coordsOnly, cfg.NumPlanes(), cfg.planeSize)
      ensures !status.IsError() ==> StoreReady(store, cfg.NumPlanes(), coordsOnly)
      ensures wStats == old(wStats) && WorkKept() && VisKept()
    {
      st := status;
      if status.IsError() { return; }
      var n := cfg.NumPlanes();
      if store.weightsGrids.None? {
        store := store.(weightsGrids := Some(seq(n, _ => [])));
      }
      if coordsOnly || store.planes.Some? { return; }
      store := store.(planes := Some(seq(n, _ => seq(cfg.planeSize * cfg.planeSize, _ => Zero))),
                      planeNorm := seq(n, _ => 0.0));
    }

    /** oskar_imager_update_weights_grid for plane i over the first n rows of
        the work arrays. */
    method UpdateWeightsGrid(h: Helpers, status: Status, n: nat, i: nat) returns (st: Status)
      requires Valid() && n <= uuIm.Length
      requires store.weightsGrids.Some? && i < |store.weightsGrids.value|
      modifies this
      ensures Valid() && coordsOnly == old(coordsOnly)
      ensures PlaneState(st, store, wStats) ==
        WeightsGridStep(h, cfg, status, old(RowsOfArrays(uuIm, vvIm, wwIm, visIm, weightIm, n)), i,
                        old(store), old(wStats))
      ensures WorkKept() && VisKept()
    {
      st := status;
      if status.IsError() { return; }
      var rows := RowsOfArrays(uuIm, vvIm, wwIm, visIm, weightIm, n);
      if cfg.weighting == Uniform {
        var grids := store.weightsGrids.value;
        var g := EnsureCells(grids[i], cfg.planeSize * cfg.planeSize);
        store := store.(weightsGrids := Some(grids[i := GridWeightsWritten(h, g, rows)]));
      }
      if cfg.algorithm == WProj {
        assert WsOf(rows) == wwIm[..n];
        wStats := AccumulateW(wStats, wwIm, n);
      }
    }

    /** The weighting switch of oskar_imager_update_plane: the first n
        rows of the work arrays with the weights the configured weighting
        gives them; the new weights also go to the weight scratch buffer. */
    method ApplyWeighting(h: Helpers, n: nat, grid: seq<real>) returns (st1: Status, weighted: seq<Row>)
      requires Valid() && n <= uuIm.Length
      modifies weightTmp
      ensures (st1, weighted) == Reweight(h, cfg.weighting, h.checkInit, RowsOfArrays(uuIm, vvIm, wwIm, visIm, weightIm, n), grid)
    {
      var rows := RowsOfArrays(uuIm, vvIm, wwIm, visIm, weightIm, n);
      st1 := h.checkInit;
      weighted := rows;
      match cfg.weighting {
        case Natural =>
        case Radial =>
          WeightRadial.WeightRadial(st1, n, uuIm, vvIm, weightIm, weightTmp, h.sqrt);
          if !st1.IsError() {
            weighted := RowsOf(uuIm[..], vvIm[..], wwIm[..], visIm[..], weightTmp.data[..], n);
            assert forall j :: 0 <= j < n ==>
              weighted[j] == rows[j].(weight := WeightRadial.RadialWeight(h.sqrt, rows[j].u, rows[j].v, rows[j].weight));
          }
        case Uniform =>
          if !st1.IsError() {
            var ws := seq(n, j requires 0 <= j < n => h.weightUniform(rows[j], grid));
            var a := new real[n](j requires 0 <= j < n => ws[j]);
            weightTmp.data := a;
            weighted := RowsOf(uuIm[..], vvIm[..], wwIm[..], visIm[..], a[..], n);
            assert forall j :: 0 <= j < n ==> weighted[j] == rows[j].(weight := h.weightUniform(rows[j], grid));
          }
        case UnknownWeighting(_) =>
          st1 := FunctionNotAvailable;
      }
      assert rows == RowsOfArrays(uuIm, vvIm, wwIm, visIm, weightIm, n);
      assert st1 == Reweight(h, cfg.weighting, h.checkInit, rows, grid).0;
      assert weighted == Reweight(h, cfg.weighting, h.checkInit, rows, grid).1;
    }

    /** oskar_imager_update_plane for plane i over the first n rows of the
        work arrays. Besides the plane state only the weight scratch buffer
        can change. */
    method UpdatePlane(h: Helpers, status: Status, n: nat, i: nat) returns (st: Status)
      requires Valid() && n <= uuIm.Length
      requires StoreReady(store, cfg.NumPlanes(), coordsOnly) && i < cfg.NumPlanes()
      modifies this, weightTmp
      ensures Valid() && coordsOnly == old(coordsOnly)
      ensures PlaneState(st, store, wStats) ==
        PlaneStep(h, cfg, coordsOnly, status, old(RowsOfArrays(uuIm, vvIm, wwIm, visIm, weightIm, n)), i,
                  old(store), old(wStats))
      ensures WorkKept() && VisKept()
    {
      st := status;
      if status.IsError() || n == 0 { return; }
      if coordsOnly {
        st := UpdateWeightsGrid(h, status, n, i);
        return;
      }
      var grid := store.weightsGrids.value[i];
      var st1, weighted := ApplyWeighting(h, n, grid);
      var r := Grid(h, cfg.algorithm, st1, store.planes.value[i], store.planeNorm[i], weighted);
      store := store.(planes := Some(store.planes.value[i := r.plane]),
                      planeNorm := store.planeNorm[i := r.norm]);
      st := r.status;
    }

    /** What select_data and the steps after it leave in the work arrays for
        one plane: the rows, in their first |rows| positions. */
    method LoadRows(rows: seq<Row>)
      requires Valid() && |rows| <= uuIm.Length
      modifies uuIm, vvIm, wwIm, visIm, weightIm
      ensures RowsOfArrays(uuIm, vvIm, wwIm, visIm, weightIm, |rows|) == rows
    {
      forall j | 0 <= j < |rows| { uuIm[j] := rows[j].u; }
      forall j | 0 <= j < |rows| { vvIm[j] := rows[j].v; }
      forall j | 0 <= j < |rows| { wwIm[j] := rows[j].w; }
      forall j | 0 <= j < |rows| { visIm[j] := rows[j].amp; }
      forall j | 0 <= j < |rows| { weightIm[j] := rows[j].weight; }
      assert forall j :: 0 <= j < |rows| ==>
        RowsOfArrays(uuIm, vvIm, wwIm, visIm, weightIm, |rows|)[j] == rows[j];
    }

    /** The rows of one plane loaded into the work arrays, and sorted by
        |w| for W-projection in full mode: the work arrays then hold the
        batch the plane update reads. */
    method LoadBatch(rows: seq<Row>) returns (ghost perm: seq<nat>, ghost batch: seq<Row>)
      requires Valid() && |rows| <= uuIm.Length
      modifies uuIm, vvIm, wwIm, visIm, weightIm
      ensures RowsOfArrays(uuIm, vvIm, wwIm, visIm, weightIm, |rows|) == batch
      ensures cfg.algorithm == WProj && !coordsOnly ==>
        IsPermutation(perm, |rows|) && SortedByAbs(WsOf(Permute(rows, perm))) && batch == Permute(rows, perm)
      ensures !(cfg.algorithm == WProj && !coordsOnly) ==> batch == rows
    {
      LoadRows(rows);
      var k := |rows|;
      perm, batch := [], rows;
      if cfg.algorithm == WProj && !coordsOnly && k > 0 {
        ghost var U, V, W, A, H := uuIm[..], vvIm[..], wwIm[..], visIm[..], weightIm[..];
        perm := SortByAbsW(Success, k, uuIm, vvIm, wwIm, visIm, weightIm);
        PermutedRows(U, V, W, A, H, uuIm[..], vvIm[..], wwIm[..], visIm[..], weightIm[..], rows, perm);
        batch := Permute(rows, perm);
      }
    }

    /** The body of the (c, p) loop of oskar_imager_update on a clear status:
        select, skip an empty selection, rotate, overwrite or rotate the
        amplitudes, filter, sort by |w| for W-projection in full mode, and
        update plane PlaneIndex(numImPols, c, p) and no other. */
    method UpdateForPlane(h: Helpers, input: UpdateInput, n: nat, ampIn: Option<seq<Amp>>, c: nat, p: nat)
        returns (st: Status, ghost perm: seq<nat>)
      requires Valid() && c < cfg.numImChannels && p < cfg.numImPols
      requires |h.select(input, n, ampIn, cfg.imFreqs[c], p)| <= uuIm.Length
      requires StoreReady(store, cfg.NumPlanes(), coordsOnly)
      modifies this, uuIm, vvIm, wwIm, visIm, weightIm, weightTmp
      ensures Valid() && coordsOnly == old(coordsOnly) && StoreReady(store, cfg.NumPlanes(), coordsOnly)
      ensures PlaneIndex(cfg.numImPols, c, p) < cfg.NumPlanes()
      ensures var sel := h.select(input, n, ampIn, cfg.imFreqs[c], p);
        var rows := PlaneRows(h, cfg, coordsOnly, sel);
        var sorts := cfg.algorithm == WProj && !coordsOnly;
        && (|sel| == 0 ==> st == Success && store == old(store) && wStats == old(wStats))
        && (|sel| > 0 && sorts ==>
              && IsPermutation(perm, |rows|)
              && SortedByAbs(WsOf(Permute(rows, perm)))
              && PlaneState(st, store, wStats) ==
                   PlaneStep(h, cfg, coordsOnly, Success, Permute(rows, perm), PlaneIndex(cfg.numImPols, c, p),
                             old(store), old(wStats)))
        && (|sel| > 0 && !sorts ==>
              PlaneState(st, store, wStats) ==
                PlaneStep(h, cfg, coordsOnly, Success, rows, PlaneIndex(cfg.numImPols, c, p),
                          old(store), old(wStats)))
      ensures coordsOnly ==> store.planes == old(store.planes) && store.planeNorm == old(store.planeNorm)
      ensures !coordsOnly ==> store.weightsGrids == old(store.weightsGrids) && wStats == old(wStats)
      ensures forall j :: 0 <= j < cfg.NumPlanes() && j != PlaneIndex(cfg.numImPols, c, p) ==>
        SameSlot(store, old(store), j)
      ensures WorkKept() && VisKept()
    {
      PlaneIndexInRange(cfg.numImChannels, cfg.numImPols, c, p);
      perm := [];
      st := Success;
      var sel := h.select(input, n, ampIn, cfg.imFreqs[c], p);
      if |sel| == 0 { return; }
      var rows := PlaneRows(h, cfg, coordsOnly, sel);
      ghost var batch;
      perm, batch := LoadBatch(rows);
      var i := PlaneIndex(cfg.numImPols, c, p);
      ghost var store0, stats0 := store, wStats;
      st := UpdatePlane(h, Success, |rows|, i);
      PlaneStepFrame(h, cfg, coordsOnly, Success, batch, i, store0, stats0);
    }

    /** The polarisation loop of oskar_imager_update for image channel c:
        it stops at the first set status. */
    method UpdateChannel(h: Helpers, input: UpdateInput, n: nat, ampIn: Option<seq<Amp>>, c: nat, status: Status)
        returns (st: Status)
      requires Valid() && c < cfg.numImChannels && StoreReady(store, cfg.NumPlanes(), coordsOnly)
      requires forall p: nat :: p < cfg.numImPols ==> |h.select(input, n, ampIn, cfg.imFreqs[c], p)| <= uuIm.Length
      modifies this, uuIm, vvIm, wwIm, visIm, weightIm, weightTmp
      ensures Valid() && coordsOnly == old(coordsOnly) && StoreReady(store, cfg.NumPlanes(), coordsOnly)
      ensures status.IsError() ==> st == status && store == old(store) && wStats == old(wStats)
      ensures coordsOnly ==> store.planes == old(store.planes) && store.planeNorm == old(store.planeNorm)
      ensures !coordsOnly ==> store.weightsGrids == old(store.weightsGrids) && wStats == old(wStats)
      ensures WorkKept() && VisKept()
    {
      st := status;
      var p := 0;
      while p < cfg.numImPols
        invariant 0 <= p <= cfg.numImPols
        invariant Valid() && coordsOnly == old(coordsOnly) && StoreReady(store, cfg.NumPlanes(), coordsOnly)
        invariant status.IsError() ==> st == status && store == old(store) && wStats == old(wStats)
        invariant coordsOnly ==> store.planes == old(store.planes) && store.planeNorm == old(store.planeNorm)
        invariant !coordsOnly ==> store.weightsGrids == old(store.weightsGrids) && wStats == old(wStats)
        invariant WorkKept() && VisKept()
      {
        if st.IsError() { break; }
        ghost var perm: seq<nat>;
        st, perm := UpdateForPlane(h, input, n, ampIn, c, p);
        p := p + 1;
      }
    }

    /** The channel loop of oskar_imager_update. */
    method UpdateChannels(h: Helpers, input: UpdateInput, n: nat, ampIn: Option<seq<Amp>>, status: Status)
        returns (st: Status)
      requires Valid() && StoreReady(store, cfg.NumPlanes(), coordsOnly)
      requires forall c: nat, p: nat :: c < cfg.numImChannels && p < cfg.numImPols ==>
        |h.select(input, n, ampIn, cfg.imFreqs[c], p)| <= uuIm.Length
      modifies this, uuIm, vvIm, wwIm, visIm, weightIm, weightTmp
      ensures Valid() && coordsOnly == old(coordsOnly) && StoreReady(store, cfg.NumPlanes(), coordsOnly)
      ensures coordsOnly ==> store.planes == old(store.planes) && store.planeNorm == old(store.planeNorm)
      ensures !coordsOnly ==> store.weightsGrids == old(store.weightsGrids) && wStats == old(wStats)
      ensures WorkKept() && VisKept()
    {
      st := status;
      var c := 0;
      while c < cfg.numImChannels
        invariant 0 <= c <= cfg.numImChannels
        invariant Valid() && coordsOnly == old(coordsOnly) && StoreReady(store, cfg.NumPlanes(), coordsOnly)
        invariant coordsOnly ==> store.planes == old(store.planes) && store.planeNorm == old(store.planeNorm)
        invariant !coordsOnly ==> store.weightsGrids == old(store.weightsGrids) && wStats == old(wStats)
        invariant WorkKept() && VisKept()
      {
        st := UpdateChannel(h, input, n, ampIn, c, st);
        c := c + 1;
      }
    }

    /** oskar_imager_update. A set status is returned untouched; a single
        polarisation with an image type other than I or PSF is
        INVALID_ARGUMENT before anything is allocated; a failing check_init
        stops before allocation; full mode without amplitudes is
        MEMORY_NOT_ALLOCATED after allocation. Otherwise the work arrays are
        grown to MaxNumVis and every (c, p) plane is updated in channel-major
        order until a status is set. The coordinate pass never touches planes
        or norms and the full pass never touches the statistics. */
    method Update(h: Helpers, status: Status, input: UpdateInput) returns (st: Status)
      requires Valid() && SelectBounded(h, cfg.chanSnaps)
      requires input.startChan <= input.endChan + 1
      modifies this, weightTmp
      ensures Valid() && coordsOnly == old(coordsOnly)
      ensures status.IsError() ==> st == status && store == old(store) && wStats == old(wStats)
      ensures !status.IsError() && PolCheckFails(input.numPols, cfg.imType) ==>
        st == InvalidArgument && store == old(store) && wStats == old(wStats)
      ensures !status.IsError() && !PolCheckFails(input.numPols, cfg.imType) && h.checkInit.IsError() ==>
        st == h.checkInit && store == old(store) && wStats == old(wStats)
      ensures !status.IsError() && !PolCheckFails(input.numPols, cfg.imType) && !h.checkInit.IsError() ==>
        && StoreReady(store, cfg.NumPlanes(), coordsOnly)
        && (!coordsOnly ==>
              store.weightsGrids == Allocate(old(store), coordsOnly, cfg.NumPlanes(), cfg.planeSize).weightsGrids)
        && (!coordsOnly && input.amps.None? ==>
              st == MemoryNotAllocated && store == Allocate(old(store), coordsOnly, cfg.NumPlanes(), cfg.planeSize))
      ensures coordsOnly ==> store.planes == old(store.planes) && store.planeNorm == old(store.planeNorm)
      ensures !coordsOnly ==> wStats == old(wStats)
      ensures VisKept()
    {
      st := status;
      if st.IsError() { return; }
      if PolCheckFails(input.numPols, cfg.imType) {
        st := InvalidArgument;
        return;
      }
      st := h.checkInit;
      st := AllocatePlanes(st);
      if st.IsError() { return; }
      var ampIn: Option<seq<Amp>> := None;
      if !coordsOnly {
        if input.amps.None? {
          st := MemoryNotAllocated;
          return;
        }
        ampIn := input.amps;
        if cfg.useStokes {
          ampIn := Some(h.linearToStokes(ampIn.value));
        }
      }
      st := UpdateAllPlanes(h, input, ampIn);
    }

    /** The work arrays, grown to m entries (their old contents do not
        matter: every plane reloads them). */
    method AllocateWork(m: nat)
      modifies this`uuIm, this`vvIm, this`wwIm, this`visIm, this`weightIm
      ensures Columns(uuIm, vvIm, wwIm, visIm, weightIm, 0)
      ensures uuIm.Length == m && vvIm.Length == m && wwIm.Length == m && visIm.Length == m && weightIm.Length == m
      ensures fresh(uuIm) && fresh(vvIm) && fresh(wwIm) && fresh(visIm) && fresh(weightIm)
    {
      uuIm := new real[m];
      vvIm := new real[m];
      wwIm := new real[m];
      visIm := new Complex[m];
      weightIm := new real[m];
    }

    /** The rest of oskar_imager_update once the checks have passed: the work
        arrays are grown to MaxNumVis and the channel loop runs. */
    method UpdateAllPlanes(h: Helpers, input: UpdateInput, ampIn: Option<seq<Amp>>) returns (st: Status)
      requires Valid() && SelectBounded(h, cfg.chanSnaps) && StoreReady(store, cfg.NumPlanes(), coordsOnly)
      requires input.startChan <= input.endChan + 1
      modifies this, weightTmp
      ensures Valid() && coordsOnly == old(coordsOnly) && StoreReady(store, cfg.NumPlanes(), coordsOnly)
      ensures coordsOnly ==> store.planes == old(store.planes) && store.planeNorm == old(store.planeNorm)
      ensures !coordsOnly ==> store.weightsGrids == old(store.weightsGrids) && wStats == old(wStats)
      ensures VisKept()
    {
      var n := RowsIn(input);
      var maxNumVis := MaxNumVis(input, cfg.chanSnaps);
      AllocateWork(maxNumVis);
      SelectFits(h, cfg.chanSnaps, input, n, ampIn, cfg.imFreqs, cfg.numImPols, maxNumVis);
      st := UpdateChannels(h, input, n, ampIn, Success);
    }

    /** oskar_imager_update_from_block. Without cross-correlations nothing
        happens; otherwise the header's frequency and phase centre are
        recorded and each block channel is passed to Update as its own
        channel range, with unit weights, per-time centroids and (in full
        mode) that channel's cross-correlations. */
    method UpdateFromBlock(h: Helpers, status: Status, hdr: VisHeaderCreate.VisHeader, block: VisBlock)
        returns (st: Status)
      requires Valid() && SelectBounded(h, cfg.chanSnaps) && WellFormed(block)
      modifies this, weightTmp
      ensures Valid() && coordsOnly == old(coordsOnly)
      ensures status.IsError() || !block.hasCross ==>
        st == status && store == old(store) && wStats == old(wStats) && VisKept()
      ensures !status.IsError() && block.hasCross ==>
        && visFreqStartHz == hdr.freqStartHz && visFreqIncHz == hdr.freqIncHz
        && visNumChannels == hdr.numChannelsTotal
        && visRaDeg == hdr.phaseCentreRaDeg && visDecDeg == hdr.phaseCentreDecDeg
      ensures coordsOnly ==> store.planes == old(store.planes) && store.planeNorm == old(store.planeNorm)
      ensures !coordsOnly ==> wStats == old(wStats)
    {
      st := status;
      if status.IsError() || !block.hasCross { return; }
      var numRows := block.numBaselines * block.numTimes;
      visFreqStartHz, visFreqIncHz, visNumChannels := hdr.freqStartHz, hdr.freqIncHz, hdr.numChannelsTotal;
      visRaDeg, visDecDeg := hdr.phaseCentreRaDeg, hdr.phaseCentreDecDeg;
      var weight := UnitWeights(numRows * block.numPols);
      var tc := TimeCentroids(hdr.timeStartMjdUtc * 86400.0, hdr.timeIncSec, block.startTime,
                              block.numTimes, block.numBaselines);
      var c := 0;
      while c < block.numChannels
        invariant 0 <= c <= block.numChannels
        invariant Valid() && coordsOnly == old(coordsOnly)
        invariant coordsOnly ==> store.planes == old(store.planes) && store.planeNorm == old(store.planeNorm)
        invariant !coordsOnly ==> wStats == old(wStats)
        invariant visFreqStartHz == hdr.freqStartHz && visFreqIncHz == hdr.freqIncHz
        invariant visNumChannels == hdr.numChannelsTotal
        invariant visRaDeg == hdr.phaseCentreRaDeg && visDecDeg == hdr.phaseCentreDecDeg
      {
        var amps: Option<seq<Amp>> := None;
        if !coordsOnly {
          var scratch := ChannelScratch(block, c);
          amps := Some(scratch[..]);
        }
        st := Update(h, st, UpdateInput(numRows, block.startChan + c, block.startChan + c, block.numPols,
                                        block.uu, block.vv, block.ww, amps, weight, tc[..]));
        c := c + 1;
      }
    }
  }

  /** The polarisation check of oskar_imager_update. */
  predicate PolCheckFails(numPols: int, imType: ImageType)
  {
    numPols == 1 && imType != TypeI && imType != TypePsf
  }

  /** The sort's per-column permutation moves whole rows: the rows read
      across the permuted columns are the permuted rows. */
  lemma PermutedRows(U: seq<real>, V: seq<real>, W: seq<real>, A: seq<Complex>, H: seq<real>,
                     uu: seq<real>, vv: seq<real>, ww: seq<real>, vis: seq<Complex>, weight: seq<real>,
                     rows: seq<Row>, perm: seq<nat>)
    requires |rows| <= |U| && |rows| <= |V| && |rows| <= |W| && |rows| <= |A| && |rows| <= |H|
    requires |rows| <= |uu| && |rows| <= |vv| && |rows| <= |ww| && |rows| <= |vis| && |rows| <= |weight|
    requires RowsOf(U, V, W, A, H, |rows|) == rows && IsPermutation(perm, |rows|)
    requires uu[..|rows|] == Permute(U[..|rows|], perm) && vv[..|rows|] == Permute(V[..|rows|], perm)
    requires ww[..|rows|] == Permute(W[..|rows|], perm) && vis[..|rows|] == Permute(A[..|rows|], perm)
    requires weight[..|rows|] == Permute(H[..|rows|], perm)
    ensures RowsOf(uu, vv, ww, vis, weight, |rows|) == Permute(rows, perm)
    ensures WsOf(Permute(rows, perm)) == ww[..|rows|]
  {
    var n := |rows|;
    forall m | 0 <= m < n
      ensures RowsOf(uu, vv, ww, vis, weight, n)[m] == Permute(rows, perm)[m]
    {
      assert uu[m] == uu[..n][m] && vv[m] == vv[..n][m] && ww[m] == ww[..n][m];
      assert vis[m] == vis[..n][m] && weight[m] == weight[..n][m];
    }
    forall m | 0 <= m < n
      ensures WsOf(Permute(rows, perm))[m] == ww[..n][m]
    {
      assert ww[m] == ww[..n][m];
      assert rows[perm[m]] == RowsOf(U, V, W, A, H, n)[perm[m]];
    }
  }

  /** The weights update_from_block passes: num_rows * num_pols ones. */
  function UnitWeights(n: nat): (r: seq<real>)
    ensures |r| == n && forall j :: 0 <= j < n ==> r[j] == 1.0
  {
    seq(n, _ => 1.0)
  }

  /** The time centroid of the rows of block time t, in seconds. */
  function Centroid(timeStartMjdSec: real, timeIncSec: real, startTime: nat, t: nat): real
  {
    timeStartMjdSec + ((startTime + t) as real + 0.5) * timeIncSec
  }

  /** The time-centroid buffer of update_from_block: row r belongs to time
      r / numBaselines and holds that time's centroid. */
  method TimeCentroids(timeStartMjdSec: real, timeIncSec: real, startTime: nat, numTimes: nat, numBaselines: nat)
      returns (tc: array<real>)
    ensures tc.Length == numTimes * numBaselines
    ensures forall r :: 0 <= r < tc.Length ==>
      numBaselines > 0 && tc[r] == Centroid(timeStartMjdSec, timeIncSec, startTime, r / numBaselines)
  {
    tc := new real[numTimes * numBaselines];
    var t, lo := 0, 0;
    while t < numTimes
      invariant 0 <= t <= numTimes && lo == numBaselines * t && lo <= tc.Length
      invariant forall r :: 0 <= r < lo ==>
        numBaselines > 0 && tc[r] == Centroid(timeStartMjdSec, timeIncSec, startTime, r / numBaselines)
    {
      MulMonotone(numBaselines, t + 1, numTimes);
      assert numBaselines * (t + 1) == lo + numBaselines;
      var v := timeStartMjdSec + ((startTime + t) as real + 0.5) * timeIncSec;
      ghost var before := tc[..];
      forall r | lo <= r < lo + numBaselines {
        tc[r] := v;
      }
      FillTime(before, tc[..], timeStartMjdSec, timeIncSec, startTime, numBaselines, t, lo);
      t, lo := t + 1, lo + numBaselines;
    }
  }

  /** Filling the rows of time t with its centroid extends the filled
      prefix by one time. */
  lemma FillTime(before: seq<real>, after: seq<real>, timeStartMjdSec: real, timeIncSec: real,
                 startTime: nat, numBaselines: nat, t: nat, lo: nat)
    requires lo == numBaselines * t && lo + numBaselines <= |before| == |after|
    requires forall r :: 0 <= r < lo ==>
      numBaselines > 0 && before[r] == Centroid(timeStartMjdSec, timeIncSec, startTime, r / numBaselines)
    requires forall r :: 0 <= r < |after| ==>
      after[r] == if lo <= r < lo + numBaselines then Centroid(timeStartMjdSec, timeIncSec, startTime, t) else before[r]
    ensures forall r :: 0 <= r < lo + numBaselines ==>
      numBaselines > 0 && after[r] == Centroid(timeStartMjdSec, timeIncSec, startTime, r / numBaselines)
  {
    forall r | 0 <= r < lo + numBaselines
      ensures numBaselines > 0 && after[r] == Centroid(timeStartMjdSec, timeIncSec, startTime, r / numBaselines)
    {
      if lo <= r {
        DivInGroup(numBaselines, t, r);
      }
    }
  }

  /** oskar_mem_copy_contents: count elements of src from srcOff onwards
      overwrite dst from dstOff onwards; nothing else in dst changes. */
  method CopyContents<T>(dst: array<T>, src: seq<T>, dstOff: nat, srcOff: nat, count: nat)
    requires dstOff + count <= dst.Length && srcOff + count <= |src|
    modifies dst
    ensures forall k :: 0 <= k < dst.Length ==>
      dst[k] == if dstOff <= k < dstOff + count then src[srcOff + (k - dstOff)] else old(dst[k])
  {
    forall k | dstOff <= k < dstOff + count {
      dst[k] := src[srcOff + (k - dstOff)];
    }
  }

  /** The rows of time t come after those of every earlier time. */
  lemma EarlierTimeBefore(B: nat, t: nat, t': nat, b: nat)
    requires t' < t && b < B
    ensures Flat(B, t', b) < B * t
  {
    MulMonotone(B, t' + 1, t);
    assert B * (t' + 1) == B * t' + B;
  }

  /** The copy for time t stays inside both buffers. */
  lemma CopyInRange(B: nat, C: nat, T: nat, t: nat, c: nat)
    requires t < T && c < C
    ensures B * t + B <= T * B && B * (C * t + c) + B <= T * C * B
  {
    if B > 0 {
      FlatInRange(T, B, t, B - 1);
      CorrIndexInRange(B, T, C, t, c, B - 1);
    } else {
      assert B * t == 0 && B * (C * t + c) == 0;
    }
  }

  /** The scratch buffer of update_from_block for block channel c: row
      Flat(B, t, b) holds the cross-correlation of baseline b at time t in
      channel c. */
  method ChannelScratch(block: VisBlock, c: nat) returns (scratch: array<Amp>)
    requires WellFormed(block) && block.hasCross && c < block.numChannels
    ensures scratch.Length == block.numTimes * block.numBaselines
    ensures ScratchFilled(scratch[..], block.crossCorr, block.numBaselines, block.numChannels, c, block.numTimes)
  {
    var B, C, T := block.numBaselines, block.numChannels, block.numTimes;
    scratch := new Amp[T * B];
    var t := 0;
    while t < T
      invariant 0 <= t <= T
      invariant ScratchFilled(scratch[..], block.crossCorr, B, C, c, t)
    {
      CopyTime(scratch, block.crossCorr, B, C, T, c, t);
      t := t + 1;
    }
  }

  /** One iteration of the scratch loop: copy the B baselines of time t. */
  method CopyTime(scratch: array<Amp>, cross: seq<Amp>, B: nat, C: nat, T: nat, c: nat, t: nat)
    requires t < T && c < C && scratch.Length == T * B && |cross| >= T * C * B
    requires ScratchFilled(scratch[..], cross, B, C, c, t)
    modifies scratch
    ensures ScratchFilled(scratch[..], cross, B, C, c, t + 1)
  {
    CopyInRange(B, C, T, t, c);
    ghost var before := scratch[..];
    CopyContents(scratch, cross, B * t, B * (C * t + c), B);
    ScratchGrows(before, scratch[..], cross, B, C, T, c, t);
  }

  /** The rows of times before t hold channel c's cross-correlations. */
  ghost predicate ScratchFilled(scratch: seq<Amp>, cross: seq<Amp>, B: nat, C: nat, c: nat, t: nat)
  {
    forall t': nat, b: nat :: t' < t && b < B ==>
      Flat(B, t', b) < |scratch| && CorrIndex(B, C, t', c, b) < |cross| &&
      scratch[Flat(B, t', b)] == cross[CorrIndex(B, C, t', c, b)]
  }

  /** Copying time t's baselines extends the filled prefix by one time. */
  lemma ScratchGrows(before: seq<Amp>, after: seq<Amp>, cross: seq<Amp>, B: nat, C: nat, T: nat, c: nat, t: nat)
    requires t < T && c < C && |before| == |after| == T * B && |cross| >= T * C * B
    requires B * t + B <= T * B && B * (C * t + c) + B <= T * C * B
    requires ScratchFilled(before, cross, B, C, c, t)
    requires forall k :: 0 <= k < |after| ==>
      after[k] == if B * t <= k < B * t + B then cross[B * (C * t + c) + (k - B * t)] else before[k]
    ensures ScratchFilled(after, cross, B, C, c, t + 1)
  {
    forall t': nat, b: nat | t' < t + 1 && b < B
      ensures Flat(B, t', b) < |after| && CorrIndex(B, C, t', c, b) < |cross|
      ensures after[Flat(B, t', b)] == cross[CorrIndex(B, C, t', c, b)]
    {
      FlatInRange(T, B, t', b);
      CorrIndexInRange(B, T, C, t', c, b);
      if t' < t {
        EarlierTimeBefore(B, t, t', b);
      }
    }
  }
}
