/** The per-row parts of the six `*_parallel` workers of
    `multi_processes.py`. Each worker walks its chunk row by row, leaves a
    row whose coefficients are all zero at the value it preallocated, and
    otherwise stores what an opaque numerical routine computes for the row.
    The numerical routines (model fits, spherical-harmonic projections,
    peak extraction, GFA, colour maps, the gamma fit) are parameters. */
module Workers {
  import opened Common
  import opened ChunkPartition
  import opened VoxelIndex
  import opened ChunkEngine
  import opened MaxReduction

  /** `not row.any()`, as a function value for the kernels. */
  function Skip(row: Row): bool
  {
    AllZero(row)
  }

  // ---------------------------------------------------------------------
  // fit_from_model_parallel

  /** What `model.fit(row)` does: return a fit, or raise `SolverError`. */
  datatype FitOutcome<F> = Solved(fit: F) | SolverError

  /** A reconstruction model: its fit routine, and `len(model.n)`, the
      number of coefficients of a fallback fit. */
  datatype FitModel<F> = FitModel(fit: Row -> FitOutcome<F>, nCoeff: nat)

  /** One entry of the object array of fits: the preallocated 0, a fit, or
      the `MSDeconvFit` built from `nCoeff` NaN coefficients. */
  datatype FitCell<F> = NoFit | Fitted(fit: F) | NanFit(nCoeff: nat)

  /** The `try`/`except cvx.error.SolverError` of the worker for one row. */
  function FitRow<F>(model: FitModel<F>, row: Row): FitCell<F>
  {
    match model.fit(row)
    case Solved(f) => Fitted(f)
    case SolverError => NanFit(model.nCoeff)
  }

  function FitKernel<F>(model: FitModel<F>): RowKernel<Row, FitCell<F>>
  {
    RowKernel(Skip, row => FitRow(model, row), _ => NoFit)
  }

  /** A row keeps the preallocated 0 exactly when it is all zero; a solver
      failure gives the NaN fallback for that row, a success its fit. */
  lemma FitKernelCases<F>(model: FitModel<F>, row: Row)
    ensures Apply(FitKernel(model), row).NoFit? <==> AllZero(row)
    ensures !AllZero(row) && model.fit(row).SolverError? ==>
      Apply(FitKernel(model), row) == NanFit(model.nCoeff)
    ensures !AllZero(row) && model.fit(row).Solved? ==>
      Apply(FitKernel(model), row) == Fitted(model.fit(row).fit)
  {
  }

  /** A solver failure on one row changes that row's output only. */
  lemma SolverErrorIsolated<F>(model: FitModel<F>, chunk: seq<Row>, i: nat, j: nat)
    requires i < |chunk| && j < |chunk| && i != j
    requires !AllZero(chunk[i]) && model.fit(chunk[i]).SolverError?
    ensures RowMap(FitKernel(model), chunk)[i] == NanFit(model.nCoeff)
    ensures RowMap(FitKernel(model), chunk)[j] == Apply(FitKernel(model), chunk[j])
  {
  }

  // ---------------------------------------------------------------------
  // The shared thresholding: `odf[odf < t] = 0.` and `odf.clip(min=0)`

  /** Every value below `t` set to 0. */
  function Threshold(odf: Row, t: real): (r: Row)
    ensures |r| == |odf|
    ensures forall j :: 0 <= j < |odf| ==> r[j] == if odf[j] < t then 0.0 else odf[j]
  {
    seq(|odf|, j requires 0 <= j < |odf| => if odf[j] < t then 0.0 else odf[j])
  }

  /** `odf.clip(min=0)` is the threshold at 0: nothing negative is left and
      nonnegative values are kept. */
  lemma ClipNonNegative(odf: Row)
    ensures forall j :: 0 <= j < |odf| ==> Threshold(odf, 0.0)[j] >= 0.0
    ensures forall j :: 0 <= j < |odf| && odf[j] >= 0.0 ==> Threshold(odf, 0.0)[j] == odf[j]
  {
  }

  // ---------------------------------------------------------------------
  // peaks_from_sh_parallel

  datatype Direction = Direction(x: real, y: real, z: real)

  /** One peak reported by `peak_directions`: its direction, amplitude and
      sphere-vertex index. */
  datatype Peak = Peak(dir: Direction, value: real, index: int)

  /** The three output rows of a voxel, each with `npeaks` entries. */
  datatype PeakRows = PeakRows(dirs: seq<Direction>, values: seq<real>, indices: seq<int>)

  /** `project` is `np.dot(row, B)`; `detect` is `peak_directions` with the
      sphere, thresholds, separation angle and symmetry fixed. */
  datatype PeakOps = PeakOps(project: Row -> Row, detect: Row -> seq<Peak>)

  const ZeroDirection := Direction(0.0, 0.0, 0.0)

  /** The preallocation `np.zeros` for directions and values, with every
      index set to `index` (-1 inside a worker, 0 in the output volume). */
  function EmptyPeakRows(npeaks: nat, index: int): (r: PeakRows)
    ensures |r.dirs| == |r.values| == |r.indices| == npeaks
    ensures forall j :: 0 <= j < npeaks ==>
      r.dirs[j] == ZeroDirection && r.values[j] == 0.0 && r.indices[j] == index
  {
    PeakRows(seq(npeaks, _ => ZeroDirection), seq(npeaks, _ => 0.0), seq(npeaks, _ => index))
  }

  /** The worker's body for a row that is not all zero: threshold the ODF,
      find its peaks, and copy the first `min(npeaks, #peaks)` of them over
      the preallocated rows. */
  function PeaksRow(ops: PeakOps, absoluteThreshold: real, npeaks: nat, row: Row): PeakRows
  {
    var found := ops.detect(Threshold(ops.project(row), absoluteThreshold));
    var n := Min(npeaks, |found|);
    var empty := EmptyPeakRows(npeaks, -1);
    PeakRows(
      seq(npeaks, j requires 0 <= j < npeaks => if j < n then found[j].dir else empty.dirs[j]),
      seq(npeaks, j requires 0 <= j < npeaks => if j < n then found[j].value else empty.values[j]),
      seq(npeaks, j requires 0 <= j < npeaks => if j < n then found[j].index else empty.indices[j]))
  }

  function PeaksKernel(ops: PeakOps, absoluteThreshold: real, npeaks: nat): RowKernel<Row, PeakRows>
  {
    RowKernel(Skip, row => PeaksRow(ops, absoluteThreshold, npeaks, row), _ => EmptyPeakRows(npeaks, -1))
  }

  /** Every voxel row has `npeaks` entries. The first `min(npeaks, #peaks)`
      are the strongest peaks found, in the order `peak_directions` reports
      them; the rest, and every entry of an all-zero row, are direction 0,
      value 0 and index -1. */
  lemma PeaksKernelShape(ops: PeakOps, absoluteThreshold: real, npeaks: nat, row: Row)
    ensures var r := Apply(PeaksKernel(ops, absoluteThreshold, npeaks), row);
      var found := ops.detect(Threshold(ops.project(row), absoluteThreshold));
      var n := if AllZero(row) then 0 else Min(npeaks, |found|);
      && |r.dirs| == |r.values| == |r.indices| == npeaks
      && (forall j :: 0 <= j < n ==>
            r.dirs[j] == found[j].dir && r.values[j] == found[j].value && r.indices[j] == found[j].index)
      && (forall j :: n <= j < npeaks ==>
            r.dirs[j] == ZeroDirection && r.values[j] == 0.0 && r.indices[j] == -1)
  {
  }

  // ---------------------------------------------------------------------
  // maps_from_sh_parallel

  /** A peak of the input peak volumes: its `peak_values` and
      `peak_indices` entries. */
  datatype PeakEntry = PeakEntry(value: real, index: int)

  /** One compact row of `maps_from_sh`: the coefficients and the peaks of
      the voxel. */
  datatype MapsRow = MapsRow(sh: Row, peaks: seq<PeakEntry>)

  /** The per-voxel output maps (the qa map is not part of this model). */
  datatype MapsVoxel = MapsVoxel(nufo: nat, afdMax: real, afdSum: real, rgb: seq<real>, gfa: real)

  /** `project` is `np.dot(sh, B)`, `gfa` the generalized fractional
      anisotropy, `rgb` the colour of a positive ODF scaled to its sum, and
      `norm` is `np.sqrt(np.dot(sh, sh))`. */
  datatype MapsOps = MapsOps(project: Row -> Row, gfa: Row -> real, rgb: Row -> seq<real>, norm: Row -> real)

  /** `not shm_coeff[idx].any()` for a `maps_from_sh` row. */
  function SkipMaps(row: MapsRow): bool
  {
    AllZero(row.sh)
  }

  const ZeroMaps := MapsVoxel(0, 0.0, 0.0, [0.0, 0.0, 0.0], 0.0)

  /** `np.sum(peak_indices[idx] > -1)`: how many peaks were found. */
  function PeakCount(peaks: seq<PeakEntry>): (n: nat)
    ensures n <= |peaks|
    ensures n == 0 <==> forall j :: 0 <= j < |peaks| ==> peaks[j].index <= -1
  {
    if peaks == [] then 0
    else (if peaks[0].index > -1 then 1 else 0) + PeakCount(peaks[1..])
  }

  /** `peak_values[idx].max()` */
  function MaxValue(peaks: seq<PeakEntry>): (m: real)
    requires |peaks| > 0
    ensures forall j :: 0 <= j < |peaks| ==> peaks[j].value <= m
    ensures exists j :: 0 <= j < |peaks| && peaks[j].value == m
  {
    if |peaks| == 1 then peaks[0].value
    else
      var rest := MaxValue(peaks[1..]);
      assert forall j :: 1 <= j < |peaks| ==> peaks[j] == peaks[1..][j - 1];
      if peaks[0].value >= rest then peaks[0].value else rest
  }

  /** `odf.max()`, or -inf for an ODF without values. */
  function OdfMax(odf: Row): Extended
  {
    FoldMax(NegInf, seq(|odf|, j requires 0 <= j < |odf| => Finite(odf[j])))
  }

  /** The clipped ODF of a row. */
  function Odf(ops: MapsOps, row: MapsRow): Row
  {
    Threshold(ops.project(row.sh), 0.0)
  }

  /** The maps of a voxel whose coefficients are not all zero. Below the GFA
      threshold only the colour and GFA are kept; otherwise, when at least
      one peak was found, the peak count, maximal peak value and coefficient
      norm are stored too. */
  function MapsOf(ops: MapsOps, gfaThr: real, row: MapsRow): MapsVoxel
  {
    var odf := Odf(ops, row);
    var rgb := if RowSum(odf) > 0.0 then ops.rgb(odf) else [0.0, 0.0, 0.0];
    var g := ops.gfa(odf);
    var n := PeakCount(row.peaks);
    if g < gfaThr || n == 0 then MapsVoxel(0, 0.0, 0.0, rgb, g)
    else MapsVoxel(n, MaxValue(row.peaks), ops.norm(row.sh), rgb, g)
  }

  function MapsKernel(ops: MapsOps, gfaThr: real): RowKernel<MapsRow, MapsVoxel>
  {
    RowKernel(SkipMaps, row => MapsOf(ops, gfaThr, row), _ => ZeroMaps)
  }

  /** What a row adds to `max_odf`: the sum of its clipped ODF. */
  function OdfKernel(ops: MapsOps): RowKernel<MapsRow, Extended>
  {
    RowKernel(SkipMaps, row => Finite(RowSum(Odf(ops, row))), _ => NegInf)
  }

  /** What a row adds to `global_max`: its ODF maximum below the GFA
      threshold, its first peak value when it has peaks, nothing otherwise. */
  function GlobalOf(ops: MapsOps, gfaThr: real, row: MapsRow): Extended
  {
    var odf := Odf(ops, row);
    if ops.gfa(odf) < gfaThr then OdfMax(odf)
    else if PeakCount(row.peaks) > 0 then Finite(row.peaks[0].value)
    else NegInf
  }

  function GlobalKernel(ops: MapsOps, gfaThr: real): RowKernel<MapsRow, Extended>
  {
    RowKernel(SkipMaps, row => GlobalOf(ops, gfaThr, row), _ => NegInf)
  }

  /** The peak maps are filled exactly for voxels above the GFA threshold
      with at least one peak; there `nufo` counts the peaks and `afd_max`
      is their largest value. Every voxel row keeps the colour and GFA of
      its ODF. */
  lemma MapsOfCases(ops: MapsOps, gfaThr: real, row: MapsRow)
    ensures var v := MapsOf(ops, gfaThr, row);
      && (v.nufo > 0 <==> !(ops.gfa(Odf(ops, row)) < gfaThr) && PeakCount(row.peaks) > 0)
      && (v.nufo > 0 ==> v.nufo == PeakCount(row.peaks)
                         && (forall j :: 0 <= j < |row.peaks| ==> row.peaks[j].value <= v.afdMax))
      && (v.nufo == 0 ==> v.afdMax == 0.0 && v.afdSum == 0.0)
      && v.gfa == ops.gfa(Odf(ops, row))
      && (RowSum(Odf(ops, row)) <= 0.0 ==> v.rgb == [0.0, 0.0, 0.0])
  {
  }

  /** The loop of `maps_from_sh_parallel` over one chunk: the maps of every
      row that is not all zero, and the two running maxima, `max_odf`
      started at 0 and `global_max` started at -inf, each folding in the
      row's contribution. The kernels are those of `MapsChunk`. */
  method RunChunkWithMaxima<T, U>(kernel: RowKernel<T, U>, odfK: RowKernel<T, Extended>,
                                  globalK: RowKernel<T, Extended>, chunk: seq<T>)
    returns (out: seq<U>, maxima: ChunkMaxima)
    requires forall j :: 0 <= j < |chunk| && kernel.skip(chunk[j]) ==>
      Apply(odfK, chunk[j]) == NegInf && Apply(globalK, chunk[j]) == NegInf
    requires forall j :: 0 <= j < |chunk| && !kernel.skip(chunk[j]) ==>
      Apply(odfK, chunk[j]) == odfK.compute(chunk[j]) && Apply(globalK, chunk[j]) == globalK.compute(chunk[j])
    ensures out == RowMap(kernel, chunk)
    ensures maxima.maxOdf == FoldMax(Finite(0.0), RowMap(odfK, chunk))
    ensures maxima.globalMax == FoldMax(NegInf, RowMap(globalK, chunk))
  {
    var a := new U[|chunk|](i requires 0 <= i < |chunk| => kernel.preset(chunk[i]));
    var maxOdf := Finite(0.0);
    var globalMax := NegInf;
    ghost var odfs := RowMap(odfK, chunk);
    ghost var globals := RowMap(globalK, chunk);
    for i := 0 to |chunk|
      invariant forall j :: 0 <= j < i ==> a[j] == Apply(kernel, chunk[j])
      invariant forall j :: i <= j < |chunk| ==> a[j] == kernel.preset(chunk[j])
      invariant maxOdf == FoldMax(Finite(0.0), odfs[..i])
      invariant globalMax == FoldMax(NegInf, globals[..i])
    {
      FoldMaxSnoc(Finite(0.0), odfs, i);
      FoldMaxSnoc(NegInf, globals, i);
      var row := chunk[i];
      if !kernel.skip(row) {
        a[i] := kernel.compute(row);
        maxOdf := Max(maxOdf, odfK.compute(row));
        globalMax := Max(globalMax, globalK.compute(row));
      }
    }
    assert odfs[..|chunk|] == odfs;
    assert globals[..|chunk|] == globals;
    out := a[..];
    maxima := ChunkMaxima(maxOdf, globalMax);
  }

  /** `maps_from_sh_parallel` on one chunk: the maps of every row, and the
      two running maxima, `max_odf` started at 0 and `global_max` started at
      -inf. */
  method MapsChunk(ops: MapsOps, gfaThr: real, chunk: seq<MapsRow>)
    returns (out: seq<MapsVoxel>, maxima: ChunkMaxima)
    ensures out == RowMap(MapsKernel(ops, gfaThr), chunk)
    ensures maxima.maxOdf == FoldMax(Finite(0.0), RowMap(OdfKernel(ops), chunk))
    ensures maxima.globalMax == FoldMax(NegInf, RowMap(GlobalKernel(ops, gfaThr), chunk))
  {
    out, maxima := RunChunkWithMaxima(MapsKernel(ops, gfaThr), OdfKernel(ops), GlobalKernel(ops, gfaThr), chunk);
  }

  /** Extending the prefix by one row extends the map by that row's output. */
  lemma RowMapSnoc<T, U>(kernel: RowKernel<T, U>, rows: seq<T>, i: nat)
    requires i < |rows|
    ensures RowMap(kernel, rows[..i + 1])[..i] == RowMap(kernel, rows[..i])
    ensures RowMap(kernel, rows[..i + 1])[i] == Apply(kernel, rows[i])
  {
  }

  // ---------------------------------------------------------------------
  // convert_sh_basis_parallel, convert_sh_to_sf_parallel, fit_gamma_parallel

  /** `np.dot(np.dot(sh, B_in), invB_out)`, written back over the row. */
  function ConvertRow(toSf: Row -> Row, fromSf: Row -> Row, row: Row): Row
  {
    fromSf(toSf(row))
  }

  function ConvertCompute(toSf: Row -> Row, fromSf: Row -> Row): Row -> Row
  {
    row => ConvertRow(toSf, fromSf, row)
  }

  /** `convert_sh_basis_parallel` updates its chunk in place. */
  function ConvertKernel(toSf: Row -> Row, fromSf: Row -> Row): RowKernel<Row, Row>
  {
    RowKernel(Skip, ConvertCompute(toSf, fromSf), Identity)
  }

  /** `convert_sh_to_sf_parallel` fills `np.zeros((n, n_vertices))`. */
  function SfKernel(toSf: Row -> Row, nVertices: nat): RowKernel<Row, Row>
  {
    RowKernel(Skip, toSf, _ => ZeroRow(nVertices))
  }

  /** A row of zeros, `np.zeros(n)`. */
  function ZeroRow(n: nat): (r: Row)
    ensures |r| == n && AllZero(r)
  {
    seq(n, _ => 0.0)
  }

  /** The result of `gamma_data2fit` for one voxel: four parameters. */
  datatype GammaFit = GammaFit(p0: real, p1: real, p2: real, p3: real)

  const ZeroGamma := GammaFit(0.0, 0.0, 0.0, 0.0)

  /** `fit_gamma_parallel` fills `np.zeros((n, 4))`. */
  function GammaKernel(gamma: Row -> GammaFit): RowKernel<Row, GammaFit>
  {
    RowKernel(Skip, gamma, _ => ZeroGamma)
  }

  /** Conversions keep an all-zero row as it is; every other row is
      replaced by its conversion. */
  lemma ConvertInPlaceCases(toSf: Row -> Row, fromSf: Row -> Row, row: Row)
    ensures Apply(ConvertKernel(toSf, fromSf), row) == if AllZero(row) then row else fromSf(toSf(row))
  {
  }
}
