/** The six public entry points of `multi_processes.py`. Each derives the
    active-voxel mask, resolves the number of worker processes, and runs the
    chunk engine with its own per-row worker. `pool.map` hands the results
    back in chunk-id order, `np.arange(k)`. */
module MultiProcesses {
  import opened Common
  import opened ChunkPartition
  import opened VoxelIndex
  import opened ChunkEngine
  import opened MaxReduction
  import opened Workers

  // ---------------------------------------------------------------------
  // Worker count

  /** `cpu_count() if n is None or n <= 0 else n`, as `fit_from_model` and
      `fit_gamma` resolve it: the count is always positive. */
  function WorkersFit(n: Option<int>, cpu: Pos): (k: int)
    ensures k >= 1
    ensures n.Some? && n.value > 0 ==> k == n.value
    ensures n.None? || n.value <= 0 ==> k == cpu
  {
    if n.None? || n.value <= 0 then cpu else n.value
  }

  /** `cpu_count() if n is None or n < 0 else n`, as `peaks_from_sh`,
      `maps_from_sh` and `convert_sh_basis` resolve it: an explicit 0 is
      kept, and only an explicit 0 gives 0. */
  function WorkersSh(n: Option<int>, cpu: Pos): (k: int)
    ensures k >= 0
    ensures k == 0 <==> n == Some(0)
    ensures n.Some? && n.value > 0 ==> k == n.value
  {
    if n.None? || n.value < 0 then cpu else n.value
  }

  // ---------------------------------------------------------------------
  // Masks

  /** The mask of `fit_from_model`: the default mask, ANDed with the given
      mask when there is one (`mask *= mask_any`). A given mask of another
      shape fails either in that update (when `mask_any` does not broadcast
      to it) or when it indexes the data. */
  function FitMask(data: Volume<Row>, given: Option<Volume<bool>>): (r: Result<seq<bool>>)
    requires WellFormed(data) && (given.Some? ==> WellFormed(given.value))
    ensures r.Err? <==> given.Some? && given.value.shape != data.shape
    ensures r.Err? ==> r.error == if Broadcastable(given.value.shape, data.shape) then ShapeMismatch else OperandsNotBroadcastable
    ensures r.Ok? ==> |r.value| == |data.voxels| && forall p :: 0 <= p < |data.voxels| ==>
      (r.value[p] <==> (given.None? || given.value.voxels[p]) && RowSum(data.voxels[p]) != 0.0)
  {
    match given
    case None => Ok(DefaultMask(data.voxels))
    case Some(m) =>
      if !Broadcastable(m.shape, data.shape) then Err(OperandsNotBroadcastable)
      else if m.shape != data.shape then Err(ShapeMismatch)
      else Ok(AndMask(m.voxels, DefaultMask(data.voxels)))
  }

  /** The mask of the other entry points: the given mask as it is, or the
      default mask when there is none. A given mask of another shape fails
      when it indexes the data. */
  function GivenMask(data: Volume<Row>, given: Option<Volume<bool>>): (r: Result<seq<bool>>)
    requires WellFormed(data) && (given.Some? ==> WellFormed(given.value))
    ensures r.Err? <==> given.Some? && given.value.shape != data.shape
    ensures r.Err? ==> r.error == ShapeMismatch
    ensures r.Ok? ==> |r.value| == |data.voxels| && forall p :: 0 <= p < |data.voxels| ==>
      (r.value[p] <==> if given.None? then RowSum(data.voxels[p]) != 0.0 else given.value.voxels[p])
  {
    match given
    case None => Ok(DefaultMask(data.voxels))
    case Some(m) => if m.shape != data.shape then Err(ShapeMismatch) else Ok(m.voxels)
  }

  /** Only `fit_from_model` restricts a given mask to voxels with data: the
      other entry points also compute voxels whose channels sum to 0 when
      the given mask selects them. */
  lemma GivenMaskKeepsEmptyVoxels(data: Volume<Row>, m: seq<bool>, p: nat)
    requires WellFormed(data) && |m| == |data.voxels| && p < |data.voxels| && m[p] && AllZero(data.voxels[p])
    ensures GivenMask(data, Some(Volume(data.shape, m))).value[p]
    ensures !FitMask(data, Some(Volume(data.shape, m))).value[p]
  {
    AllZeroSum(data.voxels[p]);
  }

  // ---------------------------------------------------------------------
  // fit_from_model

  /** `MultiVoxelFit(model, fit_array, mask)` without the model. */
  datatype MultiVoxelFit<F> = MultiVoxelFit(fits: seq<FitCell<F>>, mask: seq<bool>)

  /** `fit_from_model`. A given mask is updated in place by `mask *=
      mask_any` before it is used; the fit of each active voxel is the
      model's fit of its row, or the NaN fallback where the solver failed,
      and every other voxel holds 0. */
  method FitFromModel<F>(model: FitModel<F>, data: Volume<Row>, mask: array?<bool>, maskShape: Shape,
                         nbrProcesses: Option<int>, cpu: Pos)
    returns (r: Result<MultiVoxelFit<F>>)
    requires WellFormed(data)
    requires mask != null ==> mask.Length == VoxelCount(maskShape)
    modifies mask
    ensures mask != null && !Broadcastable(maskShape, data.shape) ==>
      r == Err(OperandsNotBroadcastable) && unchanged(mask)
    ensures mask != null && Broadcastable(maskShape, data.shape) ==>
      mask[..] == BroadcastAnd(maskShape, old(mask[..]), data.shape, DefaultMask(data.voxels))
    ensures mask != null && Broadcastable(maskShape, data.shape) && maskShape != data.shape ==>
      r == Err(ShapeMismatch)
    ensures mask == null || maskShape == data.shape ==>
      var m := FitMask(data, if mask == null then None else Some(Volume(maskShape, old(mask[..])))).value;
      && (mask != null ==> mask[..] == m)
      && r == Ok(MultiVoxelFit(Scatter(m, RowMap(FitKernel(model), Compact(data.voxels, m)), NoFit), m))
  {
    var any := DefaultMask(data.voxels);
    var m: seq<bool>;
    if mask == null {
      m := any;
    } else {
      if !Broadcastable(maskShape, data.shape) {
        return Err(OperandsNotBroadcastable);
      }
      var updated := BroadcastAnd(maskShape, mask[..], data.shape, any);
      forall p | 0 <= p < mask.Length {
        mask[p] := updated[p];
      }
      if maskShape != data.shape {
        return Err(ShapeMismatch);
      }
      BroadcastSameShape(data.shape, old(mask[..]), any);
      m := mask[..];
    }
    var k := WorkersFit(nbrProcesses, cpu);
    var fits := RunVoxelwise(data.voxels, m, k, FitKernel(model), NoFit, NoFit, Range(k));
    r := Ok(MultiVoxelFit(fits.value, m));
  }

  // ---------------------------------------------------------------------
  // peaks_from_sh

  /** `peaks_from_sh` (without peak normalisation): for every active voxel
      the peaks of its row, an all-zero row giving no peak and index -1;
      every inactive voxel holds zeros, index 0 included. */
  method PeaksFromSh(ops: PeakOps, sh: Volume<Row>, mask: Option<Volume<bool>>, absoluteThreshold: real,
                     npeaks: nat, nbrProcesses: Option<int>, cpu: Pos)
    returns (r: Result<seq<PeakRows>>)
    requires WellFormed(sh) && (mask.Some? ==> WellFormed(mask.value))
    ensures GivenMask(sh, mask).Err? ==> r == Err(ShapeMismatch)
    ensures GivenMask(sh, mask).Ok? && nbrProcesses == Some(0) ==> r == Err(NonPositiveSections)
    ensures GivenMask(sh, mask).Ok? && nbrProcesses != Some(0) ==>
      var m := GivenMask(sh, mask).value;
      r == Ok(Scatter(m, RowMap(PeaksKernel(ops, absoluteThreshold, npeaks), Compact(sh.voxels, m)), EmptyPeakRows(npeaks, 0)))
  {
    var given := GivenMask(sh, mask);
    if given.Err? {
      return Err(given.error);
    }
    var m := given.value;
    var k := WorkersSh(nbrProcesses, cpu);
    r := RunVoxelwise(sh.voxels, m, k, PeaksKernel(ops, absoluteThreshold, npeaks),
                      EmptyPeakRows(npeaks, 0), EmptyPeakRows(npeaks, 0), Range(if k > 0 then k else 0));
  }

  /** In the peak volumes an inactive voxel has index 0 everywhere, an
      active voxel with an all-zero row has index -1 everywhere, and every
      voxel has `npeaks` entries. */
  lemma PeakIndicesAt(ops: PeakOps, sh: seq<Row>, m: seq<bool>, absoluteThreshold: real, npeaks: nat, p: nat)
    requires |m| == |sh| && p < |sh|
    ensures var v := Scatter(m, RowMap(PeaksKernel(ops, absoluteThreshold, npeaks), Compact(sh, m)), EmptyPeakRows(npeaks, 0))[p];
      && |v.indices| == npeaks
      && (!m[p] ==> forall j :: 0 <= j < npeaks ==> v.indices[j] == 0)
      && (m[p] && AllZero(sh[p]) ==> forall j :: 0 <= j < npeaks ==> v.indices[j] == -1)
  {
    VoxelwiseAt(PeaksKernel(ops, absoluteThreshold, npeaks), sh, m, EmptyPeakRows(npeaks, 0), p);
    PeaksKernelShape(ops, absoluteThreshold, npeaks, sh[p]);
  }

  // ---------------------------------------------------------------------
  // maps_from_sh

  /** The maps and the two maxima that normalise the colour and qa maps. */
  datatype MapsResult = MapsResult(maps: seq<MapsVoxel>, maxOdf: Extended, globalMax: Extended)

  /** The maxima a maps worker hands back for one chunk. */
  function ChunkMaximaOf(ops: MapsOps, gfaThr: real, chunk: seq<MapsRow>): ChunkMaxima
  {
    ChunkMaxima(FoldMax(Finite(0.0), RowMap(OdfKernel(ops), chunk)), FoldMax(NegInf, RowMap(GlobalKernel(ops, gfaThr), chunk)))
  }

  /** `pool.map(maps_from_sh_parallel, ...)` in the completion order `order`. */
  method DispatchMaps(ops: MapsOps, gfaThr: real, chunks: seq<seq<MapsRow>>, order: seq<nat>)
    returns (results: seq<(nat, seq<MapsVoxel>, ChunkMaxima)>)
    requires forall t :: 0 <= t < |order| ==> order[t] < |chunks|
    ensures |results| == |order|
    ensures forall t :: 0 <= t < |order| ==>
      results[t] == (order[t], RowMap(MapsKernel(ops, gfaThr), chunks[order[t]]), ChunkMaximaOf(ops, gfaThr, chunks[order[t]]))
  {
    results := [];
    for t := 0 to |order|
      invariant |results| == t
      invariant forall s :: 0 <= s < t ==>
        results[s] == (order[s], RowMap(MapsKernel(ops, gfaThr), chunks[order[s]]), ChunkMaximaOf(ops, gfaThr, chunks[order[s]]))
    {
      var out, maxima := MapsChunk(ops, gfaThr, chunks[order[t]]);
      results := results + [(order[t], out, maxima)];
    }
  }

  /** The maps engine with `k` sections and completion order `order`. The
      maps do not depend on `k` nor on the order; neither do the maxima:
      `max_odf` is the largest ODF sum of an active, nonzero voxel (at least
      0), and `global_max` the largest of the per-voxel contributions. */
  method RunMaps(rows: seq<MapsRow>, mask: seq<bool>, k: int, ops: MapsOps, gfaThr: real, order: seq<nat>)
    returns (r: Result<MapsResult>)
    requires |rows| == |mask|
    requires k > 0 ==> IsCompletionOrder(order, k)
    ensures k <= 0 ==> r == Err(NonPositiveSections)
    ensures k > 0 ==> r == Ok(MapsResult(
      Scatter(mask, RowMap(MapsKernel(ops, gfaThr), Compact(rows, mask)), ZeroMaps),
      FoldMax(Finite(0.0), RowMap(OdfKernel(ops), Compact(rows, mask))),
      FoldMax(NegInf, RowMap(GlobalKernel(ops, gfaThr), Compact(rows, mask)))))
  {
    var parts := Partition(rows, mask, k);
    if parts.Err? {
      return Err(parts.error);
    }
    var (chunks, chunkLen) := parts.value;
    var results := DispatchMaps(ops, gfaThr, chunks, order);
    PartitionFacts(rows, mask, k);

    var pairs := seq(|results|, t requires 0 <= t < |results| => (results[t].0, results[t].1));
    CompletionHasIds(pairs, order, k);
    var maps := Collect(MapsKernel(ops, gfaThr), chunks, chunkLen, pairs, mask, ZeroMaps, ZeroMaps);
    var maxima := seq(|results|, t requires 0 <= t < |results| => results[t].2);
    var combined := CombineResults(maxima);
    MaximaOfActiveRows(ops, gfaThr, rows, mask, k, chunks, maxima, order);
    r := Ok(MapsResult(maps, combined.maxOdf, combined.globalMax));
  }

  /** The per-chunk maxima of the chunks `array_split` makes of the active
      rows, arriving in a completion order, combine to the maxima over the
      active rows themselves. */
  lemma MaximaOfActiveRows(ops: MapsOps, gfaThr: real, rows: seq<MapsRow>, mask: seq<bool>, k: int,
                           chunks: seq<seq<MapsRow>>, maxima: seq<ChunkMaxima>, order: seq<nat>)
    requires |rows| == |mask| && k > 0 && IsCompletionOrder(order, k)
    requires chunks == Split(Compact(rows, mask), SplitSizes(Count(mask), k).value)
    requires |maxima| == |order| && forall t :: 0 <= t < |order| ==> maxima[t] == ChunkMaximaOf(ops, gfaThr, chunks[order[t]])
    ensures CombineMaxima(maxima) == ChunkMaxima(
      FoldMax(Finite(0.0), RowMap(OdfKernel(ops), Compact(rows, mask))),
      FoldMax(NegInf, RowMap(GlobalKernel(ops, gfaThr), Compact(rows, mask))))
  {
    PartitionFacts(rows, mask, k);
    MapsMaxima(ops, gfaThr, chunks, maxima, order);
    RowMapFlatten(OdfKernel(ops), chunks);
    RowMapFlatten(GlobalKernel(ops, gfaThr), chunks);
  }

  /** Per-chunk maxima arriving in a completion order combine to the
      maxima over all the chunks' rows: from 0 for `max_odf`, from -inf for
      `global_max`. */
  lemma MapsMaxima(ops: MapsOps, gfaThr: real, chunks: seq<seq<MapsRow>>, maxima: seq<ChunkMaxima>, order: seq<nat>)
    requires |chunks| > 0 && IsCompletionOrder(order, |chunks|)
    requires |maxima| == |order| && forall t :: 0 <= t < |order| ==> maxima[t] == ChunkMaximaOf(ops, gfaThr, chunks[order[t]])
    ensures var k := |chunks|;
      CombineMaxima(maxima) == ChunkMaxima(
        FoldMax(Finite(0.0), Flatten(seq(k, i requires 0 <= i < k => RowMap(OdfKernel(ops), chunks[i])))),
        FoldMax(NegInf, Flatten(seq(k, i requires 0 <= i < k => RowMap(GlobalKernel(ops, gfaThr), chunks[i])))))
  {
    var k := |chunks|;
    CombineChunkMaxima(maxima, order,
      seq(k, i requires 0 <= i < k => RowMap(OdfKernel(ops), chunks[i])),
      seq(k, i requires 0 <= i < k => RowMap(GlobalKernel(ops, gfaThr), chunks[i])));
  }

  /** `maps_from_sh` (the final normalisation is not part of this model):
      the maps of every active voxel, zeros elsewhere, and the two maxima
      over the active voxels, with line 382 corrected. `peak_values` and
      `peak_indices` come in as one volume of peak entries; of `peak_dirs`
      only the shape matters, because its values are never read. Each of
      the three is indexed by the mask, so each must have the coefficients'
      spatial shape. */
  method MapsFromSh(ops: MapsOps, sh: Volume<Row>, peakDirs: Shape, peaks: Volume<seq<PeakEntry>>,
                    mask: Option<Volume<bool>>, gfaThr: real, nbrProcesses: Option<int>, cpu: Pos)
    returns (r: Result<MapsResult>)
    requires WellFormed(sh) && WellFormed(peaks) && (mask.Some? ==> WellFormed(mask.value))
    ensures GivenMask(sh, mask).Err? || peakDirs != sh.shape || peaks.shape != sh.shape ==> r == Err(ShapeMismatch)
    ensures GivenMask(sh, mask).Ok? && peakDirs == sh.shape && peaks.shape == sh.shape && nbrProcesses == Some(0) ==>
      r == Err(NonPositiveSections)
    ensures GivenMask(sh, mask).Ok? && peakDirs == sh.shape && peaks.shape == sh.shape && nbrProcesses != Some(0) ==>
      var m := GivenMask(sh, mask).value;
      var rows := Zip(sh.voxels, peaks.voxels);
      r == Ok(MapsResult(
        Scatter(m, RowMap(MapsKernel(ops, gfaThr), Compact(rows, m)), ZeroMaps),
        FoldMax(Finite(0.0), RowMap(OdfKernel(ops), Compact(rows, m))),
        FoldMax(NegInf, RowMap(GlobalKernel(ops, gfaThr), Compact(rows, m)))))
  {
    var given := GivenMask(sh, mask);
    if given.Err? {
      return Err(given.error);
    }
    if peakDirs != sh.shape || peaks.shape != sh.shape {
      return Err(ShapeMismatch);
    }
    var m := given.value;
    var k := WorkersSh(nbrProcesses, cpu);
    r := RunMaps(Zip(sh.voxels, peaks.voxels), m, k, ops, gfaThr, Range(if k > 0 then k else 0));
  }

  /** The coefficient and peak volumes voxel by voxel. */
  function Zip(sh: seq<Row>, peaks: seq<seq<PeakEntry>>): (rows: seq<MapsRow>)
    requires |sh| == |peaks|
    ensures |rows| == |sh| && forall p :: 0 <= p < |sh| ==> rows[p] == MapsRow(sh[p], peaks[p])
  {
    seq(|sh|, p requires 0 <= p < |sh| => MapsRow(sh[p], peaks[p]))
  }

  // ---------------------------------------------------------------------
  // convert_sh_basis, convert_sh_to_sf, fit_gamma

  /** `convert_sh_basis`: every active voxel with a nonzero row holds its
      converted coefficients, an active all-zero row stays zero, and every
      other voxel is zero (`np.zeros(data_shape)`, rows of the input's
      `nCoeffs` coefficients). */
  method ConvertShBasis(toSf: Row -> Row, fromSf: Row -> Row, sh: Volume<Row>, nCoeffs: nat,
                        mask: Option<Volume<bool>>, nbrProcesses: Option<int>, cpu: Pos)
    returns (r: Result<seq<Row>>)
    requires WellFormed(sh) && (mask.Some? ==> WellFormed(mask.value))
    requires forall p :: 0 <= p < |sh.voxels| ==> |sh.voxels[p]| == nCoeffs
    ensures GivenMask(sh, mask).Err? ==> r == Err(ShapeMismatch)
    ensures GivenMask(sh, mask).Ok? && nbrProcesses == Some(0) ==> r == Err(NonPositiveSections)
    ensures GivenMask(sh, mask).Ok? && nbrProcesses != Some(0) ==>
      var m := GivenMask(sh, mask).value;
      r == Ok(Scatter(m, RowMap(ConvertKernel(toSf, fromSf), Compact(sh.voxels, m)), ZeroRow(nCoeffs)))
  {
    var given := GivenMask(sh, mask);
    if given.Err? {
      return Err(given.error);
    }
    var m := given.value;
    var k := WorkersSh(nbrProcesses, cpu);
    r := RunVoxelwiseInPlace(sh.voxels, m, k, Skip, ConvertCompute(toSf, fromSf),
                             ZeroRow(nCoeffs), ZeroRow(nCoeffs), Range(if k > 0 then k else 0));
  }

  /** `convert_sh_to_sf`: the `dtype` is checked first; the process count is
      used as given, so `None`, 0 or a negative count reaches `array_split`
      (its default is the CPU count, which a caller passes in here). */
  method ConvertShToSf(toSf: Row -> Row, nVertices: nat, sh: Volume<Row>, mask: Option<Volume<bool>>,
                       dtype: string, nbrProcesses: Option<int>)
    returns (r: Result<seq<Row>>)
    requires WellFormed(sh) && (mask.Some? ==> WellFormed(mask.value))
    ensures dtype != "float32" && dtype != "float64" ==> r == Err(UnsupportedDtype)
    ensures (dtype == "float32" || dtype == "float64") && GivenMask(sh, mask).Err? ==> r == Err(ShapeMismatch)
    ensures (dtype == "float32" || dtype == "float64") && GivenMask(sh, mask).Ok? && nbrProcesses.None? ==>
      r == Err(NotAnInteger)
    ensures (dtype == "float32" || dtype == "float64") && GivenMask(sh, mask).Ok? && nbrProcesses.Some? && nbrProcesses.value <= 0 ==>
      r == Err(NonPositiveSections)
    ensures (dtype == "float32" || dtype == "float64") && GivenMask(sh, mask).Ok? && nbrProcesses.Some? && nbrProcesses.value > 0 ==>
      var m := GivenMask(sh, mask).value;
      r == Ok(Scatter(m, RowMap(SfKernel(toSf, nVertices), Compact(sh.voxels, m)), ZeroRow(nVertices)))
  {
    if dtype != "float32" && dtype != "float64" {
      return Err(UnsupportedDtype);
    }
    var given := GivenMask(sh, mask);
    if given.Err? {
      return Err(given.error);
    }
    if nbrProcesses.None? {
      return Err(NotAnInteger);
    }
    var m := given.value;
    var k := nbrProcesses.value;
    r := RunVoxelwise(sh.voxels, m, k, SfKernel(toSf, nVertices),
                      ZeroRow(nVertices), ZeroRow(nVertices), Range(if k > 0 then k else 0));
  }

  /** `fit_gamma`: the gamma fit of every active voxel with a nonzero row,
      zeros everywhere else. */
  method FitGamma(gamma: Row -> GammaFit, data: Volume<Row>, mask: Option<Volume<bool>>, nbrProcesses: Option<int>, cpu: Pos)
    returns (r: Result<seq<GammaFit>>)
    requires WellFormed(data) && (mask.Some? ==> WellFormed(mask.value))
    ensures GivenMask(data, mask).Err? ==> r == Err(ShapeMismatch)
    ensures GivenMask(data, mask).Ok? ==>
      var m := GivenMask(data, mask).value;
      r == Ok(Scatter(m, RowMap(GammaKernel(gamma), Compact(data.voxels, m)), ZeroGamma))
  {
    var given := GivenMask(data, mask);
    if given.Err? {
      return Err(given.error);
    }
    var m := given.value;
    var k := WorkersFit(nbrProcesses, cpu);
    r := RunVoxelwise(data.voxels, m, k, GammaKernel(gamma), ZeroGamma, ZeroGamma, Range(k));
  }
}
