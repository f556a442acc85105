/** scilpy/tracking/trackable_dataset.py: voxel access with nearest-voxel
    clamping on a dataset whose data is always 4-D, the `Seed` dataset that
    hands out seed positions, and the binary tracking mask. */
module TrackableDataset {
  import opened Common
  import opened VoxelIndex
  import opened RandomStream
  import opened SeedGeneration

  /** An image as the dataset receives it: 3-D with one value per voxel,
      4-D with a row of `nt` values per voxel, or with some other number of
      axes (its voxels are not read here). Voxels are in C order. */
  datatype Image =
    | Image3(shape3: Shape, values: seq<real>)
    | Image4(shape4: Shape, nt: nat, rows: seq<Row>)
    | ImageOther(dims: seq<nat>)

  /** The dataset: voxel sizes, the full shape of its data and one row per
      (x, y, z) voxel. */
  datatype Dataset = Dataset(size: Point, shape: seq<nat>, rows: seq<Row>)

  /** `Dataset(img)`: 3-D data gets a trailing axis of length 1
      (`np.expand_dims(data, axis=3)`), so each voxel value becomes a row of
      one value; other data is kept as it is. */
  function NewDataset(size: Point, img: Image): (d: Dataset)
    ensures img.Image3? ==> d.shape == [img.shape3.nx, img.shape3.ny, img.shape3.nz, 1]
    ensures img.Image4? ==> d.shape == [img.shape4.nx, img.shape4.ny, img.shape4.nz, img.nt]
    ensures img.ImageOther? ==> d.shape == img.dims
  {
    match img
    case Image3(s, values) =>
      Dataset(size, [s.nx, s.ny, s.nz, 1], seq(|values|, p requires 0 <= p < |values| => [values[p]]))
    case Image4(s, nt, rows) => Dataset(size, [s.nx, s.ny, s.nz, nt], rows)
    case ImageOther(dims) => Dataset(size, dims, [])
  }

  function Max(a: int, b: int): int
  {
    if a >= b then a else b
  }

  /** `self.dim = self.data.shape[0:4]` */
  function Dim(d: Dataset): seq<nat>
  {
    d.shape[..Min(4, |d.shape|)]
  }

  /** A 3-D, 4-D or higher-dimensional image gives a dataset with four
      dimensions; for a 3-D image the fourth is 1 and the first three are
      the image's. */
  lemma DimHasFourEntries(size: Point, img: Image)
    requires img.ImageOther? ==> |img.dims| > 4
    ensures |Dim(NewDataset(size, img))| == 4
    ensures img.Image3? ==> Dim(NewDataset(size, img)) == [img.shape3.nx, img.shape3.ny, img.shape3.nz, 1]
  {
  }

  /** The (x, y, z) extent of a dataset with at least three axes. */
  function Extent(d: Dataset): Shape
    requires |d.shape| >= 3
  {
    Shape(d.shape[0], d.shape[1], d.shape[2])
  }

  /** `isVoxelInBound(x, y, z)`: each coordinate within its axis. */
  function IsVoxelInBound(d: Dataset, x: int, y: int, z: int): (r: bool)
    requires |d.shape| >= 3
    ensures r <==> InShape(Extent(d), Voxel(x, y, z))
  {
    x < d.shape[0] && y < d.shape[1] && z < d.shape[2] && x >= 0 && y >= 0 && z >= 0
  }

  /** `max(0, min(n - 1, v))` */
  function Clamp(v: int, n: nat): int
  {
    Max(0, Min(n - 1, v))
  }

  /** The voxel `getVoxelValue` reads: the request itself when it is in
      bound, each coordinate clamped otherwise. */
  function ClampedVoxel(d: Dataset, x: int, y: int, z: int): Voxel
    requires |d.shape| >= 3
  {
    if IsVoxelInBound(d, x, y, z) then Voxel(x, y, z)
    else Voxel(Clamp(x, d.shape[0]), Clamp(y, d.shape[1]), Clamp(z, d.shape[2]))
  }

  /** The nearest index to `v` on an axis of length `n >= 1`. */
  function Nearest(v: int, n: nat): int
  {
    if v < 0 then 0 else if v >= n then n - 1 else v
  }

  /** The voxel nearest to a request, axis by axis. */
  function NearestVoxel(s: Shape, v: Voxel): Voxel
  {
    Voxel(Nearest(v.x, s.nx), Nearest(v.y, s.ny), Nearest(v.z, s.nz))
  }

  /** The clamp picks the nearest voxel when no axis is empty, and that
      voxel is in bound. */
  lemma ClampedIsNearest(d: Dataset, x: int, y: int, z: int)
    requires |d.shape| >= 3 && d.shape[0] >= 1 && d.shape[1] >= 1 && d.shape[2] >= 1
    ensures ClampedVoxel(d, x, y, z) == NearestVoxel(Extent(d), Voxel(x, y, z))
    ensures InShape(Extent(d), ClampedVoxel(d, x, y, z))
  {
  }

  /** An in-bound request is read as it is, and clamping twice reads the
      same voxel as clamping once. */
  lemma ClampInBoundIdempotent(d: Dataset, x: int, y: int, z: int)
    requires |d.shape| >= 3
    ensures IsVoxelInBound(d, x, y, z) ==> ClampedVoxel(d, x, y, z) == Voxel(x, y, z)
    ensures var v := ClampedVoxel(d, x, y, z);
      ClampedVoxel(d, v.x, v.y, v.z) == v
  {
  }

  /** `getVoxelValue(x, y, z)` on 4-D data: the row of the nearest voxel.
      With an empty axis the clamped coordinate 0 is out of range and the
      access raises `IndexError`. */
  function GetVoxelValue(d: Dataset, x: int, y: int, z: int): (r: Result<Row>)
    requires |d.shape| == 4 && |d.rows| == VoxelCount(Extent(d))
    ensures r.Ok? <==> d.shape[0] >= 1 && d.shape[1] >= 1 && d.shape[2] >= 1
    ensures r.Ok? ==> InShape(Extent(d), NearestVoxel(Extent(d), Voxel(x, y, z)))
    ensures r.Ok? ==> r.value == d.rows[Linear(Extent(d), NearestVoxel(Extent(d), Voxel(x, y, z)))]
  {
    var v := ClampedVoxel(d, x, y, z);
    if InShape(Extent(d), v) then Ok(d.rows[Linear(Extent(d), v)]) else Err(IndexOutOfRange)
  }

  /** Expanding a 3-D image keeps every voxel: reading an in-bound voxel of
      the dataset gives the one-value row of the image's value there. */
  lemma ExpandDimsKeepsValues(size: Point, s: Shape, values: seq<real>, v: Voxel)
    requires |values| == VoxelCount(s) && InShape(s, v)
    ensures var d := NewDataset(size, Image3(s, values));
      GetVoxelValue(d, v.x, v.y, v.z) == Ok([values[Linear(s, v)]])
  {
    var d := NewDataset(size, Image3(s, values));
    assert Extent(d) == s;
  }

  // ---------------------------------------------------------------------
  // Seed

  /** `Seed(img)`: a dataset of the seeding mask and its seed voxels, in
      voxel coordinates (not moved to the centres). */
  datatype Seed = Seed(ds: Dataset, seeds: seq<Voxel>)

  /** `Seed(img)` for a 3-D seeding mask: `np.where(np.squeeze(data) > 0)`. */
  function NewSeed(size: Point, s: Shape, values: seq<real>): (sd: Seed)
    requires |values| == VoxelCount(s)
    ensures sd.ds == NewDataset(size, Image3(s, values))
    ensures sd.seeds == SeedVoxels(s, values)
  {
    Seed(NewDataset(size, Image3(s, values)), SeedVoxels(s, values))
  }

  /** `init_pos(random_initial_value, first_seed_of_chunk)`: the same
      preparation as `init_generator`. */
  method InitPos(sd: Seed, draws: Draws, firstSeed: int)
    returns (r: Result<(Generator, array<nat>)>)
    ensures r.Err? <==> firstSeed < 0
    ensures r.Err? ==> r.error == NegativeSampleCount
    ensures r.Ok? ==>
      var (g, indices) := r.value;
      && fresh(g) && fresh(indices)
      && g.draws == draws
      && indices[..] == Shuffled(draws, 0, Arange(|sd.seeds|))
      && g.pos == InitPosition(|sd.seeds|, firstSeed)
  {
    r := PrepareChunk(|sd.seeds|, draws, firstSeed);
  }

  function AsPoint(v: Voxel): Point
  {
    Point(v.x as real, v.y as real, v.z as real)
  }

  /** `get_next_pos(random_generator, indices, which_seed)`: nothing, and no
      draw, without seed voxels; otherwise the chosen voxel's coordinates
      times the voxel size, moved by three draws. */
  method GetNextPos(sd: Seed, g: Generator, indices: seq<nat>, whichSeed: int)
    returns (pos: Option<Point>)
    requires |indices| == |sd.seeds|
    requires forall i :: 0 <= i < |indices| ==> indices[i] < |sd.seeds|
    modifies g
    ensures |sd.seeds| == 0 ==> pos == None && g.pos == old(g.pos)
    ensures |sd.seeds| > 0 ==>
      && g.pos == old(g.pos) + 3
      && pos == Some(Placed(sd.ds.size, AsPoint(ChosenSeed(sd.seeds, indices, whichSeed)), g.draws, old(g.pos)))
  {
    var n := |sd.seeds|;
    if n == 0 {
      return None;
    }
    var size := sd.ds.size;
    var half := Point(size.x / 2.0, size.y / 2.0, size.z / 2.0);
    var ind := whichSeed % n;
    var v := sd.seeds[indices[ind]];
    var rx := g.Uniform(-half.x, half.x);
    var ry := g.Uniform(-half.y, half.y);
    var rz := g.Uniform(-half.z, half.z);
    pos := Some(Point(v.x as real * size.x + rx, v.y as real * size.y + ry, v.z as real * size.z + rz));
    assert v == ChosenSeed(sd.seeds, indices, whichSeed);
    assert pos.value.x == Jitter(v.x as real, size.x, g.draws.unit(old(g.pos)));
    assert pos.value.y == Jitter(v.y as real, size.y, g.draws.unit(old(g.pos) + 1));
    assert pos.value.z == Jitter(v.z as real, size.z, g.draws.unit(old(g.pos) + 2));
  }

  /** Unlike `SeedGenerator`, the seed voxel is not moved to its centre, so
      a seed of voxel `i` lies within half a voxel of `i * size`:
      `[(i - 0.5) * size, (i + 0.5) * size)`. */
  lemma JitterAroundCorner(i: int, res: real, u: real)
    requires res > 0.0 && 0.0 <= u < 1.0
    ensures (i as real - 0.5) * res <= Jitter(i as real, res, u) < (i as real + 0.5) * res
  {
    UniformInRange(-(res / 2.0), res / 2.0, u);
    assert (i as real - 0.5) * res == i as real * res - res / 2.0;
    assert (i as real + 0.5) * res == i as real * res + res / 2.0;
  }

  // ---------------------------------------------------------------------
  // Reproducibility across processes

  /** The seeds a process places when it asks for seeds `first`, ...,
      `first + count - 1` with its generator at draw `p`: with seed voxels,
      seed `first + i` is placed from draws `p + 3 * i` on; with none,
      nothing is placed. */
  function Placements(sd: Seed, indices: seq<nat>, draws: Draws, p: nat, first: nat, count: nat): (s: seq<Option<Point>>)
    requires |indices| == |sd.seeds|
    requires forall i :: 0 <= i < |indices| ==> indices[i] < |sd.seeds|
    ensures |s| == count
  {
    seq(count, i requires 0 <= i < count =>
      if |sd.seeds| == 0 then None
      else Some(Placed(sd.ds.size, AsPoint(ChosenSeed(sd.seeds, indices, first + i)), draws, p + 3 * i)))
  }

  /** The tracking loop of one process asking for seeds `first`,
      `first + 1`, ..., `first + k - 1` in turn: with seed voxels each takes
      the next three draws; with none, nothing is drawn. */
  method PlaceSeeds(sd: Seed, g: Generator, indices: seq<nat>, first: nat, k: nat)
    returns (placed: seq<Option<Point>>)
    requires |indices| == |sd.seeds|
    requires forall i :: 0 <= i < |indices| ==> indices[i] < |sd.seeds|
    modifies g
    ensures placed == Placements(sd, indices, g.draws, old(g.pos), first, k)
    ensures g.pos == old(g.pos) + (if |sd.seeds| == 0 then 0 else 3 * k)
  {
    placed := [];
    var t := 0;
    while t < k
      invariant 0 <= t <= k && |placed| == t
      invariant g.pos == old(g.pos) + (if |sd.seeds| == 0 then 0 else 3 * t)
      invariant forall i :: 0 <= i < t ==> placed[i] == Placements(sd, indices, g.draws, old(g.pos), first, k)[i]
    {
      var pos := GetNextPos(sd, g, indices, first + t);
      placed := placed + [pos];
      t := t + 1;
    }
  }

  /** One process that prepares its generator at seed 0 and then places
      seeds 0, 1, ..., k-1. */
  method SequentialRun(sd: Seed, draws: Draws, k: nat)
    returns (g: Generator, indices: seq<nat>)
    ensures fresh(g)
    ensures g.draws == draws
    ensures indices == ShuffledIndices(draws, |sd.seeds|)
    ensures |sd.seeds| > 0 ==> g.pos == InitPosition(|sd.seeds|, k)
    ensures |sd.seeds| == 0 ==> g.pos == InitPosition(0, 0)
  {
    var r := InitPos(sd, draws, 0);
    g := r.value.0;
    indices := r.value.1[..];
    assert indices == ShuffledIndices(draws, |sd.seeds|);
    var _ := PlaceSeeds(sd, g, indices, 0, k);
  }

  /** The reproducibility the chunked tracking relies on: a process whose
      chunk starts at seed `k` places seeds `k`, `k + 1`, ... exactly where a
      single process that has already placed seeds 0..k-1 places them. */
  method ChunkStartMatchesSequentialRun(sd: Seed, draws: Draws, k: nat, count: nat)
    returns (fromChunk: seq<Option<Point>>, fromSequential: seq<Option<Point>>)
    ensures fromChunk == fromSequential
    ensures fromChunk == Placements(sd, ShuffledIndices(draws, |sd.seeds|), draws, InitPosition(|sd.seeds|, k), k, count)
  {
    var n := |sd.seeds|;
    var order := ShuffledIndices(draws, n);
    var r := InitPos(sd, draws, k);
    var g1 := r.value.0;
    var indices1 := r.value.1[..];
    var g2, indices2 := SequentialRun(sd, draws, k);
    assert indices1 == indices2 == order && g1.draws == g2.draws == draws;
    fromChunk := PlaceSeeds(sd, g1, indices1, k, count);
    fromSequential := PlaceSeeds(sd, g2, indices2, k, count);
    if n == 0 {
      assert Placements(sd, order, draws, InitPosition(0, 0), k, count)
          == Placements(sd, order, draws, InitPosition(0, k), k, count);
    }
  }

  // ---------------------------------------------------------------------
  // BinaryMask

  datatype BinaryMask = BinaryMask(m: Dataset)

  /** `BinaryMask(tracking_dataset)`: data with 3 axes, or 4 axes the last
      of which has length 1; anything else raises `ValueError`. */
  function NewBinaryMask(ds: Dataset): (r: Result<BinaryMask>)
    ensures r.Ok? <==> |ds.shape| == 3 || (|ds.shape| == 4 && ds.shape[3] == 1)
    ensures r.Ok? ==> r.value.m == ds
    ensures r.Err? ==> r.error == MaskTooManyDims
  {
    var ndim := |ds.shape|;
    if !(ndim == 3 || (ndim == 4 && ds.shape[3] == 1)) then Err(MaskTooManyDims)
    else Ok(BinaryMask(ds))
  }

  /** On a dataset built from an image the 3-axis case never applies (3-D
      data was expanded): the mask is accepted exactly for 3-D images and
      for 4-D images with one value per voxel. */
  lemma BinaryMaskOfImage(size: Point, img: Image)
    requires img.ImageOther? ==> |img.dims| != 3 && |img.dims| != 4
    ensures |NewDataset(size, img).shape| != 3
    ensures NewBinaryMask(NewDataset(size, img)).Ok? <==> img.Image3? || (img.Image4? && img.nt == 1)
  {
  }

  /** `isStreamlineIncluded(pos)`: a binary mask keeps every streamline. */
  function IsStreamlineIncluded(bm: BinaryMask, pos: Point): (r: bool)
    ensures r
  {
    true
  }
}
