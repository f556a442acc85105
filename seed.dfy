/** `SeedGenerator` of scilpy/tracking/seed.py: the seed voxels of a
    seeding mask, and how a tracking chunk prepares its generator and draws
    its seeds so that any chunk reproduces what a single process would
    have drawn. */
module SeedGeneration {
  import opened Common
  import opened VoxelIndex
  import opened RandomStream

  datatype Point = Point(x: real, y: real, z: real)

  /** The seeding mask's voxel sizes and the centres of its seed voxels
      (voxel coordinates, before scaling by the voxel size). */
  datatype SeedGenerator = SeedGenerator(pixdim: Point, seeds: seq<Point>)

  /** A voxel sent to its centre by adding 0.5 on each axis. */
  function Centre(v: Voxel): Point
  {
    Point(v.x as real + 0.5, v.y as real + 0.5, v.z as real + 0.5)
  }

  /** `data > 0` */
  function PositiveMask(data: seq<real>): (mask: seq<bool>)
    ensures |mask| == |data| && forall p :: 0 <= p < |data| ==> (mask[p] <==> data[p] > 0.0)
  {
    seq(|data|, p requires 0 <= p < |data| => data[p] > 0.0)
  }

  /** `np.where(data > 0)` transposed: the voxels where the mask is
      positive, in storage order. */
  function SeedVoxels(s: Shape, data: seq<real>): (vs: seq<Voxel>)
    requires |data| == VoxelCount(s)
    ensures |vs| == Count(PositiveMask(data))
    ensures forall j :: 0 <= j < |vs| ==> InShape(s, vs[j])
  {
    var ps := MaskedPositions(PositiveMask(data));
    seq(|ps|, j requires 0 <= j < |ps| => VoxelAt(s, ps[j]))
  }

  /** `np.array(np.where(data > 0), dtype=float).transpose() + 0.5`: the
      centres of the positive voxels. */
  function SeedCentres(s: Shape, data: seq<real>): (seeds: seq<Point>)
    requires |data| == VoxelCount(s)
    ensures |seeds| == Count(PositiveMask(data))
  {
    var vs := SeedVoxels(s, data);
    seq(|vs|, j requires 0 <= j < |vs| => Centre(vs[j]))
  }

  /** `SeedGenerator(img)` for a mask of shape `s` and voxel sizes `pixdim`. */
  function NewSeedGenerator(pixdim: Point, s: Shape, data: seq<real>): SeedGenerator
    requires |data| == VoxelCount(s)
  {
    SeedGenerator(pixdim, SeedCentres(s, data))
  }

  /** A voxel is a seed voxel exactly when the mask is positive there. */
  lemma SeedVoxelsExact(s: Shape, data: seq<real>, v: Voxel)
    requires |data| == VoxelCount(s) && InShape(s, v)
    ensures v in SeedVoxels(s, data) <==> data[Linear(s, v)] > 0.0
  {
    var mask := PositiveMask(data);
    var ps := MaskedPositions(mask);
    var vs := SeedVoxels(s, data);
    var p := Linear(s, v);
    if data[p] > 0.0 {
      assert p in ps;
      var j :| 0 <= j < |ps| && ps[j] == p;
      RowMajorOrder(s, VoxelAt(s, p), v);
      assert vs[j] == v;
    }
    if v in vs {
      var j :| 0 <= j < |vs| && vs[j] == v;
      RowMajorOrder(s, VoxelAt(s, ps[j]), v);
      assert mask[ps[j]];
    }
  }

  /** `np.where` lists the seed voxels in row-major order, each once. */
  lemma SeedVoxelsInRowMajorOrder(s: Shape, data: seq<real>, i: nat, j: nat)
    requires |data| == VoxelCount(s) && i < j < |SeedVoxels(s, data)|
    ensures LexLess(SeedVoxels(s, data)[i], SeedVoxels(s, data)[j])
  {
    var ps := MaskedPositions(PositiveMask(data));
    RowMajorOrder(s, VoxelAt(s, ps[i]), VoxelAt(s, ps[j]));
  }

  lemma CentreInjective(a: Voxel, b: Voxel)
    requires Centre(a) == Centre(b)
    ensures a == b
  {
  }

  /** A voxel's centre is a seed exactly when the mask is positive there. */
  lemma SeedCentresExact(s: Shape, data: seq<real>, v: Voxel)
    requires |data| == VoxelCount(s) && InShape(s, v)
    ensures Centre(v) in SeedCentres(s, data) <==> data[Linear(s, v)] > 0.0
  {
    var vs := SeedVoxels(s, data);
    var seeds := SeedCentres(s, data);
    SeedVoxelsExact(s, data, v);
    if v in vs {
      var j :| 0 <= j < |vs| && vs[j] == v;
      assert seeds[j] == Centre(v);
    }
    if Centre(v) in seeds {
      var j :| 0 <= j < |seeds| && seeds[j] == Centre(v);
      CentreInjective(vs[j], v);
    }
  }

  /** `init_generator(random_initial_value, first_seed_of_chunk)`, `draws`
      being the stream `RandomState(random_initial_value)` produces: the
      shuffled seed order, and a generator that has skipped the three draws
      of each of the chunk's `first_seed_of_chunk` earlier seeds. A
      negative first seed makes `random_sample` raise. */
  method InitGenerator(sg: SeedGenerator, draws: Draws, firstSeed: int)
    returns (r: Result<(Generator, array<nat>)>)
    ensures r.Err? <==> firstSeed < 0
    ensures r.Err? ==> r.error == NegativeSampleCount
    ensures r.Ok? ==>
      var (g, indices) := r.value;
      && fresh(g) && fresh(indices)
      && g.draws == draws
      && indices[..] == Shuffled(draws, 0, Arange(|sg.seeds|))
      && g.pos == InitPosition(|sg.seeds|, firstSeed)
  {
    r := PrepareChunk(|sg.seeds|, draws, firstSeed);
  }

  /** Shared by `init_generator` and `Seed.init_pos`, which do the same:
      shuffle `np.arange(n)`, then skip `3 * first` draws in batches. */
  method PrepareChunk(n: nat, draws: Draws, first: int)
    returns (r: Result<(Generator, array<nat>)>)
    ensures r.Err? <==> first < 0
    ensures r.Err? ==> r.error == NegativeSampleCount
    ensures r.Ok? ==>
      var (g, indices) := r.value;
      && fresh(g) && fresh(indices)
      && g.draws == draws
      && indices[..] == Shuffled(draws, 0, Arange(n))
      && g.pos == InitPosition(n, first)
  {
    var g := new Generator(draws);
    var indices := new nat[n](i => i);
    assert indices[..] == Arange(n);
    g.Shuffle(indices);
    var toSkip := first * 3;
    if toSkip < 0 {
      return Err(NegativeSampleCount);
    }
    var requests := SkipAhead(g, toSkip);
    r := Ok((g, indices));
  }

  /** The seed voxel chosen for seed number `w`: `seeds[indices[w % n]]`
      (Python's `%`, non-negative for a positive `n`). */
  function ChosenSeed<S>(seeds: seq<S>, indices: seq<nat>, w: int): (c: S)
    requires |seeds| > 0 && |indices| == |seeds|
    requires forall i :: 0 <= i < |indices| ==> indices[i] < |seeds|
    ensures c in seeds
  {
    seeds[indices[w % |seeds|]]
  }

  /** Seed numbers `w` and `w + n` choose the same voxel. */
  lemma ChosenSeedCycles<S>(seeds: seq<S>, indices: seq<nat>, w: int)
    requires |seeds| > 0 && |indices| == |seeds|
    requires forall i :: 0 <= i < |indices| ==> indices[i] < |seeds|
    ensures ChosenSeed(seeds, indices, w + |seeds|) == ChosenSeed(seeds, indices, w)
  {
    var n := |seeds|;
    var k, r := w / n, w % n;
    assert w + n == (k + 1) * n + r;
    ModUnique(w + n, n, k + 1, r);
  }

  /** With a shuffled order, any `n` consecutive seed numbers visit every
      seed voxel. */
  lemma ChosenSeedsCoverAll<S>(seeds: seq<S>, indices: seq<nat>, start: int, v: nat)
    requires |seeds| > 0 && |indices| == |seeds|
    requires forall i :: 0 <= i < |indices| ==> indices[i] < |seeds|
    requires forall u :: 0 <= u < |seeds| ==> u in indices
    requires v < |seeds|
    ensures exists w :: start <= w < start + |seeds| && ChosenSeed(seeds, indices, w) == seeds[v]
  {
    var n := |seeds|;
    assert v in indices;
    var q :| 0 <= q < n && indices[q] == v;
    var k, r := (q - start) / n, (q - start) % n;
    var w := start + r;
    assert w == q + (-k) * n;
    ModUnique(w, n, -k, q);
    assert ChosenSeed(seeds, indices, w) == seeds[v];
  }

  /** Euclidean division is unique: `a == k * n + r` with `0 <= r < n`
      leaves remainder `r`. */
  lemma ModUnique(a: int, n: int, k: int, r: int)
    requires n > 0 && 0 <= r < n && a == k * n + r
    ensures a % n == r
  {
    var k2, r2 := a / n, a % n;
    assert (k - k2) * n == r2 - r;
    var d := k - k2;
    if d >= 1 {
      MulAtLeast(d, n);
    } else if d <= -1 {
      MulAtLeast(-d, n);
    }
  }

  lemma MulAtLeast(d: int, n: int)
    requires d >= 1 && n > 0
    ensures d * n >= n
  {
  }

  /** `x * pixdim + uniform(-pixdim / 2, pixdim / 2)` on one axis, the
      uniform being unit sample `u`. */
  function Jitter(c: real, res: real, u: real): real
  {
    c * res + UniformValue(-(res / 2.0), res / 2.0, u)
  }

  /** The position `get_next_pos` returns for seed centre `c` when the
      generator stands at `p`: one draw per axis, x first. */
  function Placed(pixdim: Point, c: Point, draws: Draws, p: nat): Point
  {
    Point(Jitter(c.x, pixdim.x, draws.unit(p)),
          Jitter(c.y, pixdim.y, draws.unit(p + 1)),
          Jitter(c.z, pixdim.z, draws.unit(p + 2)))
  }

  /** A seed placed from voxel `i`'s centre lies in the voxel, in voxmm:
      `[i * res, (i + 1) * res)`. */
  lemma JitterInsideVoxel(i: int, res: real, u: real)
    requires res > 0.0 && 0.0 <= u < 1.0
    ensures i as real * res <= Jitter(i as real + 0.5, res, u) < (i as real + 1.0) * res
  {
    UniformInRange(-(res / 2.0), res / 2.0, u);
    assert (i as real + 0.5) * res == i as real * res + res / 2.0;
    assert (i as real + 1.0) * res == i as real * res + res;
  }

  /** `get_next_pos(random_generator, indices, which_seed)`: nothing, and no
      draw, without seed voxels; otherwise the chosen voxel's centre in
      voxmm, moved within the voxel by three draws. */
  method GetNextPos(sg: SeedGenerator, g: Generator, indices: seq<nat>, whichSeed: int)
    returns (pos: Option<Point>)
    requires |indices| == |sg.seeds|
    requires forall i :: 0 <= i < |indices| ==> indices[i] < |sg.seeds|
    modifies g
    ensures |sg.seeds| == 0 ==> pos == None && g.pos == old(g.pos)
    ensures |sg.seeds| > 0 ==>
      && g.pos == old(g.pos) + 3
      && pos == Some(Placed(sg.pixdim, ChosenSeed(sg.seeds, indices, whichSeed), g.draws, old(g.pos)))
  {
    var n := |sg.seeds|;
    if n == 0 {
      return None;
    }
    var half := Point(sg.pixdim.x / 2.0, sg.pixdim.y / 2.0, sg.pixdim.z / 2.0);
    var ind := whichSeed % n;
    var c := sg.seeds[indices[ind]];
    var rx := g.Uniform(-half.x, half.x);
    var ry := g.Uniform(-half.y, half.y);
    var rz := g.Uniform(-half.z, half.z);
    pos := Some(Point(c.x * sg.pixdim.x + rx, c.y * sg.pixdim.y + ry, c.z * sg.pixdim.z + rz));
    assert c == ChosenSeed(sg.seeds, indices, whichSeed);
    assert pos.value.x == Jitter(c.x, sg.pixdim.x, g.draws.unit(old(g.pos)));
    assert pos.value.y == Jitter(c.y, sg.pixdim.y, g.draws.unit(old(g.pos) + 1));
    assert pos.value.z == Jitter(c.z, sg.pixdim.z, g.draws.unit(old(g.pos) + 2));
  }

  /** Every position `get_next_pos` can return lies inside its seed voxel
      when the voxel sizes are positive and the draws are unit samples. */
  lemma PlacedInsideVoxel(pixdim: Point, v: Voxel, draws: Draws, p: nat)
    requires pixdim.x > 0.0 && pixdim.y > 0.0 && pixdim.z > 0.0
    requires forall i :: p <= i < p + 3 ==> 0.0 <= draws.unit(i) < 1.0
    ensures var q := Placed(pixdim, Centre(v), draws, p);
      && v.x as real * pixdim.x <= q.x < (v.x as real + 1.0) * pixdim.x
      && v.y as real * pixdim.y <= q.y < (v.y as real + 1.0) * pixdim.y
      && v.z as real * pixdim.z <= q.z < (v.z as real + 1.0) * pixdim.z
  {
    assert 0.0 <= draws.unit(p) < 1.0;
    assert 0.0 <= draws.unit(p + 1) < 1.0;
    assert 0.0 <= draws.unit(p + 2) < 1.0;
    JitterInsideVoxel(v.x, pixdim.x, draws.unit(p));
    JitterInsideVoxel(v.y, pixdim.y, draws.unit(p + 1));
    JitterInsideVoxel(v.z, pixdim.z, draws.unit(p + 2));
  }

  // ---------------------------------------------------------------------
  // Reproducibility across processes

  /** The seeds a process places when it asks for seeds `first`, ...,
      `first + count - 1` with its generator at draw `p`: with seed voxels,
      seed `first + i` is placed from draws `p + 3 * i` on; with none,
      nothing is placed. */
  function Placements(sg: SeedGenerator, indices: seq<nat>, draws: Draws, p: nat, first: nat, count: nat): (s: seq<Option<Point>>)
    requires |indices| == |sg.seeds|
    requires forall i :: 0 <= i < |indices| ==> indices[i] < |sg.seeds|
    ensures |s| == count
  {
    seq(count, i requires 0 <= i < count =>
      if |sg.seeds| == 0 then None
      else Some(Placed(sg.pixdim, ChosenSeed(sg.seeds, indices, first + i), draws, p + 3 * i)))
  }

  /** The tracking loop of one process asking for seeds `first`,
      `first + 1`, ..., `first + k - 1` in turn: with seed voxels each takes
      the next three draws; with none, nothing is drawn. */
  method PlaceSeeds(sg: SeedGenerator, g: Generator, indices: seq<nat>, first: nat, k: nat)
    returns (placed: seq<Option<Point>>)
    requires |indices| == |sg.seeds|
    requires forall i :: 0 <= i < |indices| ==> indices[i] < |sg.seeds|
    modifies g
    ensures placed == Placements(sg, indices, g.draws, old(g.pos), first, k)
    ensures g.pos == old(g.pos) + (if |sg.seeds| == 0 then 0 else 3 * k)
  {
    placed := [];
    var t := 0;
    while t < k
      invariant 0 <= t <= k && |placed| == t
      invariant g.pos == old(g.pos) + (if |sg.seeds| == 0 then 0 else 3 * t)
      invariant forall i :: 0 <= i < t ==> placed[i] == Placements(sg, indices, g.draws, old(g.pos), first, k)[i]
    {
      var pos := GetNextPos(sg, g, indices, first + t);
      placed := placed + [pos];
      t := t + 1;
    }
  }

  /** One process that prepares its generator at seed 0 and then places
      seeds 0, 1, ..., k-1. */
  method SequentialRun(sg: SeedGenerator, draws: Draws, k: nat)
    returns (g: Generator, indices: seq<nat>)
    ensures fresh(g)
    ensures g.draws == draws
    ensures indices == ShuffledIndices(draws, |sg.seeds|)
    ensures |sg.seeds| > 0 ==> g.pos == InitPosition(|sg.seeds|, k)
    ensures |sg.seeds| == 0 ==> g.pos == InitPosition(0, 0)
  {
    var r := InitGenerator(sg, draws, 0);
    g := r.value.0;
    indices := r.value.1[..];
    assert indices == ShuffledIndices(draws, |sg.seeds|);
    var _ := PlaceSeeds(sg, g, indices, 0, k);
  }

  /** The reproducibility the chunked tracking relies on: a process whose
      chunk starts at seed `k` places seeds `k`, `k + 1`, ... exactly where a
      single process that has already placed seeds 0..k-1 places them. */
  method ChunkStartMatchesSequentialRun(sg: SeedGenerator, draws: Draws, k: nat, count: nat)
    returns (fromChunk: seq<Option<Point>>, fromSequential: seq<Option<Point>>)
    ensures fromChunk == fromSequential
    ensures fromChunk == Placements(sg, ShuffledIndices(draws, |sg.seeds|), draws, InitPosition(|sg.seeds|, k), k, count)
  {
    var n := |sg.seeds|;
    var order := ShuffledIndices(draws, n);
    var r := InitGenerator(sg, draws, k);
    var g1 := r.value.0;
    var indices1 := r.value.1[..];
    var g2, indices2 := SequentialRun(sg, draws, k);
    assert indices1 == indices2 == order && g1.draws == g2.draws == draws;
    fromChunk := PlaceSeeds(sg, g1, indices1, k, count);
    fromSequential := PlaceSeeds(sg, g2, indices2, k, count);
    if n == 0 {
      assert Placements(sg, order, draws, InitPosition(0, 0), k, count)
          == Placements(sg, order, draws, InitPosition(0, k), k, count);
    }
  }
}
