/** Volumes, masks and the compact voxel index.

    A volume of shape (nx, ny, nz) is stored as the sequence of its voxels in
    numpy's C order (x slowest, z fastest); each voxel holds a row of channel
    values. Boolean indexing `data[mask]` visits the true entries of the mask
    in that same order, and `out[mask] = tmp` writes them back in it. */
module VoxelIndex {

  type Row = seq<real>

  datatype Shape = Shape(nx: nat, ny: nat, nz: nat)

  datatype Voxel = Voxel(x: int, y: int, z: int)

  /** A numpy array as the entry points receive it: its spatial shape and
      its voxels in C order (for a 4-D array, each voxel is the row of its
      last axis). */
  datatype Volume<T> = Volume(shape: Shape, voxels: seq<T>)

  /** The array holds exactly one voxel per position of its shape. */
  predicate WellFormed<T>(v: Volume<T>)
  {
    |v.voxels| == VoxelCount(v.shape)
  }

  function VoxelCount(s: Shape): nat
  {
    s.nx * s.ny * s.nz
  }

  predicate InShape(s: Shape, v: Voxel)
  {
    0 <= v.x < s.nx && 0 <= v.y < s.ny && 0 <= v.z < s.nz
  }

  /** Row-major (x, then y, then z) comparison of two voxels. */
  predicate LexLess(a: Voxel, b: Voxel)
  {
    a.x < b.x || (a.x == b.x && (a.y < b.y || (a.y == b.y && a.z < b.z)))
  }

  /** Position of a voxel in the C-ordered storage. */
  function Linear(s: Shape, v: Voxel): (p: nat)
    requires InShape(s, v)
    ensures p < VoxelCount(s)
  {
    LinearBound(s, v);
    (v.x * s.ny + v.y) * s.nz + v.z
  }

  lemma MulBound(a: nat, b: nat, c: nat, z: nat)
    requires a < b && z < c
    ensures a * c + z < b * c
  {
    assert (a + 1) * c <= b * c;
  }

  lemma LinearBound(s: Shape, v: Voxel)
    requires InShape(s, v)
    ensures 0 <= (v.x * s.ny + v.y) * s.nz + v.z < VoxelCount(s)
  {
    MulBound(v.x, s.nx, s.ny, v.y);
    MulBound(v.x * s.ny + v.y, s.nx * s.ny, s.nz, v.z);
  }

  /** The storage order is row-major: one voxel comes before another exactly
      when it is smaller in (x, y, z) lexicographic order. */
  lemma RowMajorOrder(s: Shape, a: Voxel, b: Voxel)
    requires InShape(s, a) && InShape(s, b)
    ensures Linear(s, a) < Linear(s, b) <==> LexLess(a, b)
    ensures Linear(s, a) == Linear(s, b) <==> a == b
  {
    if LexLess(a, b) { LexLessLinear(s, a, b); }
    if LexLess(b, a) { LexLessLinear(s, b, a); }
  }

  lemma LexLessLinear(s: Shape, a: Voxel, b: Voxel)
    requires InShape(s, a) && InShape(s, b) && LexLess(a, b)
    ensures Linear(s, a) < Linear(s, b)
  {
    var pa, pb := a.x * s.ny + a.y, b.x * s.ny + b.y;
    if a.x < b.x {
      MulBound(a.x, b.x, s.ny, a.y);
    }
    assert pa <= pb;
    if pa < pb {
      MulBound(pa, pb, s.nz, a.z);
    }
  }

  /** The voxel stored at position `p` (what `np.where`/`np.unravel_index`
      report for it). */
  function VoxelAt(s: Shape, p: nat): (v: Voxel)
    requires p < VoxelCount(s)
    ensures InShape(s, v) && Linear(s, v) == p
  {
    assert s.nz > 0 && s.ny > 0;
    var t := p / s.nz;
    DivBelow(p, s.nx * s.ny, s.nz);
    DivBelow(t, s.nx, s.ny);
    var v := Voxel(t / s.ny, t % s.ny, p % s.nz);
    assert t == v.x * s.ny + v.y;
    v
  }

  lemma DivBelow(p: nat, a: nat, c: nat)
    requires c > 0 && p < a * c
    ensures p / c < a
  {
    var d := p / c;
    assert p == d * c + p % c;
    MulMonotone(a, d, c);
  }

  lemma MulMonotone(a: nat, d: nat, c: nat)
    ensures a <= d ==> a * c <= d * c
  {
  }

  // ---------------------------------------------------------------------
  // Masks and the compact index

  /** Positions of the true entries of `mask`, in increasing order: the
      compact index in which `data[mask]` lists the active voxels. */
  function MaskedPositions(mask: seq<bool>): (ps: seq<nat>)
    ensures forall j :: 0 <= j < |ps| ==> ps[j] < |mask| && mask[ps[j]]
    ensures forall i, j :: 0 <= i < j < |ps| ==> ps[i] < ps[j]
    ensures forall p :: 0 <= p < |mask| && mask[p] ==> p in ps
  {
    if mask == [] then []
    else
      var ps := MaskedPositions(mask[..|mask| - 1]);
      if mask[|mask| - 1] then ps + [|mask| - 1] else ps
  }

  /** `np.count_nonzero(mask)` */
  function Count(mask: seq<bool>): nat
  {
    |MaskedPositions(mask)|
  }

  /** How many true entries precede position `p`: the compact index of the
      voxel at `p`. */
  function Rank(mask: seq<bool>, p: nat): nat
    requires p <= |mask|
  {
    Count(mask[..p])
  }

  lemma {:induction false} MaskedPositionsPrefix(mask: seq<bool>, q: nat)
    requires q <= |mask|
    ensures MaskedPositions(mask[..q]) <= MaskedPositions(mask)
    decreases |mask| - q
  {
    if q < |mask| {
      MaskedPositionsPrefix(mask, q + 1);
      assert mask[..q + 1][..q] == mask[..q];
    } else {
      assert mask[..q] == mask;
    }
  }

  /** The voxel at a masked position `p` has compact index `Rank(mask, p)`. */
  lemma RankPosition(mask: seq<bool>, p: nat)
    requires p < |mask| && mask[p]
    ensures Rank(mask, p) < Count(mask)
    ensures MaskedPositions(mask)[Rank(mask, p)] == p
  {
    var q := mask[..p + 1];
    assert q[..|q| - 1] == mask[..p] && q[|q| - 1];
    var pre := MaskedPositions(q);
    assert pre == MaskedPositions(mask[..p]) + [p];
    MaskedPositionsPrefix(mask, p + 1);
    assert MaskedPositions(mask)[|pre| - 1] == pre[|pre| - 1];
  }

  /** The compact index position of every masked position is its rank. */
  lemma RankOfMaskedPosition(mask: seq<bool>, j: nat)
    requires j < Count(mask)
    ensures Rank(mask, MaskedPositions(mask)[j]) == j
  {
    var ps := MaskedPositions(mask);
    var p := ps[j];
    RankPosition(mask, p);
    var r := Rank(mask, p);
    assert ps[r] == p;
  }

  /** `data[mask]`: the rows of the masked voxels in compact-index order. */
  function Compact<T>(data: seq<T>, mask: seq<bool>): (rows: seq<T>)
    requires |data| == |mask|
    ensures |rows| == Count(mask)
  {
    var ps := MaskedPositions(mask);
    seq(|ps|, j requires 0 <= j < |ps| => data[ps[j]])
  }

  /** `out = fill everywhere; out[mask] = tmp`: the j-th masked voxel gets
      `tmp[j]`, every other voxel keeps `fill`. */
  function Scatter<T>(mask: seq<bool>, tmp: seq<T>, fill: T): (out: seq<T>)
    requires |tmp| == Count(mask)
    ensures |out| == |mask|
  {
    seq(|mask|, p requires 0 <= p < |mask| =>
      if mask[p] then (RankPosition(mask, p); tmp[Rank(mask, p)]) else fill)
  }

  /** Scattering the compaction puts every masked voxel back in place and
      fills the rest. */
  lemma ScatterCompact<T>(data: seq<T>, mask: seq<bool>, fill: T, p: nat)
    requires |data| == |mask| && p < |mask|
    ensures Scatter(mask, Compact(data, mask), fill)[p] == if mask[p] then data[p] else fill
  {
    if mask[p] { RankPosition(mask, p); }
  }

  /** Compacting a scatter gives back the scattered rows. */
  lemma CompactScatter<T>(mask: seq<bool>, tmp: seq<T>, fill: T)
    requires |tmp| == Count(mask)
    ensures Compact(Scatter(mask, tmp, fill), mask) == tmp
  {
    var ps := MaskedPositions(mask);
    forall j | 0 <= j < |tmp| ensures Compact(Scatter(mask, tmp, fill), mask)[j] == tmp[j] {
      RankOfMaskedPosition(mask, j);
    }
  }

  // ---------------------------------------------------------------------
  // Mask derivation

  /** `np.sum(row)` */
  function RowSum(row: Row): real
  {
    if row == [] then 0.0 else row[0] + RowSum(row[1..])
  }

  /** `not row.any()` */
  predicate AllZero(row: Row)
  {
    forall j :: 0 <= j < |row| ==> row[j] == 0.0
  }

  lemma {:induction false} AllZeroSum(row: Row)
    requires AllZero(row)
    ensures RowSum(row) == 0.0
  {
    if row != [] {
      AllZeroSum(row[1..]);
    }
  }

  /** `np.sum(data, axis=3).astype(bool)`: a voxel is active iff the sum of
      its channels is nonzero. */
  function DefaultMask(data: seq<Row>): (mask: seq<bool>)
    ensures |mask| == |data|
    ensures forall p :: 0 <= p < |data| ==> (mask[p] <==> RowSum(data[p]) != 0.0)
  {
    seq(|data|, p requires 0 <= p < |data| => RowSum(data[p]) != 0.0)
  }

  /** `mask * mask_any` on booleans. */
  function AndMask(a: seq<bool>, b: seq<bool>): (r: seq<bool>)
    requires |a| == |b|
    ensures |r| == |a| && forall p :: 0 <= p < |a| ==> (r[p] <==> a[p] && b[p])
  {
    seq(|a|, p requires 0 <= p < |a| => a[p] && b[p])
  }

  /** A voxel the default mask keeps never has an all-zero row. */
  lemma DefaultMaskSkipsZeroRows(data: seq<Row>, p: nat)
    requires p < |data| && AllZero(data[p])
    ensures !DefaultMask(data)[p]
  {
    AllZeroSum(data[p]);
  }

  /** The converse fails: a voxel whose channels cancel out is dropped by
      the sum-based mask although its row is not all zero. */
  lemma SumMaskDropsCancellingRow()
    ensures !AllZero([1.0, -1.0]) && !DefaultMask([[1.0, -1.0]])[0]
  {
    assert RowSum([1.0, -1.0]) == 1.0 + RowSum([-1.0]);
    assert RowSum([-1.0]) == -1.0 + RowSum([]);
  }

  // ---------------------------------------------------------------------
  // Broadcasting an in-place `mask *= other`

  /** numpy broadcasts `other` (shape `os`) against the mask (shape `ms`)
      and the result must keep the mask's shape: on every axis the two
      lengths agree or `other`'s is 1. */
  predicate Broadcastable(ms: Shape, os: Shape)
  {
    && (os.nx == ms.nx || os.nx == 1)
    && (os.ny == ms.ny || os.ny == 1)
    && (os.nz == ms.nz || os.nz == 1)
  }

  /** The voxel of `other` that broadcasting pairs with voxel `v` of the
      mask: index 0 on every axis of length 1. */
  function Project(os: Shape, v: Voxel): Voxel
  {
    Voxel(if os.nx == 1 then 0 else v.x, if os.ny == 1 then 0 else v.y, if os.nz == 1 then 0 else v.z)
  }

  lemma ProjectInShape(ms: Shape, os: Shape, v: Voxel)
    requires Broadcastable(ms, os) && InShape(ms, v)
    ensures InShape(os, Project(os, v))
  {
  }

  /** The mask after `mask *= other`, stored over the mask's own positions. */
  function BroadcastAnd(ms: Shape, m: seq<bool>, os: Shape, other: seq<bool>): (r: seq<bool>)
    requires |m| == VoxelCount(ms) && |other| == VoxelCount(os) && Broadcastable(ms, os)
    ensures |r| == |m|
  {
    seq(|m|, p requires 0 <= p < |m| =>
      var v := VoxelAt(ms, p);
      ProjectInShape(ms, os, v);
      m[p] && other[Linear(os, Project(os, v))])
  }

  /** Voxel `v` of the updated mask is set iff it was set and the voxel of
      `other` broadcast onto it is set. */
  lemma BroadcastAndAt(ms: Shape, m: seq<bool>, os: Shape, other: seq<bool>, v: Voxel)
    requires |m| == VoxelCount(ms) && |other| == VoxelCount(os) && Broadcastable(ms, os)
    requires InShape(ms, v)
    ensures InShape(os, Project(os, v))
    ensures BroadcastAnd(ms, m, os, other)[Linear(ms, v)]
            <==> m[Linear(ms, v)] && other[Linear(os, Project(os, v))]
  {
    var p := Linear(ms, v);
    RowMajorOrder(ms, VoxelAt(ms, p), v);
  }

  /** With equal shapes nothing is broadcast: the update is the voxelwise
      conjunction. */
  lemma BroadcastSameShape(s: Shape, m: seq<bool>, other: seq<bool>)
    requires |m| == |other| == VoxelCount(s)
    ensures Broadcastable(s, s)
    ensures BroadcastAnd(s, m, s, other) == AndMask(m, other)
  {
    var r := BroadcastAnd(s, m, s, other);
    forall p | 0 <= p < |m|
      ensures r[p] == (m[p] && other[p])
    {
      var v := VoxelAt(s, p);
      assert Project(s, v) == v;
    }
  }
}
