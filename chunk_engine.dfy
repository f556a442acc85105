/** The chunked map/reassemble engine that every voxel-wise operation of
    `multi_processes.py` repeats: compact the masked rows, cut them with
    `array_split`, run a per-row worker on each chunk, write each chunk's
    output into `tmp[chunk_len[i]:chunk_len[i+1]]` by chunk id, and scatter
    `tmp` back into a volume at the masked positions.

    The process pool is modelled as a sequential loop that runs the chunks in
    an arbitrary completion order and tags every output with its chunk id. */
module ChunkEngine {
  import opened Common
  import opened ChunkPartition
  import opened VoxelIndex

  /** The per-row part of a `*_parallel` worker. A row the worker skips (the
      `if not row.any()` case) keeps the value preallocated for it,
      `preset(row)`; any other row gets `compute(row)`. The preset is the
      zero (or -1) the worker allocates, or the row itself when the worker
      updates the chunk in place. */
  datatype RowKernel<!T, U> = RowKernel(skip: T -> bool, compute: T -> U, preset: T -> U)

  function Apply<T, U>(kernel: RowKernel<T, U>, row: T): U
  {
    if kernel.skip(row) then kernel.preset(row) else kernel.compute(row)
  }

  /** What a worker returns for a chunk: one output per row, row by row. */
  function RowMap<T, U>(kernel: RowKernel<T, U>, rows: seq<T>): (out: seq<U>)
    ensures |out| == |rows|
  {
    seq(|rows|, i requires 0 <= i < |rows| => Apply(kernel, rows[i]))
  }

  /** Mapping chunk by chunk and concatenating equals mapping the whole list. */
  lemma {:induction false} RowMapFlatten<T, U>(kernel: RowKernel<T, U>, cs: seq<seq<T>>)
    ensures Flatten(seq(|cs|, i requires 0 <= i < |cs| => RowMap(kernel, cs[i]))) == RowMap(kernel, Flatten(cs))
  {
    var outs := seq(|cs|, i requires 0 <= i < |cs| => RowMap(kernel, cs[i]));
    if cs != [] {
      var rest := seq(|cs| - 1, i requires 0 <= i < |cs| - 1 => RowMap(kernel, cs[1..][i]));
      assert outs[1..] == rest;
      RowMapFlatten(kernel, cs[1..]);
      assert RowMap(kernel, cs[0] + Flatten(cs[1..])) == RowMap(kernel, cs[0]) + RowMap(kernel, Flatten(cs[1..]));
    }
  }

  /** The loop of a `*_parallel` worker that fills a preallocated array:
      `out = preset; for i: if chunk[i].any(): out[i] = compute(chunk[i])`. */
  method RunChunk<T, U>(kernel: RowKernel<T, U>, chunk: seq<T>) returns (out: seq<U>)
    ensures out == RowMap(kernel, chunk)
  {
    var a := new U[|chunk|](i requires 0 <= i < |chunk| => kernel.preset(chunk[i]));
    for i := 0 to |chunk|
      invariant forall j :: 0 <= j < i ==> a[j] == Apply(kernel, chunk[j])
      invariant forall j :: i <= j < |chunk| ==> a[j] == kernel.preset(chunk[j])
    {
      if !kernel.skip(chunk[i]) {
        a[i] := kernel.compute(chunk[i]);
      }
    }
    out := a[..];
  }

  /** The preset of a worker that updates its chunk in place: a skipped row
      keeps its own value. */
  function Identity<T>(x: T): T
  {
    x
  }

  /** The loop of a worker that updates its chunk in place
      (`sh[idx] = compute(sh[idx])` for every row that is not all zero);
      skipped rows keep their own value. */
  method RunChunkInPlace<T>(skip: T -> bool, compute: T -> T, chunk: array<T>)
    modifies chunk
    ensures chunk[..] == RowMap(RowKernel(skip, compute, Identity), old(chunk[..]))
  {
    for i := 0 to chunk.Length
      invariant forall j :: 0 <= j < i ==> chunk[j] == Apply(RowKernel(skip, compute, Identity), old(chunk[j]))
      invariant forall j :: i <= j < chunk.Length ==> chunk[j] == old(chunk[j])
    {
      if !skip(chunk[i]) {
        chunk[i] := compute(chunk[i]);
      }
    }
  }

  /** `order` is an order in which the `k` chunks can complete: every chunk
      id below `k` occurs in it, and nothing else does. */
  predicate IsCompletionOrder(order: seq<nat>, k: int)
  {
    && |order| == k
    && (forall t :: 0 <= t < |order| ==> order[t] < k)
    && (forall i :: 0 <= i < k ==> i in order)
  }

  /** `pool.map(worker, zip(chunks, ..., np.arange(len(chunks))))` run one
      chunk at a time in the completion order `order`; each result is the
      pair `(chunk_id, output)`. */
  method Dispatch<T, U>(kernel: RowKernel<T, U>, chunks: seq<seq<T>>, order: seq<nat>)
    returns (results: seq<(nat, seq<U>)>)
    requires forall t :: 0 <= t < |order| ==> order[t] < |chunks|
    ensures |results| == |order|
    ensures forall t :: 0 <= t < |order| ==> results[t] == (order[t], RowMap(kernel, chunks[order[t]]))
  {
    results := [];
    for t := 0 to |order|
      invariant |results| == t
      invariant forall s :: 0 <= s < t ==> results[s] == (order[s], RowMap(kernel, chunks[order[s]]))
    {
      var out := RunChunk(kernel, chunks[order[t]]);
      results := results + [(order[t], out)];
    }
  }

  /** A list reordered by a completion order holds the same elements. */
  lemma SameElements<X>(a: seq<X>, b: seq<X>, order: seq<nat>)
    requires IsCompletionOrder(order, |b|)
    requires |a| == |order| && forall t :: 0 <= t < |order| ==> a[t] == b[order[t]]
    ensures forall x :: x in a <==> x in b
  {
    forall x | x in b ensures x in a {
      var i :| 0 <= i < |b| && b[i] == x;
      assert i in order;
      var t :| 0 <= t < |order| && order[t] == i;
      assert a[t] == x;
    }
  }

  /** Some result carries chunk id `i`. */
  predicate HasId<U>(results: seq<(nat, seq<U>)>, i: nat)
  {
    exists t :: 0 <= t < |results| && results[t].0 == i
  }

  /** `for i, out in results: tmp[chunk_len[i]:chunk_len[i+1]] = out`.
      Whatever order the results come in, as long as every chunk id occurs,
      `tmp` ends as the chunk outputs concatenated in chunk-id order. */
  method Reassemble<U>(results: seq<(nat, seq<U>)>, chunkLen: seq<nat>, ghost outs: seq<seq<U>>, zero: U)
    returns (tmp: seq<U>)
    requires chunkLen == Offsets(Lengths(outs))
    requires forall t :: 0 <= t < |results| ==> results[t].0 < |outs| && results[t].1 == outs[results[t].0]
    requires forall i :: 0 <= i < |outs| ==> HasId(results, i)
    ensures tmp == Flatten(outs)
  {
    var n := |chunkLen| - 1;
    ghost var L := Lengths(outs);
    ghost var F := Flatten(outs);
    OffsetsShape(L);
    FlattenLength(outs);
    var a := new U[chunkLen[n]](_ => zero);
    ghost var done: set<nat> := {};
    for t := 0 to |results|
      invariant forall s :: 0 <= s < t ==> results[s].0 in done
      invariant forall p :: 0 <= p < chunkLen[n] && ChunkIndexOf(L, p) in done ==> a[p] == F[p]
    {
      var (i, out) := results[t];
      assert out == outs[i] && chunkLen[i + 1] == chunkLen[i] + |out|;
      ghost var prev := a[..];
      forall p | chunkLen[i] <= p < chunkLen[i + 1] {
        a[p] := out[p - chunkLen[i]];
      }
      ReassembleStep(outs, L, chunkLen, F, i, prev, a[..], done);
      done := done + {i};
    }
    forall p | 0 <= p < chunkLen[n] ensures a[p] == F[p] {
      var c := ChunkIndexOf(L, p);
      assert HasId(results, c);
    }
    tmp := a[..];
  }

  /** Writing chunk `i`'s output over its slice keeps every position of
      the chunks already written, and makes chunk `i`'s positions right. */
  lemma ReassembleStep<U>(outs: seq<seq<U>>, L: seq<nat>, off: seq<nat>, F: seq<U>, i: nat,
                          prev: seq<U>, cur: seq<U>, done: set<nat>)
    requires L == Lengths(outs) && off == Offsets(L) && F == Flatten(outs)
    requires i < |outs| && |F| == Sum(L) && |prev| == |cur| == |F|
    requires forall p :: 0 <= p < |prev| && ChunkIndexOf(L, p) in done ==> prev[p] == F[p]
    requires forall j :: 0 <= j < |outs[i]| ==> off[i] + j < |cur| && cur[off[i] + j] == outs[i][j]
    requires forall p :: 0 <= p < |cur| && (p < off[i] || off[i] + |outs[i]| <= p) ==> cur[p] == prev[p]
    ensures forall p :: 0 <= p < |cur| && ChunkIndexOf(L, p) in done + {i} ==> cur[p] == F[p]
  {
    forall p | 0 <= p < |cur| && ChunkIndexOf(L, p) in done + {i} ensures cur[p] == F[p] {
      var inside := off[i] <= p < off[i] + |outs[i]|;
      if inside {
        assert cur[off[i] + (p - off[i])] == outs[i][p - off[i]];
      }
      ReassembleAt(outs, i, p, prev[p], cur[p]);
    }
  }

  /** One position after chunk `i` was written: inside chunk `i` it holds
      the chunk's output, elsewhere it kept a value that was already right. */
  lemma ReassembleAt<U>(outs: seq<seq<U>>, i: nat, p: nat, prevP: U, curP: U)
    requires i < |outs| && p < Sum(Lengths(outs)) && p < |Flatten(outs)|
    requires var o := Offsets(Lengths(outs))[i];
      o <= p < o + |outs[i]| ==> curP == outs[i][p - o]
    requires var o := Offsets(Lengths(outs))[i];
      !(o <= p < o + |outs[i]|) ==> curP == prevP
    requires ChunkIndexOf(Lengths(outs), p) == i || prevP == Flatten(outs)[p]
    ensures curP == Flatten(outs)[p]
  {
    var L := Lengths(outs);
    var off := Offsets(L);
    var c := ChunkIndexOf(L, p);
    OffsetsShape(L);
    if off[i] <= p < off[i] + |outs[i]| {
      FlattenAt(outs, i, p - off[i]);
    }
  }

  /** `out = np.zeros(shape); out[mask] = tmp`. */
  method ScatterInto<U>(mask: seq<bool>, tmp: seq<U>, fill: U) returns (out: seq<U>)
    requires |tmp| == Count(mask)
    ensures out == Scatter(mask, tmp, fill)
  {
    var ps := MaskedPositions(mask);
    var a := new U[|mask|](_ => fill);
    forall j | 0 <= j < |ps| {
      a[ps[j]] := tmp[j];
    }
    forall p | 0 <= p < |mask| ensures a[p] == Scatter(mask, tmp, fill)[p] {
      if mask[p] {
        RankPosition(mask, p);
      }
    }
    out := a[..];
  }

  /** The steps before the pool runs: `data[mask]`, `np.array_split(data, k)`
      and `chunk_len = np.cumsum([0] + [len(c) for c in chunks])`. A
      non-positive `k` makes `array_split` raise. */
  method Partition<T>(data: seq<T>, mask: seq<bool>, k: int) returns (r: Result<(seq<seq<T>>, seq<nat>)>)
    requires |data| == |mask|
    ensures k <= 0 ==> r == Err(NonPositiveSections)
    ensures k > 0 ==> r.Ok? && r.value.0 == Split(Compact(data, mask), SplitSizes(Count(mask), k).value)
    ensures k > 0 ==> r.Ok? && r.value.1 == Offsets(SplitSizes(Count(mask), k).value)
  {
    var compact := Compact(data, mask);
    var split := SplitSizes(Count(mask), k);
    if split.Err? {
      return Err(split.error);
    }
    SplitSizesShape(Count(mask), k);
    r := Ok((Split(compact, split.value), Offsets(split.value)));
  }

  /** The steps after the pool has run: write every result into `tmp` by
      chunk id, then `out[mask] = tmp` into a volume filled with `fill`. */
  method Collect<T, U>(kernel: RowKernel<T, U>, chunks: seq<seq<T>>, chunkLen: seq<nat>,
                       results: seq<(nat, seq<U>)>, mask: seq<bool>, zero: U, fill: U)
    returns (out: seq<U>)
    requires chunkLen == Offsets(Lengths(chunks))
    requires |Flatten(chunks)| == Count(mask)
    requires forall t :: 0 <= t < |results| ==>
      results[t].0 < |chunks| && results[t].1 == RowMap(kernel, chunks[results[t].0])
    requires forall i :: 0 <= i < |chunks| ==> HasId(results, i)
    ensures out == Scatter(mask, RowMap(kernel, Flatten(chunks)), fill)
  {
    ghost var outs := seq(|chunks|, i requires 0 <= i < |chunks| => RowMap(kernel, chunks[i]));
    assert Lengths(outs) == Lengths(chunks);
    var tmp := Reassemble(results, chunkLen, outs, zero);
    RowMapFlatten(kernel, chunks);
    out := ScatterInto(mask, tmp, fill);
  }

  /** `np.arange(k)`: the order in which `pool.map` hands back its results. */
  function Range(k: nat): (order: seq<nat>)
    ensures IsCompletionOrder(order, k)
  {
    var order := seq(k, i requires 0 <= i < k => i as nat);
    assert forall i :: 0 <= i < k ==> i in order by {
      forall i | 0 <= i < k ensures i in order {
        assert order[i] == i;
      }
    }
    order
  }

  /** The whole engine for one voxel-wise operation with `k` sections. A
      non-positive `k` makes `array_split` raise. Otherwise the result does
      not depend on `k` nor on the order in which the chunks complete: the
      j-th masked voxel receives the worker's output for the j-th compact
      row, and every other voxel holds `fill`. */
  method RunVoxelwise<T, U>(data: seq<T>, mask: seq<bool>, k: int, kernel: RowKernel<T, U>,
                            zero: U, fill: U, order: seq<nat>)
    returns (r: Result<seq<U>>)
    requires |data| == |mask|
    requires k > 0 ==> IsCompletionOrder(order, k)
    ensures k <= 0 ==> r == Err(NonPositiveSections)
    ensures k > 0 ==> r == Ok(Scatter(mask, RowMap(kernel, Compact(data, mask)), fill))
  {
    var parts := Partition(data, mask, k);
    if parts.Err? {
      return Err(parts.error);
    }
    var (chunks, chunkLen) := parts.value;
    var results := Dispatch(kernel, chunks, order);
    PartitionFacts(data, mask, k);
    CompletionHasIds(results, order, k);
    var out := Collect(kernel, chunks, chunkLen, results, mask, zero, fill);
    r := Ok(out);
  }

  /** The same engine for a worker that updates its chunk in place
      (`convert_sh_basis`): skipped rows keep their own value. */
  method RunVoxelwiseInPlace<T>(data: seq<T>, mask: seq<bool>, k: int, skip: T -> bool,
                                compute: T -> T, zero: T, fill: T, order: seq<nat>)
    returns (r: Result<seq<T>>)
    requires |data| == |mask|
    requires k > 0 ==> IsCompletionOrder(order, k)
    ensures k <= 0 ==> r == Err(NonPositiveSections)
    ensures k > 0 ==> r == Ok(Scatter(mask, RowMap(RowKernel(skip, compute, Identity), Compact(data, mask)), fill))
  {
    var parts := Partition(data, mask, k);
    if parts.Err? {
      return Err(parts.error);
    }
    var (chunks, chunkLen) := parts.value;
    var results := DispatchInPlace(skip, compute, chunks, order);
    PartitionFacts(data, mask, k);
    CompletionHasIds(results, order, k);
    var out := Collect(RowKernel(skip, compute, Identity), chunks, chunkLen, results, mask, zero, fill);
    r := Ok(out);
  }

  /** `pool.map` over a worker that mutates the chunk it was handed: each
      chunk is copied into an array, updated in place, and handed back. */
  method DispatchInPlace<T>(skip: T -> bool, compute: T -> T, chunks: seq<seq<T>>, order: seq<nat>)
    returns (results: seq<(nat, seq<T>)>)
    requires forall t :: 0 <= t < |order| ==> order[t] < |chunks|
    ensures |results| == |order|
    ensures forall t :: 0 <= t < |order| ==>
      results[t] == (order[t], RowMap(RowKernel(skip, compute, Identity), chunks[order[t]]))
  {
    results := [];
    for t := 0 to |order|
      invariant |results| == t
      invariant forall s :: 0 <= s < t ==>
        results[s] == (order[s], RowMap(RowKernel(skip, compute, Identity), chunks[order[s]]))
    {
      var chunk := chunks[order[t]];
      var a := new T[|chunk|](i requires 0 <= i < |chunk| => chunk[i]);
      assert a[..] == chunk;
      RunChunkInPlace(skip, compute, a);
      results := results + [(order[t], a[..])];
    }
  }

  /** The chunks of `Partition` concatenate back to the compact rows, and
      their offsets are `chunk_len`. */
  lemma PartitionFacts<T>(data: seq<T>, mask: seq<bool>, k: int)
    requires |data| == |mask| && k > 0
    ensures var sizes := SplitSizes(Count(mask), k).value;
      && |Split(Compact(data, mask), sizes)| == k
      && Lengths(Split(Compact(data, mask), sizes)) == sizes
      && Flatten(Split(Compact(data, mask), sizes)) == Compact(data, mask)
  {
    var sizes := SplitSizes(Count(mask), k).value;
    SplitSizesShape(Count(mask), k);
    FlattenSplit(Compact(data, mask), sizes);
  }

  /** Results produced in a completion order carry every chunk id. */
  lemma CompletionHasIds<U>(results: seq<(nat, seq<U>)>, order: seq<nat>, k: int)
    requires IsCompletionOrder(order, k)
    requires |results| == |order| && forall t :: 0 <= t < |order| ==> results[t].0 == order[t]
    ensures forall i :: 0 <= i < k ==> HasId(results, i)
  {
    forall i | 0 <= i < k ensures HasId(results, i) {
      assert i in order;
      var t :| 0 <= t < |order| && order[t] == i;
      assert results[t].0 == i;
    }
  }

  /** What the engine computes, voxel by voxel: a masked voxel holds the
      worker's output for its own row, any other voxel holds `fill`. */
  lemma VoxelwiseAt<T, U>(kernel: RowKernel<T, U>, data: seq<T>, mask: seq<bool>, fill: U, p: nat)
    requires |data| == |mask| && p < |mask|
    ensures Scatter(mask, RowMap(kernel, Compact(data, mask)), fill)[p]
      == if mask[p] then Apply(kernel, data[p]) else fill
  {
    if mask[p] {
      RankPosition(mask, p);
    }
  }
}
