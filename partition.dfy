/** How the compacted voxel rows are cut into chunks: numpy's `array_split`
    sizes, the `chunk_len` cumulative offsets, the chunks themselves, and
    their concatenation back into one sequence. */
module ChunkPartition {
  import opened Common

  /** `[x] * n` */
  function Repeat(x: nat, n: nat): (r: seq<nat>)
    ensures |r| == n && forall i :: 0 <= i < n ==> r[i] == x
  {
    if n == 0 then [] else [x] + Repeat(x, n - 1)
  }

  /** `sum(s)` */
  function Sum(s: seq<nat>): nat
  {
    if s == [] then 0 else s[0] + Sum(s[1..])
  }

  lemma {:induction false} SumAppend(a: seq<nat>, b: seq<nat>)
    ensures Sum(a + b) == Sum(a) + Sum(b)
  {
    if a == [] {
      assert a + b == b;
    } else {
      assert (a + b)[1..] == a[1..] + b;
      SumAppend(a[1..], b);
    }
  }

  lemma {:induction false} SumRepeat(x: nat, n: nat)
    ensures Sum(Repeat(x, n)) == n * x
  {
    if n > 0 {
      assert Repeat(x, n)[1..] == Repeat(x, n - 1);
      SumRepeat(x, n - 1);
    }
  }

  /** The section sizes of `np.array_split(rows, k)` for `m` rows, built the
      way numpy builds them: `extras * [each + 1] + (k - extras) * [each]`
      with `each, extras = divmod(m, k)`; a non-positive `k` raises. */
  function SplitSizes(m: nat, k: int): (r: Result<seq<nat>>)
    ensures r.Err? <==> k <= 0
    ensures r.Ok? ==> |r.value| == k && Sum(r.value) == m
  {
    if k <= 0 then Err(NonPositiveSections)
    else
      var q, rem := m / k, m % k;
      SumAppend(Repeat(q + 1, rem), Repeat(q, k - rem));
      SumRepeat(q + 1, rem);
      SumRepeat(q, k - rem);
      SumOfSplit(m, k, q, rem);
      Ok(Repeat(q + 1, rem) + Repeat(q, k - rem))
  }

  /** The first `m mod k` chunks hold `m div k + 1` rows, the others
      `m div k`; so sizes differ by at most one, never increase, and add up
      to `m`. */
  lemma SplitSizesShape(m: nat, k: int)
    requires k > 0
    ensures var s := SplitSizes(m, k).value;
      && |s| == k
      && (forall i :: 0 <= i < k ==> s[i] == if i < m % k then m / k + 1 else m / k)
      && (forall i, j :: 0 <= i <= j < k ==> s[j] <= s[i] <= s[j] + 1)
      && Sum(s) == m
  {
    var q, r := m / k, m % k;
    var s := SplitSizes(m, k).value;
    assert s == Repeat(q + 1, r) + Repeat(q, k - r);
    SumAppend(Repeat(q + 1, r), Repeat(q, k - r));
    SumRepeat(q + 1, r);
    SumRepeat(q, k - r);
    SumOfSplit(m, k, q, r);
  }

  lemma SumOfSplit(m: nat, k: nat, q: nat, r: nat)
    requires k > 0 && q == m / k && r == m % k
    ensures r * (q + 1) + (k - r) * q == m
  {
    assert m == k * q + r;
    assert r * (q + 1) == r * q + r;
    assert (k - r) * q == k * q - r * q;
  }

  /** `np.cumsum([0] + sizes)`: entry i is the number of rows before chunk i. */
  function Offsets(sizes: seq<nat>): (r: seq<nat>)
    ensures |r| == |sizes| + 1
  {
    seq(|sizes| + 1, i requires 0 <= i <= |sizes| => Sum(sizes[..i]))
  }

  /** The offsets start at 0, end at the total, never decrease, and
      consecutive offsets differ by the size of the chunk between them. */
  lemma OffsetsShape(sizes: seq<nat>)
    ensures var off := Offsets(sizes);
      && off[0] == 0
      && off[|sizes|] == Sum(sizes)
      && (forall i :: 0 <= i < |sizes| ==> off[i + 1] == off[i] + sizes[i])
      && (forall i, j :: 0 <= i <= j <= |sizes| ==> off[i] <= off[j])
  {
    var off := Offsets(sizes);
    assert sizes[..|sizes|] == sizes;
    forall i | 0 <= i < |sizes| ensures off[i + 1] == off[i] + sizes[i] {
      OffsetStep(sizes, i);
    }
    forall i, j | 0 <= i <= j <= |sizes| ensures off[i] <= off[j] {
      OffsetMonotone(sizes, i, j);
    }
  }

  lemma OffsetStep(sizes: seq<nat>, i: nat)
    requires i < |sizes|
    ensures Sum(sizes[..i + 1]) == Sum(sizes[..i]) + sizes[i]
  {
    assert sizes[..i + 1] == sizes[..i] + [sizes[i]];
    SumAppend(sizes[..i], [sizes[i]]);
  }

  lemma OffsetMonotone(sizes: seq<nat>, i: nat, j: nat)
    requires i <= j <= |sizes|
    ensures Sum(sizes[..i]) <= Sum(sizes[..j])
  {
    assert sizes[..j] == sizes[..i] + sizes[i..j];
    SumAppend(sizes[..i], sizes[i..j]);
  }

  /** For the `array_split` sizes, offset i is `i * (m div k) + min(i, m mod k)`. */
  lemma {:induction false} SplitOffsetsClosedForm(m: nat, k: int, i: nat)
    requires 0 < k && i <= k
    ensures Offsets(SplitSizes(m, k).value)[i] == i * (m / k) + (if i < m % k then i else m % k)
  {
    var s := SplitSizes(m, k).value;
    var q, r := m / k, m % k;
    if i > 0 {
      SplitOffsetsClosedForm(m, k, i - 1);
      OffsetsShape(s);
      var off := Offsets(s);
      assert off[i] == off[i - 1] + s[i - 1];
      assert s[i - 1] == if i - 1 < r then q + 1 else q by {
        SplitSizeAt(m, k, i - 1);
      }
      assert (i - 1) * q + q == i * q;
    }
  }

  lemma SplitSizeAt(m: nat, k: int, i: nat)
    requires 0 <= i < k
    ensures SplitSizes(m, k).value[i] == if i < m % k then m / k + 1 else m / k
  {
    var q, r := m / k, m % k;
    var s := SplitSizes(m, k).value;
    assert s == Repeat(q + 1, r) + Repeat(q, k - r);
    if i >= r {
      assert s[i] == Repeat(q, k - r)[i - r];
    }
  }

  /** Slices `[off[c], off[c+1])` of consecutive offsets are disjoint: a
      position lies in at most one of them (and, by `ChunkIndexOf`, in at
      least one when it is below the total). */
  lemma ChunkUnique(sizes: seq<nat>, p: nat, c: nat, d: nat)
    requires c < |sizes| && d < |sizes|
    requires Offsets(sizes)[c] <= p < Offsets(sizes)[c + 1]
    requires Offsets(sizes)[d] <= p < Offsets(sizes)[d + 1]
    ensures c == d
  {
    var off := Offsets(sizes);
    OffsetsShape(sizes);


  }

  /** The chunk that holds position `p`: the first `c` with `p < off[c+1]`. */
  function ChunkIndexOf(sizes: seq<nat>, p: nat): (c: nat)
    requires p < Sum(sizes)
    ensures c < |sizes| && Offsets(sizes)[c] <= p < Offsets(sizes)[c + 1]
  {
    OffsetsShape(sizes);
    FirstAbove(Offsets(sizes), p, 0)
  }

  /** Linear search for the first `c >= from` with `p < off[c + 1]`. */
  function FirstAbove(off: seq<nat>, p: nat, from: nat): (c: nat)
    requires |off| >= 1 && from < |off| - 1 + 1 && off[from] <= p < off[|off| - 1]
    requires forall i, j :: 0 <= i <= j < |off| ==> off[i] <= off[j]
    ensures from <= c < |off| - 1 && off[c] <= p < off[c + 1]
    decreases |off| - from
  {
    if p < off[from + 1] then from else FirstAbove(off, p, from + 1)
  }

  /** The chunks: chunk i is `rows[off[i]:off[i+1]]`. */
  function Split<T>(rows: seq<T>, sizes: seq<nat>): (cs: seq<seq<T>>)
    requires Sum(sizes) == |rows|
    ensures |cs| == |sizes|
    ensures forall i :: 0 <= i < |sizes| ==> |cs[i]| == sizes[i]
  {
    OffsetsShape(sizes);
    var off := Offsets(sizes);
    seq(|sizes|, i requires 0 <= i < |sizes| => rows[off[i]..off[i + 1]])
  }

  /** Concatenation of the chunks in chunk-id order. */
  function Flatten<T>(cs: seq<seq<T>>): seq<T>
  {
    if cs == [] then [] else cs[0] + Flatten(cs[1..])
  }

  /** The lengths of a list of chunks. */
  function Lengths<T>(cs: seq<seq<T>>): (ls: seq<nat>)
    ensures |ls| == |cs| && forall i :: 0 <= i < |cs| ==> ls[i] == |cs[i]|
  {
    seq(|cs|, i requires 0 <= i < |cs| => |cs[i]|)
  }

  lemma {:induction false} FlattenAppend<T>(a: seq<seq<T>>, b: seq<seq<T>>)
    ensures Flatten(a + b) == Flatten(a) + Flatten(b)
  {
    if a == [] {
      assert a + b == b;
    } else {
      assert (a + b)[1..] == a[1..] + b;
      FlattenAppend(a[1..], b);
    }
  }

  lemma {:induction false} FlattenLength<T>(cs: seq<seq<T>>)
    ensures |Flatten(cs)| == Sum(Lengths(cs))
  {
    if cs != [] {
      assert Lengths(cs)[1..] == Lengths(cs[1..]);
      FlattenLength(cs[1..]);
    }
  }

  /** Element j of chunk c sits at position `off[c] + j` of the concatenation. */
  lemma FlattenAt<T>(cs: seq<seq<T>>, c: nat, j: nat)
    requires c < |cs| && j < |cs[c]|
    ensures Offsets(Lengths(cs))[c] + j < |Flatten(cs)|
    ensures Flatten(cs)[Offsets(Lengths(cs))[c] + j] == cs[c][j]
  {
    var ls := Lengths(cs);
    assert cs == cs[..c] + [cs[c]] + cs[c + 1..];
    FlattenAppend(cs[..c] + [cs[c]], cs[c + 1..]);
    FlattenAppend(cs[..c], [cs[c]]);
    assert Flatten([cs[c]]) == cs[c] by {
      assert [cs[c]][1..] == [];
    }
    FlattenLength(cs[..c]);
    assert Lengths(cs[..c]) == ls[..c];
    FlattenLength(cs);
  }

  /** Concatenating the chunks of `rows` gives `rows` back, whatever the sizes. */
  lemma FlattenSplit<T>(rows: seq<T>, sizes: seq<nat>)
    requires Sum(sizes) == |rows|
    ensures Flatten(Split(rows, sizes)) == rows
  {
    var cs := Split(rows, sizes);
    var off := Offsets(sizes);
    assert Lengths(cs) == sizes;
    OffsetsShape(sizes);
    FlattenLength(cs);
    forall p | 0 <= p < |rows| ensures Flatten(cs)[p] == rows[p] {
      var c := ChunkIndexOf(sizes, p);
      FlattenAt(cs, c, p - off[c]);
    }
  }
}
