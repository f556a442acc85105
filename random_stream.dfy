/** The seeded random generator the seeding code threads through a
    tracking chunk (`np.random.RandomState(random_initial_value)`), seen as
    a position in the fixed stream of draws that seed produces. What
    matters for reproducibility across processes is where in the stream a
    chunk starts, so the generator is its stream and its position. */
module RandomStream {
  import opened ChunkPartition

  /** The draws a seeded generator produces, in order: `unit(p)` is the
      p-th uniform sample in [0, 1) and `bounded(p)` the raw integer from
      which the p-th bounded index is taken. */
  datatype Draws = Draws(unit: nat -> real, bounded: nat -> nat)

  /** `(high - low) * u` */
  function Span(w: real, u: real): real
  {
    w * u
  }

  /** `low + (high - low) * u`: what `uniform(low, high)` makes of a unit
      sample. */
  function UniformValue(lo: real, hi: real, u: real): real
  {
    lo + Span(hi - lo, u)
  }

  lemma SpanBelow(w: real, u: real)
    requires w > 0.0 && 0.0 <= u < 1.0
    ensures 0.0 <= Span(w, u) < w
  {
    assert w - w * u == w * (1.0 - u);
  }

  /** A unit sample in [0, 1) lands in [lo, hi). */
  lemma UniformInRange(lo: real, hi: real, u: real)
    requires lo < hi && 0.0 <= u < 1.0
    ensures lo <= UniformValue(lo, hi, u) < hi
  {
    SpanBelow(hi - lo, u);
  }

  /** `np.arange(n)` */
  function Arange(n: nat): (r: seq<nat>)
    ensures |r| == n && forall i :: 0 <= i < n ==> r[i] == i
  {
    seq(n, i requires 0 <= i < n => i)
  }

  /** `s` with the entries at `i` and `j` exchanged. */
  function Swap(s: seq<nat>, i: nat, j: nat): (r: seq<nat>)
    requires i < |s| && j < |s|
    ensures |r| == |s|
  {
    seq(|s|, k requires 0 <= k < |s| => if k == i then s[j] else if k == j then s[i] else s[k])
  }

  lemma SwapPermutes(s: seq<nat>, i: nat, j: nat)
    requires i < |s| && j < |s|
    ensures multiset(Swap(s, i, j)) == multiset(s)
  {
    assert Swap(s, i, j) == s[i := s[j]][j := s[i]];
  }

  /** The first `k` steps of the Fisher-Yates pass started at stream
      position `p`: step `t` (from 0) swaps index `|s| - 1 - t` with the
      index drawn by `bounded(p + t)` modulo `|s| - t`. */
  function ShuffleSteps(d: Draws, p: nat, s: seq<nat>, k: nat): (r: seq<nat>)
    requires k < |s|
    ensures |r| == |s|
  {
    if k == 0 then s
    else
      var i := |s| - k;
      Swap(ShuffleSteps(d, p, s, k - 1), i, d.bounded(p + k - 1) % (i + 1))
  }

  /** `shuffle(s)` started at stream position `p`: all steps, from the
      last index down to 1. */
  function Shuffled(d: Draws, p: nat, s: seq<nat>): (r: seq<nat>)
    ensures |r| == |s|
  {
    if s == [] then [] else ShuffleSteps(d, p, s, |s| - 1)
  }

  /** How many draws a shuffle of `n` entries takes: one per swap. */
  function ShuffleDraws(n: nat): nat
  {
    if n == 0 then 0 else n - 1
  }

  lemma {:induction false} ShuffleStepsPermutes(d: Draws, p: nat, s: seq<nat>, k: nat)
    requires k < |s|
    ensures multiset(ShuffleSteps(d, p, s, k)) == multiset(s)
  {
    if k > 0 {
      var prev := ShuffleSteps(d, p, s, k - 1);
      var i := |s| - k;
      var j := d.bounded(p + k - 1) % (i + 1);
      assert ShuffleSteps(d, p, s, k) == Swap(prev, i, j);
      ShuffleStepsPermutes(d, p, s, k - 1);
      SwapPermutes(prev, i, j);
    }
  }

  lemma {:induction false} ArangeOnce(n: nat, v: nat)
    ensures multiset(Arange(n))[v] == if v < n then 1 else 0
  {
    if n > 0 {
      assert Arange(n) == Arange(n - 1) + [n - 1];
      ArangeOnce(n - 1, v);
    }
  }

  /** Two positions holding the same value count it twice. */
  lemma RepeatedTwice(s: seq<nat>, i: nat, j: nat)
    requires i < j < |s| && s[i] == s[j]
    ensures multiset(s)[s[i]] >= 2
  {
    assert s == s[..i] + [s[i]] + s[i + 1..j] + [s[j]] + s[j + 1..];
  }

  /** The shuffled `np.arange(n)` is a permutation of 0..n-1: every entry
      is below `n`, every index appears, and none appears twice. */
  lemma ShuffledArangeIsPermutation(d: Draws, p: nat, n: nat)
    ensures var s := Shuffled(d, p, Arange(n));
      && |s| == n
      && (forall j :: 0 <= j < n ==> s[j] < n)
      && (forall v :: 0 <= v < n ==> v in s)
      && (forall i, j :: 0 <= i < j < n ==> s[i] != s[j])
  {
    var s := Shuffled(d, p, Arange(n));
    if n > 0 {
      ShuffleStepsPermutes(d, p, Arange(n), n - 1);
    }
    assert multiset(s) == multiset(Arange(n));
    forall j | 0 <= j < n ensures s[j] < n {
      assert s[j] in multiset(s);
      ArangeOnce(n, s[j]);
    }
    forall v | 0 <= v < n ensures v in s {
      ArangeOnce(n, v);
      assert v in multiset(s);
    }
    forall i, j | 0 <= i < j < n ensures s[i] != s[j] {
      if s[i] == s[j] {
        RepeatedTwice(s, i, j);
        ArangeOnce(n, s[i]);
      }
    }
  }

  /** The sizes of the `random_sample` calls that skip `total` draws:
      batches of 100000 while more than 100000 remain, then the rest. */
  function SkipRequests(total: nat): (r: seq<nat>)
    ensures |r| >= 1
    decreases total
  {
    if total > 100000 then [100000] + SkipRequests(total - 100000) else [total]
  }

  /** The skip draws exactly `total` numbers, as full batches followed by
      one final request of at most 100000 that is empty only when nothing
      was to be skipped. */
  lemma {:induction false} SkipRequestsShape(total: nat)
    ensures var r := SkipRequests(total);
      && Sum(r) == total
      && (forall i :: 0 <= i < |r| - 1 ==> r[i] == 100000)
      && r[|r| - 1] <= 100000
      && (total > 0 <==> r[|r| - 1] > 0)
      && (|r| - 1) * 100000 + r[|r| - 1] == total
    decreases total
  {
    var r := SkipRequests(total);
    if total > 100000 {
      SkipRequestsShape(total - 100000);
      assert r[1..] == SkipRequests(total - 100000);
    }
  }

  /** 250000 draws are skipped as two full batches and 50000; 200000 as one
      full batch and a final request of a whole batch. */
  lemma SkipRequestsExamples()
    ensures SkipRequests(250000) == [100000, 100000, 50000]
    ensures SkipRequests(200000) == [100000, 100000]
  {
    assert SkipRequests(50000) == [50000];
    assert SkipRequests(150000) == [100000, 50000];
    assert SkipRequests(100000) == [100000];
  }

  /** A `RandomState` seeded once: its stream of draws and how many of them
      have been consumed. */
  class Generator {
    const draws: Draws
    var pos: nat

    constructor (draws: Draws)
      ensures this.draws == draws && pos == 0
    {
      this.draws := draws;
      pos := 0;
    }

    /** `uniform(lo, hi)`: one draw. */
    method Uniform(lo: real, hi: real) returns (r: real)
      modifies this
      ensures r == UniformValue(lo, hi, draws.unit(old(pos)))
      ensures pos == old(pos) + 1
    {
      r := UniformValue(lo, hi, draws.unit(pos));
      pos := pos + 1;
    }

    /** `random_sample(n)` or `rand(n)` with the samples thrown away. */
    method Discard(n: nat)
      modifies this
      ensures pos == old(pos) + n
    {
      pos := pos + n;
    }

    /** `shuffle(a)` in place: for `i` from the last index down to 1, swap
        entry `i` with an entry drawn from 0..i. */
    method Shuffle(a: array<nat>)
      modifies this, a
      ensures a[..] == Shuffled(draws, old(pos), old(a[..]))
      ensures pos == old(pos) + ShuffleDraws(a.Length)
    {
      pos := ShufflePass(draws, a, pos);
    }
  }

  /** The Fisher-Yates pass of `shuffle` over `a` with the draws from
      position `start` on; it returns the position after the last draw. */
  method ShufflePass(d: Draws, a: array<nat>, start: nat) returns (p: nat)
    modifies a
    ensures a[..] == Shuffled(d, start, old(a[..]))
    ensures p == start + ShuffleDraws(a.Length)
  {
    p := start;
    if a.Length == 0 {
      return;
    }
    ghost var orig := a[..];
    var i := a.Length - 1;
    while i > 0
      invariant 0 <= i < a.Length
      invariant p == start + (a.Length - 1 - i)
      invariant a[..] == ShuffleSteps(d, start, orig, a.Length - 1 - i)
      decreases i
    {
      var j := d.bounded(p) % (i + 1);
      SwapEntries(a, i, j);
      p := p + 1;
      i := i - 1;
    }
  }

  /** Exchanges two entries of `a` in place. */
  method SwapEntries(a: array<nat>, i: nat, j: nat)
    requires i < a.Length && j < a.Length
    modifies a
    ensures a[..] == Swap(old(a[..]), i, j)
  {
    var t := a[i];
    a[i] := a[j];
    a[j] := t;
  }

  /** The skip loop of `init_generator` / `init_pos`: it returns the sizes
      of the batches it asked for. */
  method SkipAhead(g: Generator, total: nat) returns (requests: seq<nat>)
    modifies g
    ensures requests == SkipRequests(total)
    ensures g.pos == old(g.pos) + total
  {
    var toSkip: nat := total;
    requests := [];
    while toSkip > 100000
      invariant toSkip <= total
      invariant requests + SkipRequests(toSkip) == SkipRequests(total)
      invariant g.pos == old(g.pos) + (total - toSkip)
      decreases toSkip
    {
      g.Discard(100000);
      requests := requests + [100000];
      toSkip := toSkip - 100000;
    }
    g.Discard(toSkip);
    requests := requests + [toSkip];
  }

  /** The seed order a prepared generator uses: `Arange(n)` shuffled from
      the start of the stream, a permutation of `0..n-1`. */
  function ShuffledIndices(d: Draws, n: nat): (s: seq<nat>)
    ensures s == Shuffled(d, 0, Arange(n))
    ensures |s| == n && forall j :: 0 <= j < n ==> s[j] < n
  {
    ShuffledArangeIsPermutation(d, 0, n);
    Shuffled(d, 0, Arange(n))
  }

  /** Where the generator stands once a chunk starting at seed `first` has
      been prepared over `n` seed voxels: past the shuffle and the three
      draws of each earlier seed. */
  function InitPosition(n: nat, first: nat): nat
  {
    ShuffleDraws(n) + 3 * first
  }
}
