/** Running maxima over values that may be `-inf`, as `maps_from_sh` keeps
    them: per row inside a worker, then per chunk when the results are
    combined. The combinator is associative, commutative and idempotent, so
    the combined maximum does not depend on how the rows were chunked nor on
    the order in which the chunks come back. */
module MaxReduction {
  import opened ChunkPartition
  import opened ChunkEngine

  /** A float that may be `-np.inf`. */
  datatype Extended = NegInf | Finite(v: real)

  predicate Le(a: Extended, b: Extended)
  {
    a.NegInf? || (b.Finite? && a.v <= b.v)
  }

  /** Python's `max(a, b)` / `np.maximum(a, b)`. */
  function Max(a: Extended, b: Extended): (r: Extended)
    ensures Le(a, r) && Le(b, r) && (r == a || r == b)
  {
    if Le(a, b) then b else a
  }

  /** `acc = init; for x in xs: acc = max(acc, x)`. */
  function FoldMax(init: Extended, xs: seq<Extended>): Extended
  {
    if xs == [] then init else Max(FoldMax(init, xs[..|xs| - 1]), xs[|xs| - 1])
  }

  /** One more step of the fold. */
  lemma FoldMaxSnoc(init: Extended, xs: seq<Extended>, i: nat)
    requires i < |xs|
    ensures FoldMax(init, xs[..i + 1]) == Max(FoldMax(init, xs[..i]), xs[i])
  {
    assert xs[..i + 1][..i] == xs[..i];
  }

  /** The fold is the largest of `init` and the elements. */
  lemma {:induction false} FoldMaxIsMaximum(init: Extended, xs: seq<Extended>)
    ensures Le(init, FoldMax(init, xs))
    ensures forall i :: 0 <= i < |xs| ==> Le(xs[i], FoldMax(init, xs))
    ensures FoldMax(init, xs) == init || FoldMax(init, xs) in xs
  {
    if xs != [] {
      var front := xs[..|xs| - 1];
      FoldMaxIsMaximum(init, front);
      assert forall i :: 0 <= i < |front| ==> front[i] == xs[i];
    }
  }

  /** Two folds over the same values, in whatever order and with whatever
      repetitions, give the same maximum. */
  lemma FoldMaxOrderFree(init: Extended, xs: seq<Extended>, ys: seq<Extended>)
    requires forall x :: x in xs <==> x in ys
    ensures FoldMax(init, xs) == FoldMax(init, ys)
  {
    FoldMaxIsMaximum(init, xs);
    FoldMaxIsMaximum(init, ys);
  }

  /** Folding a concatenation folds the second part from the first's result. */
  lemma {:induction false} FoldMaxAppend(init: Extended, a: seq<Extended>, b: seq<Extended>)
    ensures FoldMax(init, a + b) == FoldMax(FoldMax(init, a), b)
    decreases |b|
  {
    if b == [] {
      assert a + b == a;
    } else {
      assert (a + b)[..|a + b| - 1] == a + b[..|b| - 1];
      FoldMaxAppend(init, a, b[..|b| - 1]);
    }
  }

  /** Max is associative and commutative. */
  lemma MaxAssociative(a: Extended, b: Extended, c: Extended)
    ensures Max(Max(a, b), c) == Max(a, Max(b, c))
    ensures Max(a, b) == Max(b, a)
  {
  }

  /** Starting a fold from a value the fold reaches anyway changes nothing. */
  lemma {:induction false} FoldMaxFrom(init: Extended, x: Extended, xs: seq<Extended>)
    ensures FoldMax(Max(init, x), xs) == Max(FoldMax(init, xs), x)
    decreases |xs|
  {
    if xs != [] {
      FoldMaxFrom(init, x, xs[..|xs| - 1]);
      MaxAssociative(FoldMax(init, xs[..|xs| - 1]), x, xs[|xs| - 1]);
      MaxAssociative(FoldMax(init, xs[..|xs| - 1]), xs[|xs| - 1], x);
    }
  }

  /** Combining per-chunk maxima (each chunk folded from -inf) from `init`
      gives the maximum over all the rows of all the chunks. */
  lemma {:induction false} FoldOfChunkMaxima(init: Extended, cs: seq<seq<Extended>>)
    ensures FoldMax(init, seq(|cs|, i requires 0 <= i < |cs| => FoldMax(NegInf, cs[i]))) == FoldMax(init, Flatten(cs))
    decreases |cs|
  {
    var ms := seq(|cs|, i requires 0 <= i < |cs| => FoldMax(NegInf, cs[i]));
    if cs != [] {
      var last := cs[|cs| - 1];
      var front := cs[..|cs| - 1];
      FoldOfChunkMaxima(init, front);
      assert ms[..|ms| - 1] == seq(|front|, i requires 0 <= i < |front| => FoldMax(NegInf, front[i]));
      assert cs == front + [last];
      FlattenAppend(front, [last]);
      assert Flatten([last]) == last by {
        assert [last][1..] == [];
      }
      FoldMaxAppend(init, Flatten(front), last);
      FoldMaxFromNegInf(FoldMax(init, Flatten(front)), last);
    }
  }

  /** Folding from `init` is `max(init, fold from -inf)`. */
  lemma {:induction false} FoldMaxFromNegInf(init: Extended, xs: seq<Extended>)
    ensures FoldMax(init, xs) == Max(init, FoldMax(NegInf, xs))
    decreases |xs|
  {
    if xs != [] {
      FoldMaxFromNegInf(init, xs[..|xs| - 1]);
      MaxAssociative(init, FoldMax(NegInf, xs[..|xs| - 1]), xs[|xs| - 1]);
    }
  }

  /** Chunks that each start their running maximum from 0 (`max_odf = 0`),
      combined from -inf, give the maximum of 0 and every row value, as
      long as there is at least one chunk. */
  lemma {:induction false} FoldOfZeroStartedChunkMaxima(cs: seq<seq<Extended>>)
    requires |cs| > 0
    ensures FoldMax(NegInf, seq(|cs|, i requires 0 <= i < |cs| => FoldMax(Finite(0.0), cs[i])))
      == FoldMax(Finite(0.0), Flatten(cs))
    decreases |cs|
  {
    var zero := Finite(0.0);
    var ms := seq(|cs|, i requires 0 <= i < |cs| => FoldMax(zero, cs[i]));
    var last := cs[|cs| - 1];
    var front := cs[..|cs| - 1];
    assert cs == front + [last];
    FlattenAppend(front, [last]);
    assert Flatten([last]) == last by {
      assert [last][1..] == [];
    }
    if |cs| == 1 {
      assert front == [];
      assert ms[..0] == [];
    } else {
      FoldOfZeroStartedChunkMaxima(front);
      assert ms[..|ms| - 1] == seq(|front|, i requires 0 <= i < |front| => FoldMax(zero, front[i]));
      var a := FoldMax(zero, Flatten(front));
      FoldMaxAppend(zero, Flatten(front), last);
      FoldMaxFromNegInf(a, last);
      FoldMaxFromNegInf(zero, last);
      FoldMaxIsMaximum(zero, Flatten(front));
      MaxAssociative(a, zero, FoldMax(NegInf, last));
    }
  }

  /** The two running maxima a `maps_from_sh_parallel` worker hands back
      with its chunk: `max_odf` and `global_max`. */
  datatype ChunkMaxima = ChunkMaxima(maxOdf: Extended, globalMax: Extended)

  function OdfMaxima(rs: seq<ChunkMaxima>): (xs: seq<Extended>)
    ensures |xs| == |rs| && forall t :: 0 <= t < |rs| ==> xs[t] == rs[t].maxOdf
  {
    seq(|rs|, t requires 0 <= t < |rs| => rs[t].maxOdf)
  }

  function GlobalMaxima(rs: seq<ChunkMaxima>): (xs: seq<Extended>)
    ensures |xs| == |rs| && forall t :: 0 <= t < |rs| ==> xs[t] == rs[t].globalMax
  {
    seq(|rs|, t requires 0 <= t < |rs| => rs[t].globalMax)
  }

  /** The combination of lines 378-383 as intended: both running maxima
      start at -inf and each folds in its own per-chunk value, so each ends
      as the maximum of -inf and the chunks' values. */
  function CombineMaxima(rs: seq<ChunkMaxima>): (c: ChunkMaxima)
    ensures c.maxOdf == FoldMax(NegInf, OdfMaxima(rs))
    ensures c.globalMax == FoldMax(NegInf, GlobalMaxima(rs))
  {
    if rs == [] then ChunkMaxima(NegInf, NegInf)
    else
      var front := rs[..|rs| - 1];
      var c := CombineMaxima(front);
      assert OdfMaxima(rs)[..|rs| - 1] == OdfMaxima(front);
      assert GlobalMaxima(rs)[..|rs| - 1] == GlobalMaxima(front);
      ChunkMaxima(Max(c.maxOdf, rs[|rs| - 1].maxOdf), Max(c.globalMax, rs[|rs| - 1].globalMax))
  }

  /** The combination of lines 378-383 as written: line 382 reads
      `all_time_max_odf = max(all_time_global_max, max_odf)`, so after the
      loop `all_time_max_odf` only combines the last chunk's `max_odf` with
      the global maxima of the chunks before it. */
  function CombineAsWritten(rs: seq<ChunkMaxima>): (c: ChunkMaxima)
    ensures c.globalMax == FoldMax(NegInf, GlobalMaxima(rs))
    ensures rs == [] ==> c.maxOdf == NegInf
    ensures rs != [] ==> c.maxOdf == Max(FoldMax(NegInf, GlobalMaxima(rs[..|rs| - 1])), rs[|rs| - 1].maxOdf)
  {
    if rs == [] then ChunkMaxima(NegInf, NegInf)
    else
      var front := rs[..|rs| - 1];
      var c := CombineAsWritten(front);
      assert GlobalMaxima(rs)[..|rs| - 1] == GlobalMaxima(front);
      ChunkMaxima(Max(c.globalMax, rs[|rs| - 1].maxOdf), Max(c.globalMax, rs[|rs| - 1].globalMax))
  }

  /** Two chunks whose voxels all fall in the `elif` branch without peaks
      (no global maximum), the larger ODF sum in the first: as written the
      reduction reports the second chunk's sum, while the maximum is the
      first one's. */
  lemma AsWrittenLosesMaxOdf()
    ensures var rs := [ChunkMaxima(Finite(5.0), NegInf), ChunkMaxima(Finite(1.0), NegInf)];
      && CombineAsWritten(rs).maxOdf == Finite(1.0)
      && CombineMaxima(rs).maxOdf == Finite(5.0)
  {
    var rs := [ChunkMaxima(Finite(5.0), NegInf), ChunkMaxima(Finite(1.0), NegInf)];
    assert rs[..1] == [rs[0]];
    assert [rs[0]][..0] == [];
  }

  /** The intended combination does not depend on the order in which the
      chunks arrive. */
  lemma CombineMaximaOrderFree(arrived: seq<ChunkMaxima>, byId: seq<ChunkMaxima>, order: seq<nat>)
    requires IsCompletionOrder(order, |byId|)
    requires |arrived| == |order| && forall t :: 0 <= t < |order| ==> arrived[t] == byId[order[t]]
    ensures CombineMaxima(arrived) == CombineMaxima(byId)
  {
    SameElements(OdfMaxima(arrived), OdfMaxima(byId), order);
    SameElements(GlobalMaxima(arrived), GlobalMaxima(byId), order);
    FoldMaxOrderFree(NegInf, OdfMaxima(arrived), OdfMaxima(byId));
    FoldMaxOrderFree(NegInf, GlobalMaxima(arrived), GlobalMaxima(byId));
  }

  /** Per-chunk maxima, arriving in any completion order, combine to the
      maxima over all the chunks' values: from 0 for `max_odf`, from -inf
      for `global_max`. */
  lemma CombineChunkMaxima(arrived: seq<ChunkMaxima>, order: seq<nat>, odfs: seq<seq<Extended>>, globals: seq<seq<Extended>>)
    requires |odfs| > 0 && |globals| == |odfs| && IsCompletionOrder(order, |odfs|)
    requires |arrived| == |order|
    requires forall t :: 0 <= t < |order| ==>
      arrived[t] == ChunkMaxima(FoldMax(Finite(0.0), odfs[order[t]]), FoldMax(NegInf, globals[order[t]]))
    ensures CombineMaxima(arrived) == ChunkMaxima(FoldMax(Finite(0.0), Flatten(odfs)), FoldMax(NegInf, Flatten(globals)))
  {
    var k := |odfs|;
    var byId := seq(k, i requires 0 <= i < k => ChunkMaxima(FoldMax(Finite(0.0), odfs[i]), FoldMax(NegInf, globals[i])));
    CombineMaximaOrderFree(arrived, byId, order);
    assert OdfMaxima(byId) == seq(k, i requires 0 <= i < k => FoldMax(Finite(0.0), odfs[i]));
    assert GlobalMaxima(byId) == seq(k, i requires 0 <= i < k => FoldMax(NegInf, globals[i]));
    FoldOfZeroStartedChunkMaxima(odfs);
    FoldOfChunkMaxima(NegInf, globals);
  }

  /** The loop of lines 378-383, with line 382 folding `max_odf` into
      `all_time_max_odf`: after it, each running maximum is the combination
      of its per-chunk values in arrival order. */
  method CombineResults(maxima: seq<ChunkMaxima>) returns (c: ChunkMaxima)
    ensures c == CombineMaxima(maxima)
  {
    var allTimeMaxOdf, allTimeGlobalMax := NegInf, NegInf;
    for t := 0 to |maxima|
      invariant ChunkMaxima(allTimeMaxOdf, allTimeGlobalMax) == CombineMaxima(maxima[..t])
    {
      assert maxima[..t + 1][..t] == maxima[..t];
      allTimeMaxOdf := Max(allTimeMaxOdf, maxima[t].maxOdf);
      allTimeGlobalMax := Max(allTimeGlobalMax, maxima[t].globalMax);
    }
    assert maxima[..|maxima|] == maxima;
    c := ChunkMaxima(allTimeMaxOdf, allTimeGlobalMax);
  }
}
