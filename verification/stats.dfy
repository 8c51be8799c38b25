/**
 * Exact arithmetic shared by the scripts: sums, means, extrema, the NaN rules of
 * NumPy and pandas means, and compounded growth of a return series.
 */
module Stats {
  import opened Wrappers

  /** Sum of a series, folded from the front. */
  function Sum(xs: seq<real>): real
  {
    if |xs| == 0 then 0.0 else xs[0] + Sum(xs[1..])
  }

  /** Smallest element of a non-empty series. */
  function Min(xs: seq<real>): (m: real)
    requires |xs| > 0
    ensures forall i :: 0 <= i < |xs| ==> m <= xs[i]
  {
    if |xs| == 1 then xs[0]
    else
      var rest := Min(xs[1..]);
      assert forall i :: 1 <= i < |xs| ==> xs[i] == xs[1..][i - 1];
      if xs[0] <= rest then xs[0] else rest
  }

  /** Largest element of a non-empty series. */
  function Max(xs: seq<real>): (m: real)
    requires |xs| > 0
    ensures forall i :: 0 <= i < |xs| ==> xs[i] <= m
  {
    if |xs| == 1 then xs[0]
    else
      var rest := Max(xs[1..]);
      assert forall i :: 1 <= i < |xs| ==> xs[i] == xs[1..][i - 1];
      if xs[0] >= rest then xs[0] else rest
  }

  /** A series bounded element-wise by [lo, hi] has its sum bounded by n*lo and n*hi. */
  lemma {:induction false} SumBounds(xs: seq<real>, lo: real, hi: real)
    requires forall i :: 0 <= i < |xs| ==> lo <= xs[i] <= hi
    ensures |xs| as real * lo <= Sum(xs) <= |xs| as real * hi
  {
    if |xs| > 0 {
      SumBounds(xs[1..], lo, hi);
      var n := (|xs| - 1) as real;
      assert |xs| as real * lo == lo + n * lo;
      assert |xs| as real * hi == hi + n * hi;
    }
  }

  /** The smallest element is one of the entries. */
  lemma {:induction false} MinIsEntry(xs: seq<real>)
    requires |xs| > 0
    ensures Min(xs) in xs
  {
    if |xs| > 1 {
      MinIsEntry(xs[1..]);
      assert Min(xs[1..]) in xs;
    }
  }

  /** The largest element is one of the entries. */
  lemma {:induction false} MaxIsEntry(xs: seq<real>)
    requires |xs| > 0
    ensures Max(xs) in xs
  {
    if |xs| > 1 {
      MaxIsEntry(xs[1..]);
      assert Max(xs[1..]) in xs;
    }
  }

  /** Arithmetic mean of a non-empty series: the sum spread evenly over the entries, between the extremes. */
  function Mean(xs: seq<real>): (m: real)
    requires |xs| > 0
    ensures m * |xs| as real == Sum(xs)
    ensures Min(xs) <= m <= Max(xs)
  {
    MeanBounds(xs, Min(xs), Max(xs));
    Sum(xs) / |xs| as real
  }

  lemma MeanBounds(xs: seq<real>, lo: real, hi: real)
    requires |xs| > 0
    requires forall i :: 0 <= i < |xs| ==> lo <= xs[i] <= hi
    ensures lo <= Sum(xs) / |xs| as real <= hi
    ensures (Sum(xs) / |xs| as real) * |xs| as real == Sum(xs)
  {
    var n := |xs| as real;
    var s := Sum(xs);
    SumBounds(xs, lo, hi);
    DivideBounds(s, n, lo, hi);
  }

  /** Dividing bounds n*lo <= s <= n*hi by a positive n. */
  lemma DivideBounds(s: real, n: real, lo: real, hi: real)
    requires n > 0.0
    requires n * lo <= s <= n * hi
    ensures lo <= s / n <= hi
    ensures (s / n) * n == s
  {
    var q := s / n;
    assert q * n == s;
    assert (q - lo) * n == s - n * lo;
    assert (hi - q) * n == n * hi - s;
    NonNegFactor(q - lo, n);
    NonNegFactor(hi - q, n);
  }

  lemma NonNegFactor(a: real, n: real)
    requires n > 0.0 && a * n >= 0.0
    ensures a >= 0.0
  {
  }

  /** A positive product with a positive factor has a positive other factor. */
  lemma PositiveFactor(a: real, n: real)
    requires n > 0.0 && a * n > 0.0
    ensures a > 0.0
  {
  }

  /** A product of two positive numbers is positive. */
  lemma PositiveProduct(a: real, b: real)
    requires a > 0.0 && b > 0.0
    ensures a * b > 0.0
  {
  }

  /** Every entry is a defined number (no NaN). */
  predicate AllDefined(xs: seq<Option<real>>)
  {
    forall i :: 0 <= i < |xs| ==> xs[i].Some?
  }

  /** The numbers inside a series that holds no NaN. */
  function Values(xs: seq<Option<real>>): (vs: seq<real>)
    requires AllDefined(xs)
    ensures |vs| == |xs|
    ensures forall i :: 0 <= i < |xs| ==> xs[i] == Some(vs[i])
  {
    seq(|xs|, i requires 0 <= i < |xs| => xs[i].value)
  }

  /** The defined entries of a series, in order, with the NaN entries skipped. */
  function DefinedValues(xs: seq<Option<real>>): (vs: seq<real>)
    ensures |vs| <= |xs|
    ensures |vs| == 0 <==> forall i :: 0 <= i < |xs| ==> xs[i].None?
    ensures forall v :: v in vs <==> Some(v) in xs
  {
    if |xs| == 0 then []
    else
      var rest := DefinedValues(xs[1..]);
      assert forall i :: 1 <= i < |xs| ==> xs[i] == xs[1..][i - 1];
      assert forall o :: o in xs <==> o == xs[0] || o in xs[1..];
      match xs[0]
      case Some(v) => [v] + rest
      case None => rest
  }

  /** With no NaN present, skipping NaN keeps every entry. */
  lemma {:induction false} DefinedValuesOfDefined(xs: seq<Option<real>>)
    requires AllDefined(xs)
    ensures DefinedValues(xs) == Values(xs)
  {
    if |xs| > 0 {
      var tail := xs[1..];
      assert AllDefined(tail) by {
        assert forall i :: 0 <= i < |tail| ==> tail[i] == xs[i + 1];
      }
      DefinedValuesOfDefined(tail);
      assert xs[0].Some?;
      var vs := Values(xs);
      assert vs == [xs[0].value] + Values(tail);
    }
  }

  /**
   * `np.mean` of a list that may hold NaN: the result is NaN when any entry is NaN
   * or the list is empty, and the arithmetic mean otherwise.
   */
  function NanMean(xs: seq<Option<real>>): (m: Option<real>)
    ensures m.Some? <==> |xs| > 0 && AllDefined(xs)
    ensures m.Some? ==> m.value == Sum(Values(xs)) / |xs| as real
    ensures m.Some? ==> Min(Values(xs)) <= m.value <= Max(Values(xs))
  {
    if |xs| > 0 && AllDefined(xs) then Some(Mean(Values(xs))) else None
  }

  /**
   * pandas `mean` with `skipna=True`: the mean of the defined entries, NaN only
   * when no entry is defined.
   */
  function SkipNaMean(xs: seq<Option<real>>): (m: Option<real>)
    ensures m.None? <==> forall i :: 0 <= i < |xs| ==> xs[i].None?
    ensures m.Some? ==> exists i :: 0 <= i < |xs| && xs[i].Some? && xs[i].value <= m.value
    ensures m.Some? ==> exists i :: 0 <= i < |xs| && xs[i].Some? && m.value <= xs[i].value
    ensures |xs| > 0 && AllDefined(xs) ==> m == NanMean(xs)
  {
    var vs := DefinedValues(xs);
    assert AllDefined(xs) ==> vs == Values(xs) by {
      if AllDefined(xs) {
        DefinedValuesOfDefined(xs);
      }
    }
    if |vs| == 0 then None
    else
      var m := Mean(vs);
      MinIsEntry(vs);
      MaxIsEntry(vs);
      assert Some(Min(vs)) in xs && Some(Max(vs)) in xs;
      Some(m)
  }

  /** The skipping mean is the arithmetic mean of exactly the defined entries. */
  lemma SkipNaMeanIsMeanOfDefined(xs: seq<Option<real>>)
    requires SkipNaMean(xs).Some?
    ensures var vs := DefinedValues(xs); |vs| > 0 && SkipNaMean(xs).value == Sum(vs) / |vs| as real
  {
  }

  /** Python's `x > t` when x may be NaN: every comparison with NaN is false. */
  predicate Exceeds(x: Option<real>, t: real)
  {
    x.Some? && x.value > t
  }

  /** Compounded growth factor of a return series: the product of (1 + r). */
  function Growth(rs: seq<real>): real
  {
    if |rs| == 0 then 1.0 else (1.0 + rs[0]) * Growth(rs[1..])
  }

  /** Appending one more period multiplies the growth factor by (1 + r). */
  lemma {:induction false} GrowthAppend(rs: seq<real>, x: real)
    ensures Growth(rs + [x]) == Growth(rs) * (1.0 + x)
  {
    if |rs| == 0 {
      assert rs + [x] == [x];
      assert [x][1..] == [];
    } else {
      assert (rs + [x])[1..] == rs[1..] + [x];
      GrowthAppend(rs[1..], x);
      calc {
        Growth(rs + [x]);
        (1.0 + rs[0]) * Growth(rs[1..] + [x]);
        (1.0 + rs[0]) * (Growth(rs[1..]) * (1.0 + x));
        ((1.0 + rs[0]) * Growth(rs[1..])) * (1.0 + x);
      }
    }
  }

  /** If no period loses everything (every r > -1), the growth factor stays positive. */
  lemma {:induction false} GrowthPositive(rs: seq<real>)
    requires forall i :: 0 <= i < |rs| ==> rs[i] > -1.0
    ensures Growth(rs) > 0.0
  {
    if |rs| > 0 {
      assert forall i :: 0 <= i < |rs[1..]| ==> rs[1..][i] == rs[i + 1];
      GrowthPositive(rs[1..]);
      var g := Growth(rs[1..]);
      var a := 1.0 + rs[0];
      PositiveProduct(a, g);
      assert Growth(rs) == a * g;
    }
  }
}
