/**
  Aggregates the tool computes over its logs: distinct values, the
  category histogram, sums and means of numbers, and percentages.
 */
module Statistics {
  import opened Wrappers
  import opened PyValues

  /** `set(cs)`. */
  function Distinct(cs: seq<string>): set<string>
  {
    set c | c in cs
  }

  /** A non-empty list has at least one and at most as many distinct values as elements. */
  lemma {:induction false} DistinctBounds(cs: seq<string>)
    ensures |Distinct(cs)| <= |cs|
    ensures |cs| > 0 ==> |Distinct(cs)| >= 1
  {
    if cs != [] {
      var init, c := cs[..|cs| - 1], cs[|cs| - 1];
      DistinctBounds(init);
      assert cs == init + [c];
      assert Distinct(cs) == Distinct(init) + {c};
    }
  }

  /** The dictionary filled by `d[c] = d.get(c, 0) + 1` for each `c` of `cs`. */
  function Histogram(cs: seq<string>): map<string, nat>
  {
    if cs == [] then map[]
    else
      var h, c := Histogram(cs[..|cs| - 1]), cs[|cs| - 1];
      h[c := (if c in h then h[c] else 0) + 1]
  }

  /** The histogram's keys are the distinct values and each count is the
      number of occurrences of its key. */
  lemma {:induction false} HistogramCounts(cs: seq<string>)
    ensures Histogram(cs).Keys == Distinct(cs)
    ensures forall k :: k in Histogram(cs) ==> Histogram(cs)[k] == multiset(cs)[k]
  {
    if cs != [] {
      var init, c := cs[..|cs| - 1], cs[|cs| - 1];
      HistogramCounts(init);
      assert cs == init + [c];
      assert Distinct(cs) == Distinct(init) + {c};
      assert multiset(cs) == multiset(init) + multiset{c};
      assert c !in Histogram(init) ==> multiset(init)[c] == 0;
    }
  }

  /** Sum of `m[k]` over the keys `ks` (0 for a key absent from `m`). */
  ghost function SumOver(m: map<string, nat>, ks: set<string>): nat
    decreases ks
  {
    if ks == {} then 0
    else
      var k :| k in ks;
      (if k in m then m[k] else 0) + SumOver(m, ks - {k})
  }

  /** Sum of all the values of `m`. */
  ghost function Total(m: map<string, nat>): nat
  {
    SumOver(m, m.Keys)
  }

  /** Any key may be taken out of the sum first. */
  lemma {:induction false} SumOverRemove(m: map<string, nat>, ks: set<string>, k: string)
    requires k in ks
    ensures SumOver(m, ks) == (if k in m then m[k] else 0) + SumOver(m, ks - {k})
    decreases ks
  {
    var j :| j in ks && SumOver(m, ks) == (if j in m then m[j] else 0) + SumOver(m, ks - {j});
    if j != k {
      SumOverRemove(m, ks - {j}, k);
      SumOverRemove(m, ks - {k}, j);
      assert ks - {j} - {k} == ks - {k} - {j};
    }
  }

  /** The sum over `ks` only reads the values under `ks`. */
  lemma {:induction false} SumOverFrame(m1: map<string, nat>, m2: map<string, nat>, ks: set<string>)
    requires forall k :: k in ks ==> (k in m1 <==> k in m2) && (k in m1 ==> m1[k] == m2[k])
    ensures SumOver(m1, ks) == SumOver(m2, ks)
    decreases ks
  {
    if ks != {} {
      var k :| k in ks && SumOver(m1, ks) == (if k in m1 then m1[k] else 0) + SumOver(m1, ks - {k});
      SumOverRemove(m2, ks, k);
      SumOverFrame(m1, m2, ks - {k});
    }
  }

  /** Counting one more occurrence raises the histogram's total by one. */
  lemma TotalIncrement(h: map<string, nat>, c: string)
    ensures Total(h[c := (if c in h then h[c] else 0) + 1]) == Total(h) + 1
  {
    var h' := h[c := (if c in h then h[c] else 0) + 1];
    SumOverRemove(h', h'.Keys, c);
    SumOverFrame(h', h, h.Keys - {c});
    assert h'.Keys - {c} == h.Keys - {c};
    if c in h {
      SumOverRemove(h, h.Keys, c);
    } else {
      assert h.Keys - {c} == h.Keys;
    }
  }

  /** The histogram's counts add up to the length of the list. */
  lemma {:induction false} HistogramTotal(cs: seq<string>)
    ensures Total(Histogram(cs)) == |cs|
  {
    if cs != [] {
      HistogramTotal(cs[..|cs| - 1]);
      TotalIncrement(Histogram(cs[..|cs| - 1]), cs[|cs| - 1]);
    }
  }

  /** Sum of a list of numbers, left to right. */
  function Sum(rs: seq<real>): real
  {
    if rs == [] then 0.0 else Sum(rs[..|rs| - 1]) + rs[|rs| - 1]
  }

  /** `sum(rs) / len(rs)`. */
  function Mean(rs: seq<real>): real
    requires |rs| > 0
  {
    Sum(rs) / |rs| as real
  }

  /** A sum of numbers each in [lo, hi] lies between |rs|*lo and |rs|*hi. */
  lemma {:induction false} SumBounds(rs: seq<real>, lo: real, hi: real)
    requires forall i :: 0 <= i < |rs| ==> lo <= rs[i] <= hi
    ensures lo * |rs| as real <= Sum(rs) <= hi * |rs| as real
  {
    if rs != [] {
      var n := |rs| - 1;
      SumBounds(rs[..n], lo, hi);
      assert lo * (n + 1) as real == lo * n as real + lo;
      assert hi * (n + 1) as real == hi * n as real + hi;
    }
  }

  /** A mean of numbers each in [lo, hi] lies in [lo, hi]. */
  lemma MeanBounds(rs: seq<real>, lo: real, hi: real)
    requires |rs| > 0
    requires forall i :: 0 <= i < |rs| ==> lo <= rs[i] <= hi
    ensures lo <= Mean(rs) <= hi
  {
    SumBounds(rs, lo, hi);
    var n := |rs| as real;
    assert Sum(rs) == Mean(rs) * n;
  }

  /** Python's `sum(vs)`: every element must be a number (TypeError otherwise). */
  predicate AllNumeric(vs: seq<Value>)
  {
    forall i :: 0 <= i < |vs| ==> Numeric(vs[i]).Some?
  }

  /** The numbers the values of `vs` stand for. */
  function Numbers(vs: seq<Value>): (rs: seq<real>)
    requires AllNumeric(vs)
    ensures |rs| == |vs|
    ensures forall i :: 0 <= i < |vs| ==> Some(rs[i]) == Numeric(vs[i])
  {
    seq(|vs|, i requires 0 <= i < |vs| => Numeric(vs[i]).value)
  }

  /** `part / whole * 100`: a share of a whole, as a percentage. */
  function Percent(part: nat, whole: nat): (p: real)
    requires whole > 0
    ensures 0.0 <= p
    ensures part <= whole ==> p <= 100.0
    ensures part > 0 <==> p > 0.0
    ensures part == whole <==> p == 100.0
  {
    part as real / whole as real * 100.0
  }
}
