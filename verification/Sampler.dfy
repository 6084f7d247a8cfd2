/** fcyc.c: the K-best scheme.  Measurements are arbitrary reals. */
module Sampler {
  import opened Arithmetic

  /** x goes behind everything that is not larger, looking from the end. */
  function Insert(s: seq<real>, x: real): (r: seq<real>)
    ensures |r| == |s| + 1
  {
    var n := |s|;
    if n == 0 || s[n - 1] <= x then s + [x] else Insert(s[..n - 1], x) + [s[n - 1]]
  }

  /** The kept values after one more sample. */
  function Keep(s: seq<real>, k: nat, x: real): (r: seq<real>)
    requires 0 < k && |s| <= k
    ensures |r| == Min(k, |s| + 1)
  {
    if |s| < k then Insert(s, x) else if x < s[k - 1] then Insert(s[..k - 1], x) else s
  }

  function Kept(samples: seq<real>, k: nat): (r: seq<real>)
    requires 0 < k
    ensures |r| == Min(k, |samples|)
  {
    if samples == [] then [] else Keep(Kept(samples[..|samples| - 1], k), k, samples[|samples| - 1])
  }

  lemma KeptAppend(samples: seq<real>, k: nat, x: real)
    requires 0 < k
    ensures Kept(samples + [x], k) == Keep(Kept(samples, k), k, x)
  {
    assert (samples + [x])[..|samples|] == samples;
  }

  /** All samples in order. */
  function Sorting(samples: seq<real>): (r: seq<real>)
    ensures |r| == |samples|
  {
    if samples == [] then [] else Insert(Sorting(samples[..|samples| - 1]), samples[|samples| - 1])
  }

  ghost predicate Sorted(s: seq<real>) {
    forall i, j :: 0 <= i < j < |s| ==> s[i] <= s[j]
  }

  lemma {:induction false} InsertAt(s: seq<real>, x: real, pos: nat)
    requires pos <= |s| && (pos == 0 || s[pos - 1] <= x) && forall j :: pos <= j < |s| ==> x < s[j]
    ensures Insert(s, x) == s[..pos] + [x] + s[pos..]
  {
    var n := |s|;
    if pos < n {
      InsertAt(s[..n - 1], x, pos);
      assert s[..n - 1][pos..] + [s[n - 1]] == s[pos..];
      assert s[..n - 1][..pos] == s[..pos];
    }
  }

  lemma InsertKeepsOrder(s: seq<real>, x: real)
    requires Sorted(s)
    ensures Sorted(Insert(s, x)) && multiset(Insert(s, x)) == multiset(s) + multiset{x}
  {
    hide Insert, Sorted, Opened;
    var pos := Position(s, x);
    var r := Insert(s, x);
    InsertAt(s, x, pos);
    assert Opened(r, s, x, pos) by { OpenedIs(s, x, pos); }
    OpenedSorted(r, s, x, pos);
    assert multiset(s) == multiset(s[..pos]) + multiset(s[pos..]) by {
      assert s == s[..pos] + s[pos..];
    }
  }

  lemma OpenedIs(s: seq<real>, x: real, pos: nat)
    requires pos <= |s| && forall j :: pos <= j < |s| ==> x < s[j]
    ensures Opened(s[..pos] + [x] + s[pos..], s, x, pos)
  {
  }

  /** v is s with room made for x at pos. */
  ghost predicate Opened(v: seq<real>, s: seq<real>, x: real, pos: nat) {
    && pos <= |s| && |v| == |s| + 1 && v[pos] == x
    && (forall j :: 0 <= j < pos ==> v[j] == s[j])
    && (forall j :: pos <= j < |s| ==> v[j + 1] == s[j] && x < s[j])
  }

  lemma OpenedSorted(v: seq<real>, s: seq<real>, x: real, pos: nat)
    requires Sorted(s) && Opened(v, s, x, pos) && forall j :: 0 <= j < pos ==> s[j] <= x
    ensures Sorted(v)
  {
    forall i, j | 0 <= i < j < |v| ensures v[i] <= v[j] {
      assert (i > pos ==> v[i] == s[i - 1]) && (j > pos ==> v[j] == s[j - 1] && x < s[j - 1]);
    }
  }

  lemma {:induction false} SortingSorts(samples: seq<real>)
    ensures Sorted(Sorting(samples)) && multiset(Sorting(samples)) == multiset(samples)
  {
    var n := |samples|;
    if n > 0 {
      SortingSorts(samples[..n - 1]);
      InsertKeepsOrder(Sorting(samples[..n - 1]), samples[n - 1]);
      assert samples == samples[..n - 1] + [samples[n - 1]];
    }
  }

  /** Inserting into the first k and cutting is cutting after inserting. */
  lemma InsertPrefix(s: seq<real>, x: real, k: nat)
    requires Sorted(s) && 0 < k
    ensures Insert(s, x)[..Min(k, |s| + 1)] == Keep(s[..Min(k, |s|)], k, x)
  {
    hide Insert, Sorted;
    if k <= |s| {
      var pos := Position(s, x);
      InsertAt(s, x, pos);
      var first := s[..k - 1];
      assert s[..k][..k - 1] == first && s[..k][k - 1] == s[k - 1];
      if pos < k {
        assert Insert(first, x) == first[..pos] + [x] + first[pos..] by { InsertAt(first, x, pos); }
        assert first[..pos] == s[..pos];
      }
    } else {
      assert s[..|s|] == s && Insert(s, x)[..|s| + 1] == Insert(s, x);
    }
  }

  /** Where x goes in a sorted sequence. */
  lemma {:induction false} Position(s: seq<real>, x: real) returns (pos: nat)
    requires Sorted(s)
    ensures pos <= |s| && (forall j :: 0 <= j < pos ==> s[j] <= x) && forall j :: pos <= j < |s| ==> x < s[j]
  {
    pos := |s|;
    if s != [] && x < s[|s| - 1] {
      pos := Position(s[..|s| - 1], x);
    }
  }

  /** The kept values are the first of all samples in order: the k smallest, sorted. */
  lemma {:induction false} KeptAreSmallest(samples: seq<real>, k: nat)
    requires 0 < k
    ensures Kept(samples, k) == Sorting(samples)[..Min(k, |samples|)]
  {
    SortingSorts(samples);
    var n := |samples|;
    if n > 0 {
      var some := samples[..n - 1];
      KeptAreSmallest(some, k);
      SortingSorts(some);
      InsertPrefix(Sorting(some), samples[n - 1], k);
    }
  }

  class State {
    var kbest: int
    var maxSamples: int
    var epsilon: real
    var values: array<real>
    var sampleCount: nat
    ghost var seen: seq<real>

    /** The values are those kept from the samples seen since the sampler was started. */
    ghost predicate Valid()
      reads this, values
    {
      && 0 < kbest == values.Length && sampleCount == |seen|
      && values[..Min(kbest, sampleCount)] == Kept(seen, kbest)
    }

    /** init_sampler */
    method InitSampler()
      requires kbest > 0
      modifies this
      ensures Valid() && fresh(values) && seen == []
      ensures kbest == old(kbest) && maxSamples == old(maxSamples) && epsilon == old(epsilon)
    {
      values := new real[kbest];
      sampleCount := 0;
      seen := [];
    }

    /** add_sample */
    method AddSample(val: real)
      requires Valid()
      modifies this`sampleCount, this`seen, values
      ensures Valid() && seen == old(seen) + [val]
    {
      hide Insert, Kept;
      ghost var kept := Kept(seen, kbest);
      var pos := 0;
      if sampleCount < kbest {
        pos := sampleCount;
        values[pos] := val;
      } else if val < values[kbest - 1] {
        pos := kbest - 1;
        values[pos] := val;
      }
      sampleCount := sampleCount + 1;
      ghost var s := values[..pos];
      ghost var x := values[pos];
      ghost var rest := values[pos + 1..];
      assert |kept| == kbest ==> old(values[..]) == kept;
      assert sampleCount <= kbest || val < kept[kbest - 1] ==>
               s == kept[..pos] && x == val && (pos == |kept| || pos == kbest - 1 == |kept| - 1);
      Bubble(pos);
      assert values[..] == Insert(s, x) + rest;
      InsertAt([], x, 0);
      assert values[..Min(kbest, sampleCount)] == Keep(kept, kbest, val);
      KeptAppend(seen, kbest, val);
      seen := seen + [val];
    }

    /** The insertion sort at the end of add_sample (lines 82-87). */
    method Bubble(last: nat)
      requires last < values.Length
      modifies values
      ensures values[..] == Insert(old(values[..last]), old(values[last])) + old(values[last + 1..])
    {
      var pos := last;
      ghost var s := values[..last];
      ghost var x := values[last];
      while pos > 0 && values[pos - 1] > values[pos]
        invariant 0 <= pos <= last
        invariant Opened(values[..last + 1], s, x, pos)
        invariant values[last + 1..] == old(values[last + 1..])
      {
        var temp := values[pos - 1];
        values[pos - 1] := values[pos];
        values[pos] := temp;
        pos := pos - 1;
      }
      InsertAt(s, x, pos);
      assert values[..last + 1] == s[..pos] + [x] + s[pos..] by {
        ghost var v := values[..last + 1];
        assert forall j :: pos < j <= last ==> v[j] == s[j - 1];
      }
      assert values[..] == values[..last + 1] + values[last + 1..];
    }

    /** has_converged */
    method HasConverged() returns (converged: bool)
      requires Valid()
      ensures converged == Converged(seen, kbest, epsilon)
    {
      hide Kept, Sorting, Scaled;
      if sampleCount < kbest {
        return false;
      }
      KeptAreSmallest(seen, kbest);
      ghost var all := Sorting(seen);
      assert values[0] == all[0] && values[kbest - 1] == all[kbest - 1] by {
        assert values[..kbest] == all[..kbest];
      }
      converged := (1.0 + epsilon) * values[0] >= values[kbest - 1];
      ScaledIs(values[0], epsilon);
    }

    /** fcyc; the i-th call of the function takes samples(i), and n calls are made. */
    method Fcyc(samples: nat -> real) returns (result: real, n: nat)
      requires kbest > 0
      modifies this
      ensures kbest == old(kbest) && maxSamples == old(maxSamples) && epsilon == old(epsilon)
      ensures n > 0 && result == Sorting(First(samples, n))[0]
      ensures Stops(samples, n, kbest, maxSamples, epsilon)
      ensures forall m :: 0 < m < n ==> !Stops(samples, m, kbest, maxSamples, epsilon)
    {
      hide Kept, Sorting, Converged;
      InitSampler();
      n := 0;
      var again := true;
      while again
        invariant Valid() && fresh(values) && seen == First(samples, n)
        invariant kbest == old(kbest) && maxSamples == old(maxSamples) && epsilon == old(epsilon)
        invariant again <==> n == 0 || !Stops(samples, n, kbest, maxSamples, epsilon)
        invariant forall m :: 0 < m < n ==> !Stops(samples, m, kbest, maxSamples, epsilon)
        decreases if again then 1 else 0, maxSamples - n
      {
        AddSample(samples(n));
        n := n + 1;
        var converged := HasConverged();
        again := !converged && sampleCount < maxSamples;
      }
      KeptAreSmallest(seen, kbest);
      result := values[0];
    }
  }

  // ------------------------------------------------------------------ when sampling stops

  /** The first n samples. */
  function First(samples: nat -> real, n: nat): (r: seq<real>)
    ensures |r| == n && forall i :: 0 <= i < n ==> r[i] == samples(i)
  {
    if n == 0 then [] else First(samples, n - 1) + [samples(n - 1)]
  }

  /** The factor 1 + epsilon applied to a sample. */
  function Scaled(low: real, epsilon: real): real { (1.0 + epsilon) * low }

  lemma ScaledIs(low: real, epsilon: real)
    ensures Scaled(low, epsilon) == (1.0 + epsilon) * low
  {
  }

  /** At least k samples, the k-th smallest within the factor 1 + epsilon of the smallest. */
  ghost predicate Converged(seen: seq<real>, k: int, epsilon: real)
    requires k > 0
  {
    |seen| >= k && Scaled(Sorting(seen)[0], epsilon) >= Sorting(seen)[k - 1]
  }

  ghost predicate Stops(samples: nat -> real, n: nat, k: int, maxSamples: int, epsilon: real)
    requires k > 0
  {
    Converged(First(samples, n), k, epsilon) || n >= maxSamples
  }

  /** The least of the samples. */
  function Least(seen: seq<real>): (r: real)
    requires seen != []
    ensures (exists i :: 0 <= i < |seen| && seen[i] == r) && forall i :: 0 <= i < |seen| ==> r <= seen[i]
  {
    var n := |seen| - 1;
    if n == 0 then seen[0]
    else
      var r := Least(seen[..n]);
      if seen[n] < r then seen[n] else r
  }

  /** How many samples are at most the bound. */
  function AtMost(seen: seq<real>, bound: real): (r: nat)
    ensures r <= |seen|
  {
    if seen == [] then 0
    else AtMost(seen[..|seen| - 1], bound) + if seen[|seen| - 1] <= bound then 1 else 0
  }

  lemma {:induction false} InsertCounts(s: seq<real>, x: real, bound: real)
    ensures AtMost(Insert(s, x), bound) == AtMost(s, bound) + if x <= bound then 1 else 0
  {
    var n := |s|;
    var r := Insert(s, x);
    if n == 0 || s[n - 1] <= x {
      assert r[..n] == s;
    } else {
      assert r[..n] == Insert(s[..n - 1], x);
      InsertCounts(s[..n - 1], x, bound);
    }
  }

  lemma {:induction false} SortingCounts(seen: seq<real>, bound: real)
    ensures AtMost(Sorting(seen), bound) == AtMost(seen, bound)
  {
    if seen != [] {
      var n := |seen| - 1;
      SortingCounts(seen[..n], bound);
      InsertCounts(Sorting(seen[..n]), seen[n], bound);
    }
  }

  /** In order, k of them are at most the bound if the k-th is. */
  lemma {:induction false} SortedCounts(s: seq<real>, k: nat, bound: real)
    requires Sorted(s) && 0 < k <= |s|
    ensures AtMost(s, bound) >= k <==> s[k - 1] <= bound
  {
    var n := |s| - 1;
    if k <= n {
      SortedCounts(s[..n], k, bound);
    } else if s[n] <= bound && n > 0 {
      SortedCounts(s[..n], n, bound);
    }
  }

  /** Converged, in terms of the samples: k of them are at most (1 + epsilon) times the least one. */
  lemma ConvergedIff(seen: seq<real>, k: int, epsilon: real)
    requires k > 0 && seen != []
    ensures Converged(seen, k, epsilon) <==> AtMost(seen, Scaled(Least(seen), epsilon)) >= k
    ensures Sorting(seen)[0] == Least(seen)
  {
    hide Sorting, Least, AtMost, Scaled;
    LeastFirst(seen);
    var least := Least(seen);
    assert Sorting(seen)[0] == least;
    var bound := Scaled(least, epsilon);
    SortingSorts(seen);
    SortingCounts(seen, bound);
    if k <= |seen| {
      SortedCounts(Sorting(seen), k, bound);
    }
  }

  /** What fcyc has done, in terms of the samples: it returns the least of the n it took, it took fewer
      than maxSamples only if k of them are at most (1 + epsilon) times the least, and it would have
      stopped earlier if that had been so earlier. */
  lemma Sampled(samples: nat -> real, n: nat, k: int, maxSamples: int, epsilon: real)
    requires k > 0 && n > 0 && Stops(samples, n, k, maxSamples, epsilon)
    requires forall m :: 0 < m < n ==> !Stops(samples, m, k, maxSamples, epsilon)
    ensures var best := Sorting(First(samples, n))[0];
            (exists i: nat :: i < n && best == samples(i)) && forall i: nat :: i < n ==> best <= samples(i)
    ensures n <= if maxSamples < 1 then 1 else maxSamples
    ensures n < maxSamples ==>
      var seen := First(samples, n); AtMost(seen, Scaled(Least(seen), epsilon)) >= k
    ensures forall m :: 0 < m < n ==>
      var seen := First(samples, m); m < maxSamples && AtMost(seen, Scaled(Least(seen), epsilon)) < k
  {
    hide Sorting, First, Converged, Least, AtMost, Scaled;
    var seen := First(samples, n);
    LeastFirst(seen);
    var i :| 0 <= i < n && seen[i] == Sorting(seen)[0];
    assert samples(i) == seen[i];
    ConvergedIff(seen, k, epsilon);
    forall m | 0 < m < n
      ensures m < maxSamples && AtMost(First(samples, m), Scaled(Least(First(samples, m)), epsilon)) < k
    {
      assert !Stops(samples, m, k, maxSamples, epsilon);
      ConvergedIff(First(samples, m), k, epsilon);
    }
    if n > 1 {
      assert !Stops(samples, n - 1, k, maxSamples, epsilon);
    }
  }

  lemma LeastFirst(seen: seq<real>)
    requires seen != []
    ensures exists i :: 0 <= i < |seen| && seen[i] == Sorting(seen)[0]
    ensures forall i :: 0 <= i < |seen| ==> Sorting(seen)[0] <= seen[i]
  {
    hide Sorting;
    SortingSorts(seen);
    var all := Sorting(seen);
    assert all[0] in multiset(all) && all[0] in multiset(seen);
    forall i | 0 <= i < |seen| ensures all[0] <= seen[i] {
      assert seen[i] in multiset(seen) && seen[i] in multiset(all);
    }
  }
}
