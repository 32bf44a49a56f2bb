/**
 * The arithmetic every `show_results` handler performs on its results list:
 * counting (`sum(1 for r in results if ...)`), filtering (`[r for r in results if ...]`),
 * the accuracy percentage and the mean reaction time, each defined as 0 on an empty list.
 * Reaction times are exact reals; the handlers' `round(x, 2)` is presentation only.
 */
module Stats {

  /** How many elements of `s` satisfy `p`. */
  function Count<T>(s: seq<T>, p: T -> bool): (n: nat)
    ensures n <= |s|
  {
    if s == [] then 0 else (if p(s[0]) then 1 else 0) + Count(s[1..], p)
  }

  /** The elements of `s` that satisfy `p`, in their original order. */
  function Filter<T>(s: seq<T>, p: T -> bool): (r: seq<T>)
    ensures |r| == Count(s, p)
    ensures forall i :: 0 <= i < |r| ==> p(r[i]) && r[i] in s
  {
    if s == [] then [] else (if p(s[0]) then [s[0]] else []) + Filter(s[1..], p)
  }

  /** Every element of `s` tagged with `f`, in order. */
  function Map<A, B>(s: seq<A>, f: A -> B): (r: seq<B>)
    ensures |r| == |s| && forall i :: 0 <= i < |s| ==> r[i] == f(s[i])
  {
    if s == [] then [] else [f(s[0])] + Map(s[1..], f)
  }

  function Sum(xs: seq<real>): real
  {
    if xs == [] then 0.0 else xs[0] + Sum(xs[1..])
  }

  /** `sum(xs) / len(xs) if xs else 0`. */
  function Mean(xs: seq<real>): real
  {
    if |xs| == 0 then 0.0 else Sum(xs) / |xs| as real
  }

  /** `correct / total * 100 if total > 0 else 0`. */
  function Accuracy(correct: nat, total: nat): real
  {
    if total > 0 then correct as real / total as real * 100.0 else 0.0
  }

  lemma {:induction false} CountAppend<T>(a: seq<T>, b: seq<T>, p: T -> bool)
    ensures Count(a + b, p) == Count(a, p) + Count(b, p)
  {
    if a == [] {
      assert a + b == b;
    } else {
      assert (a + b)[1..] == a[1..] + b;
      CountAppend(a[1..], b, p);
    }
  }

  lemma {:induction false} FilterAppend<T>(a: seq<T>, b: seq<T>, p: T -> bool)
    ensures Filter(a + b, p) == Filter(a, p) + Filter(b, p)
  {
    if a == [] {
      assert a + b == b;
    } else {
      assert (a + b)[1..] == a[1..] + b;
      FilterAppend(a[1..], b, p);
    }
  }

  /** Taking element `k` out of a list takes it out of the list's multiset. */
  lemma MultisetRemove<T>(b: seq<T>, k: nat)
    requires k < |b|
    ensures multiset(b[..k] + b[k + 1..]) == multiset(b) - multiset{b[k]}
  {
    assert b == b[..k] + [b[k]] + b[k + 1..];
    assert multiset(b) == multiset(b[..k]) + multiset{b[k]} + multiset(b[k + 1..]);
  }

  /** Taking element `k` out of a list lowers a count by what that element contributed. */
  lemma CountRemove<T>(b: seq<T>, k: nat, p: T -> bool)
    requires k < |b|
    ensures Count(b, p) == Count(b[..k] + b[k + 1..], p) + (if p(b[k]) then 1 else 0)
  {
    assert b == b[..k] + ([b[k]] + b[k + 1..]);
    CountAppend(b[..k], [b[k]] + b[k + 1..], p);
    CountAppend([b[k]], b[k + 1..], p);
    CountAppend(b[..k], b[k + 1..], p);
  }

  /** A count does not depend on the order of the list: a shuffle keeps every count. */
  lemma {:induction false} CountPermutation<T>(a: seq<T>, b: seq<T>, p: T -> bool)
    requires multiset(a) == multiset(b)
    ensures Count(a, p) == Count(b, p)
    decreases |a|
  {
    if a == [] {
      assert |b| == |multiset(b)| == 0;
    } else {
      assert a[0] in multiset(b);
      var k :| 0 <= k < |b| && b[k] == a[0];
      MultisetRemove(a, 0);
      MultisetRemove(b, k);
      assert a[..0] + a[1..] == a[1..];
      CountPermutation(a[1..], b[..k] + b[k + 1..], p);
      CountRemove(b, k, p);
    }
  }

  /** Counting over a mapped list is counting the composed predicate over the original. */
  lemma {:induction false} CountMap<A, B>(s: seq<A>, f: A -> B, p: B -> bool, q: A -> bool)
    requires forall a :: q(a) == p(f(a))
    ensures Count(Map(s, f), p) == Count(s, q)
  {
    if s != [] {
      assert Map(s, f)[1..] == Map(s[1..], f);
      CountMap(s[1..], f, p, q);
    }
  }

  /** An injective tag keeps every multiplicity. */
  lemma {:induction false} MapMultiset<A, B>(s: seq<A>, f: A -> B, x: A)
    requires forall a, b :: f(a) == f(b) ==> a == b
    ensures multiset(Map(s, f))[f(x)] == multiset(s)[x]
  {
    if s != [] {
      assert s == [s[0]] + s[1..];
      assert Map(s, f) == [f(s[0])] + Map(s[1..], f);
      MapMultiset(s[1..], f, x);
    }
  }

  /** One element satisfying `p` is enough for a positive count. */
  lemma {:induction false} CountPositive<T>(s: seq<T>, p: T -> bool, i: nat)
    requires i < |s| && p(s[i])
    ensures Count(s, p) >= 1
  {
    if i > 0 {
      CountPositive(s[1..], p, i - 1);
    }
  }

  /** Every element satisfies `p` exactly when the count is the whole length. */
  lemma {:induction false} CountAll<T>(s: seq<T>, p: T -> bool)
    ensures Count(s, p) == |s| <==> forall i :: 0 <= i < |s| ==> p(s[i])
  {
    if s != [] {
      CountAll(s[1..], p);
      if !p(s[0]) {
        assert Count(s, p) <= |s[1..]|;
      }
      assert forall i :: 1 <= i < |s| ==> s[i] == s[1..][i - 1];
    }
  }

  /** When every element satisfies exactly one of `p` and `q`, their counts add up to the length. */
  lemma {:induction false} CountComplement<T>(s: seq<T>, p: T -> bool, q: T -> bool)
    requires forall i :: 0 <= i < |s| ==> p(s[i]) != q(s[i])
    ensures Count(s, p) + Count(s, q) == |s|
  {
    if s != [] {
      assert forall i :: 0 <= i < |s[1..]| ==> s[1..][i] == s[i + 1];
      CountComplement(s[1..], p, q);
    }
  }

  /**
   * When `p` and `q` split every value into two classes, the two filtered lists
   * share out the list, and any count over it.
   */
  lemma {:induction false} SplitCount<T>(s: seq<T>, p: T -> bool, q: T -> bool, c: T -> bool)
    requires forall x :: p(x) != q(x)
    ensures |Filter(s, p)| + |Filter(s, q)| == |s|
    ensures Count(Filter(s, p), c) + Count(Filter(s, q), c) == Count(s, c)
  {
    if s != [] {
      SplitCount(s[1..], p, q, c);
      var head := if p(s[0]) then [s[0]] else [];
      var tail := if q(s[0]) then [s[0]] else [];
      CountAppend(head, Filter(s[1..], p), c);
      CountAppend(tail, Filter(s[1..], q), c);
    }
  }

  /** `total * acc` is the `na`/`nb`-weighted sum of `accA` and `accB`. */
  predicate WeightedMix(total: nat, acc: real, na: nat, accA: real, nb: nat, accB: real)
  {
    total as real * acc == na as real * accA + nb as real * accB
  }

  /**
   * The overall accuracy is the trial-weighted combination of the accuracies of
   * two conditions that partition the results.
   */
  lemma AccuracyWeighted(total: nat, correct: nat, na: nat, ca: nat, nb: nat, cb: nat)
    requires total == na + nb && correct == ca + cb
    requires ca <= na && cb <= nb
    ensures WeightedMix(total, Accuracy(correct, total), na, Accuracy(ca, na), nb, Accuracy(cb, nb))
  {
    if total > 0 {
      assert total as real * (correct as real / total as real) == correct as real;
    }
    if na > 0 {
      assert na as real * (ca as real / na as real) == ca as real;
    }
    if nb > 0 {
      assert nb as real * (cb as real / nb as real) == cb as real;
    }
  }

  /**
   * Over a list split in two classes by `p` and `q`, the accuracy of the whole is the
   * size-weighted mix of the two classes' accuracies.
   */
  lemma PartitionAccuracy<T>(s: seq<T>, p: T -> bool, q: T -> bool, c: T -> bool)
    requires forall x :: p(x) != q(x)
    ensures |Filter(s, p)| + |Filter(s, q)| == |s|
    ensures WeightedMix(|s|, Accuracy(Count(s, c), |s|),
              |Filter(s, p)|, Accuracy(Count(Filter(s, p), c), |Filter(s, p)|),
              |Filter(s, q)|, Accuracy(Count(Filter(s, q), c), |Filter(s, q)|))
  {
    SplitCount(s, p, q, c);
    AccuracyWeighted(|s|, Count(s, c), |Filter(s, p)|, Count(Filter(s, p), c),
      |Filter(s, q)|, Count(Filter(s, q), c));
  }


  /** An accuracy is a percentage, and it is 100 exactly when every trial is correct. */
  lemma AccuracyRange(correct: nat, total: nat)
    requires correct <= total
    ensures 0.0 <= Accuracy(correct, total) <= 100.0
    ensures Accuracy(correct, total) == 100.0 <==> total > 0 && correct == total
  {
    if total > 0 {
      var f := correct as real / total as real;
      assert f * total as real == correct as real;
      assert f <= 1.0;
      if f * 100.0 == 100.0 {
        assert f == 1.0;
      }
    }
  }

  lemma {:induction false} SumBounds(xs: seq<real>, lo: real, hi: real)
    requires forall i :: 0 <= i < |xs| ==> lo <= xs[i] <= hi
    ensures |xs| as real * lo <= Sum(xs) <= |xs| as real * hi
  {
    if xs != [] {
      assert forall i :: 0 <= i < |xs[1..]| ==> xs[1..][i] == xs[i + 1];
      SumBounds(xs[1..], lo, hi);
    }
  }

  /** A mean lies between the smallest and the largest reaction time it averages. */
  lemma MeanBounds(xs: seq<real>, lo: real, hi: real)
    requires |xs| > 0
    requires forall i :: 0 <= i < |xs| ==> lo <= xs[i] <= hi
    ensures lo <= Mean(xs) <= hi
  {
    SumBounds(xs, lo, hi);
    var n := |xs| as real;
    assert Mean(xs) * n == Sum(xs);
  }
}
