/**
 * Python's `random.shuffle`: the Fisher-Yates loop that, for `i` from `len(x) - 1`
 * down to 1, swaps `x[i]` with `x[j]` for a random `j` in `0..i`. The random index is
 * an oracle `pick`, so the only promise left is the structural one: the list is permuted.
 */
module Shuffle {

  method ShuffleInPlace<T>(a: array<T>, pick: nat -> nat)
    modifies a
    ensures multiset(a[..]) == old(multiset(a[..]))
  {
    var i := a.Length;
    while i > 1
      invariant 0 <= i <= a.Length
      invariant multiset(a[..]) == old(multiset(a[..]))
    {
      i := i - 1;
      var j := pick(i) % (i + 1);
      a[i], a[j] := a[j], a[i];
    }
  }

  /** Shuffles a copy of `s`, as the handlers do with the list they have just built. */
  method Shuffled<T>(s: seq<T>, pick: nat -> nat) returns (r: seq<T>)
    ensures |r| == |s|
    ensures multiset(r) == multiset(s)
  {
    var a := new T[|s|](i requires 0 <= i < |s| => s[i]);
    assert a[..] == s;
    ShuffleInPlace(a, pick);
    r := a[..];
  }
}
