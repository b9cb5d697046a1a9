/** Facts about sequences and finite sets that several modules use. */
module Collections {

  /** `s` without its element at `k`. */
  function Drop<T>(s: seq<T>, k: nat): seq<T>
    requires k < |s|
  {
    s[..k] + s[k + 1..]
  }

  lemma DropMultiset<T>(s: seq<T>, k: nat)
    requires k < |s|
    ensures multiset(Drop(s, k)) == multiset(s) - multiset{s[k]}
  {
    assert s == s[..k] + [s[k]] + s[k + 1..];
  }

  lemma SubsetSize(a: set<nat>, b: set<nat>)
    requires a <= b
    ensures |a| <= |b|
  {
    assert b == a + (b - a);
  }

  lemma {:induction false} RangeSize(n: nat, s: set<nat>)
    requires forall x :: x in s ==> x < n
    ensures |s| <= n
  {
    if n == 0 {
      assert s == {};
    } else {
      RangeSize(n - 1, s - {n - 1});
    }
  }

  lemma {:induction false} InitialSegment(n: nat, s: set<nat>)
    requires forall x: nat :: x in s <==> x < n
    ensures |s| == n
  {
    if n == 0 {
      assert s == {};
    } else {
      InitialSegment(n - 1, s - {n - 1});
    }
  }
}
