/**
 Go's order on strings, and `sort.Slice` and `sort.Sort`, which are not
 stable: they promise a sorted permutation and leave the order of equal
 elements open.
 */
module Sorting {
  import opened Collections

  /** `a < b` on strings. Comparing UTF-8 bytes and comparing characters give the same order. */
  predicate Less(a: string, b: string) {
    b != [] && (a == [] || a[0] < b[0] || (a[0] == b[0] && Less(a[1..], b[1..])))
  }

  /** The strings agree up to `i`, where `a` ends or has the smaller character. */
  predicate FirstDifference(a: string, b: string, i: nat) {
    i <= |a| && i < |b| && a[..i] == b[..i] && (i == |a| || a[i] < b[i])
  }

  /** It is the lexicographic order. */
  lemma {:induction false} LessIsLexicographic(a: string, b: string)
    ensures Less(a, b) <==> exists i: nat :: FirstDifference(a, b, i)
  {
    if b != [] && a != [] {
      LessIsLexicographic(a[1..], b[1..]);
      if Less(a, b) && a[0] == b[0] {
        var i: nat :| FirstDifference(a[1..], b[1..], i);
        assert a[..i + 1] == [a[0]] + a[1..][..i] && b[..i + 1] == [b[0]] + b[1..][..i];
        assert FirstDifference(a, b, i + 1);
      } else if Less(a, b) {
        assert FirstDifference(a, b, 0);
      } else if i: nat :| FirstDifference(a, b, i) {
        LaterDifference(a, b, i);
      }
    } else if b != [] {
      assert FirstDifference(a, b, 0);
    }
  }

  lemma LaterDifference(a: string, b: string, i: nat)
    requires FirstDifference(a, b, i) && a != []
    ensures a[0] < b[0] || (a[0] == b[0] && i > 0 && FirstDifference(a[1..], b[1..], i - 1))
  {
    if i > 0 {
      assert a[0] == a[..i][0] == b[..i][0] == b[0];
      assert a[1..][..i - 1] == a[..i][1..] && b[1..][..i - 1] == b[..i][1..];
    }
  }

  lemma {:induction false} Trichotomy(a: string, b: string)
    ensures Less(a, b) || a == b || Less(b, a)
    ensures !(Less(a, b) && Less(b, a)) && !Less(a, a)
  {
    if a != [] && b != [] {
      Trichotomy(a[1..], b[1..]);
      Trichotomy(a[1..], a[1..]);
      assert a == [a[0]] + a[1..] && b == [b[0]] + b[1..];
    } else if a != [] {
      Trichotomy(a[1..], a[1..]);
    }
  }

  lemma {:induction false} LessTransitive(a: string, b: string, c: string)
    requires Less(a, b) && Less(b, c)
    ensures Less(a, c)
  {
    if a != [] && a[0] == b[0] == c[0] {
      LessTransitive(a[1..], b[1..], c[1..]);
    }
  }

  /** What the sorts need of their comparison. */
  ghost predicate StrictOrder<T(!new)>(less: (T, T) -> bool) {
    && (forall x :: !less(x, x))
    && (forall x, y, z :: less(x, y) && less(y, z) ==> less(x, z))
  }

  ghost predicate SortedBy<T>(less: (T, T) -> bool, s: seq<T>) {
    forall i, j :: 0 <= i < j < |s| ==> !less(s[j], s[i])
  }

  predicate IsMinimal<T>(less: (T, T) -> bool, s: seq<T>, k: nat)
    requires k < |s|
  {
    forall j :: 0 <= j < |s| ==> !less(s[j], s[k])
  }

  lemma {:induction false} MinimalExists<T(!new)>(less: (T, T) -> bool, s: seq<T>) returns (k: nat)
    requires StrictOrder(less) && s != []
    ensures k < |s| && IsMinimal(less, s, k)
  {
    var n := |s| - 1;
    if n == 0 {
      k := 0;
    } else {
      k := MinimalExists(less, s[..n]);
      assert forall j :: 0 <= j < n ==> s[..n][j] == s[j];
      if less(s[n], s[k]) {
        k := n;
      }
    }
  }

  ghost predicate AllAfter<T>(less: (T, T) -> bool, r: seq<T>, rest: seq<T>) {
    forall i, j :: 0 <= i < |r| && 0 <= j < |rest| ==> !less(rest[j], r[i])
  }

  lemma TakeMinimal<T>(less: (T, T) -> bool, r: seq<T>, rest: seq<T>, k: nat)
    requires SortedBy(less, r) && AllAfter(less, r, rest) && k < |rest| && IsMinimal(less, rest, k)
    ensures SortedBy(less, r + [rest[k]]) && AllAfter(less, r + [rest[k]], Drop(rest, k))
    ensures multiset(r + [rest[k]]) + multiset(Drop(rest, k)) == multiset(r) + multiset(rest)
  {
    var rest' := Drop(rest, k);
    assert forall j :: 0 <= j < |rest'| ==> rest'[j] == rest[if j < k then j else j + 1];
    assert rest == rest[..k] + [rest[k]] + rest[k + 1..];
  }

  /** Any minimal element of what is left may come next. */
  method Sort<T(!new)>(s: seq<T>, less: (T, T) -> bool) returns (r: seq<T>)
    requires StrictOrder(less)
    ensures multiset(r) == multiset(s)
    ensures SortedBy(less, r)
  {
    r := [];
    var rest := s;
    while rest != []
      invariant multiset(r) + multiset(rest) == multiset(s)
      invariant SortedBy(less, r) && AllAfter(less, r, rest)
      decreases |rest|
    {
      ghost var k0 := MinimalExists(less, rest);
      var k :| 0 <= k < |rest| && IsMinimal(less, rest, k);
      TakeMinimal(less, r, rest, k);
      r, rest := r + [rest[k]], Drop(rest, k);
    }
  }

  lemma {:induction false} SortedAfter<T(!new)>(less: (T, T) -> bool, r: seq<T>, rest: seq<T>) returns (s: seq<T>)
    requires StrictOrder(less) && SortedBy(less, r) && AllAfter(less, r, rest)
    ensures multiset(s) == multiset(r) + multiset(rest) && SortedBy(less, s)
    decreases |rest|
  {
    if rest == [] {
      s := r;
    } else {
      var k := MinimalExists(less, rest);
      TakeMinimal(less, r, rest, k);
      s := SortedAfter(less, r + [rest[k]], Drop(rest, k));
    }
  }

  /** Every sequence can be sorted. */
  lemma SortedExists<T(!new)>(less: (T, T) -> bool, s: seq<T>) returns (r: seq<T>)
    requires StrictOrder(less)
    ensures multiset(r) == multiset(s) && SortedBy(less, r)
  {
    r := SortedAfter(less, [], s);
  }

  // ----- lists of distinct strings in order

  ghost predicate Ascending(s: seq<string>) {
    forall i, j :: 0 <= i < j < |s| ==> Less(s[i], s[j])
  }

  /** Two strictly ascending lists with the same members are the same list. */
  lemma {:induction false} AscendingUnique(s: seq<string>, t: seq<string>)
    requires Ascending(s) && Ascending(t)
    requires forall x :: x in s <==> x in t
    ensures s == t
  {
    if s == [] {
      SomeMember(t);
    } else {
      assert s[0] in t && t[0] in s;
      var i :| 0 <= i < |t| && t[i] == s[0];
      var j :| 0 <= j < |s| && s[j] == t[0];
      Trichotomy(s[0], t[0]);
      assert s[0] == t[0];
      forall x
        ensures x in s[1..] <==> x in t[1..]
      {
        TailMembers(s, x);
        TailMembers(t, x);
      }
      AscendingUnique(s[1..], t[1..]);
      assert s == [s[0]] + s[1..] && t == [t[0]] + t[1..];
    }
  }

  lemma SomeMember(t: seq<string>)
    ensures t == [] || exists x :: x in t
  {
    if t != [] {
      assert t[0] in t;
    }
  }

  lemma TailMembers(s: seq<string>, x: string)
    requires Ascending(s) && s != []
    ensures x in s[1..] <==> x in s && x != s[0]
  {
    if x in s[1..] {
      var i :| 1 <= i < |s| && s[i] == x;
      Trichotomy(s[0], s[i]);
      Trichotomy(x, x);
    }
  }
}
