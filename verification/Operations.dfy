/**
 Histories of timed operations, and their linearizability: some order of the
 operations themselves that reverses no precedence and is accepted step by
 step. Operations are values, so an order is a rearrangement of the history.
 */
module Operations {
  import opened Collections
  import opened Linearizability

  datatype Operation<I, O> = Operation(input: I, call: int, output: O, ret: int)

  /** Every operation returns after it is called. */
  ghost predicate Timely<I, O>(ops: seq<Operation<I, O>>) {
    forall x :: x in ops ==> x.call < x.ret
  }

  /** `x` returned before `y` was called; with `tied`, equal times count as before. */
  predicate Earlier<I, O>(tied: bool, x: Operation<I, O>, y: Operation<I, O>) {
    x.ret < y.call || (tied && x.ret == y.call)
  }

  ghost predicate InOrder<I, O>(tied: bool, order: seq<Operation<I, O>>) {
    forall i, j :: 0 <= i < j < |order| ==> !Earlier(tied, order[j], order[i])
  }

  ghost predicate Runs<S, I, O>(m: Model<S, I, O>, s: S, order: seq<Operation<I, O>>) {
    order != [] ==>
      var (ok, s') := m.step(s, order[0].input, order[0].output);
      ok && Runs(m, s', order[1..])
  }

  ghost predicate IsLinearization<S, I, O>(tied: bool, m: Model<S, I, O>, ops: seq<Operation<I, O>>,
                                           order: seq<Operation<I, O>>) {
    multiset(order) == multiset(ops) && InOrder(tied, order) && Runs(m, m.init, order)
  }

  /**
   Linearizable by real time. `tied == false` is the usual meaning; `tied ==
   true` also keeps the order of operations that touch at one instant.
   */
  ghost predicate LinearizableOps<S, I(!new), O(!new)>(tied: bool, m: Model<S, I, O>, ops: seq<Operation<I, O>>) {
    exists order :: IsLinearization(tied, m, ops, order)
  }

  /** No operation returns at the very time another is called. */
  ghost predicate NoTies<I, O>(ops: seq<Operation<I, O>>) {
    forall x, y :: x in ops && y in ops ==> x.ret != y.call
  }

  lemma SameElements<T>(a: seq<T>, b: seq<T>)
    requires multiset(a) == multiset(b)
    ensures |a| == |b|
    ensures forall x :: x in a <==> x in b
  {
    assert |multiset(a)| == |a| && |multiset(b)| == |b|;
    forall x
      ensures x in a <==> x in b
    {
      assert x in a <==> x in multiset(a);
      assert x in b <==> x in multiset(b);
    }
  }

  /** Without ties the two meanings are one. */
  lemma TiesDoNotMatter<S, I(!new), O(!new)>(m: Model<S, I, O>, ops: seq<Operation<I, O>>)
    requires NoTies(ops)
    ensures LinearizableOps(true, m, ops) <==> LinearizableOps(false, m, ops)
  {
    forall order | multiset(order) == multiset(ops)
      ensures InOrder(true, order) <==> InOrder(false, order)
    {
      SameElements(order, ops);
      forall i, j | 0 <= i < j < |order|
        ensures Earlier(true, order[j], order[i]) <==> Earlier(false, order[j], order[i])
      {
        assert order[i] in order && order[j] in order;
      }
    }
    if LinearizableOps(true, m, ops) {
      var order :| IsLinearization(true, m, ops, order);
      assert IsLinearization(false, m, ops, order);
    }
    if LinearizableOps(false, m, ops) {
      var order :| IsLinearization(false, m, ops, order);
      assert IsLinearization(true, m, ops, order);
    }
  }

  // ----- listings of indices and rearrangements

  function Pick<T>(ops: seq<T>, ids: seq<nat>): seq<T>
    requires forall k :: 0 <= k < |ids| ==> ids[k] < |ops|
  {
    seq(|ids|, k requires 0 <= k < |ids| => ops[ids[k]])
  }

  ghost predicate IsListing(n: nat, ids: seq<nat>) {
    NoRepeats(ids) && forall x: nat :: x in ids <==> x < n
  }

  lemma ListingLength(n: nat, ids: seq<nat>)
    requires IsListing(n, ids) && n > 0
    ensures n - 1 in ids
  {
  }

  lemma DropListing(n: nat, ids: seq<nat>, k: nat)
    requires IsListing(n, ids) && n > 0 && k < |ids| && ids[k] == n - 1
    ensures IsListing(n - 1, Drop(ids, k))
  {
    var rest := Drop(ids, k);
    forall j | 0 <= j < |rest|
      ensures rest[j] == if j < k then ids[j] else ids[j + 1]
    {
    }
    forall x: nat
      ensures x in rest <==> x < n - 1
    {
      if x < n - 1 {
        assert x in ids;
        var j :| 0 <= j < |ids| && ids[j] == x;
        assert rest[if j < k then j else j - 1] == x;
      }
      if x in rest {
        var j :| 0 <= j < |rest| && rest[j] == x;
        var j' := if j < k then j else j + 1;
        assert ids[j'] == x && j' != k;
        assert x in ids;
      }
    }
  }

  lemma ListingBounds(n: nat, ids: seq<nat>)
    requires IsListing(n, ids)
    ensures forall k :: 0 <= k < |ids| ==> ids[k] < n
    ensures n == 0 ==> ids == []
  {
    forall k | 0 <= k < |ids|
      ensures ids[k] < n
    {
      assert ids[k] in ids;
    }
    if n == 0 && ids != [] {
      assert ids[0] in ids;
    }
  }

  lemma PickDrop<T>(ops: seq<T>, ids: seq<nat>, k: nat, n: nat, rest: seq<nat>)
    requires |ops| == n + 1 && k < |ids| && forall j :: 0 <= j < |ids| ==> ids[j] < |ops|
    requires rest == Drop(ids, k) && forall j :: 0 <= j < |rest| ==> rest[j] < n
    ensures Pick(ops[..n], rest) == Drop(Pick(ops, ids), k)
  {
  }

  /** Listing all indices picks all elements. */
  lemma {:induction false} PickAll<T>(ops: seq<T>, ids: seq<nat>)
    requires IsListing(|ops|, ids)
    ensures forall k :: 0 <= k < |ids| ==> ids[k] < |ops|
    ensures multiset(Pick(ops, ids)) == multiset(ops)
    decreases |ops|
  {
    hide IsListing, Drop;
    ListingBounds(|ops|, ids);
    if ops != [] {
      var n := |ops| - 1;
      assert n in ids by { ListingLength(|ops|, ids); }
      var k :| 0 <= k < |ids| && ids[k] == n;
      var rest := Drop(ids, k);
      DropListing(|ops|, ids, k);
      ListingBounds(n, rest);
      PickAll(ops[..n], rest);
      PickDrop(ops, ids, k, n, rest);
      AddBack(ops, Pick(ops, ids), k);
    }
  }

  lemma AddBack<T>(s: seq<T>, r: seq<T>, k: nat)
    requires s != [] && k < |r| && r[k] == s[|s| - 1]
    requires multiset(Drop(r, k)) == multiset(s[..|s| - 1])
    ensures multiset(r) == multiset(s)
  {
    DropMultiset(r, k);
    assert s == s[..|s| - 1] + [s[|s| - 1]];
    assert r[k] in multiset(r);
  }

  lemma TakeOut<T>(s: seq<T>, r: seq<T>, k: nat)
    requires s != [] && k < |r| && r[k] == s[|s| - 1] && multiset(r) == multiset(s)
    ensures multiset(Drop(r, k)) == multiset(s[..|s| - 1])
  {
    DropMultiset(r, k);
    assert s == s[..|s| - 1] + [s[|s| - 1]];
  }

  /** Every rearrangement comes from a listing of the indices. */
  lemma {:induction false} FindListing<T>(ops: seq<T>, order: seq<T>) returns (ids: seq<nat>)
    requires multiset(order) == multiset(ops)
    ensures IsListing(|ops|, ids)
    ensures forall k :: 0 <= k < |ids| ==> ids[k] < |ops|
    ensures Pick(ops, ids) == order
    decreases |ops|
  {
    hide IsListing;
    SameElements(order, ops);
    if ops == [] {
      ids := [];
      EmptyListing();
    } else {
      var n := |ops| - 1;
      assert ops[n] in order by { assert ops[n] in ops; }
      var k :| 0 <= k < |order| && order[k] == ops[n];
      TakeOut(ops, order, k);
      var rest := FindListing(ops[..n], Drop(order, k));
      assert |rest| == |Pick(ops[..n], rest)| == |order| - 1;
      ids := rest[..k] + [n] + rest[k..];
      InsertListing(n, rest, k);
      forall j | 0 <= j < |ids|
        ensures ids[j] < |ops| && ops[ids[j]] == order[j]
      {
        if j < k {
          assert ids[j] == rest[j] && Pick(ops[..n], rest)[j] == Drop(order, k)[j] == order[j];
        } else if j > k {
          assert ids[j] == rest[j - 1] && Pick(ops[..n], rest)[j - 1] == Drop(order, k)[j - 1] == order[j];
        }
      }
    }
  }

  lemma EmptyListing()
    ensures IsListing(0, [])
  {
  }

  lemma InsertListing(n: nat, rest: seq<nat>, k: nat)
    requires IsListing(n, rest) && k <= |rest|
    ensures IsListing(n + 1, rest[..k] + [n] + rest[k..])
  {
    var ids := rest[..k] + [n] + rest[k..];
    forall j | 0 <= j < |ids|
      ensures ids[j] == if j < k then rest[j] else if j == k then n else rest[j - 1]
    {
    }
    forall x: nat
      ensures x in ids <==> x < n + 1
    {
      if x < n {
        assert x in rest;
        var j :| 0 <= j < |rest| && rest[j] == x;
        assert ids[if j < k then j else j + 1] == x;
      }
      if x == n {
        assert ids[k] == x;
      }
      if x in ids {
        var j :| 0 <= j < |ids| && ids[j] == x;
        assert j != k ==> x in rest;
      }
    }
    forall i, j | 0 <= i < j < |ids|
      ensures ids[i] != ids[j]
    {
      assert i != k ==> ids[i] in rest;
      assert j != k ==> ids[j] in rest;
    }
  }
}
