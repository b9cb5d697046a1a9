/** From a history of timed operations to the entry list the search works on: `makeEntries`. */
module Entries {
  import opened Linearizability
  import opened Operations
  import opened Sorting

  datatype Timed<I, O> = Timed(entry: Entry<I, O>, time: int)

  ghost predicate SortedByTime<I, O>(s: seq<Timed<I, O>>) {
    forall i, j :: 0 <= i < j < |s| ==> s[i].time <= s[j].time
  }

  /** The comparison of `byTime`. */
  predicate ByTime<I, O>(a: Timed<I, O>, b: Timed<I, O>) {
    a.time < b.time
  }

  /** `sort.Sort(byTime(...))`: the order of entries with one time is left open. */
  method SortByTime<I(!new), O(!new)>(s: seq<Timed<I, O>>) returns (r: seq<Timed<I, O>>)
    ensures multiset(r) == multiset(s)
    ensures SortedByTime(r)
  {
    r := Sort(s, ByTime);
  }

  /** The unsorted entries: a call and a return for each operation, numbered by its index. */
  function RawEntries<I, O>(ops: seq<Operation<I, O>>): seq<Timed<I, O>> {
    seq(2 * |ops|, k requires 0 <= k < 2 * |ops| =>
      if k % 2 == 0 then Timed(Call(k / 2, ops[k / 2].input), ops[k / 2].call)
      else Timed(Return(k / 2, ops[k / 2].output), ops[k / 2].ret))
  }

  function Untimed<I, O>(s: seq<Timed<I, O>>): seq<Entry<I, O>> {
    seq(|s|, k requires 0 <= k < |s| => s[k].entry)
  }

  /** What the list must keep of the history. */
  ghost predicate Prepared<I, O>(ops: seq<Operation<I, O>>, h: seq<Entry<I, O>>) {
    && WellFormed(h)
    && |h| == 2 * |ops|
    && (forall id: nat :: id in Ids(h) <==> id < |ops|)
    && (forall id :: 0 <= id < |ops| ==> SameOperation(ops, h, id))
    && (forall a, b :: 0 <= a < |ops| && 0 <= b < |ops| ==> SamePrecedence(ops, h, a, b))
  }

  ghost predicate SameOperation<I, O>(ops: seq<Operation<I, O>>, h: seq<Entry<I, O>>, id: nat)
    requires id < |ops|
  {
    && CallPos(h, id) < ReturnPos(h, id) < |h|
    && h[CallPos(h, id)].input == ops[id].input
    && h[ReturnPos(h, id)].output == ops[id].output
  }

  /** Strictly earlier operations precede, and only earlier or touching ones do. */
  ghost predicate SamePrecedence<I, O>(ops: seq<Operation<I, O>>, h: seq<Entry<I, O>>, a: nat, b: nat)
    requires a < |ops| && b < |ops|
  {
    && (Earlier(false, ops[a], ops[b]) ==> Precedes(h, a, b))
    && (Precedes(h, a, b) ==> Earlier(true, ops[a], ops[b]))
  }

  lemma CallPosIs<I, O>(h: seq<Entry<I, O>>, id: nat, p: nat)
    requires p < |h| && h[p].Call? && h[p].id == id
    requires forall q :: 0 <= q < |h| && q != p && h[q].Call? ==> h[q].id != id
    ensures CallPos(h, id) == p
  {
  }

  lemma ReturnPosIs<I, O>(h: seq<Entry<I, O>>, id: nat, p: nat)
    requires p < |h| && h[p].Return? && h[p].id == id
    requires forall q :: 0 <= q < |h| && q != p && h[q].Return? ==> h[q].id != id
    ensures ReturnPos(h, id) == p
  {
  }

  /** Where the call (`k == 2 * id`) or the return (`k == 2 * id + 1`) of an operation ends up. */
  lemma PositionOf<I, O>(ops: seq<Operation<I, O>>, sorted: seq<Timed<I, O>>, perm: seq<nat>, k: nat) returns (p: nat)
    requires IsListing(2 * |ops|, perm) && (forall j :: 0 <= j < |perm| ==> perm[j] < 2 * |ops|)
    requires sorted == Pick(RawEntries(ops), perm) && k < 2 * |ops|
    ensures p < |sorted| && perm[p] == k && sorted[p] == RawEntries(ops)[k]
    ensures k % 2 == 0 ==> CallPos(Untimed(sorted), k / 2) == p
    ensures k % 2 == 1 ==> ReturnPos(Untimed(sorted), k / 2) == p
  {
    hide CallPos, ReturnPos;
    assert k in perm;
    p :| 0 <= p < |perm| && perm[p] == k;
    var h := Untimed(sorted);
    forall q | 0 <= q < |h| && q != p && h[q].Call? == h[p].Call?
      ensures h[q].id != k / 2
    {
      assert perm[q] != perm[p];
    }
    if k % 2 == 0 {
      CallPosIs(h, k / 2, p);
    } else {
      ReturnPosIs(h, k / 2, p);
    }
  }

  /** Where the two entries of an operation end up, and when they happened. */
  lemma OperationPositions<I, O>(ops: seq<Operation<I, O>>, sorted: seq<Timed<I, O>>, perm: seq<nat>, id: nat)
    requires IsListing(2 * |ops|, perm) && (forall j :: 0 <= j < |perm| ==> perm[j] < 2 * |ops|)
    requires sorted == Pick(RawEntries(ops), perm) && id < |ops| && Timely(ops) && SortedByTime(sorted)
    ensures SameOperation(ops, Untimed(sorted), id)
    ensures sorted[CallPos(Untimed(sorted), id)].time == ops[id].call
    ensures sorted[ReturnPos(Untimed(sorted), id)].time == ops[id].ret
    ensures id in Ids(Untimed(sorted))
  {
    hide CallPos, ReturnPos, IsListing;
    var c := PositionOf(ops, sorted, perm, 2 * id);
    var r := PositionOf(ops, sorted, perm, 2 * id + 1);
    assert ops[id] in ops;
    assert Untimed(sorted)[c].id == id;
  }

  lemma EntryIds<I, O>(ops: seq<Operation<I, O>>, sorted: seq<Timed<I, O>>, perm: seq<nat>)
    requires IsListing(2 * |ops|, perm) && (forall j :: 0 <= j < |perm| ==> perm[j] < 2 * |ops|)
    requires sorted == Pick(RawEntries(ops), perm)
    ensures forall p :: 0 <= p < |sorted| ==> Untimed(sorted)[p].id < |ops|
    ensures forall p, q :: 0 <= p < q < |sorted| && Untimed(sorted)[p].id == Untimed(sorted)[q].id ==>
                             Untimed(sorted)[p].Call? != Untimed(sorted)[q].Call?
  {
    var h := Untimed(sorted);
    forall p, q | 0 <= p < q < |sorted| && h[p].id == h[q].id
      ensures h[p].Call? != h[q].Call?
    {
      assert perm[p] != perm[q];
    }
  }

  lemma SortedIsPrepared<I, O>(ops: seq<Operation<I, O>>, sorted: seq<Timed<I, O>>)
    requires Timely(ops) && SortedByTime(sorted) && multiset(sorted) == multiset(RawEntries(ops))
    ensures Prepared(ops, Untimed(sorted))
  {
    hide CallPos, ReturnPos, RawEntries, IsListing, Timely;
    var perm := FindListing(RawEntries(ops), sorted);
    var h := Untimed(sorted);
    SameElements(sorted, RawEntries(ops));
    assert |RawEntries(ops)| == 2 * |ops| by { RawLength(ops); }
    EntryIds(ops, sorted, perm);
    forall id | 0 <= id < |ops|
      ensures SameOperation(ops, h, id) && id in Ids(h)
    {
      OperationPositions(ops, sorted, perm, id);
    }
    forall p | 0 <= p < |h|
      ensures CallPos(h, h[p].id) < ReturnPos(h, h[p].id) < |h|
    {
      assert h[p].id < |ops|;
      assert SameOperation(ops, h, h[p].id);
    }
    forall p, q | 0 <= p < q < |h| && h[p].id == h[q].id
      ensures h[p].Call? != h[q].Call?
    {
    }
    forall a, b | 0 <= a < |ops| && 0 <= b < |ops|
      ensures SamePrecedence(ops, h, a, b)
    {
      PrecedenceOf(ops, sorted, perm, a, b);
    }
  }

  lemma PrecedenceOf<I, O>(ops: seq<Operation<I, O>>, sorted: seq<Timed<I, O>>, perm: seq<nat>, a: nat, b: nat)
    requires IsListing(2 * |ops|, perm) && (forall j :: 0 <= j < |perm| ==> perm[j] < 2 * |ops|)
    requires sorted == Pick(RawEntries(ops), perm) && a < |ops| && b < |ops| && Timely(ops) && SortedByTime(sorted)
    ensures SamePrecedence(ops, Untimed(sorted), a, b)
  {
    hide CallPos, ReturnPos, RawEntries, IsListing, Timely;
    OperationPositions(ops, sorted, perm, a);
    OperationPositions(ops, sorted, perm, b);
  }

  lemma RawLength<I, O>(ops: seq<Operation<I, O>>)
    ensures |RawEntries(ops)| == 2 * |ops|
  {
  }

  /** `makeEntries`: the entries of a history in time order. */
  method MakeEntries<I(!new), O(!new)>(history: seq<Operation<I, O>>) returns (entries: seq<Entry<I, O>>)
    requires Timely(history)
    ensures Prepared(history, entries)
  {
    hide Prepared;
    var raw: seq<Timed<I, O>> := [];
    var id := 0;
    while id < |history|
      invariant 0 <= id <= |history|
      invariant raw == RawEntries(history[..id])
    {
      var elem := history[id];
      raw := raw + [Timed(Call(id, elem.input), elem.call)];
      raw := raw + [Timed(Return(id, elem.output), elem.ret)];
      id := id + 1;
    }
    assert history[..id] == history;
    var sorted := SortByTime(raw);
    SortedIsPrepared(history, sorted);
    entries := Untimed(sorted);
  }

  // ----- the entry list and the history are linearizable together

  lemma {:induction false} SameRun<S, I, O>(m: Model<S, I, O>, ops: seq<Operation<I, O>>, h: seq<Entry<I, O>>,
                                            s: S, ids: seq<nat>)
    requires Prepared(ops, h) && forall k :: 0 <= k < |ids| ==> ids[k] < |ops|
    ensures Accepted(m, h, s, ids) <==> Runs(m, s, Pick(ops, ids))
    decreases |ids|
  {
    hide CallPos, ReturnPos;
    if ids != [] {
      var id := ids[0];
      assert SameOperation(ops, h, id);
      assert Pick(ops, ids)[1..] == Pick(ops, ids[1..]);
      SameRun(m, ops, h, m.step(s, ops[id].input, ops[id].output).1, ids[1..]);
    }
  }

  /** A list in which earlier operations precede is linearizable only if the history is. */
  lemma ListImpliesReading<S, I(!new), O(!new)>(tied: bool, m: Model<S, I, O>, ops: seq<Operation<I, O>>,
                                                h: seq<Entry<I, O>>)
    requires Prepared(ops, h) && Linearizable(m, h)
    requires forall a, b :: 0 <= a < |ops| && 0 <= b < |ops| && Earlier(tied, ops[a], ops[b]) ==> Precedes(h, a, b)
    ensures LinearizableOps(tied, m, ops)
  {
    hide Prepared, Precedes, Earlier;
    var ids :| IsOrder(h, {}, ids) && Accepted(m, h, m.init, ids);
    assert IsListing(|ops|, ids) by { PreparedIds(ops, h); }
    PickAll(ops, ids);
    SameRun(m, ops, h, m.init, ids);
    var order := Pick(ops, ids);
    forall i, j | 0 <= i < j < |order|
      ensures !Earlier(tied, order[j], order[i])
    {
      assert !Precedes(h, ids[j], ids[i]);
    }
    assert IsLinearization(tied, m, ops, order);
  }

  lemma PreparedIds<I, O>(ops: seq<Operation<I, O>>, h: seq<Entry<I, O>>)
    requires Prepared(ops, h)
    ensures forall id: nat :: id in Ids(h) <==> id < |ops|
  {
  }

  /** A list in which only earlier operations precede is linearizable if the history is. */
  lemma ReadingImpliesList<S, I(!new), O(!new)>(tied: bool, m: Model<S, I, O>, ops: seq<Operation<I, O>>,
                                                h: seq<Entry<I, O>>)
    requires Prepared(ops, h) && LinearizableOps(tied, m, ops)
    requires forall a, b :: 0 <= a < |ops| && 0 <= b < |ops| && Precedes(h, a, b) ==> Earlier(tied, ops[a], ops[b])
    ensures Linearizable(m, h)
  {
    hide Prepared, Precedes, Earlier;
    var order :| IsLinearization(tied, m, ops, order);
    var ids := FindListing(ops, order);
    SameRun(m, ops, h, m.init, ids);
    forall i, j | 0 <= i < j < |ids|
      ensures !Precedes(h, ids[j], ids[i])
    {
      assert order[i] == ops[ids[i]] && order[j] == ops[ids[j]];
      assert !Earlier(tied, order[j], order[i]);
    }
    PreparedIds(ops, h);
    assert IsOrder(h, {}, ids);
  }

  /** The list is linearizable only if the history is. */
  lemma ListImpliesHistory<S, I(!new), O(!new)>(m: Model<S, I, O>, ops: seq<Operation<I, O>>, h: seq<Entry<I, O>>)
    requires Prepared(ops, h) && Linearizable(m, h)
    ensures LinearizableOps(false, m, ops)
  {
    forall a, b | 0 <= a < |ops| && 0 <= b < |ops| && Earlier(false, ops[a], ops[b])
      ensures Precedes(h, a, b)
    {
      assert SamePrecedence(ops, h, a, b);
    }
    ListImpliesReading(false, m, ops, h);
  }

  /** A history that is linearizable with ties kept gives a linearizable list. */
  lemma HistoryImpliesList<S, I(!new), O(!new)>(m: Model<S, I, O>, ops: seq<Operation<I, O>>, h: seq<Entry<I, O>>)
    requires Prepared(ops, h) && LinearizableOps(true, m, ops)
    ensures Linearizable(m, h)
  {
    forall a, b | 0 <= a < |ops| && 0 <= b < |ops| && Precedes(h, a, b)
      ensures Earlier(true, ops[a], ops[b])
    {
      assert SamePrecedence(ops, h, a, b);
    }
    ReadingImpliesList(true, m, ops, h);
  }

  // ----- both ends of that range are attained

  /** A legal result of the sort: a permutation of the entries in time order. */
  ghost predicate IsSorting<I, O>(ops: seq<Operation<I, O>>, sorted: seq<Timed<I, O>>) {
    SortedByTime(sorted) && multiset(sorted) == multiset(RawEntries(ops))
  }

  /** By time; at one time returns come first with `tied`, calls without. */
  predicate ByTimeThenKind<I, O>(tied: bool, a: Timed<I, O>, b: Timed<I, O>) {
    a.time < b.time || (a.time == b.time && a.entry.Call? != tied && b.entry.Call? == tied)
  }

  function KindOrder<I, O>(tied: bool): (Timed<I, O>, Timed<I, O>) -> bool {
    (a, b) => ByTimeThenKind(tied, a, b)
  }

  /** In the list sorted that way an operation precedes exactly the ones it is earlier than. */
  lemma ExactPrecedence<I, O>(tied: bool, ops: seq<Operation<I, O>>, sorted: seq<Timed<I, O>>, a: nat, b: nat)
    requires Timely(ops) && IsSorting(ops, sorted) && SortedBy(KindOrder(tied), sorted) && a < |ops| && b < |ops|
    ensures Precedes(Untimed(sorted), a, b) <==> Earlier(tied, ops[a], ops[b])
  {
    hide CallPos, ReturnPos, RawEntries, IsListing, Timely;
    var perm := FindListing(RawEntries(ops), sorted);
    assert |RawEntries(ops)| == 2 * |ops| by { RawLength(ops); }
    OperationPositions(ops, sorted, perm, a);
    OperationPositions(ops, sorted, perm, b);
    var h := Untimed(sorted);
    var r, c := ReturnPos(h, a), CallPos(h, b);
    assert h[r].Return? && h[c].Call?;
    assert r < c ==> !KindOrder(tied)(sorted[c], sorted[r]);
    assert c < r ==> !KindOrder(tied)(sorted[r], sorted[c]);
  }

  /**
   For every history the sort may return a list that is linearizable exactly
   when the history is with ties as concurrent (`tied == false`), and one that
   is exactly when it is with ties as order (`tied == true`).
   */
  lemma ReadingAttained<S, I(!new), O(!new)>(tied: bool, m: Model<S, I, O>, ops: seq<Operation<I, O>>)
    returns (sorted: seq<Timed<I, O>>)
    requires Timely(ops)
    ensures IsSorting(ops, sorted) && Prepared(ops, Untimed(sorted))
    ensures Linearizable(m, Untimed(sorted)) <==> LinearizableOps(tied, m, ops)
  {
    hide Prepared, RawEntries, Timely, Linearizable, LinearizableOps, Precedes, Earlier;
    sorted := SortedExists(KindOrder(tied), RawEntries(ops));
    assert SortedByTime(sorted) by { SortedIsTimed(tied, sorted); }
    SortedIsPrepared(ops, sorted);
    forall a, b | 0 <= a < |ops| && 0 <= b < |ops|
      ensures Precedes(Untimed(sorted), a, b) <==> Earlier(tied, ops[a], ops[b])
    {
      ExactPrecedence(tied, ops, sorted, a, b);
    }
    if Linearizable(m, Untimed(sorted)) {
      ListImpliesReading(tied, m, ops, Untimed(sorted));
    } else if LinearizableOps(tied, m, ops) {
      ReadingImpliesList(tied, m, ops, Untimed(sorted));
    }
  }

  lemma SortedIsTimed<I, O>(tied: bool, sorted: seq<Timed<I, O>>)
    requires SortedBy(KindOrder(tied), sorted)
    ensures SortedByTime(sorted)
  {
    forall i, j | 0 <= i < j < |sorted|
      ensures sorted[i].time <= sorted[j].time
    {
      assert !KindOrder(tied)(sorted[j], sorted[i]);
    }
  }
}
