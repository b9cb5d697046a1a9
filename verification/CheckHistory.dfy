/**
 The checks a user calls: `CheckOperations` over the partitions of a history,
 the same for the key/value model, and `CheckEvents`.
 */
module CheckHistory {
  import opened Collections
  import opened Linearizability
  import opened Operations
  import opened Entries
  import opened Events
  import opened EntryList
  import opened Checker
  import opened Locality
  import opened KvMeaning

  lemma PreparedIsNumbered<I, O>(ops: seq<Operation<I, O>>, h: seq<Entry<I, O>>)
    requires Prepared(ops, h)
    ensures WellFormed(h) && Numbered(h)
  {
    hide WellFormed, CallPos, ReturnPos;
    forall p | 0 <= p < |h|
      ensures h[p].id < |h| / 2
    {
      assert h[p].id in Ids(h);
    }
  }

  /**
   One partition: right in both directions, except that operations which touch
   at one instant may be taken as ordered or as concurrent.
   */
  method CheckPartition<S(!new), I(!new), O(!new)>(m: Model<S, I, O>, subhistory: seq<Operation<I, O>>)
    returns (ok: bool)
    requires Timely(subhistory)
    ensures ok ==> LinearizableOps(false, m, subhistory)
    ensures Simulates(m) && LinearizableOps(true, m, subhistory) ==> ok
  {
    hide WellFormed, Prepared, Linearizable, LinearizableOps, Simulates, Chain, Represents;
    var entries := MakeEntries(subhistory);
    PreparedIsNumbered(subhistory, entries);
    var l, ns := MakeLinkedEntries(entries);
    ok := CheckSingle(m, l, entries, ns);
    if ok {
      ListImpliesHistory(m, subhistory, entries);
    } else if LinearizableOps(true, m, subhistory) {
      HistoryImpliesList(m, subhistory, entries);
    }
  }

  /**
   The collecting loop of `CheckOperationsTimeout`, without a timeout. The
   partitions are checked at the same time and their results arrive in any
   order; the first `false` ends the loop. With no partition at all the loop
   would wait forever, so there must be one.
   */
  method CheckOperations<S(!new), I(!new), O(!new)>(m: Model<S, I, O>, partitions: seq<seq<Operation<I, O>>>)
    returns (ok: bool)
    requires partitions != [] && forall k :: 0 <= k < |partitions| ==> Timely(partitions[k])
    ensures ok ==> forall k :: 0 <= k < |partitions| ==> LinearizableOps(false, m, partitions[k])
    ensures Simulates(m) && (forall k :: 0 <= k < |partitions| ==> LinearizableOps(true, m, partitions[k])) ==> ok
  {
    hide LinearizableOps, Simulates, Timely;
    ok := true;
    var waiting: seq<nat> := seq(|partitions|, k => k);
    forall k | 0 <= k < |partitions|
      ensures k in waiting
    {
      assert waiting[k] == k;
    }
    while waiting != []
      invariant ok && forall i :: 0 <= i < |waiting| ==> waiting[i] < |partitions|
      invariant forall k: nat :: 0 <= k < |partitions| && k !in waiting ==> LinearizableOps(false, m, partitions[k])
      decreases |waiting|
    {
      var i :| 0 <= i < |waiting|;
      var k := waiting[i];
      var result := CheckPartition(m, partitions[k]);
      ok := ok && result;
      if !ok {
        return;
      }
      assert waiting == waiting[..i] + [k] + waiting[i + 1..];
      waiting := Drop(waiting, i);
    }
  }

  /** Some operation of the history is on `key`. */
  ghost predicate HasKey(history: seq<KvOp>, key: string) {
    exists x :: x in history && x.input.key == key
  }

  lemma HasKeyPush(history: seq<KvOp>, v: KvOp, key: string)
    ensures HasKey(history + [v], key) <==> HasKey(history, key) || v.input.key == key
  {
    assert v in history + [v];
  }

  /** The first loop of `Partition`: the operations of each key, in history order. */
  method GroupByKey(history: seq<KvOp>) returns (m: map<string, seq<KvOp>>)
    ensures forall key :: key in m <==> HasKey(history, key)
    ensures forall key :: key in m ==> m[key] == OfKey(history, key)
  {
    hide OfKey, HasKey;
    m := map[];
    var i := 0;
    EmptyOfKey();
    while i < |history|
      invariant 0 <= i <= |history|
      invariant forall key :: key in m <==> HasKey(history[..i], key)
      invariant forall key :: (if key in m then m[key] else []) == OfKey(history[..i], key)
    {
      var v := history[i];
      var key := v.input.key;
      m := m[key := (if key in m then m[key] else []) + [v]];
      assert history[..i + 1] == history[..i] + [v];
      forall k
        ensures (if k in m then m[k] else []) == OfKey(history[..i + 1], k)
        ensures k in m <==> HasKey(history[..i + 1], k)
      {
        HasKeyPush(history[..i], v, k);
        OfKeyPush(history[..i], v, k);
      }
      i := i + 1;
    }
    assert history[..i] == history;
  }

  lemma EmptyOfKey()
    ensures forall key :: OfKey([], key) == [] && !HasKey([], key)
  {
  }

  /** `parts` are the operations of each of `keys`, which are the keys that occur. */
  ghost predicate ByKeys(history: seq<KvOp>, parts: seq<seq<KvOp>>, keys: seq<string>) {
    && Different(keys) && |parts| == |keys|
    && (forall i :: 0 <= i < |keys| ==> parts[i] == OfKey(history, keys[i]))
    && (forall key :: key in keys <==> HasKey(history, key))
  }

  /** `Partition` of the key/value model: one partition per key, in no particular order. */
  method Partition(history: seq<KvOp>) returns (parts: seq<seq<KvOp>>)
    ensures exists keys :: ByKeys(history, parts, keys)
  {
    hide OfKey;
    var m := GroupByKey(history);
    parts := [];
    ghost var keys: seq<string> := [];
    var left := m.Keys;
    while left != {}
      invariant left <= m.Keys && Different(keys) && |parts| == |keys|
      invariant forall key :: key in m <==> key in left || key in keys
      invariant forall key :: key in keys ==> key !in left
      invariant forall j :: 0 <= j < |keys| ==> keys[j] in m && parts[j] == m[keys[j]]
      decreases left
    {
      var key :| key in left;
      parts, keys := parts + [m[key]], keys + [key];
      left := left - {key};
    }
    assert ByKeys(history, parts, keys);
  }

  /**
   `CheckOperations` with the key/value model, on the whole history of all
   keys. A `true` means that some order keeps real time and gives every get
   what was written under its key; if one does with ties kept, the answer is
   `true`. Without ties the answer is exact.
   */
  method CheckKvOperations(history: seq<KvOp>) returns (ok: bool)
    requires Timely(history) && history != []
    ensures ok ==> LinearizableKv(false, history)
    ensures LinearizableKv(true, history) ==> ok
    ensures NoTies(history) ==> (ok <==> LinearizableKv(false, history))
  {
    hide LinearizableOps, LinearizableKv, Simulates, OfKey, NoTies;
    LinearizableMeaning(false, history);
    LinearizableMeaning(true, history);
    var parts := Partition(history);
    ghost var keys :| ByKeys(history, parts, keys);
    assert history[0].input.key in keys by { assert history[0] in history; }
    forall k | 0 <= k < |parts|
      ensures Timely(parts[k])
    {
      OfKeyMembers(history, keys[k]);
    }
    KvModelSimulates();
    ok := CheckOperations(KvModel(), parts);
    if ok {
      KeysImplyStore(history, keys);
    } else if LinearizableOps(true, StoreModel(), history) {
      forall k | 0 <= k < |parts|
        ensures LinearizableOps(true, KvModel(), parts[k])
      {
        StoreImpliesKeys(true, history, keys[k]);
      }
    }
    if NoTies(history) {
      TiesDoNotMatter(StoreModel(), history);
    }
  }

  /** A put and a get that touch: the get may miss the put only if they count as concurrent. */
  function TouchingHistory(): seq<KvOp> {
    [Operation(KvInput(1, "k", "v"), 0, KvOutput(""), 10), Operation(KvInput(0, "k", ""), 10, KvOutput(""), 20)]
  }

  /** With ties the verdict is the sort's: one legal list of this history is linearizable, another is not. */
  lemma TiesCanMatter() returns (s: seq<Timed<KvInput, KvOutput>>, s': seq<Timed<KvInput, KvOutput>>)
    ensures Timely(TouchingHistory()) && IsSorting(TouchingHistory(), s) && IsSorting(TouchingHistory(), s')
    ensures Linearizable(StoreModel(), Untimed(s)) && !Linearizable(StoreModel(), Untimed(s'))
  {
    hide Linearizable, RawEntries;
    TouchingReadings();
    s := ReadingAttained(false, StoreModel(), TouchingHistory());
    s' := ReadingAttained(true, StoreModel(), TouchingHistory());
  }

  /** The two readings of a tie differ on that history. */
  lemma TouchingReadings()
    ensures Timely(TouchingHistory())
    ensures LinearizableOps(false, StoreModel(), TouchingHistory())
    ensures !LinearizableOps(true, StoreModel(), TouchingHistory())
  {
    var ops := TouchingHistory();
    var put, get := ops[0], ops[1];
    assert ops == [put, get];
    assert IsLinearization(false, StoreModel(), ops, [get, put]) by {
      assert [get, put][1..] == [put] && [put][1..] == [];
      assert Runs(StoreModel(), map["k" := ""], [put]);
    }
    forall order | multiset(order) == multiset(ops) && InOrder(true, order)
      ensures !Runs(StoreModel(), map[], order)
    {
      SameElements(order, ops);
      assert order[0] in ops && order[1] in ops;
      assert put in order && get in order;
      if order[0] != get {
        assert order[1] == get && order[1..][0] == get;
        assert !StoreStep(map["k" := "v"], get.input, get.output).0;
      }
    }
  }

  /** One partition of events, from the raw events to the verdict. */
  method CheckEventPartition<S(!new), I(!new), O(!new)>(m: Model<S, I, O>, subhistory: seq<Entry<I, O>>)
    returns (ok: bool)
    requires WellFormed(subhistory)
    ensures ok ==> Linearizable(m, subhistory)
    ensures Simulates(m) && Linearizable(m, subhistory) ==> ok
  {
    hide WellFormed, Linearizable, Simulates, Chain, Represents, Renamed, Dense, Ids;
    var renumbered := Renumber(subhistory);
    ghost var f :| Numbering(subhistory, renumbered, f);
    RenamingIsNeutral(m, subhistory, renumbered, f);
    RenumberedIsNumbered(subhistory, renumbered, f);
    var l, ns := MakeLinkedEntries(renumbered);
    ok := CheckSingle(m, l, renumbered, ns);
  }

  /**
   The collecting loop of `CheckEventsTimeout`, over the partitions that the
   model's `PartitionEvent` made. The default makes one, the whole history.
   */
  method CheckEvents<S(!new), I(!new), O(!new)>(m: Model<S, I, O>, partitions: seq<seq<Entry<I, O>>>) returns (ok: bool)
    requires partitions != [] && forall k :: 0 <= k < |partitions| ==> WellFormed(partitions[k])
    ensures ok ==> forall k :: 0 <= k < |partitions| ==> Linearizable(m, partitions[k])
    ensures Simulates(m) && (forall k :: 0 <= k < |partitions| ==> Linearizable(m, partitions[k])) ==> ok
  {
    hide WellFormed, Linearizable, Simulates;
    ok := true;
    var waiting: seq<nat> := seq(|partitions|, k => k);
    forall k | 0 <= k < |partitions|
      ensures k in waiting
    {
      assert waiting[k] == k;
    }
    while waiting != []
      invariant ok && forall i :: 0 <= i < |waiting| ==> waiting[i] < |partitions|
      invariant forall k: nat :: 0 <= k < |partitions| && k !in waiting ==> Linearizable(m, partitions[k])
      decreases |waiting|
    {
      var i :| 0 <= i < |waiting|;
      var k := waiting[i];
      var result := CheckEventPartition(m, partitions[k]);
      ok := ok && result;
      if !ok {
        return;
      }
      assert waiting == waiting[..i] + [k] + waiting[i + 1..];
      waiting := Drop(waiting, i);
    }
  }

  lemma RenumberedIsNumbered<I, O>(h: seq<Entry<I, O>>, h': seq<Entry<I, O>>, f: map<nat, nat>)
    requires WellFormed(h) && Renamed(h, h', f) && f.Keys == Ids(h) && Dense(f)
    ensures Numbered(h')
  {
    hide WellFormed, CallPos, ReturnPos;
    TwoEntriesEach(h);
    assert |f| == |f.Keys|;
    forall p | 0 <= p < |h'|
      ensures h'[p].id < |h'| / 2
    {
      assert f[h[p].id] in f.Values;
    }
  }

  // ----- events of the key/value model, which has no `PartitionEvent`

  /** Every operation is on this key. */
  ghost predicate OnlyKey(h: seq<Entry<KvInput, KvOutput>>, key: string) {
    forall p :: 0 <= p < |h| && h[p].Call? ==> h[p].input.key == key
  }

  lemma {:induction false} OneKeyAccepts(h: seq<Entry<KvInput, KvOutput>>, key: string, store: Store, order: seq<nat>)
    requires OnlyKey(h, key)
    ensures Accepted(StoreModel(), h, store, order) <==> Accepted(KvModel(), h, Lookup(store, key), order)
    decreases |order|
  {
    if order != [] && CallPos(h, order[0]) < |h| && ReturnPos(h, order[0]) < |h| {
      var store' := Apply(StoreModel(), h, store, order[0]).1;
      assert Lookup(store', key) == Apply(KvModel(), h, Lookup(store, key), order[0]).1;
      OneKeyAccepts(h, key, store', order[1..]);
    }
  }

  /** On the events of a single key, `CheckEvents` with the key/value model checks the store. */
  lemma OneKeyIsStore(h: seq<Entry<KvInput, KvOutput>>, key: string)
    requires OnlyKey(h, key)
    ensures Linearizable(KvModel(), h) <==> Linearizable(StoreModel(), h)
  {
    hide IsOrder;
    forall order
      ensures Accepted(StoreModel(), h, map[], order) <==> Accepted(KvModel(), h, "", order)
    {
      OneKeyAccepts(h, key, map[], order);
    }
  }

  /** A put on one key, then a get on another. */
  function TwoKeys(x: string, y: string): seq<Entry<KvInput, KvOutput>> {
    [Call(0, KvInput(1, x, "v")), Return(0, KvOutput("")), Call(1, KvInput(0, y, "")), Return(1, KvOutput(""))]
  }

  /** On the events of two different keys it does not: the one register stands for both. */
  lemma EventsMixKeys(x: string, y: string)
    requires x != y
    ensures WellFormed(TwoKeys(x, y))
    ensures Linearizable(StoreModel(), TwoKeys(x, y))
    ensures !Linearizable(KvModel(), TwoKeys(x, y))
  {
    hide CallPos, ReturnPos, IsOrder, Accepted;
    TwoKeysPositions(x, y);
    PutThenGet(x, y);
    assert IsOrder(TwoKeys(x, y), {}, [0, 1]) by { IsTheOrder(x, y); }
    forall order | IsOrder(TwoKeys(x, y), {}, order)
      ensures order == [0, 1]
    {
      OnlyOrder(x, y, order);
    }
  }

  /** Every operation is on one of these keys. */
  ghost predicate OnKeys(h: seq<Entry<KvInput, KvOutput>>, keys: set<string>) {
    forall p :: 0 <= p < |h| && h[p].Call? ==> h[p].input.key in keys
  }

  /** The model without partitions and the store agree on this history. */
  ghost predicate SameVerdict(h: seq<Entry<KvInput, KvOutput>>) {
    Linearizable(KvModel(), h) <==> Linearizable(StoreModel(), h)
  }

  /**
   The exact condition: `CheckEvents` with the key/value model checks the store
   on all histories over a set of keys if and only if it has at most one key.
   */
  lemma ExactIffOneKey(keys: set<string>)
    ensures (forall h :: WellFormed(h) && OnKeys(h, keys) ==> SameVerdict(h)) <==>
            (forall x, y :: x in keys && y in keys ==> x == y)
  {
    hide WellFormed, Linearizable;
    if x, y :| x in keys && y in keys && x != y {
      EventsMixKeys(x, y);
      var h := TwoKeys(x, y);
      assert OnKeys(h, keys) && WellFormed(h) && !SameVerdict(h);
    } else {
      forall h | WellFormed(h) && OnKeys(h, keys)
        ensures SameVerdict(h)
      {
        var key := if keys == {} then "" else var k :| k in keys; k;
        OneKeyIsStore(h, key);
      }
    }
  }

  lemma PutThenGet(x: string, y: string)
    requires x != y
    ensures Accepted(StoreModel(), TwoKeys(x, y), map[], [0, 1])
    ensures !Accepted(KvModel(), TwoKeys(x, y), "", [0, 1])
  {
    hide CallPos, ReturnPos;
    TwoKeysPositions(x, y);
    assert [0, 1][1..] == [1] && [1][1..] == [];
    assert Accepted(StoreModel(), TwoKeys(x, y), map[x := "v"], [1]);
    assert !Accepted(KvModel(), TwoKeys(x, y), "v", [1]);
  }

  lemma IsTheOrder(x: string, y: string)
    ensures IsOrder(TwoKeys(x, y), {}, [0, 1])
  {
    hide CallPos, ReturnPos;
    TwoKeysPositions(x, y);
    assert TwoKeys(x, y)[0].id in Ids(TwoKeys(x, y)) && TwoKeys(x, y)[2].id in Ids(TwoKeys(x, y));
  }

  lemma TwoKeysPositions(x: string, y: string)
    ensures var h := TwoKeys(x, y);
            CallPos(h, 0) == 0 && ReturnPos(h, 0) == 1 && CallPos(h, 1) == 2 && ReturnPos(h, 1) == 3
  {
    var h := TwoKeys(x, y);
    assert h[0] == Call(0, KvInput(1, x, "v")) && h[1] == Return(0, KvOutput(""));
    assert h[2] == Call(1, KvInput(0, y, "")) && h[3] == Return(1, KvOutput(""));
  }

  lemma ThirdIsNew(order: seq<nat>)
    ensures NoRepeats(order) && |order| > 2 ==> exists k :: 0 <= k < |order| && order[k] > 1
  {
    if NoRepeats(order) && |order| > 2 {
      assert order[0] != order[1] && order[0] != order[2] && order[1] != order[2];
      assert order[0] > 1 || order[1] > 1 || order[2] > 1;
    }
  }

  lemma OnlyOrder(x: string, y: string, order: seq<nat>)
    requires IsOrder(TwoKeys(x, y), {}, order)
    ensures order == [0, 1]
  {
    hide CallPos, ReturnPos;
    var h := TwoKeys(x, y);
    TwoKeysPositions(x, y);
    assert h[0].id in Ids(h) && h[2].id in Ids(h);
    assert 0 in order && 1 in order;
    assert forall k :: 0 <= k < |order| ==> order[k] in order;
    assert forall k :: 0 <= k < |order| ==> order[k] == 0 || order[k] == 1;
    ThirdIsNew(order);
    assert Precedes(h, 0, 1);
  }
}
