/**
 The key/value model of the checker, and why checking each key on its own is
 enough: the locality theorem of Herlihy and Wing for a map-of-strings store.
 */
module Locality {
  import opened Linearizability
  import opened Operations

  datatype KvInput = KvInput(op: nat, key: string, value: string)

  datatype KvOutput = KvOutput(value: string)

  type KvOp = Operation<KvInput, KvOutput>

  // ----- the model of one key, and the store it is meant to check

  function KvStep(state: string, input: KvInput, output: KvOutput): (bool, string) {
    if input.op == 0 then (output.value == state, state)
    else if input.op == 1 then (true, input.value)
    else (true, state + input.value)
  }

  /** `KvModel`: the state is the value of a single key. */
  function KvModel(): Model<string, KvInput, KvOutput> {
    Model("", KvStep, (a: string, b: string) => a == b)
  }

  lemma KvModelSimulates()
    ensures Simulates(KvModel())
  {
  }

  type Store = map<string, string>

  function Lookup(store: Store, key: string): string {
    if key in store then store[key] else ""
  }

  function StoreStep(store: Store, input: KvInput, output: KvOutput): (bool, Store) {
    var (ok, value) := KvStep(Lookup(store, input.key), input, output);
    (ok, store[input.key := value])
  }

  /** The whole store: every operation acts on its own key. */
  function StoreModel(): Model<Store, KvInput, KvOutput> {
    Model(map[], StoreStep, (a: Store, b: Store) => a == b)
  }

  // ----- the operations of one key

  function OfKey(ops: seq<KvOp>, key: string): seq<KvOp> {
    if ops == [] then []
    else if ops[0].input.key == key then [ops[0]] + OfKey(ops[1..], key)
    else OfKey(ops[1..], key)
  }

  lemma {:induction false} OfKeyPush(ops: seq<KvOp>, x: KvOp, key: string)
    ensures OfKey(ops + [x], key) == OfKey(ops, key) + (if x.input.key == key then [x] else [])
  {
    if ops == [] {
      assert ops + [x] == [x];
    } else {
      assert (ops + [x])[1..] == ops[1..] + [x];
      OfKeyPush(ops[1..], x, key);
    }
  }

  lemma {:induction false} OfKeyMembers(ops: seq<KvOp>, key: string)
    ensures forall x :: x in OfKey(ops, key) <==> x in ops && x.input.key == key
  {
    if ops != [] {
      OfKeyMembers(ops[1..], key);
      assert ops == [ops[0]] + ops[1..];
    }
  }

  lemma {:induction false} OfKeyMultiset(ops: seq<KvOp>, key: string, x: KvOp)
    ensures multiset(OfKey(ops, key))[x] == if x.input.key == key then multiset(ops)[x] else 0
  {
    if ops != [] {
      OfKeyMultiset(ops[1..], key, x);
      assert ops == [ops[0]] + ops[1..];
    }
  }

  lemma {:induction false} OfKeyInOrder(tied: bool, ops: seq<KvOp>, key: string)
    requires InOrder(tied, ops)
    ensures InOrder(tied, OfKey(ops, key))
  {
    if ops != [] {
      var rest := ops[1..];
      assert InOrder(tied, rest);
      OfKeyInOrder(tied, rest, key);
      OfKeyMembers(rest, key);
      var r := OfKey(rest, key);
      forall j | 0 <= j < |r|
        ensures !Earlier(tied, r[j], ops[0])
      {
        assert r[j] in rest;
        var k :| 0 <= k < |rest| && rest[k] == r[j];
        assert ops[k + 1] == r[j];
      }
    }
  }

  /** The store accepts a sequence exactly when every key accepts its part. */
  lemma {:induction false} RunsByKey(ops: seq<KvOp>, store: Store)
    ensures Runs(StoreModel(), store, ops) <==> forall key :: Runs(KvModel(), Lookup(store, key), OfKey(ops, key))
  {
    if ops != [] {
      var x, rest := ops[0], ops[1..];
      var k := x.input.key;
      var (ok, value) := KvStep(Lookup(store, k), x.input, x.output);
      var store' := store[k := value];
      RunsByKey(rest, store');
      assert OfKey(ops, k) == [x] + OfKey(rest, k);
      assert ([x] + OfKey(rest, k))[1..] == OfKey(rest, k);
      assert Runs(KvModel(), Lookup(store, k), OfKey(ops, k)) <==> ok && Runs(KvModel(), value, OfKey(rest, k));
      forall key | key != k
        ensures Lookup(store', key) == Lookup(store, key) && OfKey(ops, key) == OfKey(rest, key)
      {
      }
      assert Lookup(store', k) == value;
    }
  }

  // ----- from the store to the keys

  /** A linearization of the store gives one of every key. */
  lemma StoreImpliesKeys(tied: bool, ops: seq<KvOp>, key: string)
    requires LinearizableOps(tied, StoreModel(), ops)
    ensures LinearizableOps(tied, KvModel(), OfKey(ops, key))
  {
    var order :| IsLinearization(tied, StoreModel(), ops, order);
    forall x
      ensures multiset(OfKey(order, key))[x] == multiset(OfKey(ops, key))[x]
    {
      OfKeyMultiset(order, key, x);
      OfKeyMultiset(ops, key, x);
    }
    OfKeyInOrder(tied, order, key);
    RunsByKey(order, map[]);
    assert Lookup(map[], key) == "";
    assert IsLinearization(tied, KvModel(), OfKey(ops, key), OfKey(order, key));
  }

  // ----- from the keys to the store

  function MinReturn(ops: seq<KvOp>): (r: int)
    requires ops != []
    ensures exists x :: x in ops && x.ret == r
    ensures forall x :: x in ops ==> r <= x.ret
  {
    if |ops| == 1 then ops[0].ret
    else
      var r := MinReturn(ops[1..]);
      assert ops == [ops[0]] + ops[1..];
      if ops[0].ret <= r then ops[0].ret else r
  }

  /** Two orders into one: always the head of the one that owns the earliest return left. */
  function Merge(a: seq<KvOp>, b: seq<KvOp>): seq<KvOp>
    decreases |a| + |b|
  {
    if a == [] then b
    else if b == [] then a
    else if MinReturn(a) <= MinReturn(b) then [a[0]] + Merge(a[1..], b)
    else [b[0]] + Merge(a, b[1..])
  }

  lemma ConsCount(y: KvOp, s: seq<KvOp>, x: KvOp)
    ensures multiset([y] + s)[x] == multiset(s)[x] + (if x == y then 1 else 0)
  {
  }

  /** A merge starts with the head of one of the two. */
  lemma MergeHead(a: seq<KvOp>, b: seq<KvOp>)
    ensures a == [] ==> Merge(a, b) == b
    ensures b == [] ==> Merge(a, b) == a
    ensures a != [] && b != [] ==>
              Merge(a, b) == [a[0]] + Merge(a[1..], b) || Merge(a, b) == [b[0]] + Merge(a, b[1..])
  {
    hide MinReturn;
  }

  lemma CountFirst(s: seq<KvOp>, x: KvOp)
    requires s != []
    ensures multiset(s)[x] == multiset(s[1..])[x] + (if x == s[0] then 1 else 0)
  {
    assert s == [s[0]] + s[1..];
  }

  lemma {:induction false} MergeCount(a: seq<KvOp>, b: seq<KvOp>, x: KvOp)
    ensures multiset(Merge(a, b))[x] == multiset(a)[x] + multiset(b)[x]
    decreases |a| + |b|
  {
    hide Merge;
    MergeHead(a, b);
    if a != [] && b != [] {
      if Merge(a, b) == [a[0]] + Merge(a[1..], b) {
        MergeCount(a[1..], b, x);
        CountFirst(a, x);
        ConsCount(a[0], Merge(a[1..], b), x);
      } else {
        MergeCount(a, b[1..], x);
        CountFirst(b, x);
        ConsCount(b[0], Merge(a, b[1..]), x);
      }
    }
  }

  lemma MergeMultiset(a: seq<KvOp>, b: seq<KvOp>)
    ensures multiset(Merge(a, b)) == multiset(a) + multiset(b)
  {
    hide Merge;
    forall x
      ensures multiset(Merge(a, b))[x] == multiset(a)[x] + multiset(b)[x]
    {
      MergeCount(a, b, x);
    }
  }

  lemma MergeMembers(a: seq<KvOp>, b: seq<KvOp>)
    ensures forall x :: x in Merge(a, b) <==> x in a || x in b
  {
    MergeMultiset(a, b);
    forall x
      ensures x in Merge(a, b) <==> x in a || x in b
    {
      assert x in Merge(a, b) <==> x in multiset(Merge(a, b));
      assert x in a <==> x in multiset(a);
      assert x in b <==> x in multiset(b);
    }
  }

  /** The head of the order with the earliest return was called before anything left returned. */
  lemma HeadIsFree(a: seq<KvOp>, b: seq<KvOp>, y: KvOp)
    requires a != [] && b != [] && InOrder(false, a) && Timely(a) && MinReturn(a) <= MinReturn(b)
    requires y in a || y in b
    ensures !Earlier(false, y, a[0])
  {
    if y in a {
      var k :| 0 <= k < |a| && a[k] == y;
    } else {
      var o :| o in a && o.ret == MinReturn(a);
      var k :| 0 <= k < |a| && a[k] == o;
      assert !Earlier(false, o, a[0]) by { assert a[0] in a; }
    }
  }

  lemma InOrderCons(x: KvOp, s: seq<KvOp>)
    requires InOrder(false, s) && forall y :: y in s ==> !Earlier(false, y, x)
    ensures InOrder(false, [x] + s)
  {
  }

  lemma Tail(s: seq<KvOp>)
    requires s != [] && InOrder(false, s) && Timely(s)
    ensures InOrder(false, s[1..]) && Timely(s[1..])
    ensures forall y :: y in s[1..] ==> y in s
  {
    assert s == [s[0]] + s[1..];
  }

  lemma {:induction false} MergeInOrder(a: seq<KvOp>, b: seq<KvOp>)
    requires InOrder(false, a) && InOrder(false, b) && Timely(a) && Timely(b)
    ensures InOrder(false, Merge(a, b))
    decreases |a| + |b|
  {
    hide MinReturn, InOrder, Timely;
    if a != [] && b != [] {
      if MinReturn(a) <= MinReturn(b) {
        Tail(a);
        MergeInOrder(a[1..], b);
        HeadFirst(a, b, Merge(a[1..], b)) by { MergeMembers(a[1..], b); }
      } else {
        Tail(b);
        MergeInOrder(a, b[1..]);
        HeadFirst(b, a, Merge(a, b[1..])) by { MergeMembers(a, b[1..]); }
      }
    }
  }

  lemma HeadFirst(a: seq<KvOp>, b: seq<KvOp>, rest: seq<KvOp>)
    requires a != [] && b != [] && InOrder(false, a) && Timely(a) && MinReturn(a) <= MinReturn(b)
    requires InOrder(false, rest) && forall y :: y in rest ==> y in a || y in b
    ensures InOrder(false, [a[0]] + rest)
  {
    hide MinReturn;
    forall y | y in rest
      ensures !Earlier(false, y, a[0])
    {
      HeadIsFree(a, b, y);
    }
    InOrderCons(a[0], rest);
  }

  lemma {:induction false} NoneOfKey(s: seq<KvOp>, key: string)
    requires forall x :: x in s ==> x.input.key != key
    ensures OfKey(s, key) == []
  {
    if s != [] {
      assert s == [s[0]] + s[1..];
      NoneOfKey(s[1..], key);
    }
  }

  lemma {:induction false} AllOfKey(s: seq<KvOp>, key: string)
    requires forall x :: x in s ==> x.input.key == key
    ensures OfKey(s, key) == s
  {
    if s != [] {
      assert s == [s[0]] + s[1..];
      AllOfKey(s[1..], key);
    }
  }

  lemma OfKeyCons(x: KvOp, s: seq<KvOp>, key: string)
    ensures OfKey([x] + s, key) == if x.input.key == key then [x] + OfKey(s, key) else OfKey(s, key)
  {
    assert ([x] + s)[1..] == s;
  }

  /** Merging with operations of other keys does not disturb a key. */
  lemma {:induction false} MergeOfKey(a: seq<KvOp>, b: seq<KvOp>, key: string)
    requires (forall x :: x in a ==> x.input.key != key) || (forall x :: x in b ==> x.input.key != key)
    ensures OfKey(Merge(a, b), key) == OfKey(a, key) + OfKey(b, key)
    decreases |a| + |b|
  {
    hide MinReturn, OfKey;
    if forall x :: x in a ==> x.input.key != key {
      NoneOfKey(a, key);
    } else {
      NoneOfKey(b, key);
    }
    if a != [] && b != [] {
      if MinReturn(a) <= MinReturn(b) {
        assert a == [a[0]] + a[1..];
        MergeOfKey(a[1..], b, key);
        OfKeyCons(a[0], a[1..], key);
        OfKeyCons(a[0], Merge(a[1..], b), key);
      } else {
        assert b == [b[0]] + b[1..];
        MergeOfKey(a, b[1..], key);
        OfKeyCons(b[0], b[1..], key);
        OfKeyCons(b[0], Merge(a, b[1..]), key);
      }
    } else {
      NoneOfKey([], key);
    }
  }

  /** `order` is a linearization of the operations whose key is in `keys`, key by key. */
  ghost predicate CoversKeys(ops: seq<KvOp>, keys: seq<string>, order: seq<KvOp>) {
    && InOrder(false, order)
    && Timely(order)
    && (forall x :: multiset(order)[x] == if x.input.key in keys then multiset(ops)[x] else 0)
    && (forall key :: Runs(KvModel(), "", OfKey(order, key)))
  }

  ghost predicate Different(keys: seq<string>) {
    forall i, j :: 0 <= i < j < |keys| ==> keys[i] != keys[j]
  }

  /** Adding the order of one more key. */
  lemma AddKey(ops: seq<KvOp>, keys: seq<string>, key: string, order: seq<KvOp>, own: seq<KvOp>)
    requires Timely(ops) && CoversKeys(ops, keys, order) && key !in keys
    requires IsLinearization(false, KvModel(), OfKey(ops, key), own)
    ensures CoversKeys(ops, keys + [key], Merge(order, own))
  {
    hide InOrder, Runs, Merge;
    SameElements(own, OfKey(ops, key));
    OfKeyMembers(ops, key);
    assert forall x :: x in own ==> x in ops && x.input.key == key;
    assert forall x :: x in order ==> x.input.key != key by {
      forall x | x in order
        ensures x.input.key != key
      {
        assert x in multiset(order);
      }
    }
    MergeInOrder(order, own);
    MergeMultiset(order, own);
    MergeMembers(order, own);
    forall x
      ensures multiset(Merge(order, own))[x] == if x.input.key in keys + [key] then multiset(ops)[x] else 0
    {
      OfKeyMultiset(ops, key, x);
    }
    forall k
      ensures Runs(KvModel(), "", OfKey(Merge(order, own), k))
    {
      MergeOfKey(order, own, k);
      if k == key {
        NoneOfKey(order, k);
        AllOfKey(own, k);
        assert OfKey(Merge(order, own), k) == own;
      } else {
        NoneOfKey(own, k);
        assert OfKey(Merge(order, own), k) == OfKey(order, k);
      }
    }
  }

  lemma {:induction false} MergeKeys(ops: seq<KvOp>, keys: seq<string>) returns (order: seq<KvOp>)
    requires Timely(ops) && Different(keys)
    requires forall k :: 0 <= k < |keys| ==> LinearizableOps(false, KvModel(), OfKey(ops, keys[k]))
    ensures CoversKeys(ops, keys, order)
    decreases |keys|
  {
    hide IsLinearization;
    if keys == [] {
      order := [];
      NoKeys(ops);
    } else {
      var n := |keys| - 1;
      var front := MergeKeys(ops, keys[..n]);
      var own :| IsLinearization(false, KvModel(), OfKey(ops, keys[n]), own);
      AddKey(ops, keys[..n], keys[n], front, own);
      assert keys == keys[..n] + [keys[n]];
      order := Merge(front, own);
    }
  }

  lemma NoKeys(ops: seq<KvOp>)
    ensures CoversKeys(ops, [], [])
  {
  }

  /** Linearizations of all keys give one of the store. */
  lemma KeysImplyStore(ops: seq<KvOp>, keys: seq<string>)
    requires Timely(ops) && Different(keys)
    requires forall x :: x in ops ==> x.input.key in keys
    requires forall k :: 0 <= k < |keys| ==> LinearizableOps(false, KvModel(), OfKey(ops, keys[k]))
    ensures LinearizableOps(false, StoreModel(), ops)
  {
    hide InOrder, Runs;
    var order := MergeKeys(ops, keys);
    forall x
      ensures multiset(order)[x] == multiset(ops)[x]
    {
      if x in multiset(ops) {
        assert x in ops;
      }
    }
    RunsByKey(order, map[]);
    assert forall key :: Lookup(map[], key) == "";
    assert IsLinearization(false, StoreModel(), ops, order);
  }

  /**
   Locality: a timely history of the store is linearizable exactly when the
   operations of each of its keys are.
   */
  lemma StoreIffKeys(ops: seq<KvOp>, keys: seq<string>)
    requires Timely(ops) && Different(keys)
    requires forall x :: x in ops ==> x.input.key in keys
    ensures LinearizableOps(false, StoreModel(), ops) <==>
            forall k :: 0 <= k < |keys| ==> LinearizableOps(false, KvModel(), OfKey(ops, keys[k]))
  {
    hide LinearizableOps;
    if LinearizableOps(false, StoreModel(), ops) {
      forall k | 0 <= k < |keys|
        ensures LinearizableOps(false, KvModel(), OfKey(ops, keys[k]))
      {
        StoreImpliesKeys(false, ops, keys[k]);
      }
    }
    if forall k :: 0 <= k < |keys| ==> LinearizableOps(false, KvModel(), OfKey(ops, keys[k])) {
      KeysImplyStore(ops, keys);
    }
  }
}
