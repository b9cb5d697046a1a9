/**
 What the key/value model means, without its step function: a sequence of
 operations is legal exactly when every get returns what was last put under
 its key, followed by everything appended to that key since.
 */
module KvMeaning {
  import opened Operations
  import opened Locality

  predicate IsGet(x: KvOp) {
    x.input.op == 0
  }

  predicate IsPut(x: KvOp, key: string) {
    x.input.op == 1 && x.input.key == key
  }

  /** Every operation that is neither a get nor a put is an append. */
  predicate IsAppend(x: KvOp, key: string) {
    x.input.op > 1 && x.input.key == key
  }

  /** The index of the last put under the key, or -1. */
  function LastPut(ops: seq<KvOp>, key: string): (p: int)
    ensures -1 <= p < |ops|
    ensures p >= 0 ==> IsPut(ops[p], key)
    ensures forall i :: p < i < |ops| ==> !IsPut(ops[i], key)
  {
    if ops == [] then -1
    else if IsPut(ops[|ops| - 1], key) then |ops| - 1
    else LastPut(ops[..|ops| - 1], key)
  }

  /** The values appended to the key from index `from` on, in order. */
  function Appended(ops: seq<KvOp>, key: string, from: nat): string
    requires from <= |ops|
    decreases |ops| - from
  {
    if from == |ops| then ""
    else if IsAppend(ops[from], key) then ops[from].input.value + Appended(ops, key, from + 1)
    else Appended(ops, key, from + 1)
  }

  /** What the key holds after these operations. */
  function Written(ops: seq<KvOp>, key: string): string {
    var p := LastPut(ops, key);
    (if p < 0 then "" else ops[p].input.value) + Appended(ops, key, p + 1)
  }

  predicate ReadsWritten(ops: seq<KvOp>, i: nat)
    requires i < |ops|
  {
    IsGet(ops[i]) ==> ops[i].output.value == Written(ops[..i], ops[i].input.key)
  }

  /** Every get returns what was written before it. */
  ghost predicate Legal(ops: seq<KvOp>) {
    forall i :: 0 <= i < |ops| ==> ReadsWritten(ops, i)
  }

  /** Some order of the operations reverses no precedence and is legal. */
  ghost predicate LinearizableKv(tied: bool, ops: seq<KvOp>) {
    exists order :: multiset(order) == multiset(ops) && InOrder(tied, order) && Legal(order)
  }

  // ----- one more operation

  lemma LastPutIs(ops: seq<KvOp>, key: string, p: int)
    requires -1 <= p < |ops| && (p >= 0 ==> IsPut(ops[p], key))
    requires forall i :: p < i < |ops| ==> !IsPut(ops[i], key)
    ensures LastPut(ops, key) == p
  {
    var q := LastPut(ops, key);
    assert q >= 0 ==> IsPut(ops[q], key);
    assert p >= 0 ==> IsPut(ops[p], key);
  }

  lemma {:induction false} AppendedPush(ops: seq<KvOp>, x: KvOp, key: string, from: nat)
    requires from <= |ops|
    ensures Appended(ops + [x], key, from)
         == Appended(ops, key, from) + (if IsAppend(x, key) then x.input.value else "")
    decreases |ops| - from
  {
    var ops' := ops + [x];
    if from == |ops| {
      assert Appended(ops', key, from + 1) == "";
    } else {
      AppendedPush(ops, x, key, from + 1);
      assert ops'[from] == ops[from];
    }
  }

  lemma WrittenPush(ops: seq<KvOp>, x: KvOp, key: string)
    ensures Written(ops + [x], key) ==
            if IsPut(x, key) then x.input.value
            else if IsAppend(x, key) then Written(ops, key) + x.input.value
            else Written(ops, key)
  {
    hide LastPut;
    var ops', p := ops + [x], LastPut(ops, key);
    if IsPut(x, key) {
      LastPutIs(ops', key, |ops|);
      assert Appended(ops', key, |ops'|) == "";
    } else {
      LastPutIs(ops', key, p);
      AppendedPush(ops, x, key, p + 1);
    }
  }

  // ----- the store computes it

  ghost predicate Stores(store: Store, ops: seq<KvOp>) {
    forall key :: Lookup(store, key) == Written(ops, key)
  }

  lemma StoreStepStores(store: Store, ops: seq<KvOp>, x: KvOp)
    requires Stores(store, ops)
    ensures StoreStep(store, x.input, x.output).0 <==> ReadsWritten(ops + [x], |ops|)
    ensures Stores(StoreStep(store, x.input, x.output).1, ops + [x])
  {
    hide Written;
    assert (ops + [x])[..|ops|] == ops;
    forall key
      ensures Lookup(StoreStep(store, x.input, x.output).1, key) == Written(ops + [x], key)
    {
      WrittenPush(ops, x, key);
    }
  }

  lemma {:induction false} RunsMeaning(store: Store, done: seq<KvOp>, rest: seq<KvOp>)
    requires Stores(store, done)
    ensures Runs(StoreModel(), store, rest) <==>
            forall i :: |done| <= i < |done + rest| ==> ReadsWritten(done + rest, i)
    decreases |rest|
  {
    hide Stores, ReadsWritten, StoreStep;
    if rest != [] {
      var x, ops := rest[0], done + rest;
      assert ops == (done + [x]) + rest[1..];
      StoreStepStores(store, done, x);
      RunsMeaning(StoreStep(store, x.input, x.output).1, done + [x], rest[1..]);
      SamePrefix(done + [x], rest[1..], |done|);
    }
  }

  /** Whether a get is right depends only on what came before it. */
  lemma SamePrefix(a: seq<KvOp>, b: seq<KvOp>, i: nat)
    requires i < |a|
    ensures ReadsWritten(a + b, i) <==> ReadsWritten(a, i)
  {
    assert (a + b)[..i] == a[..i];
  }

  /** The store accepts a sequence of operations if and only if every get in it returns what was written. */
  lemma StoreMeaning(ops: seq<KvOp>)
    ensures Runs(StoreModel(), map[], ops) <==> Legal(ops)
  {
    assert Stores(map[], []);
    RunsMeaning(map[], [], ops);
    assert [] + ops == ops;
  }

  /** The same for linearizability. */
  lemma LinearizableMeaning(tied: bool, ops: seq<KvOp>)
    ensures LinearizableOps(tied, StoreModel(), ops) <==> LinearizableKv(tied, ops)
  {
    hide Runs, Legal, InOrder;
    forall order
      ensures Runs(StoreModel(), map[], order) <==> Legal(order)
    {
      StoreMeaning(order);
    }
    if LinearizableOps(tied, StoreModel(), ops) {
      var order :| IsLinearization(tied, StoreModel(), ops, order);
    }
    if LinearizableKv(tied, ops) {
      var order :| multiset(order) == multiset(ops) && InOrder(tied, order) && Legal(order);
      assert IsLinearization(tied, StoreModel(), ops, order);
    }
  }
}
