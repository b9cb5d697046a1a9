/**
 A whole MapReduce job: the map phase, the reduce phase, and the merge. Each
 phase runs its tasks in any order and may run a task again, as the scheduler
 does after a failed call; a task that runs again overwrites its files.
 */
module MapReduceJob {
  import opened Sorting
  import opened MapReduceTasks
  import opened MapReduceMerge
  import Scheduler
  import SchedulerTheorems

  /** An input file. */
  datatype Input = Input(name: string, contents: string)

  type MapF = (string, string) -> seq<Pair>

  /** Everything the map function emits, over all files. */
  function Emitted(mapF: MapF, inputs: seq<Input>): seq<Pair> {
    if inputs == [] then [] else
      var n := |inputs| - 1;
      Emitted(mapF, inputs[..n]) + mapF(inputs[n].name, inputs[n].contents)
  }

  /** A later reduce task than the one that owns key "" has no pairs. */
  ghost predicate Masked(ihash: string -> nat, n: nat, emitted: seq<Pair>)
    requires n > 0
  {
    exists r :: ihash("") % n < r < n && Bucket(emitted, ihash, n, r) == []
  }

  /** Some reduce task has no pairs. */
  ghost predicate SomeEmpty(ihash: string -> nat, n: nat, emitted: seq<Pair>)
    requires n > 0
  {
    exists r :: 0 <= r < n && Bucket(emitted, ihash, n, r) == []
  }

  /**
   What the job writes. Every non-empty key that was emitted gets one line, in
   sorted order, with the reducer's value on all its values in some order; no
   other non-empty key does. The empty key gets a line when it was emitted or
   when some reduce task has no pairs; if such a task comes after the owner
   of the empty key, its value comes from no values at all.
   */
  ghost predicate JobOutput<V>(reduceF: (string, seq<string>) -> V, ihash: string -> nat, n: nat, emitted: seq<Pair>,
                               lines: seq<KeyValue<V>>)
    requires n > 0
  {
    && Ascending(KeysOf(lines))
    && (forall k :: HasKey(lines, k) <==> HasKey(emitted, k) || (k == "" && SomeEmpty(ihash, n, emitted)))
    && (forall i :: 0 <= i < |lines| ==>
          ReducesTo(reduceF, lines[i].key, LineValues(ihash, n, emitted, lines[i].key), lines[i].value))
  }

  ghost function LineValues(ihash: string -> nat, n: nat, emitted: seq<Pair>, key: string): multiset<string>
    requires n > 0
  {
    if key == "" && Masked(ihash, n, emitted) then multiset{} else multiset(Values(emitted, key))
  }

  // ----- what an empty reduce task does to the output

  /**
   A job on one file whose map function emits the value "x" for one key, with
   two tasks and every key in the first.
   */
  function OneKeyMap(key: string): MapF {
    (name, contents) => [KeyValue(key, "x")]
  }

  const ONE_FILE: seq<Input> := [Input("file", "")]

  function FirstTask(): string -> nat {
    key => 0
  }

  lemma OneKeyEmitted(key: string)
    ensures Emitted(OneKeyMap(key), ONE_FILE) == [KeyValue(key, "x")]
  {
    assert ONE_FILE[..0] == [];
    assert Emitted(OneKeyMap(key), ONE_FILE) == [] + [KeyValue(key, "x")];
  }

  lemma OneKeyFacts(key: string)
    ensures Bucket([KeyValue(key, "x")], FirstTask(), 2, 1) == []
    ensures forall k :: HasKey([KeyValue(key, "x")], k) <==> k == key
    ensures Values([KeyValue(key, "x")], key) == ["x"]
  {
    var p := KeyValue(key, "x");
    assert [] + [p] == [p];
    BucketAdd([], p, FirstTask(), 2, 1);
    ValuesAdd([], p, key);
    forall k
      ensures HasKey([p], k) <==> k == key
    {
      HasKeyAdd([], p, k);
    }
  }

  lemma NoValuesLeft<V>(reduceF: (string, seq<string>) -> V, value: V)
    requires ReducesTo(reduceF, "", multiset{}, value)
    ensures value == reduceF("", [])
  {
    var vs: seq<string> :| multiset(vs) == multiset{} && value == reduceF("", vs);
    assert |vs| == |multiset(vs)| == 0;
  }

  /**
   The entry of an empty task can replace the real one: "" was emitted with
   "x", and its line is reduced from nothing.
   */
  lemma EmptyTaskReplaces<V>(reduceF: (string, seq<string>) -> V, lines: seq<KeyValue<V>>)
    requires JobOutput(reduceF, FirstTask(), 2, Emitted(OneKeyMap(""), ONE_FILE), lines)
    ensures Values(Emitted(OneKeyMap(""), ONE_FILE), "") == ["x"]
    ensures KeysOf(lines) == [""] && lines[0].value == reduceF("", [])
  {
    hide ReducesTo, Bucket, Values, Emitted;
    OneKeyEmitted("");
    OneKeyFacts("");
    assert Masked(FirstTask(), 2, [KeyValue("", "x")]);
    OnlyKeys(lines, [""]);
    assert lines[0].key == KeysOf(lines)[0] == "";
    NoValuesLeft(reduceF, lines[0].value);
  }

  /** It can also add a line that nobody asked for: "" was never emitted. */
  lemma EmptyTaskAdds<V>(reduceF: (string, seq<string>) -> V, lines: seq<KeyValue<V>>)
    requires JobOutput(reduceF, FirstTask(), 2, Emitted(OneKeyMap("a"), ONE_FILE), lines)
    ensures !HasKey(Emitted(OneKeyMap("a"), ONE_FILE), "")
    ensures KeysOf(lines) == ["", "a"] && lines[0].value == reduceF("", [])
  {
    hide ReducesTo, Bucket, Values, Emitted;
    OneKeyEmitted("a");
    OneKeyFacts("a");
    assert SomeEmpty(FirstTask(), 2, [KeyValue("a", "x")]);
    assert Less("", "a");
    OnlyKeys(lines, ["", "a"]);
    assert Masked(FirstTask(), 2, [KeyValue("a", "x")]);
    assert lines[0].key == KeysOf(lines)[0] == "";
    NoValuesLeft(reduceF, lines[0].value);
  }

  /** Lines in ascending order are determined by their keys. */
  lemma OnlyKeys<V>(lines: seq<KeyValue<V>>, keys: seq<string>)
    requires Ascending(KeysOf(lines)) && Ascending(keys)
    requires forall k :: HasKey(lines, k) <==> k in keys
    ensures KeysOf(lines) == keys
  {
    forall k
      ensures k in KeysOf(lines) <==> HasKey(lines, k)
    {
      if HasKey(lines, k) {
        var i :| 0 <= i < |lines| && lines[i].key == k;
        assert KeysOf(lines)[i] == k;
      }
    }
    AscendingUnique(KeysOf(lines), keys);
  }

  // ----- buckets

  lemma {:induction false} BucketConcat(a: seq<Pair>, b: seq<Pair>, ihash: string -> nat, n: nat, r: nat)
    requires n > 0
    ensures Bucket(a + b, ihash, n, r) == Bucket(a, ihash, n, r) + Bucket(b, ihash, n, r)
  {
    if b == [] {
      assert a + b == a;
    } else {
      var k := |b| - 1;
      BucketConcat(a, b[..k], ihash, n, r);
      assert a + b == a + b[..k] + [b[k]];
      BucketAdd(a + b[..k], b[k], ihash, n, r);
    }
  }

  /** A bucket holds all values of the keys that belong to it, and no others. */
  lemma {:induction false} BucketValues(pairs: seq<Pair>, ihash: string -> nat, n: nat, r: nat, key: string)
    requires n > 0
    ensures Values(Bucket(pairs, ihash, n, r), key) == if ihash(key) % n == r then Values(pairs, key) else []
  {
    if pairs != [] {
      hide Values, Bucket;
      var front, p := pairs[..|pairs| - 1], pairs[|pairs| - 1];
      BucketValues(front, ihash, n, r, key);
      assert pairs == front + [p];
      BucketAdd(front, p, ihash, n, r);
      ValuesAdd(front, p, key);
      if ihash(p.key) % n == r {
        ValuesAdd(Bucket(front, ihash, n, r), p, key);
      }
    }
  }

  /** A bucket has the keys that belong to it, and no others. */
  lemma {:induction false} BucketKeys(pairs: seq<Pair>, ihash: string -> nat, n: nat, r: nat, key: string)
    requires n > 0
    ensures HasKey(Bucket(pairs, ihash, n, r), key) <==> HasKey(pairs, key) && ihash(key) % n == r
  {
    if pairs != [] {
      hide HasKey, Bucket;
      var front, p := pairs[..|pairs| - 1], pairs[|pairs| - 1];
      BucketKeys(front, ihash, n, r, key);
      assert pairs == front + [p];
      BucketAdd(front, p, ihash, n, r);
      HasKeyAdd(front, p, key);
      if ihash(p.key) % n == r {
        HasKeyAdd(Bucket(front, ihash, n, r), p, key);
      }
    }
  }

  // ----- the two phases

  /** What reduce task `r` reads: one file from each map task. */
  function FilesFor(mapF: MapF, inputs: seq<Input>, ihash: string -> nat, n: nat, r: nat): seq<seq<Pair>>
    requires n > 0
  {
    seq(|inputs|, m requires 0 <= m < |inputs| => Bucket(mapF(inputs[m].name, inputs[m].contents), ihash, n, r))
  }

  lemma {:induction false} FilesHoldBucket(mapF: MapF, inputs: seq<Input>, ihash: string -> nat, n: nat, r: nat)
    requires n > 0
    ensures Concat(FilesFor(mapF, inputs, ihash, n, r)) == Bucket(Emitted(mapF, inputs), ihash, n, r)
  {
    if inputs != [] {
      var k := |inputs| - 1;
      FilesHoldBucket(mapF, inputs[..k], ihash, n, r);
      var files := FilesFor(mapF, inputs, ihash, n, r);
      assert files[..k] == FilesFor(mapF, inputs[..k], ihash, n, r);
      BucketConcat(Emitted(mapF, inputs[..k]), mapF(inputs[k].name, inputs[k].contents), ihash, n, r);
    }
  }

  /** Every task number below `n` occurs, in any order, perhaps more than once. */
  ghost predicate Covers(order: seq<nat>, n: nat) {
    && (forall i :: 0 <= i < |order| ==> order[i] < n)
    && (forall t: nat :: t < n ==> t in order)
  }

  /** A phase that `schedule` has returned from has run every task, with or without failed calls in between. */
  lemma ReturnedPhaseCovers(ntasks: nat, workers: set<Scheduler.Worker>, states: seq<Scheduler.Phase>,
                            actions: seq<Scheduler.Action>, order: seq<nat>)
    requires Scheduler.IsRun(ntasks, workers, states, actions) && states[|actions|].loop.Returned?
    requires forall i :: 0 <= i < |order| ==> order[i] < ntasks
    requires forall t :: t in Scheduler.Succeeded(actions) ==> t in order
    ensures Covers(order, ntasks)
  {
    assert actions[..|actions|] == actions;
    SchedulerTheorems.ReturnsIffAllCounted(ntasks, workers, states, actions, |actions|);
    forall t: nat | t < ntasks
      ensures t in order
    {
      Scheduler.InitOnce(ntasks, t);
      assert t in Scheduler.Succeeded(actions);
    }
  }

  ghost predicate Wrote(store: map<(nat, nat), seq<Pair>>, mapF: MapF, inputs: seq<Input>, ihash: string -> nat,
                        n: nat, m: nat)
    requires n > 0 && m < |inputs|
  {
    forall r: nat :: r < n ==>
      (m, r) in store && store[(m, r)] == Bucket(mapF(inputs[m].name, inputs[m].contents), ihash, n, r)
  }

  /** The map phase: task `m` writes its intermediate files `(m, r)`. */
  method MapPhase(mapF: MapF, inputs: seq<Input>, ihash: string -> nat, nReduce: nat, order: seq<nat>)
    returns (store: map<(nat, nat), seq<Pair>>)
    requires nReduce > 0 && Covers(order, |inputs|)
    ensures forall m: nat :: m < |inputs| ==> Wrote(store, mapF, inputs, ihash, nReduce, m)
  {
    store := map[];
    for i := 0 to |order|
      invariant forall m: nat :: m in order[..i] ==> Wrote(store, mapF, inputs, ihash, nReduce, m)
    {
      var m := order[i];
      var files := DoMap(mapF(inputs[m].name, inputs[m].contents), ihash, nReduce);
      store := store + map r: nat | r < nReduce :: (m, r) := files[r];
      assert order[..i + 1] == order[..i] + [m];
    }
    assert order[..|order|] == order;
  }

  /** The reduce phase: task `r` reads files `(m, r)` of all map tasks and writes output `r`. */
  method ReducePhase<V>(store: map<(nat, nat), seq<Pair>>, nMap: nat, nReduce: nat,
                        reduceF: (string, seq<string>) -> V, order: seq<nat>)
    returns (outputs: map<nat, seq<KeyValue<V>>>)
    requires Covers(order, nReduce)
    requires forall m: nat, r: nat :: m < nMap && r < nReduce ==> (m, r) in store
    ensures forall r: nat :: r < nReduce ==>
              r in outputs && Reduced(reduceF, Concat(seq(nMap, m requires 0 <= m < nMap => store[(m, r)])), outputs[r])
  {
    hide Reduced;
    outputs := map[];
    for i := 0 to |order|
      invariant forall r: nat :: r in order[..i] ==>
                  r < nReduce && r in outputs
                  && Reduced(reduceF, Concat(seq(nMap, m requires 0 <= m < nMap => store[(m, r)])), outputs[r])
    {
      var r := order[i];
      var out := DoReduce(seq(nMap, m requires 0 <= m < nMap => store[(m, r)]), reduceF);
      outputs := outputs[r := out];
      assert order[..i + 1] == order[..i] + [r];
    }
    assert order[..|order|] == order;
  }

  // ----- the merged output

  lemma {:induction false} LastIsEntry<V>(entries: seq<KeyValue<V>>, key: string) returns (i: nat)
    requires HasKey(entries, key)
    ensures i < |entries| && entries[i].key == key && entries[i].value == Last(entries, key)
  {
    var n := |entries| - 1;
    if entries[n].key == key {
      i := n;
    } else {
      Shorter(entries, key);
      i := LastIsEntry(entries[..n], key);
    }
  }

  lemma {:induction false} HasKeyConcat<V>(a: seq<KeyValue<V>>, b: seq<KeyValue<V>>, key: string)
    ensures HasKey(a + b, key) <==> HasKey(a, key) || HasKey(b, key)
    ensures HasKey(b, key) ==> HasKey(a + b, key) && Last(a + b, key) == Last(b, key)
    ensures HasKey(a, key) && !HasKey(b, key) ==> HasKey(a + b, key) && Last(a + b, key) == Last(a, key)
  {
    if b == [] {
      assert a + b == a;
    } else {
      hide HasKey;
      var front, e := b[..|b| - 1], b[|b| - 1];
      assert a + b == a + front + [e] && b == front + [e];
      HasKeyConcat(a, front, key);
      HasKeyAdd(a + front, e, key);
      HasKeyAdd(front, e, key);
      if HasKey(a + b, key) {
        LastAdd(a + front, e, key);
      }
      if HasKey(b, key) {
        LastAdd(front, e, key);
      }
    }
  }

  /** The last reduce task that wrote an entry for a key: its entry is the one that counts. */
  lemma {:induction false} LastTask<V>(outputs: seq<seq<KeyValue<V>>>, key: string) returns (r: nat)
    requires HasKey(Concat(outputs), key)
    ensures r < |outputs| && HasKey(outputs[r], key) && Last(Concat(outputs), key) == Last(outputs[r], key)
    ensures forall q :: r < q < |outputs| ==> !HasKey(outputs[q], key)
  {
    var n := |outputs| - 1;
    HasKeyConcat(Concat(outputs[..n]), outputs[n], key);
    if HasKey(outputs[n], key) {
      r := n;
    } else {
      r := LastTask(outputs[..n], key);
      assert forall q :: 0 <= q < n ==> outputs[..n][q] == outputs[q];
    }
  }

  lemma {:induction false} SomeTask<V>(outputs: seq<seq<KeyValue<V>>>, key: string, r: nat)
    requires r < |outputs| && HasKey(outputs[r], key)
    ensures HasKey(Concat(outputs), key)
  {
    var n := |outputs| - 1;
    HasKeyConcat(Concat(outputs[..n]), outputs[n], key);
    if r < n {
      SomeTask(outputs[..n], key, r);
    }
  }

  ghost predicate AllReduced<V>(reduceF: (string, seq<string>) -> V, ihash: string -> nat, n: nat, emitted: seq<Pair>,
                                outputs: seq<seq<KeyValue<V>>>)
    requires n > 0
  {
    |outputs| == n
    && forall r :: 0 <= r < n ==> Reduced(reduceF, Bucket(emitted, ihash, n, r), outputs[r])
  }

  /** Which reduce outputs have an entry for a key. */
  lemma TaskHasKey<V>(reduceF: (string, seq<string>) -> V, ihash: string -> nat, n: nat, emitted: seq<Pair>,
                      outputs: seq<seq<KeyValue<V>>>, r: nat, key: string)
    requires n > 0 && AllReduced(reduceF, ihash, n, emitted, outputs) && r < n
    ensures HasKey(outputs[r], key) <==>
              (HasKey(emitted, key) && ihash(key) % n == r) || (key == "" && Bucket(emitted, ihash, n, r) == [])
  {
    hide HasKey, StrictlyDescending, ReducesTo;
    assert Reduced(reduceF, Bucket(emitted, ihash, n, r), outputs[r]);
    BucketKeys(emitted, ihash, n, r, key);
  }

  lemma OutputKeys<V>(reduceF: (string, seq<string>) -> V, ihash: string -> nat, n: nat, emitted: seq<Pair>,
                      outputs: seq<seq<KeyValue<V>>>, key: string)
    requires n > 0 && AllReduced(reduceF, ihash, n, emitted, outputs)
    ensures HasKey(Concat(outputs), key) <==>
              HasKey(emitted, key) || (key == "" && SomeEmpty(ihash, n, emitted))
  {
    hide HasKey, AllReduced;
    Sized(reduceF, ihash, n, emitted, outputs);
    forall r | 0 <= r < n
      ensures HasKey(outputs[r], key) <==>
                (HasKey(emitted, key) && ihash(key) % n == r) || (key == "" && Bucket(emitted, ihash, n, r) == [])
    {
      TaskHasKey(reduceF, ihash, n, emitted, outputs, r, key);
    }
    if HasKey(Concat(outputs), key) {
      var r := LastTask(outputs, key);
    }
    if HasKey(emitted, key) {
      SomeTask(outputs, key, ihash(key) % n);
    } else if key == "" && SomeEmpty(ihash, n, emitted) {
      var r :| 0 <= r < n && Bucket(emitted, ihash, n, r) == [];
      SomeTask(outputs, key, r);
    }
  }

  lemma Sized<V>(reduceF: (string, seq<string>) -> V, ihash: string -> nat, n: nat, emitted: seq<Pair>,
                 outputs: seq<seq<KeyValue<V>>>)
    requires n > 0 && AllReduced(reduceF, ihash, n, emitted, outputs)
    ensures |outputs| == n
  {
  }

  /** The values behind the entry that counts for a key. */
  lemma WinningValues(ihash: string -> nat, n: nat, emitted: seq<Pair>, r: nat, key: string)
    requires n > 0 && r < n
    requires (HasKey(emitted, key) && ihash(key) % n == r) || (key == "" && Bucket(emitted, ihash, n, r) == [])
    requires HasKey(emitted, key) ==> ihash(key) % n <= r
    requires key == "" ==> forall q :: r < q < n ==> Bucket(emitted, ihash, n, q) != []
    ensures multiset(Values(Bucket(emitted, ihash, n, r), key)) == LineValues(ihash, n, emitted, key)
  {
    hide HasKey, Bucket, Values;
    BucketValues(emitted, ihash, n, r, key);
    if ihash(key) % n > r {
      NoValues(emitted, key);
    }
  }

  lemma OutputValue<V>(reduceF: (string, seq<string>) -> V, ihash: string -> nat, n: nat, emitted: seq<Pair>,
                       outputs: seq<seq<KeyValue<V>>>, key: string)
    requires n > 0 && AllReduced(reduceF, ihash, n, emitted, outputs) && HasKey(Concat(outputs), key)
    ensures ReducesTo(reduceF, key, LineValues(ihash, n, emitted, key), Last(Concat(outputs), key))
  {
    hide HasKey, ReducesTo, StrictlyDescending, Bucket;
    var r := LastTask(outputs, key);
    forall q | r <= q < n
      ensures HasKey(outputs[q], key) <==>
                (HasKey(emitted, key) && ihash(key) % n == q) || (key == "" && Bucket(emitted, ihash, n, q) == [])
    {
      TaskHasKey(reduceF, ihash, n, emitted, outputs, q, key);
    }
    TaskHasKey(reduceF, ihash, n, emitted, outputs, ihash(key) % n, key);
    WinningValues(ihash, n, emitted, r, key);
    assert Reduced(reduceF, Bucket(emitted, ihash, n, r), outputs[r]);
    var i := LastIsEntry(outputs[r], key);
  }

  lemma MergedIsOutput<V>(reduceF: (string, seq<string>) -> V, ihash: string -> nat, n: nat, emitted: seq<Pair>,
                          outputs: seq<seq<KeyValue<V>>>, lines: seq<KeyValue<V>>)
    requires n > 0 && AllReduced(reduceF, ihash, n, emitted, outputs) && Merged(Concat(outputs), lines)
    ensures JobOutput(reduceF, ihash, n, emitted, lines)
  {
    hide HasKey, ReducesTo, AllReduced, LineValues;
    forall k
      ensures HasKey(lines, k) <==> HasKey(emitted, k) || (k == "" && SomeEmpty(ihash, n, emitted))
    {
      OutputKeys(reduceF, ihash, n, emitted, outputs, k);
    }
    forall i | 0 <= i < |lines|
      ensures ReducesTo(reduceF, lines[i].key, LineValues(ihash, n, emitted, lines[i].key), lines[i].value)
    {
      OutputValue(reduceF, ihash, n, emitted, outputs, lines[i].key);
    }
  }

  /** A job refines its specification, whatever the order and repetition of its tasks. */
  method Run<V>(mapF: MapF, reduceF: (string, seq<string>) -> V, ihash: string -> nat, nReduce: nat,
                inputs: seq<Input>, mapOrder: seq<nat>, reduceOrder: seq<nat>)
    returns (lines: seq<KeyValue<V>>)
    requires nReduce > 0 && Covers(mapOrder, |inputs|) && Covers(reduceOrder, nReduce)
    ensures JobOutput(reduceF, ihash, nReduce, Emitted(mapF, inputs), lines)
  {
    hide JobOutput, Reduced, Merged;
    var store := MapPhase(mapF, inputs, ihash, nReduce, mapOrder);
    forall m: nat, r: nat | m < |inputs| && r < nReduce
      ensures (m, r) in store
    {
      assert Wrote(store, mapF, inputs, ihash, nReduce, m);
    }
    var outputs := ReducePhase(store, |inputs|, nReduce, reduceF, reduceOrder);
    var files := seq(nReduce, r requires 0 <= r < nReduce => outputs[r]);
    forall r | 0 <= r < nReduce
      ensures Reduced(reduceF, Bucket(Emitted(mapF, inputs), ihash, nReduce, r), files[r])
    {
      FilesHoldBucket(mapF, inputs, ihash, nReduce, r);
      var stored := seq(|inputs|, m requires 0 <= m < |inputs| => store[(m, r)]);
      forall m | 0 <= m < |inputs|
        ensures stored[m] == FilesFor(mapF, inputs, ihash, nReduce, r)[m]
      {
        assert Wrote(store, mapF, inputs, ihash, nReduce, m);
      }
      assert stored == FilesFor(mapF, inputs, ihash, nReduce, r);
    }
    lines := Merge(files);
    MergedIsOutput(reduceF, ihash, nReduce, Emitted(mapF, inputs), files, lines);
  }
}
