/**
 The three pieces of work of a MapReduce job: `doMap` splits the pairs of one
 input file over the reduce tasks, `doReduce` gathers, sorts and groups the
 pairs of one reduce task, `merge` combines all reduce outputs. Files are
 sequences of pairs; `ihash` is any function from keys to numbers.
 */
module MapReduceTasks {
  import opened Sorting

  datatype KeyValue<V> = KeyValue(key: string, value: V)

  type Pair = KeyValue<string>

  // ----- the reference definitions

  ghost predicate HasKey<V>(pairs: seq<KeyValue<V>>, key: string) {
    exists i :: 0 <= i < |pairs| && pairs[i].key == key
  }

  /** The values that go with one key, in order. */
  function Values(pairs: seq<Pair>, key: string): seq<string> {
    if pairs == [] then [] else
      var n := |pairs| - 1;
      if pairs[n].key == key then Values(pairs[..n], key) + [pairs[n].value] else Values(pairs[..n], key)
  }

  /** The pairs that go to reduce task `r` out of `n`. */
  function Bucket(pairs: seq<Pair>, ihash: string -> nat, n: nat, r: nat): seq<Pair>
    requires n > 0
  {
    if pairs == [] then [] else
      var k := |pairs| - 1;
      var front := Bucket(pairs[..k], ihash, n, r);
      if ihash(pairs[k].key) % n == r then front + [pairs[k]] else front
  }

  /** `value` is what the reducer gives for `key` on these values in some order. */
  ghost predicate ReducesTo<V>(reduceF: (string, seq<string>) -> V, key: string, values: multiset<string>, value: V) {
    exists vs :: multiset(vs) == values && value == reduceF(key, vs)
  }

  ghost predicate Descending<V>(pairs: seq<KeyValue<V>>) {
    forall i, j :: 0 <= i < j < |pairs| ==> !Less(pairs[i].key, pairs[j].key)
  }

  ghost predicate StrictlyDescending<V>(pairs: seq<KeyValue<V>>) {
    forall i, j :: 0 <= i < j < |pairs| ==> Less(pairs[j].key, pairs[i].key)
  }

  /**
   The output of a reduce task: one entry per key, keys descending, each value
   reduced from all values of its key. A task with no pairs still writes one
   entry, for the empty key and no values.
   */
  ghost predicate Reduced<V>(reduceF: (string, seq<string>) -> V, pairs: seq<Pair>, out: seq<KeyValue<V>>) {
    && StrictlyDescending(out)
    && (forall k :: HasKey(out, k) <==> HasKey(pairs, k) || (pairs == [] && k == ""))
    && (forall i :: 0 <= i < |out| ==>
          ReducesTo(reduceF, out[i].key, multiset(Values(pairs, out[i].key)), out[i].value))
  }

  // ----- properties of the definitions

  lemma ValuesAdd(pairs: seq<Pair>, p: Pair, key: string)
    ensures Values(pairs + [p], key) == if p.key == key then Values(pairs, key) + [p.value] else Values(pairs, key)
  {
    assert (pairs + [p])[..|pairs|] == pairs;
  }

  lemma {:induction false} ValuesConcat(a: seq<Pair>, b: seq<Pair>, key: string)
    ensures Values(a + b, key) == Values(a, key) + Values(b, key)
  {
    if b == [] {
      assert a + b == a;
    } else {
      var front, p := b[..|b| - 1], b[|b| - 1];
      assert a + b == a + front + [p] && b == front + [p];
      ValuesConcat(a, front, key);
      ValuesAdd(a + front, p, key);
      ValuesAdd(front, p, key);
    }
  }

  lemma {:induction false} NoValues(pairs: seq<Pair>, key: string)
    requires !HasKey(pairs, key)
    ensures Values(pairs, key) == []
  {
    if pairs != [] {
      var n := |pairs| - 1;
      assert !HasKey(pairs[..n], key) by {
        assert forall i :: 0 <= i < n ==> pairs[..n][i] == pairs[i];
      }
      NoValues(pairs[..n], key);
    }
  }

  /** How often a value occurs for a key is how often the pair occurs. */
  lemma {:induction false} ValuesCount(pairs: seq<Pair>, key: string, v: string)
    ensures multiset(Values(pairs, key))[v] == multiset(pairs)[KeyValue(key, v)]
  {
    if pairs != [] {
      var n := |pairs| - 1;
      ValuesCount(pairs[..n], key, v);
      assert pairs == pairs[..n] + [pairs[n]];
    }
  }

  lemma ValuesOfPermutation(a: seq<Pair>, b: seq<Pair>, key: string)
    requires multiset(a) == multiset(b)
    ensures multiset(Values(a, key)) == multiset(Values(b, key))
  {
    forall v
      ensures multiset(Values(a, key))[v] == multiset(Values(b, key))[v]
    {
      ValuesCount(a, key, v);
      ValuesCount(b, key, v);
    }
  }

  lemma KeysOfPermutation(a: seq<Pair>, b: seq<Pair>, key: string)
    requires multiset(a) == multiset(b) && HasKey(a, key)
    ensures HasKey(b, key)
  {
    var i :| 0 <= i < |a| && a[i].key == key;
    assert a[i] in multiset(a);
    assert a[i] in b;
  }

  // ----- doMap

  lemma BucketAdd(pairs: seq<Pair>, p: Pair, ihash: string -> nat, n: nat, r: nat)
    requires n > 0
    ensures var front := Bucket(pairs, ihash, n, r);
            Bucket(pairs + [p], ihash, n, r) == if ihash(p.key) % n == r then front + [p] else front
  {
    assert (pairs + [p])[..|pairs|] == pairs;
  }

  /** The splitting loop of `doMap`: one file per reduce task. */
  method DoMap(pairs: seq<Pair>, ihash: string -> nat, nReduce: nat) returns (files: seq<seq<Pair>>)
    requires nReduce > 0
    ensures |files| == nReduce
    ensures forall r :: 0 <= r < nReduce ==> files[r] == Bucket(pairs, ihash, nReduce, r)
  {
    files := seq(nReduce, _ => []);
    for i := 0 to |pairs|
      invariant |files| == nReduce
      invariant forall r :: 0 <= r < nReduce ==> files[r] == Bucket(pairs[..i], ihash, nReduce, r)
    {
      var reduceTask := ihash(pairs[i].key) % nReduce;
      files := files[reduceTask := files[reduceTask] + [pairs[i]]];
      assert pairs[..i + 1] == pairs[..i] + [pairs[i]];
      forall r | 0 <= r < nReduce
        ensures files[r] == Bucket(pairs[..i + 1], ihash, nReduce, r)
      {
        BucketAdd(pairs[..i], pairs[i], ihash, nReduce, r);
      }
    }
    assert pairs[..|pairs|] == pairs;
  }

  // ----- doReduce

  function Concat<T>(files: seq<seq<T>>): seq<T> {
    if files == [] then [] else Concat(files[..|files| - 1]) + files[|files| - 1]
  }

  /** Reading the intermediate files of one reduce task, pair by pair. */
  method Gather(files: seq<seq<Pair>>) returns (input: seq<Pair>)
    ensures input == Concat(files)
  {
    input := [];
    for m := 0 to |files|
      invariant input == Concat(files[..m])
    {
      ghost var before := input;
      for i := 0 to |files[m]|
        invariant input == before + files[m][..i]
      {
        input := input + [files[m][i]];
      }
      assert files[m][..|files[m]|] == files[m];
      assert files[..m + 1][..m] == files[..m];
    }
    assert files[..|files|] == files;
  }

  predicate KeyGreater(a: Pair, b: Pair) {
    Less(b.key, a.key)
  }

  lemma KeyGreaterIsStrict()
    ensures StrictOrder(KeyGreater)
  {
    forall x: Pair
      ensures !KeyGreater(x, x)
    {
      Trichotomy(x.key, x.key);
    }
    forall x: Pair, y: Pair, z: Pair | KeyGreater(x, y) && KeyGreater(y, z)
      ensures KeyGreater(x, z)
    {
      LessTransitive(z.key, y.key, x.key);
    }
  }

  /** Every key of `input` has its group in `out`. */
  ghost predicate AllGrouped<V>(reduceF: (string, seq<string>) -> V, input: seq<Pair>, out: seq<KeyValue<V>>) {
    && StrictlyDescending(out)
    && (forall k :: HasKey(out, k) <==> HasKey(input, k) || (input == [] && k == ""))
    && (forall i :: 0 <= i < |out| ==> out[i].value == reduceF(out[i].key, Values(input, out[i].key)))
  }

  /** Every key of `input` has its group in `out`, but for the smallest, `last`. */
  ghost predicate GroupedTo<V>(reduceF: (string, seq<string>) -> V, input: seq<Pair>, last: string,
                               out: seq<KeyValue<V>>) {
    && StrictlyDescending(out)
    && (forall i :: 0 <= i < |out| ==> Less(last, out[i].key))
    && (forall k :: HasKey(input, k) <==> k == last || HasKey(out, k))
    && (forall i :: 0 <= i < |out| ==> out[i].value == reduceF(out[i].key, Values(input, out[i].key)))
  }

  lemma HasKeyAdd<V>(pairs: seq<KeyValue<V>>, p: KeyValue<V>, key: string)
    ensures HasKey(pairs + [p], key) <==> HasKey(pairs, key) || p.key == key
  {
    if HasKey(pairs, key) {
      var i :| 0 <= i < |pairs| && pairs[i].key == key;
      assert (pairs + [p])[i].key == key;
    }
    assert (pairs + [p])[|pairs|] == p;
  }

  lemma CloseGroup<V>(reduceF: (string, seq<string>) -> V, input: seq<Pair>, last: string, out: seq<KeyValue<V>>,
                      e: KeyValue<V>)
    requires input != [] && GroupedTo(reduceF, input, last, out)
    requires e == KeyValue(last, reduceF(last, Values(input, last)))
    ensures AllGrouped(reduceF, input, out + [e])
  {
    forall k
      ensures HasKey(out + [e], k) <==> HasKey(input, k)
    {
      HasKeyAdd(out, e, k);
    }
  }

  lemma NextGroup<V>(reduceF: (string, seq<string>) -> V, input: seq<Pair>, out: seq<KeyValue<V>>, p: Pair)
    requires input != [] && AllGrouped(reduceF, input, out)
    requires forall i :: 0 <= i < |input| ==> Less(p.key, input[i].key)
    ensures GroupedTo(reduceF, input + [p], p.key, out)
    ensures Values(input, p.key) == []
  {
    Trichotomy(p.key, p.key);
    NoValues(input, p.key);
    forall k
      ensures HasKey(input + [p], k) <==> k == p.key || HasKey(out, k)
    {
      HasKeyAdd(input, p, k);
    }
    forall i | 0 <= i < |out|
      ensures Less(p.key, out[i].key) && Values(input + [p], out[i].key) == Values(input, out[i].key)
    {
      assert HasKey(out, out[i].key);
      ValuesAdd(input, p, out[i].key);
    }
  }

  lemma SameGroup<V>(reduceF: (string, seq<string>) -> V, input: seq<Pair>, last: string, out: seq<KeyValue<V>>,
                     p: Pair)
    requires GroupedTo(reduceF, input, last, out) && p.key == last
    ensures GroupedTo(reduceF, input + [p], last, out)
  {
    forall k
      ensures HasKey(input + [p], k) <==> k == last || HasKey(out, k)
    {
      HasKeyAdd(input, p, k);
    }
    forall i | 0 <= i < |out|
      ensures Values(input + [p], out[i].key) == Values(input, out[i].key)
    {
      Trichotomy(last, out[i].key);
      Trichotomy(last, last);
      ValuesAdd(input, p, out[i].key);
    }
  }

  lemma FirstGroup<V>(reduceF: (string, seq<string>) -> V, p: Pair)
    ensures GroupedTo(reduceF, [p], p.key, [])
  {
    assert [p][0].key == p.key;
  }

  /** The keys before the first pair of a new group are all greater than its key. */
  lemma NewKeyIsSmaller(input: seq<Pair>, i: nat)
    requires Descending(input) && 0 < i < |input| && input[i].key != input[i - 1].key
    ensures forall j :: 0 <= j < i ==> Less(input[i].key, input[j].key)
  {
    forall j | 0 <= j < i
      ensures Less(input[i].key, input[j].key)
    {
      Trichotomy(input[i].key, input[j].key);
      Trichotomy(input[i].key, input[i - 1].key);
    }
  }

  /** The grouping loop of `doReduce`. */
  method Group<V>(input: seq<Pair>, reduceF: (string, seq<string>) -> V) returns (out: seq<KeyValue<V>>)
    requires Descending(input)
    ensures AllGrouped(reduceF, input, out)
  {
    hide GroupedTo, AllGrouped, Values, HasKey;
    out := [];
    var previousKey := "";
    var valueBuffer: seq<string> := [];
    for i := 0 to |input|
      invariant i == 0 ==> out == [] && previousKey == "" && valueBuffer == []
      invariant i > 0 ==> previousKey == input[i - 1].key && GroupedTo(reduceF, input[..i], previousKey, out)
      invariant i > 0 ==> valueBuffer == Values(input[..i], previousKey)
    {
      var v := input[i];
      ghost var seen := input[..i];
      assert input[..i + 1] == seen + [v];
      if v.key != previousKey && i != 0 {
        var result := KeyValue(previousKey, reduceF(previousKey, valueBuffer));
        CloseGroup(reduceF, seen, previousKey, out, result);
        out := out + [result];
        valueBuffer := [];
        NewKeyIsSmaller(input, i);
        NextGroup(reduceF, seen, out, v);
      } else if i != 0 {
        SameGroup(reduceF, seen, previousKey, out, v);
      } else {
        assert seen + [v] == [v];
        FirstGroup(reduceF, v);
        NoPairs(v.key);
      }
      ValuesAdd(seen, v, v.key);
      valueBuffer := valueBuffer + [v.value];
      previousKey := v.key;
    }
    assert input[..|input|] == input;
    var result := KeyValue(previousKey, reduceF(previousKey, valueBuffer));
    if input == [] {
      EmptyTask(reduceF, result);
      assert out + [result] == [result];
    } else {
      CloseGroup(reduceF, input, previousKey, out, result);
    }
    out := out + [result];
  }

  lemma NoPairs(key: string)
    ensures Values([], key) == []
  {
  }

  lemma EmptyTask<V>(reduceF: (string, seq<string>) -> V, e: KeyValue<V>)
    requires e == KeyValue("", reduceF("", []))
    ensures AllGrouped(reduceF, [], [e])
  {
    assert [e][0].key == "";
  }

  /** `doReduce`: the order that the sort leaves open decides only the order of each key's values. */
  method DoReduce<V>(files: seq<seq<Pair>>, reduceF: (string, seq<string>) -> V) returns (out: seq<KeyValue<V>>)
    ensures Reduced(reduceF, Concat(files), out)
  {
    var input := Gather(files);
    KeyGreaterIsStrict();
    var sorted := Sort(input, KeyGreater);
    out := Group(sorted, reduceF);
    GroupedIsReduced(reduceF, input, sorted, out);
  }

  lemma GroupedIsReduced<V>(reduceF: (string, seq<string>) -> V, input: seq<Pair>, sorted: seq<Pair>,
                            out: seq<KeyValue<V>>)
    requires multiset(sorted) == multiset(input) && AllGrouped(reduceF, sorted, out)
    ensures Reduced(reduceF, input, out)
  {
    assert |sorted| == |multiset(sorted)| == |input|;
    forall k
      ensures HasKey(sorted, k) <==> HasKey(input, k)
    {
      if HasKey(sorted, k) {
        KeysOfPermutation(sorted, input, k);
      }
      if HasKey(input, k) {
        KeysOfPermutation(input, sorted, k);
      }
    }
    forall i | 0 <= i < |out|
      ensures ReducesTo(reduceF, out[i].key, multiset(Values(input, out[i].key)), out[i].value)
    {
      ValuesOfPermutation(sorted, input, out[i].key);
    }
  }
}
