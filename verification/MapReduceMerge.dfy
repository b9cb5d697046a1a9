/**
 `merge`: all reduce outputs are read into one map, later values replacing
 earlier ones, and its keys are written out in sorted order.
 */
module MapReduceMerge {
  import opened Sorting
  import opened MapReduceTasks

  /** The value of the last entry for a key. */
  function Last<V>(entries: seq<KeyValue<V>>, key: string): V
    requires HasKey(entries, key)
  {
    var n := |entries| - 1;
    if entries[n].key == key then entries[n].value else
      Shorter(entries, key);
      Last(entries[..n], key)
  }

  lemma Shorter<V>(entries: seq<KeyValue<V>>, key: string)
    requires HasKey(entries, key) && entries[|entries| - 1].key != key
    ensures HasKey(entries[..|entries| - 1], key)
  {
    var i :| 0 <= i < |entries| && entries[i].key == key;
    assert entries[..|entries| - 1][i].key == key;
  }

  lemma LastAdd<V>(entries: seq<KeyValue<V>>, e: KeyValue<V>, key: string)
    requires HasKey(entries + [e], key)
    ensures key == e.key ==> Last(entries + [e], key) == e.value
    ensures key != e.key ==> HasKey(entries, key) && Last(entries + [e], key) == Last(entries, key)
  {
    HasKeyAdd(entries, e, key);
    assert (entries + [e])[..|entries|] == entries;
  }

  ghost predicate Maps<V>(entries: seq<KeyValue<V>>, kvs: map<string, V>) {
    && (forall k :: k in kvs <==> HasKey(entries, k))
    && (forall k :: k in kvs ==> kvs[k] == Last(entries, k))
  }

  lemma MapsAdd<V>(entries: seq<KeyValue<V>>, kvs: map<string, V>, e: KeyValue<V>)
    requires Maps(entries, kvs)
    ensures Maps(entries + [e], kvs[e.key := e.value])
  {
    forall k
      ensures k in kvs[e.key := e.value] <==> HasKey(entries + [e], k)
    {
      HasKeyAdd(entries, e, k);
    }
    forall k | k in kvs[e.key := e.value]
      ensures kvs[e.key := e.value][k] == Last(entries + [e], k)
    {
      LastAdd(entries, e, k);
    }
  }

  function KeysOf<V>(lines: seq<KeyValue<V>>): seq<string> {
    seq(|lines|, i requires 0 <= i < |lines| => lines[i].key)
  }

  /** One line per key in sorted order, each with the last value written for its key. */
  ghost predicate Merged<V>(entries: seq<KeyValue<V>>, lines: seq<KeyValue<V>>) {
    && Ascending(KeysOf(lines))
    && (forall k :: HasKey(lines, k) <==> HasKey(entries, k))
    && (forall i :: 0 <= i < |lines| ==> HasKey(entries, lines[i].key) && lines[i].value == Last(entries, lines[i].key))
  }

  lemma LessIsStrict()
    ensures StrictOrder(Less)
  {
    forall x: string
      ensures !Less(x, x)
    {
      Trichotomy(x, x);
    }
    forall x: string, y: string, z: string | Less(x, y) && Less(y, z)
      ensures Less(x, z)
    {
      LessTransitive(x, y, z);
    }
  }

  ghost predicate Distinct(s: seq<string>) {
    forall i, j :: 0 <= i < j < |s| ==> s[i] != s[j]
  }

  lemma {:induction false} DistinctCount(s: seq<string>, x: string)
    requires Distinct(s)
    ensures multiset(s)[x] <= 1
  {
    if s != [] {
      var n := |s| - 1;
      DistinctCount(s[..n], x);
      assert s == s[..n] + [s[n]];
      if x == s[n] {
        assert x !in s[..n];
      }
    }
  }

  /** Sorting distinct strings leaves them strictly ascending. */
  lemma SortedDistinct(s: seq<string>, r: seq<string>)
    requires Distinct(s) && multiset(r) == multiset(s) && SortedBy(Less, r)
    ensures Ascending(r) && forall x :: x in r <==> x in s
  {
    forall i, j | 0 <= i < j < |r|
      ensures Less(r[i], r[j])
    {
      Trichotomy(r[i], r[j]);
      if r[i] == r[j] {
        DistinctCount(s, r[i]);
        TwiceCount(r, i, j);
      }
    }
    assert forall x :: x in r <==> x in multiset(r);
    assert forall x :: x in s <==> x in multiset(s);
  }

  lemma TwiceCount(r: seq<string>, i: nat, j: nat)
    requires i < j < |r| && r[i] == r[j]
    ensures multiset(r)[r[i]] >= 2
  {
    assert r == r[..i] + [r[i]] + r[i + 1..j] + [r[j]] + r[j + 1..];
  }

  /** The keys of a map, in the order in which Go's `range` happens to visit them. */
  method MapKeys<V>(kvs: map<string, V>) returns (keys: seq<string>)
    ensures Distinct(keys) && forall k :: k in keys <==> k in kvs
  {
    keys := [];
    var rest := kvs.Keys;
    while rest != {}
      invariant Distinct(keys)
      invariant forall k :: k in kvs <==> k in keys || k in rest
      invariant forall k :: k in keys ==> k !in rest
    {
      var k :| k in rest;
      keys, rest := keys + [k], rest - {k};
    }
  }

  /** `merge`, up to the formatting of the lines. */
  method Merge<V>(outputs: seq<seq<KeyValue<V>>>) returns (lines: seq<KeyValue<V>>)
    ensures Merged(Concat(outputs), lines)
  {
    hide Maps, Merged, HasKey;
    var kvs: map<string, V> := map[];
    NothingMapped<V>();
    for i := 0 to |outputs|
      invariant Maps(Concat(outputs[..i]), kvs)
    {
      var file := outputs[i];
      assert outputs[..i + 1][..i] == outputs[..i];
      assert Concat(outputs[..i]) + file[..0] == Concat(outputs[..i]);
      for j := 0 to |file|
        invariant Maps(Concat(outputs[..i]) + file[..j], kvs)
      {
        MapsAdd(Concat(outputs[..i]) + file[..j], kvs, file[j]);
        kvs := kvs[file[j].key := file[j].value];
        assert Concat(outputs[..i]) + file[..j + 1] == Concat(outputs[..i]) + file[..j] + [file[j]];
      }
      assert file[..|file|] == file;
    }
    assert outputs[..|outputs|] == outputs;
    var unsorted := MapKeys(kvs);
    LessIsStrict();
    var keys := Sort(unsorted, Less);
    SortedDistinct(unsorted, keys);
    lines := seq(|keys|, i requires 0 <= i < |keys| => assert keys[i] in keys; KeyValue(keys[i], kvs[keys[i]]));
    LinesMerged(Concat(outputs), kvs, keys, lines);
  }

  lemma NothingMapped<V>()
    ensures Maps<V>(Concat([]), map[])
  {
  }

  lemma LinesMerged<V>(entries: seq<KeyValue<V>>, kvs: map<string, V>, keys: seq<string>, lines: seq<KeyValue<V>>)
    requires Maps(entries, kvs) && Ascending(keys) && |lines| == |keys|
    requires forall k :: k in keys <==> k in kvs
    requires forall i :: 0 <= i < |lines| ==>
                           lines[i].key == keys[i] && keys[i] in kvs && lines[i].value == kvs[keys[i]]
    ensures Merged(entries, lines)
  {
    assert KeysOf(lines) == keys;
    forall k
      ensures HasKey(lines, k) <==> HasKey(entries, k)
    {
      if k in keys {
        var i :| 0 <= i < |keys| && keys[i] == k;
        assert lines[i].key == k;
      }
    }
  }
}
