/** The inverted index job: for each word, the files that contain it. */
module InvertedIndex {
  import opened Sorting
  import opened MapReduceTasks
  import opened MapReduceMerge
  import opened MapReduceJob

  // ----- the reducer

  /** Puts `x` into a strictly ascending list, unless it is there. */
  function InsertNew(x: string, s: seq<string>): seq<string> {
    if s == [] || Less(x, s[0]) then [x] + s
    else if x == s[0] then s
    else [s[0]] + InsertNew(x, s[1..])
  }

  /** The distinct values in ascending order. */
  function SortedSet(values: seq<string>): seq<string> {
    if values == [] then [] else InsertNew(values[|values| - 1], SortedSet(values[..|values| - 1]))
  }

  lemma {:induction false} InsertNewMembers(x: string, s: seq<string>, y: string)
    ensures y in InsertNew(x, s) <==> y == x || y in s
  {
    if s != [] {
      assert s == [s[0]] + s[1..];
      InsertNewMembers(x, s[1..], y);
    }
  }

  lemma {:induction false} InsertNewAscending(x: string, s: seq<string>)
    requires Ascending(s)
    ensures Ascending(InsertNew(x, s))
  {
    if s != [] {
      if Less(x, s[0]) {
        forall j | 0 < j < |s|
          ensures Less(x, s[j])
        {
          LessTransitive(x, s[0], s[j]);
        }
      } else if x != s[0] {
        Trichotomy(x, s[0]);
        InsertNewAscending(x, s[1..]);
        var r := InsertNew(x, s[1..]);
        forall j | 0 <= j < |r|
          ensures Less(s[0], r[j])
        {
          InsertNewMembers(x, s[1..], r[j]);
        }
      }
    }
  }

  /** `SortedSet` is the strictly ascending list of the members. */
  lemma {:induction false} SortedSetOf(values: seq<string>)
    ensures Ascending(SortedSet(values))
    ensures forall x :: x in SortedSet(values) <==> x in values
  {
    if values != [] {
      var front, last := values[..|values| - 1], values[|values| - 1];
      SortedSetOf(front);
      InsertNewAscending(last, SortedSet(front));
      forall x
        ensures x in SortedSet(values) <==> x in values
      {
        InsertNewMembers(last, SortedSet(front), x);
      }
    }
  }

  /** `strings.Join` with a comma. */
  function Join(s: seq<string>): string {
    if s == [] then "" else if |s| == 1 then s[0] else Join(s[..|s| - 1]) + "," + s[|s| - 1]
  }

  function Listing(itoa: int -> string, names: seq<string>): string {
    itoa(|names|) + " " + Join(names)
  }

  /** Counts and lists the distinct values in ascending order. */
  method Reduce(itoa: int -> string, values: seq<string>) returns (text: string)
    ensures text == Listing(itoa, SortedSet(values))
    ensures Free(itoa(|SortedSet(values)|), ' ') ==> Reads(itoa, text, SortedSet(values))
  {
    var wordCache: map<string, bool> := map[];
    var valuesUnique: seq<string> := [];
    for i := 0 to |values|
      invariant forall x :: x in wordCache <==> x in values[..i]
      invariant forall x :: x in wordCache ==> wordCache[x]
      invariant forall x :: x in valuesUnique <==> x in values[..i]
      invariant Distinct(valuesUnique)
    {
      var filename := values[i];
      assert values[..i + 1] == values[..i] + [filename];
      if !(filename in wordCache && wordCache[filename]) {
        valuesUnique := valuesUnique + [filename];
        wordCache := wordCache[filename := true];
      }
    }
    assert values[..|values|] == values;
    LessIsStrict();
    var sorted := Sort(valuesUnique, Less);
    SortedDistinct(valuesUnique, sorted);
    SortedSetOf(values);
    AscendingUnique(sorted, SortedSet(values));
    text := Listing(itoa, sorted);
    if Free(itoa(|sorted|), ' ') {
      ListingReads(itoa, sorted);
    }
  }

  /** The order in which the sort leaves a key's values cannot change the listing. */
  lemma ListingOfPermutation(a: seq<string>, b: seq<string>)
    requires forall x :: x in a <==> x in b
    ensures SortedSet(a) == SortedSet(b)
  {
    SortedSetOf(a);
    SortedSetOf(b);
    AscendingUnique(SortedSet(a), SortedSet(b));
  }

  // ----- reading a listing back

  predicate Free(s: string, c: char) {
    c !in s
  }

  /** The parts of a text between its occurrences of `c`. */
  function Split(text: string, c: char): (parts: seq<string>)
    ensures parts != []
  {
    if text == "" then [""]
    else if text[0] == c then [""] + Split(text[1..], c)
    else
      var rest := Split(text[1..], c);
      [[text[0]] + rest[0]] + rest[1..]
  }

  function Occurrences(text: string, c: char): nat {
    multiset(text)[c]
  }

  lemma {:induction false} SplitCount(text: string, c: char)
    ensures |Split(text, c)| == Occurrences(text, c) + 1
  {
    if text != "" {
      SplitCount(text[1..], c);
      assert text == [text[0]] + text[1..];
    }
  }

  lemma {:induction false} SplitFree(text: string, c: char)
    requires Free(text, c)
    ensures Split(text, c) == [text]
  {
    if text != "" {
      SplitFree(text[1..], c);
      assert text == [text[0]] + text[1..];
    }
  }

  lemma {:induction false} SplitPush(text: string, last: string, c: char)
    requires Free(last, c)
    ensures Split(text + [c] + last, c) == Split(text, c) + [last]
  {
    var whole := text + [c] + last;
    if text == "" {
      assert whole[0] == c && whole[1..] == last;
      SplitFree(last, c);
    } else {
      SplitPush(text[1..], last, c);
      assert whole[0] == text[0] && whole[1..] == text[1..] + [c] + last;
    }
  }

  ghost predicate AllFree(names: seq<string>, c: char) {
    forall k :: 0 <= k < |names| ==> Free(names[k], c)
  }

  lemma {:induction false} SplitJoined(names: seq<string>)
    requires names != [] && AllFree(names, ',')
    ensures Split(Join(names), ',') == names
  {
    var n := |names| - 1;
    assert names == names[..n] + [names[n]];
    if n == 0 {
      SplitFree(names[0], ',');
    } else {
      SplitJoined(names[..n]);
      SplitPush(Join(names[..n]), names[n], ',');
    }
  }

  lemma {:induction false} JoinedCount(names: seq<string>)
    requires names != []
    ensures Occurrences(Join(names), ',') >= |names| - 1
    ensures !AllFree(names, ',') ==> Occurrences(Join(names), ',') >= |names|
  {
    var n := |names| - 1;
    if n > 0 {
      JoinedCount(names[..n]);
      assert Join(names) == Join(names[..n]) + "," + names[n];
      assert forall k :: 0 <= k < n ==> names[..n][k] == names[k];
    }
  }

  /** A joined list can be split again if and only if it is not empty and no name in it has a comma. */
  lemma SplitIffNoComma(names: seq<string>)
    ensures Split(Join(names), ',') == names <==> names != [] && AllFree(names, ',')
  {
    hide Split, Join;
    if names != [] && AllFree(names, ',') {
      SplitJoined(names);
    } else if names != [] {
      SplitCount(Join(names), ',');
      JoinedCount(names);
    }
  }

  /** The first occurrence of `c`, or the length of the text. */
  function FirstOf(text: string, c: char): (k: nat)
    ensures k <= |text| && (k < |text| ==> text[k] == c) && forall j :: 0 <= j < k ==> text[j] != c
  {
    if text == "" || text[0] == c then 0 else FirstOf(text[1..], c) + 1
  }

  /** A line says how many names there are before its first space, and lists them after it. */
  ghost predicate Reads(itoa: int -> string, text: string, names: seq<string>) {
    var k := FirstOf(text, ' ');
    k < |text| && text[..k] == itoa(|names|) && (names == [] ==> text[k + 1..] == "")
    && (names != [] && AllFree(names, ',') ==> Split(text[k + 1..], ',') == names)
  }

  lemma ListingReads(itoa: int -> string, names: seq<string>)
    requires Free(itoa(|names|), ' ')
    ensures Reads(itoa, Listing(itoa, names), names)
  {
    hide Split, Join;
    var text, k := Listing(itoa, names), |itoa(|names|)|;
    assert text[..k] == itoa(|names|) && text[k] == ' ' && text[k + 1..] == Join(names);
    assert forall j :: 0 <= j < k ==> text[j] == itoa(|names|)[j];
    assert FirstOf(text, ' ') == k;
    if names == [] {
      JoinNothing();
    } else if AllFree(names, ',') {
      SplitJoined(names);
    }
  }

  lemma JoinNothing()
    ensures Join([]) == ""
  {
  }

  // ----- the whole job

  function Located(ws: seq<string>, name: string): seq<Pair> {
    seq(|ws|, i requires 0 <= i < |ws| => KeyValue(ws[i], name))
  }

  method Map(ws: seq<string>, filename: string) returns (output: seq<Pair>)
    ensures output == Located(ws, filename)
  {
    output := [];
    for i := 0 to |ws|
      invariant output == Located(ws[..i], filename)
    {
      output := output + [KeyValue(ws[i], filename)];
    }
    assert ws[..|ws|] == ws;
  }

  function Mapper(words: string -> seq<string>): MapF {
    (name, contents) => Located(words(contents), name)
  }

  function Reducer(itoa: int -> string): (string, seq<string>) -> string {
    (key, values) => Listing(itoa, SortedSet(values))
  }

  /** Some input file of this name contains the word. */
  ghost predicate Contains(words: string -> seq<string>, inputs: seq<Input>, word: string, name: string) {
    exists m :: 0 <= m < |inputs| && inputs[m].name == name && word in words(inputs[m].contents)
  }

  /** `names` lists, in ascending order and once each, the files that contain the word. */
  ghost predicate IsIndex(words: string -> seq<string>, inputs: seq<Input>, word: string, names: seq<string>) {
    Ascending(names) && forall name :: name in names <==> Contains(words, inputs, word, name)
  }

  lemma {:induction false} LocatedValues(ws: seq<string>, name: string, key: string)
    ensures forall v :: v in Values(Located(ws, name), key) <==> v == name && key in ws
  {
    if ws != [] {
      var front, w := ws[..|ws| - 1], ws[|ws| - 1];
      LocatedValues(front, name, key);
      assert Located(ws, name) == Located(front, name) + [KeyValue(w, name)];
      ValuesAdd(Located(front, name), KeyValue(w, name), key);
      assert ws == front + [w];
    }
  }

  lemma ContainsAdd(words: string -> seq<string>, inputs: seq<Input>, word: string, name: string)
    requires inputs != []
    ensures var n := |inputs| - 1;
            Contains(words, inputs, word, name) <==>
              Contains(words, inputs[..n], word, name) || (inputs[n].name == name && word in words(inputs[n].contents))
  {
    var n := |inputs| - 1;
    if Contains(words, inputs[..n], word, name) {
      var m :| 0 <= m < n && inputs[..n][m].name == name && word in words(inputs[..n][m].contents);
      assert inputs[m].name == name;
    }
    if Contains(words, inputs, word, name) {
      var m :| 0 <= m < |inputs| && inputs[m].name == name && word in words(inputs[m].contents);
      assert m < n ==> inputs[..n][m] == inputs[m];
    }
  }

  lemma {:induction false} EmittedNames(words: string -> seq<string>, inputs: seq<Input>, key: string, name: string)
    ensures name in Values(Emitted(Mapper(words), inputs), key) <==> Contains(words, inputs, key, name)
  {
    if inputs != [] {
      hide Contains;
      var n := |inputs| - 1;
      var ws := words(inputs[n].contents);
      EmittedNames(words, inputs[..n], key, name);
      LocatedValues(ws, inputs[n].name, key);
      ValuesConcat(Emitted(Mapper(words), inputs[..n]), Located(ws, inputs[n].name), key);
      ContainsAdd(words, inputs, key, name);
    }
  }

  lemma {:induction false} KeyHasValue(pairs: seq<Pair>, key: string)
    ensures HasKey(pairs, key) <==> Values(pairs, key) != []
  {
    if pairs != [] {
      var front, p := pairs[..|pairs| - 1], pairs[|pairs| - 1];
      KeyHasValue(front, key);
      assert pairs == front + [p];
      HasKeyAdd(front, p, key);
      ValuesAdd(front, p, key);
    }
  }

  /** What one line says about its word. */
  lemma LineLists(words: string -> seq<string>, itoa: int -> string, inputs: seq<Input>, key: string, value: string)
    returns (names: seq<string>)
    requires ReducesTo(Reducer(itoa), key, multiset(Values(Emitted(Mapper(words), inputs), key)), value)
    ensures IsIndex(words, inputs, key, names) && value == Listing(itoa, names)
  {
    var values := Values(Emitted(Mapper(words), inputs), key);
    var vs :| multiset(vs) == multiset(values) && value == Reducer(itoa)(key, vs);
    assert forall x :: x in vs <==> x in multiset(vs);
    assert forall x :: x in values <==> x in multiset(values);
    ListingOfPermutation(vs, values);
    SortedSetOf(values);
    names := SortedSet(values);
    forall name
      ensures name in names <==> Contains(words, inputs, key, name)
    {
      EmittedNames(words, inputs, key, name);
    }
  }

  /** Read back, the line lists exactly the files that contain its word; `itoa` writes no space. */
  ghost predicate HasIndex(words: string -> seq<string>, itoa: int -> string, inputs: seq<Input>,
                           line: KeyValue<string>) {
    exists names :: IsIndex(words, inputs, line.key, names) && line.value == Listing(itoa, names)
                    && (Free(itoa(|names|), ' ') ==> Reads(itoa, line.value, names))
  }

  /**
   The inverted index job writes, in sorted order, every word of the input
   with the number and the sorted list of the files that contain it; and, when
   some reduce task got no word, one more line, for the empty word in no file.
   */
  method Run(words: string -> seq<string>, itoa: int -> string, ihash: string -> nat, nReduce: nat,
             inputs: seq<Input>, mapOrder: seq<nat>, reduceOrder: seq<nat>)
    returns (lines: seq<KeyValue<string>>)
    requires nReduce > 0 && Covers(mapOrder, |inputs|) && Covers(reduceOrder, nReduce)
    requires forall m :: 0 <= m < |inputs| ==> "" !in words(inputs[m].contents)
    ensures Ascending(KeysOf(lines))
    ensures forall k :: HasKey(lines, k) <==>
                          (exists name :: Contains(words, inputs, k, name))
                          || (k == "" && SomeEmpty(ihash, nReduce, Emitted(Mapper(words), inputs)))
    ensures forall i :: 0 <= i < |lines| ==> HasIndex(words, itoa, inputs, lines[i])
  {
    lines := MapReduceJob.Run(Mapper(words), Reducer(itoa), ihash, nReduce, inputs, mapOrder, reduceOrder);
    JobLists(words, itoa, ihash, nReduce, inputs, lines);
  }

  lemma SomeName(words: string -> seq<string>, inputs: seq<Input>, key: string)
    ensures HasKey(Emitted(Mapper(words), inputs), key) <==> exists name :: Contains(words, inputs, key, name)
  {
    hide Contains, HasKey, Values;
    var values := Values(Emitted(Mapper(words), inputs), key);
    KeyHasValue(Emitted(Mapper(words), inputs), key);
    SomeMember(values);
    forall name
      ensures name in values <==> Contains(words, inputs, key, name)
    {
      EmittedNames(words, inputs, key, name);
    }
  }

  lemma {:induction false} JobLists(words: string -> seq<string>, itoa: int -> string, ihash: string -> nat, n: nat,
                                    inputs: seq<Input>, lines: seq<KeyValue<string>>)
    requires n > 0 && forall m :: 0 <= m < |inputs| ==> "" !in words(inputs[m].contents)
    requires JobOutput(Reducer(itoa), ihash, n, Emitted(Mapper(words), inputs), lines)
    ensures forall k :: HasKey(lines, k) <==>
                          (exists name :: Contains(words, inputs, k, name))
                          || (k == "" && SomeEmpty(ihash, n, Emitted(Mapper(words), inputs)))
    ensures forall i :: 0 <= i < |lines| ==> HasIndex(words, itoa, inputs, lines[i])
  {
    hide ReducesTo, HasKey, Masked, SomeEmpty, IsIndex, Reads, Listing;
    var emitted := Emitted(Mapper(words), inputs);
    forall k
      ensures HasKey(emitted, k) <==> exists name :: Contains(words, inputs, k, name)
    {
      SomeName(words, inputs, k);
    }
    assert !HasKey(emitted, "");
    NoValues(emitted, "");
    forall i | 0 <= i < |lines|
      ensures HasIndex(words, itoa, inputs, lines[i])
    {
      assert LineValues(ihash, n, emitted, lines[i].key) == multiset(Values(emitted, lines[i].key));
      var names := LineLists(words, itoa, inputs, lines[i].key, lines[i].value);
      if Free(itoa(|names|), ' ') {
        ListingReads(itoa, names);
      }
    }
  }
}
