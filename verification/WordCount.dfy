/**
 The word count job. `words` stands for `strings.FieldsFunc`, `atoi` and
 `itoa` for the conversions of `strconv`.
 */
module WordCount {
  import opened Collections
  import opened Sorting
  import opened MapReduceTasks
  import opened MapReduceMerge
  import opened MapReduceJob

  datatype Parsed = Number(n: int) | BadNumber

  datatype Outcome = Text(text: string) | Panic

  const WORD: nat := 0x1_0000_0000_0000_0000
  const HALF: nat := 0x8000_0000_0000_0000

  /** The 64-bit integer that `x` wraps around to. */
  function Wrap(x: int): int {
    (x + HALF) % WORD - HALF
  }

  /** Numbers that fit into 64 bits are not changed; all others come out that way, the same modulo 2^64. */
  lemma WrapIsInt64(x: int)
    ensures -0x8000_0000_0000_0000 <= Wrap(x) < 0x8000_0000_0000_0000
    ensures (Wrap(x) - x) % 0x1_0000_0000_0000_0000 == 0
    ensures Wrap(x) == x <==> -0x8000_0000_0000_0000 <= x < 0x8000_0000_0000_0000
  {
    var q := (x + HALF) / WORD;
    assert Wrap(x) - x == -q * WORD;
  }

  lemma WrapAdd(a: int, b: int)
    ensures Wrap(Wrap(a) + b) == Wrap(a + b)
  {
    var q := (a + HALF) / WORD;
    assert a + HALF == q * WORD + (a + HALF) % WORD;
    assert (a + b + HALF) == (Wrap(a) + b + HALF) + q * WORD;
    ModShift(Wrap(a) + b + HALF, q);
  }

  lemma ModShift(x: int, q: int)
    ensures (x + q * WORD) % WORD == x % WORD
  {
    var d := x / WORD;
    assert x + q * WORD == (d + q) * WORD + x % WORD;
    ModUnique(x + q * WORD, d + q, x % WORD);
  }

  lemma ModUnique(x: int, d: int, m: int)
    requires x == d * WORD + m && 0 <= m < WORD
    ensures x % WORD == m
  {
  }

  // ----- the reducer

  predicate AllParse(atoi: string -> Parsed, values: seq<string>) {
    forall i :: 0 <= i < |values| ==> atoi(values[i]).Number?
  }

  function ValueOf(atoi: string -> Parsed, v: string): int {
    if atoi(v).Number? then atoi(v).n else 0
  }

  function Sum(atoi: string -> Parsed, values: seq<string>): int {
    if values == [] then 0 else
      Sum(atoi, values[..|values| - 1]) + ValueOf(atoi, values[|values| - 1])
  }

  /** It adds up: one value counts for its number, two lists for the sum of both. */
  lemma {:induction false} SumAddsUp(atoi: string -> Parsed, a: seq<string>, b: seq<string>)
    ensures Sum(atoi, a + b) == Sum(atoi, a) + Sum(atoi, b)
    ensures forall v :: atoi(v).Number? ==> Sum(atoi, [v]) == atoi(v).n
  {
    if b == [] {
      assert a + b == a;
    } else {
      SumAddsUp(atoi, a, b[..|b| - 1]);
      assert (a + b)[..|a + b| - 1] == a + b[..|b| - 1];
    }
  }

  /** The sum of all values, unless one of them is not a number. */
  function Total(atoi: string -> Parsed, itoa: int -> string, values: seq<string>): Outcome {
    if AllParse(atoi, values) then Text(itoa(Wrap(Sum(atoi, values)))) else Panic
  }

  method Reduce(atoi: string -> Parsed, itoa: int -> string, values: seq<string>) returns (outcome: Outcome)
    ensures outcome == Total(atoi, itoa, values)
  {
    var result := 0;
    for i := 0 to |values|
      invariant AllParse(atoi, values[..i])
      invariant result == Wrap(Sum(atoi, values[..i]))
    {
      var number := atoi(values[i]);
      if number.BadNumber? {
        return Panic;
      }
      assert values[..i + 1][..i] == values[..i];
      WrapAdd(Sum(atoi, values[..i]), number.n);
      result := Wrap(result + number.n);
    }
    assert values[..|values|] == values;
    outcome := Text(itoa(result));
  }

  lemma SumAdd(atoi: string -> Parsed, values: seq<string>, v: string)
    ensures Sum(atoi, values + [v]) == Sum(atoi, values) + ValueOf(atoi, v)
  {
    assert (values + [v])[..|values|] == values;
  }

  lemma {:induction false} SumWithout(atoi: string -> Parsed, values: seq<string>, k: nat)
    requires k < |values|
    ensures Sum(atoi, values) == Sum(atoi, Drop(values, k)) + ValueOf(atoi, values[k])
  {
    hide Sum;
    var front, last := values[..|values| - 1], values[|values| - 1];
    assert values == front + [last];
    SumAdd(atoi, front, last);
    if k < |front| {
      SumWithout(atoi, front, k);
      assert Drop(values, k) == Drop(front, k) + [last];
      SumAdd(atoi, Drop(front, k), last);
    } else {
      assert Drop(values, k) == front;
    }
  }

  lemma {:induction false} SumOfPermutation(atoi: string -> Parsed, a: seq<string>, b: seq<string>)
    requires multiset(a) == multiset(b)
    ensures Sum(atoi, a) == Sum(atoi, b)
  {
    if a == [] {
      assert |b| == |multiset(b)| == 0;
    } else {
      var n := |a| - 1;
      assert a[n] in multiset(b);
      var k :| 0 <= k < |b| && b[k] == a[n];
      DropMultiset(b, k);
      DropMultiset(a, n);
      assert Drop(a, n) == a[..n];
      SumOfPermutation(atoi, a[..n], Drop(b, k));
      SumWithout(atoi, b, k);
    }
  }

  /** The order in which the sort leaves a key's values cannot change the count. */
  lemma TotalOfPermutation(atoi: string -> Parsed, itoa: int -> string, a: seq<string>, b: seq<string>)
    requires multiset(a) == multiset(b)
    ensures Total(atoi, itoa, a) == Total(atoi, itoa, b)
  {
    SumOfPermutation(atoi, a, b);
    if AllParse(atoi, a) {
      SameParse(atoi, a, b);
    } else if AllParse(atoi, b) {
      SameParse(atoi, b, a);
    }
  }

  lemma SameParse(atoi: string -> Parsed, a: seq<string>, b: seq<string>)
    requires multiset(a) == multiset(b) && AllParse(atoi, a)
    ensures AllParse(atoi, b)
  {
    forall i | 0 <= i < |b|
      ensures atoi(b[i]).Number?
    {
      assert b[i] in multiset(b);
      assert b[i] in a;
    }
  }

  // ----- the whole job

  function Ones(ws: seq<string>): seq<Pair> {
    seq(|ws|, i requires 0 <= i < |ws| => KeyValue(ws[i], "1"))
  }

  method Map(ws: seq<string>) returns (output: seq<Pair>)
    ensures output == Ones(ws)
  {
    output := [];
    for i := 0 to |ws|
      invariant output == Ones(ws[..i])
    {
      output := output + [KeyValue(ws[i], "1")];
    }
    assert ws[..|ws|] == ws;
  }

  function Mapper(words: string -> seq<string>): MapF {
    (name, contents) => Ones(words(contents))
  }

  function Reducer(atoi: string -> Parsed, itoa: int -> string): (string, seq<string>) -> Outcome {
    (key, values) => Total(atoi, itoa, values)
  }

  /** The words of all files. */
  function AllWords(words: string -> seq<string>, inputs: seq<Input>): seq<string> {
    if inputs == [] then [] else
      AllWords(words, inputs[..|inputs| - 1]) + words(inputs[|inputs| - 1].contents)
  }

  ghost predicate AllOnes(values: seq<string>) {
    forall i :: 0 <= i < |values| ==> values[i] == "1"
  }

  lemma {:induction false} OnesValues(ws: seq<string>, key: string)
    ensures AllOnes(Values(Ones(ws), key)) && |Values(Ones(ws), key)| == multiset(ws)[key]
  {
    if ws != [] {
      var front, w := ws[..|ws| - 1], ws[|ws| - 1];
      OnesValues(front, key);
      assert Ones(ws) == Ones(front) + [KeyValue(w, "1")];
      ValuesAdd(Ones(front), KeyValue(w, "1"), key);
      assert ws == front + [w];
    }
  }

  lemma {:induction false} EmittedOnes(words: string -> seq<string>, inputs: seq<Input>, key: string)
    ensures AllOnes(Values(Emitted(Mapper(words), inputs), key))
    ensures |Values(Emitted(Mapper(words), inputs), key)| == multiset(AllWords(words, inputs))[key]
  {
    if inputs != [] {
      var n := |inputs| - 1;
      EmittedOnes(words, inputs[..n], key);
      OnesValues(words(inputs[n].contents), key);
      ValuesConcat(Emitted(Mapper(words), inputs[..n]), Ones(words(inputs[n].contents)), key);
    }
  }

  lemma {:induction false} OnesSum(atoi: string -> Parsed, values: seq<string>)
    requires atoi("1") == Number(1) && AllOnes(values)
    ensures AllParse(atoi, values) && Sum(atoi, values) == |values|
  {
    if values != [] {
      OnesSum(atoi, values[..|values| - 1]);
    }
  }

  lemma LineCounts(words: string -> seq<string>, atoi: string -> Parsed, itoa: int -> string, inputs: seq<Input>,
                   key: string, value: Outcome)
    requires atoi("1") == Number(1)
    requires ReducesTo(Reducer(atoi, itoa), key, multiset(Values(Emitted(Mapper(words), inputs), key)), value)
    ensures value == Text(itoa(Wrap(multiset(AllWords(words, inputs))[key])))
  {
    var values := Values(Emitted(Mapper(words), inputs), key);
    var vs :| multiset(vs) == multiset(values) && value == Reducer(atoi, itoa)(key, vs);
    TotalOfPermutation(atoi, itoa, vs, values);
    EmittedOnes(words, inputs, key);
    OnesSum(atoi, values);
  }

  lemma {:induction false} EmittedWords(words: string -> seq<string>, inputs: seq<Input>, key: string)
    ensures HasKey(Emitted(Mapper(words), inputs), key) <==> key in AllWords(words, inputs)
  {
    if inputs != [] {
      var n := |inputs| - 1;
      var ws := words(inputs[n].contents);
      EmittedWords(words, inputs[..n], key);
      HasKeyConcat(Emitted(Mapper(words), inputs[..n]), Ones(ws), key);
      assert HasKey(Ones(ws), key) <==> key in ws by {
        if key in ws {
          var i :| 0 <= i < |ws| && ws[i] == key;
          assert Ones(ws)[i].key == key;
        }
      }
    }
  }

  /** `strings.FieldsFunc` never yields an empty field. */
  ghost predicate NoEmptyWord(words: string -> seq<string>, inputs: seq<Input>) {
    forall m :: 0 <= m < |inputs| ==> "" !in words(inputs[m].contents)
  }

  lemma {:induction false} EmptyNotCounted(words: string -> seq<string>, inputs: seq<Input>)
    requires NoEmptyWord(words, inputs)
    ensures "" !in AllWords(words, inputs)
  {
    if inputs != [] {
      EmptyNotCounted(words, inputs[..|inputs| - 1]);
    }
  }

  /**
   The word count job writes, in sorted order, every word of the input with
   the number of times it occurs; and, when some reduce task got no word, one
   more line, for the empty word with count 0.
   */
  method Run(words: string -> seq<string>, atoi: string -> Parsed, itoa: int -> string, ihash: string -> nat,
             nReduce: nat, inputs: seq<Input>, mapOrder: seq<nat>, reduceOrder: seq<nat>)
    returns (lines: seq<KeyValue<Outcome>>)
    requires nReduce > 0 && Covers(mapOrder, |inputs|) && Covers(reduceOrder, nReduce)
    requires atoi("1") == Number(1) && NoEmptyWord(words, inputs)
    ensures Ascending(KeysOf(lines))
    ensures forall k :: HasKey(lines, k) <==>
                          k in AllWords(words, inputs)
                          || (k == "" && SomeEmpty(ihash, nReduce, Emitted(Mapper(words), inputs)))
    ensures forall i :: 0 <= i < |lines| ==>
                          lines[i].value == Text(itoa(Wrap(multiset(AllWords(words, inputs))[lines[i].key])))
    ensures |AllWords(words, inputs)| < 0x8000_0000_0000_0000 ==>
              forall i :: 0 <= i < |lines| ==>
                lines[i].value == Text(itoa(multiset(AllWords(words, inputs))[lines[i].key]))
  {
    lines := MapReduceJob.Run(Mapper(words), Reducer(atoi, itoa), ihash, nReduce, inputs, mapOrder, reduceOrder);
    JobCounts(words, atoi, itoa, ihash, nReduce, inputs, lines);
    forall i | 0 <= i < |lines|
      ensures |AllWords(words, inputs)| < 0x8000_0000_0000_0000 ==>
                lines[i].value == Text(itoa(multiset(AllWords(words, inputs))[lines[i].key]))
    {
      FewOccurrences(AllWords(words, inputs), lines[i].key);
      WrapIsInt64(multiset(AllWords(words, inputs))[lines[i].key]);
    }
  }

  lemma {:induction false} FewOccurrences(ws: seq<string>, w: string)
    ensures multiset(ws)[w] <= |ws|
  {
    if ws != [] {
      FewOccurrences(ws[..|ws| - 1], w);
      assert ws == ws[..|ws| - 1] + [ws[|ws| - 1]];
    }
  }

  lemma JobCounts(words: string -> seq<string>, atoi: string -> Parsed, itoa: int -> string, ihash: string -> nat,
                  n: nat, inputs: seq<Input>, lines: seq<KeyValue<Outcome>>)
    requires n > 0 && atoi("1") == Number(1) && NoEmptyWord(words, inputs)
    requires JobOutput(Reducer(atoi, itoa), ihash, n, Emitted(Mapper(words), inputs), lines)
    ensures forall k :: HasKey(lines, k) <==>
                          k in AllWords(words, inputs)
                          || (k == "" && SomeEmpty(ihash, n, Emitted(Mapper(words), inputs)))
    ensures forall i :: 0 <= i < |lines| ==>
                          lines[i].value == Text(itoa(Wrap(multiset(AllWords(words, inputs))[lines[i].key])))
  {
    hide ReducesTo, HasKey, Masked, SomeEmpty;
    var emitted := Emitted(Mapper(words), inputs);
    forall k
      ensures HasKey(emitted, k) <==> k in AllWords(words, inputs)
    {
      EmittedWords(words, inputs, k);
    }
    EmptyNotCounted(words, inputs);
    NoValues(emitted, "");
    forall i | 0 <= i < |lines|
      ensures lines[i].value == Text(itoa(Wrap(multiset(AllWords(words, inputs))[lines[i].key])))
    {
      assert LineValues(ihash, n, emitted, lines[i].key) == multiset(Values(emitted, lines[i].key));
      LineCounts(words, atoi, itoa, inputs, lines[i].key, lines[i].value);
    }
  }
}
