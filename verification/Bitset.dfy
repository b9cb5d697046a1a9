/**
 The bitset of the checker: an array of 64-bit words that stands for a finite
 set of naturals. `Set` and `Clear` change the array in place.
 */
module Bitset {
  import opened Word

  predicate In(words: seq<bv64>, pos: nat) {
    pos / 64 < |words| && Bit(words[pos / 64], pos % 64)
  }

  /** The set a sequence of words stands for. */
  function Members(words: seq<bv64>): set<nat> {
    set pos | 0 <= pos < 64 * |words| && In(words, pos)
  }

  lemma FindDifferentMember(v: seq<bv64>, w: seq<bv64>, k: nat) returns (pos: nat)
    requires |v| == |w| && k < |v| && v[k] != w[k]
    ensures pos in Members(v) <==> pos !in Members(w)
  {
    var i := FindDifferentBit(v[k], w[k]);
    pos := 64 * k + i;
    assert pos / 64 == k && pos % 64 == i;
  }

  /** Words of one length stand for one set only. */
  lemma MembersDetermineWords(v: seq<bv64>, w: seq<bv64>)
    requires |v| == |w| && Members(v) == Members(w)
    ensures v == w
  {
    forall k | 0 <= k < |v|
      ensures v[k] == w[k]
    {
      if v[k] != w[k] {
        var pos := FindDifferentMember(v, w, k);
      }
    }
  }

  lemma SetMembers(v: seq<bv64>, pos: nat)
    requires pos / 64 < |v|
    ensures Members(v[pos / 64 := WithBit(v[pos / 64], pos % 64)]) == Members(v) + {pos}
  {
    hide Bit, WithBit;
    var w := v[pos / 64 := WithBit(v[pos / 64], pos % 64)];
    forall q: nat
      ensures In(w, q) <==> In(v, q) || q == pos
    {
      if q / 64 == pos / 64 {
        SetBit(v[pos / 64], pos % 64, q % 64);
      }
    }
  }

  lemma ClearMembers(v: seq<bv64>, pos: nat)
    requires pos / 64 < |v|
    ensures Members(v[pos / 64 := WithoutBit(v[pos / 64], pos % 64)]) == Members(v) - {pos}
  {
    hide Bit, WithoutBit;
    var w := v[pos / 64 := WithoutBit(v[pos / 64], pos % 64)];
    forall q: nat
      ensures In(w, q) <==> In(v, q) && q != pos
    {
      if q / 64 == pos / 64 {
        ClearBit(v[pos / 64], pos % 64, q % 64);
      }
    }
  }

  // ----- counting

  function TotalOnes(words: seq<bv64>): nat {
    if words == [] then 0 else TotalOnes(words[..|words| - 1]) + Ones(words[|words| - 1], 0, 64)
  }

  function WordMembers(w: bv64, base: nat, k: nat): set<nat>
    requires k <= 64
  {
    set pos | base <= pos < base + k && BitFrom(w, base, pos)
  }

  predicate BitFrom(w: bv64, base: nat, pos: nat) {
    base <= pos < base + 64 && Bit(w, pos - base)
  }

  lemma {:induction false} WordMembersCount(w: bv64, base: nat, k: nat)
    requires k <= 64
    ensures |WordMembers(w, base, k)| == Ones(w, 0, k)
  {
    hide Bit;
    if k > 0 {
      WordMembersCount(w, base, k - 1);
      var here := if Bit(w, k - 1) then {base + k - 1} else {};
      assert WordMembers(w, base, k) == WordMembers(w, base, k - 1) + here;
    } else {
      assert WordMembers(w, base, 0) == {};
    }
  }

  /** The count of ones is the size of the set. */
  lemma {:induction false} TotalIsCardinality(words: seq<bv64>)
    ensures TotalOnes(words) == |Members(words)|
  {
    hide Bit, Ones;
    if words == [] {
      assert Members(words) == {};
    } else {
      var front, w := words[..|words| - 1], words[|words| - 1];
      var base := 64 * |front|;
      TotalIsCardinality(front);
      WordMembersCount(w, base, 64);
      forall pos: nat
        ensures In(words, pos) <==> In(front, pos) || pos in WordMembers(w, base, 64)
      {
        if pos / 64 == |front| {
          assert pos - base == pos % 64;
        }
      }
      assert Members(words) == Members(front) + WordMembers(w, base, 64);
      assert Members(front) !! WordMembers(w, base, 64);
    }
  }

  // ----- hashing

  function XorAll(words: seq<bv64>, start: bv64): bv64 {
    if words == [] then start else Xor(XorAll(words[..|words| - 1], start), words[|words| - 1])
  }

  /** `uint64(n)`. */
  function Truncated(n: nat): bv64 {
    (n % 0x1_0000_0000_0000_0000) as bv64
  }

  /** `uint64(popcnt)` xor-ed with every word, read as a number. */
  function HashOf(words: seq<bv64>): nat {
    ToNat(XorAll(words, Truncated(TotalOnes(words))))
  }

  /** How many words have bit `j` set. */
  function Having(words: seq<bv64>, j: nat): nat
    requires j < 64
  {
    if words == [] then 0
    else Having(words[..|words| - 1], j) + (if Bit(words[|words| - 1], j) then 1 else 0)
  }

  lemma {:induction false} XorAllBits(words: seq<bv64>, start: bv64, j: nat)
    requires j < 64
    ensures Bit(XorAll(words, start), j) <==> (Bit(start, j) != (Having(words, j) % 2 == 1))
  {
    hide Bit, Xor;
    if words != [] {
      var front, last := words[..|words| - 1], words[|words| - 1];
      XorAllBits(front, start, j);
      XorFlips(XorAll(front, start), last, j);
      OneFlips(Having(front, j), Bit(last, j));
    }
  }

  lemma OneFlips(n: nat, b: bool)
    ensures (n + (if b then 1 else 0)) % 2 == 1 <==> ((n % 2 == 1) != b)
  {
  }

  /** Bit by bit: the parity of that column of the words, flipped where the number of members has a one. */
  lemma HashBits(words: seq<bv64>) returns (x: bv64)
    ensures HashOf(words) == ToNat(x)
    ensures forall j :: 0 <= j < 64 ==>
              (Bit(x, j) <==> (Bit(Truncated(|Members(words)|), j) != (Having(words, j) % 2 == 1)))
  {
    hide Bit, Truncated, ToNat, Members, Having;
    TotalIsCardinality(words);
    x := XorAll(words, Truncated(TotalOnes(words)));
    forall j | 0 <= j < 64
      ensures Bit(x, j) <==> (Bit(Truncated(|Members(words)|), j) != (Having(words, j) % 2 == 1))
    {
      XorAllBits(words, Truncated(TotalOnes(words)), j);
    }
  }

  /** Bitsets of one length that stand for one set have one hash: a bucket lookup misses nothing. */
  lemma EqualSetsHashAlike(v: seq<bv64>, w: seq<bv64>)
    requires |v| == |w| && Members(v) == Members(w)
    ensures HashOf(v) == HashOf(w)
  {
    MembersDetermineWords(v, w);
  }

  // ----- the operations

  method New(bits: nat) returns (b: array<bv64>)
    ensures fresh(b)
    ensures b.Length == bits / 64 + (if bits % 64 != 0 then 1 else 0)
    ensures bits <= 64 * b.Length
    ensures Members(b[..]) == {}
  {
    var extra := 0;
    if bits % 64 != 0 {
      extra := 1;
    }
    b := new bv64[bits / 64 + extra](_ => 0);
    forall pos: nat
      ensures !In(b[..], pos)
    {
      ZeroHasNoBit(pos % 64);
    }
  }

  method Clone(b: array<bv64>) returns (c: array<bv64>)
    ensures fresh(c)
    ensures c[..] == b[..]
  {
    c := new bv64[b.Length];
    var i := 0;
    while i < b.Length
      invariant 0 <= i <= b.Length
      invariant c[..i] == b[..i]
    {
      c[i] := b[i];
      i := i + 1;
    }
  }

  method Set(b: array<bv64>, pos: nat)
    requires pos < 64 * b.Length
    modifies b
    ensures Members(b[..]) == Members(old(b[..])) + {pos}
  {
    var major, minor := pos / 64, pos % 64;
    SetMembers(b[..], pos);
    b[major] := WithBit(b[major], minor);
    assert b[..] == old(b[..])[major := WithBit(old(b[..])[major], minor)];
  }

  method Clear(b: array<bv64>, pos: nat)
    requires pos < 64 * b.Length
    modifies b
    ensures Members(b[..]) == Members(old(b[..])) - {pos}
  {
    var major, minor := pos / 64, pos % 64;
    ClearMembers(b[..], pos);
    b[major] := WithoutBit(b[major], minor);
    assert b[..] == old(b[..])[major := WithoutBit(old(b[..])[major], minor)];
  }

  /** Clearing a bit that had just been set restores the very words. */
  method SetThenClear(b: array<bv64>, pos: nat)
    requires pos < 64 * b.Length && pos !in Members(b[..])
    modifies b
    ensures b[..] == old(b[..])
  {
    Set(b, pos);
    Clear(b, pos);
    MembersDetermineWords(b[..], old(b[..]));
  }

  method Get(b: array<bv64>, pos: nat) returns (r: bool)
    requires pos < 64 * b.Length
    ensures r <==> pos in Members(b[..])
  {
    r := Bit(b[pos / 64], pos % 64);
  }

  method Popcnt(b: array<bv64>) returns (total: nat)
    ensures total == |Members(b[..])|
  {
    hide Popcount, Ones;
    total := 0;
    var i := 0;
    while i < b.Length
      invariant 0 <= i <= b.Length
      invariant total == TotalOnes(b[..i])
    {
      PopcountCorrect(b[i]);
      total := total + ToNat(Popcount(b[i]));
      assert b[..i + 1][..i] == b[..i];
      i := i + 1;
    }
    assert b[..i] == b[..];
    TotalIsCardinality(b[..]);
  }

  method Hash(b: array<bv64>) returns (h: nat)
    ensures h == HashOf(b[..])
  {
    hide Truncated, ToNat, Members, TotalOnes;
    var count := Popcnt(b);
    TotalIsCardinality(b[..]);
    var hash := Truncated(count);
    ghost var start := hash;
    var i := 0;
    while i < b.Length
      invariant 0 <= i <= b.Length
      invariant hash == XorAll(b[..i], start)
    {
      hash := hash ^ b[i];
      assert b[..i + 1][..i] == b[..i];
      i := i + 1;
    }
    assert b[..i] == b[..];
    h := ToNat(hash);
  }

  method Equals(b: array<bv64>, c: array<bv64>) returns (r: bool)
    ensures r <==> b.Length == c.Length && Members(b[..]) == Members(c[..])
  {
    if b.Length != c.Length {
      return false;
    }
    var i := 0;
    while i < b.Length
      invariant 0 <= i <= b.Length
      invariant b[..i] == c[..i]
    {
      if b[i] != c[i] {
        ghost var pos := FindDifferentMember(b[..], c[..], i);
        return false;
      }
      i := i + 1;
    }
    assert b[..i] == b[..] && c[..i] == c[..];
    return true;
  }
}
