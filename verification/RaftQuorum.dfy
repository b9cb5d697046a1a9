/**
 The arithmetic of quorums: what the leader's sorted `matchIndex` array picks
 out, and which quorums are bound to meet.
 */
module RaftQuorum {
  import opened Collections
  import opened RaftServer
  import opened RaftCluster

  /** The servers the leader knows to hold index `w`, itself included. */
  function Supporters(matchIndex: seq<nat>, me: nat, w: nat): set<nat> {
    set f | 0 <= f < |matchIndex| && (f == me || matchIndex[f] >= w)
  }

  function Count(s: seq<nat>, w: nat): nat {
    if s == [] then 0 else (if s[0] >= w then 1 else 0) + Count(s[1..], w)
  }

  ghost predicate Sorted(s: seq<nat>) {
    forall i, j :: 0 <= i <= j < |s| ==> s[i] <= s[j]
  }

  lemma {:induction false} InsertSorted(x: nat, s: seq<nat>)
    requires Sorted(s)
    ensures Sorted(Insert(x, s))
    ensures Insert(x, s)[0] == if s == [] || x <= s[0] then x else s[0]
  {
    if s != [] && x > s[0] {
      InsertSorted(x, s[1..]);
      assert forall j :: 0 <= j < |Insert(x, s[1..])| ==> s[0] <= Insert(x, s[1..])[j];
    }
  }

  lemma {:induction false} InsertCounts(x: nat, s: seq<nat>, w: nat)
    ensures Count(Insert(x, s), w) == Count([x] + s, w)
  {
    assert ([x] + s)[1..] == s;
    if s != [] && x > s[0] {
      InsertCounts(x, s[1..], w);
      assert ([x] + s[1..])[1..] == s[1..];
      assert Insert(x, s)[1..] == Insert(x, s[1..]);
    }
  }

  lemma {:induction false} SortIsSorted(s: seq<nat>)
    ensures Sorted(Sort(s))
  {
    if s != [] {
      SortIsSorted(s[1..]);
      InsertSorted(s[0], Sort(s[1..]));
    }
  }

  lemma {:induction false} SortCounts(s: seq<nat>, w: nat)
    ensures Count(Sort(s), w) == Count(s, w)
  {
    if s != [] {
      SortCounts(s[1..], w);
      InsertCounts(s[0], Sort(s[1..]), w);
      assert ([s[0]] + Sort(s[1..]))[1..] == Sort(s[1..]);
    }
  }

  /** In a sorted sequence, `Count` is a position. */
  lemma {:induction false} SortedCount(s: seq<nat>, k: nat, w: nat)
    requires Sorted(s) && k <= |s|
    ensures k < |s| && s[k] >= w ==> Count(s, w) >= |s| - k
    ensures (forall j :: 0 <= j < k ==> s[j] < w) ==> Count(s, w) <= |s| - k
  {
    if s != [] {
      SortedCount(s[1..], if k == 0 then 0 else k - 1, w);
    }
  }

  lemma {:induction false} CountIsCardinality(s: seq<nat>, w: nat)
    ensures |set f | 0 <= f < |s| && s[f] >= w| == Count(s, w)
  {
    if s != [] {
      var t := s[1..];
      CountIsCardinality(t, w);
      var a := set f | 0 <= f < |t| && t[f] >= w;
      var b := set f | 0 <= f < |s| && s[f] >= w;
      Shift(|t|, a, b - {0});
      assert 0 in b <==> s[0] >= w;
    }
  }

  lemma {:induction false} Shift(n: nat, a: set<nat>, b: set<nat>)
    requires forall x :: x in a ==> x < n
    requires forall x :: x in a ==> x + 1 in b
    requires forall x :: x in b ==> x > 0 && x - 1 in a
    ensures |b| == |a|
  {
    if n == 0 {
      assert a == {} && b == {};
    } else {
      Shift(n - 1, a - {n - 1}, b - {n});
    }
  }

  lemma SupportersCount(matchIndex: seq<nat>, me: nat, w: nat)
    requires me < |matchIndex| && w > 0
    ensures |Supporters(matchIndex, me, w)| == Count(matchIndex[me := 0], w) + 1
  {
    var s := matchIndex[me := 0];
    CountIsCardinality(s, w);
    var b := set f | 0 <= f < |s| && s[f] >= w;
    assert Supporters(matchIndex, me, w) == b + {me};
  }

  /** The downward search finds the highest entry of the term, and never goes back. */
  lemma {:induction false} ScanCommitIsGreatest(log: seq<LogEntry>, term: nat, i: nat, commit: nat)
    requires i < |log|
    ensures commit <= ScanCommit(log, term, i, commit)
    ensures ScanCommit(log, term, i, commit) != commit ==>
              ScanCommit(log, term, i, commit) <= i && log[ScanCommit(log, term, i, commit)].term == term
    ensures forall k :: ScanCommit(log, term, i, commit) < k <= i ==> log[k].term != term
  {
    if i > commit && log[i].term != term {
      ScanCommitIsGreatest(log, term, i - 1, commit);
    }
  }

  /**
   The commit candidate is the greatest index that a strict majority, leader
   included, is known to hold: for every cluster of at least two servers and
   every `matchIndex`.
   */
  lemma CommitCandidateIsGreatest(matchIndex: seq<nat>, me: nat)
    requires me < |matchIndex| && |matchIndex| >= 2
    ensures 2 * |Supporters(matchIndex, me, CommitCandidate(matchIndex, me))| > |matchIndex|
    ensures forall w :: w > CommitCandidate(matchIndex, me) ==>
                          2 * |Supporters(matchIndex, me, w)| <= |matchIndex|
  {
    var n, v := |matchIndex|, CommitCandidate(matchIndex, me);
    var s := matchIndex[me := 0];
    var r, k := Sort(s), (n + 1) / 2;
    SortIsSorted(s);
    if v == 0 {
      InitialSegment(n, Supporters(matchIndex, me, 0));
    } else {
      SortCounts(s, v);
      SortedCount(r, k, v);
      SupportersCount(matchIndex, me, v);
    }
    forall w | w > v
      ensures 2 * |Supporters(matchIndex, me, w)| <= n
    {
      SortCounts(s, w);
      SortedCount(r, k + 1, w);
      SupportersCount(matchIndex, me, w);
    }
  }

  /** Being a majority is monotone, so the candidate is determined: no other index has the property. */
  lemma CommitCandidateIsUnique(matchIndex: seq<nat>, me: nat, v: nat)
    requires me < |matchIndex| && |matchIndex| >= 2
    requires 2 * |Supporters(matchIndex, me, v)| > |matchIndex|
    requires forall w :: w > v ==> 2 * |Supporters(matchIndex, me, w)| <= |matchIndex|
    ensures v == CommitCandidate(matchIndex, me)
  {
    CommitCandidateIsGreatest(matchIndex, me);
  }

  /** Sets of servers of the given sizes always meet. */
  ghost predicate AlwaysMeet(n: nat, p: nat, q: nat) {
    forall a: set<nat>, b: set<nat> ::
      (forall x :: x in a ==> x < n) && (forall x :: x in b ==> x < n) && |a| >= p && |b| >= q ==> a * b != {}
  }

  lemma LargeSetsMeet(n: nat, p: nat, q: nat)
    requires p + q > n
    ensures AlwaysMeet(n, p, q)
  {
    forall a: set<nat>, b: set<nat> |
      (forall x :: x in a ==> x < n) && (forall x :: x in b ==> x < n) && |a| >= p && |b| >= q
      ensures a * b != {}
    {
      RangeSize(n, a + b);
      assert |a + b| == |a| + |b| - |a * b|;
    }
  }

  function Interval(lo: nat, hi: nat): set<nat> {
    set x {:trigger Inside(lo, x, hi)} | lo <= x < hi && Inside(lo, x, hi)
  }

  predicate Inside(lo: nat, x: int, hi: nat) {
    lo <= x < hi
  }

  lemma {:induction false} IntervalSize(lo: nat, hi: nat)
    requires lo <= hi
    ensures |Interval(lo, hi)| == hi - lo
  {
    if lo < hi {
      IntervalSize(lo, hi - 1);
      assert Interval(lo, hi) == Interval(lo, hi - 1) + {hi - 1};
    }
  }

  /** A commit quorum meets every election quorum, whatever the number of servers. */
  lemma CommitMeetsElection(n: nat)
    ensures AlwaysMeet(n, n / 2 + 1, ElectionQuorum(n))
  {
    LargeSetsMeet(n, n / 2 + 1, ElectionQuorum(n));
  }

  /**
   Two elections of one term are bound to share a voter exactly when the number
   of servers is odd: `math.Ceil(n/2)` is half of an even cluster.
   */
  lemma ElectionsMeetIffOdd(n: nat)
    ensures AlwaysMeet(n, ElectionQuorum(n), ElectionQuorum(n)) <==> n % 2 == 1
  {
    if n % 2 == 1 {
      LargeSetsMeet(n, ElectionQuorum(n), ElectionQuorum(n));
    } else {
      var h := n / 2;
      IntervalSize(0, h);
      IntervalSize(h, n);
      assert Interval(0, h) * Interval(h, n) == {};
    }
  }
}
