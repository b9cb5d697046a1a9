/**
 How a leader brings a follower's log in line: undisturbed heartbeat rounds
 with a fixed leader log reach equality, and how many rounds that takes.
 */
module RaftCatchUp {
  import opened RaftServer

  /** The two servers of a catch-up, with the sizes the leader's arrays have. */
  predicate Paired(l: Server, f: Server, me: nat, p: nat) {
    && |l.nextIndex| == |l.matchIndex| >= 2
    && me < |l.nextIndex| && p < |l.nextIndex| && p != me
    && l.nextIndex[p] >= 1
    && f.currentTerm <= l.currentTerm
  }

  function OnlyReply(n: nat, p: nat, reply: AppendReply): seq<AppendReply> {
    seq(n, k => if k == p then reply else NO_REPLY)
  }

  /** One heartbeat that reaches `p` and whose reply returns in time. */
  function Round(l: Server, f: Server, me: nat, p: nat): (r: (Server, Server))
    requires Paired(l, f, me, p)
  {
    var (f', reply) := HandleAppend(f, BuildAppendArgs(l, me, p));
    (CollectBeat(SendBeat(l), me, OnlyReply(|l.nextIndex|, p, reply)), f')
  }

  function Rounds(l: Server, f: Server, me: nat, p: nat, k: nat): (r: (Server, Server))
    requires Paired(l, f, me, p)
    ensures Paired(r.0, r.1, me, p)
    decreases k
  {
    if k == 0 then (l, f) else
      RoundFacts(l, f, me, p);
      var (l', f') := Round(l, f, me, p);
      Rounds(l', f', me, p, k - 1)
  }

  /** `PrevLogIndex` of the next message to `p`. */
  function Prev(l: Server, p: nat): nat
    requires p < |l.nextIndex| && l.nextIndex[p] >= 1
  {
    Min(l.nextIndex[p], |l.log|) - 1
  }

  /** The log matching property between two logs, whose only term-0 entry is the sentinel. */
  ghost predicate Matching(a: seq<LogEntry>, b: seq<LogEntry>) {
    && a != [] && b != []
    && a[0] == b[0] == SENTINEL
    && (forall i :: 1 <= i < |a| ==> a[i].term > 0)
    && (forall i :: 1 <= i < |b| ==> b[i].term > 0)
    && (forall i :: 0 <= i < |a| && i < |b| && a[i].term == b[i].term ==> a[..i + 1] == b[..i + 1])
  }

  /** The number of runs of equal terms among the first `i + 1` entries. */
  function TermRuns(log: seq<LogEntry>, i: nat): nat
    requires i < |log|
  {
    if i == 0 then 1
    else if log[i].term == log[i - 1].term then TermRuns(log, i - 1)
    else TermRuns(log, i - 1) + 1
  }

  lemma RoundFacts(l: Server, f: Server, me: nat, p: nat)
    requires Paired(l, f, me, p)
    ensures var (l', f') := Round(l, f, me, p);
            && Paired(l', f', me, p)
            && l'.log == l.log
            && l'.currentTerm == l.currentTerm && l'.phase == l.phase
            && (!Accepts(f.log, BuildAppendArgs(l, me, p)) ==> f'.log == f.log)
            && |l'.nextIndex| == |l.nextIndex|
            && (forall q :: 0 <= q < |l.nextIndex| && q != p ==>
                  l'.nextIndex[q] == l.nextIndex[q] && l'.matchIndex[q] == l.matchIndex[q])
  {
    var (f', reply) := HandleAppend(f, BuildAppendArgs(l, me, p));
    if !reply.success && Prev(l, p) < |f.log| {
      ScanBackBounds(f.log, f.log[Prev(l, p)].term, Prev(l, p), Prev(l, p));
    }
  }

  lemma {:induction false} ScanBackBounds(log: seq<LogEntry>, term: nat, i: nat, default: nat)
    requires i <= |log|
    ensures ScanBack(log, term, i, default) == default || 1 <= ScanBack(log, term, i, default) <= i
  {
    if i > 0 && log[i - 1].term == term {
      ScanBackBounds(log, term, i - 1, default);
    }
  }

  /** Backing up over a conflict skips one whole run of terms. */
  lemma {:induction false} ScanBackSkipsRun(log: seq<LogEntry>, i: nat, default: nat)
    requires 1 <= i < |log| && log[0].term == 0 && log[i].term > 0
    ensures 1 <= ScanBack(log, log[i].term, i, default) <= i
    ensures TermRuns(log, ScanBack(log, log[i].term, i, default) - 1) == TermRuns(log, i) - 1
  {
    if log[i - 1].term == log[i].term {
      ScanBackSkipsRun(log, i - 1, default);
    }
  }

  lemma {:induction false} RunsGrow(log: seq<LogEntry>, i: nat)
    requires i < |log|
    ensures 1 <= TermRuns(log, i) <= TermRuns(log, |log| - 1)
    decreases |log| - i
  {
    if i < |log| - 1 {
      RunsGrow(log, i + 1);
    }
    RunsPositive(log, i);
  }

  lemma {:induction false} RunsPositive(log: seq<LogEntry>, i: nat)
    requires i < |log|
    ensures TermRuns(log, i) >= 1
  {
    if i > 0 {
      RunsPositive(log, i - 1);
    }
  }

  /** An accepted message leaves the follower with the leader's log. */
  lemma AcceptedRound(l: Server, f: Server, me: nat, p: nat)
    requires Paired(l, f, me, p) && Matching(l.log, f.log)
    requires Accepts(f.log, BuildAppendArgs(l, me, p))
    ensures Round(l, f, me, p).1.log == l.log
  {
    hide CollectBeat, SendBeat, BuildAppendArgs, OnlyReply;
    BuiltArgs(l, me, p);
    var prev := Prev(l, p);
    assert l.log[..prev + 1] == f.log[..prev + 1];
    assert l.log == l.log[..prev + 1] + l.log[prev + 1..];
  }

  /** Every message carries the rest of the leader's log after `PrevLogIndex`. */
  lemma BuiltArgs(l: Server, me: nat, p: nat)
    requires p < |l.nextIndex| && l.nextIndex[p] >= 1
    ensures var a := BuildAppendArgs(l, me, p);
            && a.term == l.currentTerm
            && a.prevLogIndex == Prev(l, p)
            && a.prevLogTerm == l.log[Prev(l, p)].term
            && a.entries == l.log[Prev(l, p) + 1..]
  {
  }

  /** Where the leader continues after a refusal. */
  lemma RefusedNext(l: Server, f: Server, me: nat, p: nat)
    requires Paired(l, f, me, p)
    requires !Accepts(f.log, BuildAppendArgs(l, me, p))
    ensures var prev := Prev(l, p);
            var back := if prev < |f.log| then ConflictIndex(f.log, prev) else |f.log|;
            back >= 1 ==> Round(l, f, me, p).0.nextIndex[p] == back
  {
  }

  /** A refused message lowers `PrevLogIndex`: into the follower's log, or below the conflicting run. */
  lemma RefusedRound(l: Server, f: Server, me: nat, p: nat)
    requires Paired(l, f, me, p) && Matching(l.log, f.log)
    requires !Accepts(f.log, BuildAppendArgs(l, me, p))
    ensures var (l', f') := Round(l, f, me, p);
            && f'.log == f.log && l'.log == l.log
            && Paired(l', f', me, p)
            && Prev(l', p) < Prev(l, p)
            && Prev(l', p) < |f.log|
            && (Prev(l, p) < |f.log| ==> TermRuns(f.log, Prev(l', p)) < TermRuns(f.log, Prev(l, p)))
  {
    hide Round;
    RoundFacts(l, f, me, p);
    RefusedNext(l, f, me, p);
    var prev := Prev(l, p);
    if prev < |f.log| {
      assert prev > 0;
      ScanBackSkipsRun(f.log, prev, prev);
    }
  }

  /**
   Once the logs are equal every message is accepted: the leader then knows
   it, and the follower has committed all that the leader had.
   */
  lemma SteadyRound(l: Server, f: Server, me: nat, p: nat)
    requires Paired(l, f, me, p) && f.log == l.log
    ensures var (l', f') := Round(l, f, me, p);
            && f'.log == l.log && l'.log == l.log
            && l'.matchIndex[p] == |l.log| - 1 && l'.nextIndex[p] == |l.log|
            && (l.commitIndex < |l.log| ==> l.commitIndex <= f'.commitIndex)
            && f.commitIndex <= f'.commitIndex
  {
    hide CommitCandidate, ScanCommit, ConflictIndex;
    BuiltArgs(l, me, p);
    var prev := Prev(l, p);
    assert l.log == l.log[..prev + 1] + l.log[prev + 1..];
  }

  lemma {:induction false} RoundsFacts(l: Server, f: Server, me: nat, p: nat, k: nat)
    requires Paired(l, f, me, p)
    ensures var l' := Rounds(l, f, me, p, k).0;
            && l'.log == l.log && l'.currentTerm == l.currentTerm && l'.phase == l.phase
            && |l'.nextIndex| == |l.nextIndex|
            && (forall q :: 0 <= q < |l.nextIndex| && q != p ==> l'.matchIndex[q] == l.matchIndex[q])
    decreases k
  {
    hide Round, Paired;
    if k > 0 {
      RoundFacts(l, f, me, p);
      var (l', f') := Round(l, f, me, p);
      RoundsFacts(l', f', me, p, k - 1);
    }
  }

  /** What holds of the rounds after the first holds of all of them. */
  lemma ShiftRounds(l: Server, f: Server, me: nat, p: nat, k: nat, log: Log)
    requires Paired(l, f, me, p)
    requires var (l', f') := Round(l, f, me, p);
             && Paired(l', f', me, p)
             && Prev(l', p) < Prev(l, p)
             && (forall j :: 0 <= j < k ==> Rounds(l', f', me, p, j).1.log == log)
             && (forall j :: 0 < j < k ==>
                   Prev(Rounds(l', f', me, p, j).0, p) < Prev(Rounds(l', f', me, p, j - 1).0, p))
    requires f.log == log
    ensures forall j :: 0 <= j < k + 1 ==> Rounds(l, f, me, p, j).1.log == log
    ensures forall j :: 0 < j < k + 1 ==> Prev(Rounds(l, f, me, p, j).0, p) < Prev(Rounds(l, f, me, p, j - 1).0, p)
  {
    hide Round;
    var (l', f') := Round(l, f, me, p);
    forall j | 0 <= j < k + 1
      ensures Rounds(l, f, me, p, j).1.log == log
    {
      if j > 0 {
        assert Rounds(l, f, me, p, j) == Rounds(l', f', me, p, j - 1);
      }
    }
    forall j | 0 < j < k + 1
      ensures Prev(Rounds(l, f, me, p, j).0, p) < Prev(Rounds(l, f, me, p, j - 1).0, p)
    {
      assert Rounds(l, f, me, p, j) == Rounds(l', f', me, p, j - 1);
      if j > 1 {
        assert Rounds(l, f, me, p, j - 1) == Rounds(l', f', me, p, j - 2);
      }
    }
  }

  /** From inside the follower's log, it takes no more rounds than there are runs up to `PrevLogIndex`. */
  lemma {:induction false} CatchUpInside(l: Server, f: Server, me: nat, p: nat) returns (k: nat)
    requires Paired(l, f, me, p) && Matching(l.log, f.log) && Prev(l, p) < |f.log|
    ensures 1 <= k <= TermRuns(f.log, Prev(l, p))
    ensures Rounds(l, f, me, p, k).1.log == l.log
    ensures forall j :: 0 <= j < k ==> Rounds(l, f, me, p, j).1.log == f.log
    ensures forall j :: 0 < j < k ==> Prev(Rounds(l, f, me, p, j).0, p) < Prev(Rounds(l, f, me, p, j - 1).0, p)
    decreases Prev(l, p)
  {
    hide Round, Matching, HandleAppend, BuildAppendArgs, Accepts;
    RunsPositive(f.log, Prev(l, p));
    if Accepts(f.log, BuildAppendArgs(l, me, p)) {
      AcceptedRound(l, f, me, p);
      RoundFacts(l, f, me, p);
      k := 1;
      assert Rounds(l, f, me, p, 1) == Round(l, f, me, p);
    } else {
      RefusedRound(l, f, me, p);
      var (l', f') := Round(l, f, me, p);
      var k' := CatchUpInside(l', f', me, p);
      k := k' + 1;
      ShiftRounds(l, f, me, p, k', f.log);
    }
  }

  /**
   Catch-up converges: after at most (term runs in the follower's log) + 1
   undisturbed rounds the follower's log equals the leader's; until then it is
   untouched.
   */
  lemma CatchUp(l: Server, f: Server, me: nat, p: nat) returns (k: nat)
    requires Paired(l, f, me, p) && Matching(l.log, f.log)
    ensures 1 <= k <= TermRuns(f.log, |f.log| - 1) + 1
    ensures Rounds(l, f, me, p, k).1.log == l.log
    ensures forall j :: 0 <= j < k ==> Rounds(l, f, me, p, j).1.log == f.log
    ensures forall j :: 0 < j < k ==> Prev(Rounds(l, f, me, p, j).0, p) < Prev(Rounds(l, f, me, p, j - 1).0, p)
  {
    hide Round, Matching, HandleAppend, BuildAppendArgs, TermRuns;
    if Prev(l, p) < |f.log| {
      k := CatchUpInside(l, f, me, p);
      RunsGrow(f.log, Prev(l, p));
    } else {
      BuiltArgs(l, me, p);
      RefusedRound(l, f, me, p);
      var (l', f') := Round(l, f, me, p);
      var k' := CatchUpInside(l', f', me, p);
      RunsGrow(f.log, Prev(l', p));
      k := k' + 1;
      ShiftRounds(l, f, me, p, k', f.log);
    }
  }
}
