/**
 The protocol can always make progress: from every state of every guarded run
 each majority of the servers can go on, by itself, to have a new command
 applied by all its members. Nothing that went before, no mixture of terms,
 votes and logs that crashes and losses have left behind, can block it.
 */
module RaftProgress {
  import opened Collections
  import opened RaftServer
  import opened RaftCluster
  import opened RaftHistory
  import opened RaftBase
  import opened RaftQuorum
  import opened RaftReplication
  import opened RaftRuns
  import opened RaftTheorems
  import opened RaftCatchUp
  import opened RaftAdvance
  import opened RaftTrace
  import opened RaftVoting

  // ----- runs that stay guarded

  ghost predicate IsGuarded(n: nat, t: Trace) {
    t.states != [] && IsGuardedRun(n, t.states, t.actions)
  }

  /** A step that accepts nothing shorter than before keeps the run guarded. */
  lemma ThenGuarded(n: nat, t: Trace, a: Action)
    requires IsGuarded(n, t) && Shaped(Now(t)) && Enabled(Now(t), a)
    requires forall j :: 0 <= j < |t.actions| && SameChannel(t.actions[j], a) &&
                         Accepting(t.states[j], t.actions[j]) ==>
               SentLength(t.actions[j].m) <= SentLength(a.m)
    ensures IsGuarded(n, Then(t, a)) && Now(Then(t, a)) == Effect(Now(t), a) && Shaped(Now(Then(t, a)))
  {
    hide Effect, Enabled, Shaped, Init, Accepting;
    ThenIsTrace(n, t, a);
    var t' := Then(t, a);
    forall j, k | 0 <= j < k < |t'.actions| && BothAccepted(t'.states, t'.actions, j, k)
      ensures SentLength(t'.actions[j].m) <= SentLength(t'.actions[k].m)
    {
      if k < |t.actions| {
        assert BothAccepted(t.states, t.actions, j, k);
      }
    }
  }

  /** A run that goes on without delivering entries stays guarded. */
  lemma ContinuesGuarded(n: nat, t: Trace, t': Trace)
    requires IsGuarded(n, t) && IsTrace(n, t') && Continues(t, t')
    ensures IsGuarded(n, t')
  {
    hide Init, IsStep, Accepting;
    forall j, k | 0 <= j < k < |t'.actions| && BothAccepted(t'.states, t'.actions, j, k)
      ensures SentLength(t'.actions[j].m) <= SentLength(t'.actions[k].m)
    {
      assert k < |t.actions|;
      assert t'.states[j] == t.states[j] && t'.states[k] == t.states[k];
      assert BothAccepted(t.states, t.actions, j, k);
    }
  }

  /** A message with the whole log of a leader is no shorter than any that was accepted from it before. */
  lemma WholeLogIsLongest(n: nat, t: Trace, b: nat, j: nat)
    requires ValidSize(n) && IsGuarded(n, t) && b < |Now(t).servers| && Now(t).servers[b].phase.Leader?
    requires j < |t.actions| && t.actions[j].DeliverAppend? && t.actions[j].m.Append?
    requires t.actions[j].m.append.term == Now(t).servers[b].currentTerm
    ensures SentLength(t.actions[j].m) <= |Now(t).servers[b].log|
  {
    hide Base, Extends, Record, Init;
    var hs := Histories(n, t.states, t.actions);
    var k := |t.actions|;
    assert IsRecord(t.states[j], hs[j], t.actions[j], hs[j + 1]);
    DeliveredIsOK(n, t.states[j], hs[j], t.actions[j]);
    AppendOKGrows(n, hs[j], hs[k], t.actions[j].m);
    SentIsInside(n, t.states[k], hs[k], b, t.actions[j].m);
  }

  lemma SentIsInside(n: nat, c: Cluster, h: History, b: nat, m: Message)
    requires Base(n, c, h) && b < |c.servers| && c.servers[b].phase.Leader?
    requires m.Append? && AppendOK(n, h, m) && m.append.term == c.servers[b].currentTerm
    ensures SentLength(m) <= |c.servers[b].log|
  {
    hide HistoryOK, MessageOK, GoodLog, VotingOK;
    assert ServerOK(n, h, b, c.servers[b]);
  }

  // ----- one round between a leader and one peer

  /** Server `b` leads, and server `f` is another one whose term is not above its. */
  predicate Leading(c: Cluster, b: nat, f: nat) {
    && b < |c.servers| && f < |c.servers| && b != f
    && c.servers[b].phase.Leader?
    && c.servers[f].currentTerm <= c.servers[b].currentTerm
  }

  lemma LeadingIsPaired(c: Cluster, b: nat, f: nat)
    requires Shaped(c) && Leading(c, b, f)
    ensures Paired(c.servers[b], c.servers[f], b, f) && |c.servers[b].nextIndex| == |c.servers|
  {
    assert ShapedServer(|c.servers|, c.servers[b]);
  }

  /** The message carries the rest of the log. */
  lemma WholeLogSent(l: Server, me: nat, p: nat, beat: nat)
    requires p < |l.nextIndex| && l.nextIndex[p] >= 1
    ensures SentLength(Append(p, beat, BuildAppendArgs(l, me, p))) == |l.log|
    ensures BuildAppendArgs(l, me, p).term == l.currentTerm && BuildAppendArgs(l, me, p).leader == me
  {
  }

  lemma SendFacts(l: Server)
    ensures SendBeat(l).phase == l.phase && SendBeat(l).beat == l.beat + 1 && SendBeat(l).currentTerm == l.currentTerm
    ensures SendBeat(l).log == l.log && SendBeat(l).nextIndex == l.nextIndex && SendBeat(l).matchIndex == l.matchIndex
  {
  }

  /** A heartbeat that reaches `f` and is answered in time, as three steps of the run. */
  lemma OneRound(n: nat, t: Trace, b: nat, f: nat) returns (t': Trace)
    requires ValidSize(n) && IsGuarded(n, t) && Shaped(Now(t)) && Leading(Now(t), b, f)
    ensures IsGuarded(n, t') && Shaped(Now(t')) && t.states <= t'.states && t.actions <= t'.actions
    ensures var (l, s) := (Now(t).servers[b], Now(t).servers[f]);
            && Paired(l, s, b, f)
            && Now(t').servers == Now(t).servers[b := Round(l, s, b, f).0][f := Round(l, s, b, f).1]
  {
    hide IsGuardedRun, HandleAppend, CollectBeat, SendBeat, BuildAppendArgs;
    var c := Now(t);
    var l, s := c.servers[b], c.servers[f];
    LeadingIsPaired(c, b, f);
    WholeLogSent(l, b, f, l.beat + 1);
    SendFacts(l);
    ThenGuarded(n, t, Heartbeat(b));
    var t1 := Then(t, Heartbeat(b));
    var m := Append(f, l.beat + 1, BuildAppendArgs(l, b, f));
    assert m in Beats(c, b);
    var a := DeliverAppend(f, m);
    forall j | 0 <= j < |t1.actions| && SameChannel(t1.actions[j], a)
      ensures SentLength(t1.actions[j].m) <= SentLength(m)
    {
      WholeLogIsLongest(n, t1, b, j);
    }
    ThenGuarded(n, t1, a);
    var t2 := Then(t1, a);
    var (s', reply) := HandleAppend(s, m.append);
    assert AppendAnswer(l.currentTerm, b, f, l.beat + 1, reply) in Now(t2).net;
    var replies := OnlyReply(|c.servers|, f, reply);
    assert forall p :: 0 <= p < |replies| ==> ReplyOfRound(Now(t2), b, p, replies[p]);
    ThenGuarded(n, t2, Collect(b, replies));
    t' := Then(t2, Collect(b, replies));
  }

  // ----- bringing a follower up to date

  /** The leader kept its log, term and office, and nobody but it and `f` changed. */
  ghost predicate LedOn(c: Cluster, c': Cluster, b: nat, f: nat) {
    && |c'.servers| == |c.servers| && Leading(c, b, f) && Leading(c', b, f)
    && c'.servers[b].log == c.servers[b].log && c'.servers[b].currentTerm == c.servers[b].currentTerm
    && |c'.servers[b].matchIndex| == |c.servers[b].matchIndex| == |c.servers|
    && (forall v :: 0 <= v < |c.servers| && v != b && v != f ==>
          c'.servers[v] == c.servers[v] && c'.servers[b].matchIndex[v] == c.servers[b].matchIndex[v])
  }

  /** As many rounds as one likes. */
  lemma {:induction false} ManyRounds(n: nat, t: Trace, b: nat, f: nat, k: nat) returns (t': Trace)
    requires ValidSize(n) && IsGuarded(n, t) && Shaped(Now(t)) && Leading(Now(t), b, f)
    requires Paired(Now(t).servers[b], Now(t).servers[f], b, f)
    ensures IsGuarded(n, t') && Shaped(Now(t')) && t.states <= t'.states && t.actions <= t'.actions
    ensures var (l, s) := (Now(t).servers[b], Now(t).servers[f]);
            Now(t').servers == Now(t).servers[b := Rounds(l, s, b, f, k).0][f := Rounds(l, s, b, f, k).1]
    decreases k
  {
    hide IsGuardedRun, Round, Shaped, Paired;
    var l, s := Now(t).servers[b], Now(t).servers[f];
    if k == 0 {
      t' := t;
    } else {
      var t1 := OneRound(n, t, b, f);
      RoundFacts(l, s, b, f);
      PairedTerms(Round(l, s, b, f).0, Round(l, s, b, f).1, b, f);
      t' := ManyRounds(n, t1, b, f, k - 1);
    }
  }

  lemma PairedTerms(l: Server, s: Server, me: nat, p: nat)
    requires Paired(l, s, me, p)
    ensures s.currentTerm <= l.currentTerm
  {
  }

  lemma GoodTerms(h: History, log: seq<LogEntry>)
    requires GoodLog(h, log)
    ensures log[0] == SENTINEL && forall i :: 1 <= i < |log| ==> log[i].term > 0
  {
    forall i | 1 <= i < |log|
      ensures log[i].term > 0
    {
      assert Rooted(h, log, i);
    }
  }

  /** The logs of two servers in a state of a run match, in the sense of the catch-up theorem. */
  lemma RunMatching(n: nat, t: Trace, a: nat, b: nat)
    requires ValidSize(n) && IsTrace(n, t) && a < |Now(t).servers| && b < |Now(t).servers|
    ensures Matching(Now(t).servers[a].log, Now(t).servers[b].log)
  {
    hide Extends, IsRecord, HistoryOK, MessageOK, VotingOK;
    var hs := Histories(n, t.states, t.actions);
    var k := |t.actions|;
    var la, lb := Now(t).servers[a].log, Now(t).servers[b].log;
    assert ServerOK(n, hs[k], a, Now(t).servers[a]) && ServerOK(n, hs[k], b, Now(t).servers[b]);
    GoodTerms(hs[k], la);
    GoodTerms(hs[k], lb);
    forall i | 0 <= i < |la| && i < |lb| && la[i].term == lb[i].term
      ensures la[..i + 1] == lb[..i + 1]
    {
      LogMatching(n, t.states, t.actions, k, k, a, b, i);
    }
  }

  /** Server `f` has the leader's log, and the leader knows it. */
  ghost predicate InStep(c: Cluster, b: nat, f: nat) {
    && Leading(c, b, f) && f < |c.servers[b].matchIndex|
    && c.servers[f].log == c.servers[b].log && c.servers[b].matchIndex[f] == |c.servers[b].log| - 1
  }

  /** A round with a follower that has the leader's log. */
  lemma RoundInStep(n: nat, t: Trace, b: nat, f: nat) returns (t': Trace)
    requires ValidSize(n) && IsGuarded(n, t) && Shaped(Now(t)) && Leading(Now(t), b, f)
    requires Now(t).servers[f].log == Now(t).servers[b].log
    ensures IsGuarded(n, t') && Shaped(Now(t')) && t.states <= t'.states && t.actions <= t'.actions
    ensures LedOn(Now(t), Now(t'), b, f) && InStep(Now(t'), b, f)
    ensures Now(t').servers[b] == Round(Now(t).servers[b], Now(t).servers[f], b, f).0
    ensures Now(t).servers[b].commitIndex < |Now(t).servers[b].log| ==>
              Now(t).servers[b].commitIndex <= Now(t').servers[f].commitIndex
  {
    hide IsGuardedRun, Round;
    var l, s := Now(t).servers[b], Now(t).servers[f];
    LeadingIsPaired(Now(t), b, f);
    t' := OneRound(n, t, b, f);
    RoundFacts(l, s, b, f);
    SteadyRound(l, s, b, f);
  }

  /** Catching up works inside a run. */
  lemma CatchUpOne(n: nat, t: Trace, b: nat, f: nat) returns (t': Trace)
    requires ValidSize(n) && IsGuarded(n, t) && Shaped(Now(t)) && Leading(Now(t), b, f)
    ensures IsGuarded(n, t') && Shaped(Now(t')) && t.states <= t'.states && t.actions <= t'.actions
    ensures LedOn(Now(t), Now(t'), b, f) && InStep(Now(t'), b, f)
  {
    hide Matching, IsGuardedRun, IsRun, Paired, InStep, Rounds;
    var l, s := Now(t).servers[b], Now(t).servers[f];
    LeadingIsPaired(Now(t), b, f);
    IsGuardedIsTrace(n, t);
    RunMatching(n, t, b, f);
    var k := CatchUp(l, s, b, f);
    var t1 := ManyRounds(n, t, b, f, k);
    RoundsLead(Now(t), Now(t1), b, f, k);
    t' := RoundInStep(n, t1, b, f);
    LedOnOn(Now(t), Now(t1), Now(t'), b, f);
  }

  lemma RoundsLead(c: Cluster, c': Cluster, b: nat, f: nat, k: nat)
    requires Shaped(c) && Leading(c, b, f) && Paired(c.servers[b], c.servers[f], b, f)
    requires var (l, s) := (c.servers[b], c.servers[f]);
             c'.servers == c.servers[b := Rounds(l, s, b, f, k).0][f := Rounds(l, s, b, f, k).1]
    ensures LedOn(c, c', b, f)
    ensures c'.servers[f] == Rounds(c.servers[b], c.servers[f], b, f, k).1
  {
    hide Rounds;
    RoundsFacts(c.servers[b], c.servers[f], b, f, k);
    assert ShapedServer(|c.servers|, c.servers[b]);
  }

  lemma LedOnOn(c: Cluster, c1: Cluster, c2: Cluster, b: nat, f: nat)
    requires LedOn(c, c1, b, f) && LedOn(c1, c2, b, f)
    ensures LedOn(c, c2, b, f)
  {
  }

  lemma StaysInStep(c: Cluster, c': Cluster, b: nat, f: nat, v: nat)
    requires LedOn(c, c', b, f) && InStep(c, b, v) && v != f
    ensures InStep(c', b, v)
  {
  }

  /** The leader still has its log and its term, and has not lost its office. */
  ghost predicate SameLeader(c: Cluster, c': Cluster, b: nat) {
    && |c'.servers| == |c.servers| && b < |c.servers|
    && c'.servers[b].phase.Leader? && c'.servers[b].log == c.servers[b].log
    && c'.servers[b].currentTerm == c.servers[b].currentTerm
  }

  lemma {:induction false} CatchUpAll(n: nat, t: Trace, b: nat, done: set<nat>, rest: set<nat>) returns (t': Trace)
    requires ValidSize(n) && IsGuarded(n, t) && Shaped(Now(t))
    requires b < |Now(t).servers| && Now(t).servers[b].phase.Leader?
    requires done !! rest && (forall v :: v in done ==> InStep(Now(t), b, v))
    requires forall v :: v in rest ==> Leading(Now(t), b, v)
    ensures IsGuarded(n, t') && Shaped(Now(t')) && t.states <= t'.states && t.actions <= t'.actions
    ensures SameLeader(Now(t), Now(t'), b) && forall v :: v in done + rest ==> InStep(Now(t'), b, v)
    decreases rest
  {
    hide IsGuardedRun, InStep, Shaped;
    if rest == {} {
      t' := t;
    } else {
      var f :| f in rest;
      var t1 := CatchUpOne(n, t, b, f);
      forall v | v in done
        ensures InStep(Now(t1), b, v)
      {
        StaysInStep(Now(t), Now(t1), b, f, v);
      }
      t' := CatchUpAll(n, t1, b, done + {f}, rest - {f});
      assert done + rest == (done + {f}) + (rest - {f});
    }
  }

  // ----- committing, spreading the word, applying

  lemma QuorumSupports(c: Cluster, b: nat, q: set<nat>, x: nat)
    requires b < |c.servers| && |c.servers[b].matchIndex| == |c.servers| && x < |c.servers[b].log|
    requires (forall v :: v in q ==> v < |c.servers|) && forall v :: v in q && v != b ==> InStep(c, b, v)
    ensures |Supporters(c.servers[b].matchIndex, b, x)| >= |q|
  {
    assert q <= Supporters(c.servers[b].matchIndex, b, x);
    SubsetSize(q, Supporters(c.servers[b].matchIndex, b, x));
  }

  /** The whole log is committed by the server. */
  predicate AllCommitted(s: Server) {
    s.commitIndex >= |s.log| - 1
  }

  /** Once a majority is in step, one more round commits the leader's whole log. */
  lemma CommitAll(n: nat, t: Trace, b: nat, q: set<nat>, f: nat) returns (t': Trace)
    requires ValidSize(n) && IsGuarded(n, t) && Shaped(Now(t)) && |Now(t).servers| == n
    requires b in q && f in q && f != b && (forall v :: v in q ==> v < n) && |q| >= ElectionQuorum(n)
    requires forall v :: v in q && v != b ==> InStep(Now(t), b, v)
    requires LastTerm(Now(t).servers[b].log) == Now(t).servers[b].currentTerm
    ensures IsGuarded(n, t') && Shaped(Now(t')) && t.states <= t'.states && t.actions <= t'.actions
    ensures SameLeader(Now(t), Now(t'), b) && AllCommitted(Now(t').servers[b])
    ensures forall v :: v in q && v != b ==> InStep(Now(t'), b, v)
  {
    hide IsGuardedRun, Round, Supporters;
    var l, s := Now(t).servers[b], Now(t).servers[f];
    LeadingIsPaired(Now(t), b, f);
    t' := RoundInStep(n, t, b, f);
    forall v | v in q && v != b
      ensures InStep(Now(t'), b, v)
    {
      if v != f {
        StaysInStep(Now(t), Now(t'), b, f, v);
      }
    }
    QuorumSupports(Now(t'), b, q, |l.log| - 1);
    RoundCommits(l, s, b, f);
  }

  /** A round leaves nothing uncommitted that a majority is known to hold. */
  lemma RoundCommits(l: Server, s: Server, b: nat, f: nat)
    requires Paired(l, s, b, f)
    ensures var l' := Round(l, s, b, f).0;
            && |l'.matchIndex| == |l.nextIndex|
            && forall k :: l'.commitIndex < k < |l.log| && l.log[k].term == l.currentTerm ==>
                 2 * |Supporters(l'.matchIndex, b, k)| <= |l.nextIndex|
  {
    hide CommitCandidate, ScanCommit, HandleAppend, NewNext, Supporters;
    var (s', reply) := HandleAppend(s, BuildAppendArgs(l, b, f));
    CollectCommits(SendBeat(l), b, OnlyReply(|l.nextIndex|, f, reply));
  }

  /** A server's commit index lies inside its log, and it has applied no more than that. */
  lemma CommitIsInside(n: nat, t: Trace, v: nat)
    requires ValidSize(n) && IsGuarded(n, t) && v < |Now(t).servers|
    ensures var s := Now(t).servers[v];
            && |s.output| == s.lastApplied <= s.commitIndex < |s.log|
            && forall x :: 0 <= x < |s.output| ==> s.output[x] == ApplyMsg(x + 1, s.log[x + 1].data)
  {
    hide IsGuardedRun;
    AppliesInOrder(n, t.states, t.actions, |t.states| - 1, v);
  }

  /** Server `v` has the leader's log and has committed all of it. */
  ghost predicate Informed(c: Cluster, b: nat, v: nat) {
    b < |c.servers| && v < |c.servers| && c.servers[v].log == c.servers[b].log && AllCommitted(c.servers[v])
  }

  lemma {:induction false} SpreadCommit(n: nat, t: Trace, b: nat, done: set<nat>, rest: set<nat>) returns (t': Trace)
    requires ValidSize(n) && IsGuarded(n, t) && Shaped(Now(t))
    requires b in done && b !in rest && b < |Now(t).servers| && Now(t).servers[b].phase.Leader?
    requires forall v :: v in done ==> Informed(Now(t), b, v)
    requires forall v :: v in rest ==> InStep(Now(t), b, v)
    ensures IsGuarded(n, t') && Shaped(Now(t')) && t.states <= t'.states && t.actions <= t'.actions
    ensures SameLeader(Now(t), Now(t'), b) && forall v :: v in done + rest ==> Informed(Now(t'), b, v)
    decreases rest
  {
    hide IsGuardedRun, Shaped, Round;
    if rest == {} {
      t' := t;
      assert done + rest == done;
    } else {
      var f :| f in rest;
      CommitIsInside(n, t, b);
      var t1 := RoundInStep(n, t, b, f);
      LeaderKeepsCommit(Now(t).servers[b], Now(t).servers[f], b, f) by { LeadingIsPaired(Now(t), b, f); }
      forall v | v in rest - {f}
        ensures InStep(Now(t1), b, v)
      {
        StaysInStep(Now(t), Now(t1), b, f, v);
      }
      t' := SpreadCommit(n, t1, b, done + {f}, rest - {f});
      assert done + rest == (done + {f}) + (rest - {f});
    }
  }

  lemma LeaderKeepsCommit(l: Server, s: Server, b: nat, f: nat)
    requires Paired(l, s, b, f)
    ensures l.commitIndex <= Round(l, s, b, f).0.commitIndex
  {
    hide CommitCandidate, ScanCommit, HandleAppend, NewNext, Supporters, BuildAppendArgs;
    var (s', reply) := HandleAppend(s, BuildAppendArgs(l, b, f));
    CollectCommits(SendBeat(l), b, OnlyReply(|l.nextIndex|, f, reply));
  }

  /** Server `v` has applied its whole log. */
  predicate AllApplied(s: Server, log: Log) {
    s.log == log && s.lastApplied >= |log| - 1
  }

  lemma {:induction false} ApplyAll(n: nat, t: Trace, log: Log, done: set<nat>, rest: set<nat>) returns (t': Trace)
    requires ValidSize(n) && IsGuarded(n, t) && Shaped(Now(t)) && done !! rest
    requires forall v :: v in done ==> v < |Now(t).servers| && AllApplied(Now(t).servers[v], log)
    requires forall v :: v in rest ==>
               v < |Now(t).servers| && Now(t).servers[v].log == log && AllCommitted(Now(t).servers[v])
    ensures IsGuarded(n, t') && t.states <= t'.states && t.actions <= t'.actions
    ensures forall v :: v in done + rest ==> v < |Now(t').servers| && AllApplied(Now(t').servers[v], log)
    decreases rest
  {
    hide IsGuardedRun, Shaped, Outputs;
    if rest == {} {
      t' := t;
      assert done + rest == done;
    } else {
      var v :| v in rest;
      CommitIsInside(n, t, v);
      ThenGuarded(n, t, Apply(v));
      var t1 := Then(t, Apply(v));
      t' := ApplyAll(n, t1, log, done + {v}, rest - {v});
      assert done + rest == (done + {v}) + (rest - {v});
    }
  }

  // ----- the theorem

  /** The server has just applied this command, and nothing after it. */
  predicate JustApplied(s: Server, command: Command) {
    s.output != [] && s.output[|s.output| - 1] == ApplyMsg(|s.output|, Submitted(command))
  }

  /** A quorum elects a leader, which takes a new command. */
  lemma ElectAndStart(n: nat, t: Trace, q: set<nat>, command: Command) returns (t': Trace, b: nat)
    requires ValidSize(n) && IsGuarded(n, t) && Shaped(Now(t)) && |Now(t).servers| == n
    requires (forall v :: v in q ==> v < n) && |q| >= ElectionQuorum(n)
    ensures IsGuarded(n, t') && Shaped(Now(t')) && t.states <= t'.states && t.actions <= t'.actions
    ensures |Now(t').servers| == n && b in q && Now(t').servers[b].phase.Leader?
    ensures var s := Now(t').servers[b];
            |s.log| > 1 && s.log[|s.log| - 1] == LogEntry(s.currentTerm, Submitted(command))
    ensures forall v :: v in q && v != b ==> Leading(Now(t'), b, v)
  {
    hide IsGuardedRun, Shaped, IsRun;
    IsGuardedIsTrace(n, t);
    b := SomeEndsLast(Now(t), q);
    var t1 := Elect(n, t, q, b);
    ContinuesGuarded(n, t, t1);
    ThenGuarded(n, t1, Start(b, command));
    t' := Then(t1, Start(b, command));
  }

  lemma IsGuardedIsTrace(n: nat, t: Trace)
    requires IsGuarded(n, t)
    ensures IsTrace(n, t)
  {
  }

  /** The leader brings a quorum up to date, commits, and lets it know. */
  lemma Replicate(n: nat, t: Trace, b: nat, q: set<nat>) returns (t': Trace)
    requires ValidSize(n) && IsGuarded(n, t) && Shaped(Now(t)) && |Now(t).servers| == n
    requires (forall v :: v in q ==> v < n) && |q| >= ElectionQuorum(n) && |q| >= 2
    requires b in q && Now(t).servers[b].phase.Leader? && forall v :: v in q && v != b ==> Leading(Now(t), b, v)
    requires LastTerm(Now(t).servers[b].log) == Now(t).servers[b].currentTerm
    ensures IsGuarded(n, t') && Shaped(Now(t')) && t.states <= t'.states && t.actions <= t'.actions
    ensures SameLeader(Now(t), Now(t'), b) && forall v :: v in q ==> Informed(Now(t'), b, v)
  {
    hide IsGuardedRun, Shaped, InStep, Leading;
    var t1 := CatchUpAll(n, t, b, {}, q - {b});
    var f := Another(q, b);
    var t2 := CommitAll(n, t1, b, q, f);
    t' := SpreadCommit(n, t2, b, {b}, q - {b});
    assert q == {b} + (q - {b});
  }

  /**
   Progress is always possible: every guarded run of an odd number of servers,
   at least three, can be continued, guarded, to a state in which every member
   of a given majority has applied a given new command.
   */
  lemma ProgressIsPossible(n: nat, states: seq<Cluster>, actions: seq<Action>, q: set<nat>, command: Command)
    returns (t: Trace)
    requires ValidSize(n) && n >= 3 && IsGuardedRun(n, states, actions)
    requires (forall v :: v in q ==> v < n) && 2 * |q| > n
    ensures IsGuardedRun(n, t.states, t.actions) && states <= t.states && actions <= t.actions
    ensures forall v :: v in q ==> v < |Now(t).servers| && JustApplied(Now(t).servers[v], command)
  {
    hide IsGuardedRun, Shaped, Leading;
    var t0 := Trace(states, actions);
    RunStart(n, states, actions);
    var t1, b := ElectAndStart(n, t0, q, command);
    var t2 := Replicate(n, t1, b, q);
    t := ApplyAll(n, t2, Now(t2).servers[b].log, {}, q);
    assert {} + q == q;
    forall v | v in q
      ensures v < |Now(t).servers| && JustApplied(Now(t).servers[v], command)
    {
      CommitIsInside(n, t, v);
    }
  }

  lemma RunStart(n: nat, states: seq<Cluster>, actions: seq<Action>)
    requires IsGuardedRun(n, states, actions)
    ensures |states| == |actions| + 1 && |states[|actions|].servers| == n && Shaped(states[|actions|])
  {
    RunSize(n, states, actions, |actions|);
    RunShaped(n, states, actions);
  }

  lemma Another(q: set<nat>, b: nat) returns (f: nat)
    requires b in q && |q| >= 2
    ensures f in q && f != b
  {
    assert |q - {b}| == |q| - 1;
    f :| f in q - {b};
  }
}
