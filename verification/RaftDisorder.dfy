/**
 Why state machine safety needs assumption A4: a run of three servers, legal
 but for one heartbeat that arrives after its successor, in which two servers
 apply different commands at index 1.
 */
module RaftDisorder {
  import opened RaftServer
  import opened RaftCluster
  import opened RaftTrace

  const EMPTY: Log := [SENTINEL]

  /** A follower with nothing in its log but the sentinel. */
  ghost predicate Plain(s: Server) {
    s.log == EMPTY && s.phase.Follower? && s.commitIndex == 0 && s.lastApplied == 0 && s.output == []
  }

  /** A leader of three that has just been elected, apart from its heartbeats. */
  ghost predicate Fresh(s: Server, me: nat) {
    && s.phase.Leader? && s.log == EMPTY && s.votedFor == me
    && s.commitIndex == 0 && s.lastApplied == 0 && s.output == []
    && s.nextIndex == [1, 1, 1] && s.matchIndex == [0, 0, 0]
  }

  function NewLeader(s: Server, me: nat): Server {
    InitLeader(CallElection(s, me), 3)
  }

  function NewVoter(s: Server, term: nat, leader: nat): Server {
    Persist(TermSync(s, term).(votedFor := leader))
  }

  lemma LeaderIsFresh(s: Server, me: nat)
    requires Plain(s)
    ensures Fresh(NewLeader(s, me), me)
    ensures NewLeader(s, me).currentTerm == s.currentTerm + 1 && NewLeader(s, me).beat == 0
  {
    assert seq(3, _ => 1) == [1, 1, 1] && seq(3, _ => 0) == [0, 0, 0];
  }

  lemma VoteGoesToLeader(s: Server, v: Server, me: nat)
    requires Plain(s) && Plain(v) && v.currentTerm <= s.currentTerm
    ensures var args := BuildVoteArgs(CallElection(s, me), me);
            && args.candidate == me
            && args.term == s.currentTerm + 1
            && HandleVote(v, args) == (NewVoter(v, s.currentTerm + 1, me), VoteReply(v.currentTerm, true))
  {
  }

  /** Server `i` wins the next term with the vote of server `v`. */
  lemma Election(t: Trace, i: nat, v: nat) returns (t': Trace)
    requires IsTrace(3, t) && Shaped(Now(t)) && |Now(t).servers| == 3 && i < 3 && v < 3 && i != v
    requires Plain(Now(t).servers[i]) && Plain(Now(t).servers[v])
    requires Now(t).servers[v].currentTerm <= Now(t).servers[i].currentTerm
    ensures IsTrace(3, t') && Shaped(Now(t')) && t.states <= t'.states
    ensures var (s, w) := (Now(t).servers[i], Now(t).servers[v]);
            Now(t').servers == Now(t).servers[i := NewLeader(s, i)][v := NewVoter(w, s.currentTerm + 1, i)]
  {
    hide CallElection, BuildVoteArgs, HandleVote, InitLeader, IsRun, NewVoter;
    var s, w := Now(t).servers[i], Now(t).servers[v];
    ThenIsTrace(3, t, Timeout(i));
    var t1 := Then(t, Timeout(i));
    var args := BuildVoteArgs(CallElection(s, i), i);
    VoteGoesToLeader(s, w, i);
    ThenIsTrace(3, t1, DeliverVote(v, VoteRequest(args)));
    var t2 := Then(t1, DeliverVote(v, VoteRequest(args)));
    var answer := VoteAnswer(s.currentTerm + 1, i, v, VoteReply(w.currentTerm, true));
    assert answer in Now(t2).net;
    CallsFor(s, i);
    assert HasVote(Now(t2), i, v);
    ThenIsTrace(3, t2, Elected(i, {i, v}));
    t' := Then(t2, Elected(i, {i, v}));
  }

  lemma CallsFor(s: Server, me: nat)
    ensures CallElection(s, me).currentTerm == s.currentTerm + 1 && CallElection(s, me).phase.Candidate?
  {
  }

  // ----- replication

  function Entry(term: nat, command: Command): LogEntry {
    LogEntry(term, Submitted(command))
  }

  function WithEntry(f: Server, term: nat, command: Command): Server {
    Persist(TermSync(f, term).(log := EMPTY + [Entry(term, command)]))
  }

  function Sent(s: Server, me: nat, command: Command): AppendArgs {
    AppendArgs(s.currentTerm, me, 0, 0, [Entry(s.currentTerm, command)], 0)
  }

  lemma Message(s: Server, me: nat, peer: nat, command: Command)
    requires Fresh(s, me) && peer < 3
    ensures BuildAppendArgs(Submit(s, command), me, peer) == Sent(s, me, command)
  {
    var log := Submit(s, command).log;
    assert log[1..] == [Entry(s.currentTerm, command)];
  }

  lemma Accepted(s: Server, f: Server, me: nat, command: Command)
    requires Fresh(s, me) && f.log == EMPTY && f.commitIndex == 0 && f.currentTerm <= s.currentTerm
    ensures HandleAppend(f, Sent(s, me, command))
         == (WithEntry(f, s.currentTerm, command), AppendReply(f.currentTerm, true, 0))
  {
    assert MergeLog(EMPTY, 0, [Entry(s.currentTerm, command)]) == EMPTY + [Entry(s.currentTerm, command)];
  }

  function OneReply(peer: nat, reply: AppendReply): seq<AppendReply> {
    seq(3, p => if p == peer then reply else NO_REPLY)
  }

  lemma MajorityOfThree(m: seq<nat>, me: nat, peer: nat)
    requires |m| == 3 && me < 3 && peer < 3 && me != peer && m == [0, 0, 0][peer := 1]
    ensures CommitCandidate(m, me) == 1
  {
    assert m[me := 0] == m;
    assert [0, 0][1..] == [0] && [0][1..] == [] && [0, 1][1..] == [1] && [1, 0][1..] == [0];
    assert m[1..] == [m[1], m[2]] && m[1..][1..] == [m[2]];
    assert Insert(1, [0]) == [0, 1] && Insert(1, [0, 0]) == [0] + Insert(1, [0]);
    assert Sort([m[2]]) == [m[2]];
    assert Sort([m[1], m[2]]) == Insert(m[1], [m[2]]);
    assert Sort(m) == [0, 0, 1];
  }

  lemma Collected(s: Server, me: nat, peer: nat, command: Command, reply: AppendReply)
    requires Fresh(s, me) && me < 3 && peer < 3 && me != peer && reply.success
    ensures var s1 := SendBeat(Submit(s, command));
            var s2 := CollectBeat(s1, me, OneReply(peer, reply));
            && s2.commitIndex == 1
            && s2.log == EMPTY + [Entry(s.currentTerm, command)]
            && s2.output == [] && s2.lastApplied == 0
            && ApplyEntries(s2).output == [ApplyMsg(1, Submitted(command))]
  {
    var s1 := SendBeat(Submit(s, command));
    var replies := OneReply(peer, reply);
    assert NewMatch(s1, me, replies) == [0, 0, 0][peer := 1];
    MajorityOfThree(NewMatch(s1, me, replies), me, peer);
    var s2 := CollectBeat(s1, me, replies);
    assert Outputs(s2.log, 0, 1) == [ApplyMsg(1, Submitted(command))];
  }

  /** Leader `i` submits a command and sends it to everyone. */
  lemma Submission(t: Trace, i: nat, f: nat, command: Command) returns (t': Trace)
    requires IsTrace(3, t) && Shaped(Now(t)) && |Now(t).servers| == 3 && i < 3 && f < 3 && i != f
    requires Fresh(Now(t).servers[i], i)
    ensures IsTrace(3, t') && Shaped(Now(t')) && t.states <= t'.states && Now(t).net <= Now(t').net
    ensures var s := Now(t).servers[i];
            && Now(t').servers == Now(t).servers[i := SendBeat(Submit(s, command))]
            && Append(f, s.beat + 1, Sent(s, i, command)) in Now(t').net
  {
    hide Submit, SendBeat, BuildAppendArgs, IsRun;
    var s := Now(t).servers[i];
    ThenIsTrace(3, t, Start(i, command));
    var t1 := Then(t, Start(i, command));
    Message(s, i, f, command);
    StillLeads(s, command);
    ThenIsTrace(3, t1, Heartbeat(i));
    t' := Then(t1, Heartbeat(i));
    assert Append(f, s.beat + 1, BuildAppendArgs(Submit(s, command), i, f)) in Beats(Now(t1), i);
  }

  lemma StillLeads(s: Server, command: Command)
    ensures Submit(s, command).phase == s.phase && Submit(s, command).beat == s.beat
    ensures SendBeat(Submit(s, command)).phase == s.phase && SendBeat(Submit(s, command)).beat == s.beat + 1
    ensures SendBeat(Submit(s, command)).currentTerm == s.currentTerm
  {
  }

  /** One accepting follower is enough for leader `i` to commit and apply. */
  lemma Replication(t: Trace, i: nat, f: nat, command: Command) returns (t': Trace)
    requires IsTrace(3, t) && Shaped(Now(t)) && |Now(t).servers| == 3 && i < 3 && f < 3 && i != f
    requires Fresh(Now(t).servers[i], i) && Now(t).servers[f].log == EMPTY && Now(t).servers[f].commitIndex == 0
    requires Now(t).servers[f].currentTerm <= Now(t).servers[i].currentTerm
    ensures IsTrace(3, t') && Shaped(Now(t')) && t.states <= t'.states && Now(t).net <= Now(t').net
    ensures |Now(t').servers| == 3 && Now(t').servers[i].output == [ApplyMsg(1, Submitted(command))]
    ensures Now(t').servers[f] == WithEntry(Now(t).servers[f], Now(t).servers[i].currentTerm, command)
    ensures forall j :: 0 <= j < 3 && j != i && j != f ==> Now(t').servers[j] == Now(t).servers[j]
  {
    hide Submit, SendBeat, HandleAppend, CollectBeat, ApplyEntries, IsRun, WithEntry;
    var s, w := Now(t).servers[i], Now(t).servers[f];
    var t1 := Submission(t, i, f, command);
    var m := Append(f, s.beat + 1, Sent(s, i, command));
    Accepted(s, w, i, command);
    ThenIsTrace(3, t1, DeliverAppend(f, m));
    var t2 := Then(t1, DeliverAppend(f, m));
    var reply := AppendReply(w.currentTerm, true, 0);
    StillLeads(s, command);
    assert AppendAnswer(s.currentTerm, i, f, s.beat + 1, reply) in Now(t2).net;
    Collected(s, i, f, command, reply);
    ThenIsTrace(3, t2, Collect(i, OneReply(f, reply)));
    var t3 := Then(t2, Collect(i, OneReply(f, reply)));
    ThenIsTrace(3, t3, Apply(i));
    t' := Then(t3, Apply(i));
  }

  /** A heartbeat without entries, sent before anything was submitted. */
  function EmptyBeat(term: nat, me: nat): AppendArgs {
    AppendArgs(term, me, 0, 0, [], 0)
  }

  lemma FirstBeat(s: Server, me: nat, peer: nat)
    requires Fresh(s, me) && peer < 3
    ensures BuildAppendArgs(s, me, peer) == EmptyBeat(s.currentTerm, me) && Fresh(SendBeat(s), me)
  {
  }

  /** That heartbeat, arriving late, removes the entry from the follower's log. */
  lemma LateBeat(f: Server, term: nat, me: nat, command: Command)
    requires Plain(f) && f.currentTerm == term
    ensures var f' := HandleAppend(WithEntry(f, term, command), EmptyBeat(term, me)).0;
            Plain(f') && f'.currentTerm == term
  {
    assert MergeLog(EMPTY + [Entry(term, command)], 0, []) == EMPTY;
  }

  lemma VoterIsPlain(f: Server, term: nat, leader: nat)
    requires Plain(f) && f.currentTerm < term
    ensures Plain(NewVoter(f, term, leader)) && NewVoter(f, term, leader).currentTerm == term
  {
  }

  /** Term 1: server 0 leads, sends a heartbeat, then commits `command` with server 1 and applies it. */
  lemma FirstTerm(command: Command) returns (t: Trace)
    ensures IsTrace(3, t) && Shaped(Now(t)) && |Now(t).servers| == 3
    ensures Now(t).servers[0].output == [ApplyMsg(1, Submitted(command))]
    ensures exists f :: Plain(f) && f.currentTerm == 1 && Now(t).servers[1] == WithEntry(f, 1, command)
    ensures Plain(Now(t).servers[2]) && Now(t).servers[2].currentTerm == 0
    ensures Append(1, 1, EmptyBeat(1, 0)) in Now(t).net
  {
    hide Fresh, WithEntry, NewLeader, NewVoter, SendBeat, BuildAppendArgs;
    var t0 := Trace([Init(3)], []);
    var t1 := Election(t0, 0, 1);
    LeaderIsFresh(Boot(Blank), 0);
    VoterIsPlain(Boot(Blank), 1, 0);
    var s := Now(t1).servers[0];
    LeadsAt(s, 0);
    ThenIsTrace(3, t1, Heartbeat(0));
    var t2 := Then(t1, Heartbeat(0));
    FirstBeat(s, 0, 1);
    assert Append(1, s.beat + 1, BuildAppendArgs(s, 0, 1)) in Beats(Now(t1), 0);
    t := Replication(t2, 0, 1, command);
  }

  lemma LeadsAt(s: Server, me: nat)
    requires Fresh(s, me)
    ensures s.phase.Leader? && |s.nextIndex| == 3 && s.nextIndex[1] >= 1
    ensures SendBeat(s).currentTerm == s.currentTerm
  {
  }

  /**
   Without A4 two servers can apply different commands at one index. Nothing
   is lost, repeated or restarted in this run.
   */
  lemma OrderMatters(first: Command, second: Command) returns (t: Trace)
    ensures IsRun(3, t.states, t.actions)
    ensures var c := t.states[|t.actions|];
            && |c.servers| == 3
            && c.servers[0].output == [ApplyMsg(1, Submitted(first))]
            && c.servers[1].output == [ApplyMsg(1, Submitted(second))]
  {
    hide WithEntry, HandleAppend, NewVoter, NewLeader, Fresh;
    var t1 := FirstTerm(first);
    var f :| Plain(f) && f.currentTerm == 1 && Now(t1).servers[1] == WithEntry(f, 1, first);
    var m := Append(1, 1, EmptyBeat(1, 0));
    ThenIsTrace(3, t1, DeliverAppend(1, m));
    var t2 := Then(t1, DeliverAppend(1, m));
    LateBeat(f, 1, 0, first);
    var t3 := Election(t2, 1, 2);
    LeaderIsFresh(Now(t2).servers[1], 1);
    VoterIsPlain(Now(t2).servers[2], 2, 1);
    t := Replication(t3, 1, 2, second);
  }
}
