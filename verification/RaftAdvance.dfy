/**
 How far each step gets, in terms of the states of a run before and after it:
 what a follower learns from a message, what a leader commits and what it
 sends next, what a stale sender learns, and what never falls back.
 */
module RaftAdvance {
  import opened Collections
  import opened RaftServer
  import opened RaftCluster
  import opened RaftHistory
  import opened RaftCommit
  import opened RaftQuorum
  import opened RaftReplication
  import opened RaftRuns

  // ----- one server between two restarts

  /** What one instance of a server never takes back. */
  predicate Onward(s: Server, s': Server) {
    && s.currentTerm <= s'.currentTerm
    && s.commitIndex <= s'.commitIndex
    && s.lastApplied <= s'.lastApplied
    && s.output <= s'.output
  }

  lemma SupportersShrink(matchIndex: seq<nat>, me: nat, v: nat, w: nat)
    requires me < |matchIndex| && v <= w
    ensures Supporters(matchIndex, me, w) <= Supporters(matchIndex, me, v)
  {
  }

  lemma CollectCommits(s: Server, me: nat, replies: seq<AppendReply>)
    requires |replies| == |s.nextIndex| == |s.matchIndex| && me < |replies| && |replies| >= 2
    ensures var s' := CollectBeat(s, me, replies);
            && s.commitIndex <= s'.commitIndex
            && (s'.commitIndex != s.commitIndex ==>
                  && s'.commitIndex < |s.log| && s.log[s'.commitIndex].term == s.currentTerm
                  && 2 * |Supporters(s'.matchIndex, me, s'.commitIndex)| > |replies|)
            && (forall k :: s'.commitIndex < k < |s.log| && s.log[k].term == s.currentTerm ==>
                  2 * |Supporters(s'.matchIndex, me, k)| <= |replies|)
  {
    hide CommitCandidate, ScanCommit, NewNext, Supporters;
    var s' := CollectBeat(s, me, replies);
    var v := CommitCandidate(s'.matchIndex, me);
    ScanCommitIsGreatest(s.log, s.currentTerm, Min(v, |s.log| - 1), s.commitIndex);
    CommitCandidateIsGreatest(s'.matchIndex, me);
    if s'.commitIndex != s.commitIndex {
      SupportersShrink(s'.matchIndex, me, s'.commitIndex, v);
      SubsetSize(Supporters(s'.matchIndex, me, v), Supporters(s'.matchIndex, me, s'.commitIndex));
    }
  }

  lemma CollectOnward(s: Server, me: nat, replies: seq<AppendReply>)
    requires |replies| == |s.nextIndex| == |s.matchIndex| && me < |replies| && |replies| >= 2
    ensures Onward(s, CollectBeat(s, me, replies))
  {
    hide CommitCandidate, ScanCommit, NewNext, Supporters;
    CollectCommits(s, me, replies);
  }

  lemma StepOnward(c: Cluster, a: Action, f: nat)
    requires Shaped(c) && Enabled(c, a) && f < |c.servers| && a != Restart(f)
    ensures Onward(c.servers[f], Effect(c, a).servers[f])
  {
    hide CollectBeat, ConflictIndex, Outputs;
    if a.Collect? {
      CollectOnward(c.servers[a.i], a.i, a.replies);
    }
  }

  lemma {:induction false} RunSize(n: nat, states: seq<Cluster>, actions: seq<Action>, k: nat)
    requires IsRun(n, states, actions) && k < |states|
    ensures |states[k].servers| == n
  {
    if k > 0 {
      RunSize(n, states, actions, k - 1);
      assert IsStep(states[k - 1], actions[k - 1], states[k]);
    }
  }

  /** Between two restarts a server's term, commit index and applied commands only grow. */
  lemma {:induction false} NeverFallsBack(n: nat, states: seq<Cluster>, actions: seq<Action>, j: nat, k: nat, f: nat)
    requires IsRun(n, states, actions) && j <= k < |states| && f < n
    requires forall x :: j <= x < k ==> actions[x] != Restart(f)
    ensures |states[j].servers| == |states[k].servers| == n
    ensures Onward(states[j].servers[f], states[k].servers[f])
    decreases k
  {
    hide Effect, Enabled, Shaped, Init;
    RunSize(n, states, actions, j);
    RunSize(n, states, actions, k);
    if j < k {
      NeverFallsBack(n, states, actions, j, k - 1, f);
      assert IsStep(states[k - 1], actions[k - 1], states[k]);
      StepOnward(states[k - 1], actions[k - 1], f);
    }
  }

  // ----- what a follower learns

  /** An accepted message moves the commit index up to the leader's, as far as the log reaches, and no further. */
  lemma FollowerCommits(n: nat, states: seq<Cluster>, actions: seq<Action>, k: nat)
    requires IsRun(n, states, actions) && k < |actions| && Accepting(states[k], actions[k])
    ensures |states[k].servers| == |states[k + 1].servers| && actions[k].i < |states[k].servers|
    ensures var (s, s', m) := (states[k].servers[actions[k].i], states[k + 1].servers[actions[k].i], actions[k].m);
            && s.commitIndex <= s'.commitIndex
            && (m.append.leaderCommit < SentLength(m) ==> m.append.leaderCommit <= s'.commitIndex)
            && (s'.commitIndex != s.commitIndex ==>
                  s'.commitIndex <= m.append.leaderCommit && s'.commitIndex < |s'.log|)
            && |s'.log| == SentLength(m)
  {
    hide Shaped, Init;
    assert IsStep(states[k], actions[k], states[k + 1]);
  }

  /** The message that a heartbeat at step `j` sent. */
  ghost predicate SentAt(states: seq<Cluster>, actions: seq<Action>, j: nat, i: nat, m: Message)
    requires j < |actions| < |states|
  {
    actions[j] == Heartbeat(i) && m.Append? && m in states[j + 1].net && m !in states[j].net
  }

  lemma SentIsBuilt(n: nat, states: seq<Cluster>, actions: seq<Action>, j: nat, i: nat, m: Message)
    requires IsRun(n, states, actions) && j < |actions| && SentAt(states, actions, j, i, m)
    ensures i < |states[j].servers| && m.to < |states[j].servers| == |states[j + 1].servers|
    ensures var s := states[j].servers[i];
            && s.phase.Leader? && |s.nextIndex| == |states[j].servers| && s.nextIndex[m.to] >= 1
            && m == Append(m.to, s.beat + 1, BuildAppendArgs(s, i, m.to))
            && states[j + 1].servers == states[j].servers[i := SendBeat(s)]
  {
    hide BuildAppendArgs, SendBeat, Init;
    assert IsStep(states[j], actions[j], states[j + 1]);
    assert m in Beats(states[j], i);
  }

  lemma CommitInMessage(s: Server, i: nat, p: nat)
    requires p < |s.nextIndex| && s.nextIndex[p] >= 1
    ensures BuildAppendArgs(s, i, p).leaderCommit == s.commitIndex
  {
  }

  /** In a guarded run a follower that accepts a heartbeat has committed all the leader had when it sent it. */
  lemma CommitPropagates(n: nat, states: seq<Cluster>, actions: seq<Action>, j: nat, i: nat, k: nat)
    requires ValidSize(n) && IsGuardedRun(n, states, actions) && j < k < |actions|
    requires Accepting(states[k], actions[k]) && SentAt(states, actions, j, i, actions[k].m)
    ensures i < |states[j].servers| && actions[k].i < |states[k + 1].servers|
    ensures states[j].servers[i].commitIndex <= states[k + 1].servers[actions[k].i].commitIndex
  {
    hide Base, Safe, Accepting, BuildAppendArgs, SendBeat, SentAt;
    var hs := GuardedHistories(n, states, actions);
    AcceptingIsDelivery(states[k], actions[k]);
    var m := actions[k].m;
    SentIsBuilt(n, states, actions, j, i, m);
    CommitInMessage(states[j].servers[i], i, m.to);
    FollowerCommits(n, states, actions, k);
    assert IsRecord(states[k], hs[k], actions[k], hs[k + 1]);
    CommitInside(n, states[k], hs[k], actions[k]);
  }

  lemma CommitInside(n: nat, c: Cluster, h: History, a: Action)
    requires Base(n, c, h) && Safe(n, c, h) && Enabled(c, a) && a.DeliverAppend?
    ensures a.m.append.leaderCommit < SentLength(a.m)
  {
    DeliveredIsOK(n, c, h, a);
    assert AppendCommitted(n, h, a.m);
  }

  // ----- what a leader commits and sends

  /**
   Using replies commits an entry of the current term that a strict majority
   is known to hold, and leaves none above it: it is the highest there is.
   */
  lemma LeaderCommitsHighest(n: nat, states: seq<Cluster>, actions: seq<Action>, k: nat, i: nat)
    requires IsRun(n, states, actions) && k < |actions| && actions[k].Collect? && actions[k].i == i
    ensures i < |states[k].servers| == |states[k + 1].servers| == n
    ensures var (s, s') := (states[k].servers[i], states[k + 1].servers[i]);
            && s'.log == s.log && s'.currentTerm == s.currentTerm && |s'.matchIndex| == n
            && s.commitIndex <= s'.commitIndex
            && (s'.commitIndex != s.commitIndex ==>
                  && s'.commitIndex < |s.log| && s.log[s'.commitIndex].term == s.currentTerm
                  && 2 * |Supporters(s'.matchIndex, i, s'.commitIndex)| > n)
            && (forall x :: s'.commitIndex < x < |s.log| && s.log[x].term == s.currentTerm ==>
                  2 * |Supporters(s'.matchIndex, i, x)| <= n)
  {
    hide CommitCandidate, ScanCommit, NewNext, Supporters, Init;
    RunSize(n, states, actions, k);
    assert IsStep(states[k], actions[k], states[k + 1]);
    CollectCommits(states[k].servers[i], i, actions[k].replies);
  }

  /** What one success teaches the leader: the follower's last index, and where to go on. */
  lemma SuccessIsUsed(n: nat, states: seq<Cluster>, actions: seq<Action>, k: nat, p: nat)
    requires IsRun(n, states, actions) && k < |actions| && actions[k].Collect?
    requires p < n && p != actions[k].i && p < |actions[k].replies| && actions[k].replies[p].success
    ensures actions[k].i < |states[k].servers| == |states[k + 1].servers| == n
    ensures var (s, s') := (states[k].servers[actions[k].i], states[k + 1].servers[actions[k].i]);
            && |s'.matchIndex| == |s'.nextIndex| == n
            && s'.matchIndex[p] == s.beatLast && s'.nextIndex[p] == s.beatLast + 1
  {
    hide CommitCandidate, ScanCommit, Init;
    RunSize(n, states, actions, k);
    assert IsStep(states[k], actions[k], states[k + 1]);
  }

  lemma AnsweredBeat(n: nat, c: Cluster, h: History, i: nat, replies: seq<AppendReply>, p: nat)
    requires Base(n, c, h) && Enabled(c, Collect(i, replies)) && p < |replies| && replies[p].success
    ensures c.servers[i].beatLast < |c.servers[i].log|
  {
    hide HistoryOK, GoodLog, VotingOK;
    var s := c.servers[i];
    assert ServerOK(n, h, i, s);
    assert ReplyOfRound(c, i, p, replies[p]);
    assert MessageOK(n, h, AppendAnswer(s.currentTerm, i, p, s.beat, replies[p]));
    KnownBeat(n, h, s.currentTerm, s.beat);
  }

  lemma KnownBeat(n: nat, h: History, t: nat, b: nat)
    requires HistoryOK(n, h) && (t, b) in h.beats
    ensures BeatOK(h, t, b)
  {
  }

  /** The heartbeat after a success carries just the entries that the one before it did not. */
  lemma SendsOnlyNew(n: nat, states: seq<Cluster>, actions: seq<Action>, k: nat, m: Message)
    requires ValidSize(n) && IsRun(n, states, actions) && k + 1 < |actions| && actions[k].Collect?
    requires SentAt(states, actions, k + 1, actions[k].i, m)
    requires m.to < |actions[k].replies| && m.to != actions[k].i && actions[k].replies[m.to].success
    ensures actions[k].i < |states[k].servers|
    ensures var s := states[k].servers[actions[k].i];
            && s.beatLast < |s.log|
            && m.append.prevLogIndex == s.beatLast && m.append.entries == s.log[s.beatLast + 1..]
  {
    hide CommitCandidate, ScanCommit, Init, NewNext, NewMatch, Base, Extends, IsRecord;
    RunSize(n, states, actions, k + 1);
    var hs := Histories(n, states, actions);
    assert IsStep(states[k], actions[k], states[k + 1]);
    AnsweredBeat(n, states[k], hs[k], actions[k].i, actions[k].replies, m.to);
    SentIsBuilt(n, states, actions, k + 1, actions[k].i, m);
    SuccessIsUsed(n, states, actions, k, m.to);
  }

  /** A new leader starts by asking every peer about the very end of its own log. */
  lemma FirstHeartbeatProbes(n: nat, states: seq<Cluster>, actions: seq<Action>, k: nat, m: Message)
    requires IsRun(n, states, actions) && k + 1 < |actions| && actions[k].Elected?
    requires SentAt(states, actions, k + 1, actions[k].i, m)
    ensures actions[k].i < |states[k].servers|
    ensures var log := states[k].servers[actions[k].i].log;
            m.append.prevLogIndex == |log| - 1 && m.append.prevLogTerm == LastTerm(log) && m.append.entries == []
  {
    hide Init;
    SentIsBuilt(n, states, actions, k + 1, actions[k].i, m);
    assert IsStep(states[k], actions[k], states[k + 1]);
  }

  // ----- what a stale sender learns

  /** The answer to a request of an old term makes its sender step down, if it is still in that term. */
  lemma StaleLeaderStepsDown(n: nat, states: seq<Cluster>, actions: seq<Action>, j: nat, k: nat, answer: Message)
    requires IsRun(n, states, actions) && j < k < |actions|
    requires actions[j].DeliverAppend? && actions[j].m.Append? && actions[j].i < |states[j].servers|
    requires actions[j].m.append.term < states[j].servers[actions[j].i].currentTerm
    requires answer in states[j + 1].net && answer !in states[j].net
    requires actions[k].AppendReturns? && actions[k].m == answer
    ensures actions[k].i == actions[j].m.append.leader && actions[k].i < |states[k].servers| == |states[k + 1].servers|
    ensures var (s, s') := (states[k].servers[actions[k].i], states[k + 1].servers[actions[k].i]);
            && s'.currentTerm >= states[j].servers[actions[j].i].currentTerm
            && (s.currentTerm == actions[j].m.append.term ==> s'.phase.Follower? || s'.phase.Exit?)
            && answer.appendReply == AppendReply(states[j].servers[actions[j].i].currentTerm, false, 0)
  {
    hide Init;
    assert IsStep(states[j], actions[j], states[j + 1]);
    assert IsStep(states[k], actions[k], states[k + 1]);
  }

  lemma StaleCandidateStepsDown(n: nat, states: seq<Cluster>, actions: seq<Action>, j: nat, k: nat, answer: Message)
    requires IsRun(n, states, actions) && j < k < |actions|
    requires actions[j].DeliverVote? && actions[j].m.VoteRequest? && actions[j].i < |states[j].servers|
    requires actions[j].m.vote.term < states[j].servers[actions[j].i].currentTerm
    requires answer in states[j + 1].net && answer !in states[j].net
    requires actions[k].VoteReturns? && actions[k].m == answer
    ensures actions[k].i == actions[j].m.vote.candidate && actions[k].i < |states[k].servers| == |states[k + 1].servers|
    ensures var (s, s') := (states[k].servers[actions[k].i], states[k + 1].servers[actions[k].i]);
            && s'.currentTerm >= states[j].servers[actions[j].i].currentTerm
            && (s.currentTerm == actions[j].m.vote.term ==> s'.phase.Follower? || s'.phase.Exit?)
            && answer.voteReply == VoteReply(states[j].servers[actions[j].i].currentTerm, false)
  {
    hide Init;
    assert IsStep(states[j], actions[j], states[j + 1]);
    assert IsStep(states[k], actions[k], states[k + 1]);
  }

  // ----- applying

  /** Applying catches up with the commit index at once. */
  lemma AppliesAll(n: nat, states: seq<Cluster>, actions: seq<Action>, k: nat, i: nat)
    requires ValidSize(n) && IsGuardedRun(n, states, actions) && k < |actions| && actions[k] == Apply(i)
    ensures i < |states[k + 1].servers|
    ensures var s' := states[k + 1].servers[i]; |s'.output| == s'.lastApplied == s'.commitIndex
  {
    hide Base, IsRecord;
    var hs := GuardedHistories(n, states, actions);
    assert IsStep(states[k], actions[k], states[k + 1]);
    assert ServerSafe(n, hs[k], i, states[k].servers[i]);
  }
}
