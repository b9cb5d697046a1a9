/**
 The safety theorems of Raft, over whole runs of `RaftCluster` with losses,
 repetitions, crashes and restarts. `IsRun` allows any delivery order;
 `IsGuardedRun` is what commitment needs, and follows from assumption A4.
 */
module RaftTheorems {
  import opened RaftServer
  import opened RaftCluster
  import opened RaftHistory
  import opened RaftBase
  import opened RaftCommit
  import opened RaftSafe
  import opened RaftRuns
  import opened RaftGuard

  // ----- in every run

  /** Election Safety: in a whole run, at most one server is ever leader in any term. */
  lemma ElectionSafety(n: nat, states: seq<Cluster>, actions: seq<Action>, j: nat, k: nat, a: nat, b: nat)
    requires ValidSize(n) && IsRun(n, states, actions) && j < |states| && k < |states|
    requires a < |states[j].servers| && b < |states[k].servers|
    requires states[j].servers[a].phase.Leader? && states[k].servers[b].phase.Leader?
    requires states[j].servers[a].currentTerm == states[k].servers[b].currentTerm
    ensures a == b
  {
    var hs := Histories(n, states, actions);
    var t := states[j].servers[a].currentTerm;
    assert ServerOK(n, hs[j], a, states[j].servers[a]);
    assert ServerOK(n, hs[k], b, states[k].servers[b]);
    assert Extends(if j <= k then hs[j] else hs[k], if j <= k then hs[k] else hs[j]);
    assert ReignExtends(if j <= k then hs[j].reigns[t] else hs[k].reigns[t],
                        if j <= k then hs[k].reigns[t] else hs[j].reigns[t]);
  }

  /**
   Log Matching: two logs of a run, of any servers at any two times, that hold
   an entry with the same index and term are identical up to that index.
   */
  lemma LogMatching(n: nat, states: seq<Cluster>, actions: seq<Action>, j: nat, k: nat, a: nat, b: nat, i: nat)
    requires ValidSize(n) && IsRun(n, states, actions) && j < |states| && k < |states|
    requires a < |states[j].servers| && b < |states[k].servers|
    requires i < |states[j].servers[a].log| && i < |states[k].servers[b].log|
    requires states[j].servers[a].log[i].term == states[k].servers[b].log[i].term
    ensures states[j].servers[a].log[..i + 1] == states[k].servers[b].log[..i + 1]
  {
    hide IsRun;
    var hs := Histories(n, states, actions);
    var la, lb := states[j].servers[a].log, states[k].servers[b].log;
    assert ServerOK(n, hs[j], a, states[j].servers[a]);
    assert ServerOK(n, hs[k], b, states[k].servers[b]);
    if j <= k {
      GoodLogExtends(hs[j], hs[k], la);
      LogsMatch(hs[k], la, lb, i);
    } else {
      GoodLogExtends(hs[k], hs[j], lb);
      LogsMatch(hs[j], la, lb, i);
    }
  }

  // ----- in guarded runs

  /** The certificate behind a server's commit index, seen from a later moment of the run. */
  lemma LaterCertificate(n: nat, states: seq<Cluster>, actions: seq<Action>, hs: seq<History>, j: nat, k: nat, a: nat)
    returns (t: nat, i: nat)
    requires SafeHistories(n, states, actions, hs) && j <= k < |states| && a < |states[j].servers|
    requires states[j].servers[a].commitIndex > 0
    ensures var s := states[j].servers[a]; Covers(n, hs[k], s.log, s.commitIndex, s.currentTerm, t, i)
  {
    hide Base, Extends, Covers, BallotsKeep, VotersKeep, AppendCommitted, Kept, OutputOK;
    var s := states[j].servers[a];
    assert ServerSafe(n, hs[j], a, s);
    t, i :| Covers(n, hs[j], s.log, s.commitIndex, s.currentTerm, t, i)
            && (t < s.currentTerm || Acked(hs[j], a, t) > s.commitIndex);
    CoveredInside(n, hs[j], s.log, s.commitIndex, s.currentTerm, t, i);
    CoversGrows(n, hs[j], hs[k], s.log, s.log, s.commitIndex, s.currentTerm, s.currentTerm, t, i);
  }

  /** Two committed prefixes of a run, of any servers at any two times, agree wherever both reach. */
  lemma CommittedPrefixesAgree(n: nat, states: seq<Cluster>, actions: seq<Action>, j: nat, k: nat, a: nat, b: nat,
                               x: nat)
    requires ValidSize(n) && IsGuardedRun(n, states, actions) && j < |states| && k < |states|
    requires a < |states[j].servers| && b < |states[k].servers|
    requires 0 < x <= states[j].servers[a].commitIndex && x <= states[k].servers[b].commitIndex
    ensures x < |states[j].servers[a].log| && x < |states[k].servers[b].log|
    ensures states[j].servers[a].log[..x + 1] == states[k].servers[b].log[..x + 1]
  {
    hide IsGuardedRun;
    var hs := GuardedHistories(n, states, actions);
    var m := if j <= k then k else j;
    var t1, i1 := LaterCertificate(n, states, actions, hs, j, m, a);
    var t2, i2 := LaterCertificate(n, states, actions, hs, k, m, b);
    CoversAgree(n, states[m], hs[m], states[j].servers[a], states[k].servers[b], t1, i1, t2, i2, x);
  }

  lemma CoversAgree(n: nat, c: Cluster, h: History, a: Server, b: Server, t1: nat, i1: nat, t2: nat, i2: nat, x: nat)
    requires Base(n, c, h) && Safe(n, c, h)
    requires Covers(n, h, a.log, a.commitIndex, a.currentTerm, t1, i1)
    requires Covers(n, h, b.log, b.commitIndex, b.currentTerm, t2, i2)
    requires x <= a.commitIndex && x <= b.commitIndex
    ensures x < |a.log| && x < |b.log| && a.log[..x + 1] == b.log[..x + 1]
  {
    hide HistoryOK, ServerOK, MessageOK, VotersKeep, BallotsKeep, ServerSafe, AppendCommitted, Ackers;
    CertificatesAgree(n, h, t1, i1, t2, i2, x);
    assert a.log[..x + 1] == a.log[..a.commitIndex + 1][..x + 1] == h.reigns[t1].log[..x + 1];
    assert b.log[..x + 1] == b.log[..b.commitIndex + 1][..x + 1] == h.reigns[t2].log[..x + 1];
  }

  /** Leader Completeness: whatever any server has ever committed is in the log of every leader of a later term. */
  lemma LeadersHoldCommitted(n: nat, states: seq<Cluster>, actions: seq<Action>, j: nat, k: nat, a: nat, b: nat)
    requires ValidSize(n) && IsGuardedRun(n, states, actions) && j < |states| && k < |states|
    requires a < |states[j].servers| && b < |states[k].servers|
    requires states[k].servers[b].phase.Leader?
    requires states[j].servers[a].currentTerm < states[k].servers[b].currentTerm
    requires states[j].servers[a].commitIndex > 0
    ensures var x := states[j].servers[a].commitIndex;
            && x < |states[j].servers[a].log| && x < |states[k].servers[b].log|
            && states[j].servers[a].log[..x + 1] == states[k].servers[b].log[..x + 1]
  {
    hide IsGuardedRun, Base, Safe;
    var hs := GuardedHistories(n, states, actions);
    var m := if j <= k then k else j;
    var t, i := LaterCertificate(n, states, actions, hs, j, m, a);
    LeaderCovers(n, states[k], hs[k], b, states[m], hs[m], states[j].servers[a], t, i);
  }

  lemma LeaderCovers(n: nat, c: Cluster, h: History, b: nat, c': Cluster, h': History, s: Server, t: nat, i: nat)
    requires Base(n, c, h) && Base(n, c', h') && Safe(n, c', h') && Extends(h, h')
    requires b < |c.servers| && c.servers[b].phase.Leader? && s.currentTerm < c.servers[b].currentTerm
    requires Covers(n, h', s.log, s.commitIndex, s.currentTerm, t, i)
    ensures s.commitIndex < |s.log| && s.commitIndex < |c.servers[b].log|
    ensures s.log[..s.commitIndex + 1] == c.servers[b].log[..s.commitIndex + 1]
  {
    hide HistoryOK, MessageOK, VotersKeep, BallotsKeep, ServerSafe, AppendCommitted, Ackers, GoodLog, VotingOK;
    var t', x := c.servers[b].currentTerm, s.commitIndex;
    assert ServerOK(n, h, b, c.servers[b]);
    CertifiedInLater(n, h', t, i, t');
    ReignBase(n, h, t');
    assert ReignExtends(h.reigns[t'], h'.reigns[t']);
    var l := c.servers[b].log;
    assert l[..x + 1] == h'.reigns[t'].log[..i + 1][..x + 1];
    assert s.log[..x + 1] == h'.reigns[t].log[..i + 1][..x + 1];
  }

  lemma ReignBase(n: nat, h: History, t: nat)
    requires HistoryOK(n, h) && t in h.reigns
    ensures |h.reigns[t].base| <= |h.reigns[t].log|
  {
    assert ReignOK(n, h, t);
  }

  /** `applyEntries` never reaches past the end of the log, and each instance applies 1, 2, 3, ... in order. */
  lemma AppliesInOrder(n: nat, states: seq<Cluster>, actions: seq<Action>, k: nat, a: nat)
    requires ValidSize(n) && IsGuardedRun(n, states, actions) && k < |states| && a < |states[k].servers|
    ensures var s := states[k].servers[a];
            && |s.output| == s.lastApplied <= s.commitIndex < |s.log|
            && forall x :: 0 <= x < |s.output| ==> s.output[x] == ApplyMsg(x + 1, s.log[x + 1].data)
  {
    hide IsGuardedRun, Base;
    var hs := GuardedHistories(n, states, actions);
    assert ServerSafe(n, hs[k], a, states[k].servers[a]);
  }

  /**
   State Machine Safety: no two instances, of any servers at any two times of a
   run, apply different commands at the same index.
   */
  lemma StateMachineSafety(n: nat, states: seq<Cluster>, actions: seq<Action>, j: nat, k: nat, a: nat, b: nat, x: nat)
    requires ValidSize(n) && IsGuardedRun(n, states, actions) && j < |states| && k < |states|
    requires a < |states[j].servers| && b < |states[k].servers|
    requires x < |states[j].servers[a].output| && x < |states[k].servers[b].output|
    ensures states[j].servers[a].output[x] == states[k].servers[b].output[x]
  {
    hide IsGuardedRun;
    AppliesInOrder(n, states, actions, j, a);
    AppliesInOrder(n, states, actions, k, b);
    CommittedPrefixesAgree(n, states, actions, j, k, a, b, x + 1);
    var la, lb := states[j].servers[a].log, states[k].servers[b].log;
    assert la[x + 1] == la[..x + 2][x + 1] == lb[..x + 2][x + 1] == lb[x + 1];
  }

  /** The same under assumption A4. */
  lemma OrderedStateMachineSafety(n: nat, states: seq<Cluster>, actions: seq<Action>, j: nat, k: nat, a: nat, b: nat,
                                  x: nat)
    requires ValidSize(n) && IsOrderedRun(n, states, actions) && j < |states| && k < |states|
    requires a < |states[j].servers| && b < |states[k].servers|
    requires x < |states[j].servers[a].output| && x < |states[k].servers[b].output|
    ensures states[j].servers[a].output[x] == states[k].servers[b].output[x]
  {
    hide IsGuardedRun;
    OrderedIsGuarded(n, states, actions);
    StateMachineSafety(n, states, actions, j, k, a, b, x);
  }

  /** Every violation of State Machine Safety goes back to a follower that dropped an entry it had acknowledged. */
  lemma ViolationDropsEntry(n: nat, states: seq<Cluster>, actions: seq<Action>, j: nat, k: nat, a: nat, b: nat, x: nat)
    requires ValidSize(n) && IsRun(n, states, actions) && j < |states| && k < |states|
    requires a < |states[j].servers| && b < |states[k].servers|
    requires x < |states[j].servers[a].output| && x < |states[k].servers[b].output|
    requires states[j].servers[a].output[x] != states[k].servers[b].output[x]
    ensures !KeepsAcknowledged(states, actions)
  {
    hide KeepsAcknowledged;
    GuardedIffKeeps(n, states, actions);
    if IsGuardedRun(n, states, actions) {
      StateMachineSafety(n, states, actions, j, k, a, b, x);
    }
  }
}
