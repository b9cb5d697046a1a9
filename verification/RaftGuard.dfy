/**
 What the guard of `IsGuardedRun` buys, exactly: a run is guarded if and only
 if no follower ever drops, by accepting a message, an entry that it has
 acknowledged to the same leader before.
 */
module RaftGuard {
  import opened RaftServer
  import opened RaftCluster
  import opened RaftHistory
  import opened RaftBase
  import opened RaftReplication
  import opened RaftRuns

  /** Every acceptance after the first on a channel only adds to the follower's log. */
  ghost predicate KeepsAcknowledged(states: seq<Cluster>, actions: seq<Action>)
    requires |states| == |actions| + 1
  {
    forall j, k :: 0 <= j < k < |actions| && BothAccepted(states, actions, j, k) ==>
      KeepsLog(states[k], states[k + 1], actions[k].i)
  }

  predicate KeepsLog(c: Cluster, c': Cluster, f: nat) {
    f < |c.servers| && f < |c'.servers| && c.servers[f].log <= c'.servers[f].log
  }

  // ----- one step

  lemma TermGrows(n: nat, c: Cluster, h: History, a: Action, f: nat)
    requires Base(n, c, h) && Shaped(c) && Enabled(c, a) && f < n
    ensures |Effect(c, a).servers| == n && c.servers[f].currentTerm <= Effect(c, a).servers[f].currentTerm
  {
    hide HistoryOK, MessageOK, GoodLog, VotingOK, LeaderOK, CandidateOK, CommitCandidate, ScanCommit, ConflictIndex;
    assert ServerOK(n, h, f, c.servers[f]);
  }

  /** The log after an acceptance is the log the leader had sent. */
  lemma AcceptedServer(n: nat, c: Cluster, h: History, a: Action)
    requires Base(n, c, h) && Shaped(c) && Enabled(c, a) && Accepting(c, a)
    ensures var m := a.m;
            && AppendOK(n, h, m) && a.i < n && |Effect(c, a).servers| == n
            && h.reigns[m.append.term].leader != a.i
            && c.servers[a.i].currentTerm <= m.append.term
            && Effect(c, a).servers[a.i].currentTerm == m.append.term
            && Effect(c, a).servers[a.i].log == h.reigns[m.append.term].log[..SentLength(m)]
  {
    hide HistoryOK, GoodLog, VotingOK;
    DeliveredIsOK(n, c, h, a);
    assert ServerOK(n, h, a.i, c.servers[a.i]);
    AcceptedLog(n, h, c.servers[a.i].log, a.m);
  }

  /** Within one term a server that does not lead it changes its log only by accepting. */
  lemma SteadyStep(n: nat, c: Cluster, h: History, a: Action, f: nat, t: nat)
    requires Base(n, c, h) && Shaped(c) && Enabled(c, a) && f < n
    requires c.servers[f].currentTerm == t == Effect(c, a).servers[f].currentTerm
    requires t in h.reigns && h.reigns[t].leader != f
    requires !(Accepting(c, a) && a.i == f && a.m.append.term == t)
    ensures Effect(c, a).servers[f].log == c.servers[f].log
  {
    hide HistoryOK, MessageOK, GoodLog, VotingOK, CandidateOK, CollectBeat, ConflictIndex;
    assert ServerOK(n, h, f, c.servers[f]);
  }

  // ----- whole runs

  /** Step `l` is an acceptance by server `f` of a message of term `t`. */
  predicate AcceptsAt(states: seq<Cluster>, actions: seq<Action>, l: nat, f: nat, t: nat)
    requires l < |actions| <= |states|
  {
    Accepting(states[l], actions[l]) && actions[l].i == f && actions[l].m.append.term == t
  }

  /** At state `k` server `f` holds what it accepted at step `l`. */
  ghost predicate HoldsSince(n: nat, states: seq<Cluster>, actions: seq<Action>, hs: seq<History>, l: nat, k: nat,
                             f: nat, t: nat)
    requires l < |actions| && k < |states| == |hs| && |actions| <= |states|
  {
    && AcceptsAt(states, actions, l, f, t)
    && f < |states[k].servers| && t in hs[k].reigns && hs[k].reigns[t].leader != f
    && states[k].servers[f].currentTerm == t
    && SentLength(actions[l].m) <= |hs[k].reigns[t].log|
    && states[k].servers[f].log == hs[k].reigns[t].log[..SentLength(actions[l].m)]
  }

  lemma JustAccepted(n: nat, states: seq<Cluster>, actions: seq<Action>, hs: seq<History>, l: nat, f: nat, t: nat)
    requires IsRun(n, states, actions) && HistoriesOf(n, states, actions, hs) && l < |actions|
    requires AcceptsAt(states, actions, l, f, t)
    ensures HoldsSince(n, states, actions, hs, l, l + 1, f, t)
  {
    hide Base, Extends, Effect, Enabled, Shaped, Accepting, Record, Init;
    assert IsStep(states[l], actions[l], states[l + 1]);
    AcceptingIsDelivery(states[l], actions[l]);
    AcceptedServer(n, states[l], hs[l], actions[l]);
    AppendOKGrows(n, hs[l], hs[l + 1], actions[l].m);
    SentInside(n, hs[l + 1], actions[l].m);
    assert Extends(hs[l], hs[l + 1]);
    SameLeader(hs[l], hs[l + 1], t);
  }

  lemma SentInside(n: nat, h: History, m: Message)
    requires m.Append? && AppendOK(n, h, m)
    ensures m.append.term in h.reigns && SentLength(m) <= |h.reigns[m.append.term].log|
  {
  }

  lemma SameLeader(h: History, h': History, t: nat)
    requires Extends(h, h') && t in h.reigns
    ensures t in h'.reigns && h'.reigns[t].leader == h.reigns[t].leader && h.reigns[t].log <= h'.reigns[t].log
  {
    assert ReignExtends(h.reigns[t], h'.reigns[t]);
  }

  /** One more step in the same term, without an acceptance, changes nothing. */
  lemma StillHolds(n: nat, states: seq<Cluster>, actions: seq<Action>, hs: seq<History>, l: nat, k: nat, f: nat, t: nat)
    requires IsRun(n, states, actions) && HistoriesOf(n, states, actions, hs) && l < |actions| && k < |actions|
    requires HoldsSince(n, states, actions, hs, l, k, f, t) && !AcceptsAt(states, actions, k, f, t)
    requires f < |states[k + 1].servers| && states[k + 1].servers[f].currentTerm == t
    ensures HoldsSince(n, states, actions, hs, l, k + 1, f, t)
  {
    hide Extends, Effect, Enabled, Shaped, Accepting, Record, Init, HistoryOK, ServerOK, MessageOK;
    assert IsStep(states[k], actions[k], states[k + 1]);
    assert Base(n, states[k], hs[k]);
    AcceptingIsDelivery(states[l], actions[l]);
    SteadyStep(n, states[k], hs[k], actions[k], f, t);
    assert Extends(hs[k], hs[k + 1]);
    SameLeader(hs[k], hs[k + 1], t);
    var sent := SentLength(actions[l].m);
    assert hs[k + 1].reigns[t].log[..sent] == hs[k].reigns[t].log[..sent];
  }

  /** Between two acceptances on a channel the follower holds what it accepted last. */
  lemma {:induction false} LastAccepted(n: nat, states: seq<Cluster>, actions: seq<Action>, hs: seq<History>,
                                        j: nat, k: nat, f: nat, t: nat) returns (l: nat)
    requires IsRun(n, states, actions) && HistoriesOf(n, states, actions, hs) && j < k < |states|
    requires AcceptsAt(states, actions, j, f, t) && f < n
    requires |states[k].servers| == n && states[k].servers[f].currentTerm <= t
    ensures j <= l < k && HoldsSince(n, states, actions, hs, l, k, f, t)
    decreases k
  {
    hide Base, Extends, Effect, Enabled, Shaped, Accepting, Record, Init;
    if k == j + 1 {
      JustAccepted(n, states, actions, hs, j, f, t);
      l := j;
    } else {
      assert IsStep(states[k - 1], actions[k - 1], states[k]);
      BaseSize(n, states[k - 1], hs[k - 1]);
      TermGrows(n, states[k - 1], hs[k - 1], actions[k - 1], f);
      l := LastAccepted(n, states, actions, hs, j, k - 1, f, t);
      if AcceptsAt(states, actions, k - 1, f, t) {
        JustAccepted(n, states, actions, hs, k - 1, f, t);
        l := k - 1;
      } else {
        StillHolds(n, states, actions, hs, l, k - 1, f, t);
      }
    }
  }

  lemma BaseSize(n: nat, c: Cluster, h: History)
    requires Base(n, c, h)
    ensures |c.servers| == n
  {
  }

  /** At a second acceptance: what the follower holds, what it will hold, and what decides whether that is more. */
  lemma SecondAcceptance(n: nat, states: seq<Cluster>, actions: seq<Action>, hs: seq<History>, j: nat, k: nat)
    returns (l: nat)
    requires IsRun(n, states, actions) && HistoriesOf(n, states, actions, hs) && j < k < |actions|
    requires BothAccepted(states, actions, j, k)
    ensures j <= l < k && BothAccepted(states, actions, l, k) && BothAccepted(states, actions, j, l)
    ensures KeepsLog(states[k], states[k + 1], actions[k].i) <==>
            SentLength(actions[l].m) <= SentLength(actions[k].m)
  {
    hide Base, Extends, Effect, Enabled, Shaped, Accepting, Record, Init;
    var a, f, t := actions[k], actions[k].i, actions[k].m.append.term;
    assert IsStep(states[k], a, states[k + 1]);
    BaseSize(n, states[k], hs[k]);
    AcceptedServer(n, states[k], hs[k], a);
    SentInside(n, hs[k], a.m);
    l := LastAccepted(n, states, actions, hs, j, k, f, t);
    AcceptingIsDelivery(states[l], actions[l]);
    Prefixes(hs[k].reigns[t].log, SentLength(actions[l].m), SentLength(a.m));
  }

  lemma Prefixes(log: seq<LogEntry>, x: nat, y: nat)
    requires x <= |log| && y <= |log|
    ensures log[..x] <= log[..y] <==> x <= y
  {
    if x <= y {
      assert log[..y][..x] == log[..x];
    }
  }

  lemma {:induction false} KeptIsOrdered(n: nat, states: seq<Cluster>, actions: seq<Action>, hs: seq<History>,
                                         j: nat, k: nat)
    requires IsRun(n, states, actions) && HistoriesOf(n, states, actions, hs) && j < k < |actions|
    requires KeepsAcknowledged(states, actions) && BothAccepted(states, actions, j, k)
    ensures SentLength(actions[j].m) <= SentLength(actions[k].m)
    decreases k
  {
    hide IsRun, HistoriesOf;
    var l := SecondAcceptance(n, states, actions, hs, j, k);
    if j < l {
      KeptIsOrdered(n, states, actions, hs, j, l);
    }
  }

  /** The guard is exact: it holds of a run if and only if acknowledged entries are never dropped in their term. */
  lemma GuardedIffKeeps(n: nat, states: seq<Cluster>, actions: seq<Action>)
    requires ValidSize(n) && IsRun(n, states, actions)
    ensures IsGuardedRun(n, states, actions) <==> KeepsAcknowledged(states, actions)
  {
    hide HistoriesOf, Accepting, KeepsLog, IsStep, Init;
    var hs := Histories(n, states, actions);
    if IsGuardedRun(n, states, actions) {
      forall j, k | 0 <= j < k < |actions| && BothAccepted(states, actions, j, k)
        ensures KeepsLog(states[k], states[k + 1], actions[k].i)
      {
        var l := SecondAcceptance(n, states, actions, hs, j, k);
      }
    }
    if KeepsAcknowledged(states, actions) {
      forall j, k | 0 <= j < k < |actions| && BothAccepted(states, actions, j, k)
        ensures SentLength(actions[j].m) <= SentLength(actions[k].m)
      {
        KeptIsOrdered(n, states, actions, hs, j, k);
      }
    }
  }
}
