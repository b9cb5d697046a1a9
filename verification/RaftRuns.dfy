/**
 The history of a run: one `History` per state, each recording the step that
 led to it. In a guarded run it keeps both invariants.
 */
module RaftRuns {
  import opened RaftServer
  import opened RaftCluster
  import opened RaftHistory
  import opened RaftBase
  import opened RaftCommit
  import opened RaftSteps
  import opened RaftReplication

  ghost predicate IsRecord(c: Cluster, h: History, a: Action, h': History) {
    Shaped(c) && Enabled(c, a) && h' == Record(c, h, a)
  }

  ghost predicate HistoriesOf(n: nat, states: seq<Cluster>, actions: seq<Action>, hs: seq<History>) {
    && |hs| == |states| == |actions| + 1
    && hs[0] == NO_HISTORY
    && (forall k :: 0 <= k < |hs| ==> Base(n, states[k], hs[k]))
    && (forall k :: 0 <= k < |actions| ==> IsRecord(states[k], hs[k], actions[k], hs[k + 1]))
    && (forall j, k :: 0 <= j <= k < |hs| ==> Extends(hs[j], hs[k]))
  }

  ghost predicate SafeHistories(n: nat, states: seq<Cluster>, actions: seq<Action>, hs: seq<History>) {
    && HistoriesOf(n, states, actions, hs)
    && (forall k :: 0 <= k < |hs| ==> Safe(n, states[k], hs[k]))
  }

  lemma ExtendsTransitive(a: History, b: History, c: History)
    requires Extends(a, b) && Extends(b, c)
    ensures Extends(a, c)
  {
    forall t | t in a.reigns
      ensures t in c.reigns && ReignExtends(a.reigns[t], c.reigns[t])
    {
      assert ReignExtends(a.reigns[t], b.reigns[t]);
      assert ReignExtends(b.reigns[t], c.reigns[t]);
    }
  }

  lemma RunPrefix(n: nat, states: seq<Cluster>, actions: seq<Action>)
    requires IsRun(n, states, actions) && actions != []
    ensures IsRun(n, states[..|actions|], actions[..|actions| - 1])
  {
  }

  lemma ExtendHistories(n: nat, states: seq<Cluster>, actions: seq<Action>, hs: seq<History>, a: Action,
                        c: Cluster, h: History)
    requires HistoriesOf(n, states, actions, hs)
    requires Base(n, c, h) && Extends(hs[|actions|], h) && IsRecord(states[|actions|], hs[|actions|], a, h)
    ensures HistoriesOf(n, states + [c], actions + [a], hs + [h])
  {
    hide Base, Extends, IsRecord;
    var hs' := hs + [h];
    forall j, k | 0 <= j <= k < |hs'|
      ensures Extends(hs'[j], hs'[k])
    {
      SelfExtends(h);
      if j < |hs| && k == |hs| {
        assert Extends(hs[j], hs[|hs| - 1]);
        ExtendsTransitive(hs[j], hs[|hs| - 1], h);
      }
    }
  }

  /** Every run has a history. */
  lemma {:induction false} Histories(n: nat, states: seq<Cluster>, actions: seq<Action>) returns (hs: seq<History>)
    requires ValidSize(n) && IsRun(n, states, actions)
    ensures HistoriesOf(n, states, actions, hs)
    decreases |actions|
  {
    hide Base, Extends, Init, Effect, Record, Enabled, Shaped;
    if actions == [] {
      BaseInit(n);
      SelfExtends(NO_HISTORY);
      hs := [NO_HISTORY];
    } else {
      var k := |actions| - 1;
      RunPrefix(n, states, actions);
      hs := Histories(n, states[..k + 1], actions[..k]);
      assert IsStep(states[k], actions[k], states[k + 1]);
      BaseKept(n, states[k], hs[k], actions[k]);
      var h := Record(states[k], hs[k], actions[k]);
      ExtendHistories(n, states[..k + 1], actions[..k], hs, actions[k], states[k + 1], h);
      assert states == states[..k + 1] + [states[k + 1]] && actions == actions[..k] + [actions[k]];
      hs := hs + [h];
    }
  }

  // ----- what a follower has accepted, in terms of the run

  /** What one step adds to what server `f` has accepted in term `t`. */
  lemma AckStep(n: nat, c: Cluster, h: History, a: Action, h': History, f: nat, t: nat)
    requires Base(n, c, h) && IsRecord(c, h, a, h')
    ensures || Acked(h', f, t) == Acked(h, f, t)
            || (t in h'.reigns && h'.reigns[t].leader == f)
            || (Accepting(c, a) && a.i == f && a.m.append.term == t && SentLength(a.m) == Acked(h', f, t))
  {
    hide HandleAppend, HandleVote, HistoryOK, MessageOK, GoodLog, VotingOK;
    assert ServerOK(n, h, a.i, c.servers[a.i]);
  }

  /** The longest log a follower has accepted in a term is the length of some message it accepted. */
  lemma {:induction false} AckWitness(n: nat, states: seq<Cluster>, actions: seq<Action>, hs: seq<History>,
                                      k: nat, f: nat, t: nat) returns (j: nat)
    requires HistoriesOf(n, states, actions, hs) && k < |hs| && Acked(hs[k], f, t) > 0
    requires t in hs[k].reigns && hs[k].reigns[t].leader != f
    ensures j < k && Accepting(states[j], actions[j]) && actions[j].i == f && actions[j].m.append.term == t
    ensures SentLength(actions[j].m) == Acked(hs[k], f, t)
  {
    hide Base, Accepting;
    assert k > 0;
    assert IsRecord(states[k - 1], hs[k - 1], actions[k - 1], hs[k]);
    AckStep(n, states[k - 1], hs[k - 1], actions[k - 1], hs[k], f, t);
    if Acked(hs[k - 1], f, t) == Acked(hs[k], f, t) {
      OldReign(n, states[k - 1], hs[k - 1], hs[k], f, t);
      j := AckWitness(n, states, actions, hs, k - 1, f, t);
    } else {
      j := k - 1;
    }
  }

  lemma OldReign(n: nat, c: Cluster, h: History, h': History, f: nat, t: nat)
    requires Base(n, c, h) && Extends(h, h') && Acked(h, f, t) > 0
    ensures t in h.reigns && t in h'.reigns && h'.reigns[t].leader == h.reigns[t].leader
  {
    assert AckOK(h, f, t);
    assert ReignExtends(h.reigns[t], h'.reigns[t]);
  }

  /** The guard of a run is what the invariant needs at each of its steps. */
  lemma GuardedStep(n: nat, states: seq<Cluster>, actions: seq<Action>, hs: seq<History>, k: nat)
    requires IsGuardedRun(n, states, actions) && HistoriesOf(n, states, actions, hs) && k < |actions|
    ensures LongEnough(states[k], hs[k], actions[k])
  {
    hide Base, Extends, Accepting, Record;
    var a := actions[k];
    if Accepting(states[k], a) {
      assert IsRecord(states[k], hs[k], a, hs[k + 1]);
      AcceptingIsDelivery(states[k], a);
      DeliveredIsOK(n, states[k], hs[k], a);
      if Acked(hs[k], a.i, a.m.append.term) > 0 {
        var j := AckWitness(n, states, actions, hs, k, a.i, a.m.append.term);
        AcceptingIsDelivery(states[j], actions[j]);
      }
    }
  }

  lemma AcceptingIsDelivery(c: Cluster, a: Action)
    requires Accepting(c, a)
    ensures a.DeliverAppend? && a.m.Append?
  {
  }

  lemma {:induction false} SafeAt(n: nat, states: seq<Cluster>, actions: seq<Action>, hs: seq<History>, k: nat)
    requires ValidSize(n) && IsGuardedRun(n, states, actions) && HistoriesOf(n, states, actions, hs) && k < |hs|
    ensures Safe(n, states[k], hs[k])
  {
    hide Base, Safe, Extends, Init, Effect, Record, LongEnough, Enabled, Shaped;
    if k == 0 {
      SafeInit(n);
    } else {
      SafeAt(n, states, actions, hs, k - 1);
      GuardedStep(n, states, actions, hs, k - 1);
      assert IsRecord(states[k - 1], hs[k - 1], actions[k - 1], hs[k]);
      assert IsStep(states[k - 1], actions[k - 1], states[k]);
      SafeKept(n, states[k - 1], hs[k - 1], actions[k - 1]);
    }
  }

  /** A guarded run has a history that keeps both invariants. */
  lemma GuardedHistories(n: nat, states: seq<Cluster>, actions: seq<Action>) returns (hs: seq<History>)
    requires ValidSize(n) && IsGuardedRun(n, states, actions)
    ensures SafeHistories(n, states, actions, hs)
  {
    hide Base, Safe, Extends, IsRecord;
    hs := Histories(n, states, actions);
    forall k | 0 <= k < |hs|
      ensures Safe(n, states[k], hs[k])
    {
      SafeAt(n, states, actions, hs, k);
    }
  }

  /** Messages that arrive in order are guarded: a leader's log only grows. */
  lemma OrderedIsGuarded(n: nat, states: seq<Cluster>, actions: seq<Action>)
    requires ValidSize(n) && IsOrderedRun(n, states, actions)
    ensures IsGuardedRun(n, states, actions)
  {
    hide Base, Extends, Accepting, Record, IsStep, Init;
    var hs := Histories(n, states, actions);
    forall j, k | 0 <= j < k < |actions| && SameChannel(actions[j], actions[k])
      ensures SentLength(actions[j].m) <= SentLength(actions[k].m)
    {
      assert IsRecord(states[j], hs[j], actions[j], hs[j + 1]) && IsRecord(states[k], hs[k], actions[k], hs[k + 1]);
      DeliveredIsOK(n, states[j], hs[j], actions[j]);
      DeliveredIsOK(n, states[k], hs[k], actions[k]);
      AppendOKGrows(n, hs[j], hs[k], actions[j].m);
      LaterIsLonger(n, states[k], hs[k], actions[j].m, actions[k].m);
    }
  }

  lemma LaterIsLonger(n: nat, c: Cluster, h: History, m: Message, m': Message)
    requires Base(n, c, h) && m.Append? && m'.Append? && AppendOK(n, h, m) && AppendOK(n, h, m')
    requires m.append.term == m'.append.term && m.beat <= m'.beat
    ensures SentLength(m) <= SentLength(m')
  {
  }
}
