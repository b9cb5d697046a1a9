/**
 Election Safety holds in every run of a cluster exactly when its size is odd.
 With an even number of servers `math.Ceil(n/2)` is only half of them, and
 each half can elect its own leader of one term.
 */
module RaftEven {
  import opened RaftServer
  import opened RaftCluster
  import opened RaftQuorum
  import opened RaftTheorems
  import opened RaftTrace

  /** At most one server is ever leader in any term. */
  ghost predicate OneLeaderPerTerm(states: seq<Cluster>) {
    forall j, k, a: nat, b: nat, term: nat :: 0 <= j < |states| && 0 <= k < |states| ==>
      Leads(states[j], a, term) && Leads(states[k], b, term) ==> a == b
  }

  predicate Leads(c: Cluster, a: nat, term: nat) {
    a < |c.servers| && c.servers[a].phase.Leader? && c.servers[a].currentTerm == term
  }

  const FRESH: Server := Boot(Blank)

  function Bid(i: nat): Message {
    VoteRequest(VoteArgs(1, i, 0, 0))
  }

  /** Server `i` stands in term 1 and has the votes of everyone from `i` up to `lo`; those up to `hi` are untouched. */
  ghost predicate Standing(c: Cluster, i: nat, lo: nat, hi: nat) {
    && i < lo <= hi <= |c.servers|
    && c.servers[i] == CallElection(FRESH, i)
    && Bid(i) in c.net
    && (forall v :: i <= v < lo ==> HasVote(c, i, v))
    && (forall v :: lo <= v < hi ==> c.servers[v] == FRESH)
  }

  ghost predicate SameOutside(c: Cluster, c': Cluster, i: nat, hi: nat) {
    |c'.servers| == |c.servers| && forall v :: 0 <= v < |c.servers| && !(i <= v < hi) ==> c'.servers[v] == c.servers[v]
  }

  lemma FreshFacts(i: nat, v: nat)
    ensures CallElection(FRESH, i).currentTerm == 1 && CallElection(FRESH, i).phase.Candidate?
    ensures BuildVoteArgs(CallElection(FRESH, i), i) == Bid(i).vote
    ensures HandleVote(FRESH, Bid(i).vote).1 == VoteReply(0, true)
  {
  }

  lemma Stand(n: nat, t: Trace, i: nat, hi: nat) returns (t': Trace)
    requires IsTrace(n, t) && Shaped(Now(t)) && i < hi <= |Now(t).servers|
    requires forall v :: i <= v < hi ==> Now(t).servers[v] == FRESH
    ensures IsTrace(n, t') && Shaped(Now(t')) && t.states <= t'.states
    ensures Standing(Now(t'), i, i + 1, hi) && SameOutside(Now(t), Now(t'), i, hi)
  {
    hide IsRun, CallElection, BuildVoteArgs;
    FreshFacts(i, i);
    ThenIsTrace(n, t, Timeout(i));
    t' := Then(t, Timeout(i));
  }

  lemma OneVote(n: nat, t: Trace, i: nat, lo: nat, hi: nat) returns (t': Trace)
    requires IsTrace(n, t) && Shaped(Now(t)) && lo < hi && Standing(Now(t), i, lo, hi)
    ensures IsTrace(n, t') && Shaped(Now(t')) && t.states <= t'.states
    ensures Standing(Now(t'), i, lo + 1, hi) && SameOutside(Now(t), Now(t'), i, hi)
  {
    hide IsRun, CallElection, BuildVoteArgs, HandleVote;
    var a, c := DeliverVote(lo, Bid(i)), Now(t);
    FreshFacts(i, lo);
    ThenIsTrace(n, t, a);
    t' := Then(t, a);
    var c' := Now(t');
    assert c'.servers == c.servers[lo := HandleVote(FRESH, Bid(i).vote).0] && c.net <= c'.net;
    assert VoteAnswer(1, i, lo, VoteReply(0, true)) in c'.net;
    forall v | i <= v < lo + 1
      ensures HasVote(c', i, v)
    {
      if v < lo {
        VoteStays(c, c', i, v);
      }
    }
  }

  lemma VoteStays(c: Cluster, c': Cluster, i: nat, v: nat)
    requires i < |c.servers| == |c'.servers| && c.servers[i] == c'.servers[i] && c.net <= c'.net && HasVote(c, i, v)
    ensures HasVote(c', i, v)
  {
  }

  lemma {:induction false} AllVotes(n: nat, t: Trace, i: nat, lo: nat, hi: nat) returns (t': Trace)
    requires IsTrace(n, t) && Shaped(Now(t)) && Standing(Now(t), i, lo, hi)
    ensures IsTrace(n, t') && Shaped(Now(t')) && t.states <= t'.states
    ensures Standing(Now(t'), i, hi, hi) && SameOutside(Now(t), Now(t'), i, hi)
    decreases hi - lo
  {
    hide IsRun, Standing, Shaped;
    assert lo <= hi by { StandingBounds(Now(t), i, lo, hi); }
    if lo == hi {
      t' := t;
    } else {
      var t1 := OneVote(n, t, i, lo, hi);
      t' := AllVotes(n, t1, i, lo + 1, hi);
    }
  }

  lemma StandingBounds(c: Cluster, i: nat, lo: nat, hi: nat)
    requires Standing(c, i, lo, hi)
    ensures i < lo <= hi <= |c.servers|
  {
  }

  /** The servers from `i` up to `hi`, if they are a quorum, make server `i` leader of term 1. */
  lemma Campaign(n: nat, t: Trace, i: nat, hi: nat) returns (t': Trace)
    requires IsTrace(n, t) && Shaped(Now(t)) && i < hi <= |Now(t).servers|
    requires forall v :: i <= v < hi ==> Now(t).servers[v] == FRESH
    requires hi - i >= ElectionQuorum(|Now(t).servers|)
    ensures IsTrace(n, t') && Shaped(Now(t')) && t.states <= t'.states
    ensures Leads(Now(t'), i, 1) && SameOutside(Now(t), Now(t'), i, hi)
  {
    hide IsRun, CallElection;
    var t1 := Stand(n, t, i, hi);
    var t2 := AllVotes(n, t1, i, i + 1, hi);
    FreshFacts(i, i);
    IntervalSize(i, hi);
    ThenIsTrace(n, t2, Elected(i, Interval(i, hi)));
    t' := Then(t2, Elected(i, Interval(i, hi)));
  }

  /** A cluster of even size can have two leaders of term 1 at once. */
  lemma TwoLeaders(n: nat) returns (t: Trace)
    requires n > 0 && n % 2 == 0
    ensures IsRun(n, t.states, t.actions) && !OneLeaderPerTerm(t.states)
  {
    hide IsRun;
    var half := n / 2;
    var t0 := Trace([Init(n)], []);
    StartsRun(n);
    var t1 := Campaign(n, t0, 0, half);
    t := Campaign(n, t1, half, n);
    var c := Now(t);
    assert t.states[|t.states| - 1] == c && Leads(c, 0, 1) && Leads(c, half, 1);
  }

  lemma StartsRun(n: nat)
    ensures IsRun(n, [Init(n)], [])
  {
  }

  /** Election Safety holds of every run if and only if the number of servers is odd. */
  lemma ElectionSafetyIffOdd(n: nat)
    requires n > 0
    ensures (forall states, actions :: IsRun(n, states, actions) ==> OneLeaderPerTerm(states)) <==> ValidSize(n)
  {
    hide IsRun, OneLeaderPerTerm;
    if ValidSize(n) {
      forall states, actions | IsRun(n, states, actions)
        ensures OneLeaderPerTerm(states)
      {
        SafeElections(n, states, actions);
      }
    } else {
      var t := TwoLeaders(n);
    }
  }

  lemma SafeElections(n: nat, states: seq<Cluster>, actions: seq<Action>)
    requires ValidSize(n) && IsRun(n, states, actions)
    ensures OneLeaderPerTerm(states)
  {
    hide IsRun;
    forall j, k, a: nat, b: nat, term: nat | 0 <= j < |states| && 0 <= k < |states|
                                             && Leads(states[j], a, term) && Leads(states[k], b, term)
      ensures a == b
    {
      ElectionSafety(n, states, actions, j, k, a, b);
    }
  }
}
