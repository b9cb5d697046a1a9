/**
 Which votes are granted, and why an election can always succeed: in every
 state of every run each quorum has a member that the others would vote for,
 and the run can go on to make it leader.
 */
module RaftVoting {
  import opened RaftServer
  import opened RaftCluster
  import opened RaftAdvance
  import opened RaftTrace

  // ----- which votes are granted

  /** Where a log ends: the term and the index of its last entry. */
  function End(log: Log): (nat, nat) {
    (LastTerm(log), |log| - 1)
  }

  /** The lexicographic order of such ends. */
  predicate EndsBefore(a: (nat, nat), b: (nat, nat)) {
    a.0 < b.0 || (a.0 == b.0 && a.1 < b.1)
  }

  /**
   A vote is granted if and only if the request is of the voter's term or a
   later one, the voter has not voted for another in that term, and the
   candidate's log does not end before the voter's.
   */
  lemma GrantedIff(s: Server, v: VoteArgs)
    ensures HandleVote(s, v).1.granted <==>
            && s.currentTerm <= v.term
            && (s.currentTerm == v.term ==> s.votedFor == NOBODY || s.votedFor == v.candidate)
            && !EndsBefore((v.lastLogTerm, v.lastLogIndex), End(s.log))
  {
  }

  /** A granted vote is cast, in the term of the request; the log stays as it is. */
  lemma GrantedVote(s: Server, v: VoteArgs)
    requires HandleVote(s, v).1.granted
    ensures var s' := HandleVote(s, v).0; s'.currentTerm == v.term && s'.votedFor == v.candidate && s'.log == s.log
  {
  }

  /** Of any two logs one is up to date for the other. */
  lemma UpToDateTotal(a: Log, b: Log)
    ensures UpToDate(LastTerm(a), |a| - 1, b) || UpToDate(LastTerm(b), |b| - 1, a)
  {
  }

  /** A timeout opens the next term, votes for itself and asks for votes with the end of its own log. */
  lemma TimeoutStands(n: nat, states: seq<Cluster>, actions: seq<Action>, k: nat, i: nat)
    requires IsRun(n, states, actions) && k < |actions| && actions[k] == Timeout(i)
    ensures i < |states[k].servers| == |states[k + 1].servers|
    ensures var (s, s') := (states[k].servers[i], states[k + 1].servers[i]);
            && s'.phase.Candidate? && s'.currentTerm == s.currentTerm + 1 && s'.votedFor == i && s'.log == s.log
            && VoteRequest(VoteArgs(s'.currentTerm, i, End(s.log).1, End(s.log).0)) in states[k + 1].net
  {
    hide Init;
    assert IsStep(states[k], actions[k], states[k + 1]);
  }

  // ----- somebody is acceptable to all

  predicate Members(c: Cluster, q: set<nat>) {
    forall v :: v in q ==> v < |c.servers|
  }

  /** No member's log ends after that of server `b`. */
  predicate EndsLast(c: Cluster, q: set<nat>, b: nat) {
    Members(c, q) && b in q && forall v :: v in q ==> !EndsBefore(End(c.servers[b].log), End(c.servers[v].log))
  }

  lemma {:induction false} SomeEndsLast(c: Cluster, q: set<nat>) returns (b: nat)
    requires Members(c, q) && q != {}
    ensures EndsLast(c, q, b)
    decreases |q|
  {
    var v :| v in q;
    if q == {v} {
      b := v;
    } else {
      b := SomeEndsLast(c, q - {v});
      assert forall w :: w in q ==> w == v || w in q - {v};
      if EndsBefore(End(c.servers[b].log), End(c.servers[v].log)) {
        b := v;
      }
    }
  }

  predicate AboveTerm(c: Cluster, v: nat, term: nat) {
    v < |c.servers| && c.servers[v].currentTerm < term
  }

  /** The vote request of server `b` in this term. */
  function RequestOf(c: Cluster, b: nat, term: nat): VoteArgs
    requires b < |c.servers|
  {
    VoteArgs(term, b, |c.servers[b].log| - 1, LastTerm(c.servers[b].log))
  }

  predicate WouldVote(c: Cluster, v: nat, b: nat, term: nat) {
    v < |c.servers| && b < |c.servers| && HandleVote(c.servers[v], RequestOf(c, b, term)).1.granted
  }

  /** Every set of servers has a member whose request, in a term above theirs, all the others grant. */
  lemma SomeoneIsAcceptable(c: Cluster, q: set<nat>) returns (b: nat)
    requires Members(c, q) && q != {}
    ensures b in q && forall v, term: nat :: v in q && AboveTerm(c, v, term) ==> WouldVote(c, v, b, term)
  {
    hide HandleVote;
    b := SomeEndsLast(c, q);
    forall v, term: nat | v in q && AboveTerm(c, v, term)
      ensures WouldVote(c, v, b, term)
    {
      GrantedIff(c.servers[v], RequestOf(c, b, term));
    }
  }

  // ----- and can be elected

  lemma StepDurable(c: Cluster, a: Action, f: nat)
    requires Shaped(c) && Enabled(c, a) && f < |c.servers| && IsDurable(c.servers[f])
    ensures IsDurable(Effect(c, a).servers[f])
  {
    hide CommitCandidate, ScanCommit, ConflictIndex, NewNext, NewMatch, Outputs;
  }

  /** In every run, of any number of servers, what a restart would load is what the server holds. */
  lemma {:induction false} RunDurable(n: nat, states: seq<Cluster>, actions: seq<Action>, k: nat, f: nat)
    requires IsRun(n, states, actions) && k < |states| && f < |states[k].servers|
    ensures IsDurable(states[k].servers[f])
  {
    hide Effect, Enabled, Shaped;
    if k > 0 {
      RunSize(n, states, actions, k - 1);
      RunSize(n, states, actions, k);
      RunDurable(n, states, actions, k - 1, f);
      assert IsStep(states[k - 1], actions[k - 1], states[k]);
      StepDurable(states[k - 1], actions[k - 1], f);
    }
  }

  /** The run goes on, without delivering entries to anyone. */
  ghost predicate Continues(t: Trace, t': Trace) {
    && t.states <= t'.states && t.actions <= t'.actions
    && forall k :: |t.actions| <= k < |t'.actions| ==> !t'.actions[k].DeliverAppend?
  }

  lemma ContinuesOn(t: Trace, t1: Trace, t2: Trace)
    requires Continues(t, t1) && Continues(t1, t2)
    ensures Continues(t, t2)
  {
    forall k | |t.actions| <= k < |t2.actions|
      ensures !t2.actions[k].DeliverAppend?
    {
      if k < |t1.actions| {
        assert t2.actions[k] == t1.actions[k];
      }
    }
  }

  /** One server changed, and at most its term grew and its phase. */
  ghost predicate OnlyMoved(c: Cluster, c': Cluster, b: nat) {
    && |c'.servers| == |c.servers| && b < |c.servers|
    && (forall v :: 0 <= v < |c.servers| && v != b ==> c'.servers[v] == c.servers[v])
    && c'.servers[b].log == c.servers[b].log
  }

  lemma BecomeFollower(n: nat, t: Trace, b: nat) returns (t': Trace)
    requires IsTrace(n, t) && Shaped(Now(t)) && b < |Now(t).servers|
    ensures IsTrace(n, t') && Shaped(Now(t')) && Continues(t, t')
    ensures OnlyMoved(Now(t), Now(t'), b) && Now(t').servers[b].phase.Follower?
  {
    hide IsRun;
    if Now(t).servers[b].phase.Follower? {
      t' := t;
    } else {
      RunDurable(n, t.states, t.actions, |t.states| - 1, b);
      ThenIsTrace(n, t, Restart(b));
      t' := Then(t, Restart(b));
    }
  }

  /** Failed elections of server `b` raise its term as far as one likes. */
  lemma {:induction false} RaiseTerm(n: nat, t: Trace, b: nat, goal: nat) returns (t': Trace)
    requires IsTrace(n, t) && Shaped(Now(t)) && b < |Now(t).servers| && Now(t).servers[b].phase.Follower?
    ensures IsTrace(n, t') && Shaped(Now(t')) && Continues(t, t')
    ensures OnlyMoved(Now(t), Now(t'), b) && Now(t').servers[b].phase.Follower?
    ensures Now(t').servers[b].currentTerm >= goal
    decreases if Now(t).servers[b].currentTerm < goal then goal - Now(t).servers[b].currentTerm else 0
  {
    hide IsRun, Shaped;
    if Now(t).servers[b].currentTerm >= goal {
      t' := t;
    } else {
      ThenIsTrace(n, t, Timeout(b));
      var t1 := Then(t, Timeout(b));
      ThenIsTrace(n, t1, StepDown(b));
      var t2 := Then(t1, StepDown(b));
      assert Continues(t, t2);
      t' := RaiseTerm(n, t2, b, goal);
      ContinuesOn(t, t2, t');
    }
  }

  /** Server `b` stands, with the votes of the members outside `rest`; those in `rest` are as in `c0`. */
  ghost predicate Standing(c0: Cluster, c: Cluster, q: set<nat>, b: nat, rest: set<nat>) {
    && Members(c0, q) && |c.servers| == |c0.servers| && b in q && b !in rest && rest <= q
    && c.servers[b].phase.Candidate? && c.servers[b].log == c0.servers[b].log
    && VoteRequest(BuildVoteArgs(c.servers[b], b)) in c.net
    && (forall v :: v in q ==> c.servers[v].log == c0.servers[v].log)
    && (forall v :: v in q && v !in rest ==> HasVote(c, b, v) && c.servers[v].currentTerm <= c.servers[b].currentTerm)
    && (forall v :: v in rest ==> c.servers[v].currentTerm < c.servers[b].currentTerm)
  }

  lemma OneVote(n: nat, t: Trace, c0: Cluster, q: set<nat>, b: nat, rest: set<nat>, v: nat) returns (t': Trace)
    requires IsTrace(n, t) && Shaped(Now(t)) && Standing(c0, Now(t), q, b, rest) && v in rest && EndsLast(c0, q, b)
    ensures IsTrace(n, t') && Shaped(Now(t')) && Continues(t, t') && Standing(c0, Now(t'), q, b, rest - {v})
  {
    hide IsRun, HandleVote, Shaped;
    var c := Now(t);
    var args := BuildVoteArgs(c.servers[b], b);
    var a := DeliverVote(v, VoteRequest(args));
    GrantedIff(c.servers[v], args);
    GrantedVote(c.servers[v], args);
    ThenIsTrace(n, t, a);
    t' := Then(t, a);
    var c' := Now(t');
    var (s', reply) := HandleVote(c.servers[v], args);
    assert c'.servers == c.servers[v := s'] && c.net <= c'.net;
    assert VoteAnswer(args.term, b, v, reply) in c'.net;
    forall w | w in q && w !in rest - {v}
      ensures HasVote(c', b, w) && c'.servers[w].currentTerm <= c'.servers[b].currentTerm
    {
      if w != v {
        VoteStays(c, c', b, w);
      }
    }
  }

  lemma VoteStays(c: Cluster, c': Cluster, b: nat, v: nat)
    requires b < |c.servers| == |c'.servers| && c.servers[b] == c'.servers[b] && c.net <= c'.net && HasVote(c, b, v)
    ensures HasVote(c', b, v)
  {
  }

  lemma {:induction false} AllVotes(n: nat, t: Trace, c0: Cluster, q: set<nat>, b: nat, rest: set<nat>)
    returns (t': Trace)
    requires IsTrace(n, t) && Shaped(Now(t)) && Standing(c0, Now(t), q, b, rest) && EndsLast(c0, q, b)
    ensures IsTrace(n, t') && Shaped(Now(t')) && Continues(t, t') && Standing(c0, Now(t'), q, b, {})
    decreases rest
  {
    hide IsRun, Standing, Shaped, EndsLast;
    if rest == {} {
      t' := t;
    } else {
      var v :| v in rest;
      var t1 := OneVote(n, t, c0, q, b, rest, v);
      t' := AllVotes(n, t1, c0, q, b, rest - {v});
      ContinuesOn(t, t1, t');
    }
  }

  lemma {:induction false} HighestTerm(c: Cluster, q: set<nat>) returns (goal: nat)
    requires Members(c, q)
    ensures forall v :: v in q ==> c.servers[v].currentTerm <= goal
    decreases |q|
  {
    if q == {} {
      goal := 0;
    } else {
      var v :| v in q;
      goal := HighestTerm(c, q - {v});
      assert forall w :: w in q ==> w == v || w in q - {v};
      goal := if goal >= c.servers[v].currentTerm then goal else c.servers[v].currentTerm;
    }
  }

  /** A quorum can always elect the member whose log ends last; no log changes on the way. */
  lemma Elect(n: nat, t: Trace, q: set<nat>, b: nat) returns (t': Trace)
    requires IsTrace(n, t) && Shaped(Now(t)) && EndsLast(Now(t), q, b) && |q| >= ElectionQuorum(|Now(t).servers|)
    ensures IsTrace(n, t') && Shaped(Now(t')) && Continues(t, t')
    ensures |Now(t').servers| == |Now(t).servers| && Now(t').servers[b].phase.Leader?
    ensures forall v :: v in q ==> Now(t').servers[v].log == Now(t).servers[v].log
                                   && Now(t').servers[v].currentTerm <= Now(t').servers[b].currentTerm
  {
    hide IsRun;
    var c0 := Now(t);
    var goal := HighestTerm(c0, q);
    var t1 := BecomeFollower(n, t, b);
    var t2 := RaiseTerm(n, t1, b, goal);
    ContinuesOn(t, t1, t2);
    ThenIsTrace(n, t2, Timeout(b));
    var t3 := Then(t2, Timeout(b));
    assert Standing(c0, Now(t3), q, b, q - {b});
    ContinuesOn(t, t2, t3);
    var t4 := AllVotes(n, t3, c0, q, b, q - {b});
    ContinuesOn(t, t3, t4);
    ThenIsTrace(n, t4, Elected(b, q));
    t' := Then(t4, Elected(b, q));
    ContinuesOn(t, t4, t');
  }

  /** From every state of every run any half of the servers can go on to elect one of its members. */
  lemma SomeoneCanWin(n: nat, states: seq<Cluster>, actions: seq<Action>, q: set<nat>) returns (t: Trace, b: nat)
    requires IsRun(n, states, actions) && n > 0
    requires (forall v :: v in q ==> v < n) && 2 * |q| >= n
    ensures IsRun(n, t.states, t.actions) && states <= t.states && actions <= t.actions
    ensures b in q && b < |Now(t).servers| && Now(t).servers[b].phase.Leader?
  {
    hide Shaped;
    var t0 := Trace(states, actions);
    RunSize(n, states, actions, |actions|);
    RunShaped(n, states, actions);
    b := SomeEndsLast(Now(t0), q);
    t := Elect(n, t0, q, b);
  }

  lemma RunShaped(n: nat, states: seq<Cluster>, actions: seq<Action>)
    requires IsRun(n, states, actions)
    ensures Shaped(states[|actions|])
  {
    if actions != [] {
      assert IsStep(states[|actions| - 1], actions[|actions| - 1], states[|actions|]);
    }
  }
}
