/** One lemma per action: a guarded step keeps `Safe`. */
module RaftSteps {
  import opened RaftServer
  import opened RaftCluster
  import opened RaftHistory
  import opened RaftBase
  import opened RaftCommit
  import opened RaftSafe

  // ----- steps that leave the log and the commit index alone

  ghost predicate NoNewAcks(h: History, h': History) {
    forall w: nat, t: nat :: Acked(h', w, t) == Acked(h, w, t)
  }

  predicate SameLogState(s: Server, s': Server) {
    && s'.log == s.log
    && s'.commitIndex == s.commitIndex
    && s'.lastApplied == s.lastApplied
    && s'.output == s.output
    && s'.currentTerm >= s.currentTerm
  }

  /** Moving on to a later term keeps what was kept. */
  lemma KeptLater(n: nat, h: History, h': History, i: nat, log: seq<LogEntry>, term: nat, term': nat)
    requires HistoryOK(n, h) && Extends(h, h') && NoNewAcks(h, h') && term <= term'
    requires forall t :: (i, t) in h.acked ==> t <= term
    requires Kept(h, i, log, term + 1, term)
    ensures Kept(h', i, log, term' + 1, term')
  {
    hide HistoryOK;
    forall t: nat, k: nat | t < term' + 1 && OwnEntry(h', t, k) && k < Acked(h', i, t)
      ensures Holds(log, t, k) || Overridden(h', t, k, term')
    {
      AcceptedEntry(n, h, h', i, t, k);
      if !Holds(log, t, k) {
        OverriddenGrows(h, h', t, k, term, term');
      }
    }
  }

  lemma ServerSafeLater(n: nat, h: History, h': History, i: nat, s: Server, s': Server)
    requires HistoryOK(n, h) && Extends(h, h') && NoNewAcks(h, h')
    requires forall t :: (i, t) in h.acked ==> t <= s.currentTerm
    requires ServerSafe(n, h, i, s) && SameLogState(s, s')
    ensures ServerSafe(n, h', i, s')
  {
    hide HistoryOK, Extends, Kept, ServerCommitted, NoNewAcks;
    KeptLater(n, h, h', i, s.log, s.currentTerm, s'.currentTerm);
    ServerCommittedGrows(n, h, h', i, s, s');
  }

  /** A ballot that was not there before belongs to no reign. */
  lemma NewBallotKeeps(n: nat, h: History, h': History, i: nat, t0: nat)
    requires HistoryOK(n, h) && Extends(h, h') && NoNewAcks(h, h')
    requires BallotsKeep(h) && VotersKeep(h)
    requires h'.reigns == h.reigns
    requires h'.ballots.Keys == h.ballots.Keys + {(i, t0)}
    requires forall t :: (i, t) in h.ballots ==> t <= t0
    requires Kept(h', i, h'.ballots[(i, t0)].log, t0, t0)
    ensures BallotsKeep(h') && VotersKeep(h')
  {
    hide HistoryOK, Kept;
    assert NewAcksFrom(h, h', i, t0);
    OldBallotsKeep(n, h, h', i, t0);
    forall v, t | (v, t) in h'.ballots
      ensures Kept(h', v, h'.ballots[(v, t)].log, t, t)
    {
    }
    forall t, v | t in h'.reigns && v in h'.reigns[t].voters && (v, t) in h'.ballots
      ensures Kept(h', v, h'.ballots[(v, t)].log, t, t - 1)
    {
      VoterHasBallot(n, h, t, v);
    }
  }

  lemma VoterHasBallot(n: nat, h: History, t: nat, v: nat)
    requires HistoryOK(n, h) && t in h.reigns && v in h.reigns[t].voters
    ensures (v, t) in h.ballots
  {
    assert ReignOK(n, h, t);
    assert VoterOK(n, h, t, v);
  }

  lemma KeptNarrow(h: History, who: nat, log: seq<LogEntry>, below: nat, below': nat, upTo: int)
    requires Kept(h, who, log, below, upTo) && below' <= below
    ensures Kept(h, who, log, below', upTo)
  {
  }

  lemma AcksAndBallots(n: nat, h: History, i: nat, s: Server)
    requires ServerOK(n, h, i, s)
    ensures forall t :: (i, t) in h.acked ==> t <= s.currentTerm
    ensures forall t :: (i, t) in h.ballots ==> t <= s.currentTerm
  {
  }

  lemma BidKeeps(n: nat, h: History, i: nat, s: Server)
    requires HistoryOK(n, h) && ServerOK(n, h, i, s) && i < n
    requires BallotsKeep(h) && VotersKeep(h) && ServerSafe(n, h, i, s)
    ensures BallotsKeep(RecordBid(h, i, s)) && VotersKeep(RecordBid(h, i, s))
    ensures ServerSafe(n, RecordBid(h, i, s), i, CallElection(s, i))
  {
    hide HistoryOK, ServerOK, Extends, Kept, BallotsKeep, VotersKeep, ServerCommitted, OutputOK;
    var h', t0 := RecordBid(h, i, s), s.currentTerm + 1;
    BidHistory(n, h, i, s);
    AcksAndBallots(n, h, i, s);
    assert NoNewAcks(h, h');
    ServerSafeLater(n, h, h', i, s, CallElection(s, i));
    KeptNarrow(h', i, s.log, t0 + 1, t0, t0);
    NewBallotKeeps(n, h, h', i, t0);
  }

  lemma GrantKeeps(n: nat, h: History, i: nat, s: Server, v: VoteArgs)
    requires HistoryOK(n, h) && ServerOK(n, h, i, s) && i < n && MessageOK(n, h, VoteRequest(v))
    requires BallotsKeep(h) && VotersKeep(h) && ServerSafe(n, h, i, s)
    ensures BallotsKeep(RecordBallot(h, i, s, v)) && VotersKeep(RecordBallot(h, i, s, v))
    ensures ServerSafe(n, RecordBallot(h, i, s, v), i, HandleVote(s, v).0)
  {
    hide HistoryOK, ServerOK, Extends, MessageOK, Kept, BallotsKeep, VotersKeep, ServerCommitted, OutputOK, UpToDate;
    var h' := RecordBallot(h, i, s, v);
    BallotHistory(n, h, i, s, v);
    AcksAndBallots(n, h, i, s);
    assert NoNewAcks(h, h');
    ServerSafeLater(n, h, h', i, s, HandleVote(s, v).0);
    if h' != h {
      KeptNarrow(h', i, s.log, v.term + 1, v.term, v.term);
      NewBallotKeeps(n, h, h', i, v.term);
    }
  }

  lemma SafeTimeout(n: nat, c: Cluster, h: History, a: Action)
    requires Base(n, c, h) && Safe(n, c, h) && Shaped(c) && Enabled(c, a) && a.Timeout?
    ensures Safe(n, Effect(c, a), Record(c, h, a))
  {
    hide HistoryOK, ServerOK, MessageOK, Extends, Silent, BallotsKeep, VotersKeep, ServerSafe;
    var i, s, h', c' := a.i, c.servers[a.i], RecordBid(h, a.i, c.servers[a.i]), Effect(c, a);
    BidHistory(n, h, i, s);
    BidKeeps(n, h, i, s);
    AssembleSafe(n, c, h, i, c', h');
  }

  lemma SafeDeliverVote(n: nat, c: Cluster, h: History, a: Action)
    requires Base(n, c, h) && Safe(n, c, h) && Shaped(c) && Enabled(c, a) && a.DeliverVote?
    ensures Safe(n, Effect(c, a), Record(c, h, a))
  {
    hide HistoryOK, ServerOK, MessageOK, Extends, Silent, BallotsKeep, VotersKeep, ServerSafe, HandleVote;
    var i, s, v, c' := a.i, c.servers[a.i], a.m.vote, Effect(c, a);
    var h' := RecordBallot(h, i, s, v);
    BallotHistory(n, h, i, s, v);
    GrantKeeps(n, h, i, s, v);
    AssembleSafe(n, c, h, i, c', h');
  }

  lemma SafeQuiet(n: nat, c: Cluster, h: History, a: Action)
    requires Base(n, c, h) && Safe(n, c, h) && Shaped(c) && Enabled(c, a)
    requires a.StepDown? || a.VoteReturns? || a.AppendReturns? || a.Kill?
    ensures Safe(n, Effect(c, a), h)
  {
    hide HistoryOK, ServerOK, MessageOK, BallotsKeep, VotersKeep, ServerSafe;
    var i, s, c' := a.i, c.servers[a.i], Effect(c, a);
    AcksAndBallots(n, h, i, s);
    ServerSafeLater(n, h, h, i, s, c'.servers[i]);
    AssembleSafe(n, c, h, i, c', h);
  }

  // ----- restarting and applying

  lemma SafeRestart(n: nat, c: Cluster, h: History, a: Action)
    requires Base(n, c, h) && Safe(n, c, h) && Shaped(c) && Enabled(c, a) && a.Restart?
    ensures Safe(n, Effect(c, a), h)
  {
    hide HistoryOK, MessageOK, BallotsKeep, VotersKeep, Kept;
    var i, s, c' := a.i, c.servers[a.i], Effect(c, a);
    assert ServerOK(n, h, i, s);
    assert ServerSafe(n, h, i, c'.servers[i]);
    AssembleSafe(n, c, h, i, c', h);
  }

  lemma ApplyServer(n: nat, h: History, i: nat, s: Server)
    requires ServerSafe(n, h, i, s)
    ensures ServerSafe(n, h, i, ApplyEntries(s))
  {
    hide Kept, Extends;
    ServerCommittedGrows(n, h, h, i, s, ApplyEntries(s)) by { SelfExtends(h); }
  }

  lemma SelfExtends(h: History)
    ensures Extends(h, h)
  {
  }

  lemma SafeApply(n: nat, c: Cluster, h: History, a: Action)
    requires Base(n, c, h) && Safe(n, c, h) && Shaped(c) && Enabled(c, a) && a.Apply?
    ensures Safe(n, Effect(c, a), h)
  {
    hide HistoryOK, ServerOK, MessageOK, BallotsKeep, VotersKeep, ServerSafe;
    var i, s, c' := a.i, c.servers[a.i], Effect(c, a);
    ApplyServer(n, h, i, s);
    AssembleSafe(n, c, h, i, c', h);
  }
}
