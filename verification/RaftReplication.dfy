/** The steps of a leader and its followers, and the assembly: every guarded step keeps `Safe`. */
module RaftReplication {
  import opened Collections
  import opened RaftServer
  import opened RaftCluster
  import opened RaftHistory
  import opened RaftBase
  import opened RaftCommit
  import opened RaftSafe
  import opened RaftSteps
  import opened RaftQuorum

  // ----- winning an election

  lemma NewReignVoter(n: nat, h: History, h': History, i: nat, t0: nat, v: nat)
    requires HistoryOK(n, h) && Extends(h, h') && NewAcksFrom(h, h', i, t0)
    requires BallotsKeep(h) && t0 !in h.reigns && (v, t0) in h.ballots
    ensures Kept(h', v, h'.ballots[(v, t0)].log, t0, t0 - 1)
  {
    hide HistoryOK;
    var log := h.ballots[(v, t0)].log;
    assert Kept(h, v, log, t0, t0);
    forall t: nat, k: nat | t < t0 && OwnEntry(h', t, k) && k < Acked(h', v, t)
      ensures Holds(log, t, k) || Overridden(h', t, k, t0 - 1)
    {
      AcceptedEntry(n, h, h', v, t, k);
      if !Holds(log, t, k) {
        assert Overridden(h, t, k, t0 - 1);
        OverriddenGrows(h, h', t, k, t0 - 1, t0 - 1);
      }
    }
  }

  lemma ReignBallots(n: nat, h: History, i: nat, s: Server, voters: set<nat>)
    requires HistoryOK(n, h) && ServerOK(n, h, i, s) && BallotsKeep(h) && VotersKeep(h)
    requires s.currentTerm !in h.reigns && Extends(h, RecordReign(h, i, s, voters))
    ensures BallotsKeep(RecordReign(h, i, s, voters)) && VotersKeep(RecordReign(h, i, s, voters))
  {
    hide HistoryOK, ServerOK, Kept, Extends;
    var h', t0 := RecordReign(h, i, s, voters), s.currentTerm;
    AcksAndBallots(n, h, i, s);
    OldBallotsKeep(n, h, h', i, t0);
    forall t, v | t in h'.reigns && v in h'.reigns[t].voters && (v, t) in h'.ballots
      ensures Kept(h', v, h'.ballots[(v, t)].log, t, t - 1)
    {
      if t == t0 {
        NewReignVoter(n, h, h', i, t0, v);
      }
    }
  }

  lemma ReignKeeps(n: nat, h: History, i: nat, s: Server, voters: set<nat>)
    requires HistoryOK(n, h) && ServerOK(n, h, i, s) && ServerSafe(n, h, i, s)
    requires s.currentTerm !in h.reigns && Extends(h, RecordReign(h, i, s, voters))
    requires s.currentTerm >= 1
    ensures ServerSafe(n, RecordReign(h, i, s, voters), i, InitLeader(s, n))
  {
    hide HistoryOK, Extends, ServerCommitted, Kept;
    var h', t0 := RecordReign(h, i, s, voters), s.currentTerm;
    KeptNarrow(h, i, s.log, t0 + 1, t0, t0);
    KeptGrows(n, h, h', i, s.log, t0, t0);
    OlderTerms(h, s.log, t0);
    KeptWiden(h', i, s.log, t0);
    ServerCommittedGrows(n, h, h', i, s, InitLeader(s, n));
  }

  /** The current term adds nothing to keep, or all of it is held. */
  lemma KeptWiden(h: History, i: nat, log: seq<LogEntry>, t0: nat)
    requires Kept(h, i, log, t0, t0)
    requires forall k: nat :: OwnEntry(h, t0, k) && k < Acked(h, i, t0) ==> Holds(log, t0, k)
    ensures Kept(h, i, log, t0 + 1, t0)
  {
  }

  lemma SafeElected(n: nat, c: Cluster, h: History, a: Action)
    requires Base(n, c, h) && Safe(n, c, h) && Shaped(c) && Enabled(c, a) && a.Elected? && ValidSize(n)
    ensures Safe(n, Effect(c, a), Record(c, h, a))
  {
    hide HistoryOK, ServerOK, MessageOK, Extends, Silent, BallotsKeep, VotersKeep, ServerSafe, CandidateOK;
    var i, s, c' := a.i, c.servers[a.i], Effect(c, a);
    var h' := RecordReign(h, i, s, a.voters);
    TermIsFree(n, c, h, i, a.voters);
    ElectedFacts(n, c, h, i, a.voters);
    ReignHistory(n, h, i, s, a.voters);
    ReignBallots(n, h, i, s, a.voters);
    ReignKeeps(n, h, i, s, a.voters);
    AssembleSafe(n, c, h, i, c', h');
  }

  lemma ElectedFacts(n: nat, c: Cluster, h: History, i: nat, voters: set<nat>)
    requires Base(n, c, h) && Enabled(c, Elected(i, voters))
    ensures c.servers[i].currentTerm >= 1
    ensures forall v :: v in voters ==>
      var t := c.servers[i].currentTerm; v < n && (v, t) in h.ballots && h.ballots[(v, t)].candidate == i
  {
    var t := c.servers[i].currentTerm;
    forall v | v in voters
      ensures v < n && (v, t) in h.ballots && h.ballots[(v, t)].candidate == i
    {
      VoteIsRecorded(n, c, h, i, v);
    }
    VoteIsRecorded(n, c, h, i, i);
    assert BallotOK(n, h, i, t);
  }

  // ----- a new entry at the leader

  lemma LongerHolds(h: History, i: nat, log: seq<LogEntry>, log': seq<LogEntry>, below: nat, upTo: int)
    requires Kept(h, i, log, below, upTo) && log <= log'
    ensures Kept(h, i, log', below, upTo)
  {
  }

  lemma StartKeepsServer(n: nat, h: History, i: nat, s: Server, command: Command)
    requires HistoryOK(n, h) && ServerOK(n, h, i, s) && s.phase.Leader? && ServerSafe(n, h, i, s)
    requires Extends(h, RecordStart(h, i, s, command))
    ensures ServerSafe(n, RecordStart(h, i, s, command), i, Submit(s, command))
  {
    hide HistoryOK, Extends, ServerCommitted, Kept, GoodLog, VotingOK;
    var h', s', t0 := RecordStart(h, i, s, command), Submit(s, command), s.currentTerm;
    KeptNarrow(h, i, s.log, t0 + 1, t0, t0);
    KeptGrows(n, h, h', i, s.log, t0, t0);
    LongerHolds(h', i, s.log, s'.log, t0, t0);
    KeptWiden(h', i, s'.log, t0);
    ServerCommittedGrows(n, h, h', i, s, s');
  }

  lemma SafeStart(n: nat, c: Cluster, h: History, a: Action)
    requires Base(n, c, h) && Safe(n, c, h) && Shaped(c) && Enabled(c, a) && a.Start?
    ensures Safe(n, Effect(c, a), Record(c, h, a))
  {
    hide HistoryOK, ServerOK, MessageOK, Extends, Silent, BallotsKeep, VotersKeep, ServerSafe;
    var i, s, c' := a.i, c.servers[a.i], Effect(c, a);
    var h' := RecordStart(h, i, s, a.command);
    LongerLogIsGood(n, h, i, s, a.command);
    StartReign(n, h, i, s, a.command);
    StartHistory(n, h, i, s, a.command);
    AcksAndBallots(n, h, i, s);
    assert h'.reigns.Keys == h.reigns.Keys;
    BallotInvariants(n, h, h', i, s.currentTerm);
    StartKeepsServer(n, h, i, s, a.command);
    AssembleSafe(n, c, h, i, c', h');
  }

  // ----- heartbeats

  lemma BeatCommitted(n: nat, h: History, i: nat, s: Server, p: nat)
    requires HistoryOK(n, h) && ServerOK(n, h, i, s) && s.phase.Leader? && ServerSafe(n, h, i, s)
    requires p < n && p != i && |s.nextIndex| == n && s.nextIndex[p] >= 1
    requires Extends(h, RecordBeat(h, s))
    ensures AppendCommitted(n, RecordBeat(h, s), Append(p, s.beat + 1, BuildAppendArgs(s, i, p)))
  {
    hide HistoryOK, Extends, Kept, GoodLog, VotingOK, Covers;
    var h' := RecordBeat(h, s);
    assert Committed(n, h, s.log, s.commitIndex, s.currentTerm);
    CommittedGrows(n, h, h', s.log, s.log, s.commitIndex, s.currentTerm);
  }

  lemma SafeHeartbeat(n: nat, c: Cluster, h: History, a: Action)
    requires Base(n, c, h) && Safe(n, c, h) && Shaped(c) && Enabled(c, a) && a.Heartbeat?
    ensures Safe(n, Effect(c, a), Record(c, h, a))
  {
    hide HistoryOK, ServerOK, MessageOK, Extends, Silent, BallotsKeep, VotersKeep, ServerSafe,
      BuildAppendArgs, AppendCommitted;
    var i, s, c' := a.i, c.servers[a.i], Effect(c, a);
    var h' := RecordBeat(h, s);
    BeatHistory(n, h, i, s);
    AcksAndBallots(n, h, i, s);
    BallotInvariants(n, h, h', i, s.currentTerm);
    ServerSafeLater(n, h, h', i, s, SendBeat(s));
    forall m | m in c'.net && m !in c.net
      ensures AppendCommitted(n, h', m)
    {
      var p :| 0 <= p < n && p != i && m == Append(p, s.beat + 1, BuildAppendArgs(s, i, p));
      BeatCommitted(n, h, i, s, p);
    }
    AssembleSafe(n, c, h, i, c', h');
  }

  // ----- a follower accepts

  /** The log a follower accepts from the leader of `t0` holds all it must, or that leader overrode it. */
  lemma AcceptedKeeps(n: nat, h: History, h': History, i: nat, m: Message, log': seq<LogEntry>)
    requires HistoryOK(n, h') && m.Append? && AppendOK(n, h', m)
    requires log' == h'.reigns[m.append.term].log[..SentLength(m)]
    requires Acked(h', i, m.append.term) <= SentLength(m)
    ensures Kept(h', i, log', m.append.term + 1, m.append.term)
  {
    var t0 := m.append.term;
    var r := h'.reigns[t0];
    assert ReignOK(n, h', t0);
    assert BeatOK(h', t0, m.beat);
    forall t: nat, k: nat | t < t0 + 1 && OwnEntry(h', t, k) && k < Acked(h', i, t)
      ensures Holds(log', t, k) || Overridden(h', t, k, t0)
    {
      if t < t0 && Holds(r.base, t, k) {
        assert log'[k] == r.base[k];
      }
    }
  }

  lemma SentLengthBounds(n: nat, h: History, m: Message)
    requires HistoryOK(n, h) && m.Append? && AppendOK(n, h, m)
    ensures m.append.term in h.reigns
    ensures |h.reigns[m.append.term].base| <= SentLength(m) <= |h.reigns[m.append.term].log|
  {
    assert BeatOK(h, m.append.term, m.beat);
  }

  lemma CertifiedInside(n: nat, h: History, t: nat, i: nat)
    requires Certified(n, h, t, i)
    ensures t in h.reigns && i < |h.reigns[t].log|
  {
  }

  /** What a follower had committed is a prefix of what the leader of `t0` sends it. */
  lemma CommittedSurvives(n: nat, h: History, i: nat, s: Server, m: Message)
    requires HistoryOK(n, h) && VotersKeep(h) && ServerCommitted(n, h, i, s)
    requires m.Append? && AppendOK(n, h, m) && s.currentTerm <= m.append.term
    requires Acked(h, i, m.append.term) <= SentLength(m)
    ensures s.commitIndex < SentLength(m)
    ensures s.commitIndex > 0 ==>
              s.commitIndex < |s.log|
              && s.log[..s.commitIndex + 1] == h.reigns[m.append.term].log[..s.commitIndex + 1]
  {
    hide VotersKeep, HistoryOK, Certified, AppendOK;
    var t0, c := m.append.term, s.commitIndex;
    if c > 0 {
      var t: nat, k: nat :| Covers(n, h, s.log, c, s.currentTerm, t, k)
                            && (t < s.currentTerm || Acked(h, i, t) > c);
      SentLengthBounds(n, h, m);
      if t < t0 {
        CertifiedInLater(n, h, t, k, t0);
        assert k < |h.reigns[t].log| by { CertifiedInside(n, h, t, k); }
        assert h.reigns[t0].log[..k + 1][..c + 1] == h.reigns[t0].log[..c + 1];
        assert h.reigns[t].log[..k + 1][..c + 1] == h.reigns[t].log[..c + 1];
      }
    }
  }

  lemma CommitAfterAppend(n: nat, h: History, h': History, i: nat, s: Server, m: Message)
    requires HistoryOK(n, h) && VotersKeep(h) && ServerCommitted(n, h, i, s) && GoodLog(h, s.log)
    requires m.Append? && AppendOK(n, h, m) && AppendCommitted(n, h, m) && Extends(h, h')
    requires Acked(h, i, m.append.term) <= SentLength(m)
    requires Acked(h', i, m.append.term) == SentLength(m)
    requires s.currentTerm <= m.append.term && Accepts(s.log, m.append)
    ensures ServerCommitted(n, h', i, HandleAppend(s, m.append).0)
  {
    hide HistoryOK, VotersKeep, GoodLog, Covers, Extends;
    var t0, log, s' := m.append.term, h.reigns[m.append.term].log, HandleAppend(s, m.append).0;
    AcceptedLog(n, h, s.log, m);
    CommittedSurvives(n, h, i, s, m);
    if s'.commitIndex > s.commitIndex {
      var c := s'.commitIndex;
      var t: nat, k: nat :| Covers(n, h, log, c, t0, t, k);
      assert s'.log[..c + 1] == log[..c + 1];
      CoversGrows(n, h, h', log, s'.log, c, t0, t0, t, k);
      CoversTerm(n, h, log, c, t0, t, k);
    } else if s.commitIndex > 0 {
      var c := s.commitIndex;
      var t: nat, k: nat :| Covers(n, h, s.log, c, s.currentTerm, t, k)
                            && (t < s.currentTerm || Acked(h, i, t) > c);
      assert s'.log[..c + 1] == log[..c + 1];
      CoversGrows(n, h, h', s.log, s'.log, c, s.currentTerm, t0, t, k);
      AckedGrows(h, h', i, t);
    }
  }

  lemma CoversTerm(n: nat, h: History, log: seq<LogEntry>, c: nat, term: nat, t: nat, i: nat)
    requires Covers(n, h, log, c, term, t, i)
    ensures t <= term
  {
  }

  lemma OutputAfterAppend(n: nat, h: History, i: nat, s: Server, m: Message)
    requires HistoryOK(n, h) && VotersKeep(h) && ServerCommitted(n, h, i, s) && GoodLog(h, s.log) && OutputOK(s)
    requires m.Append? && AppendOK(n, h, m) && Acked(h, i, m.append.term) <= SentLength(m)
    requires s.currentTerm <= m.append.term && Accepts(s.log, m.append)
    ensures OutputOK(HandleAppend(s, m.append).0)
  {
    hide HistoryOK, VotersKeep, GoodLog, ServerCommitted;
    var log, s' := h.reigns[m.append.term].log, HandleAppend(s, m.append).0;
    AcceptedLog(n, h, s.log, m);
    CommittedSurvives(n, h, i, s, m);
    forall k | 0 <= k < |s'.output|
      ensures s'.output[k] == ApplyMsg(k + 1, s'.log[k + 1].data)
    {
      assert s.log[k + 1] == s.log[..s.commitIndex + 1][k + 1] == log[..s.commitIndex + 1][k + 1];
    }
  }

  lemma AckKeepsServer(n: nat, h: History, i: nat, s: Server, m: Message)
    requires HistoryOK(n, h) && VotersKeep(h) && ServerOK(n, h, i, s) && ServerSafe(n, h, i, s)
    requires m.Append? && AppendOK(n, h, m) && AppendCommitted(n, h, m) && m.to == i
    requires HandleAppend(s, m.append).1.success ==> Acked(h, i, m.append.term) <= SentLength(m)
    ensures ServerSafe(n, RecordAck(h, i, s, m), i, HandleAppend(s, m.append).0)
  {
    hide HistoryOK, VotersKeep, GoodLog, Kept, ServerCommitted, OutputOK, Extends, Silent, AppendCommitted;
    var h', s' := RecordAck(h, i, s, m), HandleAppend(s, m.append).0;
    AckHistory(n, h, i, s, m);
    if HandleAppend(s, m.append).1.success {
      AcceptedLog(n, h, s.log, m);
      AppendOKGrows(n, h, h', m);
      AcceptedKeeps(n, h, h', i, m, s'.log);
      CommitAfterAppend(n, h, h', i, s, m);
      OutputAfterAppend(n, h, i, s, m);
    } else {
      SelfExtends(h);
      AcksAndBallots(n, h, i, s);
      OutputOKSame(s, s');
      ServerSafeLater(n, h, h, i, s, s');
    }
  }

  lemma OutputOKSame(s: Server, s': Server)
    requires OutputOK(s) && SameLogState(s, s')
    ensures OutputOK(s')
  {
  }

  lemma AppendOKGrows(n: nat, h: History, h': History, m: Message)
    requires Extends(h, h') && m.Append? && AppendOK(n, h, m)
    ensures AppendOK(n, h', m)
    ensures h'.reigns[m.append.term].log[..SentLength(m)] == h.reigns[m.append.term].log[..SentLength(m)]
  {
    MessageExtends(n, h, h', m);
    assert ReignExtends(h.reigns[m.append.term], h'.reigns[m.append.term]);
  }

  lemma DeliveredIsOK(n: nat, c: Cluster, h: History, a: Action)
    requires Base(n, c, h) && Enabled(c, a) && a.DeliverAppend?
    ensures AppendOK(n, h, a.m)
  {
    assert MessageOK(n, h, a.m);
  }

  /** What is accepted is no shorter than what the follower accepted from that leader before. */
  ghost predicate LongEnough(c: Cluster, h: History, a: Action) {
    Accepting(c, a) ==> Acked(h, a.i, a.m.append.term) <= SentLength(a.m)
  }

  lemma SafeDeliverAppend(n: nat, c: Cluster, h: History, a: Action)
    requires Base(n, c, h) && Safe(n, c, h) && Shaped(c) && Enabled(c, a) && a.DeliverAppend? && LongEnough(c, h, a)
    ensures Safe(n, Effect(c, a), Record(c, h, a))
  {
    hide HistoryOK, ServerOK, MessageOK, Extends, Silent, BallotsKeep, VotersKeep, ServerSafe,
      HandleAppend, AppendOK, Max;
    var i, s, m, c' := a.i, c.servers[a.i], a.m, Effect(c, a);
    var h' := RecordAck(h, i, s, m);
    DeliveredIsOK(n, c, h, a);
    AckHistory(n, h, i, s, m);
    AckBallots(n, h, i, s, m);
    AckKeepsServer(n, h, i, s, m);
    AssembleSafe(n, c, h, i, c', h');
  }

  lemma AckBallots(n: nat, h: History, i: nat, s: Server, m: Message)
    requires HistoryOK(n, h) && ServerOK(n, h, i, s) && BallotsKeep(h) && VotersKeep(h) && m.Append?
    requires Extends(h, RecordAck(h, i, s, m))
    ensures BallotsKeep(RecordAck(h, i, s, m)) && VotersKeep(RecordAck(h, i, s, m))
  {
    hide HistoryOK, ServerOK, BallotsKeep, VotersKeep, Extends;
    AcksAndBallots(n, h, i, s);
    BallotInvariants(n, h, RecordAck(h, i, s, m), i, Max(m.append.term, s.currentTerm));
  }

  // ----- the leader commits

  /** An index the sorted array lets the leader commit is accepted by a strict majority. */
  lemma NewCommitCertified(n: nat, h: History, i: nat, s: Server, k: nat)
    requires ServerOK(n, h, i, s) && s.phase.Leader? && i < n && n >= 2
    requires HistoryOK(n, h)
    requires 0 < k <= CommitCandidate(s.matchIndex, i) && k < |s.log| && s.log[k].term == s.currentTerm
    ensures Certified(n, h, s.currentTerm, k)
  {
    var t, v := s.currentTerm, CommitCandidate(s.matchIndex, i);
    CommitCandidateIsGreatest(s.matchIndex, i);
    assert ReignOK(n, h, t);
    forall q | q in Supporters(s.matchIndex, i, v)
      ensures q in Ackers(n, h, t, k)
    {
    }
    SubsetSize(Supporters(s.matchIndex, i, v), Ackers(n, h, t, k));
  }

  lemma CollectKeepsServer(n: nat, c: Cluster, h: History, i: nat, replies: seq<AppendReply>)
    requires Base(n, c, h) && Shaped(c) && Enabled(c, Collect(i, replies))
    requires ServerSafe(n, h, i, c.servers[i])
    ensures ServerSafe(n, h, i, CollectBeat(c.servers[i], i, replies))
  {
    hide HistoryOK, MessageOK, ServerOK, Kept, Extends, ServerCommitted, CommitCandidate, NewNext;
    var s := c.servers[i];
    var s' := CollectBeat(s, i, replies);
    CollectServer(n, c, h, i, replies);
    var maxCommit := Min(CommitCandidate(s'.matchIndex, i), |s.log| - 1);
    ScanCommitIsGreatest(s.log, s.currentTerm, maxCommit, s.commitIndex);
    if s'.commitIndex != s.commitIndex {
      NewCommitCertified(n, h, i, s', s'.commitIndex);
      CertifiedCommits(n, h, i, s');
    } else {
      SelfExtends(h);
      ServerCommittedGrows(n, h, h, i, s, s');
    }
  }

  lemma CertifiedCommits(n: nat, h: History, i: nat, s: Server)
    requires ServerOK(n, h, i, s) && s.phase.Leader? && HistoryOK(n, h)
    requires Certified(n, h, s.currentTerm, s.commitIndex)
    ensures ServerCommitted(n, h, i, s)
  {
    assert ReignOK(n, h, s.currentTerm);
    assert Covers(n, h, s.log, s.commitIndex, s.currentTerm, s.currentTerm, s.commitIndex);
  }

  lemma SafeCollect(n: nat, c: Cluster, h: History, a: Action)
    requires Base(n, c, h) && Safe(n, c, h) && Shaped(c) && Enabled(c, a) && a.Collect?
    ensures Safe(n, Effect(c, a), h)
  {
    hide HistoryOK, ServerOK, MessageOK, BallotsKeep, VotersKeep, ServerSafe, CollectBeat;
    CollectKeepsServer(n, c, h, a.i, a.replies);
    AssembleSafe(n, c, h, a.i, Effect(c, a), h);
  }

  // ----- all together

  lemma SafeKept(n: nat, c: Cluster, h: History, a: Action)
    requires Base(n, c, h) && Safe(n, c, h) && Shaped(c) && Enabled(c, a) && LongEnough(c, h, a) && ValidSize(n)
    ensures Safe(n, Effect(c, a), Record(c, h, a))
  {
    hide Base, Safe;
    match a
    case Timeout(_) => SafeTimeout(n, c, h, a);
    case DeliverVote(_, _) => SafeDeliverVote(n, c, h, a);
    case Elected(_, _) => SafeElected(n, c, h, a);
    case Start(_, _) => SafeStart(n, c, h, a);
    case Heartbeat(_) => SafeHeartbeat(n, c, h, a);
    case DeliverAppend(_, _) => SafeDeliverAppend(n, c, h, a);
    case Collect(_, _) => SafeCollect(n, c, h, a);
    case Apply(_) => SafeApply(n, c, h, a);
    case Restart(_) => SafeRestart(n, c, h, a);
    case _ => SafeQuiet(n, c, h, a);
  }

  lemma SafeInit(n: nat)
    ensures Safe(n, Init(n), NO_HISTORY)
  {
  }
}
