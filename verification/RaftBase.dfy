/**
 Every step of a cluster keeps the invariant `Base`, whatever the order in
 which messages arrive. This is where one leader per term and log matching
 come from.
 */
module RaftBase {
  import opened Collections
  import opened RaftServer
  import opened RaftCluster
  import opened RaftHistory

  // ----- facts about good logs and quorums

  lemma LogsMatch(h: History, a: seq<LogEntry>, b: seq<LogEntry>, i: nat)
    requires GoodLog(h, a) && GoodLog(h, b)
    requires i < |a| && i < |b| && a[i].term == b[i].term
    ensures a[..i + 1] == b[..i + 1]
  {
    if i > 0 {
      assert Rooted(h, a, i) && Rooted(h, b, i);
    }
  }

  lemma PrefixIsGood(h: History, log: seq<LogEntry>, k: nat)
    requires GoodLog(h, log) && 1 <= k <= |log|
    ensures GoodLog(h, log[..k])
  {
    forall i | 1 <= i < k
      ensures Rooted(h, log[..k], i)
    {
      assert Rooted(h, log, i);
      assert log[..k][..i + 1] == log[..i + 1];
    }
  }

  /** Two sets of servers that are together larger than the cluster share a member. */
  lemma QuorumsMeet(n: nat, a: set<nat>, b: set<nat>) returns (x: nat)
    requires forall x :: x in a ==> x < n
    requires forall x :: x in b ==> x < n
    requires |a| + |b| > n
    ensures x in a && x in b
  {
    RangeSize(n, a + b);
    assert |a + b| == |a| + |b| - |a * b|;
    x :| x in a * b;
  }

  /** Two quorums for one term voted for the same candidate. */
  lemma SameWinner(n: nat, h: History, t: nat, i: nat, voters: set<nat>)
    requires t in h.reigns && ReignOK(n, h, t) && ValidSize(n)
    requires |voters| >= ElectionQuorum(n)
    requires forall v :: v in voters ==> v < n && (v, t) in h.ballots && h.ballots[(v, t)].candidate == i
    ensures h.reigns[t].leader == i
  {
    forall v | v in h.reigns[t].voters
      ensures v < n
    {
      assert VoterOK(n, h, t, v);
    }
    var x := QuorumsMeet(n, voters, h.reigns[t].voters);
    assert VoterOK(n, h, t, x);
  }

  /** Election Safety at one step: a second winner of a term would need a second vote. */
  lemma TermIsFree(n: nat, c: Cluster, h: History, i: nat, voters: set<nat>)
    requires Base(n, c, h) && ValidSize(n)
    requires Enabled(c, Elected(i, voters))
    ensures c.servers[i].currentTerm !in h.reigns
  {
    var t := c.servers[i].currentTerm;
    assert ServerOK(n, h, i, c.servers[i]);
    forall v | v in voters
      ensures v < n && (v, t) in h.ballots && h.ballots[(v, t)].candidate == i
    {
      VoteIsRecorded(n, c, h, i, v);
    }
    if t in h.reigns {
      SameWinner(n, h, t, i, voters);
    }
  }

  lemma VoteIsRecorded(n: nat, c: Cluster, h: History, i: nat, v: nat)
    requires Base(n, c, h)
    requires i < n && v < n && c.servers[i].phase.Candidate? && HasVote(c, i, v)
    ensures (v, c.servers[i].currentTerm) in h.ballots
    ensures h.ballots[(v, c.servers[i].currentTerm)].candidate == i
  {
    assert ServerOK(n, h, i, c.servers[i]);
    if v != i {
      var m :| m in c.net && m.VoteAnswer? && m.round == c.servers[i].currentTerm
               && m.candidate == i && m.voter == v && m.voteReply.granted;
      assert MessageOK(n, h, m);
    }
  }

  // ----- how the history follows the actions

  function RecordBid(h: History, i: nat, s: Server): History {
    h.(bids := h.bids[(i, s.currentTerm + 1) := Bid(|s.log| - 1, LastTerm(s.log))],
       ballots := h.ballots[(i, s.currentTerm + 1) := Ballot(i, s.log)])
  }

  function RecordBallot(h: History, i: nat, s: Server, v: VoteArgs): History {
    if HandleVote(s, v).1.granted && (i, v.term) !in h.ballots then
      h.(ballots := h.ballots[(i, v.term) := Ballot(v.candidate, s.log)])
    else
      h
  }

  function RecordReign(h: History, i: nat, s: Server, voters: set<nat>): History {
    h.(reigns := h.reigns[s.currentTerm := Reign(i, s.log, s.log, voters)],
       acked := h.acked[(i, s.currentTerm) := |s.log|])
  }

  function RecordStart(h: History, i: nat, s: Server, command: Command): History {
    var t := s.currentTerm;
    if t in h.reigns then
      h.(reigns := h.reigns[t := h.reigns[t].(log := Submit(s, command).log)],
         acked := h.acked[(i, t) := |s.log| + 1])
    else
      h
  }

  function RecordBeat(h: History, s: Server): History {
    h.(beats := h.beats[(s.currentTerm, s.beat + 1) := |s.log|])
  }

  function Max(a: nat, b: nat): nat {
    if a >= b then a else b
  }

  function RecordAck(h: History, i: nat, s: Server, m: Message): History
    requires m.Append?
  {
    var t := m.append.term;
    if HandleAppend(s, m.append).1.success then
      h.(acked := h.acked[(i, t) := Max(Acked(h, i, t), SentLength(m))])
    else
      h
  }

  function Record(c: Cluster, h: History, a: Action): History
    requires Shaped(c) && Enabled(c, a)
  {
    var s := c.servers[a.i];
    match a
    case Timeout(i) => RecordBid(h, i, s)
    case DeliverVote(i, m) => RecordBallot(h, i, s, m.vote)
    case Elected(i, voters) => RecordReign(h, i, s, voters)
    case Start(i, command) => RecordStart(h, i, s, command)
    case Heartbeat(i) => RecordBeat(h, s)
    case DeliverAppend(i, m) => RecordAck(h, i, s, m)
    case _ => h
  }

  /** `HistoryOK` after a growth, given that what is new or changed is fine. */
  lemma HistoryGrows(n: nat, h: History, h': History)
    requires HistoryOK(n, h) && Extends(h, h')
    requires forall t :: t in h'.reigns && (t !in h.reigns || h'.reigns[t] != h.reigns[t]) ==> ReignOK(n, h', t)
    requires forall v, t :: (v, t) in h'.ballots && (v, t) !in h.ballots ==> BallotOK(n, h', v, t)
    requires forall t, b :: (t, b) in h'.beats && (t, b) !in h.beats ==> BeatOK(h', t, b)
    requires BeatsGrow(h'.beats)
    requires forall s, t :: (s, t) in h'.acked && ((s, t) !in h.acked || h'.acked[(s, t)] != h.acked[(s, t)]) ==>
                              AckOK(h', s, t)
    ensures HistoryOK(n, h')
  {
    forall s, t | (s, t) in h'.acked
      ensures AckOK(h', s, t)
    {
      if (s, t) in h.acked && h'.acked[(s, t)] == h.acked[(s, t)] {
        assert AckOK(h, s, t);
        assert ReignExtends(h.reigns[t], h'.reigns[t]);
      }
    }
    forall t | t in h'.reigns
      ensures ReignOK(n, h', t)
    {
      if t in h.reigns && h'.reigns[t] == h.reigns[t] {
        ReignKept(n, h, h', t);
      }
    }
    forall v, t | (v, t) in h'.ballots
      ensures BallotOK(n, h', v, t)
    {
      if (v, t) in h.ballots {
        assert BallotOK(n, h, v, t);
        GoodLogExtends(h, h', h.ballots[(v, t)].log);
      }
    }
    forall t, b | (t, b) in h'.beats
      ensures BeatOK(h', t, b)
    {
      if (t, b) in h.beats {
        assert BeatOK(h, t, b);
        assert ReignExtends(h.reigns[t], h'.reigns[t]);
      }
    }
  }

  lemma ReignKept(n: nat, h: History, h': History, t: nat)
    requires HistoryOK(n, h) && Extends(h, h')
    requires t in h.reigns && h'.reigns[t] == h.reigns[t]
    requires forall s :: (s, t) in h'.acked ==> AckOK(h', s, t)
    ensures ReignOK(n, h', t)
  {
    assert ReignOK(n, h, t);
    var r := h.reigns[t];
    GoodLogExtends(h, h', r.log);
    AckedGrows(h, h', r.leader, t);
    forall v | v in r.voters
      ensures VoterOK(n, h', t, v)
    {
      assert VoterOK(n, h, t, v);
    }
  }

  // ----- one group of lemmas per kind of step: the history, then the server, then the cluster

  lemma BidHistory(n: nat, h: History, i: nat, s: Server)
    requires HistoryOK(n, h) && ServerOK(n, h, i, s) && i < n
    ensures Extends(h, RecordBid(h, i, s)) && HistoryOK(n, RecordBid(h, i, s))
    ensures forall j :: j != i ==> Silent(h, RecordBid(h, i, s), j)
  {
    var h' := RecordBid(h, i, s);
    GoodLogExtends(h, h', s.log);
    assert BallotOK(n, h', i, s.currentTerm + 1);
    HistoryGrows(n, h, h');
  }

  lemma BidServer(n: nat, h: History, i: nat, s: Server)
    requires ServerOK(n, h, i, s) && i < n
    requires s.currentTerm + 1 in h.reigns ==> h.reigns[s.currentTerm + 1].leader != i
    ensures ServerOK(n, RecordBid(h, i, s), i, CallElection(s, i))
  {
    GoodLogExtends(h, RecordBid(h, i, s), s.log);
  }

  lemma BidMessage(n: nat, h: History, i: nat, s: Server)
    requires i < n
    ensures MessageOK(n, RecordBid(h, i, s), VoteRequest(BuildVoteArgs(CallElection(s, i), i)))
  {
  }

  lemma TimeoutKeeps(n: nat, c: Cluster, h: History, a: Action)
    requires Base(n, c, h) && Shaped(c) && Enabled(c, a) && a.Timeout?
    ensures Extends(h, Record(c, h, a)) && Base(n, Effect(c, a), Record(c, h, a))
  {
    hide ServerOK, HistoryOK, MessageOK, Extends, Silent, GoodLog, RecordBid, CallElection, BuildVoteArgs;
    var i, s := a.i, c.servers[a.i];
    if s.currentTerm + 1 in h.reigns {
      ReignLeaderReached(n, c, h, s.currentTerm + 1);
    }
    BidHistory(n, h, i, s);
    BidServer(n, h, i, s);
    BidMessage(n, h, i, s);
    Assemble(n, c, h, i, Effect(c, a), RecordBid(h, i, s));
  }

  /** A term's leader has reached that term. */
  lemma ReignLeaderReached(n: nat, c: Cluster, h: History, t: nat)
    requires Base(n, c, h) && t in h.reigns
    ensures h.reigns[t].leader < n && t <= c.servers[h.reigns[t].leader].currentTerm
  {
    assert ReignOK(n, h, t);
    var l := h.reigns[t].leader;
    assert (l, t) in h.acked;
    assert ServerOK(n, h, l, c.servers[l]);
  }

  lemma SyncKeeps(n: nat, h: History, id: nat, s: Server, term: nat)
    requires ServerOK(n, h, id, s)
    ensures ServerOK(n, h, id, TermSync(s, term))
  {
  }

  lemma BallotHistory(n: nat, h: History, i: nat, s: Server, v: VoteArgs)
    requires HistoryOK(n, h) && ServerOK(n, h, i, s) && i < n
    requires MessageOK(n, h, VoteRequest(v))
    ensures Extends(h, RecordBallot(h, i, s, v)) && HistoryOK(n, RecordBallot(h, i, s, v))
    ensures forall j :: j != i ==> Silent(h, RecordBallot(h, i, s, v), j)
  {
    hide ReignOK, BallotOK, BeatOK, AckOK, BeatsGrow, ServerOK, MessageOK, HandleVote, HistoryOK;
    var h' := RecordBallot(h, i, s, v);
    if h' != h {
      NewBallot(n, h, i, s, v);
      assert BeatsGrow(h'.beats) by { HistoryParts(n, h); }
      HistoryGrows(n, h, h');
    }
  }

  lemma NewBallot(n: nat, h: History, i: nat, s: Server, v: VoteArgs)
    requires ServerOK(n, h, i, s) && i < n && MessageOK(n, h, VoteRequest(v))
    requires HandleVote(s, v).1.granted && (i, v.term) !in h.ballots
    ensures BallotOK(n, RecordBallot(h, i, s, v), i, v.term)
  {
    GoodLogExtends(h, RecordBallot(h, i, s, v), s.log);
  }

  lemma HistoryParts(n: nat, h: History)
    requires HistoryOK(n, h)
    ensures BeatsGrow(h.beats)
  {
  }

  lemma BallotVoting(h: History, i: nat, s: Server, v: VoteArgs)
    requires VotingOK(h, i, s)
    ensures VotingOK(RecordBallot(h, i, s, v), i, HandleVote(s, v).0)
    ensures HandleVote(s, v).1.granted ==>
              (i, v.term) in RecordBallot(h, i, s, v).ballots
              && RecordBallot(h, i, s, v).ballots[(i, v.term)].candidate == v.candidate
  {
  }

  lemma BallotServer(n: nat, h: History, i: nat, s: Server, v: VoteArgs)
    requires ServerOK(n, h, i, s) && i < n && v.candidate != i
    ensures ServerOK(n, RecordBallot(h, i, s, v), i, HandleVote(s, v).0)
  {
    hide ServerOK, UpToDate, TermSync, Persist;
    SyncKeeps(n, h, i, s, v.term);
    if HandleVote(s, v).1.granted {
      GrantServer(n, h, i, s, v);
    }
  }

  lemma BallotExtends(h: History, i: nat, s: Server, v: VoteArgs)
    ensures Extends(h, RecordBallot(h, i, s, v))
    ensures RecordBallot(h, i, s, v) == h.(ballots := RecordBallot(h, i, s, v).ballots)
  {
    hide HandleVote;
  }

  lemma GrantServer(n: nat, h: History, i: nat, s: Server, v: VoteArgs)
    requires ServerOK(n, h, i, s) && i < n && v.candidate != i
    requires HandleVote(s, v).1.granted
    ensures ServerOK(n, RecordBallot(h, i, s, v), i, HandleVote(s, v).0)
  {
    hide GoodLog, TermsUpTo, LeaderOK, VotingOK, UpToDate, RecordBallot, Extends;
    var h', s' := RecordBallot(h, i, s, v), HandleVote(s, v).0;
    BallotExtends(h, i, s, v);
    GoodLogExtends(h, h', s.log);
    BallotVoting(h, i, s, v);
    TermsMonotone(s.log, s.currentTerm, s'.currentTerm);
    if s'.phase.Leader? {
      LeaderFrame(n, h, h', i, s, s');
    }
  }

  lemma TermsMonotone(log: seq<LogEntry>, t: nat, t': nat)
    requires TermsUpTo(log, t) && t <= t'
    ensures TermsUpTo(log, t')
  {
  }

  lemma ServerVoting(n: nat, h: History, i: nat, s: Server)
    requires ServerOK(n, h, i, s)
    ensures VotingOK(h, i, s)
  {
  }

  lemma DeliverVoteKeeps(n: nat, c: Cluster, h: History, a: Action)
    requires Base(n, c, h) && Shaped(c) && Enabled(c, a) && a.DeliverVote?
    ensures Extends(h, Record(c, h, a)) && Base(n, Effect(c, a), Record(c, h, a))
  {
    hide ServerOK, HistoryOK, Extends, Silent, GoodLog, HandleVote;
    var i, s, v := a.i, c.servers[a.i], a.m.vote;
    assert MessageOK(n, h, a.m);
    BallotHistory(n, h, i, s, v);
    BallotServer(n, h, i, s, v);
    ServerVoting(n, h, i, s);
    BallotVoting(h, i, s, v);
    Assemble(n, c, h, i, Effect(c, a), RecordBallot(h, i, s, v));
  }

  lemma FreeTermHasNothing(n: nat, h: History, t: nat)
    requires HistoryOK(n, h) && t !in h.reigns
    ensures forall b :: (t, b) !in h.beats
    ensures forall s :: (s, t) !in h.acked
  {
    assert forall b :: (t, b) in h.beats ==> BeatOK(h, t, b);
    assert forall s :: (s, t) in h.acked ==> AckOK(h, s, t);
  }

  /** A log of term at most `t` has no entry of term `t` when `t` has no leader yet. */
  lemma OlderTerms(h: History, log: seq<LogEntry>, t: nat)
    requires GoodLog(h, log) && TermsUpTo(log, t) && t !in h.reigns && t >= 1
    ensures forall k :: 0 <= k < |log| ==> log[k].term < t
  {
    forall k | 0 <= k < |log|
      ensures log[k].term < t
    {
      if k > 0 {
        assert Rooted(h, log, k);
      }
    }
  }

  lemma ReignHistory(n: nat, h: History, i: nat, s: Server, voters: set<nat>)
    requires HistoryOK(n, h) && ServerOK(n, h, i, s) && i < n
    requires s.phase.Candidate? && s.currentTerm !in h.reigns
    requires |voters| >= ElectionQuorum(n)
    requires forall v :: v in voters ==>
      v < n && (v, s.currentTerm) in h.ballots && h.ballots[(v, s.currentTerm)].candidate == i
    ensures Extends(h, RecordReign(h, i, s, voters)) && HistoryOK(n, RecordReign(h, i, s, voters))
    ensures forall j :: j != i ==> Silent(h, RecordReign(h, i, s, voters), j)
  {
    hide ReignOK, BallotOK, BeatOK, AckOK, BeatsGrow, ServerOK, HistoryOK;
    var h', t := RecordReign(h, i, s, voters), s.currentTerm;
    FreeTermHasNothing(n, h, t);
    NewReign(n, h, i, s, voters);
    HistoryParts(n, h);
    HistoryGrows(n, h, h');
  }

  lemma NewReign(n: nat, h: History, i: nat, s: Server, voters: set<nat>)
    requires HistoryOK(n, h) && ServerOK(n, h, i, s) && i < n
    requires s.phase.Candidate? && s.currentTerm !in h.reigns
    requires |voters| >= ElectionQuorum(n)
    requires forall v :: v in voters ==>
      v < n && (v, s.currentTerm) in h.ballots && h.ballots[(v, s.currentTerm)].candidate == i
    ensures ReignOK(n, RecordReign(h, i, s, voters), s.currentTerm)
    ensures AckOK(RecordReign(h, i, s, voters), i, s.currentTerm)
  {
    hide Rooted, Monotone;
    var h', t := RecordReign(h, i, s, voters), s.currentTerm;
    FreeTermHasNothing(n, h, t);
    GoodLogExtends(h, h', s.log);
    assert BallotOK(n, h, i, t);
    OlderTerms(h, s.log, t);
    forall v | v in voters
      ensures VoterOK(n, h', t, v)
    {
      assert BallotOK(n, h, v, t);
    }
  }

  lemma ReignServer(n: nat, h: History, i: nat, s: Server, voters: set<nat>)
    requires HistoryOK(n, h) && ServerOK(n, h, i, s) && s.currentTerm !in h.reigns
    ensures ServerOK(n, RecordReign(h, i, s, voters), i, InitLeader(s, n))
  {
    FreeTermHasNothing(n, h, s.currentTerm);
    assert Extends(h, RecordReign(h, i, s, voters));
    GoodLogExtends(h, RecordReign(h, i, s, voters), s.log);
  }

  lemma ElectedKeeps(n: nat, c: Cluster, h: History, a: Action)
    requires Base(n, c, h) && Shaped(c) && Enabled(c, a) && a.Elected? && ValidSize(n)
    ensures Extends(h, Record(c, h, a)) && Base(n, Effect(c, a), Record(c, h, a))
  {
    hide ServerOK, HistoryOK, Extends, Silent, GoodLog;
    var i, s := a.i, c.servers[a.i];
    TermIsFree(n, c, h, i, a.voters);
    forall v | v in a.voters
      ensures v < n && (v, s.currentTerm) in h.ballots && h.ballots[(v, s.currentTerm)].candidate == i
    {
      VoteIsRecorded(n, c, h, i, v);
    }
    ReignHistory(n, h, i, s, a.voters);
    ReignServer(n, h, i, s, a.voters);
    Assemble(n, c, h, i, Effect(c, a), RecordReign(h, i, s, a.voters));
  }

  lemma StartExtends(n: nat, h: History, i: nat, s: Server, command: Command)
    requires HistoryOK(n, h) && ServerOK(n, h, i, s) && s.phase.Leader?
    ensures Extends(h, RecordStart(h, i, s, command)) && s.currentTerm >= 1
  {
    hide GoodLog, VotingOK, BallotOK, BeatOK, BeatsGrow;
    assert ReignOK(n, h, s.currentTerm);
    assert Acked(h, i, s.currentTerm) == |s.log|;
  }

  /** The leader's log with one more entry of its own term is good. */
  lemma LongerLogIsGood(n: nat, h: History, i: nat, s: Server, command: Command)
    requires HistoryOK(n, h) && ServerOK(n, h, i, s) && s.phase.Leader?
    ensures Extends(h, RecordStart(h, i, s, command))
    ensures GoodLog(RecordStart(h, i, s, command), Submit(s, command).log)
  {
    hide Extends, VotingOK, HistoryOK;
    var h', log' := RecordStart(h, i, s, command), Submit(s, command).log;
    StartExtends(n, h, i, s, command);
    GoodLogExtends(h, h', s.log);
    forall k | 1 <= k < |log'|
      ensures Rooted(h', log', k)
    {
      if k < |s.log| {
        assert Rooted(h', s.log, k);
        assert log'[..k + 1] == s.log[..k + 1];
      }
    }
  }

  lemma LeaderReign(n: nat, h: History, i: nat, s: Server)
    requires HistoryOK(n, h) && ServerOK(n, h, i, s) && s.phase.Leader?
    ensures s.currentTerm in h.reigns && ReignOK(n, h, s.currentTerm)
    ensures h.reigns[s.currentTerm].leader == i && h.reigns[s.currentTerm].log == s.log
  {
  }

  lemma StartVoters(n: nat, h: History, i: nat, s: Server, command: Command)
    requires s.currentTerm in h.reigns && ReignOK(n, h, s.currentTerm)
    ensures forall v :: v in h.reigns[s.currentTerm].voters ==>
                          VoterOK(n, RecordStart(h, i, s, command), s.currentTerm, v)
  {
    hide GoodLog;
    forall v | v in h.reigns[s.currentTerm].voters
      ensures VoterOK(n, RecordStart(h, i, s, command), s.currentTerm, v)
    {
      assert VoterOK(n, h, s.currentTerm, v);
    }
  }

  lemma StartReign(n: nat, h: History, i: nat, s: Server, command: Command)
    requires HistoryOK(n, h) && ServerOK(n, h, i, s) && s.phase.Leader?
    ensures ReignOK(n, RecordStart(h, i, s, command), s.currentTerm)
    ensures AckOK(RecordStart(h, i, s, command), i, s.currentTerm)
    ensures s.currentTerm in h.reigns && h.reigns[s.currentTerm].leader == i
  {
    hide HistoryOK, ServerOK, GoodLog, VoterOK, Extends;
    LeaderReign(n, h, i, s);
    LongerLogIsGood(n, h, i, s, command);
    StartVoters(n, h, i, s, command);
    var r' := RecordStart(h, i, s, command).reigns[s.currentTerm];
    assert r'.base == r'.log[..|r'.base|];
    assert forall k :: |r'.base| <= k < |r'.log| ==> r'.log[k].term == s.currentTerm;
  }

  lemma StartHistory(n: nat, h: History, i: nat, s: Server, command: Command)
    requires HistoryOK(n, h) && ServerOK(n, h, i, s) && s.phase.Leader?
    ensures HistoryOK(n, RecordStart(h, i, s, command))
    ensures forall j :: j != i ==> Silent(h, RecordStart(h, i, s, command), j)
  {
    hide ReignOK, BallotOK, BeatOK, AckOK, BeatsGrow, ServerOK, HistoryOK;
    LongerLogIsGood(n, h, i, s, command);
    StartReign(n, h, i, s, command);
    HistoryParts(n, h);
    HistoryGrows(n, h, RecordStart(h, i, s, command));
  }

  lemma StartServer(n: nat, h: History, i: nat, s: Server, command: Command)
    requires HistoryOK(n, h) && ServerOK(n, h, i, s) && s.phase.Leader?
    ensures ServerOK(n, RecordStart(h, i, s, command), i, Submit(s, command))
  {
    var h' := RecordStart(h, i, s, command);
    LongerLogIsGood(n, h, i, s, command);
    forall f | 0 <= f < n && f != i && s.matchIndex[f] > 0
      ensures Acked(h', f, s.currentTerm) > s.matchIndex[f]
    {
      AckedGrows(h, h', f, s.currentTerm);
    }
  }

  lemma StartKeeps(n: nat, c: Cluster, h: History, a: Action)
    requires Base(n, c, h) && Shaped(c) && Enabled(c, a) && a.Start?
    ensures Extends(h, Record(c, h, a)) && Base(n, Effect(c, a), Record(c, h, a))
  {
    hide ServerOK, HistoryOK, Extends, Silent, GoodLog;
    var i, s := a.i, c.servers[a.i];
    LongerLogIsGood(n, h, i, s, a.command);
    StartHistory(n, h, i, s, a.command);
    StartServer(n, h, i, s, a.command);
    Assemble(n, c, h, i, Effect(c, a), RecordStart(h, i, s, a.command));
  }

  lemma GrowingBeats(n: nat, h: History, t: nat, b: nat, k: nat)
    requires HistoryOK(n, h)
    requires t in h.reigns && k == |h.reigns[t].log|
    requires forall b' :: (t, b') in h.beats ==> b' < b
    ensures BeatsGrow(h.beats[(t, b) := k])
  {
    forall b' | (t, b') in h.beats
      ensures h.beats[(t, b')] <= k
    {
      assert BeatOK(h, t, b');
    }
  }

  lemma NewBeat(n: nat, h: History, i: nat, s: Server)
    requires HistoryOK(n, h) && ServerOK(n, h, i, s) && s.phase.Leader?
    ensures Extends(h, RecordBeat(h, s)) && BeatOK(RecordBeat(h, s), s.currentTerm, s.beat + 1)
    ensures BeatsGrow(RecordBeat(h, s).beats)
    ensures forall j :: j != i ==> Silent(h, RecordBeat(h, s), j)
  {
    hide GoodLog, VotingOK, BallotOK, BeatsGrow;
    assert ReignOK(n, h, s.currentTerm);
    assert (s.currentTerm, s.beat + 1) !in h.beats;
    GrowingBeats(n, h, s.currentTerm, s.beat + 1, |s.log|);
  }

  lemma BeatHistory(n: nat, h: History, i: nat, s: Server)
    requires HistoryOK(n, h) && ServerOK(n, h, i, s) && s.phase.Leader?
    ensures Extends(h, RecordBeat(h, s)) && HistoryOK(n, RecordBeat(h, s))
    ensures forall j :: j != i ==> Silent(h, RecordBeat(h, s), j)
  {
    hide HistoryOK, ServerOK, Extends, Silent, BeatOK, BeatsGrow;
    NewBeat(n, h, i, s);
    HistoryGrows(n, h, RecordBeat(h, s));
  }

  lemma BeatServer(n: nat, h: History, i: nat, s: Server)
    requires ServerOK(n, h, i, s) && s.phase.Leader?
    ensures ServerOK(n, RecordBeat(h, s), i, SendBeat(s))
  {
    assert (s.currentTerm, s.beat + 1) !in h.beats;
    assert Extends(h, RecordBeat(h, s));
    GoodLogExtends(h, RecordBeat(h, s), s.log);
  }

  /** The message carries the leader's whole log, cut at `nextIndex`. */
  lemma BuiltMessage(n: nat, h: History, i: nat, s: Server, p: nat)
    requires ServerOK(n, h, i, s) && s.phase.Leader?
    requires p < n && p != i && |s.nextIndex| == n && s.nextIndex[p] >= 1
    ensures AppendOK(n, RecordBeat(h, s), Append(p, s.beat + 1, BuildAppendArgs(s, i, p)))
  {
  }

  lemma HeartbeatKeeps(n: nat, c: Cluster, h: History, a: Action)
    requires Base(n, c, h) && Shaped(c) && Enabled(c, a) && a.Heartbeat?
    ensures Extends(h, Record(c, h, a)) && Base(n, Effect(c, a), Record(c, h, a))
  {
    hide ServerOK, HistoryOK, Extends, Silent, GoodLog, RecordBeat, SendBeat, BuildAppendArgs, AppendOK;
    var i, s, h', c' := a.i, c.servers[a.i], RecordBeat(h, c.servers[a.i]), Effect(c, a);
    forall m | m in c'.net && m !in c.net
      ensures MessageOK(n, h', m)
    {
      var p :| 0 <= p < n && p != i && m == Append(p, s.beat + 1, BuildAppendArgs(s, i, p));
      BuiltMessage(n, h, i, s, p);
    }
    BeatHistory(n, h, i, s);
    BeatServer(n, h, i, s);
    Assemble(n, c, h, i, c', h');
  }

  /** A follower that accepts ends up with exactly the log the leader sent. */
  lemma AcceptedLog(n: nat, h: History, log: seq<LogEntry>, m: Message)
    requires HistoryOK(n, h) && GoodLog(h, log) && m.Append? && AppendOK(n, h, m)
    requires Accepts(log, m.append)
    ensures MergeLog(log, m.append.prevLogIndex, m.append.entries) == h.reigns[m.append.term].log[..SentLength(m)]
  {
    var a, r := m.append, h.reigns[m.append.term];
    assert ReignOK(n, h, a.term);
    LogsMatch(h, log, r.log, a.prevLogIndex);
    assert r.log[..SentLength(m)] == r.log[..a.prevLogIndex + 1] + r.log[a.prevLogIndex + 1..SentLength(m)];
  }

  lemma NewAck(n: nat, h: History, i: nat, s: Server, m: Message)
    requires HistoryOK(n, h) && m.Append? && AppendOK(n, h, m)
    requires HandleAppend(s, m.append).1.success
    ensures AckOK(RecordAck(h, i, s, m), i, m.append.term)
  {
    hide HandleAppend;
    if (i, m.append.term) in h.acked {
      assert AckOK(h, i, m.append.term);
    }
  }

  lemma AckHistory(n: nat, h: History, i: nat, s: Server, m: Message)
    requires HistoryOK(n, h) && ServerOK(n, h, i, s) && m.Append? && AppendOK(n, h, m) && m.to == i
    ensures Extends(h, RecordAck(h, i, s, m)) && HistoryOK(n, RecordAck(h, i, s, m))
    ensures forall j :: j != i ==> Silent(h, RecordAck(h, i, s, m), j)
  {
    hide ReignOK, BallotOK, BeatOK, BeatsGrow, ServerOK, HandleAppend, HistoryOK, AckOK;
    var h', t := RecordAck(h, i, s, m), m.append.term;
    if h' != h {
      NewAck(n, h, i, s, m);
    }
    HistoryParts(n, h);
    HistoryGrows(n, h, h');
  }

  lemma AckServer(n: nat, h: History, i: nat, s: Server, m: Message)
    requires HistoryOK(n, h) && ServerOK(n, h, i, s) && m.Append? && AppendOK(n, h, m) && m.to == i
    ensures ServerOK(n, RecordAck(h, i, s, m), i, HandleAppend(s, m.append).0)
  {
    hide GoodLog, TermsUpTo, MergeLog, HistoryOK;
    var h', t := RecordAck(h, i, s, m), m.append.term;
    SyncKeeps(n, h, i, s, t);
    if HandleAppend(s, m.append).1.success {
      AcceptedIsGood(n, h, s.log, m);
      AckHistory(n, h, i, s, m);
      GoodLogExtends(h, h', MergeLog(s.log, m.append.prevLogIndex, m.append.entries));
    }
  }

  lemma AcceptedIsGood(n: nat, h: History, log: seq<LogEntry>, m: Message)
    requires HistoryOK(n, h) && GoodLog(h, log) && m.Append? && AppendOK(n, h, m)
    requires Accepts(log, m.append)
    ensures GoodLog(h, MergeLog(log, m.append.prevLogIndex, m.append.entries))
    ensures TermsUpTo(MergeLog(log, m.append.prevLogIndex, m.append.entries), m.append.term)
  {
    var t := m.append.term;
    assert ReignOK(n, h, t);
    AcceptedLog(n, h, log, m);
    PrefixIsGood(h, h.reigns[t].log, SentLength(m));
  }

  lemma AckAnswer(n: nat, h: History, i: nat, s: Server, m: Message)
    requires m.Append? && AppendOK(n, h, m)
    ensures MessageOK(n, RecordAck(h, i, s, m),
                      AppendAnswer(m.append.term, m.append.leader, i, m.beat, HandleAppend(s, m.append).1))
  {
  }

  lemma DeliverAppendKeeps(n: nat, c: Cluster, h: History, a: Action)
    requires Base(n, c, h) && Shaped(c) && Enabled(c, a) && a.DeliverAppend?
    ensures Extends(h, Record(c, h, a)) && Base(n, Effect(c, a), Record(c, h, a))
  {
    hide ServerOK, HistoryOK, Extends, Silent, GoodLog, HandleAppend, AppendOK, RecordAck;
    var i, s, m := a.i, c.servers[a.i], a.m;
    assert MessageOK(n, h, m);
    AckAnswer(n, h, i, s, m);
    AckHistory(n, h, i, s, m);
    AckServer(n, h, i, s, m);
    Assemble(n, c, h, i, Effect(c, a), RecordAck(h, i, s, m));
  }

  lemma CollectServer(n: nat, c: Cluster, h: History, i: nat, replies: seq<AppendReply>)
    requires Base(n, c, h) && Shaped(c) && Enabled(c, Collect(i, replies))
    ensures ServerOK(n, h, i, CollectBeat(c.servers[i], i, replies))
  {
    var s := c.servers[i];
    assert ServerOK(n, h, i, s);
    var s' := CollectBeat(s, i, replies);
    forall f | 0 <= f < n && f != i && s'.matchIndex[f] > 0
      ensures Acked(h, f, s.currentTerm) > s'.matchIndex[f]
    {
      if replies[f].success {
        assert ReplyOfRound(c, i, f, replies[f]);
        assert MessageOK(n, h, AppendAnswer(s.currentTerm, i, f, s.beat, replies[f]));
      }
    }
  }

  lemma CollectKeeps(n: nat, c: Cluster, h: History, a: Action)
    requires Base(n, c, h) && Shaped(c) && Enabled(c, a) && a.Collect?
    ensures Base(n, Effect(c, a), h)
  {
    CollectServer(n, c, h, a.i, a.replies);
    Assemble(n, c, h, a.i, Effect(c, a), h);
  }

  lemma LocalKeeps(n: nat, c: Cluster, h: History, a: Action)
    requires Base(n, c, h) && Shaped(c) && Enabled(c, a)
    requires a.StepDown? || a.VoteReturns? || a.AppendReturns? || a.Apply? || a.Kill? || a.Restart?
    ensures Base(n, Effect(c, a), h)
  {
    hide ServerOK, HistoryOK, MessageOK, Extends, Silent, TermSync, ApplyEntries, Boot;
    var i, s, c' := a.i, c.servers[a.i], Effect(c, a);
    LocalServer(n, h, i, s);
    if a.VoteReturns? {
      SyncKeeps(n, h, i, s, a.m.voteReply.term);
    } else if a.AppendReturns? {
      SyncKeeps(n, h, i, s, a.m.appendReply.term);
    }
    NothingNew(h);
    Assemble(n, c, h, i, c', h);
  }

  lemma NothingNew(h: History)
    ensures Extends(h, h) && forall j :: Silent(h, h, j)
  {
  }

  lemma LocalServer(n: nat, h: History, i: nat, s: Server)
    requires ServerOK(n, h, i, s)
    ensures ServerOK(n, h, i, s.(phase := Follower)) && ServerOK(n, h, i, s.(phase := Exit))
    ensures ServerOK(n, h, i, Boot(s.disk))
    ensures s.commitIndex < |s.log| ==> ServerOK(n, h, i, ApplyEntries(s))
  {
  }

  lemma BaseKept(n: nat, c: Cluster, h: History, a: Action)
    requires Base(n, c, h) && Shaped(c) && Enabled(c, a) && ValidSize(n)
    ensures Extends(h, Record(c, h, a)) && Base(n, Effect(c, a), Record(c, h, a))
  {
    hide Base, Extends, HistoryOK, ServerOK, MessageOK, Effect, Enabled;
    NothingNew(h);
    match a
    case Timeout(_) => TimeoutKeeps(n, c, h, a);
    case DeliverVote(_, _) => DeliverVoteKeeps(n, c, h, a);
    case Elected(_, _) => ElectedKeeps(n, c, h, a);
    case Start(_, _) => StartKeeps(n, c, h, a);
    case Heartbeat(_) => HeartbeatKeeps(n, c, h, a);
    case DeliverAppend(_, _) => DeliverAppendKeeps(n, c, h, a);
    case Collect(_, _) => CollectKeeps(n, c, h, a);
    case _ => LocalKeeps(n, c, h, a);
  }

  lemma BaseInit(n: nat)
    ensures Base(n, Init(n), NO_HISTORY)
  {
  }
}
