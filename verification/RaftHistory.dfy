/**
 History variables for the safety proof of `RaftCluster`, and the invariants
 that tie them to the cluster. They appear in no theorem: `RaftTheorems`
 states everything over runs of the cluster alone.
 */
module RaftHistory {
  import opened RaftServer
  import opened RaftCluster

  /**
   The leadership of one term: who won it, with which log (`base`) and whose
   votes, and the leader's log now or when it stopped leading.
   */
  datatype Reign = Reign(leader: nat, base: Log, log: Log, voters: set<nat>)

  /** A vote, with the voter's log when it was cast. */
  datatype Ballot = Ballot(candidate: nat, log: Log)

  /** The end of a candidate's log, as its vote requests carry it. */
  datatype Bid = Bid(lastIndex: nat, lastTerm: nat)

  /**
   `ballots` by (voter, term), `bids` by (candidate, term), `beats` the log
   length sent by (term, heartbeat), `acked` the longest log a server has
   accepted by (server, term).
   */
  datatype History = History(
    reigns: map<nat, Reign>,
    ballots: map<(nat, nat), Ballot>,
    bids: map<(nat, nat), Bid>,
    beats: map<(nat, nat), nat>,
    acked: map<(nat, nat), nat>)

  const NO_HISTORY: History := History(map[], map[], map[], map[], map[])

  function Acked(h: History, s: nat, t: nat): nat {
    if (s, t) in h.acked then h.acked[(s, t)] else 0
  }

  // ----- logs

  /** Entry `i` was created by the leader of its term, on top of everything below it. */
  ghost predicate Rooted(h: History, log: seq<LogEntry>, i: nat)
    requires i < |log|
  {
    var t := log[i].term;
    && t >= 1
    && t in h.reigns
    && i < |h.reigns[t].log|
    && log[..i + 1] == h.reigns[t].log[..i + 1]
  }

  ghost predicate Monotone(log: seq<LogEntry>) {
    forall i, j :: 0 <= i <= j < |log| ==> log[i].term <= log[j].term
  }

  ghost predicate GoodLog(h: History, log: seq<LogEntry>) {
    && log != []
    && log[0] == SENTINEL
    && Monotone(log)
    && forall i :: 1 <= i < |log| ==> Rooted(h, log, i)
  }

  ghost predicate TermsUpTo(log: seq<LogEntry>, t: nat) {
    forall i :: 0 <= i < |log| ==> log[i].term <= t
  }

  // ----- the history itself

  ghost predicate ReignOK(n: nat, h: History, t: nat)
    requires t in h.reigns
  {
    var r := h.reigns[t];
    && t >= 1
    && r.leader < n
    && GoodLog(h, r.log)
    && 1 <= |r.base| <= |r.log|
    && r.base == r.log[..|r.base|]
    && (forall i :: 0 <= i < |r.base| ==> r.log[i].term < t)
    && (forall i :: |r.base| <= i < |r.log| ==> r.log[i].term == t)
    && |r.voters| >= ElectionQuorum(n)
    && (forall v :: v in r.voters ==> VoterOK(n, h, t, v))
    && Acked(h, r.leader, t) == |r.log|
  }

  ghost predicate VoterOK(n: nat, h: History, t: nat, v: nat)
    requires t in h.reigns
  {
    var r := h.reigns[t];
    && v < n
    && (v, t) in h.ballots
    && h.ballots[(v, t)].candidate == r.leader
    && UpToDate(LastTerm(r.base), |r.base| - 1, h.ballots[(v, t)].log)
  }

  ghost predicate BallotOK(n: nat, h: History, v: nat, t: nat)
    requires (v, t) in h.ballots
  {
    var b := h.ballots[(v, t)];
    && v < n
    && t >= 1
    && b.candidate < n
    && (b.candidate, t) in h.bids
    && GoodLog(h, b.log)
    && TermsUpTo(b.log, t)
    && UpToDate(h.bids[(b.candidate, t)].lastTerm, h.bids[(b.candidate, t)].lastIndex, b.log)
  }

  ghost predicate BeatOK(h: History, t: nat, b: nat)
    requires (t, b) in h.beats
  {
    && b >= 1
    && t in h.reigns
    && |h.reigns[t].base| <= h.beats[(t, b)] <= |h.reigns[t].log|
  }

  ghost predicate BeatsGrow(beats: map<(nat, nat), nat>) {
    forall t, b1, b2 :: (t, b1) in beats && (t, b2) in beats && b1 <= b2 ==>
                          beats[(t, b1)] <= beats[(t, b2)]
  }

  ghost predicate AckOK(h: History, s: nat, t: nat)
    requires (s, t) in h.acked
  {
    t in h.reigns && 1 <= h.acked[(s, t)] <= |h.reigns[t].log|
  }

  ghost predicate HistoryOK(n: nat, h: History) {
    && (forall t :: t in h.reigns ==> ReignOK(n, h, t))
    && (forall v, t :: (v, t) in h.ballots ==> BallotOK(n, h, v, t))
    && (forall t, b :: (t, b) in h.beats ==> BeatOK(h, t, b))
    && BeatsGrow(h.beats)
    && (forall s, t :: (s, t) in h.acked ==> AckOK(h, s, t))
  }

  // ----- servers

  ghost predicate VotingOK(h: History, id: nat, s: Server) {
    && (forall t :: (id, t) in h.ballots ==> t <= s.currentTerm)
    && (s.votedFor != NOBODY <==> (id, s.currentTerm) in h.ballots)
    && (s.votedFor != NOBODY ==> s.votedFor == h.ballots[(id, s.currentTerm)].candidate)
    && (forall t :: (id, t) in h.bids ==> t <= s.currentTerm)
    && ((id, s.currentTerm) in h.bids && s.currentTerm !in h.reigns ==>
          h.bids[(id, s.currentTerm)] == Bid(|s.log| - 1, LastTerm(s.log)))
  }

  ghost predicate CandidateOK(h: History, id: nat, s: Server) {
    && (id, s.currentTerm) in h.bids
    && s.votedFor == id
    && (s.currentTerm in h.reigns ==> h.reigns[s.currentTerm].leader != id)
  }

  ghost predicate LeaderOK(n: nat, h: History, id: nat, s: Server) {
    && s.currentTerm in h.reigns
    && h.reigns[s.currentTerm].leader == id
    && h.reigns[s.currentTerm].log == s.log
    && |s.matchIndex| == n
    && (forall b :: (s.currentTerm, b) in h.beats ==> b <= s.beat)
    && (s.beat > 0 ==> (s.currentTerm, s.beat) in h.beats && h.beats[(s.currentTerm, s.beat)] == s.beatLast + 1)
    && (forall f :: 0 <= f < n && f != id && s.matchIndex[f] > 0 ==> Acked(h, f, s.currentTerm) > s.matchIndex[f])
  }

  ghost predicate ServerOK(n: nat, h: History, id: nat, s: Server) {
    && GoodLog(h, s.log)
    && TermsUpTo(s.log, s.currentTerm)
    && IsDurable(s)
    && VotingOK(h, id, s)
    && (forall t :: (id, t) in h.acked ==> t <= s.currentTerm)
    && (s.phase.Candidate? ==> CandidateOK(h, id, s))
    && (s.phase.Leader? ==> LeaderOK(n, h, id, s))
  }

  // ----- messages

  ghost predicate AppendOK(n: nat, h: History, m: Message)
    requires m.Append?
  {
    var a := m.append;
    && a.term in h.reigns
    && var r := h.reigns[a.term];
    && a.leader == r.leader
    && m.to < n
    && m.to != a.leader
    && (a.term, m.beat) in h.beats
    && SentLength(m) == h.beats[(a.term, m.beat)] <= |r.log|
    && r.log[a.prevLogIndex].term == a.prevLogTerm
    && r.log[a.prevLogIndex + 1..SentLength(m)] == a.entries
  }

  ghost predicate MessageOK(n: nat, h: History, m: Message) {
    match m
    case VoteRequest(v) =>
      && v.candidate < n
      && v.term >= 1
      && (v.candidate, v.term) in h.bids
      && h.bids[(v.candidate, v.term)] == Bid(v.lastLogIndex, v.lastLogTerm)
    case VoteAnswer(round, candidate, voter, reply) =>
      reply.granted ==> (voter, round) in h.ballots && h.ballots[(voter, round)].candidate == candidate
    case Append(_, _, _) => AppendOK(n, h, m)
    case AppendAnswer(round, leader, from, beat, reply) =>
      reply.success ==>
        (round, beat) in h.beats && Acked(h, from, round) >= h.beats[(round, beat)]
  }

  /** The invariant of every run, ordered or not. */
  ghost predicate Base(n: nat, c: Cluster, h: History) {
    && |c.servers| == n
    && HistoryOK(n, h)
    && (forall i :: 0 <= i < n ==> ServerOK(n, h, i, c.servers[i]))
    && (forall m :: m in c.net ==> MessageOK(n, h, m))
  }

  // ----- how the history grows

  ghost predicate ReignExtends(r: Reign, r': Reign) {
    r'.leader == r.leader && r'.base == r.base && r'.voters == r.voters && r.log <= r'.log
  }

  ghost predicate Extends(h: History, h': History) {
    && (forall t :: t in h.reigns ==> t in h'.reigns && ReignExtends(h.reigns[t], h'.reigns[t]))
    && (forall k :: k in h.ballots ==> k in h'.ballots && h'.ballots[k] == h.ballots[k])
    && (forall k :: k in h.bids ==> k in h'.bids && h'.bids[k] == h.bids[k])
    && (forall k :: k in h.beats ==> k in h'.beats && h'.beats[k] == h.beats[k])
    && (forall k :: k in h.acked ==> k in h'.acked && h'.acked[k] >= h.acked[k])
  }

  /** The history has nothing new about server `j`. */
  ghost predicate Silent(h: History, h': History, j: nat) {
    && (forall t :: (j, t) in h'.ballots ==> (j, t) in h.ballots)
    && (forall t :: (j, t) in h'.bids ==> (j, t) in h.bids)
    && (forall t :: (j, t) in h'.acked ==> (j, t) in h.acked && h'.acked[(j, t)] == h.acked[(j, t)])
    && (forall t :: t in h'.reigns && h'.reigns[t].leader == j ==>
          t in h.reigns && h'.reigns[t].log == h.reigns[t].log)
    && (forall t, b :: (t, b) in h'.beats && (t, b) !in h.beats ==> t in h.reigns && h.reigns[t].leader != j)
  }

  lemma GoodLogExtends(h: History, h': History, log: seq<LogEntry>)
    requires Extends(h, h') && GoodLog(h, log)
    ensures GoodLog(h', log)
  {
    forall i | 1 <= i < |log|
      ensures Rooted(h', log, i)
    {
      assert Rooted(h, log, i);
      var t := log[i].term;
      assert ReignExtends(h.reigns[t], h'.reigns[t]);
      assert h'.reigns[t].log[..i + 1] == h.reigns[t].log[..i + 1];
    }
  }

  lemma AckedGrows(h: History, h': History, s: nat, t: nat)
    requires Extends(h, h')
    ensures Acked(h', s, t) >= Acked(h, s, t)
  {
  }

  lemma MessageExtends(n: nat, h: History, h': History, m: Message)
    requires Extends(h, h') && MessageOK(n, h, m)
    ensures MessageOK(n, h', m)
  {
    match m
    case VoteRequest(_) =>
    case VoteAnswer(_, _, _, _) =>
    case Append(_, _, a) =>
      assert ReignExtends(h.reigns[a.term], h'.reigns[a.term]);
      var l, l' := h.reigns[a.term].log, h'.reigns[a.term].log;
      assert l'[a.prevLogIndex + 1..SentLength(m)] == l[a.prevLogIndex + 1..SentLength(m)];
    case AppendAnswer(round, _, from, _, _) =>
      AckedGrows(h, h', from, round);
  }

  lemma LeaderFrame(n: nat, h: History, h': History, j: nat, s: Server, s': Server)
    requires Extends(h, h') && LeaderOK(n, h, j, s)
    requires s' == s.(phase := s'.phase, votedFor := s'.votedFor, disk := s'.disk)
    requires h'.reigns[s.currentTerm].log == h.reigns[s.currentTerm].log
    requires forall b :: (s.currentTerm, b) in h'.beats ==> (s.currentTerm, b) in h.beats
    ensures LeaderOK(n, h', j, s')
  {
    var t := s.currentTerm;
    assert ReignExtends(h.reigns[t], h'.reigns[t]);
    forall f | 0 <= f < n && f != j && s.matchIndex[f] > 0
      ensures Acked(h', f, t) > s.matchIndex[f]
    {
      AckedGrows(h, h', f, t);
    }
  }

  lemma ServerFrame(n: nat, h: History, h': History, j: nat, s: Server)
    requires Extends(h, h') && Silent(h, h', j) && ServerOK(n, h, j, s)
    ensures ServerOK(n, h', j, s)
  {
    GoodLogExtends(h, h', s.log);
    if s.phase.Leader? {
      assert ReignExtends(h.reigns[s.currentTerm], h'.reigns[s.currentTerm]);
      LeaderFrame(n, h, h', j, s, s);
    }
  }

  /** One server moved, some messages were sent, the history grew: `Base` again. */
  lemma Assemble(n: nat, c: Cluster, h: History, i: nat, c': Cluster, h': History)
    requires Base(n, c, h) && i < n
    requires |c'.servers| == n
    requires forall j :: 0 <= j < n && j != i ==> c'.servers[j] == c.servers[j]
    requires Extends(h, h') && HistoryOK(n, h')
    requires forall j :: 0 <= j < n && j != i ==> Silent(h, h', j)
    requires ServerOK(n, h', i, c'.servers[i])
    requires forall m :: m in c'.net && m !in c.net ==> MessageOK(n, h', m)
    ensures Base(n, c', h')
  {
    forall j | 0 <= j < n
      ensures ServerOK(n, h', j, c'.servers[j])
    {
      if j != i {
        ServerFrame(n, h, h', j, c.servers[j]);
      }
    }
    forall m | m in c'.net
      ensures MessageOK(n, h', m)
    {
      if m in c.net {
        MessageExtends(n, h, h', m);
      }
    }
  }
}
