/**
 What commitment means for the history of a cluster, and why it lasts: the
 leader of every later term starts with every committed entry. The argument
 joins the commit rule (only entries of the current term count), the
 up-to-date test of the vote handler and the intersection of quorums.
 */
module RaftCommit {
  import opened RaftServer
  import opened RaftCluster
  import opened RaftHistory
  import opened RaftBase

  /** Index `i` of term `t`'s leader log is an entry that leader created. */
  ghost predicate OwnEntry(h: History, t: nat, i: nat) {
    t in h.reigns && i < |h.reigns[t].log| && h.reigns[t].log[i].term == t
  }

  predicate Holds(log: seq<LogEntry>, t: nat, i: nat) {
    i < |log| && log[i].term == t
  }

  /** Some leader after `t`, up to `upTo`, started without entry `i` of term `t`. */
  ghost predicate Overridden(h: History, t: nat, i: nat, upTo: int) {
    exists u :: u in h.reigns && t < u <= upTo && !Holds(h.reigns[u].base, t, i)
  }

  /** `log` holds whatever server `who` has accepted in terms below `below`, unless it was overridden. */
  ghost predicate Kept(h: History, who: nat, log: seq<LogEntry>, below: nat, upTo: int) {
    forall t: nat, i: nat :: t < below && OwnEntry(h, t, i) && i < Acked(h, who, t) ==>
      Holds(log, t, i) || Overridden(h, t, i, upTo)
  }

  ghost function Ackers(n: nat, h: History, t: nat, i: nat): set<nat> {
    set q | 0 <= q < n && Acked(h, q, t) > i
  }

  /** The commit rule: an entry of its own term, accepted by a strict majority in that term. */
  ghost predicate Certified(n: nat, h: History, t: nat, i: nat) {
    OwnEntry(h, t, i) && 2 * |Ackers(n, h, t, i)| > n
  }

  /** `log` up to `c` is covered by the certificate `(t, i)`, of a term up to `term`. */
  ghost predicate Covers(n: nat, h: History, log: seq<LogEntry>, c: nat, term: nat, t: nat, i: nat) {
    && Certified(n, h, t, i)
    && t <= term
    && c <= i
    && c < |log|
    && log[..c + 1] == h.reigns[t].log[..c + 1]
  }

  ghost predicate Committed(n: nat, h: History, log: seq<LogEntry>, c: nat, term: nat) {
    c == 0 || exists t: nat, i: nat :: Covers(n, h, log, c, term, t, i)
  }

  ghost predicate ServerCommitted(n: nat, h: History, id: nat, s: Server) {
    s.commitIndex == 0
    || exists t: nat, i: nat :: Covers(n, h, s.log, s.commitIndex, s.currentTerm, t, i)
                      && (t < s.currentTerm || Acked(h, id, t) > s.commitIndex)
  }

  /** The instance has applied indices 1, 2, 3, ... of its log and nothing else. */
  predicate OutputOK(s: Server) {
    && |s.output| == s.lastApplied <= s.commitIndex < |s.log|
    && forall k :: 0 <= k < |s.output| ==> s.output[k] == ApplyMsg(k + 1, s.log[k + 1].data)
  }

  ghost predicate AppendCommitted(n: nat, h: History, m: Message) {
    m.Append? && m.append.term in h.reigns ==>
      && m.append.leaderCommit < SentLength(m)
      && Committed(n, h, h.reigns[m.append.term].log, m.append.leaderCommit, m.append.term)
  }

  ghost predicate BallotsKeep(h: History) {
    forall v, t :: (v, t) in h.ballots ==> Kept(h, v, h.ballots[(v, t)].log, t, t)
  }

  ghost predicate VotersKeep(h: History) {
    forall t, v :: t in h.reigns && v in h.reigns[t].voters && (v, t) in h.ballots ==>
                     Kept(h, v, h.ballots[(v, t)].log, t, t - 1)
  }

  ghost predicate ServerSafe(n: nat, h: History, id: nat, s: Server) {
    && Kept(h, id, s.log, s.currentTerm + 1, s.currentTerm)
    && ServerCommitted(n, h, id, s)
    && OutputOK(s)
  }

  /** The invariant of every guarded run, on top of `Base`. */
  ghost predicate Safe(n: nat, c: Cluster, h: History) {
    && |c.servers| == n
    && BallotsKeep(h)
    && VotersKeep(h)
    && (forall i :: 0 <= i < n ==> ServerSafe(n, h, i, c.servers[i]))
    && (forall m :: m in c.net ==> AppendCommitted(n, h, m))
  }

  // ----- Leader Completeness

  lemma LastIsRooted(h: History, log: Log)
    requires GoodLog(h, log) && |log| > 1
    ensures LastTerm(log) in h.reigns && LastTerm(log) >= 1
    ensures |log| <= |h.reigns[LastTerm(log)].log|
    ensures log == h.reigns[LastTerm(log)].log[..|log|]
  {
    assert Rooted(h, log, |log| - 1);
    assert log[..|log|] == log;
  }

  /**
   The leader of every term after `t` started with entry `i` of term `t`, once
   that entry is certified. Induction over the later terms: its voters and the
   servers that accepted the entry share a member.
   */
  lemma {:induction false} LeaderCompleteness(n: nat, h: History, t: nat, i: nat, t': nat)
    requires HistoryOK(n, h) && VotersKeep(h)
    requires Certified(n, h, t, i) && t < t' && t' in h.reigns
    ensures Holds(h.reigns[t'].base, t, i)
    decreases t'
  {
    var v := SharedVoter(n, h, t, i, t');
    var vlog := h.ballots[(v, t')].log;
    if Overridden(h, t, i, t' - 1) {
      var u :| u in h.reigns && t < u <= t' - 1 && !Holds(h.reigns[u].base, t, i);
      LeaderCompleteness(n, h, t, i, u);
    }
    assert Holds(vlog, t, i);
    var tl := LastTerm(h.reigns[t'].base);
    if tl > LastTerm(vlog) {
      NewerLastTerm(n, h, t, i, t', vlog);
      LeaderCompleteness(n, h, t, i, tl);
      BaseInsideBase(n, h, t', t, i);
    } else {
      SameLastTerm(n, h, t, i, t', vlog);
    }
  }

  lemma SharedVoter(n: nat, h: History, t: nat, i: nat, t': nat) returns (v: nat)
    requires HistoryOK(n, h) && VotersKeep(h)
    requires Certified(n, h, t, i) && t < t' && t' in h.reigns
    ensures (v, t') in h.ballots && GoodLog(h, h.ballots[(v, t')].log)
    ensures UpToDate(LastTerm(h.reigns[t'].base), |h.reigns[t'].base| - 1, h.ballots[(v, t')].log)
    ensures Holds(h.ballots[(v, t')].log, t, i) || Overridden(h, t, i, t' - 1)
  {
    assert ReignOK(n, h, t');
    var voters := h.reigns[t'].voters;
    assert forall v :: v in voters ==> VoterOK(n, h, t', v);
    v := QuorumsMeet(n, Ackers(n, h, t, i), voters);
    assert VoterOK(n, h, t', v);
    assert BallotOK(n, h, v, t');
    assert Kept(h, v, h.ballots[(v, t')].log, t', t' - 1);
  }

  lemma NewerLastTerm(n: nat, h: History, t: nat, i: nat, t': nat, vlog: Log)
    requires HistoryOK(n, h) && t' in h.reigns && GoodLog(h, vlog) && Holds(vlog, t, i)
    requires LastTerm(h.reigns[t'].base) > LastTerm(vlog)
    ensures LastTerm(h.reigns[t'].base) in h.reigns
    ensures t < LastTerm(h.reigns[t'].base) < t'
  {
    var r := h.reigns[t'];
    assert ReignOK(n, h, t');
    PrefixIsGood(h, r.log, |r.base|);
    assert |r.base| > 1;
    LastIsRooted(h, r.base);
    assert vlog[i].term <= vlog[|vlog| - 1].term;
    assert r.log[|r.base| - 1].term < t';
  }

  /** A leader whose log ends in term `tl` started with everything the leader of `tl` started with. */
  lemma BaseInsideBase(n: nat, h: History, t': nat, t: nat, i: nat)
    requires HistoryOK(n, h) && t' in h.reigns
    requires var tl := LastTerm(h.reigns[t'].base); tl >= 1 && tl in h.reigns && Holds(h.reigns[tl].base, t, i)
    ensures Holds(h.reigns[t'].base, t, i)
  {
    var b := h.reigns[t'].base;
    var tl := LastTerm(b);
    assert ReignOK(n, h, t') && ReignOK(n, h, tl);
    PrefixIsGood(h, h.reigns[t'].log, |b|);
    assert |b| > 1;
    LastIsRooted(h, b);
    assert b[|b| - 1] == h.reigns[tl].log[|b| - 1];
    assert |b| - 1 >= |h.reigns[tl].base|;
    assert b[i] == h.reigns[tl].log[i];
  }

  lemma SameLastTerm(n: nat, h: History, t: nat, i: nat, t': nat, vlog: Log)
    requires HistoryOK(n, h) && t' in h.reigns && GoodLog(h, vlog) && Holds(vlog, t, i) && t >= 1
    requires LastTerm(h.reigns[t'].base) == LastTerm(vlog) && |h.reigns[t'].base| >= |vlog|
    ensures Holds(h.reigns[t'].base, t, i)
  {
    var r := h.reigns[t'];
    assert ReignOK(n, h, t');
    PrefixIsGood(h, r.log, |r.base|);
    assert |vlog| > 1;
    LastIsRooted(h, r.base);
    LastIsRooted(h, vlog);
    assert vlog[i] == h.reigns[LastTerm(vlog)].log[i] == r.base[i];
  }

  /** Any two certificates agree wherever both reach. */
  lemma CertificatesAgree(n: nat, h: History, t1: nat, i1: nat, t2: nat, i2: nat, k: nat)
    requires HistoryOK(n, h) && VotersKeep(h)
    requires Certified(n, h, t1, i1) && Certified(n, h, t2, i2) && k <= i1 && k <= i2
    ensures h.reigns[t1].log[..k + 1] == h.reigns[t2].log[..k + 1]
  {
    hide HistoryOK, VotersKeep, Ackers;
    if t1 < t2 {
      CertifiedInLater(n, h, t1, i1, t2);
    } else if t2 < t1 {
      CertifiedInLater(n, h, t2, i2, t1);
    }
    var i := if t1 <= t2 then i1 else i2;
    assert h.reigns[t1].log[..i + 1][..k + 1] == h.reigns[t2].log[..i + 1][..k + 1];
  }

  lemma CertifiedInLater(n: nat, h: History, t: nat, i: nat, t': nat)
    requires HistoryOK(n, h) && VotersKeep(h)
    requires Certified(n, h, t, i) && t < t' && t' in h.reigns
    ensures i < |h.reigns[t'].base| <= |h.reigns[t'].log|
    ensures h.reigns[t'].log[..i + 1] == h.reigns[t].log[..i + 1]
  {
    LeaderCompleteness(n, h, t, i, t');
    assert ReignOK(n, h, t) && ReignOK(n, h, t');
    LogsMatch(h, h.reigns[t'].log, h.reigns[t].log, i);
  }
}
