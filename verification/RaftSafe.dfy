/**
 Every step of a guarded run keeps the invariant `Safe`: what a server has
 accepted stays in its log until a later leader overrides it, and commit
 indices are always covered by a certificate.
 */
module RaftSafe {
  import opened Collections
  import opened RaftServer
  import opened RaftCluster
  import opened RaftHistory
  import opened RaftCommit

  // ----- how the predicates follow a growing history

  lemma OverriddenGrows(h: History, h': History, t: nat, i: nat, u: int, u': int)
    requires Extends(h, h') && u <= u' && Overridden(h, t, i, u)
    ensures Overridden(h', t, i, u')
  {
    var w :| w in h.reigns && t < w <= u && !Holds(h.reigns[w].base, t, i);
    assert ReignExtends(h.reigns[w], h'.reigns[w]);
  }

  /** An accepted entry of the larger history was an entry of the smaller one. */
  lemma AcceptedEntry(n: nat, h: History, h': History, who: nat, t: nat, i: nat)
    requires HistoryOK(n, h) && Extends(h, h')
    requires OwnEntry(h', t, i) && i < Acked(h, who, t)
    ensures OwnEntry(h, t, i)
  {
    assert AckOK(h, who, t);
    assert ReignExtends(h.reigns[t], h'.reigns[t]);
  }

  lemma KeptGrows(n: nat, h: History, h': History, who: nat, log: seq<LogEntry>, below: nat, upTo: int)
    requires HistoryOK(n, h) && Extends(h, h') && Kept(h, who, log, below, upTo)
    requires forall t: nat :: t < below ==> Acked(h', who, t) == Acked(h, who, t)
    ensures Kept(h', who, log, below, upTo)
  {
    hide HistoryOK;
    forall t: nat, i: nat | t < below && OwnEntry(h', t, i) && i < Acked(h', who, t)
      ensures Holds(log, t, i) || Overridden(h', t, i, upTo)
    {
      AcceptedEntry(n, h, h', who, t, i);
      if !Holds(log, t, i) {
        OverriddenGrows(h, h', t, i, upTo, upTo);
      }
    }
  }

  lemma CertifiedGrows(n: nat, h: History, h': History, t: nat, i: nat)
    requires Extends(h, h') && Certified(n, h, t, i)
    ensures Certified(n, h', t, i)
    ensures h'.reigns[t].log[..i + 1] == h.reigns[t].log[..i + 1]
  {
    assert ReignExtends(h.reigns[t], h'.reigns[t]);
    forall q | q in Ackers(n, h, t, i)
      ensures q in Ackers(n, h', t, i)
    {
      AckedGrows(h, h', q, t);
    }
    SubsetSize(Ackers(n, h, t, i), Ackers(n, h', t, i));
  }

  lemma CoversGrows(n: nat, h: History, h': History, log: seq<LogEntry>, log': seq<LogEntry>,
                    c: nat, term: nat, term': nat, t: nat, i: nat)
    requires Extends(h, h') && Covers(n, h, log, c, term, t, i) && term <= term'
    requires c < |log'| && log'[..c + 1] == log[..c + 1]
    ensures Covers(n, h', log', c, term', t, i)
  {
    hide Extends;
    CertifiedGrows(n, h, h', t, i);
    assert h'.reigns[t].log[..c + 1] == h'.reigns[t].log[..i + 1][..c + 1];
    assert h.reigns[t].log[..c + 1] == h.reigns[t].log[..i + 1][..c + 1];
  }

  lemma CommittedGrows(n: nat, h: History, h': History, log: seq<LogEntry>, log': seq<LogEntry>, c: nat, term: nat)
    requires Extends(h, h') && Committed(n, h, log, c, term)
    requires log <= log'
    ensures Committed(n, h', log', c, term)
  {
    hide Extends, Covers;
    if c > 0 {
      var t: nat, i: nat :| Covers(n, h, log, c, term, t, i);
      assert c < |log| by { CoveredInside(n, h, log, c, term, t, i); }
      CoversGrows(n, h, h', log, log', c, term, term, t, i);
    }
  }

  lemma CoveredInside(n: nat, h: History, log: seq<LogEntry>, c: nat, term: nat, t: nat, i: nat)
    requires Covers(n, h, log, c, term, t, i)
    ensures c < |log|
  {
  }

  /** A server whose committed part and acceptances did not shrink is still fine. */
  lemma ServerCommittedGrows(n: nat, h: History, h': History, id: nat, s: Server, s': Server)
    requires Extends(h, h') && ServerCommitted(n, h, id, s)
    requires s'.commitIndex == s.commitIndex && s'.currentTerm >= s.currentTerm
    requires s.log <= s'.log
    ensures ServerCommitted(n, h', id, s')
  {
    hide Extends, Covers;
    if s.commitIndex > 0 {
      var t: nat, i: nat :| Covers(n, h, s.log, s.commitIndex, s.currentTerm, t, i)
                            && (t < s.currentTerm || Acked(h, id, t) > s.commitIndex);
      CoveredInside(n, h, s.log, s.commitIndex, s.currentTerm, t, i);
      CoversGrows(n, h, h', s.log, s'.log, s.commitIndex, s.currentTerm, s'.currentTerm, t, i);
      AckedGrows(h, h', id, t);
    }
  }

  lemma AppendCommittedGrows(n: nat, h: History, h': History, m: Message)
    requires Extends(h, h') && MessageOK(n, h, m) && AppendCommitted(n, h, m)
    ensures AppendCommitted(n, h', m)
  {
    if m.Append? {
      var t := m.append.term;
      assert ReignExtends(h.reigns[t], h'.reigns[t]);
      CommittedGrows(n, h, h', h.reigns[t].log, h'.reigns[t].log, m.append.leaderCommit, t);
    }
  }

  lemma ServerSafeFrame(n: nat, h: History, h': History, j: nat, s: Server)
    requires HistoryOK(n, h) && Extends(h, h') && Silent(h, h', j) && ServerSafe(n, h, j, s)
    ensures ServerSafe(n, h', j, s)
  {
    hide HistoryOK, Extends, Kept, ServerCommitted;
    assert forall t: nat :: Acked(h', j, t) == Acked(h, j, t) by { SameAcks(h, h', j); }
    KeptGrows(n, h, h', j, s.log, s.currentTerm + 1, s.currentTerm);
    ServerCommittedGrows(n, h, h', j, s, s);
  }

  lemma SameAcks(h: History, h': History, j: nat)
    requires Extends(h, h') && Silent(h, h', j)
    ensures forall t: nat :: Acked(h', j, t) == Acked(h, j, t)
  {
  }

  /** Only server `i` has accepted anything new, and nothing below `term`. */
  ghost predicate NewAcksFrom(h: History, h': History, i: nat, term: nat) {
    forall w: nat, t: nat :: w != i || t < term ==> Acked(h', w, t) == Acked(h, w, t)
  }

  /** Old ballots keep what they kept: their voters have moved on to later terms. */
  lemma OldBallotKeeps(n: nat, h: History, h': History, i: nat, term: nat, v: nat, t: nat, upTo: int)
    requires HistoryOK(n, h) && Extends(h, h') && NewAcksFrom(h, h', i, term)
    requires (v, t) in h.ballots && (v == i ==> t <= term)
    requires Kept(h, v, h.ballots[(v, t)].log, t, upTo)
    ensures h'.ballots[(v, t)] == h.ballots[(v, t)]
    ensures Kept(h', v, h'.ballots[(v, t)].log, t, upTo)
  {
    KeptGrows(n, h, h', v, h.ballots[(v, t)].log, t, upTo);
  }

  lemma OldBallotsKeep(n: nat, h: History, h': History, i: nat, term: nat)
    requires HistoryOK(n, h) && Extends(h, h') && NewAcksFrom(h, h', i, term)
    requires forall t :: (i, t) in h.ballots ==> t <= term
    requires BallotsKeep(h) && VotersKeep(h)
    ensures forall v, t :: (v, t) in h.ballots ==> Kept(h', v, h'.ballots[(v, t)].log, t, t)
    ensures forall t, v :: t in h.reigns && v in h.reigns[t].voters && (v, t) in h.ballots ==>
                             Kept(h', v, h'.ballots[(v, t)].log, t, t - 1)
  {
    hide HistoryOK, Kept, NewAcksFrom;
    forall v, t | (v, t) in h.ballots
      ensures Kept(h', v, h'.ballots[(v, t)].log, t, t)
    {
      OldBallotKeeps(n, h, h', i, term, v, t, t);
    }
    forall t, v | t in h.reigns && v in h.reigns[t].voters && (v, t) in h.ballots
      ensures Kept(h', v, h'.ballots[(v, t)].log, t, t - 1)
    {
      OldBallotKeeps(n, h, h', i, term, v, t, t - 1);
    }
  }

  /** A step with no new ballot and no new reign keeps both ballot invariants. */
  lemma BallotInvariants(n: nat, h: History, h': History, i: nat, term: nat)
    requires HistoryOK(n, h) && Extends(h, h') && NewAcksFrom(h, h', i, term)
    requires forall t :: (i, t) in h.ballots ==> t <= term
    requires BallotsKeep(h) && VotersKeep(h)
    requires h'.ballots.Keys == h.ballots.Keys && h'.reigns.Keys == h.reigns.Keys
    ensures BallotsKeep(h') && VotersKeep(h')
  {
    hide HistoryOK, Kept, NewAcksFrom;
    OldBallotsKeep(n, h, h', i, term);
    forall t, v | t in h'.reigns && v in h'.reigns[t].voters && (v, t) in h'.ballots
      ensures Kept(h', v, h'.ballots[(v, t)].log, t, t - 1)
    {
      assert ReignExtends(h.reigns[t], h'.reigns[t]);
    }
  }

  /** One server moved, some messages were sent, the history grew: `Safe` again. */
  lemma AssembleSafe(n: nat, c: Cluster, h: History, i: nat, c': Cluster, h': History)
    requires Base(n, c, h) && Safe(n, c, h) && i < n
    requires |c'.servers| == n
    requires forall j :: 0 <= j < n && j != i ==> c'.servers[j] == c.servers[j]
    requires Extends(h, h')
    requires forall j :: 0 <= j < n && j != i ==> Silent(h, h', j)
    requires BallotsKeep(h') && VotersKeep(h')
    requires ServerSafe(n, h', i, c'.servers[i])
    requires forall m :: m in c'.net && m !in c.net ==> AppendCommitted(n, h', m)
    ensures Safe(n, c', h')
  {
    hide HistoryOK, ServerOK, MessageOK, Extends, Silent, BallotsKeep, VotersKeep, ServerSafe, AppendCommitted;
    forall j | 0 <= j < n
      ensures ServerSafe(n, h', j, c'.servers[j])
    {
      if j != i {
        ServerSafeFrame(n, h, h', j, c.servers[j]);
      }
    }
    forall m | m in c'.net
      ensures AppendCommitted(n, h', m)
    {
      if m in c.net {
        AppendCommittedGrows(n, h, h', m);
      }
    }
  }
}
