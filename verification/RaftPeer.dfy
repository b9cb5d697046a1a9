/**
 The Raft server as the object it is: fields that its methods update under a
 lock. Every method is proved against the function of `RaftServer` that
 `RaftCluster` runs, and says what it does to the persister. One method stands
 for one stretch of code between taking and releasing the lock; the handlers
 are built from those.
 */
module RaftPeer {
  import opened RaftServer

  datatype Option<T> = None | Some(value: T)

  class Persister {
    var state: Disk

    constructor ()
      ensures state == Blank
    {
      state := Blank;
    }

    method SaveRaftState(durable: Durable)
      modifies this
      ensures state == Saved(durable)
    {
      state := Saved(durable);
    }
  }

  class Raft {
    const me: nat
    const peers: nat
    const persister: Persister

    var phase: Phase
    var currentTerm: nat
    var votedFor: int
    var log: Log
    var commitIndex: nat
    var lastApplied: nat
    var nextIndex: seq<nat>
    var matchIndex: seq<nat>
    var beat: nat
    var beatLast: nat
    var output: seq<ApplyMsg>

    ghost function View(): Server
      reads this, persister
    {
      Server(phase, currentTerm, votedFor, log, commitIndex, lastApplied,
             nextIndex, matchIndex, beat, beatLast, output, persister.state)
    }

    /** `Make`, with `readPersist` inside. */
    constructor Make(peers: nat, me: nat, persister: Persister)
      ensures this.me == me && this.peers == peers && this.persister == persister
      ensures persister.state == old(persister.state)
      ensures View() == Boot(persister.state) && IsDurable(View())
    {
      this.peers, this.me, this.persister := peers, me, persister;
      phase := Follower;
      currentTerm, votedFor, log := 0, NOBODY, [SENTINEL];
      commitIndex, lastApplied := 0, 0;
      nextIndex, matchIndex, beat, beatLast, output := [], [], 0, 0, [];
      new;
      ReadPersist();
    }

    method ReadPersist()
      modifies this
      ensures View() == old(View()).(currentTerm := currentTerm, votedFor := votedFor, log := log)
      ensures persister.state.Saved? ==> IsDurable(View())
      ensures persister.state.Blank? ==> View() == old(View())
    {
      match persister.state
      case Blank =>
      case Saved(d) =>
        currentTerm, votedFor, log := d.term, d.vote, d.log;
    }

    /** `persist`, called with the lock held. */
    method Save()
      modifies persister
      ensures View() == Persist(old(View()))
    {
      persister.SaveRaftState(Durable(currentTerm, votedFor, log));
    }

    // ----- lock sections

    method UpdateTermSection(otherTerm: nat) returns (outcome: int, myTerm: nat)
      modifies this, persister
      ensures View() == UpdateTerm(old(View()), otherTerm)
      ensures myTerm == old(currentTerm)
      ensures outcome == if myTerm < otherTerm then -1 else if myTerm == otherTerm then 0 else 1
      ensures old(IsDurable(View())) ==> IsDurable(View())
    {
      myTerm := currentTerm;
      if myTerm < otherTerm {
        currentTerm := otherTerm;
        votedFor := NOBODY;
        Save();
        outcome := -1;
      } else if myTerm == otherTerm {
        outcome := 0;
      } else {
        outcome := 1;
      }
    }

    method PhaseChange(toPhase: Phase) returns (changed: bool)
      modifies this
      ensures View() == ChangePhase(old(View()), toPhase)
      ensures changed <==> old(phase) != Exit && old(phase) != toPhase
      ensures old(IsDurable(View())) ==> IsDurable(View())
    {
      if phase == Exit {
        return false;
      } else if phase != toPhase {
        phase := toPhase;
        return true;
      }
      return false;
    }

    method Kill()
      modifies this
      ensures View() == old(View()).(phase := Exit)
      ensures old(IsDurable(View())) ==> IsDurable(View())
    {
      phase := Exit;
    }

    method VoteSection(args: VoteArgs) returns (granted: bool)
      modifies this, persister
      ensures (View(), granted) == VoteBody(old(View()), args)
      ensures old(IsDurable(View())) ==> IsDurable(View())
    {
      granted := false;
      if votedFor == NOBODY || votedFor == args.candidate {
        var myLastEntryIndex := |log| - 1;
        var myLastEntryTerm := log[myLastEntryIndex].term;
        if args.lastLogTerm > myLastEntryTerm
           || (args.lastLogTerm == myLastEntryTerm && args.lastLogIndex >= myLastEntryIndex) {
          granted := true;
          votedFor := args.candidate;
          Save();
        }
      }
    }

    /** The downward loop of the conflict branch. */
    method FindConflict(prev: nat) returns (next: nat)
      requires prev < |log|
      ensures next == ConflictIndex(log, prev)
    {
      var conflictTerm := log[prev].term;
      next := prev;
      var i := prev;
      while i > 0
        invariant 0 <= i <= prev
        invariant next == prev
        invariant ConflictIndex(log, prev) == ScanBack(log, conflictTerm, i, prev)
      {
        if log[i - 1].term != conflictTerm {
          next := i;
          break;
        }
        i := i - 1;
      }
    }

    method AppendSection(args: AppendArgs, myTerm: nat) returns (reply: AppendReply)
      modifies this, persister
      ensures (View(), reply) == AppendBody(old(View()), args, myTerm)
      ensures old(IsDurable(View())) ==> IsDurable(View())
    {
      if args.prevLogIndex < |log| {
        if log[args.prevLogIndex].term == args.prevLogTerm {
          log := log[..args.prevLogIndex + 1] + args.entries;
          var newCommitIndex := Min(args.leaderCommit, |log| - 1);
          if newCommitIndex > commitIndex {
            commitIndex := newCommitIndex;
          }
          Save();
          reply := AppendReply(myTerm, true, 0);
        } else {
          var next := FindConflict(args.prevLogIndex);
          reply := AppendReply(myTerm, false, next);
        }
      } else {
        reply := AppendReply(myTerm, false, |log|);
      }
    }

    /** The first section of `callElection`: the check, the new term, the vote request. */
    method ElectionSection() returns (request: Option<VoteArgs>)
      modifies this, persister
      ensures old(phase).Candidate? ==>
                && View() == ElectionBody(old(View()), me) && IsDurable(View())
                && request == Some(BuildVoteArgs(View(), me))
      ensures !old(phase).Candidate? ==> View() == old(View()) && request == None
    {
      if phase != Candidate {
        return None;
      }
      currentTerm := currentTerm + 1;
      votedFor := me;
      Save();
      request := Some(VoteArgs(currentTerm, me, |log| - 1, log[|log| - 1].term));
    }

    method LeaderSection()
      modifies this
      ensures View() == LeaderBody(old(View()), peers)
      ensures old(IsDurable(View())) ==> IsDurable(View())
    {
      nextIndex := [];
      while |nextIndex| < peers
        invariant |nextIndex| <= peers
        invariant View() == old(View()).(nextIndex := nextIndex)
        invariant forall k :: 0 <= k < |nextIndex| ==> nextIndex[k] == |log|
      {
        nextIndex := nextIndex + [|log|];
      }
      assert nextIndex == old(LeaderBody(View(), peers)).nextIndex;
      matchIndex := seq(peers, _ => 0);
      beat, beatLast := 0, 0;
    }

    method Start(command: Command) returns (index: nat, term: nat, isLeader: bool)
      modifies this, persister
      ensures isLeader <==> old(phase).Leader?
      ensures term == currentTerm == old(currentTerm)
      ensures View() == if isLeader then Submit(old(View()), command) else old(View())
      ensures isLeader ==> index < |log| && log[index] == LogEntry(term, Submitted(command)) && index == |old(log)|
      ensures old(IsDurable(View())) ==> IsDurable(View())
    {
      term := currentTerm;
      isLeader := phase.Leader?;
      index := 0;
      if isLeader {
        log := log + [LogEntry(term, Submitted(command))];
        index := |log| - 1;
        Save();
      }
    }

    /** The messages of one heartbeat, one for every other peer. */
    method BuildMessages() returns (sent: map<nat, AppendArgs>)
      requires |nextIndex| == peers
      requires forall p :: 0 <= p < peers ==> nextIndex[p] >= 1
      ensures forall p: nat :: p in sent <==> p < peers && p != me
      ensures forall p: nat :: p in sent ==> sent[p] == BuildAppendArgs(View(), me, p)
    {
      sent := map[];
      var id := 0;
      while id < peers
        invariant 0 <= id <= peers
        invariant forall p: nat :: p in sent <==> p < id && p != me
        invariant forall p: nat :: p in sent ==> sent[p] == BuildAppendArgs(View(), me, p)
      {
        if id != me {
          var next := nextIndex[id];
          var prev := Min(next, |log|) - 1;
          var entries := if next < |log| then log[next..] else [];
          sent := sent[id := AppendArgs(currentTerm, me, prev, log[prev].term, entries, commitIndex)];
        }
        id := id + 1;
      }
    }

    /** The sizes of the arrays that `initLeader` builds, and that every leader keeps. */
    predicate ArraysReady()
      reads this
    {
      |nextIndex| == |matchIndex| == peers && forall p :: 0 <= p < peers ==> nextIndex[p] >= 1
    }

    /** The first section of `heartbeat`; a server that no longer leads sends nothing. */
    method BeatSection() returns (sent: map<nat, AppendArgs>)
      requires phase.Leader? ==> ArraysReady()
      modifies this
      ensures View() == if old(phase).Leader? then SendBeat(old(View())) else old(View())
      ensures forall p: nat :: p in sent <==> old(phase).Leader? && p < peers && p != me
      ensures forall p: nat :: p in sent ==> old(ArraysReady()) && sent[p] == BuildAppendArgs(old(View()), me, p)
      ensures old(IsDurable(View())) ==> IsDurable(View())
    {
      if phase != Leader {
        return map[];
      }
      sent := BuildMessages();
      beatLast := |log| - 1;
      beat := beat + 1;
    }

    /** The second section of `heartbeat`: use the replies, then try to commit, if still leader. */
    method CollectSection(replies: seq<AppendReply>)
      requires |replies| == peers && me < peers && peers >= 2 && (phase.Leader? ==> ArraysReady())
      modifies this
      ensures old(phase).Leader? ==> old(ArraysReady()) && View() == CollectBeat(old(View()), me, replies)
      ensures !old(phase).Leader? ==> View() == old(View())
      ensures old(IsDurable(View())) ==> IsDurable(View())
    {
      if phase != Leader {
        return;
      }
      UseReplies(replies);
      AdvanceCommit();
    }

    method UseReplies(replies: seq<AppendReply>)
      requires |replies| == |nextIndex| == |matchIndex| == peers
      modifies this
      ensures View() == old(View()).(nextIndex := NewNext(old(View()), me, replies),
                                     matchIndex := NewMatch(old(View()), me, replies))
    {
      var next, mat := nextIndex, matchIndex;
      var id := 0;
      while id < peers
        invariant 0 <= id <= peers
        invariant |next| == |mat| == peers
        invariant forall k :: 0 <= k < id ==> next[k] == NewNext(View(), me, replies)[k]
        invariant forall k :: 0 <= k < id ==> mat[k] == NewMatch(View(), me, replies)[k]
        invariant forall k :: id <= k < peers ==> next[k] == nextIndex[k] && mat[k] == matchIndex[k]
      {
        if id != me {
          if replies[id].success {
            next := next[id := beatLast + 1];
            mat := mat[id := beatLast];
          } else if replies[id].nextIndex >= 1 {
            next := next[id := replies[id].nextIndex];
          }
        }
        id := id + 1;
      }
      assert next == NewNext(View(), me, replies) && mat == NewMatch(View(), me, replies);
      nextIndex, matchIndex := next, mat;
    }

    method AdvanceCommit()
      requires |matchIndex| == peers && me < peers && peers >= 2
      modifies this
      ensures View() == old(View()).(commitIndex :=
        ScanCommit(log, currentTerm, Min(CommitCandidate(old(matchIndex), me), |log| - 1), old(commitIndex)))
    {
      var sortedMatchIndex := Sort(matchIndex[me := 0]);
      var maxCommit := Min(sortedMatchIndex[(|sortedMatchIndex| + 1) / 2], |log| - 1);
      ghost var goal := ScanCommit(log, currentTerm, maxCommit, commitIndex);
      var i := maxCommit;
      while i > commitIndex
        invariant 0 <= i <= maxCommit
        invariant View() == old(View())
        invariant goal == ScanCommit(log, currentTerm, i, commitIndex)
        decreases i
      {
        if log[i].term == currentTerm {
          commitIndex := i;
          return;
        }
        i := i - 1;
      }
    }

    method ApplySection()
      requires commitIndex < |log|
      modifies this
      ensures View() == ApplyEntries(old(View()))
      ensures old(IsDurable(View())) ==> IsDurable(View())
    {
      while commitIndex > lastApplied
        invariant View() == old(View()).(lastApplied := lastApplied, output := output)
        invariant old(lastApplied) <= lastApplied
        invariant old(lastApplied) < old(commitIndex) ==> lastApplied <= commitIndex
        invariant old(lastApplied) >= old(commitIndex) ==> lastApplied == old(lastApplied)
        invariant lastApplied < |log| || lastApplied == old(lastApplied)
        invariant lastApplied == old(lastApplied) ==> output == old(output)
        invariant old(lastApplied) < lastApplied ==> output == old(output) + Outputs(log, old(lastApplied), lastApplied)
      {
        lastApplied := lastApplied + 1;
        output := output + [ApplyMsg(lastApplied, log[lastApplied].data)];
      }
    }

    // ----- the handlers, each several lock sections

    method TermSyncCall(otherTerm: nat) returns (outcome: int, myTerm: nat)
      modifies this, persister
      ensures View() == TermSync(old(View()), otherTerm)
      ensures myTerm == old(currentTerm)
      ensures outcome == if myTerm < otherTerm then -1 else if myTerm == otherTerm then 0 else 1
    {
      outcome, myTerm := UpdateTermSection(otherTerm);
      if outcome < 0 {
        var _ := PhaseChange(Follower);
      }
    }

    method RequestVote(args: VoteArgs) returns (reply: VoteReply)
      modifies this, persister
      ensures (View(), reply) == HandleVote(old(View()), args)
    {
      var outcome, myTerm := TermSyncCall(args.term);
      reply := VoteReply(myTerm, false);
      if outcome <= 0 {
        var granted := VoteSection(args);
        reply := VoteReply(myTerm, granted);
      }
    }

    method AppendEntriesCall(args: AppendArgs) returns (reply: AppendReply)
      modifies this, persister
      ensures (View(), reply) == HandleAppend(old(View()), args)
    {
      var outcome, myTerm := TermSyncCall(args.term);
      reply := AppendReply(myTerm, false, 0);
      if outcome <= 0 {
        reply := AppendSection(args, myTerm);
      }
    }

    /** An election timeout, up to sending the vote requests; a candidate or an exited server starts nothing. */
    method TimeoutCall() returns (request: Option<VoteArgs>)
      modifies this, persister
      ensures old(phase).Follower? || old(phase).Leader? ==>
                View() == CallElection(old(View()), me) && request == Some(BuildVoteArgs(View(), me))
      ensures old(phase).Candidate? || old(phase).Exit? ==> View() == old(View()) && request == None
    {
      var changed := PhaseChange(Candidate);
      if !changed {
        return None;
      }
      request := ElectionSection();
    }

    /** A won election, up to the first heartbeat; only a server that is still candidate takes office. */
    method ElectedCall()
      modifies this
      ensures old(phase).Candidate? ==> View() == InitLeader(old(View()), peers) && ArraysReady()
      ensures !old(phase).Candidate? ==> View() == old(View())
    {
      if phase != Candidate {
        return;
      }
      var changed := PhaseChange(Leader);
      LeaderSection();
    }
  }
}
