/**
 One server at the granularity of its lock: any interleaving of the stretches
 of code that run with the lock held, with crashes between them. Nothing is
 assumed about which handler a section belongs to, so these results do not
 rest on handlers being atomic.
 */
module RaftRecovery {
  import opened RaftServer

  datatype Section =
    | SyncTerm(otherTerm: nat)
    | ChangePhase(phase: Phase)
    | Killed
    | CastVote(vote: VoteArgs)
    | AcceptEntries(append: AppendArgs, replyTerm: nat)
    | BeginElection
    | InitArrays
    | AddCommand(command: Command)
    | Beat
    | UseReplies(replies: seq<AppendReply>)
    | ApplyCommitted
    | Crash

  /** The guards the code checks with the lock held, and the sizes its indexing needs. */
  predicate CanRun(peers: nat, me: nat, s: Server, sec: Section) {
    match sec
    case BeginElection => s.phase.Candidate?
    case AddCommand(_) => s.phase.Leader?
    case Beat => s.phase.Leader?
    case UseReplies(replies) =>
      s.phase.Leader? && |replies| == |s.nextIndex| == |s.matchIndex| == peers && me < peers && peers >= 2
    case ApplyCommitted => s.commitIndex < |s.log|
    case _ => true
  }

  function RunSection(peers: nat, me: nat, s: Server, sec: Section): Server
    requires CanRun(peers, me, s, sec)
  {
    match sec
    case SyncTerm(otherTerm) => UpdateTerm(s, otherTerm)
    case ChangePhase(phase) => RaftServer.ChangePhase(s, phase)
    case Killed => s.(phase := Exit)
    case CastVote(args) => VoteBody(s, args).0
    case AcceptEntries(args, term) => AppendBody(s, args, term).0
    case BeginElection => ElectionBody(s, me)
    case InitArrays => LeaderBody(s, peers)
    case AddCommand(command) => Submit(s, command)
    case Beat => SendBeat(s)
    case UseReplies(replies) => CollectBeat(s, me, replies)
    case ApplyCommitted => ApplyEntries(s)
    case Crash => Boot(s.disk)
  }

  /** A life of one server: booted from `disk`, then any sections in any order. */
  predicate IsLife(peers: nat, me: nat, disk: Disk, states: seq<Server>, sections: seq<Section>) {
    && |states| == |sections| + 1
    && states[0] == Boot(disk)
    && forall k :: 0 <= k < |sections| ==>
         CanRun(peers, me, states[k], sections[k]) && states[k + 1] == RunSection(peers, me, states[k], sections[k])
  }

  /** Whenever the lock is free, a restart would load exactly what the server holds. */
  lemma {:induction false} AlwaysDurable(peers: nat, me: nat, disk: Disk, states: seq<Server>,
                                         sections: seq<Section>, k: nat)
    requires IsLife(peers, me, disk, states, sections) && k < |states|
    ensures IsDurable(states[k])
  {
    if k > 0 {
      AlwaysDurable(peers, me, disk, states, sections, k - 1);
    }
  }

  /** The term never goes back, not even across a crash. */
  lemma {:induction false} TermNeverFalls(peers: nat, me: nat, disk: Disk, states: seq<Server>,
                                          sections: seq<Section>, j: nat, k: nat)
    requires IsLife(peers, me, disk, states, sections) && j <= k < |states|
    ensures states[j].currentTerm <= states[k].currentTerm
    decreases k
  {
    if j < k {
      TermNeverFalls(peers, me, disk, states, sections, j, k - 1);
      AlwaysDurable(peers, me, disk, states, sections, k - 1);
    }
  }

  /** A vote is final for its term: as long as the term lasts, crashes included, it never changes. */
  lemma {:induction false} VoteIsFinal(peers: nat, me: nat, disk: Disk, states: seq<Server>,
                                       sections: seq<Section>, j: nat, k: nat)
    requires IsLife(peers, me, disk, states, sections) && j <= k < |states|
    requires states[j].currentTerm == states[k].currentTerm && states[j].votedFor != NOBODY
    ensures states[k].votedFor == states[j].votedFor
    decreases k
  {
    if j < k {
      TermNeverFalls(peers, me, disk, states, sections, j, k - 1);
      TermNeverFalls(peers, me, disk, states, sections, k - 1, k);
      VoteIsFinal(peers, me, disk, states, sections, j, k - 1);
      AlwaysDurable(peers, me, disk, states, sections, k - 1);
    }
  }
}
