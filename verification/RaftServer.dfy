/**
 The state of one Raft server and the effect of every handler on it, as
 functions from the old state to the new one. `RaftPeer` proves that the
 imperative handlers compute these functions; `RaftCluster` runs them
 against a lossy network.
 */
module RaftServer {

  /** What a client submits through `Start`; the protocol never looks inside it. */
  type Command(==, !new)

  datatype Data = Nil | Submitted(command: Command)

  datatype LogEntry = LogEntry(term: nat, data: Data)

  /** `LogEntry{}`, which `Make` puts at index 0 of every log. */
  const SENTINEL: LogEntry := LogEntry(0, Nil)

  /** A log is never empty: `Make` starts it with the sentinel and nothing removes index 0. */
  type Log = log: seq<LogEntry> | log != [] witness [SENTINEL]

  /** The value of `votedFor` that stands for "no vote in this term". */
  const NOBODY: int := -1

  /** `Exit` is the phase that `Kill` sets; the server still answers, but never changes phase again. */
  datatype Phase = Follower | Candidate | Leader | Exit

  datatype ApplyMsg = ApplyMsg(index: nat, data: Data)

  /** The three fields that `persist` encodes. */
  datatype Durable = Durable(term: nat, vote: int, log: Log)

  datatype Disk = Blank | Saved(durable: Durable)

  /**
   `beat` and `beatLast` are `heartbeat`'s `beatNumber` and `myLastIndex`:
   the number of the latest heartbeat of this leadership, and the last log
   index at the time it was sent. `output` is what this instance has sent on
   `applyCh`. `disk` is the persister.
   */
  datatype Server = Server(
    phase: Phase,
    currentTerm: nat,
    votedFor: int,
    log: Log,
    commitIndex: nat,
    lastApplied: nat,
    nextIndex: seq<nat>,
    matchIndex: seq<nat>,
    beat: nat,
    beatLast: nat,
    output: seq<ApplyMsg>,
    disk: Disk)

  datatype VoteArgs = VoteArgs(term: nat, candidate: nat, lastLogIndex: nat, lastLogTerm: nat)

  datatype VoteReply = VoteReply(term: nat, granted: bool)

  datatype AppendArgs = AppendArgs(
    term: nat,
    leader: nat,
    prevLogIndex: nat,
    prevLogTerm: nat,
    entries: seq<LogEntry>,
    leaderCommit: nat)

  datatype AppendReply = AppendReply(term: nat, success: bool, nextIndex: nat)

  /** The zero value that `heartbeat` allocates for a reply that has not arrived. */
  const NO_REPLY: AppendReply := AppendReply(0, false, 0)

  function Min(a: int, b: int): int {
    if a <= b then a else b
  }

  function LastTerm(log: Log): nat {
    log[|log| - 1].term
  }

  // ----- persistence

  function Persist(s: Server): Server {
    s.(disk := Saved(Durable(s.currentTerm, s.votedFor, s.log)))
  }

  /** What `Make` followed by `readPersist` loads from a persister. */
  function Restore(disk: Disk): Durable {
    match disk
    case Blank => Durable(0, NOBODY, [SENTINEL])
    case Saved(durable) => durable
  }

  /** `Make`: everything that is not on disk starts from zero. */
  function Boot(disk: Disk): Server {
    var d := Restore(disk);
    Server(Follower, d.term, d.vote, d.log, 0, 0, [], [], 0, 0, [], disk)
  }

  /** What a restart would load equals what the server holds in memory. */
  predicate IsDurable(s: Server) {
    Restore(s.disk) == Durable(s.currentTerm, s.votedFor, s.log)
  }

  // ----- terms and elections

  /** The first lock section of `termSync`, which ends before the phase changes. */
  function UpdateTerm(s: Server, otherTerm: nat): Server {
    if s.currentTerm < otherTerm then
      Persist(s.(currentTerm := otherTerm, votedFor := NOBODY))
    else
      s
  }

  /** `phaseChange`: nothing leaves the exit phase. */
  function ChangePhase(s: Server, toPhase: Phase): Server {
    if s.phase.Exit? then s else s.(phase := toPhase)
  }

  function TermSync(s: Server, otherTerm: nat): Server {
    if s.currentTerm < otherTerm then ChangePhase(UpdateTerm(s, otherTerm), Follower) else s
  }

  /** The first lock section of `callElection`. */
  function ElectionBody(s: Server, me: nat): Server {
    Persist(s.(currentTerm := s.currentTerm + 1, votedFor := me))
  }

  /** An election timeout: become candidate, start a new term, vote for oneself. */
  function CallElection(s: Server, me: nat): Server {
    ElectionBody(s.(phase := Candidate), me)
  }

  function BuildVoteArgs(s: Server, me: nat): VoteArgs {
    VoteArgs(s.currentTerm, me, |s.log| - 1, LastTerm(s.log))
  }

  /** The data up-to-date test of the vote handler. */
  predicate UpToDate(lastLogTerm: nat, lastLogIndex: nat, log: Log) {
    lastLogTerm > LastTerm(log) || (lastLogTerm == LastTerm(log) && lastLogIndex >= |log| - 1)
  }

  /** The second lock section of the vote handler. */
  function VoteBody(s: Server, args: VoteArgs): (Server, bool) {
    if (s.votedFor == NOBODY || s.votedFor == args.candidate)
       && UpToDate(args.lastLogTerm, args.lastLogIndex, s.log)
    then
      (Persist(s.(votedFor := args.candidate)), true)
    else
      (s, false)
  }

  function HandleVote(s: Server, args: VoteArgs): (Server, VoteReply) {
    if args.term < s.currentTerm then
      (s, VoteReply(s.currentTerm, false))
    else
      var (s', granted) := VoteBody(TermSync(s, args.term), args);
      (s', VoteReply(s.currentTerm, granted))
  }

  /** The lock section of `initLeader`. */
  function LeaderBody(s: Server, peers: nat): Server {
    s.(nextIndex := seq(peers, _ => |s.log|),
       matchIndex := seq(peers, _ => 0),
       beat := 0,
       beatLast := 0)
  }

  function InitLeader(s: Server, peers: nat): Server {
    LeaderBody(s.(phase := Leader), peers)
  }

  // ----- log replication

  function Submit(s: Server, command: Command): Server {
    Persist(s.(log := s.log + [LogEntry(s.currentTerm, Submitted(command))]))
  }

  function BuildAppendArgs(s: Server, me: nat, peer: nat): AppendArgs
    requires peer < |s.nextIndex| && s.nextIndex[peer] >= 1
  {
    var next := s.nextIndex[peer];
    var prev := Min(next, |s.log|) - 1;
    AppendArgs(s.currentTerm, me, prev, s.log[prev].term,
               if next < |s.log| then s.log[next..] else [],
               s.commitIndex)
  }

  function SendBeat(s: Server): Server {
    s.(beat := s.beat + 1, beatLast := |s.log| - 1)
  }

  /**
   The downward scan of the conflict branch: the first index, going down from
   `i`, whose predecessor has another term; `default` when there is none.
   */
  function ScanBack(log: seq<LogEntry>, term: nat, i: nat, default: nat): nat
    requires i <= |log|
  {
    if i == 0 then default
    else if log[i - 1].term != term then i
    else ScanBack(log, term, i - 1, default)
  }

  /** `NextIndex` of a reply that refuses because the terms at `prev` clash. */
  function ConflictIndex(log: seq<LogEntry>, prev: nat): nat
    requires prev < |log|
  {
    ScanBack(log, log[prev].term, prev, prev)
  }

  function MergeLog(log: seq<LogEntry>, prev: nat, entries: seq<LogEntry>): Log
    requires prev < |log|
  {
    log[..prev + 1] + entries
  }

  predicate Accepts(log: seq<LogEntry>, args: AppendArgs) {
    args.prevLogIndex < |log| && log[args.prevLogIndex].term == args.prevLogTerm
  }

  /** The second lock section of the append handler; `term` is the term to reply with. */
  function AppendBody(s: Server, args: AppendArgs, term: nat): (Server, AppendReply) {
    if Accepts(s.log, args) then
      var log := MergeLog(s.log, args.prevLogIndex, args.entries);
      var commit := Min(args.leaderCommit, |log| - 1);
      var s' := s.(log := log, commitIndex := if commit > s.commitIndex then commit else s.commitIndex);
      (Persist(s'), AppendReply(term, true, 0))
    else if args.prevLogIndex < |s.log| then
      (s, AppendReply(term, false, ConflictIndex(s.log, args.prevLogIndex)))
    else
      (s, AppendReply(term, false, |s.log|))
  }

  function HandleAppend(s: Server, args: AppendArgs): (Server, AppendReply) {
    if args.term < s.currentTerm then
      (s, AppendReply(s.currentTerm, false, 0))
    else
      AppendBody(TermSync(s, args.term), args, s.currentTerm)
  }

  // ----- commit rule

  function Insert(x: nat, s: seq<nat>): seq<nat> {
    if s == [] || x <= s[0] then [x] + s else [s[0]] + Insert(x, s[1..])
  }

  /** `sort.Ints`. */
  function Sort(s: seq<nat>): (r: seq<nat>)
    ensures |r| == |s|
  {
    if s == [] then [] else
      var r := Sort(s[1..]);
      InsertLength(s[0], r);
      Insert(s[0], r)
  }

  lemma {:induction false} InsertLength(x: nat, s: seq<nat>)
    ensures |Insert(x, s)| == |s| + 1
  {
    if s != [] && x > s[0] {
      InsertLength(x, s[1..]);
    }
  }

  /** `maxCommit` before it is capped at the last log index. */
  function CommitCandidate(matchIndex: seq<nat>, me: nat): nat
    requires me < |matchIndex| && |matchIndex| >= 2
  {
    Sort(matchIndex[me := 0])[(|matchIndex| + 1) / 2]
  }

  /** The downward search for the highest entry of the current term above `commit`. */
  function ScanCommit(log: seq<LogEntry>, term: nat, i: nat, commit: nat): nat
    requires i < |log|
  {
    if i <= commit then commit
    else if log[i].term == term then i
    else ScanCommit(log, term, i - 1, commit)
  }

  function NewNext(s: Server, me: nat, replies: seq<AppendReply>): seq<nat>
    requires |replies| == |s.nextIndex|
  {
    seq(|replies|, id requires 0 <= id < |replies| =>
      if id == me then s.nextIndex[id]
      else if replies[id].success then s.beatLast + 1
      else if replies[id].nextIndex >= 1 then replies[id].nextIndex
      else s.nextIndex[id])
  }

  function NewMatch(s: Server, me: nat, replies: seq<AppendReply>): seq<nat>
    requires |replies| == |s.matchIndex|
  {
    seq(|replies|, id requires 0 <= id < |replies| =>
      if id != me && replies[id].success then s.beatLast else s.matchIndex[id])
  }

  /** The second half of `heartbeat`: use the replies of this round, then try to commit. */
  function CollectBeat(s: Server, me: nat, replies: seq<AppendReply>): Server
    requires |replies| == |s.nextIndex| == |s.matchIndex|
    requires me < |replies| && |replies| >= 2
  {
    var matchIndex := NewMatch(s, me, replies);
    var maxCommit := Min(CommitCandidate(matchIndex, me), |s.log| - 1);
    s.(nextIndex := NewNext(s, me, replies),
       matchIndex := matchIndex,
       commitIndex := ScanCommit(s.log, s.currentTerm, maxCommit, s.commitIndex))
  }

  // ----- applying

  /** The messages `applyEntries` sends for the indices from `from` up to and including `to`. */
  function Outputs(log: seq<LogEntry>, from: nat, to: nat): seq<ApplyMsg>
    requires from <= to < |log|
  {
    seq(to - from, k requires 0 <= k < to - from => ApplyMsg(from + 1 + k, log[from + 1 + k].data))
  }

  function ApplyEntries(s: Server): Server
    requires s.commitIndex < |s.log|
  {
    if s.commitIndex > s.lastApplied then
      s.(output := s.output + Outputs(s.log, s.lastApplied, s.commitIndex), lastApplied := s.commitIndex)
    else
      s
  }
}
