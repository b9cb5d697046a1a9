/**
 A cluster of Raft servers over a network that loses, delays, repeats and
 reorders messages, with crashes and restarts. A state holds the servers and
 every message ever sent; a message that is never delivered was lost.

 Modelling assumptions, each a named guard or stated here:
 - A1 every handler, and every reply handler, is one step;
 - A2 votes and heartbeat replies are used only in the term and the round that
   asked for them (`HasVote`, `RepliesOfRound`);
 - A3 the number of servers is odd (`ValidSize`);
 - A4 AppendEntries from one leader to one follower in one term arrive in
   sending order (`IsOrderedRun`, used only by the theorems that name it);
 - A5 a message holds a copy of the leader's entries.
 */
module RaftCluster {
  import opened RaftServer

  datatype Message =
    | VoteRequest(vote: VoteArgs)
    | VoteAnswer(round: nat, candidate: nat, voter: nat, voteReply: VoteReply)
    | Append(to: nat, beat: nat, append: AppendArgs)
    | AppendAnswer(round: nat, leader: nat, from: nat, beat: nat, appendReply: AppendReply)

  datatype Cluster = Cluster(servers: seq<Server>, net: set<Message>)

  datatype Action =
    | Timeout(i: nat)
    | StepDown(i: nat)
    | DeliverVote(i: nat, m: Message)
    | VoteReturns(i: nat, m: Message)
    | Elected(i: nat, voters: set<nat>)
    | Start(i: nat, command: Command)
    | Heartbeat(i: nat)
    | DeliverAppend(i: nat, m: Message)
    | AppendReturns(i: nat, m: Message)
    | Collect(i: nat, replies: seq<AppendReply>)
    | Apply(i: nat)
    | Kill(i: nat)
    | Restart(i: nat)

  predicate ValidSize(n: nat) {
    n % 2 == 1
  }

  /** `math.Ceil(len(peers) / 2)`. */
  function ElectionQuorum(n: nat): nat {
    (n + 1) / 2
  }

  function Init(n: nat): (c: Cluster)
    ensures Shaped(c)
  {
    Cluster(seq(n, _ => Boot(Blank)), {})
  }

  /** What makes every index in the handlers legal; `Effect` keeps it. */
  predicate ShapedServer(n: nat, s: Server) {
    s.phase.Leader? ==>
      && |s.nextIndex| == |s.matchIndex| == n
      && forall k :: 0 <= k < n ==> s.nextIndex[k] >= 1
  }

  predicate Shaped(c: Cluster) {
    forall i :: 0 <= i < |c.servers| ==> ShapedServer(|c.servers|, c.servers[i])
  }

  predicate HasVote(c: Cluster, i: nat, voter: nat)
    requires i < |c.servers|
  {
    voter == i
    || exists m :: m in c.net && m.VoteAnswer? && m.round == c.servers[i].currentTerm
                   && m.candidate == i && m.voter == voter && m.voteReply.granted
  }

  predicate ReplyOfRound(c: Cluster, i: nat, peer: nat, reply: AppendReply)
    requires i < |c.servers|
  {
    var s := c.servers[i];
    reply == NO_REPLY || AppendAnswer(s.currentTerm, i, peer, s.beat, reply) in c.net
  }

  predicate RepliesOfRound(c: Cluster, i: nat, replies: seq<AppendReply>)
    requires i < |c.servers|
  {
    |replies| == |c.servers|
    && forall p :: 0 <= p < |replies| ==> ReplyOfRound(c, i, p, replies[p])
  }

  predicate Enabled(c: Cluster, a: Action) {
    && a.i < |c.servers|
    && var s := c.servers[a.i];
    match a
    case Timeout(i) => s.phase.Follower?
    case StepDown(i) => s.phase.Candidate?
    case DeliverVote(i, m) => m in c.net && m.VoteRequest? && m.vote.candidate != i
    case VoteReturns(i, m) => m in c.net && m.VoteAnswer? && m.candidate == i
    case Elected(i, voters) =>
      && s.phase.Candidate?
      && |voters| >= ElectionQuorum(|c.servers|)
      && forall v :: v in voters ==> v < |c.servers| && HasVote(c, i, v)
    case Start(i, command) => s.phase.Leader?
    case Heartbeat(i) => s.phase.Leader?
    case DeliverAppend(i, m) => m in c.net && m.Append? && m.to == i
    case AppendReturns(i, m) => m in c.net && m.AppendAnswer? && m.leader == i
    case Collect(i, replies) => s.phase.Leader? && |c.servers| >= 2 && RepliesOfRound(c, i, replies)
    case Apply(i) => s.commitIndex < |s.log|  // otherwise the loop would index past the log and panic
    case Kill(i) => true
    case Restart(i) => true
  }

  function WithServer(c: Cluster, i: nat, s: Server): Cluster
    requires i < |c.servers|
  {
    c.(servers := c.servers[i := s])
  }

  function Send(c: Cluster, ms: set<Message>): Cluster {
    c.(net := c.net + ms)
  }

  function Beats(c: Cluster, i: nat): set<Message>
    requires Shaped(c) && i < |c.servers| && c.servers[i].phase.Leader?
  {
    var s := c.servers[i];
    set p | 0 <= p < |c.servers| && p != i :: Append(p, s.beat + 1, BuildAppendArgs(s, i, p))
  }

  function Effect(c: Cluster, a: Action): (c': Cluster)
    requires Shaped(c) && Enabled(c, a)
    ensures Shaped(c') && |c'.servers| == |c.servers|
  {
    var s := c.servers[a.i];
    match a
    case Timeout(i) =>
      var s' := CallElection(s, i);
      Send(WithServer(c, i, s'), {VoteRequest(BuildVoteArgs(s', i))})
    case StepDown(i) => WithServer(c, i, s.(phase := Follower))
    case DeliverVote(i, m) =>
      var (s', reply) := HandleVote(s, m.vote);
      Send(WithServer(c, i, s'), {VoteAnswer(m.vote.term, m.vote.candidate, i, reply)})
    case VoteReturns(i, m) => WithServer(c, i, TermSync(s, m.voteReply.term))
    case Elected(i, voters) => WithServer(c, i, InitLeader(s, |c.servers|))
    case Start(i, command) => WithServer(c, i, Submit(s, command))
    case Heartbeat(i) => Send(WithServer(c, i, SendBeat(s)), Beats(c, i))
    case DeliverAppend(i, m) =>
      var (s', reply) := HandleAppend(s, m.append);
      Send(WithServer(c, i, s'), {AppendAnswer(m.append.term, m.append.leader, i, m.beat, reply)})
    case AppendReturns(i, m) => WithServer(c, i, TermSync(s, m.appendReply.term))
    case Collect(i, replies) => WithServer(c, i, CollectBeat(s, i, replies))
    case Apply(i) => WithServer(c, i, ApplyEntries(s))
    case Kill(i) => WithServer(c, i, s.(phase := Exit))
    case Restart(i) => WithServer(c, i, Boot(s.disk))
  }

  /**
   A run: a sequence of states from the initial one, each the effect of an
   enabled action on the one before. `Shaped` only makes the clause well
   defined; `Init` and `Effect` establish it.
   */
  predicate IsRun(n: nat, states: seq<Cluster>, actions: seq<Action>) {
    && |states| == |actions| + 1
    && states[0] == Init(n)
    && forall k :: 0 <= k < |actions| ==> IsStep(states[k], actions[k], states[k + 1])
  }

  predicate IsStep(c: Cluster, a: Action, c': Cluster) {
    Shaped(c) && Enabled(c, a) && c' == Effect(c, a)
  }

  // ----- the order of deliveries

  /** The length of the leader's log when it built the message. */
  function SentLength(m: Message): nat
    requires m.Append?
  {
    m.append.prevLogIndex + 1 + |m.append.entries|
  }

  /** Two deliveries to one follower from the leader of one term. */
  predicate SameChannel(a: Action, b: Action) {
    && a.DeliverAppend? && a.m.Append? && b.DeliverAppend? && b.m.Append?
    && a.i == b.i && a.m.append.term == b.m.append.term
  }

  /** The follower accepts the message that `a` delivers. */
  predicate Accepting(c: Cluster, a: Action) {
    a.DeliverAppend? && a.m.Append? && a.i < |c.servers| && HandleAppend(c.servers[a.i], a.m.append).1.success
  }

  /** Assumption A4: on every channel messages arrive in the order in which they were sent. */
  predicate IsOrderedRun(n: nat, states: seq<Cluster>, actions: seq<Action>) {
    && IsRun(n, states, actions)
    && forall j, k :: 0 <= j < k < |actions| && SameChannel(actions[j], actions[k]) ==>
         actions[j].m.beat <= actions[k].m.beat
  }

  /** Steps `j` and `k` deliver messages on one channel, and both are accepted. */
  predicate BothAccepted(states: seq<Cluster>, actions: seq<Action>, j: nat, k: nat)
    requires j < |actions| && k < |actions| && |actions| <= |states|
  {
    SameChannel(actions[j], actions[k]) && Accepting(states[j], actions[j]) && Accepting(states[k], actions[k])
  }

  /**
   A weaker assumption, which a follower could check by remembering one number
   per term: it accepts no message from a leader that was built on a shorter
   log than one it accepted from that leader before.
   */
  predicate IsGuardedRun(n: nat, states: seq<Cluster>, actions: seq<Action>) {
    && IsRun(n, states, actions)
    && forall j, k :: 0 <= j < k < |actions| && BothAccepted(states, actions, j, k) ==>
         SentLength(actions[j].m) <= SentLength(actions[k].m)
  }
}
