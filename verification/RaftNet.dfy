/**
 A cluster of Raft servers and the calls between them.  A call is delivered at most once, its
 answer is received at most once, and either may be lost or delayed without bound; servers crash,
 keeping only what they persisted, and restart.  `Next` is one step of the cluster.
 */
module RaftNet {
  import opened RaftCore
  import opened RaftServer

  datatype Rpc =
    | VoteCall(src: nat, dst: nat, vote: VoteArgs)
    | VoteAnswer(src: nat, dst: nat, vote: VoteArgs, voteReply: VoteReply)
    | AppendCall(src: nat, dst: nat, append: AppendArgs)
    | AppendAnswer(src: nat, dst: nat, append: AppendArgs, appendReply: AppendReply)
    | InstallCall(src: nat, dst: nat, install: InstallArgs)
    | InstallAnswer(src: nat, dst: nat, install: InstallArgs, term: nat)
    | Over

  datatype Net = Net(servers: seq<Server>, rpcs: seq<Rpc>)

  datatype Step =
    | ElectionTimeout(i: nat)
    | Heartbeat(i: nat)
    | Client(i: nat, command: int)
    | Compact(i: nat, index: nat, data: Log)
    | Crash(i: nat)
    | Deliver(k: nat)
    | Lose(k: nat)

  // ----- messages sent together

  function VoteCalls(a: VoteArgs, me: nat, p: nat): seq<Rpc>
  {
    if p == 0 then []
    else VoteCalls(a, me, p - 1) + if p - 1 == me then [] else [VoteCall(me, p - 1, a)]
  }

  function AsCall(me: nat, peer: nat, m: Message): Rpc
  {
    match m
    case AppendMessage(a) => AppendCall(me, peer, a)
    case InstallMessage(a) => InstallCall(me, peer, a)
  }

  /** `heartbeatBroadcast`; a peer for which the code would panic gets no message. */
  function Broadcast(s: Server, me: nat, p: nat): seq<Rpc>
    requires |s.log| >= 1 && p <= |s.nextIndex|
  {
    if p == 0 then []
    else
      var m := MessageFor(s, me, p - 1);
      Broadcast(s, me, p - 1) + if p - 1 == me || m.None? then [] else [AsCall(me, p - 1, m.value)]
  }

  // ----- steps

  ghost predicate AllShaped(net: Net)
  {
    forall i :: 0 <= i < |net.servers| ==> Shape(net.servers[i], |net.servers|) && |net.servers[i].disk.log| >= 1
  }

  /** Whether an rpc is between servers of the cluster. */
  predicate Addressed(m: Rpc, n: nat)
  {
    m.Over? || (m.src < n && m.dst < n)
  }

  /** The step makes sense; a snapshot handed to a server is a snapshot of its own log. */
  ghost predicate Enabled(net: Net, step: Step)
  {
    && AllShaped(net)
    && match step
       case ElectionTimeout(i) => i < |net.servers|
       case Heartbeat(i) => i < |net.servers|
       case Client(i, _) => i < |net.servers|
       case Compact(i, index, data) =>
         && i < |net.servers|
         && var s := net.servers[i];
            s.lastIncludedIndex < index <= s.commitIndex ==> data == Full(s)[..index + 1]
       case Crash(i) => i < |net.servers|
       case Deliver(k) => k < |net.rpcs| && Addressed(net.rpcs[k], |net.servers|)
       case Lose(k) => k < |net.rpcs|
  }

  /** Replaces one server and the rpc it dealt with, and adds what it sends. */
  function Replace(net: Net, i: nat, s: Server, k: nat, m: Rpc, sent: seq<Rpc>): Net
    requires i < |net.servers| && k < |net.rpcs|
  {
    Net(net.servers[i := s], net.rpcs[k := m] + sent)
  }

  ghost function Delivered(net: Net, k: nat): Net
    requires AllShaped(net) && k < |net.rpcs| && Addressed(net.rpcs[k], |net.servers|)
  {
    var n := |net.servers|;
    match net.rpcs[k]
    case VoteCall(src, dst, a) =>
      var (s, r) := RequestVote(net.servers[dst], a);
      Replace(net, dst, s, k, VoteAnswer(src, dst, a, r), [])
    case VoteAnswer(src, dst, a, r) =>
      var (s, won) := HandleVoteReply(net.servers[src], src, n, a, r);
      Replace(net, src, s, k, Over, if won then Broadcast(s, src, n) else [])
    case AppendCall(src, dst, a) =>
      var (s, r) := AppendEntries(net.servers[dst], a);
      Replace(net, dst, s, k, AppendAnswer(src, dst, a, r), [])
    case AppendAnswer(src, dst, a, r) =>
      Replace(net, src, HandleAppendReply(net.servers[src], dst, a, r), k, Over, [])
    case InstallCall(src, dst, a) =>
      var (s, r) := InstallSnapshot(net.servers[dst], a);
      Replace(net, dst, s, k, InstallAnswer(src, dst, a, r), [])
    case InstallAnswer(src, dst, a, r) =>
      Replace(net, src, HandleInstallReply(net.servers[src], dst, a, r), k, Over, [])
    case Over => net
  }

  ghost function Next(net: Net, step: Step): Net
    requires Enabled(net, step)
  {
    var n := |net.servers|;
    match step
    case ElectionTimeout(i) =>
      var s := StartElection(net.servers[i], i);
      Net(net.servers[i := s], net.rpcs + VoteCalls(VoteArgsOf(s, i), i, n))
    case Heartbeat(i) =>
      var s := net.servers[i];
      if s.role == Leader then net.(rpcs := net.rpcs + Broadcast(s, i, n)) else net
    case Client(i, command) => net.(servers := net.servers[i := Start(net.servers[i], i, command)])
    case Compact(i, index, data) => net.(servers := net.servers[i := TakeSnapshot(net.servers[i], index, data)])
    case Crash(i) => net.(servers := net.servers[i := Restart(net.servers[i], n)])
    case Deliver(k) => Delivered(net, k)
    case Lose(k) => net.(rpcs := net.rpcs[k := Over])
  }

  ghost function Initial(n: nat): Net
  {
    Net(seq(n, _ => Boot(n)), [])
  }
}
