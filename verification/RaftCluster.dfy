/**
 Peers, as objects, driven through any schedule.  Every step of the driver is a step of the cluster
 of values, so what is proved of all runs holds of the objects; and in no run does a handler meet a
 state it cannot deal with.
 */
module RaftCluster {
  import opened RaftCore
  import opened RaftServer
  import opened RaftNet
  import opened RaftPeer
  import opened RaftSafety

  ghost function States(ps: seq<Raft>): (r: seq<Server>)
    reads ps
    ensures |r| == |ps| && forall i :: 0 <= i < |ps| ==> r[i] == ps[i].State()
  {
    if ps == [] then [] else States(ps[..|ps| - 1]) + [ps[|ps| - 1].State()]
  }

  /** What the step itself asks for, in a state where everything else is in order. */
  ghost predicate Possible(net: Net, step: Step)
  {
    match step
    case Deliver(k) => k < |net.rpcs|
    case Lose(k) => k < |net.rpcs|
    case Compact(i, index, data) =>
      && i < |net.servers| && |net.servers[i].log| >= 1
      && var s := net.servers[i];
         s.lastIncludedIndex < index <= s.commitIndex && index < |Full(s)| ==> data == Full(s)[..index + 1]
    case _ => step.i < |net.servers|
  }

  lemma PossibleEnabled(n: nat, nets: seq<Net>, steps: seq<Step>, step: Step)
    requires IsRun(n, nets, steps) && Possible(nets[|nets| - 1], step)
    ensures Enabled(nets[|nets| - 1], step)
  {
    AlwaysShaped(n, nets, steps, |nets| - 1);
  }

  lemma RunExtended(n: nat, nets: seq<Net>, steps: seq<Step>, step: Step)
    requires IsRun(n, nets, steps) && Enabled(nets[|nets| - 1], step)
    ensures IsRun(n, nets + [Next(nets[|nets| - 1], step)], steps + [step])
  {}

  /** A server that has just won can address every peer: its indices are one past its own log. */
  lemma WonInRange(s: Server, me: nat, n: nat, a: VoteArgs, r: VoteReply)
    requires Shape(s, n) && me < n && HandleVoteReply(s, me, n, a, r).1
    ensures var w := HandleVoteReply(s, me, n, a, r).0;
            Shape(w, n) && forall p: nat :: p < n ==> w.nextIndex[p] <= RealLogLen(w)
  {}

  lemma Booted(ps: seq<Raft>, n: nat)
    requires |ps| == n && forall j: nat :: j < n ==> ps[j].State() == Boot(n)
    ensures Net(States(ps), []) == Initial(n) && IsRun(n, [Initial(n)], [])
  {}

  class Cluster {
    const n: nat
    const peers: seq<Raft>
    var rpcs: seq<Rpc>
    ghost var nets: seq<Net>
    ghost var steps: seq<Step>

    ghost function Value(): Net
      reads this, peers
    {
      Net(States(peers), rpcs)
    }

    /** Each peer is an object of its own that knows its place. */
    ghost predicate Wired()
    {
      && |peers| == n
      && (forall i, j :: 0 <= i < j < n ==> peers[i] != peers[j])
      && (forall i: nat :: i < n ==> peers[i].me == i && peers[i].peers == n)
    }

    /** The objects are where a run of the cluster of values has led. */
    ghost predicate Valid()
      reads this, peers
    {
      Wired() && IsRun(n, nets, steps) && nets[|nets| - 1] == Value()
    }

    ghost predicate Ready(step: Step)
      reads this, peers
    {
      Valid() && Enabled(Value(), step)
    }

    /** The objects have moved as the cluster of values does. */
    twostate predicate Did(step: Step)
      requires old(Ready(step))
      reads this, peers
    {
      Wired() && Value() == Next(old(Value()), step)
    }

    /** What every handler relies on holds of every peer. */
    lemma PeerReady(i: nat)
      requires Valid() && i < n
      ensures peers[i].Valid() && |peers[i].persister.log| >= 1 && peers[i].State() == Value().servers[i]
      ensures AllShaped(Value()) && |Value().servers| == n
      ensures forall k: nat :: k < |rpcs| ==> Addressed(rpcs[k], n)
    {
      AlwaysShaped(n, nets, steps, |nets| - 1);
      assert Shape(Value().servers[i], n) && |Value().servers[i].disk.log| >= 1;
      forall k: nat | k < |rpcs| ensures Addressed(rpcs[k], n) {
        assert Enabled(Value(), Deliver(k));
      }
    }

    /** A handler changes the state of its own peer only. */
    twostate lemma Moved(i: nat)
      requires Wired() && i < n && forall j: nat :: j < n && j != i ==> unchanged(peers[j])
      ensures States(peers) == old(States(peers))[i := peers[i].State()]
    {}

    constructor (n: nat)
      ensures this.n == n && Valid() && steps == [] && fresh(peers)
    {
      hide IsRun, States, Initial, Raft.State, Boot;
      var ps: seq<Raft> := [];
      for i: nat := 0 to n
        invariant |ps| == i && fresh(ps)
        invariant forall j, k :: 0 <= j < k < i ==> ps[j] != ps[k]
        invariant forall j: nat :: j < i ==> ps[j].me == j && ps[j].peers == n && ps[j].State() == Boot(n)
      {
        var p := new Raft(n, i);
        ps := ps + [p];
      }
      this.n, peers, rpcs := n, ps, [];
      nets, steps := [Initial(n)], [];
      new;
      Booted(peers, n);
    }

    // ----- timers, clients, the service, crashes

    method VotesFor(args: VoteArgs, i: nat) returns (calls: seq<Rpc>)
      ensures calls == VoteCalls(args, i, n)
    {
      calls := [];
      for p: nat := 0 to n
        invariant calls == VoteCalls(args, i, p)
      {
        if p != i {
          calls := calls + [VoteCall(i, p, args)];
        }
      }
    }

    method Timeout(i: nat)
      requires i < n && Ready(ElectionTimeout(i))
      modifies peers[i], this`rpcs
      ensures Did(ElectionTimeout(i))
    {
      hide IsRun, States, Raft.State, StartElection, VoteCalls;
      PeerReady(i);
      var args := peers[i].StartElection();
      Moved(i);
      var calls := VotesFor(args, i);
      rpcs := rpcs + calls;
    }

    /** `heartbeatBroadcast`: a message for every other peer.  The bound keeps it from panicking. */
    method Messages(i: nat) returns (sent: seq<Rpc>)
      requires Wired() && i < n && peers[i].Valid()
      requires forall p: nat :: p < n && p != i ==> peers[i].nextIndex[p] <= peers[i].RealLen()
      ensures sent == Broadcast(peers[i].State(), i, n)
    {
      sent := [];
      for p: nat := 0 to n
        invariant sent == Broadcast(peers[i].State(), i, p)
      {
        if p != i {
          var message := peers[i].SendTo(p);
          sent := sent + [AsCall(i, p, message)];
        }
      }
    }

    lemma Bounded(i: nat)
      requires Valid() && i < n && peers[i].role == Leader
      ensures peers[i].Valid() && forall p: nat :: p < n && p != i ==> peers[i].nextIndex[p] <= peers[i].RealLen()
    {
      PeerReady(i);
      hide IsRun;
      forall p: nat | p < n && p != i ensures peers[i].nextIndex[p] <= peers[i].RealLen() {
        LeaderAlwaysSends(n, nets, steps, |nets| - 1, i, p);
      }
    }

    lemma InRange(i: nat, w: Server)
      requires Wired() && i < n && peers[i].State() == w
      requires Shape(w, n) && forall p: nat :: p < n ==> w.nextIndex[p] <= RealLogLen(w)
      ensures peers[i].Valid() && forall p: nat :: p < n && p != i ==> peers[i].nextIndex[p] <= peers[i].RealLen()
    {}

    method Beat(i: nat)
      requires i < n && Ready(Heartbeat(i))
      modifies this`rpcs
      ensures Did(Heartbeat(i))
    {
      hide IsRun;
      PeerReady(i);
      if peers[i].role == Leader {
        Bounded(i);
        var sent := Messages(i);
        rpcs := rpcs + sent;
      }
    }

    method Command(i: nat, command: int)
      requires i < n && Ready(Client(i, command))
      modifies peers[i]
      ensures Did(Client(i, command))
    {
      hide IsRun;
      PeerReady(i);
      var index, term, isLeader := peers[i].Start(command);
      Moved(i);
    }

    method Trim(i: nat, index: nat, data: Log)
      requires i < n && Ready(Compact(i, index, data))
      modifies peers[i]
      ensures Did(Compact(i, index, data))
    {
      hide IsRun;
      PeerReady(i);
      peers[i].Snapshot(index, data);
      Moved(i);
    }

    method Reboot(i: nat)
      requires i < n && Ready(Crash(i))
      modifies peers[i]
      ensures Did(Crash(i))
    {
      hide IsRun;
      PeerReady(i);
      peers[i].ReadPersist();
      Moved(i);
    }

    // ----- delivering calls and answers

    method CallVote(k: nat)
      requires k < |rpcs| && Ready(Deliver(k)) && rpcs[k].VoteCall?
      modifies peers, this`rpcs
      ensures Did(Deliver(k))
    {
      hide IsRun, States, Raft.State, RequestVote;
      var VoteCall(src, dst, a) := rpcs[k];
      PeerReady(dst);
      var r := peers[dst].RequestVote(a);
      Moved(dst);
      rpcs := rpcs[k := VoteAnswer(src, dst, a, r)];
    }

    method CallAppend(k: nat)
      requires k < |rpcs| && Ready(Deliver(k)) && rpcs[k].AppendCall?
      modifies peers, this`rpcs
      ensures Did(Deliver(k))
    {
      hide IsRun, States, Raft.State, RaftServer.AppendEntries;
      var AppendCall(src, dst, a) := rpcs[k];
      PeerReady(dst);
      var r := peers[dst].AppendEntries(a);
      Moved(dst);
      rpcs := rpcs[k := AppendAnswer(src, dst, a, r)];
    }

    method CallInstall(k: nat)
      requires k < |rpcs| && Ready(Deliver(k)) && rpcs[k].InstallCall?
      modifies peers, this`rpcs
      ensures Did(Deliver(k))
    {
      hide IsRun, States, Raft.State, RaftServer.InstallSnapshot;
      var InstallCall(src, dst, a) := rpcs[k];
      PeerReady(dst);
      var r := peers[dst].InstallSnapshot(a);
      Moved(dst);
      rpcs := rpcs[k := InstallAnswer(src, dst, a, r)];
    }

    method AnswerAppend(k: nat)
      requires k < |rpcs| && Ready(Deliver(k)) && rpcs[k].AppendAnswer?
      modifies peers, this`rpcs
      ensures Did(Deliver(k))
    {
      hide IsRun, States, Raft.State, HandleAppendReply;
      var AppendAnswer(src, dst, a, r) := rpcs[k];
      PeerReady(src);
      peers[src].ReceiveAppendReply(dst, a, r);
      Moved(src);
      rpcs := rpcs[k := Over];
    }

    method AnswerInstall(k: nat)
      requires k < |rpcs| && Ready(Deliver(k)) && rpcs[k].InstallAnswer?
      modifies peers, this`rpcs
      ensures Did(Deliver(k))
    {
      hide IsRun, States, Raft.State, HandleInstallReply;
      var InstallAnswer(src, dst, a, r) := rpcs[k];
      PeerReady(src);
      peers[src].ReceiveInstallReply(dst, a, r);
      Moved(src);
      rpcs := rpcs[k := Over];
    }

    /** A won election is followed at once by a broadcast, for which every index is in range. */
    method AnswerVote(k: nat)
      requires k < |rpcs| && Ready(Deliver(k)) && rpcs[k].VoteAnswer?
      modifies peers, this`rpcs
      ensures Did(Deliver(k))
    {
      hide IsRun, States, Raft.State, HandleVoteReply, Broadcast;
      var VoteAnswer(src, dst, a, r) := rpcs[k];
      PeerReady(src);
      ghost var s := peers[src].State();
      var won := peers[src].ReceiveVote(a, r);
      Moved(src);
      var sent := [];
      if won {
        WonInRange(s, src, n, a, r);
        InRange(src, peers[src].State());
        sent := Messages(src);
      }
      rpcs := rpcs[k := Over] + sent;
    }

    method Receive(k: nat)
      requires k < |rpcs| && Ready(Deliver(k))
      modifies peers, this`rpcs
      ensures Did(Deliver(k))
    {
      hide IsRun, States;
      match rpcs[k] {
        case VoteCall(_, _, _) => CallVote(k);
        case VoteAnswer(_, _, _, _) => AnswerVote(k);
        case AppendCall(_, _, _) => CallAppend(k);
        case AppendAnswer(_, _, _, _) => AnswerAppend(k);
        case InstallCall(_, _, _) => CallInstall(k);
        case InstallAnswer(_, _, _, _) => AnswerInstall(k);
        case Over =>
      }
    }

    method Drop(k: nat)
      requires k < |rpcs| && Ready(Lose(k))
      modifies this`rpcs
      ensures Did(Lose(k))
    {
      hide IsRun, States;
      rpcs := rpcs[k := Over];
    }

    // ----- any step

    method Dispatch(step: Step)
      requires Ready(step)
      modifies peers, this`rpcs
      ensures Did(step)
    {
      hide IsRun, States, Next, AllShaped, Full, Raft.State;
      match step {
        case ElectionTimeout(i) => Timeout(i);
        case Heartbeat(i) => Beat(i);
        case Client(i, command) => Command(i, command);
        case Compact(i, index, data) => Trim(i, index, data);
        case Crash(i) => Reboot(i);
        case Deliver(k) => Receive(k);
        case Lose(k) => Drop(k);
      }
    }

    /** The step is always possible where its own demands are met, and the objects stay on a run. */
    method Take(step: Step)
      requires Valid() && Possible(Value(), step)
      modifies this, peers
      ensures Valid() && Enabled(old(Value()), step) && Value() == Next(old(Value()), step)
      ensures steps == old(steps) + [step] && nets == old(nets) + [Value()]
    {
      hide IsRun, Next, Enabled, Possible, States, Raft.State;
      PossibleEnabled(n, nets, steps, step);
      RunExtended(n, nets, steps, step);
      Dispatch(step);
      nets, steps := nets + [Next(old(Value()), step)], steps + [step];
    }
  }
}
