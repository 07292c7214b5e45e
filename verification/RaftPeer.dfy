/**
 The handlers of raft.go as methods that update the fields of a peer.  Each is proved to do what
 the corresponding function on server values says.
 */
module RaftPeer {
  import opened Sequences
  import opened RaftCore
  import opened RaftServer

  class Raft {
    const me: nat
    const peers: nat
    var role: Role
    var currentTerm: nat
    var votedFor: int
    var log: Log
    var lastIncludedIndex: nat
    var snapshot: Log
    var commitIndex: nat
    var nextIndex: seq<int>
    var matchIndex: seq<int>
    var approvedNum: nat
    var persister: Disk

    ghost function State(): Server
      reads this
    {
      Server(role, currentTerm, votedFor, log, lastIncludedIndex, snapshot, commitIndex, nextIndex, matchIndex,
        approvedNum, persister)
    }

    ghost predicate Valid()
      reads this
    {
      Shape(State(), peers) && me < peers
    }

    // ----- index helpers

    function LastIndex(): int
      reads this
    {
      lastIncludedIndex + |log| - 1
    }

    function LastTermOfLog(): nat
      requires |log| >= 1
      reads this
    {
      if |log| < 2 then log[0].term else log[|log| - 1].term
    }

    function LogIndex(realIndex: int): int
      reads this
    {
      realIndex - lastIncludedIndex
    }

    function RealLen(): nat
      reads this
    {
      lastIncludedIndex + |log|
    }

    predicate UpToDate(lastLogTerm: nat, lastLogIndex: nat)
      requires |log| >= 1
      reads this
    {
      lastLogTerm > LastTermOfLog() || (lastLogTerm == LastTermOfLog() && lastLogIndex >= LastIndex())
    }

    // ----- start and restart

    /** `Make` with an empty persister. */
    constructor (peers: nat, me: nat)
      requires me < peers
      ensures this.peers == peers && this.me == me
      ensures State() == Boot(peers) && Valid()
    {
      this.peers, this.me := peers, me;
      role, currentTerm, votedFor := Follower, 0, NoVote;
      log, lastIncludedIndex, snapshot, commitIndex := [Sentinel], 0, [Sentinel], 0;
      nextIndex, matchIndex := Repeat(0, peers), Repeat(0, peers);
      approvedNum := 0;
      persister := Disk([Sentinel], 0, NoVote, 0, 0, [Sentinel]);
    }

    method Persist()
      requires |log| >= 1
      modifies this`persister
      ensures State() == RaftServer.Persist(old(State()))
    {
      persister := Disk(log, currentTerm, votedFor, lastIncludedIndex, log[0].term, snapshot);
    }

    /** `Make` on a persister with saved state: what a restarted peer starts from. */
    method ReadPersist()
      requires |persister.log| >= 1
      modifies this
      ensures State() == Restart(old(State()), peers)
    {
      role, nextIndex, matchIndex, approvedNum := Follower, Repeat(0, peers), Repeat(0, peers), 0;
      log := persister.log;
      currentTerm := persister.currentTerm;
      votedFor := persister.votedFor;
      lastIncludedIndex := persister.lastIncludedIndex;
      log := log[0 := log[0].(term := persister.lastIncludedTerm)];
      commitIndex := persister.lastIncludedIndex;
      snapshot := persister.snapshot;
    }

    method RequestVote(args: VoteArgs) returns (reply: VoteReply)
      requires Valid()
      modifies this
      ensures (State(), reply) == RaftServer.RequestVote(old(State()), args)
    {
      if args.term < currentTerm {
        return VoteReply(currentTerm, false);
      }
      if args.term > currentTerm {
        role := Follower;
        currentTerm, votedFor := args.term, NoVote;
      }
      if (votedFor == NoVote || votedFor == args.candidateId) &&
         UpToDate(args.lastLogTerm, args.lastLogIndex) {
        votedFor := args.candidateId;
        reply := VoteReply(currentTerm, true);
        Persist();
        return;
      }
      reply := VoteReply(currentTerm, false);
      Persist();
    }

    /** Timer expiry: become candidate, vote for oneself. */
    method StartElection() returns (args: VoteArgs)
      requires Valid()
      modifies this
      ensures State() == RaftServer.StartElection(old(State()), me)
      ensures args == VoteArgsOf(State(), me)
    {
      role := Candidate;
      currentTerm := currentTerm + 1;
      votedFor := me;
      Persist();
      approvedNum := 1;
      args := VoteArgs(currentTerm, me, LastIndex(), LastTermOfLog());
    }

    method InitializeLeaderEasilyLostState()
      requires Valid()
      modifies this`nextIndex, this`matchIndex
      ensures State() == InitializeLeader(old(State()), me, peers).(role := role)
    {
      var next, matched := nextIndex, matchIndex;
      for i := 0 to peers
        invariant |next| == |matched| == peers
        invariant forall j :: 0 <= j < i ==> next[j] == RealLen() && matched[j] == lastIncludedIndex
      {
        next := next[i := RealLen()];
        matched := matched[i := lastIncludedIndex];
      }
      matchIndex := matched[me := LastIndex()];
      nextIndex := next[me := LastIndex() + 1];
      assert nextIndex == InitializeLeader(old(State()), me, peers).nextIndex;
      assert matchIndex == InitializeLeader(old(State()), me, peers).matchIndex;
    }

    /** The goroutine that receives the reply of one peer. */
    method ReceiveVote(args: VoteArgs, reply: VoteReply) returns (won: bool)
      requires Valid()
      modifies this
      ensures (State(), won) == HandleVoteReply(old(State()), me, peers, args, reply)
    {
      if currentTerm != args.term || role != Candidate {
        return false;
      }
      if reply.term > currentTerm {
        currentTerm, votedFor := reply.term, NoVote;
        Persist();
        role := Follower;
        return false;
      } else if reply.term == currentTerm && role == Candidate {
        if reply.voteGranted {
          approvedNum := approvedNum + 1;
        }
        if approvedNum > peers / 2 {
          role := Leader;
          InitializeLeaderEasilyLostState();
          return true;
        }
      }
      return false;
    }

    // ----- AppendEntries

    method FindConflict(prevLogIndex: nat, conflictTerm: nat) returns (conflictIndex: int)
      requires Valid() && prevLogIndex <= LastIndex()
      ensures conflictIndex == ConflictIndex(State(), prevLogIndex, conflictTerm, -1)
    {
      conflictIndex := -1;
      var i: int := prevLogIndex;
      while i > commitIndex
        invariant i <= prevLogIndex
        invariant ConflictIndex(State(), i, conflictTerm, conflictIndex) ==
          ConflictIndex(State(), prevLogIndex, conflictTerm, -1)
      {
        if log[LogIndex(i)].term != conflictTerm {
          break;
        }
        conflictIndex := i;
        i := i - 1;
      }
    }

    method AppendNew(prevLogIndex: nat, entries: Log)
      requires |log| >= 1 && lastIncludedIndex <= prevLogIndex
      modifies this`log
      ensures log == AppendLoop(old(log), prevLogIndex + 1 - lastIncludedIndex, entries)
    {
      for i := 0 to |entries|
        invariant lastIncludedIndex <= prevLogIndex
        invariant AppendLoop(log, LogIndex(prevLogIndex + 1 + i), entries[i..])
               == AppendLoop(old(log), prevLogIndex + 1 - lastIncludedIndex, entries)
      {
        var entry := entries[i];
        var index := LogIndex(prevLogIndex + 1 + i);
        assert entries[i..][1..] == entries[i + 1..];
        if index < |log| {
          if log[index].term != entry.term {
            log := log[..index];
            log := log + [entry];
          }
        } else if index == |log| {
          log := log + [entry];
        }
      }
    }

    method AcceptEntries(args: AppendArgs)
      requires Valid() && lastIncludedIndex <= args.prevLogIndex
      modifies this`log, this`commitIndex
      ensures State() == Accept(old(State()), args) && |log| >= 1
    {
      AppendLoopNonempty(log, args.prevLogIndex + 1 - lastIncludedIndex, args.entries);
      AppendNew(args.prevLogIndex, args.entries);
      if args.leaderCommit > commitIndex {
        commitIndex := if args.leaderCommit <= LastIndex() then args.leaderCommit else LastIndex();
      }
    }

    method AppendEntries(args: AppendArgs) returns (reply: AppendReply)
      requires Valid()
      modifies this
      ensures (State(), reply) == RaftServer.AppendEntries(old(State()), args)
    {
      if args.term < currentTerm {
        return AppendReply(currentTerm, false, 0, 0, 0);
      }
      role := Follower;
      if args.term > currentTerm {
        currentTerm, votedFor := args.term, NoVote;
      }
      if lastIncludedIndex > args.prevLogIndex {
        reply := AppendReply(currentTerm, false, 0, 0, 0);
        Persist();
        return;
      }
      if LastIndex() < args.prevLogIndex {
        reply := AppendReply(currentTerm, false, -1, -1, RealLen());
        Persist();
        return;
      }
      var index := LogIndex(args.prevLogIndex);
      if log[index].term != args.prevLogTerm {
        var conflictTerm := log[index].term;
        var conflictIndex := FindConflict(args.prevLogIndex, conflictTerm);
        reply := AppendReply(currentTerm, false, conflictTerm, conflictIndex, RealLen());
        Persist();
        return;
      }
      AcceptEntries(args);
      reply := AppendReply(currentTerm, true, 0, 0, 0);
      Persist();
    }

    // ----- snapshots

    method Snapshot(index: nat, data: Log)
      requires Valid()
      modifies this
      ensures State() == TakeSnapshot(old(State()), index, data)
    {
      if commitIndex < index || lastIncludedIndex >= index {
        return;
      }
      var split := LogIndex(index);
      lastIncludedIndex := index;
      log := [LogEntry(log[split].term, None)] + log[split + 1..];
      snapshot := data;
      Persist();
    }

    method InstallSnapshot(args: InstallArgs) returns (term: nat)
      requires Valid()
      modifies this
      ensures (State(), term) == RaftServer.InstallSnapshot(old(State()), args)
    {
      if args.term < currentTerm {
        return currentTerm;
      }
      if args.term > currentTerm {
        currentTerm, votedFor := args.term, NoVote;
      }
      role := Follower;
      if args.lastIncludedIndex <= lastIncludedIndex {
        return currentTerm;
      }
      if args.lastIncludedIndex <= commitIndex {
        return currentTerm;
      }
      for i := 1 to |log|
        invariant State() == Follow(old(State()), args.term)
        invariant forall j :: 1 <= j < i ==>
          !(lastIncludedIndex + j == args.lastIncludedIndex && log[j].term == args.lastIncludedTerm)
      {
        if lastIncludedIndex + i == args.lastIncludedIndex && log[i].term == args.lastIncludedTerm {
          log := [LogEntry(args.lastIncludedTerm, None)] + log[i + 1..];
          lastIncludedIndex := args.lastIncludedIndex;
          commitIndex := args.lastIncludedIndex;
          snapshot := args.data;
          Persist();
          return currentTerm;
        }
      }
      assert !SnapshotEntryHeld(State(), args);
      assert [LogEntry(args.lastIncludedTerm, None)] + [] == [LogEntry(args.lastIncludedTerm, None)];
      log := [LogEntry(args.lastIncludedTerm, None)];
      lastIncludedIndex := args.lastIncludedIndex;
      commitIndex := args.lastIncludedIndex;
      snapshot := args.data;
      Persist();
      return currentTerm;
    }

    // ----- the leader

    method Start(command: int) returns (index: int, term: int, isLeader: bool)
      requires Valid()
      modifies this
      ensures State() == RaftServer.Start(old(State()), me, command)
      ensures isLeader <==> old(role) == Leader
      ensures (index, term) == if isLeader then (LastIndex(), currentTerm as int) else (-1, -1)
    {
      if role != Leader {
        return -1, -1, false;
      }
      log := log + [LogEntry(currentTerm, Some(command))];
      Persist();
      matchIndex, nextIndex := matchIndex[me := LastIndex()], nextIndex[me := RealLen()];
      return LastIndex(), currentTerm, true;
    }

    /** One iteration of the broadcast loop.  The precondition is what keeps it from panicking. */
    method SendTo(peer: nat) returns (message: Message)
      requires Valid() && peer < peers && nextIndex[peer] <= RealLen()
      ensures MessageFor(State(), me, peer) == Some(message)
    {
      if nextIndex[peer] <= lastIncludedIndex {
        message := InstallMessage(InstallArgs(currentTerm, me, lastIncludedIndex, log[0].term, snapshot));
      } else {
        var prevLogIndex := nextIndex[peer] - 1;
        var prevLogTerm;
        if prevLogIndex > lastIncludedIndex {
          prevLogTerm := log[LogIndex(prevLogIndex)].term;
        } else {
          prevLogTerm := log[0].term;
        }
        message := AppendMessage(AppendArgs(currentTerm, me, prevLogIndex, prevLogTerm,
          log[LogIndex(nextIndex[peer])..], commitIndex));
      }
    }

    method CountPeers(k: int) returns (succeedNum: nat)
      requires Valid() && lastIncludedIndex < k < RealLen()
      ensures succeedNum == if log[k - lastIncludedIndex].term == currentTerm then CountAtLeast(matchIndex, k) else 0
    {
      succeedNum := 0;
      for peer := 0 to peers
        invariant succeedNum ==
          if log[k - lastIncludedIndex].term == currentTerm then CountAtLeast(matchIndex[..peer], k) else 0
      {
        assert matchIndex[..peer + 1][..peer] == matchIndex[..peer];
        if k <= matchIndex[peer] && log[LogIndex(k)].term == currentTerm {
          succeedNum := succeedNum + 1;
        }
      }
      assert matchIndex[..peers] == matchIndex;
    }

    method CheckAndCommitLogs()
      requires Valid()
      modifies this`commitIndex
      ensures State() == CheckAndCommit(old(State()))
    {
      var best: nat := commitIndex;
      var k := commitIndex + 1;
      while k < RealLen()
        invariant State() == old(State()) && commitIndex < k && best < k
        invariant LastSupported(State(), k, best) == LastSupported(State(), commitIndex + 1, commitIndex)
      {
        var succeedNum := CountPeers(k);
        if succeedNum > peers / 2 {
          best := k;
        }
        k := k + 1;
      }
      SupportedAbove(State(), commitIndex + 1, commitIndex);
      if best > commitIndex {
        commitIndex := best;
      }
    }

    method FindNextIndex(peer: nat, reply: AppendReply)
      requires Valid() && peer < peers
      modifies this`nextIndex
      ensures nextIndex == old(nextIndex)[peer := RaftServer.FindNextIndex(old(State()), reply)]
    {
      if reply.xTerm == -1 && reply.xIndex == -1 {
        nextIndex := nextIndex[peer := reply.xLen];
        return;
      }
      var ok := false;
      for i := 0 to |log|
        invariant ok <==> LastWithTerm(log[..i], reply.xTerm) >= 0
        invariant nextIndex ==
          if ok then old(nextIndex)[peer := lastIncludedIndex + LastWithTerm(log[..i], reply.xTerm)]
          else old(nextIndex)
      {
        assert log[..i + 1][..i] == log[..i];
        if log[i].term == reply.xTerm {
          ok := true;
          nextIndex := nextIndex[peer := lastIncludedIndex + i];
        }
      }
      assert log[..|log|] == log;
      if !ok {
        nextIndex := nextIndex[peer := reply.xIndex];
      }
    }

    method ReceiveAppendReply(peer: nat, args: AppendArgs, reply: AppendReply)
      requires Valid() && peer < peers
      modifies this
      ensures State() == HandleAppendReply(old(State()), peer, args, reply)
    {
      if currentTerm != args.term || role != Leader {
        return;
      }
      if reply.term > currentTerm {
        role := Follower;
        currentTerm := reply.term;
        Persist();
        return;
      }
      if reply.success {
        matchIndex := matchIndex[peer := MaxInt(matchIndex[peer], args.prevLogIndex + |args.entries|)];
        nextIndex := nextIndex[peer := MaxInt(nextIndex[peer], args.prevLogIndex + |args.entries| + 1)];
        CheckAndCommitLogs();
      } else {
        FindNextIndex(peer, reply);
      }
    }

    method ReceiveInstallReply(peer: nat, args: InstallArgs, term: nat)
      requires Valid() && peer < peers
      modifies this
      ensures State() == HandleInstallReply(old(State()), peer, args, term)
    {
      if currentTerm != args.term || role != Leader {
        return;
      }
      if term > currentTerm {
        role := Follower;
        currentTerm := term;
        Persist();
        return;
      }
      matchIndex := matchIndex[peer := MaxInt(matchIndex[peer], args.lastIncludedIndex)];
      nextIndex := nextIndex[peer := MaxInt(nextIndex[peer], args.lastIncludedIndex + 1)];
    }
  }
}
