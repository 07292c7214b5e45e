/** Steps of a single server: crash, client command, compaction, broadcast; and losing a message. */
module RaftStepLocal {
  import opened Sequences
  import opened RaftCore
  import opened RaftCoreSteps
  import opened RaftServer
  import opened RaftNet
  import opened RaftInvariant
  import opened RaftFrames

  // ----- trimmed and full logs

  lemma FullIndex(s: Server, n: nat, r: nat)
    requires Shape(s, n) && s.lastIncludedIndex <= r < RealLogLen(s)
    ensures |Full(s)| == RealLogLen(s) && Full(s)[r].term == s.log[r - s.lastIncludedIndex].term
    ensures r > s.lastIncludedIndex ==> Full(s)[r] == s.log[r - s.lastIncludedIndex]
  {}

  lemma FullTail(s: Server, n: nat, r: nat)
    requires Shape(s, n) && s.lastIncludedIndex < r <= RealLogLen(s)
    ensures |Full(s)| == RealLogLen(s) && Full(s)[r..] == s.log[r - s.lastIncludedIndex..]
  {}

  lemma FullSnapshot(s: Server, n: nat)
    requires Shape(s, n)
    ensures |Full(s)| == RealLogLen(s) && Full(s)[..s.lastIncludedIndex + 1] == s.snapshot
  {}

  lemma FullLast(s: Server, n: nat)
    requires Shape(s, n)
    ensures Full(s) != [] && LastTerm(Full(s)) == LastLogTerm(s) && |Full(s)| == LastLogIndex(s) + 1
  {}

  // ----- transitions of the core leave other servers alone

  lemma RaiseUntouched(c: Core, i: nat, t: nat)
    requires Inv(c) && i < c.n && c.pterm[i] <= t
    ensures forall j: nat :: j < c.n && j != i ==> Untouched(c, Raise(c, i, t), j)
  {
    RaiseKeepsInv(c, i, t);
  }

  lemma ExtendUntouched(c: Core, u: nat, x: LogEntry)
    requires Inv(c) && Leads(c, u) && x.term == u && u > 0
    ensures forall j: nat :: j < c.n && j != c.elect[u].leader ==> Untouched(c, Extend(c, u, x), j)
  {
    ExtendKeepsInv(c, u, x);
  }

  lemma AdoptUntouched(c: Core, i: nat, u: nat, m: nat)
    requires Inv(c) && i < c.n && c.pterm[i] <= u && u in c.elect && u in c.llog && 0 < m <= |c.llog[u]|
    ensures forall j: nat :: j < c.n && j != i ==> Untouched(c, Adopt(c, i, u, m), j)
  {
    AdoptKeepsInv(c, i, u, m);
  }

  lemma GrantUntouched(c: Core, i: nat, u: nat, candidate: nat)
    requires Inv(c) && i < c.n && c.pterm[i] <= u && (i, u) !in c.grants
    requires candidate < c.n && (candidate == i || u <= c.pterm[candidate])
    ensures forall j: nat :: j < c.n && j != i ==> Untouched(c, GrantVote(c, i, u, candidate), j)
  {
    GrantVoteKeepsInv(c, i, u, candidate);
  }

  lemma WinUntouched(c: Core, u: nat, candidate: nat, q: set<nat>)
    requires Inv(c) && Won(c, u, candidate, q)
    ensures forall j: nat :: j < c.n && j != candidate ==> Untouched(c, Win(c, u, candidate, q), j)
  {
    WinKeepsInv(c, u, candidate, q);
  }

  // ----- votes remembered

  /** In memory as on disk, a server remembers the vote it granted in its current term. */
  lemma VoteRemembered(c: Core, i: nat, s: Server)
    requires Inv(c) && i < c.n && |s.log| >= 1 && DiskOk(c, i, s)
    ensures forall u :: (i, u) in c.grants ==> u <= c.pterm[i]
    ensures (i, s.currentTerm) in c.grants ==> s.votedFor == c.grants[(i, s.currentTerm)].candidate
  {
    forall u | (i, u) in c.grants ensures u <= c.pterm[i] {
      assert GrantOk(c, i, u);
    }
  }

  /** Persisting the current state, in a history that records the term. */
  lemma PersistDisk(c: Core, c': Core, i: nat, s: Server)
    requires i < c.n == |c.pterm| == |c'.pterm| && |s.log| >= 1 && c'.pterm[i] == s.currentTerm
    requires (i, s.currentTerm) in c'.grants ==> s.votedFor == c'.grants[(i, s.currentTerm)].candidate
    ensures DiskOk(c', i, Persist(s))
  {}

  /** Pending vote calls stay open while no vote is granted. */
  lemma OpenWhileNoGrant(net: Net, h: History, c': Core, m: Rpc)
    requires NetInv(net, h) && m in net.rpcs && !m.Over? && c'.grants == h.core.grants
    ensures m.src < h.core.n && StillOpen(c', m)
  {
    assert RpcOk(h.core, h.counted[m.src], net.servers[m.src], m);
  }

  /** The server stays in its role and term, or becomes a follower. */
  ghost predicate Steady(c: Core, c': Core, i: nat, s: Server, s': Server)
    requires i < |c.logs| && i < |c'.logs|
  {
    && (s'.role == Candidate ==> s.role == Candidate && s'.currentTerm == s.currentTerm && c'.logs[i] == c.logs[i])
    && (s'.role == Leader ==> s.role == Leader && s'.currentTerm == s.currentTerm && s.commitIndex <= s'.commitIndex)
  }

  /** Server `i` moves steadily, no vote is granted, and the rpcs stay as they are. */
  lemma AssembleSteady(net: Net, h: History, i: nat, s': Server, c': Core)
    requires NetInv(net, h) && i < h.core.n && Inv(c') && Grows(h.core, c') && c'.grants == h.core.grants
    requires forall j: nat :: j < h.core.n && j != i ==> Untouched(h.core, c', j)
    requires ServerOk(c', h.counted[i], i, s')
    requires Steady(h.core, c', i, net.servers[i], s')
    ensures NetInv(net.(servers := net.servers[i := s']), h.(core := c'))
  {
    forall m | m in net.rpcs && !m.Over?
      ensures m.src < h.core.n && Carried(net, h, i, s', c', h.counted[i], m)
    {
      OpenWhileNoGrant(net, h, c', m);
    }
    Assemble(net, h, i, s', c', h.counted[i], net.rpcs);
    assert h.counted[i := h.counted[i]] == h.counted;
  }

  // ----- crash and restart

  lemma CrashServer(c: Core, counted: set<nat>, i: nat, s: Server)
    requires ServerOk(c, counted, i, s)
    ensures Restart(s, c.n).log == s.log && ServerOk(c, counted, i, Restart(s, c.n))
  {
    assert s.disk.log[0 := s.disk.log[0].(term := s.disk.lastIncludedTerm)] == s.log;
  }

  lemma CrashStep(net: Net, h: History, i: nat)
    requires NetInv(net, h) && i < h.core.n && Enabled(net, Crash(i))
    ensures NetInv(Next(net, Crash(i)), h)
  {
    assert ServerOk(h.core, h.counted[i], i, net.servers[i]);
    CrashServer(h.core, h.counted[i], i, net.servers[i]);
    AssembleSteady(net, h, i, Restart(net.servers[i], h.core.n), h.core);
    assert h.(core := h.core) == h;
  }

  // ----- losing a message

  lemma LoseStep(net: Net, h: History, k: nat)
    requires NetInv(net, h) && Enabled(net, Lose(k))
    ensures NetInv(Next(net, Lose(k)), h)
  {
    UniqueReplace(net.rpcs, k, Over);
    var rpcs := net.rpcs[k := Over];
    forall m | m in rpcs ensures m.Over? || m in net.rpcs {
      var j :| 0 <= j < |rpcs| && rpcs[j] == m;
      assert j == k || net.rpcs[j] == m;
    }
  }

  // ----- compaction

  lemma CompactShape(s: Server, n: nat, index: nat, data: Log)
    requires Shape(s, n) && s.lastIncludedIndex < index <= s.commitIndex && data == Full(s)[..index + 1]
    ensures var s' := TakeSnapshot(s, index, data);
      && Shape(s', n) && Full(s') == Full(s) && RealLogLen(s') == RealLogLen(s)
      && s' == Persist(s.(lastIncludedIndex := index, log := s'.log, snapshot := data))
  {
    FullIndex(s, n, index);
    FullTail(s, n, index + 1);
    var s' := TakeSnapshot(s, index, data);
    assert s'.log[1..] == s.log[index - s.lastIncludedIndex + 1..];
    assert Full(s') == Full(s)[..index + 1] + Full(s)[index + 1..];
  }

  lemma CompactServer(c: Core, counted: set<nat>, i: nat, s: Server, index: nat, data: Log)
    requires Inv(c) && ServerOk(c, counted, i, s)
    requires s.lastIncludedIndex < index <= s.commitIndex && data == Full(s)[..index + 1]
    requires Inv(Raise(c, i, s.currentTerm)) && Grows(c, Raise(c, i, s.currentTerm))
    ensures ServerOk(Raise(c, i, s.currentTerm), counted, i, TakeSnapshot(s, index, data))
  {
    var c' := Raise(c, i, s.currentTerm);
    var s' := TakeSnapshot(s, index, data);
    CompactShape(s, c.n, index, data);
    VoteRemembered(c, i, s);
    PersistDisk(c, c', i, s.(lastIncludedIndex := index, log := s'.log, snapshot := data));
    EvidentGrows(c, c', Full(s), Full(s'), s.commitIndex, s.currentTerm, s.currentTerm);
    EvidentLower(c', Full(s'), s.commitIndex, s.currentTerm, index);
    assert LeaderOk(c', i, s') by {
      if s.role == Leader {
        forall p: nat | p < |s'.matchIndex| ensures MatchOk(c', s', p) {
          assert MatchOk(c, s, p);
        }
      }
    }
    assert CandidateOk(c', counted, i, s') by {
      if s.role == Candidate {
        forall j | j in counted ensures VotedFor(c', s'.currentTerm, i, j) {
          assert VotedFor(c, s.currentTerm, i, j);
        }
      }
    }
  }

  lemma CompactStep(net: Net, h: History, i: nat, index: nat, data: Log) returns (h': History)
    requires NetInv(net, h) && i < h.core.n && Enabled(net, Compact(i, index, data))
    ensures NetInv(Next(net, Compact(i, index, data)), h') && Grows(h.core, h'.core)
  {
    h' := h;
    var s := net.servers[i];
    assert ServerOk(h.core, h.counted[i], i, s);
    if s.lastIncludedIndex < index <= s.commitIndex {
      RaiseKeepsInv(h.core, i, s.currentTerm);
      RaiseUntouched(h.core, i, s.currentTerm);
      CompactServer(h.core, h.counted[i], i, s, index, data);
      hide Inv, NetInv, CommitOk, LeaderOk, CandidateOk, DiskOk, PastOk, Untouched, Full;
      AssembleSteady(net, h, i, TakeSnapshot(s, index, data), Raise(h.core, i, s.currentTerm));
      h' := h.(core := Raise(h.core, i, s.currentTerm));
    } else {
      assert net.servers[i := s] == net.servers;
    }
  }

  // ----- a client command

  lemma StartShape(s: Server, n: nat, me: nat, command: int)
    requires Shape(s, n) && me < n && s.role == Leader
    ensures var s' := Start(s, me, command); var x := LogEntry(s.currentTerm, Some(command));
      && Shape(s', n) && Full(s') == Full(s) + [x] && RealLogLen(s') == RealLogLen(s) + 1
      && |Full(s)| == RealLogLen(s) && LastLogIndex(s') == RealLogLen(s)
  {
    var x := LogEntry(s.currentTerm, Some(command));
    assert (s.log + [x])[1..] == s.log[1..] + [x];
  }

  lemma StartLeader(c: Core, c': Core, i: nat, s: Server, command: int)
    requires Shape(s, c.n) && i < c.n == |c.pterm| && LeaderOk(c, i, s) && s.role == Leader && Leads(c, s.currentTerm)
    requires c' == Extend(c, s.currentTerm, LogEntry(s.currentTerm, Some(command))) && Grows(c, c')
    ensures LeaderOk(c', i, Start(s, i, command))
  {
    var s' := Start(s, i, command);
    StartShape(s, c.n, i, command);
    forall p: nat | p < |s'.matchIndex| ensures MatchOk(c', s', p) {
      assert MatchOk(c, s, p);
    }
  }

  lemma StartCommit(c: Core, c': Core, i: nat, s: Server, command: int)
    requires Shape(s, c.n) && i < c.n && CommitOk(c, s) && s.role == Leader && Grows(c, c')
    requires s.disk.currentTerm <= s.currentTerm
    ensures |Start(s, i, command).log| >= 1 && CommitOk(c', Start(s, i, command))
  {
    var s' := Start(s, i, command);
    StartShape(s, c.n, i, command);
    hide Evident;
    assert Full(s')[..s.commitIndex + 1] == Full(s)[..s.commitIndex + 1];
    assert Full(s')[..s.lastIncludedIndex + 1] == Full(s)[..s.lastIncludedIndex + 1];
    EvidentGrows(c, c', Full(s), Full(s'), s.commitIndex, s.currentTerm, s.currentTerm);
    EvidentGrows(c, c', Full(s), Full(s'), s.lastIncludedIndex, s.disk.currentTerm, s'.disk.currentTerm);
  }

  lemma StartServer(c: Core, counted: set<nat>, i: nat, s: Server, command: int)
    requires Inv(c) && ServerOk(c, counted, i, s) && s.role == Leader
    requires var x := LogEntry(s.currentTerm, Some(command));
      Leads(c, s.currentTerm) && Inv(Extend(c, s.currentTerm, x)) && Grows(c, Extend(c, s.currentTerm, x))
    ensures ServerOk(Extend(c, s.currentTerm, LogEntry(s.currentTerm, Some(command))), counted, i, Start(s, i, command))
  {
    var c' := Extend(c, s.currentTerm, LogEntry(s.currentTerm, Some(command)));
    StartShape(s, c.n, i, command);
    StartLeader(c, c', i, s, command);
    StartCommit(c, c', i, s, command);
    VoteRemembered(c, i, s);
    hide CommitOk, Inv;
  }

  lemma LeaderLeads(c: Core, counted: set<nat>, i: nat, s: Server)
    requires Inv(c) && ServerOk(c, counted, i, s) && s.role == Leader
    ensures Leads(c, s.currentTerm) && s.currentTerm > 0 && c.elect[s.currentTerm].leader == i
  {
    assert ElectOk(c, s.currentTerm);
  }

  lemma ClientStep(net: Net, h: History, i: nat, command: int) returns (h': History)
    requires NetInv(net, h) && i < h.core.n && Enabled(net, Client(i, command))
    ensures NetInv(Next(net, Client(i, command)), h') && Grows(h.core, h'.core)
  {
    h' := h;
    var s := net.servers[i];
    assert ServerOk(h.core, h.counted[i], i, s);
    if s.role == Leader {
      var x := LogEntry(s.currentTerm, Some(command));
      LeaderLeads(h.core, h.counted[i], i, s);
      ExtendKeepsInv(h.core, s.currentTerm, x);
      ExtendUntouched(h.core, s.currentTerm, x);
      StartServer(h.core, h.counted[i], i, s, command);
      AssembleSteady(net, h, i, Start(s, i, command), Extend(h.core, s.currentTerm, x));
      h' := h.(core := Extend(h.core, s.currentTerm, x));
    } else {
      assert net.servers[i := s] == net.servers;
    }
  }

  // ----- broadcast

  lemma AppendMessageOk(c: Core, i: nat, s: Server, peer: nat)
    requires i < |c.pterm| == |c.logs| == c.n && Shape(s, c.n) && CommitOk(c, s) && LeaderOk(c, i, s)
    requires s.role == Leader && peer < c.n && peer != i && s.nextIndex[peer] > s.lastIncludedIndex
    ensures MessageFor(s, i, peer).Some? && MessageFor(s, i, peer).value.AppendMessage?
    ensures AppendArgsOk(c, i, peer, MessageFor(s, i, peer).value.append)
  {
    hide Evident;
    var next := s.nextIndex[peer];
    FullIndex(s, c.n, next - 1);
    FullTail(s, c.n, next);
    var a := MessageFor(s, i, peer).value.append;
    assert a.entries == Full(s)[next..] == Full(s)[next..|Full(s)|];
  }

  lemma InstallMessageOk(c: Core, i: nat, s: Server, peer: nat)
    requires i < |c.pterm| == |c.logs| == c.n && Shape(s, c.n) && CommitOk(c, s) && LeaderOk(c, i, s)
    requires s.role == Leader && peer < c.n && peer != i && s.nextIndex[peer] <= s.lastIncludedIndex
    ensures MessageFor(s, i, peer).Some? && MessageFor(s, i, peer).value.InstallMessage?
    ensures InstallArgsOk(c, s, i, peer, MessageFor(s, i, peer).value.install)
  {
    hide Evident;
    FullSnapshot(s, c.n);
    FullIndex(s, c.n, s.lastIncludedIndex);
    EvidentLower(c, Full(s), s.commitIndex, s.currentTerm, s.lastIncludedIndex);
  }

  /** The leader always has a message for a peer: the panic is out of reach. */
  lemma MessageOk(c: Core, counted: set<nat>, i: nat, s: Server, peer: nat)
    requires ServerOk(c, counted, i, s) && s.role == Leader && peer < c.n && peer != i
    ensures MessageFor(s, i, peer).Some?
    ensures RpcOk(c, counted, s, AsCall(i, peer, MessageFor(s, i, peer).value))
  {
    hide MessageFor, CommitOk, LeaderOk, CandidateOk, DiskOk, PastOk;
    if s.nextIndex[peer] > s.lastIncludedIndex {
      AppendMessageOk(c, i, s, peer);
    } else {
      InstallMessageOk(c, i, s, peer);
    }
  }

  ghost predicate SentOk(c: Core, counted: set<nat>, i: nat, s: Server, m: Rpc)
  {
    && (m.AppendCall? || m.InstallCall?) && m.src == i < |c.pterm| == |c.logs|
    && RpcOk(c, counted, s, m)
  }

  lemma {:induction false} BroadcastOk(c: Core, counted: set<nat>, i: nat, s: Server, p: nat)
    requires ServerOk(c, counted, i, s) && s.role == Leader && p <= c.n
    ensures |s.log| >= 1 && |s.nextIndex| == c.n
    ensures AllSent(c, counted, i, s, Broadcast(s, i, p))
  {
    hide *;
    BroadcastSizes(c, counted, i, s);
    if p == 0 {
      SendNone(c, counted, i, s);
    } else {
      BroadcastOk(c, counted, i, s, p - 1);
      BroadcastNext(s, i, p);
      if p - 1 != i {
        MessageOk(c, counted, i, s, p - 1);
        SentIs(c, counted, i, s, p - 1, MessageFor(s, i, p - 1).value);
        SendOne(c, counted, i, s, Broadcast(s, i, p - 1), AsCall(i, p - 1, MessageFor(s, i, p - 1).value));
      }
      assert Broadcast(s, i, p - 1) + [] == Broadcast(s, i, p - 1);
    }
  }

  ghost predicate AllSent(c: Core, counted: set<nat>, i: nat, s: Server, sent: seq<Rpc>)
  {
    forall m :: m in sent ==> SentOk(c, counted, i, s, m)
  }

  lemma SendNone(c: Core, counted: set<nat>, i: nat, s: Server)
    requires |s.log| >= 1
    ensures AllSent(c, counted, i, s, Broadcast(s, i, 0))
  {}

  lemma SendOne(c: Core, counted: set<nat>, i: nat, s: Server, sent: seq<Rpc>, m: Rpc)
    requires AllSent(c, counted, i, s, sent) && SentOk(c, counted, i, s, m)
    ensures AllSent(c, counted, i, s, sent + [m])
  {
    hide SentOk;
  }

  lemma BroadcastSizes(c: Core, counted: set<nat>, i: nat, s: Server)
    requires ServerOk(c, counted, i, s)
    ensures |s.log| >= 1 && |s.nextIndex| == c.n
  {}

  lemma BroadcastNext(s: Server, me: nat, p: nat)
    requires |s.log| >= 1 && 0 < p <= |s.nextIndex|
    ensures var m := MessageFor(s, me, p - 1);
      Broadcast(s, me, p) == Broadcast(s, me, p - 1) +
        if p - 1 == me || m.None? then [] else [AsCall(me, p - 1, m.value)]
  {}

  lemma SentIs(c: Core, counted: set<nat>, i: nat, s: Server, peer: nat, m: Message)
    requires ServerOk(c, counted, i, s) && RpcOk(c, counted, s, AsCall(i, peer, m))
    ensures SentOk(c, counted, i, s, AsCall(i, peer, m))
  {}

  lemma HeartbeatStep(net: Net, h: History, i: nat)
    requires NetInv(net, h) && i < h.core.n && Enabled(net, Heartbeat(i))
    ensures NetInv(Next(net, Heartbeat(i)), h)
  {
    var s := net.servers[i];
    if s.role == Leader {
      assert ServerOk(h.core, h.counted[i], i, s);
      var sent := Broadcast(s, i, h.core.n);
      BroadcastOk(h.core, h.counted[i], i, s, h.core.n);
      forall m | m in sent ensures SentOk(h.core, h.counted[i], i, s, m) {}
      UniqueAppendOthers(net.rpcs, sent);
    }
  }

  // ----- delivering an rpc to a server that moves steadily

  /** Server `i` deals with rpc `k`, moves steadily, grants no vote, and answers. */
  lemma DeliverSteady(net: Net, h: History, k: nat, i: nat, s': Server, c': Core, answer: Rpc)
    requires NetInv(net, h) && k < |net.rpcs| && i < h.core.n && Inv(c') && Grows(h.core, c')
    requires c'.grants == h.core.grants
    requires forall j: nat :: j < h.core.n && j != i ==> Untouched(h.core, c', j)
    requires ServerOk(c', h.counted[i], i, s') && Steady(h.core, c', i, net.servers[i], s')
    requires answer.Over? ||
      (answer.src < h.core.n && RpcOk(c', h.counted[answer.src], net.servers[i := s'][answer.src], answer))
    requires !answer.VoteCall? && !answer.VoteAnswer?
    ensures NetInv(Replace(net, i, s', k, answer, []), h.(core := c'))
  {
    NetFacts(net, h);
    forall o | 0 <= o < |net.rpcs| && o != k && !net.rpcs[o].Over?
      ensures Carried(net, h, i, s', c', h.counted[i], net.rpcs[o])
    {
      OpenWhileNoGrant(net, h, c', net.rpcs[o]);
    }
    assert h.counted[i := h.counted[i]] == h.counted;
    hide *;
    AssembleDeliver(net, h, k, i, s', c', h.counted[i], answer, []);
  }
}
