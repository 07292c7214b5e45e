/** Snapshots sent to a follower, and the answers. */
module RaftStepInstall {
  import opened RaftCore
  import opened RaftCoreSteps
  import opened RaftServer
  import opened RaftNet
  import opened RaftInvariant
  import opened RaftFrames
  import opened RaftStepLocal
  import opened RaftStepAppend

  // ----- installing

  predicate Installs(s: Server, a: InstallArgs)
  {
    a.term >= s.currentTerm && a.lastIncludedIndex > s.commitIndex
  }

  ghost function InstallCore(c: Core, j: nat, s: Server, a: InstallArgs): Core
    requires j < |c.pterm| && j < |c.logs| && a.term in c.llog && a.lastIncludedIndex < |c.llog[a.term]|
  {
    if Installs(s, a) then Adopt(c, j, a.term, a.lastIncludedIndex + 1) else c
  }

  lemma InstallGrows(c: Core, j: nat, s: Server, src: nat, sender: Server, a: InstallArgs)
    requires Inv(c) && j < c.n && c.pterm[j] <= s.currentTerm && InstallArgsOk(c, sender, src, j, a)
    ensures var c' := InstallCore(c, j, s, a);
      Inv(c') && Grows(c, c') && c'.grants == c.grants && forall i: nat :: i < c.n && i != j ==> Untouched(c, c', i)
  {
    GrowsSelf(c);
    hide Inv, Evident;
    if Installs(s, a) {
      AdoptKeepsInv(c, j, a.term, a.lastIncludedIndex + 1);
      AdoptUntouched(c, j, a.term, a.lastIncludedIndex + 1);
    }
  }

  lemma InstallArgsFacts(c: Core, sender: Server, src: nat, dst: nat, a: InstallArgs)
    requires InstallArgsOk(c, sender, src, dst, a)
    ensures a.term in c.elect && a.term in c.llog && a.lastIncludedIndex < |c.llog[a.term]|
    ensures a.data == c.llog[a.term][..a.lastIncludedIndex + 1]
    ensures a.lastIncludedTerm == c.llog[a.term][a.lastIncludedIndex].term
    ensures Evident(c, c.llog[a.term], a.lastIncludedIndex, a.term)
    ensures dst < c.n && c.elect[a.term].leader == src && src != dst
  {}

  lemma InstalledFields(s: Server, n: nat, a: InstallArgs)
    requires Shape(s, n) && a.lastIncludedIndex > s.commitIndex && |a.data| == a.lastIncludedIndex + 1
    requires a.lastIncludedTerm == LastTerm(a.data)
    ensures var s' := Installed(s, a);
      && Shape(s', n)
      && Full(s') == a.data + (if SnapshotEntryHeld(s, a) then Full(s)[a.lastIncludedIndex + 1..] else [])
      && s' == s.(log := s'.log, lastIncludedIndex := a.lastIncludedIndex, commitIndex := a.lastIncludedIndex,
        snapshot := a.data)
  {
    var rest := if SnapshotEntryHeld(s, a) then s.log[a.lastIncludedIndex - s.lastIncludedIndex + 1..] else [];
    var s' := Installed(s, a);
    assert s'.log[1..] == rest;
    if SnapshotEntryHeld(s, a) {
      FullTail(s, n, a.lastIncludedIndex + 1);
    }
  }

  /** A snapshot that reaches beyond the commit index is merged into the log like sent entries. */
  lemma InstalledMerges(s: Server, n: nat, a: InstallArgs, ll: Log)
    requires Shape(s, n) && Matching(Full(s), ll) && s.commitIndex < a.lastIncludedIndex < |ll|
    requires a.data == ll[..a.lastIncludedIndex + 1] && a.lastIncludedTerm == ll[a.lastIncludedIndex].term
    ensures var s' := Installed(s, a);
      && Shape(s', n) && Full(s') == Merged(Full(s), a.data)
      && s' == s.(log := s'.log, lastIncludedIndex := a.lastIncludedIndex, commitIndex := a.lastIncludedIndex,
        snapshot := a.data)
  {
    var i := a.lastIncludedIndex;
    InstalledFields(s, n, a);
    FullSnapshot(s, n);
    if i < RealLogLen(s) {
      FullIndex(s, n, i);
    }
    hide Installed, Full, Shape;
    if SnapshotEntryHeld(s, a) {
      assert Full(s)[..i + 1] == a.data;
      assert Full(s) == Full(s)[..i + 1] + Full(s)[i + 1..];
    } else {
      assert a.data[i] == ll[i];
      assert a.data + [] == a.data;
    }
  }

  lemma InstalledLog(c: Core, j: nat, s: Server, a: InstallArgs)
    requires Inv(c) && j < c.n && Shape(s, c.n) && |s.log| >= 1 && j < |c.logs| && Full(s) == c.logs[j]
    requires a.term in c.elect && a.term in c.llog && s.commitIndex < a.lastIncludedIndex < |c.llog[a.term]|
    requires a.data == c.llog[a.term][..a.lastIncludedIndex + 1]
    requires a.lastIncludedTerm == c.llog[a.term][a.lastIncludedIndex].term
    ensures var s' := Installed(s, a);
      && Shape(s', c.n) && |s'.log| >= 1 && Full(s') == Merged(Full(s), a.data)
      && s' == s.(log := s'.log, lastIncludedIndex := a.lastIncludedIndex, commitIndex := a.lastIncludedIndex,
        snapshot := a.data)
  {
    MatchingLeader(c, j, a.term);
    hide Inv, Installed;
    InstalledMerges(s, c.n, a, c.llog[a.term]);
  }

  lemma InstallsCore(c: Core, j: nat, s: Server, a: InstallArgs)
    requires j < |c.pterm| && j < |c.logs| && |s.log| >= 1 && Full(s) == c.logs[j] && Installs(s, a)
    requires a.term in c.llog && a.lastIncludedIndex < |c.llog[a.term]|
    requires a.data == c.llog[a.term][..a.lastIncludedIndex + 1]
    ensures var c' := InstallCore(c, j, s, a);
      && c'.n == c.n && c'.pterm == c.pterm[j := a.term] && c'.elect == c.elect && c'.grants == c.grants
      && j < |c'.logs| && c'.logs[j] == Merged(Full(s), a.data)
      && s.currentTerm <= a.term && a.lastIncludedIndex > s.commitIndex
  {}

  lemma InstalledServer(c: Core, counted: set<nat>, j: nat, s: Server, src: nat, sender: Server, a: InstallArgs)
    requires Inv(c) && ServerOk(c, counted, j, s) && InstallArgsOk(c, sender, src, j, a) && Installs(s, a)
    requires a.term in c.llog && a.lastIncludedIndex < |c.llog[a.term]|
    ensures var s1 := Installed(Follow(s, a.term), a);
      |s1.log| >= 1 && ServerOk(InstallCore(c, j, s, a), counted, j, Persist(s1))
  {
    hide *;
    ServerParts(c, counted, j, s);
    InstallArgsFacts(c, sender, src, j, a);
    InstallsCore(c, j, s, a);
    FollowFacts(s, c.n, a.term);
    var f := Follow(s, a.term);
    var s1 := Installed(f, a);
    var c' := InstallCore(c, j, s, a);
    InstallGrows(c, j, s, src, sender, a);
    GrowsSizes(c, c');
    InstalledLog(c, j, f, a);
    FollowVote(c, j, s, a.term);
    EvidentTaken(c, c', Full(f), a.lastIncludedIndex, a.term, a.lastIncludedIndex + 1);
    PersistDisk(c, c', j, s1);
    PersistIs(s1);
    PersistShape(s1, c.n);
    CommitFrom(c', Persist(s1));
    FollowerOk(c', counted, j, Persist(s1));
  }

  /** A newer term that brings no newer snapshot is taken up in memory only. */
  lemma FollowServer(c: Core, counted: set<nat>, j: nat, s: Server, t: nat)
    requires Inv(c) && ServerOk(c, counted, j, s) && s.currentTerm <= t
    ensures ServerOk(c, counted, j, Follow(s, t))
  {
    ServerParts(c, counted, j, s);
    FollowFacts(s, c.n, t);
    FollowEvident(c, s, t);
    var f := Follow(s, t);
    assert DiskOk(c, j, f);
    hide *;
    FollowerOk(c, counted, j, f);
  }

  lemma InstallSnapshotCases(s: Server, n: nat, a: InstallArgs)
    requires Shape(s, n)
    ensures |s.log| >= 1
    ensures var s' := InstallSnapshot(s, a).0;
      if a.term < s.currentTerm then s' == s
      else if Installs(s, a) then
        |Installed(Follow(s, a.term), a).log| >= 1 && s' == Persist(Installed(Follow(s, a.term), a)) &&
          s'.role == Follower
      else s' == Follow(s, a.term) && s'.role == Follower
  {}

  lemma SteadyDown(c: Core, c': Core, i: nat, s: Server, s': Server)
    requires i < |c.logs| && i < |c'.logs| && (s'.role == Follower || (s' == s && c' == c))
    ensures Steady(c, c', i, s, s')
  {}

  lemma StaleCore(c: Core, j: nat, s: Server, a: InstallArgs)
    requires j < |c.pterm| && j < |c.logs| && a.term in c.llog && a.lastIncludedIndex < |c.llog[a.term]|
    requires a.term < s.currentTerm || !Installs(s, a)
    ensures InstallCore(c, j, s, a) == c
  {}

  lemma InstallServer(c: Core, counted: set<nat>, j: nat, s: Server, src: nat, sender: Server, a: InstallArgs)
    requires Inv(c) && ServerOk(c, counted, j, s) && InstallArgsOk(c, sender, src, j, a)
    requires |s.log| >= 1 && j < |c.pterm| && j < |c.logs| && a.term in c.llog && a.lastIncludedIndex < |c.llog[a.term]|
    ensures var c' := InstallCore(c, j, s, a);
      j < |c'.logs| && ServerOk(c', counted, j, InstallSnapshot(s, a).0) && Steady(c, c', j, s, InstallSnapshot(s, a).0)
  {
    hide *;
    ServerParts(c, counted, j, s);
    var c' := InstallCore(c, j, s, a);
    InstallSnapshotCases(s, c.n, a);
    InstallGrows(c, j, s, src, sender, a);
    GrowsSizes(c, c');
    if a.term < s.currentTerm {
      StaleCore(c, j, s, a);
    } else if Installs(s, a) {
      InstalledServer(c, counted, j, s, src, sender, a);
    } else {
      StaleCore(c, j, s, a);
      FollowServer(c, counted, j, s, a.term);
    }
    SteadyDown(c, c', j, s, InstallSnapshot(s, a).0);
  }

  // ----- the call

  lemma InstallCallIs(net: Net, k: nat)
    requires Enabled(net, Deliver(k)) && net.rpcs[k].InstallCall?
    ensures var m := net.rpcs[k]; var (s', r) := InstallSnapshot(net.servers[m.dst], m.install);
      Next(net, Deliver(k)) == Replace(net, m.dst, s', k, InstallAnswer(m.src, m.dst, m.install, r), [])
  {}

  lemma InstallRpc(c: Core, counted: set<nat>, s: Server, m: Rpc)
    requires (m.InstallCall? || m.InstallAnswer?) && m.src < |c.pterm| == |c.logs|
    ensures RpcOk(c, counted, s, m) <==> InstallArgsOk(c, s, m.src, m.dst, m.install)
  {}

  lemma InstallCallStep(net: Net, h: History, k: nat) returns (h': History)
    requires NetInv(net, h) && Enabled(net, Deliver(k)) && net.rpcs[k].InstallCall?
    ensures NetInv(Next(net, Deliver(k)), h') && Grows(h.core, h'.core)
  {
    assert k < |net.rpcs|;
    hide *;
    var m := net.rpcs[k];
    var j, a := m.dst, m.install;
    RpcFacts(net, h, k);
    ServerFacts(net, h, j);
    var s, sender := net.servers[j], net.servers[m.src];
    InstallRpc(h.core, h.counted[m.src], sender, m);
    InstallArgsFacts(h.core, sender, m.src, j, a);
    ServerParts(h.core, h.counted[j], j, s);
    var c' := InstallCore(h.core, j, s, a);
    InstallGrows(h.core, j, s, m.src, sender, a);
    GrowsSizes(h.core, c');
    InstallServer(h.core, h.counted[j], j, s, m.src, sender, a);
    InstallCallIs(net, k);
    var (s', r) := InstallSnapshot(s, a);
    var answer := InstallAnswer(m.src, j, a, r);
    InstallArgsFrame(h.core, c', sender, sender, m.src, j, a);
    InstallRpc(c', h.counted[m.src], net.servers[j := s'][m.src], answer);
    DeliverSteady(net, h, k, j, s', c', answer);
    h' := h.(core := c');
  }

  // ----- the answer

  lemma InstallAnswerFacts(c: Core, counted: set<nat>, i: nat, s: Server, peer: nat, a: InstallArgs)
    requires ServerOk(c, counted, i, s) && Leading(s, a.term) && peer < c.n && InstallArgsOk(c, s, i, peer, a)
    ensures |s.log| >= 1 && |s.nextIndex| == |s.matchIndex| == c.n && s.role == Leader && s.currentTerm == a.term
    ensures MatchOk(c, s, peer) && a.lastIncludedIndex <= s.commitIndex
    ensures a.lastIncludedIndex + 1 <= RealLogLen(s) && s.nextIndex[peer] <= RealLogLen(s)
  {
    assert MatchOk(c, s, peer);
  }

  lemma HandleInstallReplyIs(s: Server, peer: nat, a: InstallArgs, term: nat)
    requires |s.log| >= 1 && peer < |s.nextIndex| == |s.matchIndex|
    requires s.role == Leader && s.currentTerm == a.term >= term
    ensures var next, matched := MaxInt(s.nextIndex[peer], a.lastIncludedIndex + 1),
      MaxInt(s.matchIndex[peer], a.lastIncludedIndex);
      && (next == s.nextIndex[peer] || next == a.lastIncludedIndex + 1)
      && (matched == s.matchIndex[peer] || matched == a.lastIncludedIndex)
      && HandleInstallReply(s, peer, a, term) ==
           s.(nextIndex := s.nextIndex[peer := next], matchIndex := s.matchIndex[peer := matched])
  {}

  lemma InstallReplyServer(c: Core, counted: set<nat>, i: nat, s: Server, peer: nat, a: InstallArgs, term: nat)
    requires ServerOk(c, counted, i, s) && Leading(s, a.term) && term <= s.currentTerm
    requires peer < c.n && InstallArgsOk(c, s, i, peer, a)
    ensures |s.log| >= 1 && |s.nextIndex| == |s.matchIndex| == c.n
    ensures var s' := HandleInstallReply(s, peer, a, term);
      && ServerOk(c, counted, i, s') && s'.role == Leader && s'.currentTerm == s.currentTerm
      && s'.commitIndex >= s.commitIndex
  {
    hide *;
    InstallAnswerFacts(c, counted, i, s, peer, a);
    HandleInstallReplyIs(s, peer, a, term);
    LeaderIndices(c, counted, i, s, peer, MaxInt(s.nextIndex[peer], a.lastIncludedIndex + 1),
                  MaxInt(s.matchIndex[peer], a.lastIncludedIndex));
  }

  lemma InstallAnswerIs(net: Net, k: nat)
    requires Enabled(net, Deliver(k)) && net.rpcs[k].InstallAnswer?
    ensures var m := net.rpcs[k];
      Next(net, Deliver(k)) == Replace(net, m.src,
        HandleInstallReply(net.servers[m.src], m.dst, m.install, m.term), k, Over, [])
  {}

  lemma InstallAnswerStep(net: Net, h: History, k: nat) returns (h': History)
    requires NetInv(net, h) && Enabled(net, Deliver(k)) && net.rpcs[k].InstallAnswer?
    ensures NetInv(Next(net, Deliver(k)), h') && Grows(h.core, h'.core)
  {
    assert k < |net.rpcs|;
    RpcFacts(net, h, k);
    var m := net.rpcs[k];
    var i, a := m.src, m.install;
    ServerFacts(net, h, i);
    var s := net.servers[i];
    InstallAnswerIs(net, k);
    InstallRpc(h.core, h.counted[i], s, m);
    GrowsSelf(h.core);
    hide NetInv, ServerOk, RpcOk, Inv, Enabled, Next, InstallArgsOk, Shape;
    h' := h;
    if s.currentTerm != a.term || s.role != Leader {
      DeliverSteady(net, h, k, i, s, h.core, Over);
      assert h.(core := h.core) == h;
    } else if m.term > s.currentTerm {
      h' := StepDownDeliver(net, h, k, i, m.term);
    } else {
      InstallReplyServer(h.core, h.counted[i], i, s, m.dst, a, m.term);
      DeliverSteady(net, h, k, i, HandleInstallReply(s, m.dst, a, m.term), h.core, Over);
      assert h.(core := h.core) == h;
    }
  }
}
