/**
 Terms and the disk.  A snapshot call can raise the term in memory and return before persisting it,
 but no run delivers such a call: a leader starts every peer beyond the log it was elected with, and
 goes back only once the peer has answered in its term.
 */
module RaftTerms {
  import opened RaftCore
  import opened RaftCoreSteps
  import opened RaftServer
  import opened RaftNet
  import opened RaftInvariant
  import opened RaftFrames
  import opened RaftStepLocal
  import opened RaftStepVote
  import opened RaftStepAppend
  import opened RaftStepInstall

  // ----- what holds besides the cluster invariant

  predicate Saved(s: Server)
  {
    s.disk.currentTerm == s.currentTerm
  }

  /** A peer in `term` has heard of term `t`, or `index` is beyond the log the leader of `t` was elected with. */
  ghost predicate Reached(c: Core, term: nat, t: nat, index: int)
  {
    t in c.elect && (term >= t || index >= |c.elect[t].log|)
  }

  ghost predicate LeadsOn(c: Core, net: Net, i: nat)
    requires i < |net.servers|
  {
    var s := net.servers[i];
    s.role == Leader ==>
      && |s.nextIndex| == |net.servers|
      && forall p: nat {:trigger s.nextIndex[p]} :: p < |net.servers| && p != i ==>
           Reached(c, net.servers[p].currentTerm, s.currentTerm, s.nextIndex[p])
  }

  ghost predicate RpcTermOk(c: Core, net: Net, m: Rpc)
  {
    match m
    case InstallCall(_, dst, a) =>
      dst < |net.servers| && Reached(c, net.servers[dst].currentTerm, a.term, a.lastIncludedIndex)
    case AppendAnswer(_, dst, a, _) => dst < |net.servers| && net.servers[dst].currentTerm >= a.term
    case InstallAnswer(_, dst, a, _) => dst < |net.servers| && net.servers[dst].currentTerm >= a.term
    case _ => true
  }

  ghost predicate TermInv(net: Net, c: Core)
  {
    && (forall i: nat :: i < |net.servers| ==> Saved(net.servers[i]))
    && (forall i: nat {:trigger LeadsOn(c, net, i)} :: i < |net.servers| ==> LeadsOn(c, net, i))
    && (forall m :: m in net.rpcs ==> RpcTermOk(c, net, m))
  }

  // ----- one server moves

  /** The server leads only if it did, in the same term, and went back only for peers that answered. */
  ghost predicate KeepsLead(net: Net, i: nat, s': Server)
    requires i < |net.servers|
  {
    var s := net.servers[i];
    s'.role == Leader ==>
      && s.role == Leader && s'.currentTerm == s.currentTerm && |s'.nextIndex| == |s.nextIndex|
      && forall p: nat {:trigger s'.nextIndex[p]} :: p < |s.nextIndex| && p < |net.servers| && p != i ==>
           s'.nextIndex[p] >= s.nextIndex[p] || net.servers[p].currentTerm >= s.currentTerm
  }

  lemma LeadKept(net: Net, c: Core, c': Core, i: nat, s': Server, rpcs': seq<Rpc>)
    requires TermInv(net, c) && Grows(c, c') && i < |net.servers| && KeepsLead(net, i, s')
    ensures LeadsOn(c', Net(net.servers[i := s'], rpcs'), i)
  {
    assert LeadsOn(c, net, i);
  }

  /** A new leader starts every peer behind its own log. */
  lemma LeadStarts(net': Net, h': History, i: nat)
    requires NetInv(net', h') && i < h'.core.n && i < |net'.servers|
    requires forall p: nat :: p < |net'.servers[i].nextIndex| ==>
      net'.servers[i].nextIndex[p] >= RealLogLen(net'.servers[i])
    ensures LeadsOn(h'.core, net', i)
  {
    var s := net'.servers[i];
    assert ServerOk(h'.core, h'.counted[i], i, s);
    if s.role == Leader {
      assert ElectOk(h'.core, s.currentTerm);
      FullLast(s, h'.core.n);
    }
  }

  lemma RpcTermGrows(net: Net, c: Core, c': Core, i: nat, s': Server, rpcs': seq<Rpc>, m: Rpc)
    requires Grows(c, c') && i < |net.servers| && s'.currentTerm >= net.servers[i].currentTerm && RpcTermOk(c, net, m)
    ensures RpcTermOk(c', Net(net.servers[i := s'], rpcs'), m)
  {}

  lemma TermAssemble(net: Net, c: Core, c': Core, i: nat, s': Server, rpcs': seq<Rpc>)
    requires TermInv(net, c) && Grows(c, c') && i < |net.servers|
    requires Saved(s') && s'.currentTerm >= net.servers[i].currentTerm
    requires LeadsOn(c', Net(net.servers[i := s'], rpcs'), i)
    requires forall m :: m in rpcs' ==> m in net.rpcs || RpcTermOk(c', Net(net.servers[i := s'], rpcs'), m)
    ensures TermInv(Net(net.servers[i := s'], rpcs'), c')
  {
    var net' := Net(net.servers[i := s'], rpcs');
    forall j: nat | j < |net'.servers| ensures LeadsOn(c', net', j) {
      assert LeadsOn(c, net, j);
    }
    forall m | m in rpcs' ensures RpcTermOk(c', net', m) {
      if m in net.rpcs {
        RpcTermGrows(net, c, c', i, s', rpcs', m);
      }
    }
  }

  // ----- messages of a leader

  lemma MessageTerm(net: Net, c: Core, i: nat, peer: nat)
    requires i < |net.servers| && LeadsOn(c, net, i) && net.servers[i].role == Leader
    requires |net.servers[i].log| >= 1 && |net.servers[i].nextIndex| == |net.servers| && peer < |net.servers|
    requires peer != i
    ensures var m := MessageFor(net.servers[i], i, peer); m.Some? ==> RpcTermOk(c, net, AsCall(i, peer, m.value))
  {
    var s := net.servers[i];
    assert Reached(c, net.servers[peer].currentTerm, s.currentTerm, s.nextIndex[peer]);
  }

  lemma {:induction false} BroadcastTerms(net: Net, c: Core, i: nat, p: nat)
    requires i < |net.servers| && LeadsOn(c, net, i) && net.servers[i].role == Leader
    requires |net.servers[i].log| >= 1 && |net.servers[i].nextIndex| == |net.servers| && p <= |net.servers|
    ensures forall m :: m in Broadcast(net.servers[i], i, p) ==> RpcTermOk(c, net, m)
  {
    if p > 0 {
      hide LeadsOn, RpcTermOk, MessageFor;
      BroadcastTerms(net, c, i, p - 1);
      BroadcastNext(net.servers[i], i, p);
      if p - 1 != i {
        MessageTerm(net, c, i, p - 1);
      }
    }
  }

  // ----- what the handlers do to terms

  /** Never to an older term, and the new one is on disk. */
  ghost predicate TermMoves(net: Net, i: nat, s': Server)
    requires i < |net.servers|
  {
    s'.currentTerm >= net.servers[i].currentTerm && Saved(s') && KeepsLead(net, i, s')
  }

  lemma VoteTerm(net: Net, i: nat, a: VoteArgs)
    requires i < |net.servers| && |net.servers[i].log| >= 1 && Saved(net.servers[i])
    ensures TermMoves(net, i, RequestVote(net.servers[i], a).0)
  {}

  lemma FollowerTerm(net: Net, i: nat, s': Server)
    requires i < |net.servers| && Saved(s') && s'.currentTerm >= net.servers[i].currentTerm && s'.role != Leader
    ensures TermMoves(net, i, s')
  {}

  lemma AppendTerm(net: Net, i: nat, n: nat, a: AppendArgs)
    requires i < |net.servers| && Shape(net.servers[i], n) && |net.servers[i].log| >= 1 && Saved(net.servers[i])
    requires net.servers[i].lastIncludedIndex <= net.servers[i].commitIndex
    ensures TermMoves(net, i, AppendEntries(net.servers[i], a).0)
    ensures AppendEntries(net.servers[i], a).0.currentTerm >= a.term
  {
    var s := net.servers[i];
    AppendEntriesCases(s, a);
    SteadyFollower(s, a);
    FollowFacts(s, n, MaxInt(s.currentTerm, a.term));
    if a.term >= s.currentTerm && PrevMatches(s, a) {
      AcceptFields(Follow(s, a.term), a);
    }
    hide AppendEntries, Accept, AppendLoop, PrevMatches, Shape;
  }

  /** A committed index is inside the log every later leader was elected with. */
  lemma CommitBelowElection(c: Core, l: Log, index: nat, bound: nat, t: nat)
    requires Inv(c) && Evident(c, l, index, bound) && bound < t && t in c.elect
    ensures index < |c.elect[t].log|
  {
    assert ElectOk(c, t);
    if index > 0 {
      var u, k :| CommitPoint(c, l, index, bound, u, k);
      LeaderCompleteness(c, u, k, t);
    }
  }

  /** A snapshot of a newer term always reaches beyond what the follower has committed. */
  lemma NewerInstalls(net: Net, h: History, k: nat)
    requires NetInv(net, h) && TermInv(net, h.core) && k < |net.rpcs| && net.rpcs[k].InstallCall?
    requires net.rpcs[k].dst < |net.servers|
    ensures var m := net.rpcs[k]; var s := net.servers[m.dst];
      m.install.term > s.currentTerm ==> m.install.lastIncludedIndex > s.commitIndex
  {
    var m := net.rpcs[k];
    assert m in net.rpcs;
    assert RpcTermOk(h.core, net, m);
    NetFacts(net, h);
    ServerFacts(net, h, m.dst);
    var s := net.servers[m.dst];
    LeaderFacts(h.core, h.counted[m.dst], m.dst, s);
    hide NetInv, TermInv, ServerOk, Shape;
    if m.install.term > s.currentTerm {
      CommitBelowElection(h.core, Full(s), s.commitIndex, s.currentTerm, m.install.term);
    }
  }

  lemma InstallTerm(net: Net, i: nat, n: nat, a: InstallArgs)
    requires i < |net.servers| && Shape(net.servers[i], n) && |net.servers[i].log| >= 1 && Saved(net.servers[i])
    requires a.term > net.servers[i].currentTerm ==> a.lastIncludedIndex > net.servers[i].commitIndex
    ensures TermMoves(net, i, InstallSnapshot(net.servers[i], a).0)
    ensures InstallSnapshot(net.servers[i], a).0.currentTerm >= a.term
  {
    InstallSnapshotCases(net.servers[i], n, a);
  }

  lemma VoteReplyTerm(net: Net, i: nat, n: nat, a: VoteArgs, r: VoteReply)
    requires i < n == |net.servers| && |net.servers[i].log| >= 1 && Saved(net.servers[i])
    ensures var (s', won) := HandleVoteReply(net.servers[i], i, n, a, r);
      && s'.currentTerm >= net.servers[i].currentTerm && Saved(s')
      && if won then s'.role == Leader && (forall p: nat :: p < |s'.nextIndex| ==> s'.nextIndex[p] >= RealLogLen(s'))
         else KeepsLead(net, i, s')
  {}

  lemma AppendReplyTerm(net: Net, i: nat, peer: nat, a: AppendArgs, r: AppendReply)
    requires i < |net.servers| && |net.servers[i].log| >= 1 && Saved(net.servers[i])
    requires net.servers[i].lastIncludedIndex <= net.servers[i].commitIndex
    requires peer < |net.servers| == |net.servers[i].nextIndex| == |net.servers[i].matchIndex|
    requires net.servers[peer].currentTerm >= a.term
    ensures TermMoves(net, i, HandleAppendReply(net.servers[i], peer, a, r))
  {
    hide LastSupported, FindNextIndex;
  }

  lemma InstallReplyTerm(net: Net, i: nat, peer: nat, a: InstallArgs, term: nat)
    requires i < |net.servers| && |net.servers[i].log| >= 1 && Saved(net.servers[i])
    requires peer < |net.servers| == |net.servers[i].nextIndex| == |net.servers[i].matchIndex|
    ensures TermMoves(net, i, HandleInstallReply(net.servers[i], peer, a, term))
  {}

  lemma LocalTerms(net: Net, i: nat, n: nat, command: int, index: nat, data: Log)
    requires i < |net.servers| && Shape(net.servers[i], n) && |net.servers[i].log| >= 1 && Saved(net.servers[i])
    requires |net.servers[i].disk.log| >= 1 && i < |net.servers[i].nextIndex| == |net.servers[i].matchIndex|
    requires net.servers[i].commitIndex <= LastLogIndex(net.servers[i])
    ensures TermMoves(net, i, StartElection(net.servers[i], i))
    ensures TermMoves(net, i, Start(net.servers[i], i, command))
    ensures TermMoves(net, i, TakeSnapshot(net.servers[i], index, data))
    ensures TermMoves(net, i, Restart(net.servers[i], n))
  {}

  // ----- every step

  /** Server `i` moves within the rules, and what it adds to the rpcs is in order. */
  lemma TermMove(net: Net, c: Core, c': Core, i: nat, s': Server, rpcs': seq<Rpc>)
    requires TermInv(net, c) && Grows(c, c') && i < |net.servers| && TermMoves(net, i, s')
    requires forall m :: m in rpcs' ==> m in net.rpcs || RpcTermOk(c', Net(net.servers[i := s'], rpcs'), m)
    ensures TermInv(Net(net.servers[i := s'], rpcs'), c')
  {
    hide TermInv, Grows, RpcTermOk;
    LeadKept(net, c, c', i, s', rpcs');
    TermAssemble(net, c, c', i, s', rpcs');
  }

  lemma RpcsIn(rpcs: seq<Rpc>, k: nat, m: Rpc, sent: seq<Rpc>)
    requires k < |rpcs|
    ensures forall x :: x in rpcs[k := m] + sent ==> x in rpcs || x == m || x in sent
  {}

  lemma StandingCalls(c: Core, net: Net, a: VoteArgs, me: nat, p: nat)
    ensures forall m :: m in VoteCalls(a, me, p) ==> RpcTermOk(c, net, m)
  {}

  lemma SavedAt(net: Net, c: Core, i: nat)
    requires TermInv(net, c) && i < |net.servers|
    ensures Saved(net.servers[i])
  {}

  lemma RpcAt(net: Net, c: Core, k: nat)
    requires TermInv(net, c) && k < |net.rpcs|
    ensures RpcTermOk(c, net, net.rpcs[k])
  {
    assert net.rpcs[k] in net.rpcs;
  }

  lemma AnswerTerm(c: Core, net: Net, m: Rpc)
    requires m.VoteAnswer? || m.Over? || ((m.AppendAnswer? || m.InstallAnswer?) && m.dst < |net.servers|)
    requires m.AppendAnswer? ==> net.servers[m.dst].currentTerm >= m.append.term
    requires m.InstallAnswer? ==> net.servers[m.dst].currentTerm >= m.install.term
    ensures RpcTermOk(c, net, m)
  {}

  /** An rpc is dealt with by a server that moves within the rules and answers in order. */
  lemma TermDeliver(net: Net, c: Core, c': Core, k: nat, i: nat, s': Server, answer: Rpc)
    requires TermInv(net, c) && Grows(c, c') && k < |net.rpcs| && i < |net.servers| && TermMoves(net, i, s')
    requires answer.VoteAnswer? || answer.Over? || ((answer.AppendAnswer? || answer.InstallAnswer?) && answer.dst == i)
    requires answer.AppendAnswer? ==> s'.currentTerm >= answer.append.term
    requires answer.InstallAnswer? ==> s'.currentTerm >= answer.install.term
    ensures TermInv(Replace(net, i, s', k, answer, []), c')
  {
    hide TermInv, Grows, TermMoves, RpcTermOk;
    var rpcs' := net.rpcs[k := answer] + [];
    RpcsIn(net.rpcs, k, answer, []);
    AnswerTerm(c', Net(net.servers[i := s'], rpcs'), answer);
    TermMove(net, c, c', i, s', rpcs');
  }

  lemma VoteCallTerms(net: Net, h: History, k: nat, h': History)
    requires NetInv(net, h) && TermInv(net, h.core) && Enabled(net, Deliver(k)) && net.rpcs[k].VoteCall?
    requires Grows(h.core, h'.core)
    ensures TermInv(Next(net, Deliver(k)), h'.core)
  {
    assert k < |net.rpcs|;
    hide *;
    RpcFacts(net, h, k);
    var m := net.rpcs[k];
    ServerFacts(net, h, m.dst);
    SavedAt(net, h.core, m.dst);
    VoteTerm(net, m.dst, m.vote);
    VoteCallIs(net, k);
    var (s', r) := RequestVote(net.servers[m.dst], m.vote);
    TermDeliver(net, h.core, h'.core, k, m.dst, s', VoteAnswer(m.src, m.dst, m.vote, r));
  }

  lemma AppendCallTerms(net: Net, h: History, k: nat, h': History)
    requires NetInv(net, h) && TermInv(net, h.core) && Enabled(net, Deliver(k)) && net.rpcs[k].AppendCall?
    requires Grows(h.core, h'.core)
    ensures TermInv(Next(net, Deliver(k)), h'.core)
  {
    assert k < |net.rpcs|;
    hide *;
    RpcFacts(net, h, k);
    var m := net.rpcs[k];
    ServerFacts(net, h, m.dst);
    SavedAt(net, h.core, m.dst);
    AppendTerm(net, m.dst, h.core.n, m.append);
    AppendCallIs(net, k);
    var (s', r) := AppendEntries(net.servers[m.dst], m.append);
    TermDeliver(net, h.core, h'.core, k, m.dst, s', AppendAnswer(m.src, m.dst, m.append, r));
  }

  lemma InstallCallTerms(net: Net, h: History, k: nat, h': History)
    requires NetInv(net, h) && TermInv(net, h.core) && Enabled(net, Deliver(k)) && net.rpcs[k].InstallCall?
    requires Grows(h.core, h'.core)
    ensures TermInv(Next(net, Deliver(k)), h'.core)
  {
    assert k < |net.rpcs|;
    hide *;
    RpcFacts(net, h, k);
    var m := net.rpcs[k];
    ServerFacts(net, h, m.dst);
    SavedAt(net, h.core, m.dst);
    NewerInstalls(net, h, k);
    InstallTerm(net, m.dst, h.core.n, m.install);
    InstallCallIs(net, k);
    var (s', r) := InstallSnapshot(net.servers[m.dst], m.install);
    TermDeliver(net, h.core, h'.core, k, m.dst, s', InstallAnswer(m.src, m.dst, m.install, r));
  }

  lemma AnsweredTerm(c: Core, net: Net, m: Rpc)
    requires RpcTermOk(c, net, m) && (m.AppendAnswer? || m.InstallAnswer?)
    ensures m.dst < |net.servers|
    ensures m.AppendAnswer? ==> net.servers[m.dst].currentTerm >= m.append.term
    ensures m.InstallAnswer? ==> net.servers[m.dst].currentTerm >= m.install.term
  {}

  lemma AppendAnswerTerms(net: Net, h: History, k: nat, h': History)
    requires NetInv(net, h) && TermInv(net, h.core) && Enabled(net, Deliver(k)) && net.rpcs[k].AppendAnswer?
    requires Grows(h.core, h'.core)
    ensures TermInv(Next(net, Deliver(k)), h'.core)
  {
    assert k < |net.rpcs|;
    hide *;
    RpcFacts(net, h, k);
    var m := net.rpcs[k];
    ServerFacts(net, h, m.src);
    SavedAt(net, h.core, m.src);
    RpcAt(net, h.core, k);
    AnsweredTerm(h.core, net, m);
    AppendReplyTerm(net, m.src, m.dst, m.append, m.appendReply);
    AppendAnswerIs(net, k);
    TermDeliver(net, h.core, h'.core, k, m.src,
      HandleAppendReply(net.servers[m.src], m.dst, m.append, m.appendReply), Over);
  }

  lemma InstallAnswerTerms(net: Net, h: History, k: nat, h': History)
    requires NetInv(net, h) && TermInv(net, h.core) && Enabled(net, Deliver(k)) && net.rpcs[k].InstallAnswer?
    requires Grows(h.core, h'.core)
    ensures TermInv(Next(net, Deliver(k)), h'.core)
  {
    assert k < |net.rpcs|;
    hide *;
    RpcFacts(net, h, k);
    var m := net.rpcs[k];
    ServerFacts(net, h, m.src);
    SavedAt(net, h.core, m.src);
    InstallReplyTerm(net, m.src, m.dst, m.install, m.term);
    InstallAnswerIs(net, k);
    TermDeliver(net, h.core, h'.core, k, m.src, HandleInstallReply(net.servers[m.src], m.dst, m.install, m.term), Over);
  }

  /** Winning an election: the broadcast is of a leader that starts every peer behind its own log. */
  lemma WonTerms(net: Net, h: History, k: nat, i: nat, s': Server, h': History)
    requires NetInv(net, h) && TermInv(net, h.core) && k < |net.rpcs| && i < h.core.n == |net.servers|
    requires Grows(h.core, h'.core)
    requires h'.core.n == h.core.n && s'.role == Leader && |s'.log| >= 1 && |s'.nextIndex| == |net.servers|
    requires s'.currentTerm >= net.servers[i].currentTerm && Saved(s')
    requires forall p: nat :: p < |s'.nextIndex| ==> s'.nextIndex[p] >= RealLogLen(s')
    requires NetInv(Replace(net, i, s', k, Over, Broadcast(s', i, |net.servers|)), h')
    ensures TermInv(Replace(net, i, s', k, Over, Broadcast(s', i, |net.servers|)), h'.core)
  {
    hide NetInv, TermInv, Grows, LeadsOn, Broadcast, Saved, RpcTermOk;
    var sent := Broadcast(s', i, |net.servers|);
    var net' := Replace(net, i, s', k, Over, sent);
    LeadStarts(net', h', i);
    BroadcastTerms(net', h'.core, i, |net.servers|);
    RpcsIn(net.rpcs, k, Over, sent);
    AnswerTerm(h'.core, net', Over);
    TermAssemble(net, h.core, h'.core, i, s', net'.rpcs);
  }

  lemma VoteAnswerTerms(net: Net, h: History, k: nat, h': History)
    requires NetInv(net, h) && TermInv(net, h.core) && Enabled(net, Deliver(k)) && net.rpcs[k].VoteAnswer?
    requires Grows(h.core, h'.core)
    requires NetInv(Next(net, Deliver(k)), h')
    ensures TermInv(Next(net, Deliver(k)), h'.core)
  {
    assert k < |net.rpcs|;
    hide *;
    RpcFacts(net, h, k);
    var m := net.rpcs[k];
    var n := |net.servers|;
    ServerFacts(net, h, m.src);
    SavedAt(net, h.core, m.src);
    GrowsSizes(h.core, h'.core);
    VoteReplyTerm(net, m.src, n, m.vote, m.voteReply);
    VoteAnswerIs(net, k);
    var (s', won) := HandleVoteReply(net.servers[m.src], m.src, n, m.vote, m.voteReply);
    if won {
      VoteReplySizes(net.servers[m.src], m.src, n, m.vote, m.voteReply);
      WonTerms(net, h, k, m.src, s', h');
    } else {
      MovesFrom(net, m.src, s');
      TermDeliver(net, h.core, h'.core, k, m.src, s', Over);
    }
  }

  /** A step of one server by itself. */
  lemma LocalTerm(net: Net, h: History, i: nat, s': Server, h': History)
    requires TermInv(net, h.core) && i < |net.servers| && Grows(h.core, h'.core) && TermMoves(net, i, s')
    ensures TermInv(net.(servers := net.servers[i := s']), h'.core)
  {
    hide *;
    TermMove(net, h.core, h'.core, i, s', net.rpcs);
  }

  lemma TimeoutTerms(net: Net, h: History, i: nat, h': History)
    requires NetInv(net, h) && TermInv(net, h.core) && Enabled(net, ElectionTimeout(i)) && i < |net.servers|
    requires Grows(h.core, h'.core)
    ensures TermInv(Next(net, ElectionTimeout(i)), h'.core)
  {
    var s := net.servers[i];
    NetFacts(net, h);
    ServerFacts(net, h, i);
    SavedAt(net, h.core, i);
    var s' := StartElection(s, i);
    var calls := VoteCalls(VoteArgsOf(s', i), i, |net.servers|);
    FollowerTerm(net, i, s');
    StandingCalls(h'.core, Net(net.servers[i := s'], net.rpcs + calls), VoteArgsOf(s', i), i, |net.servers|);
    hide NetInv, TermInv, Grows, TermMoves, RpcTermOk, VoteCalls;
    TermMove(net, h.core, h'.core, i, s', net.rpcs + calls);
  }

  lemma HeartbeatTerms(net: Net, h: History, i: nat)
    requires NetInv(net, h) && TermInv(net, h.core) && Enabled(net, Heartbeat(i)) && i < |net.servers|
    ensures TermInv(Next(net, Heartbeat(i)), h.core)
  {
    var s := net.servers[i];
    NetFacts(net, h);
    ServerFacts(net, h, i);
    SavedAt(net, h.core, i);
    GrowsSelf(h.core);
    if s.role == Leader {
      var sent := Broadcast(s, i, |net.servers|);
      var net' := Net(net.servers[i := s], net.rpcs + sent);
      assert net.servers[i := s] == net.servers;
      assert LeadsOn(h.core, net, i) && LeadsOn(h.core, net', i);
      hide NetInv, TermInv, Grows, LeadsOn, RpcTermOk, Broadcast;
      BroadcastTerms(net', h.core, i, |net.servers|);
      TermAssemble(net, h.core, h.core, i, s, net.rpcs + sent);
    }
  }

  lemma LoseTerms(net: Net, c: Core, k: nat)
    requires TermInv(net, c) && Enabled(net, Lose(k))
    ensures TermInv(Next(net, Lose(k)), c)
  {
    var net' := Next(net, Lose(k));
    assert forall i: nat :: i < |net.servers| ==> LeadsOn(c, net, i) == LeadsOn(c, net', i);
    RpcsIn(net.rpcs, k, Over, []);
    forall m | m in net'.rpcs ensures RpcTermOk(c, net', m) {
      assert net'.rpcs + [] == net'.rpcs;
      assert m in net.rpcs ==> RpcTermOk(c, net, m);
    }
  }

  /** A step on the tables of one server. */
  lemma LocalSteps(net: Net, h: History, step: Step, h': History)
    requires NetInv(net, h) && TermInv(net, h.core) && Enabled(net, step) && Grows(h.core, h'.core)
    requires step.Client? || step.Compact? || step.Crash?
    ensures TermInv(Next(net, step), h'.core)
  {
    var i := step.i;
    NetFacts(net, h);
    ServerFacts(net, h, i);
    SavedAt(net, h.core, i);
    LocalTerms(net, i, |net.servers|, if step.Client? then step.command else 0, if step.Compact? then step.index else 0,
               if step.Compact? then step.data else []);
    hide NetInv, TermInv, Grows, TermMoves;
    match step
    case Client(_, command) => LocalTerm(net, h, i, Start(net.servers[i], i, command), h');
    case Compact(_, index, data) => LocalTerm(net, h, i, TakeSnapshot(net.servers[i], index, data), h');
    case Crash(_) => LocalTerm(net, h, i, Restart(net.servers[i], |net.servers|), h');
  }

  lemma DeliverTerms(net: Net, h: History, k: nat, h': History)
    requires NetInv(net, h) && TermInv(net, h.core) && Enabled(net, Deliver(k)) && k < |net.rpcs| && !net.rpcs[k].Over?
    requires NetInv(Next(net, Deliver(k)), h') && Grows(h.core, h'.core)
    ensures TermInv(Next(net, Deliver(k)), h'.core)
  {
    hide *;
    match net.rpcs[k]
    case VoteCall(_, _, _) => VoteCallTerms(net, h, k, h');
    case VoteAnswer(_, _, _, _) => VoteAnswerTerms(net, h, k, h');
    case AppendCall(_, _, _) => AppendCallTerms(net, h, k, h');
    case AppendAnswer(_, _, _, _) => AppendAnswerTerms(net, h, k, h');
    case InstallCall(_, _, _) => InstallCallTerms(net, h, k, h');
    case InstallAnswer(_, _, _, _) => InstallAnswerTerms(net, h, k, h');
  }

  lemma TermGrows(net: Net, c: Core, c': Core)
    requires TermInv(net, c) && Grows(c, c')
    ensures TermInv(net, c')
  {
    forall i: nat | i < |net.servers| ensures LeadsOn(c', net, i) {
      assert LeadsOn(c, net, i);
    }
    forall m | m in net.rpcs ensures RpcTermOk(c', net, m) {
      assert RpcTermOk(c, net, m);
    }
  }

  lemma InRange(net: Net, step: Step)
    requires Enabled(net, step)
    ensures step.Deliver? ==> step.k < |net.rpcs| && (net.rpcs[step.k].Over? ==> Next(net, step) == net)
    ensures !step.Deliver? && !step.Lose? ==> step.i < |net.servers|
  {}

  /** Every step of the cluster keeps every term on disk. */
  lemma TermStep(net: Net, h: History, step: Step, h': History)
    requires NetInv(net, h) && TermInv(net, h.core) && Enabled(net, step)
    requires NetInv(Next(net, step), h') && Grows(h.core, h'.core)
    ensures TermInv(Next(net, step), h'.core)
  {
    hide *;
    InRange(net, step);
    match step
    case ElectionTimeout(i) => TimeoutTerms(net, h, i, h');
    case Heartbeat(i) =>
      HeartbeatTerms(net, h, i);
      TermGrows(Next(net, step), h.core, h'.core);
    case Client(_, _) => LocalSteps(net, h, step, h');
    case Compact(_, _, _) => LocalSteps(net, h, step, h');
    case Crash(_) => LocalSteps(net, h, step, h');
    case Deliver(k) =>
      if net.rpcs[k].Over? {
        TermGrows(net, h.core, h'.core);
      } else {
        DeliverTerms(net, h, k, h');
      }
    case Lose(k) =>
      LoseTerms(net, h.core, k);
      TermGrows(Next(net, step), h.core, h'.core);
  }

  lemma MovesFrom(net: Net, i: nat, s': Server)
    requires i < |net.servers| && s'.currentTerm >= net.servers[i].currentTerm && Saved(s') && KeepsLead(net, i, s')
    ensures TermMoves(net, i, s')
  {}

  lemma VoteReplySizes(s: Server, me: nat, n: nat, a: VoteArgs, r: VoteReply)
    requires |s.log| >= 1 && me < n && HandleVoteReply(s, me, n, a, r).1
    ensures var s' := HandleVoteReply(s, me, n, a, r).0; |s'.log| >= 1 && |s'.nextIndex| == n
  {}
}
