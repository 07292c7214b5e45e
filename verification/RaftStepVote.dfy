/** Elections: timing out, being asked for a vote, and receiving one. */
module RaftStepVote {
  import opened RaftCore
  import opened RaftCoreSteps
  import opened RaftServer
  import opened RaftNet
  import opened RaftInvariant
  import opened RaftFrames
  import opened RaftStepLocal

  // ----- starting an election

  lemma {:induction false} VoteCallsShape(a: VoteArgs, me: nat, p: nat)
    ensures forall m :: m in VoteCalls(a, me, p) ==>
      m.VoteCall? && m.src == me && m.dst < p && m.dst != me && m.vote == a
    ensures VotesUnique(VoteCalls(a, me, p))
  {
    if p > 0 {
      VoteCallsShape(a, me, p - 1);
      var rest := VoteCalls(a, me, p - 1);
      forall j | 0 <= j < |rest| ensures rest[j].dst < p - 1 {
        assert rest[j] in rest;
      }
    }
  }

  lemma NoGrantYet(c: Core, i: nat, u: nat)
    requires Inv(c) && i < c.n && c.pterm[i] < u
    ensures (i, u) !in c.grants
    ensures forall j: nat :: (j, u) in c.grants ==> c.grants[(j, u)].candidate != i
  {
    assert (i, u) in c.grants ==> GrantOk(c, i, u);
    forall j: nat | (j, u) in c.grants ensures c.grants[(j, u)].candidate != i {
      assert GrantOk(c, j, u);
    }
  }

  lemma TimeoutCommit(c: Core, c': Core, s: Server, i: nat)
    requires |s.log| >= 1 && Grows(c, c') && CommitOk(c, s) && s.disk.currentTerm <= s.currentTerm
    ensures CommitOk(c', StartElection(s, i))
  {
    var t, s' := s.currentTerm + 1, StartElection(s, i);
    EvidentGrows(c, c', Full(s), Full(s'), s.commitIndex, s.currentTerm, t);
    EvidentGrows(c, c', Full(s), Full(s'), s.lastIncludedIndex, s.disk.currentTerm, t);
  }

  lemma TimeoutCandidate(c: Core, i: nat, s: Server)
    requires Inv(c) && i < c.n && c.pterm[i] <= s.currentTerm && |s.log| >= 1 && c.logs[i] != [] && PastOk(c, i, s)
    ensures var c' := GrantVote(c, i, s.currentTerm + 1, i);
      CandidateOk(c', {i}, i, StartElection(s, i)) && PastOk(c', i, StartElection(s, i))
  {
    var t := s.currentTerm + 1;
    assert LogOk(c, i);
    hide Inv;
    assert VotedFor(GrantVote(c, i, t, i), t, i, i);
  }

  lemma TimeoutServer(c: Core, counted: set<nat>, i: nat, s: Server)
    requires Inv(c) && ServerOk(c, counted, i, s)
    requires var t := s.currentTerm + 1; Grows(c, GrantVote(c, i, t, i))
    ensures ServerOk(GrantVote(c, i, s.currentTerm + 1, i), {i}, i, StartElection(s, i))
  {
    hide Inv, CommitOk, CandidateOk, PastOk, Grows;
    TimeoutCommit(c, GrantVote(c, i, s.currentTerm + 1, i), s, i);
    FullLast(s, c.n);
    TimeoutCandidate(c, i, s);
  }

  /** Pending rpcs are of older terms than the one a server stands for. */
  lemma TimeoutCarried(net: Net, h: History, i: nat, m: Rpc)
    requires NetInv(net, h) && i < h.core.n && m in net.rpcs && !m.Over?
    requires ServerOk(h.core, h.counted[i], i, net.servers[i])
    ensures m.src < h.core.n
    ensures Carried(net, h, i, StartElection(net.servers[i], i),
      GrantVote(h.core, i, net.servers[i].currentTerm + 1, i), {i}, m)
  {
    assert RpcOk(h.core, h.counted[m.src], net.servers[m.src], m);
  }

  lemma TimeoutCallOk(c: Core, c': Core, i: nat, s: Server, p: nat)
    requires Inv(c) && i < c.n && p < c.n && p != i && Shape(s, c.n) && Full(s) == c.logs[i]
    requires c.pterm[i] <= s.currentTerm
    requires c' == GrantVote(c, i, s.currentTerm + 1, i)
    ensures VoteCallOk(c', {i}, StartElection(s, i), i, p, VoteArgsOf(StartElection(s, i), i))
  {
    FullLast(s, c.n);
    NoGrantYet(c, i, s.currentTerm + 1);
  }

  lemma TimeoutRpcs(net: Net, h: History, i: nat)
    requires NetInv(net, h) && i < h.core.n && ServerOk(h.core, h.counted[i], i, net.servers[i])
    ensures var calls := VoteCalls(VoteArgsOf(StartElection(net.servers[i], i), i), i, h.core.n);
      VotesUnique(net.rpcs + calls)
  {
    var s := net.servers[i];
    var a := VoteArgsOf(StartElection(s, i), i);
    var calls := VoteCalls(a, i, h.core.n);
    VoteCallsShape(a, i, h.core.n);
    forall m, x | m in net.rpcs && x in calls && (m.VoteCall? || m.VoteAnswer?)
      ensures !IsVote(x, m.src, m.dst, m.vote.term)
    {
      assert RpcOk(h.core, h.counted[m.src], net.servers[m.src], m);
    }
    UniqueAppend(net.rpcs, calls);
  }

  lemma TimeoutNew(c: Core, c': Core, counted: set<nat>, i: nat, s: Server, m: Rpc)
    requires Inv(c) && ServerOk(c, counted, i, s) && c' == GrantVote(c, i, s.currentTerm + 1, i)
    requires m.VoteCall? && m.src == i && m.dst < c.n && m.dst != i && m.vote == VoteArgsOf(StartElection(s, i), i)
    ensures RpcOk(c', {i}, StartElection(s, i), m)
  {
    TimeoutCallOk(c, c', i, s, m.dst);
  }

  lemma TimeoutAssemble(net: Net, h: History, i: nat, s: Server, s': Server, c': Core, calls: seq<Rpc>)
    requires NetInv(net, h) && i < h.core.n && s == net.servers[i] && ServerOk(h.core, h.counted[i], i, s)
    requires Inv(h.core)
    requires s' == StartElection(s, i) && c' == GrantVote(h.core, i, s.currentTerm + 1, i) && Inv(c')
    requires Grows(h.core, c')
    requires forall j: nat :: j < h.core.n && j != i ==> Untouched(h.core, c', j)
    requires ServerOk(c', {i}, i, s') && VotesUnique(net.rpcs + calls)
    requires forall m :: m in calls ==>
      m.VoteCall? && m.src == i && m.dst < h.core.n && m.dst != i && m.vote == VoteArgsOf(s', i)
    ensures NetInv(Net(net.servers[i := s'], net.rpcs + calls), History(c', h.counted[i := {i}]))
  {
    NetFacts(net, h);
    GrowsSizes(h.core, c');
    hide *;
    forall m | m in net.rpcs + calls && !m.Over?
      ensures m.src < h.core.n
      ensures Carried(net, h, i, s', c', {i}, m) ||
        RpcOk(c', h.counted[i := {i}][m.src], net.servers[i := s'][m.src], m)
    {
      if m in net.rpcs {
        TimeoutCarried(net, h, i, m);
      } else {
        TimeoutNew(h.core, c', h.counted[i], i, s, m);
      }
    }
    Assemble(net, h, i, s', c', {i}, net.rpcs + calls);
  }

  lemma TimeoutStep(net: Net, h: History, i: nat) returns (h': History)
    requires NetInv(net, h) && i < h.core.n && Enabled(net, ElectionTimeout(i))
    ensures NetInv(Next(net, ElectionTimeout(i)), h') && Grows(h.core, h'.core)
  {
    var s := net.servers[i];
    assert ServerOk(h.core, h.counted[i], i, s);
    var t := s.currentTerm + 1;
    var a := VoteArgsOf(StartElection(s, i), i);
    h' := History(GrantVote(h.core, i, t, i), h.counted[i := {i}]);
    NoGrantYet(h.core, i, t);
    GrantVoteKeepsInv(h.core, i, t, i);
    GrantUntouched(h.core, i, t, i);
    TimeoutServer(h.core, h.counted[i], i, s);
    TimeoutRpcs(net, h, i);
    VoteCallsShape(a, i, h.core.n);
    hide ServerOk, Inv, GrantVote, StartElection, VoteArgsOf;
    TimeoutAssemble(net, h, i, s, StartElection(s, i), GrantVote(h.core, i, t, i), VoteCalls(a, i, h.core.n));
  }

  // ----- being asked for a vote

  ghost function VoteCallCore(c: Core, j: nat, s: Server, a: VoteArgs): Core
    requires j < |c.pterm| && j < |c.logs| && |s.log| >= 1
  {
    if a.term < s.currentTerm then c
    else if RequestVote(s, a).1.voteGranted then GrantVote(c, j, a.term, a.candidateId)
    else Raise(c, j, a.term)
  }

  /** The candidate is another server that has not had this server's vote in this term. */
  ghost predicate Asked(c: Core, j: nat, a: VoteArgs)
    requires |c.pterm| == c.n
  {
    && a.candidateId < c.n && a.candidateId != j && a.term <= c.pterm[a.candidateId]
    && !((j, a.term) in c.grants && c.grants[(j, a.term)].candidate == a.candidateId)
  }

  /** A vote is granted only where none was granted in this term, and only by a follower. */
  lemma GrantIsNew(c: Core, counted: set<nat>, j: nat, s: Server, a: VoteArgs)
    requires Inv(c) && ServerOk(c, counted, j, s) && Asked(c, j, a) && RequestVote(s, a).1.voteGranted
    ensures (j, a.term) !in c.grants && a.term >= s.currentTerm
    ensures a.term == s.currentTerm ==> s.role == Follower
  {
    VoteRemembered(c, j, s);
    assert s.role == Candidate ==> VotedFor(c, s.currentTerm, j, j);
  }

  lemma VoteCallGrows(c: Core, counted: set<nat>, j: nat, s: Server, a: VoteArgs)
    requires Inv(c) && ServerOk(c, counted, j, s) && Asked(c, j, a)
    ensures var c' := VoteCallCore(c, j, s, a);
      && Inv(c') && Grows(c, c') && c'.logs == c.logs && c'.llog == c.llog && c'.acks == c.acks && c'.elect == c.elect
      && (forall i: nat :: i < c.n && i != j ==> Untouched(c, c', i))
  {
    if a.term >= s.currentTerm {
      if RequestVote(s, a).1.voteGranted {
        GrantIsNew(c, counted, j, s, a);
        GrantVoteKeepsInv(c, j, a.term, a.candidateId);
        GrantUntouched(c, j, a.term, a.candidateId);
      } else {
        RaiseKeepsInv(c, j, a.term);
        RaiseUntouched(c, j, a.term);
      }
    }
  }

  lemma VoteCallDisk(c: Core, counted: set<nat>, j: nat, s: Server, a: VoteArgs)
    requires Inv(c) && ServerOk(c, counted, j, s) && Asked(c, j, a) && a.term >= s.currentTerm
    ensures var (s', r) := RequestVote(s, a);
      && |s'.log| >= 1 && DiskOk(VoteCallCore(c, j, s, a), j, s')
  {
    VoteRemembered(c, j, s);
    if RequestVote(s, a).1.voteGranted {
      GrantIsNew(c, counted, j, s, a);
    }
  }

  lemma RequestVoteEffect(s: Server, a: VoteArgs, n: nat)
    requires Shape(s, n)
    ensures var s' := RequestVote(s, a).0;
      && Shape(s', n) && s'.log == s.log && Full(s') == Full(s) && s'.lastIncludedIndex == s.lastIncludedIndex
      && s'.commitIndex == s.commitIndex && s'.nextIndex == s.nextIndex && s'.matchIndex == s.matchIndex
      && s'.approved == s.approved
      && (a.term < s.currentTerm ==> s' == s)
      && (a.term >= s.currentTerm ==> s'.currentTerm == s'.disk.currentTerm == a.term)
      && (s'.role == Follower || (s'.role == s.role && s'.currentTerm == s.currentTerm))
  {}

  lemma VoteCallServer(c: Core, counted: set<nat>, j: nat, s: Server, a: VoteArgs)
    requires Inv(c) && ServerOk(c, counted, j, s) && Asked(c, j, a)
    ensures ServerOk(VoteCallCore(c, j, s, a), counted, j, RequestVote(s, a).0)
  {
    VoteCallGrows(c, counted, j, s, a);
    RequestVoteEffect(s, a, c.n);
    if a.term >= s.currentTerm {
      VoteCallDisk(c, counted, j, s, a);
      VoteCallPterm(c, j, s, a);
      hide RequestVote, VoteCallCore, Inv, Asked;
      var c' := VoteCallCore(c, j, s, a);
      var s' := RequestVote(s, a).0;
      EvidentGrows(c, c', Full(s), Full(s'), s.commitIndex, s.currentTerm, a.term);
      EvidentGrows(c, c', Full(s), Full(s'), s.lastIncludedIndex, s.disk.currentTerm, a.term);
      RoleFrame(c, c', counted, j, s, s');
    }
  }

  lemma VoteCallPterm(c: Core, j: nat, s: Server, a: VoteArgs)
    requires j < |c.pterm| && j < |c.logs| && |s.log| >= 1 && a.term >= s.currentTerm
    ensures VoteCallCore(c, j, s, a).pterm == c.pterm[j := a.term] && VoteCallCore(c, j, s, a).n == c.n
  {}

  lemma GrantedReply(s: Server, a: VoteArgs, n: nat)
    requires Shape(s, n) && RequestVote(s, a).1.voteGranted
    ensures a.term >= s.currentTerm && RequestVote(s, a).1.term == a.term && Full(s) != []
    ensures a.lastLogTerm > LastTerm(Full(s)) || (a.lastLogTerm == LastTerm(Full(s)) && a.lastLogIndex + 1 >= |Full(s)|)
  {
    FullLast(s, n);
  }

  /** The answer to a vote call, seen from the candidate. */
  lemma VoteAnswerNew(c: Core, counted: set<nat>, j: nat, s: Server, cc: set<nat>, cs: Server, src: nat, a: VoteArgs)
    requires Inv(c) && ServerOk(c, counted, j, s) && src < c.n && VoteCallOk(c, cc, cs, src, j, a)
    ensures VoteAnswerOk(VoteCallCore(c, j, s, a), cc, cs, src, j, a, RequestVote(s, a).1)
  {
    hide Inv, LeaderOk, CandidateOk, CommitOk, DiskOk, PastOk, RequestVote, Full;
    VoteCallGrows(c, counted, j, s, a);
    if RequestVote(s, a).1.voteGranted {
      GrantedReply(s, a, c.n);
    }
  }

  lemma VoteCallOthers(net: Net, h: History, k: nat, j: nat, o: nat)
    requires NetInv(net, h) && k < |net.rpcs| && o < |net.rpcs| && o != k && !net.rpcs[o].Over?
    requires net.rpcs[k].VoteCall? && net.rpcs[k].dst == j < h.core.n
    requires ServerOk(h.core, h.counted[j], j, net.servers[j]) && Asked(h.core, j, net.rpcs[k].vote)
    requires net.rpcs[k].vote.candidateId == net.rpcs[k].src
    ensures var a := net.rpcs[k].vote;
      Carried(net, h, j, RequestVote(net.servers[j], a).0, VoteCallCore(h.core, j, net.servers[j], a), h.counted[j],
        net.rpcs[o])
  {
    var a := net.rpcs[k].vote;
    var m := net.rpcs[o];
    assert m in net.rpcs;
    assert RpcOk(h.core, h.counted[m.src], net.servers[m.src], m);
    assert !IsVote(m, net.rpcs[k].src, j, a.term);
    RequestVoteEffect(net.servers[j], a, h.core.n);
    VoteCallGrows(h.core, h.counted[j], j, net.servers[j], a);
  }

  lemma VoteCallIs(net: Net, k: nat)
    requires Enabled(net, Deliver(k)) && net.rpcs[k].VoteCall?
    ensures var m := net.rpcs[k]; var (s', r) := RequestVote(net.servers[m.dst], m.vote);
      Next(net, Deliver(k)) == Replace(net, m.dst, s', k, VoteAnswer(m.src, m.dst, m.vote, r), [])
  {}

  lemma VoteCallAsked(c: Core, counted: set<nat>, s: Server, m: Rpc)
    requires m.VoteCall? && m.src < |c.pterm| == |c.logs| == c.n && RpcOk(c, counted, s, m)
    ensures Asked(c, m.dst, m.vote) && VoteCallOk(c, counted, s, m.src, m.dst, m.vote) && m.vote.candidateId == m.src
  {}

  lemma VoteCallStep(net: Net, h: History, k: nat) returns (h': History)
    requires NetInv(net, h) && Enabled(net, Deliver(k)) && net.rpcs[k].VoteCall?
    ensures NetInv(Next(net, Deliver(k)), h') && Grows(h.core, h'.core)
  {
    assert k < |net.rpcs|;
    hide *;
    var m := net.rpcs[k];
    var j, a := m.dst, m.vote;
    RpcFacts(net, h, k);
    ServerFacts(net, h, j);
    VoteCallAsked(h.core, h.counted[m.src], net.servers[m.src], m);
    var s := net.servers[j];
    var c' := VoteCallCore(h.core, j, s, a);
    VoteCallGrows(h.core, h.counted[j], j, s, a);
    VoteCallServer(h.core, h.counted[j], j, s, a);
    VoteAnswerNew(h.core, h.counted[j], j, s, h.counted[m.src], net.servers[m.src], m.src, a);
    VoteCallIs(net, k);
    var (s', r) := RequestVote(s, a);
    var answer := VoteAnswer(m.src, j, a, r);
    forall o | 0 <= o < |net.rpcs| && o != k && !net.rpcs[o].Over?
      ensures Carried(net, h, j, s', c', h.counted[j], net.rpcs[o])
    {
      VoteCallOthers(net, h, k, j, o);
    }
    VoteAnswerRpc(c', h.counted[m.src], net.servers[m.src], answer);
    AnswersItself(m, answer);
    AssembleDeliver(net, h, k, j, s', c', h.counted[j], answer, []);
    h' := History(c', h.counted[j := h.counted[j]]);
  }

  lemma VoteAnswerRpc(c: Core, counted: set<nat>, s: Server, m: Rpc)
    requires m.VoteAnswer? && m.src < |c.pterm| == |c.logs|
    requires VoteAnswerOk(c, counted, s, m.src, m.dst, m.vote, m.voteReply)
    ensures RpcOk(c, counted, s, m)
  {}

  lemma AnswersItself(m: Rpc, answer: Rpc)
    requires m.VoteCall? && answer.VoteAnswer? && answer.src == m.src && answer.dst == m.dst && answer.vote == m.vote
    ensures IsVote(m, answer.src, answer.dst, answer.vote.term)
  {}

  // ----- receiving a vote

  lemma VoteAnswerIs(net: Net, k: nat)
    requires Enabled(net, Deliver(k)) && net.rpcs[k].VoteAnswer?
    ensures var m := net.rpcs[k]; var n := |net.servers|;
      var (s', won) := HandleVoteReply(net.servers[m.src], m.src, n, m.vote, m.voteReply);
      && (won ==> |s'.log| >= 1 && n <= |s'.nextIndex|)
      && Next(net, Deliver(k)) == Replace(net, m.src, s', k, Over, if won then Broadcast(s', m.src, n) else [])
  {}

  /** A reply that is ignored, or not counted. */
  lemma VoteIgnored(net: Net, h: History, k: nat, i: nat)
    requires NetInv(net, h) && k < |net.rpcs| && i < h.core.n
    ensures NetInv(Replace(net, i, net.servers[i], k, Over, []), h)
  {
    ServerFacts(net, h, i);
    hide ServerOk, RpcOk;
    DeliverSteady(net, h, k, i, net.servers[i], h.core, Over);
    assert h.(core := h.core) == h;
  }

  /** A reply of a newer term. */
  lemma VoteTooLate(net: Net, h: History, k: nat, i: nat, t: nat) returns (h': History)
    requires NetInv(net, h) && k < |net.rpcs| && i < h.core.n && t > net.servers[i].currentTerm
    requires |net.servers[i].log| >= 1
    ensures var s' := Persist(net.servers[i].(currentTerm := t, votedFor := NoVote)).(role := Follower);
      NetInv(Replace(net, i, s', k, Over, []), h')
    ensures Grows(h.core, h'.core)
  {
    ServerFacts(net, h, i);
    var s := net.servers[i];
    var s' := Persist(s.(currentTerm := t, votedFor := NoVote)).(role := Follower);
    var c' := Raise(h.core, i, t);
    h' := h.(core := c');
    RaiseKeepsInv(h.core, i, t);
    RaiseUntouched(h.core, i, t);
    TooLateServer(h.core, h.counted[i], i, s, t);
    hide ServerOk, RpcOk;
    DeliverSteady(net, h, k, i, s', c', Over);
  }

  lemma TooLateServer(c: Core, counted: set<nat>, i: nat, s: Server, t: nat)
    requires Inv(c) && ServerOk(c, counted, i, s) && t > s.currentTerm && Grows(c, Raise(c, i, t))
    ensures ServerOk(Raise(c, i, t), counted, i, Persist(s.(currentTerm := t, votedFor := NoVote)).(role := Follower))
  {
    var c' := Raise(c, i, t);
    var s' := Persist(s.(currentTerm := t, votedFor := NoVote)).(role := Follower);
    VoteRemembered(c, i, s);
    EvidentGrows(c, c', Full(s), Full(s'), s.commitIndex, s.currentTerm, t);
    EvidentGrows(c, c', Full(s), Full(s'), s.lastIncludedIndex, s.disk.currentTerm, t);
  }

  /** The candidate after counting reply `r`, and the voters it has then counted. */
  function Counted(s: Server, r: VoteReply): Server
  {
    if r.voteGranted then s.(approved := s.approved + 1) else s
  }

  function CountedSet(counted: set<nat>, dst: nat, r: VoteReply): set<nat>
  {
    if r.voteGranted then counted + {dst} else counted
  }

  lemma CountedServer(c: Core, counted: set<nat>, i: nat, s: Server, dst: nat, a: VoteArgs, r: VoteReply)
    requires ServerOk(c, counted, i, s) && Standing(s, a.term) && VoteAnswerOk(c, counted, s, i, dst, a, r)
    ensures ServerOk(c, CountedSet(counted, dst, r), i, Counted(s, r))
  {
    var s', counted' := Counted(s, r), CountedSet(counted, dst, r);
    assert Full(s') == Full(s);
    forall j | j in counted' ensures VotedFor(c, s'.currentTerm, i, j) {
      assert j in counted ==> VotedFor(c, s.currentTerm, i, j);
    }
  }

  lemma CountedOthers(net: Net, h: History, k: nat, o: nat, s': Server, c': Core)
    requires NetInv(net, h) && k < |net.rpcs| && o < |net.rpcs| && o != k && !net.rpcs[o].Over?
    requires net.rpcs[k].VoteAnswer? && net.rpcs[k].src < h.core.n
    requires var i := net.rpcs[k].src; var s := net.servers[i];
      && Standing(s, net.rpcs[k].vote.term)
      && c'.grants == h.core.grants && c'.logs == h.core.logs
      && (|| (s'.role == Candidate && s'.currentTerm == s.currentTerm)
          || (s'.role == Leader && s'.currentTerm == s.currentTerm && s.currentTerm !in h.core.elect))
    ensures |net.servers| == |h.counted| == |h.core.logs| == |c'.logs|
    ensures var m := net.rpcs[k];
      Carried(net, h, m.src, s', c', CountedSet(h.counted[m.src], m.dst, m.voteReply), net.rpcs[o])
  {
    RpcFacts(net, h, o);
    RpcFacts(net, h, k);
    var m, x := net.rpcs[k], net.rpcs[o];
    assert StillOpen(c', x);
    if (x.VoteCall? || x.VoteAnswer?) && x.src == m.src && x.vote.term == m.vote.term {
      assert !IsVote(x, m.src, m.dst, m.vote.term);
      assert x.dst != m.dst;
    }
  }

  lemma VoteCounted(net: Net, h: History, k: nat) returns (h': History)
    requires NetInv(net, h) && k < |net.rpcs| && net.rpcs[k].VoteAnswer?
    requires net.rpcs[k].src < |net.servers| && Standing(net.servers[net.rpcs[k].src], net.rpcs[k].vote.term)
    ensures var m := net.rpcs[k];
      NetInv(Replace(net, m.src, Counted(net.servers[m.src], m.voteReply), k, Over, []), h')
    ensures h'.core == h.core
  {
    hide *;
    var m := net.rpcs[k];
    RpcFacts(net, h, k);
    ServerFacts(net, h, m.src);
    VoteAnswerIn(h.core, h.counted[m.src], net.servers[m.src], m);
    var s' := Counted(net.servers[m.src], m.voteReply);
    var counted' := CountedSet(h.counted[m.src], m.dst, m.voteReply);
    CountedServer(h.core, h.counted[m.src], m.src, net.servers[m.src], m.dst, m.vote, m.voteReply);
    CountedRole(net.servers[m.src], m.vote.term, m.voteReply);
    GrowsSelf(h.core);
    forall o | 0 <= o < |net.rpcs| && o != k && !net.rpcs[o].Over?
      ensures Carried(net, h, m.src, s', h.core, counted', net.rpcs[o])
    {
      CountedOthers(net, h, k, o, s', h.core);
    }
    AssembleDeliver(net, h, k, m.src, s', h.core, counted', Over, []);
    h' := History(h.core, h.counted[m.src := counted']);
  }

  lemma VoteAnswerIn(c: Core, counted: set<nat>, s: Server, m: Rpc)
    requires m.VoteAnswer? && m.src < |c.pterm| == |c.logs| && RpcOk(c, counted, s, m)
    ensures VoteAnswerOk(c, counted, s, m.src, m.dst, m.vote, m.voteReply)
  {}

  lemma CountedRole(s: Server, t: nat, r: VoteReply)
    requires Standing(s, t)
    ensures var s' := Counted(s, r); s'.role == Candidate && s'.currentTerm == s.currentTerm == t
  {}

  // ----- winning

  /** A candidate counted by a majority wins a term that nobody has won. */
  lemma MajorityWins(c: Core, counted: set<nat>, i: nat, s: Server)
    requires Inv(c) && ServerOk(c, counted, i, s) && s.role == Candidate && s.approved > c.n / 2
    ensures Won(c, s.currentTerm, i, counted)
  {
    var t := s.currentTerm;
    assert IsQuorum(c.n, counted);
    forall j | j in counted ensures VotedFor(c, t, i, j) {}
    if t in c.elect {
      forall j | j in counted ensures (j, t) in c.grants && c.grants[(j, t)].candidate == i {
        assert VotedFor(c, t, i, j);
      }
      OneWinner(c, t, i, counted);
    }
  }

  lemma WinnerLeader(c: Core, counted: set<nat>, i: nat, s: Server)
    requires Inv(c) && ServerOk(c, counted, i, s) && s.role == Candidate && Won(c, s.currentTerm, i, counted)
    requires Grows(c, Win(c, s.currentTerm, i, counted))
    ensures var s' := InitializeLeader(s, i, c.n);
      |s'.log| >= 1 && |s'.matchIndex| == |s'.nextIndex| && LeaderOk(Win(c, s.currentTerm, i, counted), i, s')
  {
    var c' := Win(c, s.currentTerm, i, counted);
    var s' := InitializeLeader(s, i, c.n);
    assert Full(s') == Full(s);
    FullLast(s, c.n);
    assert VotedFor(c, s.currentTerm, i, i);
    hide Inv, Evident, CommitOk, DiskOk;
    forall p: nat | p < |s'.matchIndex| ensures MatchOk(c', s', p) {
    }
  }

  lemma WinnerServer(c: Core, counted: set<nat>, i: nat, s: Server)
    requires Inv(c) && ServerOk(c, counted, i, s) && s.role == Candidate && Won(c, s.currentTerm, i, counted)
    requires Grows(c, Win(c, s.currentTerm, i, counted))
    ensures ServerOk(Win(c, s.currentTerm, i, counted), counted, i, InitializeLeader(s, i, c.n))
  {
    var c' := Win(c, s.currentTerm, i, counted);
    var s' := InitializeLeader(s, i, c.n);
    assert Full(s') == Full(s);
    WinnerLeader(c, counted, i, s);
    CommitFrame(c, c', s);
    assert VotedFor(c, s.currentTerm, i, i);
    hide LeaderOk, Evident, Inv;
  }

  lemma WinnerRpcs(c: Core, counted: set<nat>, i: nat, s: Server, sent: seq<Rpc>, m: Rpc)
    requires AllSent(c, counted, i, s, sent) && m in sent
    ensures (m.AppendCall? || m.InstallCall?) && m.src == i < |c.pterm| == |c.logs| && RpcOk(c, counted, s, m)
  {}

  lemma VoteWon(net: Net, h: History, k: nat) returns (h': History)
    requires NetInv(net, h) && k < |net.rpcs| && net.rpcs[k].VoteAnswer?
    requires var m := net.rpcs[k]; var n := |net.servers|;
      && m.src < n && Standing(net.servers[m.src], m.vote.term)
      && Counted(net.servers[m.src], m.voteReply).approved > n / 2
    ensures var m := net.rpcs[k]; var n := |net.servers|;
      var s' := InitializeLeader(Counted(net.servers[m.src], m.voteReply), m.src, n);
      && |s'.log| >= 1 && |s'.nextIndex| >= n
      && NetInv(Replace(net, m.src, s', k, Over, Broadcast(s', m.src, n)), h')
    ensures Grows(h.core, h'.core)
  {
    hide *;
    var m := net.rpcs[k];
    RpcFacts(net, h, k);
    ServerFacts(net, h, m.src);
    VoteAnswerIn(h.core, h.counted[m.src], net.servers[m.src], m);
    var c, i, n := h.core, m.src, h.core.n;
    var s1 := Counted(net.servers[i], m.voteReply);
    var counted' := CountedSet(h.counted[i], m.dst, m.voteReply);
    CountedServer(c, h.counted[i], i, net.servers[i], m.dst, m.vote, m.voteReply);
    CountedRole(net.servers[i], m.vote.term, m.voteReply);
    MajorityWins(c, counted', i, s1);
    var c' := Win(c, s1.currentTerm, i, counted');
    WinKeepsInv(c, s1.currentTerm, i, counted');
    WinUntouched(c, s1.currentTerm, i, counted');
    WinShape(c, s1.currentTerm, i, counted');
    WinnerServer(c, counted', i, s1);
    var s' := InitializeLeader(s1, i, n);
    WinnerRole(c, s1, i, n, counted');
    BroadcastOk(c', counted', i, s', n);
    forall x | x in Broadcast(s', i, n)
      ensures && (x.AppendCall? || x.InstallCall?) && x.src < n
              && RpcOk(c', h.counted[i := counted'][x.src], net.servers[i := s'][x.src], x)
    {
      WinnerRpcs(c', counted', i, s', Broadcast(s', i, n), x);
    }
    forall o | 0 <= o < |net.rpcs| && o != k && !net.rpcs[o].Over?
      ensures Carried(net, h, i, s', c', counted', net.rpcs[o])
    {
      CountedOthers(net, h, k, o, s', c');
    }
    AssembleDeliver(net, h, k, i, s', c', counted', Over, Broadcast(s', i, n));
    h' := History(c', h.counted[i := counted']);
  }

  lemma WinnerRole(c: Core, s: Server, i: nat, n: nat, counted: set<nat>)
    requires i < n && Won(c, s.currentTerm, i, counted)
    ensures var s' := InitializeLeader(s, i, n);
      && s'.role == Leader && s'.currentTerm == s.currentTerm && s.currentTerm !in c.elect
      && s'.log == s.log && |s'.nextIndex| == n
  {}

  lemma VoteAnswerStep(net: Net, h: History, k: nat) returns (h': History)
    requires NetInv(net, h) && Enabled(net, Deliver(k)) && net.rpcs[k].VoteAnswer?
    ensures NetInv(Next(net, Deliver(k)), h') && Grows(h.core, h'.core)
  {
    assert k < |net.rpcs|;
    RpcFacts(net, h, k);
    var m := net.rpcs[k];
    var i, a, r := m.src, m.vote, m.voteReply;
    var s := net.servers[i];
    ServerFacts(net, h, i);
    VoteAnswerIs(net, k);
    GrowsSelf(h.core);
    hide NetInv, ServerOk, RpcOk, Next, Inv, Enabled, InitializeLeader, Broadcast, Shape;
    if s.currentTerm != a.term || s.role != Candidate || r.term < s.currentTerm {
      VoteIgnored(net, h, k, i);
      h' := h;
    } else if r.term > s.currentTerm {
      h' := VoteTooLate(net, h, k, i, r.term);
    } else if Counted(s, r).approved > |net.servers| / 2 {
      h' := VoteWon(net, h, k);
    } else {
      h' := VoteCounted(net, h, k);
    }
  }
}
