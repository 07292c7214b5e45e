/** The parts of the invariant that a step leaves alone. */
module RaftFrames {
  import opened RaftCore
  import opened RaftCoreSteps
  import opened RaftServer
  import opened RaftNet
  import opened RaftInvariant

  // ----- commitment only grows

  lemma CommittedGrows(c: Core, c': Core, t: nat, k: nat)
    requires Grows(c, c') && Committed(c, t, k)
    ensures Committed(c', t, k) && c'.llog[t][..k + 1] == c.llog[t][..k + 1]
  {
    var q :| IsQuorum(c.n, q) && AckedBy(c, t, k, q);
    assert AckedBy(c', t, k, q) by {
      forall i | i in q ensures (i, t) in c'.acks && c'.acks[(i, t)] >= k {
        assert (i, t) in c.acks;
      }
    }
  }

  /** Evidence carries over to a log that agrees as far as the index, and to a later history. */
  lemma EvidentGrows(c: Core, c': Core, l: Log, l': Log, index: nat, bound: nat, bound': nat)
    requires Grows(c, c') && Evident(c, l, index, bound) && bound <= bound'
    requires index < |l'| && l'[..index + 1] == l[..index + 1]
    ensures Evident(c', l', index, bound')
  {
    if index > 0 {
      var t, k :| CommitPoint(c, l, index, bound, t, k);
      CommittedGrows(c, c', t, k);
      assert c'.llog[t][..index + 1] == c'.llog[t][..k + 1][..index + 1];
      assert c.llog[t][..index + 1] == c.llog[t][..k + 1][..index + 1];
      assert CommitPoint(c', l', index, bound', t, k);
    }
  }

  lemma EvidentLower(c: Core, l: Log, index: nat, bound: nat, lower: nat)
    requires Evident(c, l, index, bound) && lower <= index
    ensures Evident(c, l, lower, bound)
  {
    if lower > 0 {
      var t, k :| CommitPoint(c, l, index, bound, t, k);
      assert l[..lower + 1] == l[..index + 1][..lower + 1];
      assert c.llog[t][..lower + 1] == c.llog[t][..index + 1][..lower + 1];
      assert CommitPoint(c, l, lower, bound, t, k);
    }
  }

  // ----- servers that did nothing

  /** Nothing about server `j` changes between the two histories. */
  ghost predicate Untouched(c: Core, c': Core, j: nat)
  {
    && Grows(c, c') && j < c.n
    && c'.logs[j] == c.logs[j] && c'.pterm[j] == c.pterm[j]
    && (forall u :: (j, u) in c'.grants ==> (j, u) in c.grants)
    && (forall u :: u in c'.elect && u !in c.elect ==> c'.elect[u].leader != j)
    && (forall u :: u in c.elect && u in c.llog && c.elect[u].leader == j ==> c'.llog[u] == c.llog[u])
  }

  lemma GrowsSelf(c: Core)
    requires Inv(c)
    ensures Grows(c, c) && forall j: nat :: j < c.n ==> Untouched(c, c, j)
  {}

  lemma GrowsSizes(c: Core, c': Core)
    requires Grows(c, c')
    ensures c'.n == c.n == |c.logs| == |c.pterm| == |c'.logs| == |c'.pterm|
  {}

  lemma CandidateFrame(c: Core, c': Core, counted: set<nat>, j: nat, s: Server)
    requires Untouched(c, c', j) && CandidateOk(c, counted, j, s)
    ensures CandidateOk(c', counted, j, s)
  {
    if s.role == Candidate {
      forall i | i in counted ensures VotedFor(c', s.currentTerm, j, i) {
        assert VotedFor(c, s.currentTerm, j, i);
      }
    }
  }

  lemma LeaderFrame(c: Core, c': Core, j: nat, s: Server)
    requires Untouched(c, c', j) && |s.log| >= 1 && |s.matchIndex| == |s.nextIndex| && LeaderOk(c, j, s)
    ensures LeaderOk(c', j, s)
  {
    if s.role == Leader {
      forall p: nat | p < |s.matchIndex| ensures MatchOk(c', s, p) {
        assert MatchOk(c, s, p);
      }
    }
  }

  lemma CommitFrame(c: Core, c': Core, s: Server)
    requires Grows(c, c') && |s.log| >= 1 && CommitOk(c, s)
    ensures CommitOk(c', s)
  {
    EvidentGrows(c, c', Full(s), Full(s), s.commitIndex, s.currentTerm, s.currentTerm);
    EvidentGrows(c, c', Full(s), Full(s), s.lastIncludedIndex, s.disk.currentTerm, s.disk.currentTerm);
  }

  lemma ServerFrame(c: Core, c': Core, counted: set<nat>, j: nat, s: Server)
    requires Untouched(c, c', j) && ServerOk(c, counted, j, s)
    ensures ServerOk(c', counted, j, s)
  {
    CandidateFrame(c, c', counted, j, s);
    LeaderFrame(c, c', j, s);
    CommitFrame(c, c', s);
  }

  /** The server became a follower, or stays in its role and term with the same log. */
  ghost predicate KeepsRole(c: Core, c': Core, i: nat, s: Server, s': Server)
    requires |s.log| >= 1 && |s'.log| >= 1 && i < |c.pterm| && i < |c'.pterm|
  {
    s'.role != Follower ==>
      && s'.role == s.role && s'.currentTerm == s.currentTerm && Full(s') == Full(s) && RealLogLen(s') == RealLogLen(s)
      && s'.nextIndex == s.nextIndex && s'.matchIndex == s.matchIndex && s.commitIndex <= s'.commitIndex
      && s'.approved == s.approved && c'.pterm[i] == c.pterm[i]
  }

  lemma RoleFrame(c: Core, c': Core, counted: set<nat>, i: nat, s: Server, s': Server)
    requires Grows(c, c') && i < c.n && c'.logs[i] == c.logs[i] && c'.elect == c.elect && c'.llog == c.llog
    requires |s.log| >= 1 && |s'.log| >= 1 && |s.matchIndex| == |s.nextIndex| && |s'.matchIndex| == |s'.nextIndex|
    requires LeaderOk(c, i, s) && CandidateOk(c, counted, i, s) && PastOk(c, i, s) && KeepsRole(c, c', i, s, s')
    ensures LeaderOk(c', i, s') && CandidateOk(c', counted, i, s') && PastOk(c', i, s')
  {
    if s'.role == Leader {
      forall p: nat | p < |s'.matchIndex| ensures MatchOk(c', s', p) {
        assert MatchOk(c, s, p);
      }
    }
    if s'.role == Candidate {
      forall j | j in counted ensures VotedFor(c', s'.currentTerm, i, j) {
        assert VotedFor(c, s.currentTerm, i, j);
      }
    }
  }

  // ----- rpcs that were not dealt with

  /** What the sender's pending rpc `m` relies on is the same, or no longer matters. */
  ghost predicate Calm(c: Core, c': Core, counted: set<nat>, counted': set<nat>, s: Server, s': Server, m: Rpc)
    requires m.Over? || (m.src < |c.logs| && m.src < |c'.logs|)
  {
    && (m.VoteCall? || m.VoteAnswer? ==>
          Standing(s', m.vote.term) ==>
            Standing(s, m.vote.term) && c'.logs[m.src] == c.logs[m.src] && (m.dst in counted' ==> m.dst in counted))
    && (m.InstallCall? || m.InstallAnswer? ==>
          Leading(s', m.install.term) ==> Leading(s, m.install.term) && s.commitIndex <= s'.commitIndex)
  }

  /** The vote asked for by `m` has not been granted. */
  ghost predicate StillOpen(c: Core, m: Rpc)
  {
    m.VoteCall? ==> !((m.dst, m.vote.term) in c.grants && c.grants[(m.dst, m.vote.term)].candidate == m.src)
  }

  lemma AppendArgsFrame(c: Core, c': Core, src: nat, dst: nat, a: AppendArgs)
    requires Grows(c, c') && AppendArgsOk(c, src, dst, a)
    ensures AppendArgsOk(c', src, dst, a)
  {
    var l, l' := c.llog[a.term], c'.llog[a.term];
    assert l <= l';
    assert l'[a.prevLogIndex + 1..a.prevLogIndex + 1 + |a.entries|] ==
      l[a.prevLogIndex + 1..a.prevLogIndex + 1 + |a.entries|];
    EvidentGrows(c, c', l, l', a.leaderCommit, a.term, a.term);
  }

  lemma InstallArgsFrame(c: Core, c': Core, s: Server, s': Server, src: nat, dst: nat, a: InstallArgs)
    requires Grows(c, c') && InstallArgsOk(c, s, src, dst, a)
    requires Leading(s', a.term) ==> Leading(s, a.term) && s.commitIndex <= s'.commitIndex
    ensures InstallArgsOk(c', s', src, dst, a)
  {
    var l, l' := c.llog[a.term], c'.llog[a.term];
    assert l <= l';
    assert l'[..a.lastIncludedIndex + 1] == l[..a.lastIncludedIndex + 1];
    EvidentGrows(c, c', l, l', a.lastIncludedIndex, a.term, a.term);
  }

  lemma VoteAnswerFrame(c: Core, c': Core, counted: set<nat>, counted': set<nat>, s: Server, s': Server, src: nat,
      dst: nat, a: VoteArgs, r: VoteReply)
    requires Grows(c, c') && src < c.n && Calm(c, c', counted, counted', s, s', VoteAnswer(src, dst, a, r))
    requires VoteAnswerOk(c, counted, s, src, dst, a, r)
    ensures VoteAnswerOk(c', counted', s', src, dst, a, r)
  {
    if r.voteGranted && Standing(s', a.term) {
      assert VotedFor(c, a.term, src, dst);
    }
  }

  lemma RpcFrame(c: Core, c': Core, counted: set<nat>, counted': set<nat>, s: Server, s': Server, m: Rpc)
    requires Grows(c, c') && !m.Over? && m.src < c.n && RpcOk(c, counted, s, m)
    requires Calm(c, c', counted, counted', s, s', m) && StillOpen(c', m)
    ensures RpcOk(c', counted', s', m)
  {
    match m
    case VoteCall(src, dst, a) =>
    case VoteAnswer(src, dst, a, r) => VoteAnswerFrame(c, c', counted, counted', s, s', src, dst, a, r);
    case AppendCall(src, dst, a) => AppendArgsFrame(c, c', src, dst, a);
    case AppendAnswer(src, dst, a, r) => AppendArgsFrame(c, c', src, dst, a);
    case InstallCall(src, dst, a) => InstallArgsFrame(c, c', s, s', src, dst, a);
    case InstallAnswer(src, dst, a, r) => InstallArgsFrame(c, c', s, s', src, dst, a);
  }

  // ----- reading the invariant

  lemma NetFacts(net: Net, h: History)
    requires NetInv(net, h)
    ensures Inv(h.core) && |net.servers| == |h.counted| == |h.core.pterm| == |h.core.logs| == h.core.n
  {}

  lemma ServerFacts(net: Net, h: History, i: nat)
    requires NetInv(net, h) && i < h.core.n
    ensures |net.servers| == |h.counted| == |h.core.pterm| == |h.core.logs| == h.core.n && Inv(h.core)
    ensures ServerOk(h.core, h.counted[i], i, net.servers[i]) && Shape(net.servers[i], h.core.n)
    ensures var s := net.servers[i];
      |s.log| >= 1 && |s.nextIndex| == |s.matchIndex| == h.core.n && s.lastIncludedIndex <= s.commitIndex
  {
    assert ServerOk(h.core, h.counted[i], i, net.servers[i]);
  }

  lemma RpcFacts(net: Net, h: History, k: nat)
    requires NetInv(net, h) && k < |net.rpcs| && !net.rpcs[k].Over?
    ensures var m := net.rpcs[k];
      && m.src < |net.servers| == |h.counted| == |h.core.pterm| == |h.core.logs| == h.core.n
      && m in net.rpcs && RpcOk(h.core, h.counted[m.src], net.servers[m.src], m)
      && m.dst < h.core.n && m.src != m.dst
  {
    assert net.rpcs[k] in net.rpcs;
  }

  // ----- putting a step together

  /** `m` was pending before and its sender did nothing it depends on. */
  ghost predicate Carried(net: Net, h: History, i: nat, s': Server, c': Core, counted': set<nat>, m: Rpc)
    requires |net.servers| == |h.counted| == |h.core.logs| == |c'.logs| && i < |net.servers|
  {
    && m in net.rpcs && !m.Over? && StillOpen(c', m)
    && (m.src == i ==> Calm(h.core, c', h.counted[i], counted', net.servers[i], s', m))
  }

  /** Server `i` moves to `s'`; every rpc afterwards is carried over or in order by itself. */
  lemma Assemble(net: Net, h: History, i: nat, s': Server, c': Core, counted': set<nat>, rpcs': seq<Rpc>)
    requires NetInv(net, h) && i < h.core.n && Inv(c') && Grows(h.core, c')
    requires forall j: nat :: j < h.core.n && j != i ==> Untouched(h.core, c', j)
    requires ServerOk(c', counted', i, s')
    requires VotesUnique(rpcs')
    requires forall m :: m in rpcs' && !m.Over? ==>
      && m.src < h.core.n
      && (|| Carried(net, h, i, s', c', counted', m)
          || RpcOk(c', h.counted[i := counted'][m.src], net.servers[i := s'][m.src], m))
    ensures NetInv(Net(net.servers[i := s'], rpcs'), History(c', h.counted[i := counted']))
  {
    var net' := Net(net.servers[i := s'], rpcs');
    var h' := History(c', h.counted[i := counted']);
    forall j: nat | j < c'.n ensures ServerOk(c', h'.counted[j], j, net'.servers[j]) {
      if j != i {
        assert ServerOk(h.core, h.counted[j], j, net.servers[j]);
        ServerFrame(h.core, c', h.counted[j], j, net.servers[j]);
      }
    }
    forall m | m in rpcs' && !m.Over? ensures RpcOk(c', h'.counted[m.src], net'.servers[m.src], m) {
      if Carried(net, h, i, s', c', counted', m) {
        CarriedOk(net, h, i, s', c', counted', m);
      }
    }
  }

  lemma CarriedOk(net: Net, h: History, i: nat, s': Server, c': Core, counted': set<nat>, m: Rpc)
    requires NetInv(net, h) && i < h.core.n && Grows(h.core, c') && Carried(net, h, i, s', c', counted', m)
    requires forall j: nat :: j < h.core.n && j != i ==> Untouched(h.core, c', j)
    ensures m.src < h.core.n && RpcOk(c', h.counted[i := counted'][m.src], net.servers[i := s'][m.src], m)
  {
    assert m.src < h.core.n && RpcOk(h.core, h.counted[m.src], net.servers[m.src], m);
    if m.src == i {
      RpcFrame(h.core, c', h.counted[i], counted', net.servers[i], s', m);
    } else {
      assert Untouched(h.core, c', m.src);
      RpcFrame(h.core, c', h.counted[m.src], h.counted[m.src], net.servers[m.src], net.servers[m.src], m);
    }
  }

  // ----- the sequence of rpcs

  /** Answering or dropping an rpc keeps pending votes unique, if a vote is only answered. */
  lemma UniqueReplace(rpcs: seq<Rpc>, k: nat, m: Rpc)
    requires VotesUnique(rpcs) && k < |rpcs|
    requires (m.VoteCall? || m.VoteAnswer?) ==> IsVote(rpcs[k], m.src, m.dst, m.vote.term)
    ensures VotesUnique(rpcs[k := m])
  {}

  /** Messages that are not votes, or votes of a new term, can be added. */
  lemma UniqueAppend(rpcs: seq<Rpc>, sent: seq<Rpc>)
    requires VotesUnique(rpcs) && VotesUnique(sent)
    requires forall m, x :: m in rpcs && x in sent && (m.VoteCall? || m.VoteAnswer?) ==>
      !IsVote(x, m.src, m.dst, m.vote.term)
    ensures VotesUnique(rpcs + sent)
  {
    var all := rpcs + sent;
    forall j, k | 0 <= j < k < |all| && (all[j].VoteCall? || all[j].VoteAnswer?)
      ensures !IsVote(all[k], all[j].src, all[j].dst, all[j].vote.term)
    {
      if j < |rpcs| && k >= |rpcs| {
        assert all[j] in rpcs && all[k] in sent;
      }
    }
  }

  lemma UniqueAppendOthers(rpcs: seq<Rpc>, sent: seq<Rpc>)
    requires VotesUnique(rpcs) && forall m :: m in sent ==> m.AppendCall? || m.InstallCall?
    ensures VotesUnique(rpcs + sent)
  {
    forall j | 0 <= j < |sent| ensures sent[j].AppendCall? || sent[j].InstallCall? {
      assert sent[j] in sent;
    }
    UniqueAppend(rpcs, sent);
  }

  /** Rpc `k` is dealt with by server `i`, which answers it and may send `sent`. */
  lemma AssembleDeliver(net: Net, h: History, k: nat, i: nat, s': Server, c': Core, counted': set<nat>, answer: Rpc,
      sent: seq<Rpc>)
    requires NetInv(net, h) && k < |net.rpcs| && i < h.core.n && Inv(c') && Grows(h.core, c')
    requires forall j: nat :: j < h.core.n && j != i ==> Untouched(h.core, c', j)
    requires ServerOk(c', counted', i, s')
    requires answer.Over? ||
      (answer.src < h.core.n &&
       RpcOk(c', h.counted[i := counted'][answer.src], net.servers[i := s'][answer.src], answer))
    requires (answer.VoteCall? || answer.VoteAnswer?) ==> IsVote(net.rpcs[k], answer.src, answer.dst, answer.vote.term)
    requires forall m :: m in sent ==>
      && (m.AppendCall? || m.InstallCall?) && m.src < h.core.n
      && RpcOk(c', h.counted[i := counted'][m.src], net.servers[i := s'][m.src], m)
    requires forall j :: 0 <= j < |net.rpcs| && j != k && !net.rpcs[j].Over? ==>
      Carried(net, h, i, s', c', counted', net.rpcs[j])
    ensures NetInv(Replace(net, i, s', k, answer, sent), History(c', h.counted[i := counted']))
  {
    var rpcs' := net.rpcs[k := answer] + sent;
    UniqueReplace(net.rpcs, k, answer);
    UniqueAppendOthers(net.rpcs[k := answer], sent);
    forall m | m in rpcs' && !m.Over?
      ensures m.src < h.core.n
      ensures Carried(net, h, i, s', c', counted', m)
           || RpcOk(c', h.counted[i := counted'][m.src], net.servers[i := s'][m.src], m)
    {
      hide *;
      if m !in sent {
        assert m in net.rpcs[k := answer];
        var j :| 0 <= j < |net.rpcs| && net.rpcs[k := answer][j] == m;
        if j != k {
          assert Carried(net, h, i, s', c', counted', net.rpcs[j]);
          CarriedOk(net, h, i, s', c', counted', m);
        }
      }
    }
    hide *;
    Assemble(net, h, i, s', c', counted', rpcs');
  }
}
