/** What holds in every reachable state of the cluster, relative to its history. */
module RaftInvariant {
  import opened RaftCore
  import opened RaftCoreSteps
  import opened RaftServer
  import opened RaftNet

  /** The core, and for each server the voters it has counted in its current election. */
  datatype History = History(core: Core, counted: seq<set<nat>>)

  // ----- evidence that an index is committed

  ghost predicate CommitPoint(c: Core, l: Log, index: nat, bound: nat, t: nat, k: nat)
    requires index < |l|
  {
    && t <= bound && Committed(c, t, k) && index <= k
    && l[..index + 1] == c.llog[t][..index + 1]
  }

  /** The first `index + 1` entries of `l` are committed, by a leader of a term up to `bound`. */
  ghost predicate Evident(c: Core, l: Log, index: nat, bound: nat)
  {
    index < |l| && (index == 0 || exists t, k :: CommitPoint(c, l, index, bound, t, k))
  }

  // ----- one server

  ghost predicate DiskOk(c: Core, i: nat, s: Server)
    requires i < |c.pterm| && |s.log| >= 1
  {
    var d := s.disk;
    && d.log == s.log && d.lastIncludedIndex == s.lastIncludedIndex && d.snapshot == s.snapshot
    && d.lastIncludedTerm == s.log[0].term
    && d.currentTerm == c.pterm[i] <= s.currentTerm
    && (s.currentTerm == d.currentTerm ==> s.votedFor == d.votedFor)
    && ((i, c.pterm[i]) in c.grants ==> d.votedFor == c.grants[(i, c.pterm[i])].candidate)
  }

  ghost predicate CommitOk(c: Core, s: Server)
    requires |s.log| >= 1
  {
    && Evident(c, Full(s), s.commitIndex, s.currentTerm)
    && Evident(c, Full(s), s.lastIncludedIndex, s.disk.currentTerm)
  }

  /** Counted towards a commit only what a peer acknowledged, or what is committed anyway. */
  ghost predicate MatchOk(c: Core, s: Server, p: nat)
    requires p < |s.matchIndex|
  {
    || s.matchIndex[p] <= s.commitIndex
    || ((p, s.currentTerm) in c.acks && s.matchIndex[p] <= c.acks[(p, s.currentTerm)])
  }

  ghost predicate LeaderOk(c: Core, i: nat, s: Server)
    requires |s.log| >= 1 && |s.matchIndex| == |s.nextIndex| && i < |c.pterm|
  {
    s.role == Leader ==>
      && s.currentTerm in c.elect && c.elect[s.currentTerm].leader == i
      && s.currentTerm in c.llog && c.llog[s.currentTerm] == Full(s) && c.pterm[i] == s.currentTerm
      && (i, s.currentTerm) in c.grants && c.grants[(i, s.currentTerm)].candidate == i
      && (forall p: nat :: p < |s.nextIndex| ==> s.nextIndex[p] <= RealLogLen(s))
      && (forall p: nat {:trigger MatchOk(c, s, p)} :: p < |s.matchIndex| ==> MatchOk(c, s, p))
  }

  ghost predicate CandidateOk(c: Core, counted: set<nat>, i: nat, s: Server)
    requires i < |c.pterm| == |c.logs|
  {
    s.role == Candidate ==>
      && s.currentTerm > 0 && c.pterm[i] == s.currentTerm
      && s.approved == |counted| && i in counted
      && (s.currentTerm in c.elect ==> c.elect[s.currentTerm].leader != i)
      && (forall j :: 0 <= j < |c.logs[i]| ==> c.logs[i][j].term < s.currentTerm)
      && (forall j :: j in counted ==> j < c.n)
      && (forall j {:trigger VotedFor(c, s.currentTerm, i, j)} :: j in counted ==> VotedFor(c, s.currentTerm, i, j))
  }

  /** A server that led a term never stands for that term again. */
  ghost predicate PastOk(c: Core, i: nat, s: Server)
    requires i < |c.pterm|
  {
    forall u :: u in c.elect && c.elect[u].leader == i ==>
      u <= c.pterm[i] && (u == s.currentTerm ==> s.role != Candidate)
  }

  ghost predicate ServerOk(c: Core, counted: set<nat>, i: nat, s: Server)
  {
    && i < |c.pterm| == |c.logs| == c.n
    && Shape(s, c.n) && Full(s) == c.logs[i]
    && DiskOk(c, i, s) && CommitOk(c, s) && LeaderOk(c, i, s) && CandidateOk(c, counted, i, s) && PastOk(c, i, s)
  }

  // ----- calls and answers

  /** Server `s` is standing in term `t`. */
  predicate Standing(s: Server, t: nat)
  {
    s.role == Candidate && s.currentTerm == t
  }

  predicate Leading(s: Server, t: nat)
  {
    s.role == Leader && s.currentTerm == t
  }

  ghost predicate VoteCallOk(c: Core, counted: set<nat>, s: Server, src: nat, dst: nat, a: VoteArgs)
    requires src < |c.pterm| == |c.logs|
  {
    && src != dst && dst < c.n && a.candidateId == src && a.term <= c.pterm[src]
    && !((dst, a.term) in c.grants && c.grants[(dst, a.term)].candidate == src)
    && (Standing(s, a.term) ==>
          && c.logs[src] != [] && a.lastLogIndex + 1 == |c.logs[src]| && a.lastLogTerm == LastTerm(c.logs[src])
          && dst !in counted)
  }

  ghost predicate VoteAnswerOk(c: Core, counted: set<nat>, s: Server, src: nat, dst: nat, a: VoteArgs, r: VoteReply)
    requires src < |c.pterm| == |c.logs|
  {
    && src != dst && dst < c.n && a.candidateId == src && a.term <= c.pterm[src]
    && (r.voteGranted ==> r.term == a.term && (Standing(s, a.term) ==> VotedFor(c, a.term, src, dst)))
    && (Standing(s, a.term) ==> dst !in counted)
  }

  ghost predicate FromLeader(c: Core, src: nat, dst: nat, term: nat)
  {
    && src != dst && dst < c.n
    && term in c.elect && term in c.llog && c.elect[term].leader == src
  }

  ghost predicate AppendArgsOk(c: Core, src: nat, dst: nat, a: AppendArgs)
  {
    && FromLeader(c, src, dst, a.term)
    && var l := c.llog[a.term];
       && a.prevLogIndex + |a.entries| < |l|
       && a.entries == l[a.prevLogIndex + 1..a.prevLogIndex + 1 + |a.entries|]
       && a.prevLogTerm == l[a.prevLogIndex].term
       && a.leaderCommit <= a.prevLogIndex + |a.entries|
       && Evident(c, l, a.leaderCommit, a.term)
  }

  ghost predicate AppendAnswerOk(c: Core, src: nat, dst: nat, a: AppendArgs, r: AppendReply)
  {
    && AppendArgsOk(c, src, dst, a)
    && (r.success ==> (dst, a.term) in c.acks && a.prevLogIndex + |a.entries| <= c.acks[(dst, a.term)])
    && (r.xTerm == -1 && r.xIndex == -1 ==> r.xLen <= |c.llog[a.term]|)
    && r.xIndex <= |c.llog[a.term]|
  }

  ghost predicate InstallArgsOk(c: Core, s: Server, src: nat, dst: nat, a: InstallArgs)
  {
    && FromLeader(c, src, dst, a.term)
    && var l := c.llog[a.term];
       && a.lastIncludedIndex < |l| && a.data == l[..a.lastIncludedIndex + 1]
       && a.lastIncludedTerm == l[a.lastIncludedIndex].term
       && Evident(c, l, a.lastIncludedIndex, a.term)
       && (Leading(s, a.term) ==> a.lastIncludedIndex <= s.commitIndex)
  }

  /** `s` is the sender of `m`. */
  ghost predicate RpcOk(c: Core, counted: set<nat>, s: Server, m: Rpc)
    requires m.Over? || m.src < |c.pterm| == |c.logs|
  {
    match m
    case VoteCall(src, dst, a) => VoteCallOk(c, counted, s, src, dst, a)
    case VoteAnswer(src, dst, a, r) => VoteAnswerOk(c, counted, s, src, dst, a, r)
    case AppendCall(src, dst, a) => AppendArgsOk(c, src, dst, a)
    case AppendAnswer(src, dst, a, r) => AppendAnswerOk(c, src, dst, a, r)
    case InstallCall(src, dst, a) => InstallArgsOk(c, s, src, dst, a)
    case InstallAnswer(src, dst, a, _) => InstallArgsOk(c, s, src, dst, a)
    case Over => true
  }

  /** A pending vote is identified by candidate, term and voter. */
  predicate IsVote(m: Rpc, src: nat, dst: nat, term: nat)
  {
    (m.VoteCall? || m.VoteAnswer?) && m.src == src && m.dst == dst && m.vote.term == term
  }

  ghost predicate VotesUnique(rpcs: seq<Rpc>)
  {
    forall j, k :: 0 <= j < k < |rpcs| && (rpcs[j].VoteCall? || rpcs[j].VoteAnswer?) ==>
      !IsVote(rpcs[k], rpcs[j].src, rpcs[j].dst, rpcs[j].vote.term)
  }

  // ----- the cluster

  ghost predicate RpcsOk(net: Net, h: History)
  {
    forall m :: m in net.rpcs ==>
      m.Over? ||
      (&& m.src < |net.servers| == |h.counted| == |h.core.pterm| == |h.core.logs|
       && RpcOk(h.core, h.counted[m.src], net.servers[m.src], m))
  }

  ghost predicate NetInv(net: Net, h: History)
  {
    && Inv(h.core) && |net.servers| == |h.counted| == h.core.n
    && (forall i: nat {:trigger ServerOk(h.core, h.counted[i], i, net.servers[i])} :: i < h.core.n ==>
          ServerOk(h.core, h.counted[i], i, net.servers[i]))
    && RpcsOk(net, h)
    && VotesUnique(net.rpcs)
  }
}
