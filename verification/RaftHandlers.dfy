/**
 What each handler owes its callers, read off the full log: when a vote is given, when entries are
 taken, what is sent, and when an index is committed.
 */
module RaftHandlers {
  import opened Sequences
  import opened RaftCore
  import opened RaftServer
  import opened RaftNet
  import opened RaftInvariant
  import opened RaftStepLocal
  import opened RaftStepAppend

  // ----- elections

  /** A log ending in `term` at `index` is at least as up to date as `l`. */
  predicate AsUpToDate(term: nat, index: nat, l: Log)
    requires l != []
  {
    term > LastTerm(l) || (term == LastTerm(l) && index + 1 >= |l|)
  }

  /**
   A vote is given exactly if the term is not old, the vote of the term is not taken by another, and
   the candidate's log is at least as up to date.  Afterwards it is on disk.
   */
  lemma VoteGrantedIff(s: Server, a: VoteArgs, n: nat)
    requires Shape(s, n)
    ensures var (s', r) := RequestVote(s, a);
      && Full(s) != []
      && (r.voteGranted <==>
            && a.term >= s.currentTerm
            && (a.term > s.currentTerm || s.votedFor == NoVote || s.votedFor == a.candidateId)
            && AsUpToDate(a.lastLogTerm, a.lastLogIndex, Full(s)))
      && (r.voteGranted ==> s'.votedFor == s'.disk.votedFor == a.candidateId && s'.disk.currentTerm == a.term)
      && r.term == s'.currentTerm == if a.term > s.currentTerm then a.term else s.currentTerm
  {
    FullLast(s, n);
  }

  /** A server that stands votes for itself, on disk, and describes its full log. */
  lemma StandingExact(s: Server, me: nat, n: nat)
    requires Shape(s, n)
    ensures var s' := StartElection(s, me); var a := VoteArgsOf(s', me);
      && Full(s) != [] && Full(s') == Full(s) && s'.role == Candidate && s'.approved == 1
      && s'.currentTerm == s'.disk.currentTerm == s.currentTerm + 1 && s'.votedFor == s'.disk.votedFor == me
      && a.term == s.currentTerm + 1 && a.candidateId == me
      && a.lastLogIndex + 1 == |Full(s)| && a.lastLogTerm == LastTerm(Full(s))
  {
    FullLast(s, n);
  }

  /** Two servers with equal logs give each other their votes. */
  lemma EqualLogsVote(s: Server, voter: Server, me: nat, n: nat)
    requires Shape(s, n) && Shape(voter, n) && Full(s) == Full(voter) && voter.currentTerm <= s.currentTerm
    ensures RequestVote(voter, VoteArgsOf(StartElection(s, me), me)).1.voteGranted
  {
    StandingExact(s, me, n);
    VoteGrantedIff(voter, VoteArgsOf(StartElection(s, me), me), n);
  }

  /** An answer makes a candidate leader exactly if it is about its term and the votes are a majority. */
  lemma ElectedIff(s: Server, me: nat, n: nat, a: VoteArgs, r: VoteReply)
    requires Shape(s, n) && me < n
    ensures var (s', won) := HandleVoteReply(s, me, n, a, r);
      && (won <==>
            && s.role == Candidate && s.currentTerm == a.term == r.term
            && 2 * (s.approved + if r.voteGranted then 1 else 0) > n)
      && (won ==> s'.role == Leader && s'.currentTerm == s.currentTerm && Full(s') == Full(s))
      && (won ==> forall p: nat :: p < n ==>
            s'.nextIndex[p] == |Full(s)| && s'.matchIndex[p] == if p == me then |Full(s)| - 1 else s.lastIncludedIndex)
      && (!won && s.role == Candidate && s.currentTerm == a.term == r.term ==>
            s' == s.(approved := s.approved + if r.voteGranted then 1 else 0))
  {
    FullLast(s, n);
  }

  // ----- entries

  /** Entries are taken exactly if the term is not old and the log has the entry before them. */
  lemma AcceptedIff(s: Server, a: AppendArgs, n: nat)
    requires Shape(s, n)
    ensures var (s', r) := AppendEntries(s, a);
      && (r.success <==>
            && a.term >= s.currentTerm && s.lastIncludedIndex <= a.prevLogIndex < |Full(s)|
            && Full(s)[a.prevLogIndex].term == a.prevLogTerm)
      && (!r.success ==> |s'.log| >= 1 && Full(s') == Full(s) && s'.commitIndex == s.commitIndex)
  {
    AppendReplyHints(s, a);
    AppendEntriesCases(s, a);
    FullAt(s, n, a.prevLogIndex);
    hide AppendEntries;
  }

  lemma FullAt(s: Server, n: nat, i: nat)
    requires Shape(s, n)
    ensures |Full(s)| == RealLogLen(s)
    ensures s.lastIncludedIndex <= i < |Full(s)| ==> Full(s)[i].term == s.log[i - s.lastIncludedIndex].term
    ensures s.lastIncludedIndex < i < |Full(s)| ==> Full(s)[i] == s.log[i - s.lastIncludedIndex]
  {}

  /** A leader's command is the next entry of its log, and on disk; others refuse it. */
  lemma StartExact(s: Server, me: nat, command: int, n: nat)
    requires Shape(s, n) && me < n
    ensures var s' := Start(s, me, command);
      && (s.role != Leader ==> s' == s)
      && (s.role == Leader ==>
            && Full(s') == Full(s) + [LogEntry(s.currentTerm, Some(command))] && s'.disk.log == s'.log
            && s'.matchIndex[me] == |Full(s)| && s'.nextIndex[me] == |Full(s)| + 1)
  {}

  // ----- what a leader sends

  /** The snapshot if the peer needs what is trimmed; else everything from its next index on. */
  lemma MessageExact(s: Server, me: nat, peer: nat, n: nat)
    requires Shape(s, n) && peer < n && s.nextIndex[peer] <= RealLogLen(s)
    ensures var m := MessageFor(s, me, peer); var next := s.nextIndex[peer];
      && m.Some? && Full(s) != []
      && (m.value.InstallMessage? <==> next <= s.lastIncludedIndex)
      && (m.value.InstallMessage? ==>
            && m.value.install.term == s.currentTerm && m.value.install.leaderId == me
            && m.value.install.lastIncludedIndex == s.lastIncludedIndex
            && m.value.install.data == Full(s)[..s.lastIncludedIndex + 1]
            && m.value.install.lastIncludedTerm == Full(s)[s.lastIncludedIndex].term)
      && (m.value.AppendMessage? ==>
            && m.value.append.term == s.currentTerm && m.value.append.leaderId == me
            && m.value.append.leaderCommit == s.commitIndex
            && m.value.append.prevLogIndex == next - 1 && m.value.append.entries == Full(s)[next..]
            && m.value.append.prevLogTerm == Full(s)[next - 1].term)
  {
    FullAt(s, n, s.lastIncludedIndex);
    if s.nextIndex[peer] > s.lastIncludedIndex {
      FullAt(s, n, s.nextIndex[peer] - 1);
    }
  }

  ghost predicate Addresses(s: Server, me: nat, peer: nat, m: Rpc)
    requires |s.log| >= 1 && peer < |s.nextIndex|
  {
    MessageFor(s, me, peer).Some? && m == AsCall(me, peer, MessageFor(s, me, peer).value)
  }

  ghost predicate Reaches(s: Server, me: nat, p: nat, m: Rpc)
    requires |s.log| >= 1 && p <= |s.nextIndex|
  {
    exists q: nat :: q < p && q != me && Addresses(s, me, q, m)
  }

  lemma ReachesNext(s: Server, me: nat, p: nat, m: Rpc)
    requires |s.log| >= 1 && p < |s.nextIndex|
    ensures Reaches(s, me, p + 1, m) <==> Reaches(s, me, p, m) || (p != me && Addresses(s, me, p, m))
  {
    hide Addresses;
  }

  lemma BroadcastMore(s: Server, me: nat, p: nat, m: Rpc)
    requires |s.log| >= 1 && p < |s.nextIndex|
    ensures m in Broadcast(s, me, p + 1) <==> m in Broadcast(s, me, p) || (p != me && Addresses(s, me, p, m))
  {
    BroadcastNext(s, me, p + 1);
    hide MessageFor, Broadcast, AsCall;
  }

  /** A broadcast has the message for every other peer, and nothing else. */
  lemma {:induction false} BroadcastReaches(s: Server, me: nat, p: nat, m: Rpc)
    requires |s.log| >= 1 && p <= |s.nextIndex|
    ensures m in Broadcast(s, me, p) <==> Reaches(s, me, p, m)
  {
    if p > 0 {
      hide *;
      BroadcastReaches(s, me, p - 1, m);
      BroadcastMore(s, me, p - 1, m);
      ReachesNext(s, me, p - 1, m);
    }
  }

  /** A candidate asks every other peer, and nobody else. */
  lemma {:induction false} CampaignReaches(a: VoteArgs, me: nat, p: nat, m: Rpc)
    ensures m in VoteCalls(a, me, p) <==> m.VoteCall? && m.src == me && m.dst < p && m.dst != me && m.vote == a
  {
    if p > 0 {
      CampaignReaches(a, me, p - 1, m);
    }
  }

  // ----- committing

  /** Index `k` is of the leader's term, and more than half of the peers are known to hold it. */
  ghost predicate OnMajority(s: Server, k: nat)
    requires |s.log| >= 1
  {
    k < |Full(s)| && Full(s)[k].term == s.currentTerm && 2 * |Holders(s.matchIndex, k)| > |s.matchIndex|
  }

  lemma SupportedIff(s: Server, n: nat, k: nat)
    requires Shape(s, n) && s.commitIndex < k < |Full(s)|
    ensures s.lastIncludedIndex < k < RealLogLen(s) && (Supported(s, k) <==> OnMajority(s, k))
  {
    FullAt(s, n, k);
    assert |Holders(s.matchIndex, k)| == CountAtLeast(s.matchIndex, k);
  }

  /** What the commit loop finds: the last index on a majority, if there is one to commit. */
  lemma LastMajority(s: Server, n: nat)
    requires Shape(s, n)
    ensures var s' := CheckAndCommit(s);
      && s' == s.(commitIndex := s'.commitIndex) && s'.commitIndex >= s.commitIndex
      && (s'.commitIndex > s.commitIndex ==> OnMajority(s, s'.commitIndex))
      && forall k: nat :: s.commitIndex < k && OnMajority(s, k) ==> k <= s'.commitIndex
  {
    SupportedAbove(s, s.commitIndex + 1, s.commitIndex);
    FullAt(s, n, 0);
    hide Full, Shape, LastSupported;
    forall k: nat | s.commitIndex < k < |Full(s)|
      ensures s.lastIncludedIndex < k < RealLogLen(s) && (Supported(s, k) <==> OnMajority(s, k))
    {
      SupportedIff(s, n, k);
    }
    hide OnMajority, Supported;
    forall k: nat | s.commitIndex < k && OnMajority(s, k) ensures k <= CheckAndCommit(s).commitIndex {
      MajorityInLog(s, k);
    }
  }

  /** An index is committed exactly if it was, or an index of the leader's term from it on is on a majority. */
  lemma CommittedIff(s: Server, n: nat, j: nat)
    requires Shape(s, n)
    ensures j <= CheckAndCommit(s).commitIndex <==>
      j <= s.commitIndex || exists k: nat :: j <= k && s.commitIndex < k && OnMajority(s, k)
  {
    LastMajority(s, n);
    hide OnMajority, CheckAndCommit;
  }

  lemma MajorityInLog(s: Server, k: nat)
    requires |s.log| >= 1 && OnMajority(s, k)
    ensures k < |Full(s)|
  {}

  /** A success advances what is known of the peer, and commits all that is then on a majority, and no more. */
  lemma SuccessExact(s: Server, peer: nat, a: AppendArgs, r: AppendReply, n: nat)
    requires Shape(s, n) && peer < n && s.role == Leader && s.currentTerm == a.term && r.term <= a.term && r.success
    ensures var s' := HandleAppendReply(s, peer, a, r); var last := a.prevLogIndex + |a.entries|;
      && |s'.log| >= 1 && Full(s') == Full(s) && s'.role == Leader && |s'.matchIndex| == |s'.nextIndex| == n
      && s'.matchIndex[peer] == MaxInt(s.matchIndex[peer], last)
      && s'.nextIndex[peer] == MaxInt(s.nextIndex[peer], last + 1)
      && (forall q: nat :: q < n && q != peer ==>
            s'.matchIndex[q] == s.matchIndex[q] && s'.nextIndex[q] == s.nextIndex[q])
      && CommitsMajorities(s, s')
  {
    var last := a.prevLogIndex + |a.entries|;
    var s1 := s.(matchIndex := s.matchIndex[peer := MaxInt(s.matchIndex[peer], last)],
                 nextIndex := s.nextIndex[peer := MaxInt(s.nextIndex[peer], last + 1)]);
    assert HandleAppendReply(s, peer, a, r) == CheckAndCommit(s1);
    hide HandleAppendReply, MaxInt, CheckAndCommit;
    CheckExact(s1, n);
  }

  /** Nothing on a majority is left uncommitted, and nothing but what precedes a majority is committed. */
  ghost predicate CommitsMajorities(s: Server, s': Server)
    requires |s'.log| >= 1
  {
    && s'.commitIndex >= s.commitIndex
    && (s'.commitIndex > s.commitIndex ==> OnMajority(s', s'.commitIndex))
    && (forall k: nat :: OnMajority(s', k) ==> k <= s'.commitIndex)
  }

  lemma CheckExact(s: Server, n: nat)
    requires Shape(s, n)
    ensures var s' := CheckAndCommit(s); s' == s.(commitIndex := s'.commitIndex) && CommitsMajorities(s, s')
  {
    var s' := CheckAndCommit(s);
    LastMajority(s, n);
    hide OnMajority, CheckAndCommit, Shape, Full;
    forall k: nat ensures OnMajority(s', k) <==> OnMajority(s, k) {
      SameMajority(s, s'.commitIndex, k);
    }
  }

  lemma SameMajority(s: Server, commit: nat, k: nat)
    requires |s.log| >= 1
    ensures OnMajority(s.(commitIndex := commit), k) <==> OnMajority(s, k)
  {}

  /** A refusal changes only where to go on with the peer. */
  lemma RefusalExact(s: Server, peer: nat, a: AppendArgs, r: AppendReply, n: nat)
    requires Shape(s, n) && peer < n && s.role == Leader && s.currentTerm == a.term && r.term <= a.term && !r.success
    ensures var s' := HandleAppendReply(s, peer, a, r);
      && s' == s.(nextIndex := s'.nextIndex) && |s'.nextIndex| == n && s'.nextIndex[peer] == FindNextIndex(s, r)
      && forall q: nat :: q < n && q != peer ==> s'.nextIndex[q] == s.nextIndex[q]
  {}

  /** The peer has the snapshot: what follows it is next. */
  lemma InstalledExact(s: Server, peer: nat, a: InstallArgs, term: nat, n: nat)
    requires Shape(s, n) && peer < n && s.role == Leader && s.currentTerm == a.term && term <= a.term
    ensures var s' := HandleInstallReply(s, peer, a, term);
      && s' == s.(matchIndex := s'.matchIndex, nextIndex := s'.nextIndex) && |s'.matchIndex| == |s'.nextIndex| == n
      && forall q: nat :: q < n ==>
           && s'.matchIndex[q] == (if q == peer then MaxInt(s.matchIndex[q], a.lastIncludedIndex) else s.matchIndex[q])
           && s'.nextIndex[q] == if q == peer then MaxInt(s.nextIndex[q], a.lastIncludedIndex + 1) else s.nextIndex[q]
  {}

  // ----- terms

  /** Who hears of a newer term follows it; only a snapshot call may leave that off the disk. */
  lemma NewerTermTaken(s: Server, n: nat, v: VoteArgs, e: AppendArgs, i: InstallArgs)
    requires Shape(s, n)
    ensures var s' := RequestVote(s, v).0;
      v.term > s.currentTerm ==> s'.role == Follower && s'.currentTerm == s'.disk.currentTerm == v.term
    ensures var s' := AppendEntries(s, e).0;
      e.term >= s.currentTerm ==> s'.role == Follower && s'.currentTerm == s'.disk.currentTerm == e.term
    ensures var s' := InstallSnapshot(s, i).0;
      i.term >= s.currentTerm ==> s'.role == Follower && s'.currentTerm == i.term
  {
    AppendEntriesCases(s, e);
  }

  /**
   A leader or candidate told of a newer term in an answer steps down; only the candidate forgets whom
   it voted for.  An answer to an old call is ignored.
   */
  lemma NewerTermStepsDown(s: Server, me: nat, peer: nat, n: nat, v: VoteArgs, vr: VoteReply, e: AppendArgs,
      er: AppendReply, i: InstallArgs, ir: nat)
    requires Shape(s, n) && me < n && peer < n
    ensures var s' := HandleVoteReply(s, me, n, v, vr).0;
      && (s.currentTerm != v.term || s.role != Candidate ==> s' == s)
      && (s.currentTerm == v.term < vr.term && s.role == Candidate ==> Deposed(s, s', vr.term, NoVote))
    ensures var s' := HandleAppendReply(s, peer, e, er);
      && (s.currentTerm != e.term || s.role != Leader ==> s' == s)
      && (s.currentTerm == e.term < er.term && s.role == Leader ==> Deposed(s, s', er.term, s.votedFor))
    ensures var s' := HandleInstallReply(s, peer, i, ir);
      && (s.currentTerm != i.term || s.role != Leader ==> s' == s)
      && (s.currentTerm == i.term < ir && s.role == Leader ==> Deposed(s, s', ir, s.votedFor))
  {}

  ghost predicate Deposed(s: Server, s': Server, term: nat, votedFor: int)
  {
    && s'.role == Follower && s'.currentTerm == s'.disk.currentTerm == term && s'.votedFor == votedFor
    && s'.log == s.log && s'.snapshot == s.snapshot && s'.commitIndex == s.commitIndex
  }

  // ----- snapshots and restarts

  /** A snapshot of a committed prefix replaces it, and the full log stays what it is; any other is ignored. */
  lemma SnapshotExact(s: Server, index: nat, data: Log, n: nat)
    requires Shape(s, n)
    ensures var s' := TakeSnapshot(s, index, data);
      && (index <= s.lastIncludedIndex || index > s.commitIndex ==> s' == s)
      && (s.lastIncludedIndex < index <= s.commitIndex && data == Full(s)[..index + 1] ==>
            && s'.lastIncludedIndex == s'.disk.lastIncludedIndex == index && s'.disk.log == s'.log
            && s'.snapshot == s'.disk.snapshot == data && |s'.log| == |s.log| - (index - s.lastIncludedIndex)
            && Full(s') == Full(s) && s'.commitIndex == s.commitIndex)
  {}

  /** A snapshot is installed exactly if it is not of an old term and reaches beyond what is committed. */
  lemma InstallExact(s: Server, a: InstallArgs, n: nat)
    requires Shape(s, n) && |a.data| == a.lastIncludedIndex + 1
    ensures var s' := InstallSnapshot(s, a).0;
      var taken := a.term >= s.currentTerm && a.lastIncludedIndex > s.commitIndex;
      && |s'.log| >= 1
      && (!taken ==> s'.log == s.log && s'.snapshot == s.snapshot && s'.commitIndex == s.commitIndex)
      && (taken ==>
            && s'.snapshot == a.data && s'.commitIndex == s'.lastIncludedIndex == a.lastIncludedIndex
            && s'.disk.log == s'.log && s'.disk.snapshot == a.data && s'.disk.currentTerm == a.term
            && Full(s') == a.data +
                 if a.lastIncludedIndex < |Full(s)| && Full(s)[a.lastIncludedIndex].term == a.lastIncludedTerm
                 then Full(s)[a.lastIncludedIndex + 1..] else [])
  {
    FullAt(s, n, a.lastIncludedIndex);
    var i := a.lastIncludedIndex - s.lastIncludedIndex;
    if 0 < i < |s.log| {
      assert Full(s)[a.lastIncludedIndex + 1..] == s.log[i + 1..];
    }
  }

  /** A server comes back with the log, term and vote it had on disk, as a follower that knows nothing more. */
  lemma RestartExact(s: Server, n: nat)
    requires Shape(s, n) && s.disk == Persist(s).disk
    ensures var s' := Restart(s, n);
      && |s'.log| >= 1 && Full(s') == Full(s) && s'.log == s.log && s'.currentTerm == s.currentTerm
      && s'.votedFor == s.votedFor && s'.role == Follower && s'.commitIndex == s.lastIncludedIndex
  {}

  // ----- refusals lead back

  /** A later state `l` of the log that the leader of term `t` had. */
  ghost predicate LaterLog(c: Core, t: nat, l: Log)
  {
    t in c.llog && c.llog[t] <= l && forall i :: |c.llog[t]| <= i < |l| ==> l[i].term == t
  }

  /** Where the leader has an entry of the term a follower has at `p`, at `p` or later, the two agree at `p`. */
  lemma AgreeAt(c: Core, f: Log, l: Log, t: nat, p: nat, x: nat)
    requires GoodLog(c, f) && t in c.llog && GoodLog(c, c.llog[t]) && LaterLog(c, t, l)
    requires p < |f| && p < |c.llog[t]| && p <= x < |l| && l[x].term == f[p].term
    ensures f[p] == l[p]
  {
    var u := f[p].term;
    if p > 0 {
      assert f[..p + 1] <= c.llog[u];
      assert f[..p + 1][p] == c.llog[u][p];
      if x >= |c.llog[t]| {
        assert u == t;
      } else {
        assert c.llog[t][..x + 1] <= c.llog[u];
        assert c.llog[t][..x + 1][p] == c.llog[u][p];
      }
    }
  }

  /** A refusal with a hint makes the leader of the call start strictly before the entry that did not match. */
  lemma HintBacksUp(c: Core, counted: set<nat>, j: nat, s: Server, src: nat, a: AppendArgs, b: Server)
    requires Inv(c) && ServerOk(c, counted, j, s) && AppendArgsOk(c, src, j, a) && Shape(b, c.n)
    requires b.currentTerm == a.term && LaterLog(c, a.term, Full(b))
    requires a.term >= s.currentTerm && s.lastIncludedIndex <= a.prevLogIndex && !AppendEntries(s, a).1.success
    ensures FindNextIndex(b, AppendEntries(s, a).1) <= a.prevLogIndex
  {
    AppendReplyHints(s, a);
    RefusalHints(s, a, c.n);
    var r := AppendEntries(s, a).1;
    var i := LastWithTerm(b.log, r.xTerm);
    LastWithTermBound(b.log, r.xTerm);
    assert ElectOk(c, a.term) && LogOk(c, j);
    hide Inv, ServerOk, AppendEntries, Shape, LastWithTerm, AppendArgsOk;
    if a.prevLogIndex < |Full(s)| && i >= 0 && b.lastIncludedIndex + i > a.prevLogIndex {
      FullAt(b, c.n, b.lastIncludedIndex + i);
      AgreeAt(c, Full(s), Full(b), a.term, a.prevLogIndex, b.lastIncludedIndex + i);
    }
  }

  /** The hint is followed: to the end of the peer's log, to the last entry of its term, or else to its run's start. */
  lemma NextIndexExact(b: Server, r: AppendReply, n: nat, x: nat)
    requires Shape(b, n)
    ensures var next, l := FindNextIndex(b, r), Full(b);
      && (r.xTerm == -1 && r.xIndex == -1 ==> next == r.xLen)
      && (r.xTerm >= 0 && b.lastIncludedIndex <= x < |l| && l[x].term == r.xTerm ==>
            b.lastIncludedIndex <= x <= next < |l| && l[next].term == r.xTerm)
      && (r.xTerm >= 0 && (forall y: nat :: b.lastIncludedIndex <= y < |l| ==> l[y].term != r.xTerm) ==>
            next == r.xIndex)
  {
    var i := LastWithTerm(b.log, r.xTerm);
    LastWithTermBound(b.log, r.xTerm);
    FullAt(b, n, x);
    if i >= 0 {
      FullAt(b, n, b.lastIncludedIndex + i);
    }
  }

  /** What a refusal tells: how long the log is, or which term it has where the entries did not fit. */
  lemma RefusalHints(s: Server, a: AppendArgs, n: nat)
    requires Shape(s, n) && a.term >= s.currentTerm && s.lastIncludedIndex <= a.prevLogIndex
    requires !AppendEntries(s, a).1.success
    ensures var r := AppendEntries(s, a).1;
      if a.prevLogIndex >= |Full(s)| then r.xTerm == r.xIndex == -1 && r.xLen == |Full(s)|
      else r.xTerm == Full(s)[a.prevLogIndex].term != a.prevLogTerm
  {
    FullAt(s, n, a.prevLogIndex);
  }

  /** And where the run of uncommitted entries of that term starts. */
  lemma ConflictHint(s: Server, a: AppendArgs, n: nat)
    requires Shape(s, n) && a.term >= s.currentTerm && s.commitIndex < a.prevLogIndex < |Full(s)|
    requires !AppendEntries(s, a).1.success
    ensures var r := AppendEntries(s, a).1; var l := Full(s);
      && s.commitIndex < r.xIndex <= a.prevLogIndex
      && (forall p :: r.xIndex <= p <= a.prevLogIndex ==> l[p].term == r.xTerm)
      && (r.xIndex - 1 == s.commitIndex || l[r.xIndex - 1].term != r.xTerm)
  {
    RefusalHints(s, a, n);
    var r, f := AppendEntries(s, a).1, Follow(s, a.term);
    FullAt(s, n, a.prevLogIndex);
    ConflictIndexLowest(f, a.prevLogIndex, Full(s)[a.prevLogIndex].term, -1);
    assert r.xIndex == ConflictIndex(f, a.prevLogIndex, Full(s)[a.prevLogIndex].term, -1);
    hide AppendEntries, ConflictIndex;
    forall p: nat | r.xIndex - 1 <= p <= a.prevLogIndex ensures Full(s)[p].term == s.log[p - s.lastIncludedIndex].term {
      FullAt(s, n, p);
    }
  }
}
