/** Replication: receiving entries, and receiving the answers. */
module RaftStepAppend {
  import opened RaftCore
  import opened RaftCoreSteps
  import opened RaftServer
  import opened RaftNet
  import opened RaftInvariant
  import opened RaftFrames
  import opened RaftStepLocal

  // ----- the loop over the entries, on trimmed and on full logs

  lemma {:induction false} AppendTrimmed(snapshot: Log, log: Log, base: nat, index: nat, entries: Log)
    requires |snapshot| == base + 1 && |log| >= 1 && 1 <= index <= |log|
    ensures |AppendLoop(log, index, entries)| >= 1
    ensures AppendLoop(log, index, entries)[0] == log[0]
    ensures snapshot + AppendLoop(log, index, entries)[1..] == AppendLoop(snapshot + log[1..], base + index, entries)
    decreases |entries|
  {
    var full := snapshot + log[1..];
    if entries != [] {
      if index < |log| {
        assert full[base + index] == log[index];
        if log[index].term != entries[0].term {
          var log' := log[..index] + [entries[0]];
          assert snapshot + log'[1..] == full[..base + index] + [entries[0]];
          AppendTrimmed(snapshot, log', base, index + 1, entries[1..]);
        } else {
          AppendTrimmed(snapshot, log, base, index + 1, entries[1..]);
        }
      } else {
        var log' := log + [entries[0]];
        assert snapshot + log'[1..] == full + [entries[0]];
        AppendTrimmed(snapshot, log', base, index + 1, entries[1..]);
      }
    }
  }

  /** Appending to a log that ends where the entries start. */
  lemma {:induction false} AppendAll(l: Log, index: nat, m: nat)
    requires index <= m <= |l|
    ensures AppendLoop(l[..index], index, l[index..m]) == l[..m]
    decreases m - index
  {
    if index < m {
      assert l[..index] + [l[index..m][0]] == l[..index + 1];
      assert l[index..m][1..] == l[index + 1..m];
      AppendAll(l, index + 1, m);
    }
  }

  /** Where the two logs agree on a term, they agree up to there. */
  ghost predicate Matching(l: Log, leaderLog: Log)
  {
    forall j :: 0 <= j < |l| && j < |leaderLog| && l[j].term == leaderLog[j].term ==> l[..j + 1] == leaderLog[..j + 1]
  }

  /** The loop leaves the log alone if it has the entries, and otherwise takes over the leader's. */
  lemma {:induction false} AppendMerges(l: Log, leaderLog: Log, index: nat, m: nat)
    requires Matching(l, leaderLog) && index <= m <= |leaderLog| && index <= |l|
    requires l[..index] == leaderLog[..index]
    ensures AppendLoop(l, index, leaderLog[index..m]) == Merged(l, leaderLog[..m])
    decreases m - index
  {
    var entries := leaderLog[index..m];
    if index == m {
      assert leaderLog[..m] <= l;
    } else {
      assert entries[0] == leaderLog[index] && entries[1..] == leaderLog[index + 1..m];
      if index < |l| && l[index].term == entries[0].term {
        AppendMerges(l, leaderLog, index + 1, m);
      } else {
        assert l[..index] + [entries[0]] == leaderLog[..index + 1];
        AppendAll(leaderLog, index + 1, m);
        assert leaderLog[..m][index] == leaderLog[index];
        if index == |l| {
          assert l == leaderLog[..index];
        }
      }
    }
  }

  // ----- what a follower keeps when it takes over the leader's log

  /** A committed prefix is in the log of every leader of a term at least as new. */
  lemma EvidentInLeader(c: Core, l: Log, index: nat, bound: nat, u: nat)
    requires Inv(c) && Evident(c, l, index, bound) && bound <= u && u in c.elect && l[0] == Sentinel
    ensures u in c.llog && l[..index + 1] <= c.llog[u]
  {
    assert ElectOk(c, u);
    if index > 0 {
      var t: nat, k: nat :| CommitPoint(c, l, index, bound, t, k);
      var p := c.llog[t][..k + 1];
      if t < u {
        LeaderCompleteness(c, t, k, u);
        PrefixTrans(p, c.elect[u].log, c.llog[u]);
      }
      assert l[..index + 1] <= p;
      PrefixTrans(l[..index + 1], p, c.llog[u]);
    } else {
      assert l[..1] == [Sentinel];
    }
  }

  lemma EvidentKept(c: Core, c': Core, l: Log, index: nat, bound: nat, u: nat, m: nat)
    requires Inv(c) && Grows(c, c') && Evident(c, l, index, bound) && bound <= u && u in c.elect && l[0] == Sentinel
    requires u in c.llog && 0 < m <= |c.llog[u]|
    ensures Evident(c', Merged(l, c.llog[u][..m]), index, u)
  {
    var p := c.llog[u][..m];
    EvidentInLeader(c, l, index, bound, u);
    MergedKeeps(l, p, l[..index + 1], c.llog[u]);
    EvidentGrows(c, c', l, Merged(l, p), index, bound, u);
  }

  /** What the leader says is committed is committed in what the follower took over. */
  lemma EvidentTaken(c: Core, c': Core, l: Log, index: nat, u: nat, m: nat)
    requires Grows(c, c') && u in c.llog && index < m <= |c.llog[u]| && Evident(c, c.llog[u], index, u)
    ensures Evident(c', Merged(l, c.llog[u][..m]), index, u)
  {
    var p := c.llog[u][..m];
    assert p <= Merged(l, p);
    assert Merged(l, p)[..index + 1] == p[..index + 1] == c.llog[u][..index + 1];
    EvidentGrows(c, c', c.llog[u], Merged(l, p), index, u, u);
  }

  lemma MatchingLeader(c: Core, i: nat, u: nat)
    requires Inv(c) && i < c.n && u in c.elect
    ensures u in c.llog && Matching(c.logs[i], c.llog[u]) && GoodLog(c, c.logs[i]) && GoodLog(c, c.llog[u])
  {
    assert LogOk(c, i) && ElectOk(c, u);
    forall j: nat | j < |c.logs[i]| && j < |c.llog[u]| && c.logs[i][j].term == c.llog[u][j].term
      ensures c.logs[i][..j + 1] == c.llog[u][..j + 1]
    {
      LogMatching(c, c.logs[i], c.llog[u], j);
    }
  }

  // ----- AppendEntries

  ghost function AppendCore(c: Core, j: nat, s: Server, a: AppendArgs): Core
    requires j < |c.pterm| && j < |c.logs| && |s.log| >= 1
    requires a.term in c.llog && a.prevLogIndex + |a.entries| < |c.llog[a.term]|
  {
    if a.term < s.currentTerm then c
    else if PrevMatches(s, a) then Adopt(c, j, a.term, a.prevLogIndex + |a.entries| + 1)
    else Raise(c, j, a.term)
  }

  lemma AppendGrows(c: Core, j: nat, s: Server, src: nat, a: AppendArgs)
    requires Inv(c) && j < c.n && |s.log| >= 1 && c.pterm[j] <= s.currentTerm && AppendArgsOk(c, src, j, a)
    ensures var c' := AppendCore(c, j, s, a);
      Inv(c') && Grows(c, c') && c'.grants == c.grants && forall i: nat :: i < c.n && i != j ==> Untouched(c, c', i)
  {
    GrowsSelf(c);
    hide Inv, Evident;
    if a.term >= s.currentTerm {
      if PrevMatches(s, a) {
        AdoptKeepsInv(c, j, a.term, a.prevLogIndex + |a.entries| + 1);
        AdoptUntouched(c, j, a.term, a.prevLogIndex + |a.entries| + 1);
      } else {
        RaiseKeepsInv(c, j, a.term);
        RaiseUntouched(c, j, a.term);
      }
    }
  }

  lemma AcceptMerges(s: Server, n: nat, a: AppendArgs, ll: Log)
    requires Shape(s, n) && PrevMatches(s, a) && Matching(Full(s), ll)
    requires a.prevLogIndex + |a.entries| < |ll| && a.prevLogTerm == ll[a.prevLogIndex].term
    requires a.entries == ll[a.prevLogIndex + 1..a.prevLogIndex + 1 + |a.entries|]
    ensures var log' := AppendLoop(s.log, a.prevLogIndex + 1 - s.lastIncludedIndex, a.entries);
      && |log'| >= 1 && log'[0] == s.log[0]
      && s.snapshot + log'[1..] == Merged(Full(s), ll[..a.prevLogIndex + |a.entries| + 1])
  {
    hide AppendLoop, Merged;
    FullIndex(s, n, a.prevLogIndex);
    assert Full(s)[..a.prevLogIndex + 1] == ll[..a.prevLogIndex + 1];
    AppendTrimmed(s.snapshot, s.log, s.lastIncludedIndex, a.prevLogIndex + 1 - s.lastIncludedIndex, a.entries);
    AppendMerges(Full(s), ll, a.prevLogIndex + 1, a.prevLogIndex + |a.entries| + 1);
  }

  lemma AcceptFields(s: Server, a: AppendArgs)
    requires |s.log| >= 1 && s.lastIncludedIndex <= a.prevLogIndex
    ensures var s' := Accept(s, a);
      && s'.log == AppendLoop(s.log, a.prevLogIndex + 1 - s.lastIncludedIndex, a.entries)
      && s' == s.(log := s'.log, commitIndex := s'.commitIndex)
      && s'.commitIndex ==
         (if a.leaderCommit > s.commitIndex then Min(a.leaderCommit, LastLogIndex(s')) else s.commitIndex)
  {}

  /** The log after the loop is what taking over the leader's log gives. */
  lemma AcceptLog(c: Core, j: nat, s: Server, src: nat, a: AppendArgs)
    requires Inv(c) && j < c.n && Shape(s, c.n) && Full(s) == c.logs[j] && AppendArgsOk(c, src, j, a)
    requires PrevMatches(s, a)
    ensures var s' := Accept(s, a);
      && |s'.log| >= 1 && s'.log[0] == s.log[0] && s'.snapshot == s.snapshot
      && Full(s') == Merged(Full(s), c.llog[a.term][..a.prevLogIndex + |a.entries| + 1])
  {
    MatchingLeader(c, j, a.term);
    AcceptMerges(s, c.n, a, c.llog[a.term]);
    hide AppendLoop, Accept, Inv, Merged;
    AcceptFields(s, a);
  }

  lemma AcceptShape(c: Core, j: nat, s: Server, src: nat, a: AppendArgs)
    requires Inv(c) && j < c.n && Shape(s, c.n) && Full(s) == c.logs[j] && AppendArgsOk(c, src, j, a)
    requires PrevMatches(s, a)
    requires Evident(c, Full(s), s.commitIndex, s.currentTerm) && s.currentTerm <= a.term
    ensures Shape(Accept(s, a), c.n)
    ensures Accept(s, a).commitIndex == if a.leaderCommit > s.commitIndex then a.leaderCommit else s.commitIndex
  {
    var s' := Accept(s, a);
    var m := a.prevLogIndex + |a.entries| + 1;
    AcceptLog(c, j, s, src, a);
    AcceptFields(s, a);
    LogStarts(c, j);
    GrowsSelf(c);
    hide Accept, AppendLoop, Inv, PrevMatches;
    EvidentKept(c, c, Full(s), s.commitIndex, s.currentTerm, a.term, m);
    hide Evident;
    assert |Full(s')| == |s.snapshot| + |s'.log| - 1;
    assert c.llog[a.term][..m] <= Full(s');
  }

  lemma AppendArgsFacts(c: Core, src: nat, dst: nat, a: AppendArgs)
    requires AppendArgsOk(c, src, dst, a)
    ensures a.term in c.elect && a.term in c.llog && a.prevLogIndex + |a.entries| < |c.llog[a.term]|
    ensures a.leaderCommit <= a.prevLogIndex + |a.entries| && Evident(c, c.llog[a.term], a.leaderCommit, a.term)
    ensures dst < c.n && c.elect[a.term].leader == src && src != dst
  {}

  lemma LogStarts(c: Core, j: nat)
    requires Inv(c) && j < c.n
    ensures j < |c.logs| && c.logs[j] != [] && c.logs[j][0] == Sentinel
  {
    assert LogOk(c, j);
  }

  lemma CommitFacts(c: Core, s: Server)
    requires |s.log| >= 1 && CommitOk(c, s)
    ensures Evident(c, Full(s), s.commitIndex, s.currentTerm)
    ensures Evident(c, Full(s), s.lastIncludedIndex, s.disk.currentTerm)
  {}

  lemma PrevFacts(s: Server, a: AppendArgs)
    requires |s.log| >= 1 && PrevMatches(s, a)
    ensures s.lastIncludedIndex <= a.prevLogIndex
  {}

  lemma AcceptCommit(c: Core, c': Core, j: nat, s: Server, src: nat, a: AppendArgs)
    requires Inv(c) && Grows(c, c') && j < c.n && Shape(s, c.n) && |s.log| >= 1 && j < |c.logs| && Full(s) == c.logs[j]
    requires AppendArgsOk(c, src, j, a) && PrevMatches(s, a)
    requires CommitOk(c, s) && s.disk.currentTerm <= s.currentTerm <= a.term
    ensures s.lastIncludedIndex <= a.prevLogIndex
    ensures var s' := Accept(s, a);
      && |s'.log| >= 1
      && Evident(c', Full(s'), s'.commitIndex, a.term) && Evident(c', Full(s'), s'.lastIncludedIndex, a.term)
  {
    hide *;
    var m := a.prevLogIndex + |a.entries| + 1;
    AppendArgsFacts(c, src, j, a);
    LogStarts(c, j);
    CommitFacts(c, s);
    PrevFacts(s, a);
    AcceptLog(c, j, s, src, a);
    AcceptFields(s, a);
    AcceptShape(c, j, s, src, a);
    EvidentKept(c, c', Full(s), s.commitIndex, s.currentTerm, a.term, m);
    EvidentKept(c, c', Full(s), s.lastIncludedIndex, s.disk.currentTerm, a.term, m);
    EvidentTaken(c, c', Full(s), a.leaderCommit, a.term, m);
  }

  /** The part of the server's order that a follower's step has to bring. */
  lemma FollowerOk(c: Core, counted: set<nat>, i: nat, s: Server)
    requires i < |c.pterm| == |c.logs| == c.n && Shape(s, c.n) && Full(s) == c.logs[i] && s.role == Follower
    requires DiskOk(c, i, s) && CommitOk(c, s)
    requires forall u :: u in c.elect && c.elect[u].leader == i ==> u <= c.pterm[i]
    ensures ServerOk(c, counted, i, s)
  {}

  lemma FollowVote(c: Core, i: nat, s: Server, t: nat)
    requires Inv(c) && i < c.n && |s.log| >= 1 && DiskOk(c, i, s) && t >= s.currentTerm
    ensures (i, t) in c.grants ==> Follow(s, t).votedFor == c.grants[(i, t)].candidate
  {
    VoteRemembered(c, i, s);
  }

  lemma ServerParts(c: Core, counted: set<nat>, i: nat, s: Server)
    requires ServerOk(c, counted, i, s)
    ensures i < c.n == |c.pterm| == |c.logs| && |s.log| >= 1 && Shape(s, c.n) && Full(s) == c.logs[i]
    ensures DiskOk(c, i, s) && CommitOk(c, s) && s.disk.currentTerm == c.pterm[i] <= s.currentTerm
    ensures forall u :: u in c.elect && c.elect[u].leader == i ==> u <= c.pterm[i]
  {}

  lemma FollowFacts(s: Server, n: nat, t: nat)
    requires Shape(s, n) && s.currentTerm <= t
    ensures var f := Follow(s, t);
      && Shape(f, n) && |f.log| >= 1 && |s.log| >= 1 && f.log == s.log && Full(f) == Full(s) && f.role == Follower
      && f.currentTerm == t && f.disk == s.disk && f.lastIncludedIndex == s.lastIncludedIndex
      && f.snapshot == s.snapshot
      && f.commitIndex == s.commitIndex
      && (forall a: AppendArgs :: PrevMatches(f, a) <==> PrevMatches(s, a))
  {}

  lemma AcceptCore(c: Core, j: nat, s: Server, a: AppendArgs)
    requires j < |c.pterm| && j < |c.logs| && |s.log| >= 1 && a.term >= s.currentTerm && PrevMatches(s, a)
    requires Full(s) == c.logs[j]
    requires a.term in c.llog && a.prevLogIndex + |a.entries| < |c.llog[a.term]|
    ensures var c' := AppendCore(c, j, s, a); var m := a.prevLogIndex + |a.entries| + 1;
      && c'.n == c.n && c'.pterm == c.pterm[j := a.term] && c'.elect == c.elect && c'.grants == c.grants
      && j < |c'.logs| && c'.logs[j] == Merged(Full(s), c.llog[a.term][..m])
      && (j, a.term) in c'.acks && c'.acks[(j, a.term)] >= m - 1
  {}

  lemma AcceptServer(c: Core, counted: set<nat>, j: nat, s: Server, src: nat, a: AppendArgs)
    requires Inv(c) && ServerOk(c, counted, j, s) && AppendArgsOk(c, src, j, a) && s.currentTerm <= a.term
    requires PrevMatches(s, a)
    ensures var s1 := Accept(Follow(s, a.term), a);
      |s1.log| >= 1 && ServerOk(AppendCore(c, j, s, a), counted, j, Persist(s1))
  {
    ServerParts(c, counted, j, s);
    FollowFacts(s, c.n, a.term);
    AppendArgsFacts(c, src, j, a);
    PrevFacts(s, a);
    hide *;
    var f := Follow(s, a.term);
    var s1 := Accept(f, a);
    var c' := AppendCore(c, j, s, a);
    AppendGrows(c, j, s, src, a);
    AcceptCore(c, j, s, a);
    FollowVote(c, j, s, a.term);
    AcceptLog(c, j, f, src, a);
    AcceptFields(f, a);
    FollowEvident(c, s, a.term);
    CommitFacts(c, f);
    AcceptShape(c, j, f, src, a);
    AcceptCommit(c, c', j, f, src, a);
    GrowsSizes(c, c');
    PersistDisk(c, c', j, s1);
    PersistIs(s1);
    PersistShape(s1, c.n);
    CommitFrom(c', Persist(s1));
    FollowerOk(c', counted, j, Persist(s1));
  }

  lemma PersistShape(s: Server, n: nat)
    requires Shape(s, n)
    ensures |s.log| >= 1 && Shape(Persist(s), n) && |Persist(s).log| >= 1
  {}

  lemma CommitFrom(c: Core, s: Server)
    requires |s.log| >= 1 && Evident(c, Full(s), s.commitIndex, s.currentTerm)
    requires Evident(c, Full(s), s.lastIncludedIndex, s.disk.currentTerm)
    ensures CommitOk(c, s)
  {}

  lemma FollowEvident(c: Core, s: Server, t: nat)
    requires |s.log| >= 1 && CommitOk(c, s) && s.currentTerm <= t
    ensures |Follow(s, t).log| >= 1 && CommitOk(c, Follow(s, t))
  {
    if s.commitIndex > 0 {
      var u: nat, k: nat :| CommitPoint(c, Full(s), s.commitIndex, s.currentTerm, u, k);
      assert CommitPoint(c, Full(s), s.commitIndex, t, u, k);
    }
  }

  lemma PersistIs(s: Server)
    requires |s.log| >= 1
    ensures var s' := Persist(s);
      s' == s.(disk := s'.disk) && s'.disk.currentTerm == s.currentTerm && Full(s') == Full(s)
  {}

  /** A refusal of a request that is not stale still persists the term. */
  lemma RefuseServer(c: Core, counted: set<nat>, j: nat, s: Server, t: nat)
    requires Inv(c) && ServerOk(c, counted, j, s) && s.currentTerm <= t
    ensures |Follow(s, t).log| >= 1 && ServerOk(Raise(c, j, t), counted, j, Persist(Follow(s, t)))
  {
    ServerParts(c, counted, j, s);
    FollowFacts(s, c.n, t);
    RaiseKeepsInv(c, j, t);
    RaiseIs(c, j, t);
    hide *;
    var f := Follow(s, t);
    var c' := Raise(c, j, t);
    FollowVote(c, j, s, t);
    GrowsSizes(c, c');
    PersistDisk(c, c', j, f);
    PersistIs(f);
    PersistShape(f, c.n);
    CommitFacts(c, s);
    EvidentGrows(c, c', Full(s), Full(f), s.commitIndex, s.currentTerm, t);
    EvidentGrows(c, c', Full(s), Full(f), s.lastIncludedIndex, s.disk.currentTerm, t);
    CommitFrom(c', Persist(f));
    FollowerOk(c', counted, j, Persist(f));
  }

  lemma RaiseIs(c: Core, j: nat, t: nat)
    requires j < |c.pterm|
    ensures Raise(c, j, t) == c.(pterm := c.pterm[j := t])
  {}

  lemma {:induction false} ConflictBound(s: Server, i: int, term: nat, found: int)
    requires s.lastIncludedIndex <= s.commitIndex && i <= LastLogIndex(s)
    ensures var r := ConflictIndex(s, i, term, found); r == found || r <= i
    decreases i - s.commitIndex
  {
    if i > s.commitIndex && s.log[i - s.lastIncludedIndex].term == term {
      ConflictBound(s, i - 1, term, i);
    }
  }

  lemma AppendReplyHints(s: Server, a: AppendArgs)
    requires |s.log| >= 1 && s.lastIncludedIndex <= s.commitIndex
    ensures var r := AppendEntries(s, a).1;
      && (r.xTerm == -1 && r.xIndex == -1 ==> r.xLen <= a.prevLogIndex)
      && r.xIndex <= a.prevLogIndex
      && (r.success <==> a.term >= s.currentTerm && PrevMatches(s, a))
  {
    if a.term >= s.currentTerm && s.lastIncludedIndex <= a.prevLogIndex <= LastLogIndex(s) {
      var f := Follow(s, a.term);
      ConflictBound(f, a.prevLogIndex, f.log[a.prevLogIndex - f.lastIncludedIndex].term, -1);
    }
  }

  lemma AppendEntriesCases(s: Server, a: AppendArgs)
    requires |s.log| >= 1 && s.lastIncludedIndex <= s.commitIndex
    ensures var s' := AppendEntries(s, a).0;
      if a.term < s.currentTerm then s' == s
      else if PrevMatches(s, a) then
        && s.lastIncludedIndex <= a.prevLogIndex
        && |Accept(Follow(s, a.term), a).log| >= 1 && s' == Persist(Accept(Follow(s, a.term), a))
      else s' == Persist(Follow(s, a.term))
  {
    if PrevMatches(s, a) {
      AppendLoopNonempty(s.log, a.prevLogIndex + 1 - s.lastIncludedIndex, a.entries);
    }
  }

  lemma AppendServer(c: Core, counted: set<nat>, j: nat, s: Server, src: nat, a: AppendArgs)
    requires Inv(c) && ServerOk(c, counted, j, s) && AppendArgsOk(c, src, j, a)
    ensures ServerOk(AppendCore(c, j, s, a), counted, j, AppendEntries(s, a).0)
    ensures Steady(c, AppendCore(c, j, s, a), j, s, AppendEntries(s, a).0)
  {
    AppendEntriesCases(s, a);
    if a.term >= s.currentTerm {
      if PrevMatches(s, a) {
        AcceptServer(c, counted, j, s, src, a);
      } else {
        RefuseServer(c, counted, j, s, a.term);
      }
    }
    hide AppendEntries, Accept, ServerOk, Inv, AppendArgsOk;
    SteadyFollower(s, a);
  }

  lemma SteadyFollower(s: Server, a: AppendArgs)
    requires |s.log| >= 1 && s.lastIncludedIndex <= s.commitIndex
    ensures AppendEntries(s, a).0 == s || AppendEntries(s, a).0.role == Follower
  {}

  lemma AppendCallIs(net: Net, k: nat)
    requires Enabled(net, Deliver(k)) && net.rpcs[k].AppendCall?
    ensures var m := net.rpcs[k]; var (s', r) := AppendEntries(net.servers[m.dst], m.append);
      Next(net, Deliver(k)) == Replace(net, m.dst, s', k, AppendAnswer(m.src, m.dst, m.append, r), [])
  {}

  lemma AppendAnswerNew(c: Core, counted: set<nat>, j: nat, s: Server, src: nat, a: AppendArgs)
    requires Inv(c) && ServerOk(c, counted, j, s) && AppendArgsOk(c, src, j, a)
    ensures AppendAnswerOk(AppendCore(c, j, s, a), src, j, a, AppendEntries(s, a).1)
  {
    ServerParts(c, counted, j, s);
    AppendGrows(c, j, s, src, a);
    AppendArgsFrame(c, AppendCore(c, j, s, a), src, j, a);
    AppendReplyHints(s, a);
    if a.term >= s.currentTerm && PrevMatches(s, a) {
      AcceptCore(c, j, s, a);
    }
    hide Inv, ServerOk, AppendCore, AppendEntries, Evident, DiskOk, CommitOk, PrevMatches;
  }

  lemma AppendCallIn(c: Core, counted: set<nat>, s: Server, m: Rpc)
    requires m.AppendCall? && m.src < |c.pterm| == |c.logs| && RpcOk(c, counted, s, m)
    ensures AppendArgsOk(c, m.src, m.dst, m.append)
  {}

  lemma AppendAnswerRpc(c: Core, counted: set<nat>, s: Server, m: Rpc)
    requires m.AppendAnswer? && m.src < |c.pterm| == |c.logs|
    ensures RpcOk(c, counted, s, m) <==> AppendAnswerOk(c, m.src, m.dst, m.append, m.appendReply)
  {}

  lemma AppendCallStep(net: Net, h: History, k: nat) returns (h': History)
    requires NetInv(net, h) && Enabled(net, Deliver(k)) && net.rpcs[k].AppendCall?
    ensures NetInv(Next(net, Deliver(k)), h') && Grows(h.core, h'.core)
  {
    assert k < |net.rpcs|;
    hide *;
    var m := net.rpcs[k];
    var j, a := m.dst, m.append;
    RpcFacts(net, h, k);
    ServerFacts(net, h, j);
    var s := net.servers[j];
    AppendCallIn(h.core, h.counted[m.src], net.servers[m.src], m);
    AppendArgsFacts(h.core, m.src, j, a);
    ServerParts(h.core, h.counted[j], j, s);
    var c' := AppendCore(h.core, j, s, a);
    AppendGrows(h.core, j, s, m.src, a);
    GrowsSizes(h.core, c');
    AppendServer(h.core, h.counted[j], j, s, m.src, a);
    AppendAnswerNew(h.core, h.counted[j], j, s, m.src, a);
    AppendCallIs(net, k);
    var (s', r) := AppendEntries(s, a);
    var answer := AppendAnswer(m.src, j, a, r);
    AppendAnswerRpc(c', h.counted[m.src], net.servers[j := s'][m.src], answer);
    DeliverSteady(net, h, k, j, s', c', answer);
    h' := h.(core := c');
  }

  // ----- answers to the leader

  lemma StepDownServer(c: Core, counted: set<nat>, i: nat, s: Server, t: nat)
    requires Inv(c) && ServerOk(c, counted, i, s) && t > s.currentTerm
    ensures |s.log| >= 1 && ServerOk(Raise(c, i, t), counted, i, StepDown(s, t))
  {
    var c' := Raise(c, i, t);
    RaiseKeepsInv(c, i, t);
    VoteRemembered(c, i, s);
    var s' := StepDown(s, t);
    EvidentGrows(c, c', Full(s), Full(s'), s.commitIndex, s.currentTerm, t);
    EvidentGrows(c, c', Full(s), Full(s'), s.lastIncludedIndex, s.disk.currentTerm, t);
  }

  lemma StepDownDeliver(net: Net, h: History, k: nat, i: nat, t: nat) returns (h': History)
    requires NetInv(net, h) && k < |net.rpcs| && i < h.core.n && i < |net.servers| && |net.servers[i].log| >= 1
    requires t > net.servers[i].currentTerm
    ensures NetInv(Replace(net, i, StepDown(net.servers[i], t), k, Over, []), h') && Grows(h.core, h'.core)
  {
    ServerFacts(net, h, i);
    var s := net.servers[i];
    ServerParts(h.core, h.counted[i], i, s);
    RaiseKeepsInv(h.core, i, t);
    RaiseUntouched(h.core, i, t);
    StepDownServer(h.core, h.counted[i], i, s, t);
    hide ServerOk, RpcOk, NetInv, Inv;
    DeliverSteady(net, h, k, i, StepDown(s, t), Raise(h.core, i, t), Over);
    h' := h.(core := Raise(h.core, i, t));
  }

  /** The peers whose acknowledged index is at least `k`. */
  ghost function Holders(matchIndex: seq<int>, k: int): (q: set<nat>)
    ensures forall p: nat :: p in q <==> p < |matchIndex| && matchIndex[p] >= k
    ensures |q| == CountAtLeast(matchIndex, k)
  {
    if matchIndex == [] then {}
    else
      var n := |matchIndex| - 1;
      Holders(matchIndex[..n], k) + if k <= matchIndex[n] then {n} else {}
  }

  /** A supported index is committed: those who hold it acknowledged it in this term. */
  lemma SupportedCommitted(c: Core, i: nat, s: Server, k: nat)
    requires |c.pterm| == |c.logs| == c.n && i < c.n && Shape(s, c.n) && LeaderOk(c, i, s) && s.role == Leader
    requires s.commitIndex < k < RealLogLen(s) && Supported(s, k)
    ensures Evident(c, Full(s), k, s.currentTerm)
  {
    var t := s.currentTerm;
    var q := Holders(s.matchIndex, k);
    assert IsQuorum(c.n, q);
    forall p | p in q ensures (p, t) in c.acks && c.acks[(p, t)] >= k {
      assert MatchOk(c, s, p);
    }
    assert AckedBy(c, t, k, q);
    FullIndex(s, c.n, k);
    assert Committed(c, t, k);
    assert CommitPoint(c, Full(s), k, t, t, k);
  }

  /** Replacing the volatile indices of a leader. */
  lemma LeaderIndices(c: Core, counted: set<nat>, i: nat, s: Server, peer: nat, next: int, matched: int)
    requires ServerOk(c, counted, i, s) && s.role == Leader && peer < c.n && next <= RealLogLen(s)
    requires MatchOk(c, s, peer) && (matched == s.matchIndex[peer] || matched <= s.commitIndex ||
      ((peer, s.currentTerm) in c.acks && matched <= c.acks[(peer, s.currentTerm)]))
    ensures ServerOk(c, counted, i,
      s.(nextIndex := s.nextIndex[peer := next], matchIndex := s.matchIndex[peer := matched]))
  {
    var s' := s.(nextIndex := s.nextIndex[peer := next], matchIndex := s.matchIndex[peer := matched]);
    assert Full(s') == Full(s);
    forall p: nat | p < |s'.matchIndex| ensures MatchOk(c, s', p) {
      assert MatchOk(c, s, p);
    }
  }

  lemma CommitServer(c: Core, counted: set<nat>, i: nat, s: Server)
    requires ServerOk(c, counted, i, s) && s.role == Leader && s.lastIncludedIndex <= s.commitIndex
    ensures ServerOk(c, counted, i, CheckAndCommit(s))
    ensures var s' := CheckAndCommit(s);
      s'.commitIndex >= s.commitIndex && s'.role == s.role && s'.currentTerm == s.currentTerm
  {
    hide *;
    LeaderFacts(c, counted, i, s);
    SupportedAbove(s, s.commitIndex + 1, s.commitIndex);
    CheckAndCommitIs(s);
    var k := LastSupported(s, s.commitIndex + 1, s.commitIndex);
    if k != s.commitIndex {
      SupportedCommitted(c, i, s, k);
    }
    RaisedCommit(c, counted, i, s, k);
  }

  lemma LeaderFacts(c: Core, counted: set<nat>, i: nat, s: Server)
    requires ServerOk(c, counted, i, s)
    ensures |c.pterm| == |c.logs| == c.n && i < c.n && Shape(s, c.n) && |s.log| >= 1 && LeaderOk(c, i, s)
    ensures s.commitIndex < RealLogLen(s) && Evident(c, Full(s), s.commitIndex, s.currentTerm)
  {}

  lemma CheckAndCommitIs(s: Server)
    requires s.lastIncludedIndex <= s.commitIndex
    ensures CheckAndCommit(s) == s.(commitIndex := LastSupported(s, s.commitIndex + 1, s.commitIndex))
  {}

  lemma RaisedCommit(c: Core, counted: set<nat>, i: nat, s: Server, k: nat)
    requires ServerOk(c, counted, i, s) && s.role == Leader && s.commitIndex <= k < RealLogLen(s)
    requires Evident(c, Full(s), k, s.currentTerm)
    ensures ServerOk(c, counted, i, s.(commitIndex := k))
  {
    hide Evident;
    var s' := s.(commitIndex := k);
    assert Full(s') == Full(s);
    forall p: nat | p < |s'.matchIndex| ensures MatchOk(c, s', p) {
      assert MatchOk(c, s, p);
    }
  }

  lemma {:induction false} LastWithTermBound(log: Log, term: int)
    ensures -1 <= LastWithTerm(log, term) < |log|
    ensures LastWithTerm(log, term) >= 0 ==> log[LastWithTerm(log, term)].term == term
    ensures forall j :: LastWithTerm(log, term) < j < |log| ==> log[j].term != term
  {
    if log != [] && log[|log| - 1].term != term {
      LastWithTermBound(log[..|log| - 1], term);
    }
  }

  /** What an answer in order says about the leader it reaches. */
  lemma AnswerFacts(c: Core, counted: set<nat>, i: nat, s: Server, peer: nat, a: AppendArgs, r: AppendReply)
    requires ServerOk(c, counted, i, s) && Leading(s, a.term) && peer < c.n && AppendAnswerOk(c, i, peer, a, r)
    ensures |s.log| >= 1 && |s.nextIndex| == |s.matchIndex| == c.n && s.role == Leader && s.currentTerm == a.term
    ensures MatchOk(c, s, peer)
    ensures s.lastIncludedIndex <= s.commitIndex
    ensures a.prevLogIndex + |a.entries| + 1 <= RealLogLen(s) && s.nextIndex[peer] <= RealLogLen(s)
    ensures r.success ==>
      (peer, s.currentTerm) in c.acks && a.prevLogIndex + |a.entries| <= c.acks[(peer, s.currentTerm)]
    ensures FindNextIndex(s, r) <= RealLogLen(s)
  {
    FullLast(s, c.n);
    assert MatchOk(c, s, peer);
    LastWithTermBound(s.log, r.xTerm);
  }

  lemma CommitIndices(c: Core, counted: set<nat>, i: nat, s: Server, peer: nat, next: int, matched: int)
    requires ServerOk(c, counted, i, s) && s.role == Leader && peer < c.n && next <= RealLogLen(s)
    requires |s.nextIndex| == |s.matchIndex| == c.n && s.lastIncludedIndex <= s.commitIndex
    requires MatchOk(c, s, peer) && (matched == s.matchIndex[peer] ||
      ((peer, s.currentTerm) in c.acks && matched <= c.acks[(peer, s.currentTerm)]))
    ensures var s' := CheckAndCommit(s.(nextIndex := s.nextIndex[peer := next],
      matchIndex := s.matchIndex[peer := matched]));
      && ServerOk(c, counted, i, s') && s'.role == Leader && s'.currentTerm == s.currentTerm
      && s'.commitIndex >= s.commitIndex
  {
    hide *;
    LeaderIndices(c, counted, i, s, peer, next, matched);
    CommitServer(c, counted, i, s.(nextIndex := s.nextIndex[peer := next],
      matchIndex := s.matchIndex[peer := matched]));
  }

  lemma HandleAppendReplyIs(s: Server, peer: nat, a: AppendArgs, r: AppendReply)
    requires |s.log| >= 1 && s.lastIncludedIndex <= s.commitIndex && peer < |s.nextIndex| == |s.matchIndex|
    requires s.role == Leader && s.currentTerm == a.term >= r.term
    ensures var last := a.prevLogIndex + |a.entries|;
      var next, matched := MaxInt(s.nextIndex[peer], last + 1), MaxInt(s.matchIndex[peer], last);
      && (next == s.nextIndex[peer] || next == last + 1) && (matched == s.matchIndex[peer] || matched == last)
      && HandleAppendReply(s, peer, a, r) ==
           if r.success
           then CheckAndCommit(s.(nextIndex := s.nextIndex[peer := next], matchIndex := s.matchIndex[peer := matched]))
           else s.(nextIndex := s.nextIndex[peer := FindNextIndex(s, r)])
  {}

  lemma AppendReplyServer(c: Core, counted: set<nat>, i: nat, s: Server, peer: nat, a: AppendArgs, r: AppendReply)
    requires ServerOk(c, counted, i, s) && Leading(s, a.term) && r.term <= s.currentTerm
    requires peer < c.n && AppendAnswerOk(c, i, peer, a, r)
    ensures var s' := HandleAppendReply(s, peer, a, r);
      && ServerOk(c, counted, i, s') && s'.role == Leader && s'.currentTerm == s.currentTerm
      && s'.commitIndex >= s.commitIndex
  {
    hide *;
    AnswerFacts(c, counted, i, s, peer, a, r);
    HandleAppendReplyIs(s, peer, a, r);
    if r.success {
      var last := a.prevLogIndex + |a.entries|;
      CommitIndices(c, counted, i, s, peer, MaxInt(s.nextIndex[peer], last + 1), MaxInt(s.matchIndex[peer], last));
    } else {
      LeaderIndices(c, counted, i, s, peer, FindNextIndex(s, r), s.matchIndex[peer]);
      assert s.matchIndex[peer := s.matchIndex[peer]] == s.matchIndex;
    }
  }

  lemma AppendAnswerIs(net: Net, k: nat)
    requires Enabled(net, Deliver(k)) && net.rpcs[k].AppendAnswer?
    ensures var m := net.rpcs[k];
      Next(net, Deliver(k)) == Replace(net, m.src,
        HandleAppendReply(net.servers[m.src], m.dst, m.append, m.appendReply), k, Over, [])
  {}

  lemma AppendAnswerStep(net: Net, h: History, k: nat) returns (h': History)
    requires NetInv(net, h) && Enabled(net, Deliver(k)) && net.rpcs[k].AppendAnswer?
    ensures NetInv(Next(net, Deliver(k)), h') && Grows(h.core, h'.core)
  {
    assert k < |net.rpcs|;
    RpcFacts(net, h, k);
    var m := net.rpcs[k];
    var i, a, r := m.src, m.append, m.appendReply;
    ServerFacts(net, h, i);
    var s := net.servers[i];
    AppendAnswerIs(net, k);
    AppendAnswerRpc(h.core, h.counted[i], s, m);
    GrowsSelf(h.core);
    hide NetInv, ServerOk, RpcOk, Inv, Enabled, Next, AppendAnswerOk, Shape;
    h' := h;
    if s.currentTerm != a.term || s.role != Leader {
      DeliverSteady(net, h, k, i, s, h.core, Over);
      assert h.(core := h.core) == h;
    } else if r.term > s.currentTerm {
      h' := StepDownDeliver(net, h, k, i, r.term);
    } else {
      AppendReplyServer(h.core, h.counted[i], i, s, m.dst, a, r);
      DeliverSteady(net, h, k, i, HandleAppendReply(s, m.dst, a, r), h.core, Over);
      assert h.(core := h.core) == h;
    }
  }
}
