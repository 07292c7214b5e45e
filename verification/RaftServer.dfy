/**
 One Raft server as a value, and what each handler does to it.  The log is a sentinel carrying the
 last snapshotted term, followed by the entries after `lastIncludedIndex`.  A snapshot is
 represented by the entries it summarizes, so that `Full` gives back the untrimmed log.
 */
module RaftServer {
  import opened Sequences
  import opened RaftCore

  const NoVote: int := -1

  datatype Role = Leader | Follower | Candidate

  /** What `persist` saves: the encoded state and the snapshot. */
  datatype Disk = Disk(
    log: Log, currentTerm: nat, votedFor: int, lastIncludedIndex: nat, lastIncludedTerm: nat, snapshot: Log)

  datatype Server = Server(
    role: Role,
    currentTerm: nat,
    votedFor: int,
    log: Log,
    lastIncludedIndex: nat,
    snapshot: Log,
    commitIndex: nat,
    nextIndex: seq<int>,
    matchIndex: seq<int>,
    approved: nat,            // votes counted in the current election
    disk: Disk)

  datatype VoteArgs = VoteArgs(term: nat, candidateId: nat, lastLogIndex: nat, lastLogTerm: nat)

  datatype VoteReply = VoteReply(term: nat, voteGranted: bool)

  datatype AppendArgs = AppendArgs(
    term: nat, leaderId: nat, prevLogIndex: nat, prevLogTerm: nat, entries: Log, leaderCommit: nat)

  datatype AppendReply = AppendReply(term: nat, success: bool, xTerm: int, xIndex: int, xLen: int)

  datatype InstallArgs = InstallArgs(term: nat, leaderId: nat, lastIncludedIndex: nat, lastIncludedTerm: nat, data: Log)

  datatype Message = AppendMessage(append: AppendArgs) | InstallMessage(install: InstallArgs)

  // ----- indices

  /** What every handler relies on. */
  predicate Shape(s: Server, n: nat)
  {
    && |s.log| >= 1 && |s.nextIndex| == |s.matchIndex| == n
    && s.lastIncludedIndex <= s.commitIndex <= s.lastIncludedIndex + |s.log| - 1
    && |s.snapshot| == s.lastIncludedIndex + 1
    && s.log[0].term == LastTerm(s.snapshot)
  }

  function LastLogIndex(s: Server): int
  {
    s.lastIncludedIndex + |s.log| - 1
  }

  function LastLogTerm(s: Server): nat
    requires |s.log| >= 1
  {
    if |s.log| < 2 then s.log[0].term else s.log[|s.log| - 1].term
  }

  function RealLogLen(s: Server): nat
  {
    s.lastIncludedIndex + |s.log|
  }

  /** The log with everything the snapshot stands for put back. */
  function Full(s: Server): Log
    requires |s.log| >= 1
  {
    s.snapshot + s.log[1..]
  }

  predicate IsLogUpToDate(s: Server, lastLogTerm: nat, lastLogIndex: nat)
    requires |s.log| >= 1
  {
    lastLogTerm > LastLogTerm(s) || (lastLogTerm == LastLogTerm(s) && lastLogIndex >= LastLogIndex(s))
  }

  // ----- persistence

  function Persist(s: Server): Server
    requires |s.log| >= 1
  {
    s.(disk := Disk(s.log, s.currentTerm, s.votedFor, s.lastIncludedIndex, s.log[0].term, s.snapshot))
  }

  function Repeat(x: int, n: nat): (r: seq<int>)
    ensures |r| == n && forall i :: 0 <= i < n ==> r[i] == x
  {
    seq(n, _ => x)
  }

  function Boot(n: nat): Server
  {
    var disk := Disk([Sentinel], 0, NoVote, 0, 0, [Sentinel]);
    Server(Follower, 0, NoVote, [Sentinel], 0, [Sentinel], 0, Repeat(0, n), Repeat(0, n), 0, disk)
  }

  /** A crash loses everything but the disk. */
  function Restart(s: Server, n: nat): Server
    requires |s.disk.log| >= 1
  {
    var d := s.disk;
    Server(Follower, d.currentTerm, d.votedFor, d.log[0 := d.log[0].(term := d.lastIncludedTerm)], d.lastIncludedIndex,
           d.snapshot, d.lastIncludedIndex, Repeat(0, n), Repeat(0, n), 0, d)
  }

  // ----- elections

  function StartElection(s: Server, me: nat): Server
    requires |s.log| >= 1
  {
    Persist(s.(role := Candidate, currentTerm := s.currentTerm + 1, votedFor := me, approved := 1))
  }

  function VoteArgsOf(s: Server, me: nat): VoteArgs
    requires |s.log| >= 1
  {
    VoteArgs(s.currentTerm, me, s.lastIncludedIndex + |s.log| - 1, LastLogTerm(s))
  }

  function RequestVote(s: Server, a: VoteArgs): (Server, VoteReply)
    requires |s.log| >= 1
  {
    if a.term < s.currentTerm then (s, VoteReply(s.currentTerm, false))
    else
      var s1 := if a.term > s.currentTerm then s.(role := Follower, currentTerm := a.term, votedFor := NoVote) else s;
      if (s1.votedFor == NoVote || s1.votedFor == a.candidateId) && IsLogUpToDate(s1, a.lastLogTerm, a.lastLogIndex)
      then (Persist(s1.(votedFor := a.candidateId)), VoteReply(s1.currentTerm, true))
      else (Persist(s1), VoteReply(s1.currentTerm, false))
  }

  /** The volatile leader state after an election. */
  function InitializeLeader(s: Server, me: nat, n: nat): Server
    requires me < n
  {
    s.(role := Leader,
       nextIndex := Repeat(RealLogLen(s), n),
       matchIndex := Repeat(s.lastIncludedIndex, n)[me := LastLogIndex(s)])
  }

  /** A candidate receives a reply; the second result says whether it has just won. */
  function HandleVoteReply(s: Server, me: nat, n: nat, a: VoteArgs, r: VoteReply): (Server, bool)
    requires |s.log| >= 1 && me < n
  {
    if s.currentTerm != a.term || s.role != Candidate then (s, false)
    else if r.term > s.currentTerm then
      (Persist(s.(currentTerm := r.term, votedFor := NoVote)).(role := Follower), false)
    else if r.term == s.currentTerm then
      var s1 := if r.voteGranted then s.(approved := s.approved + 1) else s;
      if s1.approved > n / 2 then (InitializeLeader(s1, me, n), true) else (s1, false)
    else (s, false)
  }

  // ----- replication

  /** The loop over the received entries; `index` is the position in the trimmed log of the first. */
  function AppendLoop(log: Log, index: nat, entries: Log): Log
    decreases |entries|
  {
    if entries == [] then log
    else if index < |log| then
      if log[index].term != entries[0].term
      then AppendLoop(log[..index] + [entries[0]], index + 1, entries[1..])
      else AppendLoop(log, index + 1, entries[1..])
    else if index == |log| then AppendLoop(log + [entries[0]], index + 1, entries[1..])
    else AppendLoop(log, index + 1, entries[1..])
  }

  /** Walking back from `i` over uncommitted entries of term `term`; `found` is the lowest so far. */
  function ConflictIndex(s: Server, i: int, term: nat, found: int): int
    requires s.lastIncludedIndex <= s.commitIndex && i <= LastLogIndex(s)
    decreases i - s.commitIndex
  {
    if i > s.commitIndex && s.log[i - s.lastIncludedIndex].term == term then ConflictIndex(s, i - 1, term, i) else found
  }

  /** The lowest index of the run of entries of the term that ends at `i`, cut off at the commit index. */
  lemma {:induction false} ConflictIndexLowest(s: Server, i: int, term: nat, found: int)
    requires |s.log| >= 1 && s.lastIncludedIndex <= s.commitIndex && i <= LastLogIndex(s)
    ensures var r := ConflictIndex(s, i, term, found);
      if i > s.commitIndex && s.log[i - s.lastIncludedIndex].term == term then
        && s.commitIndex < r <= i
        && (forall p :: r - s.lastIncludedIndex <= p <= i - s.lastIncludedIndex ==> s.log[p].term == term)
        && (r - 1 == s.commitIndex || s.log[r - 1 - s.lastIncludedIndex].term != term)
      else r == found
    decreases i - s.commitIndex
  {
    if i > s.commitIndex && s.log[i - s.lastIncludedIndex].term == term {
      ConflictIndexLowest(s, i - 1, term, i);
    }
  }

  lemma AppendLoopNonempty(log: Log, index: nat, entries: Log)
    requires |log| >= 1 && index >= 1
    ensures |AppendLoop(log, index, entries)| >= 1
    decreases |entries|
  {}

  function Min(a: int, b: int): int
  {
    if a <= b then a else b
  }

  function Accept(s: Server, a: AppendArgs): Server
    requires |s.log| >= 1 && s.lastIncludedIndex <= a.prevLogIndex
  {
    AppendLoopNonempty(s.log, a.prevLogIndex + 1 - s.lastIncludedIndex, a.entries);
    var s1 := s.(log := AppendLoop(s.log, a.prevLogIndex + 1 - s.lastIncludedIndex, a.entries));
    if a.leaderCommit > s1.commitIndex
    then s1.(commitIndex := Min(a.leaderCommit, LastLogIndex(s1)))
    else s1
  }

  /** The follower's term and role once the request is not stale. */
  function Follow(s: Server, term: nat): Server
  {
    s.(role := Follower, currentTerm := term, votedFor := if term > s.currentTerm then NoVote else s.votedFor)
  }

  predicate PrevMatches(s: Server, a: AppendArgs)
    requires |s.log| >= 1
  {
    && s.lastIncludedIndex <= a.prevLogIndex <= LastLogIndex(s)
    && s.log[a.prevLogIndex - s.lastIncludedIndex].term == a.prevLogTerm
  }

  function AppendEntries(s: Server, a: AppendArgs): (Server, AppendReply)
    requires |s.log| >= 1 && s.lastIncludedIndex <= s.commitIndex
  {
    if a.term < s.currentTerm then (s, AppendReply(s.currentTerm, false, 0, 0, 0))
    else
      var s1 := Follow(s, a.term);
      if s1.lastIncludedIndex > a.prevLogIndex then (Persist(s1), AppendReply(a.term, false, 0, 0, 0))
      else if LastLogIndex(s1) < a.prevLogIndex then (Persist(s1), AppendReply(a.term, false, -1, -1, RealLogLen(s1)))
      else
        var term := s1.log[a.prevLogIndex - s1.lastIncludedIndex].term;
        if term != a.prevLogTerm then
          (Persist(s1), AppendReply(a.term, false, term, ConflictIndex(s1, a.prevLogIndex, term, -1), RealLogLen(s1)))
        else
          AppendLoopNonempty(s1.log, a.prevLogIndex + 1 - s1.lastIncludedIndex, a.entries);
          (Persist(Accept(s1, a)), AppendReply(a.term, true, 0, 0, 0))
  }

  // ----- snapshots

  /** The service has a snapshot `data` of everything up to `index`. */
  function TakeSnapshot(s: Server, index: nat, data: Log): Server
    requires |s.log| >= 1 && s.commitIndex <= LastLogIndex(s)
  {
    if s.commitIndex < index || s.lastIncludedIndex >= index then s
    else
      var split := index - s.lastIncludedIndex;
      Persist(s.(lastIncludedIndex := index,
                 log := [LogEntry(s.log[split].term, None)] + s.log[split + 1..],
                 snapshot := data))
  }

  /** The entry the snapshot ends with is in the log, so what follows it is kept. */
  predicate SnapshotEntryHeld(s: Server, a: InstallArgs)
  {
    var i := a.lastIncludedIndex - s.lastIncludedIndex;
    1 <= i < |s.log| && s.log[i].term == a.lastIncludedTerm
  }

  function Installed(s: Server, a: InstallArgs): Server
  {
    var rest := if SnapshotEntryHeld(s, a) then s.log[a.lastIncludedIndex - s.lastIncludedIndex + 1..] else [];
    s.(log := [LogEntry(a.lastIncludedTerm, None)] + rest,
       lastIncludedIndex := a.lastIncludedIndex,
       commitIndex := a.lastIncludedIndex,
       snapshot := a.data)
  }

  /** A newer term that brings no newer snapshot is taken up without being persisted. */
  function InstallSnapshot(s: Server, a: InstallArgs): (Server, nat)
    requires |s.log| >= 1
  {
    if a.term < s.currentTerm then (s, s.currentTerm)
    else
      var s1 := Follow(s, a.term);
      if a.lastIncludedIndex <= s1.lastIncludedIndex || a.lastIncludedIndex <= s1.commitIndex then (s1, a.term)
      else (Persist(Installed(s1, a)), a.term)
  }

  // ----- the leader

  function Start(s: Server, me: nat, command: int): Server
    requires |s.log| >= 1 && me < |s.nextIndex| == |s.matchIndex|
  {
    if s.role != Leader then s
    else
      var s1 := Persist(s.(log := s.log + [LogEntry(s.currentTerm, Some(command))]));
      s1.(matchIndex := s1.matchIndex[me := LastLogIndex(s1)], nextIndex := s1.nextIndex[me := RealLogLen(s1)])
  }

  /** What the leader sends to a peer; no message stands for the panic. */
  function MessageFor(s: Server, me: nat, peer: nat): Option<Message>
    requires |s.log| >= 1 && peer < |s.nextIndex|
  {
    var next := s.nextIndex[peer];
    if next <= s.lastIncludedIndex then
      Some(InstallMessage(InstallArgs(s.currentTerm, me, s.lastIncludedIndex, s.log[0].term, s.snapshot)))
    else if next - 1 < RealLogLen(s) then
      var i := next - 1 - s.lastIncludedIndex;
      Some(AppendMessage(AppendArgs(s.currentTerm, me, next - 1, s.log[i].term, s.log[i + 1..], s.commitIndex)))
    else None
  }

  function CountAtLeast(matchIndex: seq<int>, k: int): nat
  {
    if matchIndex == [] then 0
    else CountAtLeast(matchIndex[..|matchIndex| - 1], k) + if k <= matchIndex[|matchIndex| - 1] then 1 else 0
  }

  /** Index `k` is of the current term and on a majority. */
  predicate Supported(s: Server, k: nat)
    requires s.lastIncludedIndex < k < RealLogLen(s)
  {
    s.log[k - s.lastIncludedIndex].term == s.currentTerm && CountAtLeast(s.matchIndex, k) > |s.matchIndex| / 2
  }

  /** The last supported index from `k` on, or `best`. */
  function LastSupported(s: Server, k: nat, best: nat): nat
    requires s.lastIncludedIndex < k
    decreases RealLogLen(s) - k
  {
    if k >= RealLogLen(s) then best else LastSupported(s, k + 1, if Supported(s, k) then k else best)
  }

  /** The result is `best` or a supported index; nothing above it is supported. */
  lemma {:induction false} SupportedAbove(s: Server, k: nat, best: nat)
    requires s.lastIncludedIndex < k && best < k
    ensures var r := LastSupported(s, k, best);
      && best <= r && (r != best ==> k <= r < RealLogLen(s) && Supported(s, r))
      && forall j: nat :: r < j < RealLogLen(s) && k <= j ==> !Supported(s, j)
    decreases RealLogLen(s) - k
  {
    if k < RealLogLen(s) {
      SupportedAbove(s, k + 1, if Supported(s, k) then k else best);
    }
  }

  function CheckAndCommit(s: Server): Server
    requires s.lastIncludedIndex <= s.commitIndex
  {
    s.(commitIndex := LastSupported(s, s.commitIndex + 1, s.commitIndex))
  }

  function LastWithTerm(log: Log, term: int): int
  {
    if log == [] then -1
    else if log[|log| - 1].term == term then |log| - 1
    else LastWithTerm(log[..|log| - 1], term)
  }

  function FindNextIndex(s: Server, r: AppendReply): int
  {
    if r.xTerm == -1 && r.xIndex == -1 then r.xLen
    else
      var i := LastWithTerm(s.log, r.xTerm);
      if i >= 0 then s.lastIncludedIndex + i else r.xIndex
  }

  function MaxInt(a: int, b: int): int
  {
    if a >= b then a else b
  }

  /** A newer term in a reply: step down, keeping `votedFor`. */
  function StepDown(s: Server, term: nat): Server
    requires |s.log| >= 1
  {
    Persist(s.(role := Follower, currentTerm := term))
  }

  function HandleAppendReply(s: Server, peer: nat, a: AppendArgs, r: AppendReply): Server
    requires |s.log| >= 1 && s.lastIncludedIndex <= s.commitIndex && peer < |s.nextIndex| == |s.matchIndex|
  {
    if s.currentTerm != a.term || s.role != Leader then s
    else if r.term > s.currentTerm then StepDown(s, r.term)
    else if r.success then
      var last := a.prevLogIndex + |a.entries|;
      CheckAndCommit(s.(matchIndex := s.matchIndex[peer := MaxInt(s.matchIndex[peer], last)],
                        nextIndex := s.nextIndex[peer := MaxInt(s.nextIndex[peer], last + 1)]))
    else s.(nextIndex := s.nextIndex[peer := FindNextIndex(s, r)])
  }

  function HandleInstallReply(s: Server, peer: nat, a: InstallArgs, term: nat): Server
    requires |s.log| >= 1 && peer < |s.nextIndex| == |s.matchIndex|
  {
    if s.currentTerm != a.term || s.role != Leader then s
    else if term > s.currentTerm then StepDown(s, term)
    else
      s.(matchIndex := s.matchIndex[peer := MaxInt(s.matchIndex[peer], a.lastIncludedIndex)],
         nextIndex := s.nextIndex[peer := MaxInt(s.nextIndex[peer], a.lastIncludedIndex + 1)])
  }
}
