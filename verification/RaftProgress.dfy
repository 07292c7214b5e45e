/**
 The protocol gets somewhere: a new cluster of two or more servers can elect a leader, replicate a
 command and commit it everywhere.  A cluster of one never elects itself.
 */
module RaftProgress {
  import opened Sequences
  import opened RaftCore
  import opened RaftServer
  import opened RaftNet
  import opened RaftStepVote
  import opened RaftStepAppend
  import opened RaftSafety
  import opened RaftCluster
  import opened RaftHandlers

  ghost function Last(nets: seq<Net>): Net
    requires nets != []
  {
    nets[|nets| - 1]
  }

  lemma Extend(n: nat, nets: seq<Net>, steps: seq<Step>, step: Step) returns (nets': seq<Net>, steps': seq<Step>)
    requires IsRun(n, nets, steps) && Possible(Last(nets), step)
    ensures IsRun(n, nets', steps') && Enabled(Last(nets), step) && Last(nets') == Next(Last(nets), step)
  {
    PossibleEnabled(n, nets, steps, step);
    RunExtended(n, nets, steps, step);
    hide IsRun;
    nets', steps' := nets + [Next(Last(nets), step)], steps + [step];
  }

  // ----- electing a leader

  ghost function Ballot(n: nat): VoteArgs
  {
    VoteArgsOf(StartElection(Boot(n), 0), 0)
  }

  /** Server 0 stands in term 1, has the votes of the next `j`, and has asked the others. */
  ghost predicate Campaign(net: Net, n: nat, j: nat)
  {
    && |net.servers| == n && j < n <= |net.rpcs| + 1
    && net.servers[0] == StartElection(Boot(n), 0).(approved := 1 + j)
    && (forall p: nat :: 0 < p <= j ==> net.servers[p] == RequestVote(Boot(n), Ballot(n)).0)
    && (forall p: nat :: j < p < n ==> net.servers[p] == Boot(n) && net.rpcs[p - 1] == VoteCall(0, p, Ballot(n)))
  }

  lemma {:induction false} VoteCallsAt(a: VoteArgs, p: nat)
    requires p > 0
    ensures |VoteCalls(a, 0, p)| == p - 1
    ensures forall q: nat :: 0 < q < p ==> VoteCalls(a, 0, p)[q - 1] == VoteCall(0, q, a)
  {
    if p > 1 {
      VoteCallsAt(a, p - 1);
    }
  }

  lemma CampaignStarts(n: nat) returns (nets: seq<Net>, steps: seq<Step>)
    requires n > 0
    ensures IsRun(n, nets, steps) && Campaign(Last(nets), n, 0)
  {
    nets, steps := Extend(n, [Initial(n)], [], ElectionTimeout(0));
    VoteCallsAt(Ballot(n), n);
  }

  /** A vote of a server that has just booted. */
  lemma BootVotes(n: nat)
    requires n > 0
    ensures var (s, r) := RequestVote(Boot(n), Ballot(n));
      r == VoteReply(1, true) && Untouched(s, n) && s.role == Follower
  {}

  /** Nothing in the log but the sentinel. */
  ghost predicate Untouched(s: Server, n: nat)
  {
    Plain(s, n, [Sentinel], 0)
  }

  /** Nothing trimmed, in term 1 at most. */
  ghost predicate Plain(s: Server, n: nat, log: Log, commit: nat)
  {
    && Shape(s, n) && s.lastIncludedIndex == 0 && s.snapshot == [Sentinel]
    && s.log == log && s.commitIndex == commit && s.currentTerm <= 1
  }

  ghost predicate Led(net: Net, n: nat)
  {
    && |net.servers| == n > 0 && (forall p: nat :: p < n ==> Untouched(net.servers[p], n))
    && var s := net.servers[0];
       && s.role == Leader && s.currentTerm == 1
       && forall p: nat :: p < n ==> s.nextIndex[p] == 1 && s.matchIndex[p] == 0
  }

  lemma VoteAnswerIs(net: Net, k: nat)
    requires Enabled(net, Deliver(k)) && net.rpcs[k].VoteAnswer?
    ensures var m := net.rpcs[k]; var n := |net.servers|;
      var (s', won) := HandleVoteReply(net.servers[m.src], m.src, n, m.vote, m.voteReply);
      Next(net, Deliver(k)) == Replace(net, m.src, s', k, Over, if won then Broadcast(s', m.src, n) else [])
  {}

  lemma CampaignStep(net: Net, n: nat, j: nat)
    requires Campaign(net, n, j) && j + 1 < n && 2 * (1 + j) <= n
    requires Enabled(net, Deliver(j)) && Enabled(Next(net, Deliver(j)), Deliver(j))
    ensures var net' := Next(Next(net, Deliver(j)), Deliver(j));
      if 2 * (2 + j) > n then Led(net', n) else Campaign(net', n, j + 1)
  {
    var a, p, net1 := Ballot(n), j + 1, Next(net, Deliver(j));
    assert net.rpcs[p - 1] == VoteCall(0, p, a);
    VoteCallIs(net, j);
    BootVotes(n);
    VoteAnswerIs(net1, j);
    var s := net.servers[0];
    CandidateFacts(n, j);
    ElectedIff(s, 0, n, a, VoteReply(1, true));
    hide Next, Enabled, HandleVoteReply, RequestVote, StartElection, Boot, Shape;
    assert net1.servers[0] == s && net1.rpcs[j] == VoteAnswer(0, p, a, VoteReply(1, true));
    BootUntouched(n);
    if 2 * (2 + j) > n {
      WonLeads(s, n, a);
    }
  }

  lemma CandidateFacts(n: nat, j: nat)
    requires n > 0
    ensures var s := StartElection(Boot(n), 0).(approved := 1 + j);
      Untouched(s, n) && s.role == Candidate && s.currentTerm == Ballot(n).term == 1 && s.approved == 1 + j
  {}

  lemma BootUntouched(n: nat)
    ensures Untouched(Boot(n), n)
  {}

  lemma WonLeads(s: Server, n: nat, a: VoteArgs)
    requires Untouched(s, n) && n > 0 && HandleVoteReply(s, 0, n, a, VoteReply(1, true)).1
    ensures var s' := HandleVoteReply(s, 0, n, a, VoteReply(1, true)).0;
      Untouched(s', n) && forall p: nat :: p < n ==> s'.nextIndex[p] == 1 && s'.matchIndex[p] == 0
  {}

  lemma {:induction false} Elects(n: nat, j: nat) returns (nets: seq<Net>, steps: seq<Step>)
    requires n >= 2 && 2 * (1 + j) <= n
    ensures IsRun(n, nets, steps) && Campaign(Last(nets), n, j)
  {
    hide Campaign, IsRun, Possible;
    if j == 0 {
      nets, steps := CampaignStarts(n);
    } else {
      nets, steps := Elects(n, j - 1);
      nets, steps := CampaignMore(n, nets, steps, j - 1);
    }
  }

  lemma CampaignMore(n: nat, nets: seq<Net>, steps: seq<Step>, j: nat) returns (nets': seq<Net>, steps': seq<Step>)
    requires IsRun(n, nets, steps) && Campaign(Last(nets), n, j) && j + 1 < n && 2 * (1 + j) <= n
    ensures IsRun(n, nets', steps') && if 2 * (2 + j) > n then Led(Last(nets'), n) else Campaign(Last(nets'), n, j + 1)
  {
    nets', steps' := Extend(n, nets, steps, Deliver(j));
    assert |Last(nets').rpcs| > j;
    hide IsRun;
    nets', steps' := Extend(n, nets', steps', Deliver(j));
    CampaignStep(Last(nets), n, j);
  }

  /** A new cluster of two or more servers can elect a leader. */
  lemma LeaderElected(n: nat) returns (nets: seq<Net>, steps: seq<Step>)
    requires n >= 2
    ensures IsRun(n, nets, steps) && Led(Last(nets), n)
  {
    hide *;
    var j := n / 2 - 1;
    nets, steps := Elects(n, j);
    nets, steps := CampaignMore(n, nets, steps, j);
  }

  // ----- a cluster of one

  lemma {:induction false} AloneNeverLeads(nets: seq<Net>, steps: seq<Step>, t: nat)
    requires IsRun(1, nets, steps) && t < |nets|
    ensures |nets[t].servers| == 1 && nets[t].rpcs == [] && nets[t].servers[0].role != Leader
  {
    if t > 0 {
      AloneNeverLeads(nets, steps, t - 1);
      assert nets[t] == Next(nets[t - 1], steps[t - 1]);
      hide IsRun;
      if steps[t - 1].ElectionTimeout? {
        VoteCallsAt(VoteArgsOf(StartElection(nets[t - 1].servers[0], 0), 0), 1);
      }
    }
  }

  // ----- replicating a command

  /** The call that carries the entry, and the one that says that it is committed. */
  function Carrying(e: LogEntry): AppendArgs
  {
    AppendArgs(1, 0, 0, 0, [e], 0)
  }

  function Telling(e: LogEntry): AppendArgs
  {
    AppendArgs(1, 0, 1, e.term, [], 1)
  }

  /** The leader has the entry; it knows that the next `j` servers have it, and has sent it to the others. */
  ghost predicate Replicating(net: Net, n: nat, e: LogEntry, b: nat, j: nat)
  {
    && |net.servers| == n && j < n && b + n <= |net.rpcs| + 1 && e.term == 1
    && (forall p: nat :: 0 < p <= j ==> Plain(net.servers[p], n, [Sentinel, e], 0))
    && (forall p: nat :: j < p < n ==>
          Untouched(net.servers[p], n) && net.rpcs[b + p - 1] == AppendCall(0, p, Carrying(e)))
    && LeaderHas(net.servers[0], n, e, j)
  }

  ghost predicate LeaderHas(s: Server, n: nat, e: LogEntry, j: nat)
  {
    && Plain(s, n, [Sentinel, e], if 2 * (1 + j) > n then 1 else 0) && s.role == Leader && s.currentTerm == 1 && n > 0
    && s.matchIndex[0] == 1
    && forall p: nat :: 0 < p < n ==>
         s.matchIndex[p] == (if p <= j then 1 else 0) && s.nextIndex[p] == if p <= j then 2 else 1
  }

  lemma {:induction false} BroadcastAt(s: Server, n: nat, p: nat, a: AppendArgs)
    requires Shape(s, n) && 0 < p <= n
    requires forall q: nat :: 0 < q < n ==> MessageFor(s, 0, q) == Some(AppendMessage(a))
    ensures |Broadcast(s, 0, p)| == p - 1
    ensures forall q: nat :: 0 < q < p ==> Broadcast(s, 0, p)[q - 1] == AppendCall(0, q, a)
  {
    hide MessageFor;
    if p > 1 {
      BroadcastAt(s, n, p - 1, a);
    }
  }

  lemma FollowerTakes(s: Server, n: nat, e: LogEntry)
    requires Untouched(s, n)
    ensures var (s', r) := AppendEntries(s, Carrying(e));
      Plain(s', n, [Sentinel, e], 0) && s'.currentTerm == 1 && r.success && r.term == 1
  {
    assert [e][1..] == [];
    assert AppendLoop([Sentinel], 1, [e]) == AppendLoop([Sentinel, e], 2, []) by {
      assert [Sentinel] + [e] == [Sentinel, e];
    }
  }

  lemma HoldersAre(matchIndex: seq<int>, j: nat)
    requires j < |matchIndex| && forall p: nat :: p < |matchIndex| ==> matchIndex[p] == if p <= j then 1 else 0
    ensures |Holders(matchIndex, 1)| == j + 1
  {
    BelowCard(j + 1);
    assert Holders(matchIndex, 1) == Below(j + 1);
  }

  lemma LeaderLearns(s: Server, n: nat, e: LogEntry, j: nat, r: AppendReply)
    requires LeaderHas(s, n, e, j) && j + 1 < n && e.term == 1 && r.success && r.term == 1
    ensures LeaderHas(HandleAppendReply(s, j + 1, Carrying(e), r), n, e, j + 1)
  {
    var s' := HandleAppendReply(s, j + 1, Carrying(e), r);
    SuccessExact(s, j + 1, Carrying(e), r, n);
    OnlyIndices(s, j + 1, Carrying(e), r);
    hide HandleAppendReply, OnMajority, Full;
    LearnedIndices(s, s', n, e, j);
    MajorityIs(s', n, e, j + 1, s'.commitIndex);
    MajorityIs(s', n, e, j + 1, 1);
    LearnedCommit(s, s', n, e, j);
  }

  lemma LearnedIndices(s: Server, s': Server, n: nat, e: LogEntry, j: nat)
    requires LeaderHas(s, n, e, j) && j + 1 < n && |s'.matchIndex| == |s'.nextIndex| == n
    requires s'.matchIndex[j + 1] == MaxInt(s.matchIndex[j + 1], 1)
    requires s'.nextIndex[j + 1] == MaxInt(s.nextIndex[j + 1], 2)
    requires forall q: nat :: q < n && q != j + 1 ==>
      s'.matchIndex[q] == s.matchIndex[q] && s'.nextIndex[q] == s.nextIndex[q]
    ensures forall p: nat :: p < n ==> s'.matchIndex[p] == if p <= j + 1 then 1 else 0
    ensures forall p: nat :: 0 < p < n ==> s'.nextIndex[p] == if p <= j + 1 then 2 else 1
  {
    hide Plain;
  }

  lemma LearnedCommit(s: Server, s': Server, n: nat, e: LogEntry, j: nat)
    requires LeaderHas(s, n, e, j) && j + 1 < n && |s'.matchIndex| == |s'.nextIndex| == n
    requires s' == s.(matchIndex := s'.matchIndex, nextIndex := s'.nextIndex, commitIndex := s'.commitIndex)
    requires s'.commitIndex >= s.commitIndex
    requires s'.commitIndex > s.commitIndex ==> s'.commitIndex == 1 && 2 * (j + 2) > n
    requires 2 * (j + 2) > n ==> 1 <= s'.commitIndex
    requires forall p: nat :: p < n ==> s'.matchIndex[p] == if p <= j + 1 then 1 else 0
    requires forall p: nat :: 0 < p < n ==> s'.nextIndex[p] == if p <= j + 1 then 2 else 1
    ensures LeaderHas(s', n, e, j + 1)
  {}

  lemma MajorityIs(s: Server, n: nat, e: LogEntry, j: nat, k: nat)
    requires s.log == [Sentinel, e] && s.snapshot == [Sentinel] && e.term == s.currentTerm == 1 && j < n
    requires |s.matchIndex| == n && forall p: nat :: p < n ==> s.matchIndex[p] == if p <= j then 1 else 0
    ensures OnMajority(s, k) <==> k == 1 && 2 * (j + 1) > n
  {
    HoldersAre(s.matchIndex, j);
    assert Full(s) == [Sentinel, e];
    hide Holders;
  }

  lemma OnlyIndices(s: Server, peer: nat, a: AppendArgs, r: AppendReply)
    requires |s.log| >= 1 && s.lastIncludedIndex <= s.commitIndex && peer < |s.nextIndex| == |s.matchIndex|
    requires s.role == Leader && s.currentTerm == a.term && r.success && r.term <= a.term
    ensures var s' := HandleAppendReply(s, peer, a, r);
      s' == s.(matchIndex := s'.matchIndex, nextIndex := s'.nextIndex, commitIndex := s'.commitIndex)
  {
    hide LastSupported;
  }

  lemma AppendIs(net: Net, k: nat)
    requires Enabled(net, Deliver(k)) && net.rpcs[k].AppendCall?
    ensures var m := net.rpcs[k]; var (s', r) := AppendEntries(net.servers[m.dst], m.append);
      Next(net, Deliver(k)) == Replace(net, m.dst, s', k, AppendAnswer(m.src, m.dst, m.append, r), [])
  {}

  lemma AppendAnswerIs(net: Net, k: nat)
    requires Enabled(net, Deliver(k)) && net.rpcs[k].AppendAnswer?
    ensures var m := net.rpcs[k];
      Next(net, Deliver(k)) ==
      Replace(net, m.src, HandleAppendReply(net.servers[m.src], m.dst, m.append, m.appendReply), k, Over, [])
  {}

  /** What two deliveries of an entry do: the follower has it, and the leader knows. */
  lemma CarryAndLearn(net: Net, n: nat, e: LogEntry, p: nat, k: nat)
    requires |net.servers| == n && 0 < p < n && k < |net.rpcs| && net.rpcs[k] == AppendCall(0, p, Carrying(e))
    requires Enabled(net, Deliver(k)) && Enabled(Next(net, Deliver(k)), Deliver(k))
    ensures var net' := Next(Next(net, Deliver(k)), Deliver(k));
      var (s, r) := AppendEntries(net.servers[p], Carrying(e));
      && |net.servers[0].log| >= 1 && net'.rpcs == net.rpcs[k := Over]
      && net'.servers == net.servers[p := s][0 := HandleAppendReply(net.servers[0], p, Carrying(e), r)]
  {
    var net1 := Next(net, Deliver(k));
    AppendIs(net, k);
    var r := AppendEntries(net.servers[p], Carrying(e)).1;
    hide Next, Enabled, AppendEntries, HandleAppendReply;
    assert net1.rpcs[k] == AppendAnswer(0, p, Carrying(e), r) && net1.servers[0] == net.servers[0];
    AppendAnswerIs(net1, k);
    assert net.rpcs[k := net1.rpcs[k]][k := Over] == net.rpcs[k := Over];
  }

  lemma ReplicateStep(net: Net, n: nat, e: LogEntry, b: nat, j: nat)
    requires Replicating(net, n, e, b, j) && j + 1 < n
    requires Enabled(net, Deliver(b + j)) && Enabled(Next(net, Deliver(b + j)), Deliver(b + j))
    ensures Replicating(Next(Next(net, Deliver(b + j)), Deliver(b + j)), n, e, b, j + 1)
  {
    var p, k := j + 1, b + j;
    assert net.rpcs[b + p - 1] == AppendCall(0, p, Carrying(e));
    FollowerTakes(net.servers[p], n, e);
    var r := AppendEntries(net.servers[p], Carrying(e)).1;
    hide Next, Enabled, AppendEntries, HandleAppendReply, Plain, LeaderHas;
    LeaderLearns(net.servers[0], n, e, j, r);
    CarryAndLearn(net, n, e, p, k);
    ReplicateKeeps(net, Next(Next(net, Deliver(k)), Deliver(k)), n, e, b, j);
  }

  lemma ReplicateKeeps(net: Net, net': Net, n: nat, e: LogEntry, b: nat, j: nat)
    requires Replicating(net, n, e, b, j) && j + 1 < n && |net'.servers| == n && |net'.rpcs| == |net.rpcs|
    requires LeaderHas(net'.servers[0], n, e, j + 1) && Plain(net'.servers[j + 1], n, [Sentinel, e], 0)
    requires forall p :: 0 < p < n && p != j + 1 ==> net'.servers[p] == net.servers[p]
    requires forall k :: 0 <= k < |net.rpcs| && k != b + j ==> net'.rpcs[k] == net.rpcs[k]
    ensures Replicating(net', n, e, b, j + 1)
  {
    hide Plain, LeaderHas;
    forall p: nat | j + 1 < p < n ensures net'.rpcs[b + p - 1] == AppendCall(0, p, Carrying(e)) {
      assert net.rpcs[b + p - 1] == AppendCall(0, p, Carrying(e));
    }
  }

  lemma {:induction false} Replicates(n: nat, nets: seq<Net>, steps: seq<Step>, e: LogEntry, b: nat, j: nat)
    returns (nets': seq<Net>, steps': seq<Step>)
    requires IsRun(n, nets, steps) && Replicating(Last(nets), n, e, b, 0) && j < n
    ensures IsRun(n, nets', steps') && Replicating(Last(nets'), n, e, b, j)
  {
    hide Replicating, IsRun;
    nets', steps' := nets, steps;
    if j > 0 {
      nets', steps' := Replicates(n, nets, steps, e, b, j - 1);
      nets', steps' := ReplicateMore(n, nets', steps', e, b, j - 1);
    }
  }

  lemma ReplicateMore(n: nat, nets: seq<Net>, steps: seq<Step>, e: LogEntry, b: nat, j: nat)
    returns (nets': seq<Net>, steps': seq<Step>)
    requires IsRun(n, nets, steps) && Replicating(Last(nets), n, e, b, j) && j + 1 < n
    ensures IsRun(n, nets', steps') && Replicating(Last(nets'), n, e, b, j + 1)
  {
    nets', steps' := Extend(n, nets, steps, Deliver(b + j));
    assert |Last(nets').rpcs| > b + j;
    hide IsRun;
    nets', steps' := Extend(n, nets', steps', Deliver(b + j));
    ReplicateStep(Last(nets), n, e, b, j);
  }

  lemma LeaderStarts(s: Server, n: nat, command: int)
    requires n >= 2 && Untouched(s, n) && s.role == Leader && s.currentTerm == 1
    requires forall p: nat :: p < n ==> s.nextIndex[p] == 1 && s.matchIndex[p] == 0
    ensures LeaderHas(Start(s, 0, command), n, LogEntry(1, Some(command)), 0)
  {}

  lemma LeaderCarries(s: Server, n: nat, e: LogEntry)
    requires n >= 2 && LeaderHas(s, n, e, 0)
    ensures Shape(s, n) && |Broadcast(s, 0, n)| == n - 1
    ensures forall q: nat :: 0 < q < n ==> Broadcast(s, 0, n)[q - 1] == AppendCall(0, q, Carrying(e))
  {
    BroadcastAt(s, n, n, Carrying(e));
  }

  lemma CommandIs(net: Net, command: int)
    requires Enabled(net, Client(0, command))
    ensures Next(net, Client(0, command)) == net.(servers := net.servers[0 := Start(net.servers[0], 0, command)])
  {}

  lemma BeatIs(net: Net)
    requires Enabled(net, Heartbeat(0)) && net.servers[0].role == Leader && Shape(net.servers[0], |net.servers|)
    ensures Next(net, Heartbeat(0)) == net.(rpcs := net.rpcs + Broadcast(net.servers[0], 0, |net.servers|))
  {}

  /** A leader takes a command and sends it to all. */
  lemma CommandTaken(n: nat, nets: seq<Net>, steps: seq<Step>, command: int)
    returns (nets': seq<Net>, steps': seq<Step>)
    requires n >= 2 && IsRun(n, nets, steps) && Led(Last(nets), n)
    ensures IsRun(n, nets', steps')
    ensures Replicating(Last(nets'), n, LogEntry(1, Some(command)), |Last(nets).rpcs|, 0)
  {
    var net, e := Last(nets), LogEntry(1, Some(command));
    nets', steps' := Extend(n, nets, steps, Client(0, command));
    CommandIs(net, command);
    LeaderStarts(net.servers[0], n, command);
    hide IsRun, Next, Enabled, Start;
    var net1 := Last(nets');
    nets', steps' := Extend(n, nets', steps', Heartbeat(0));
    BeatIs(net1);
    LeaderCarries(net1.servers[0], n, e);
    hide Plain, Broadcast, LeaderHas, Shape;
    forall p: nat | 0 < p < n ensures Last(nets').rpcs[|net.rpcs| + p - 1] == AppendCall(0, p, Carrying(e)) {
      assert Broadcast(net1.servers[0], 0, n)[p - 1] == AppendCall(0, p, Carrying(e));
    }
  }

  // ----- committing it everywhere

  /** The leader has committed the entry; so have the next `j` servers, and the others are about to be told. */
  ghost predicate Informing(net: Net, n: nat, e: LogEntry, b: nat, j: nat)
  {
    && |net.servers| == n && j < n && b + n <= |net.rpcs| + 1 && e.term == 1
    && Plain(net.servers[0], n, [Sentinel, e], 1)
    && (forall p: nat :: 0 < p <= j ==> Plain(net.servers[p], n, [Sentinel, e], 1))
    && (forall p: nat :: j < p < n ==>
          Plain(net.servers[p], n, [Sentinel, e], 0) && net.rpcs[b + p - 1] == AppendCall(0, p, Telling(e)))
  }

  lemma FollowerCommits(s: Server, n: nat, e: LogEntry)
    requires Plain(s, n, [Sentinel, e], 0)
    ensures Plain(AppendEntries(s, Telling(e)).0, n, [Sentinel, e], 1)
  {}

  lemma LeaderTells(s: Server, n: nat, e: LogEntry)
    requires n >= 2 && LeaderHas(s, n, e, n - 1)
    ensures Shape(s, n) && |Broadcast(s, 0, n)| == n - 1 && Plain(s, n, [Sentinel, e], 1)
    ensures forall q: nat :: 0 < q < n ==> Broadcast(s, 0, n)[q - 1] == AppendCall(0, q, Telling(e))
  {
    assert s.log[2..] == [];
    BroadcastAt(s, n, n, Telling(e));
  }

  lemma InformStarts(n: nat, nets: seq<Net>, steps: seq<Step>, e: LogEntry, b: nat)
    returns (nets': seq<Net>, steps': seq<Step>)
    requires n >= 2 && IsRun(n, nets, steps) && Replicating(Last(nets), n, e, b, n - 1)
    ensures IsRun(n, nets', steps') && Informing(Last(nets'), n, e, |Last(nets).rpcs|, 0)
  {
    var net := Last(nets);
    nets', steps' := Extend(n, nets, steps, Heartbeat(0));
    LeaderTells(net.servers[0], n, e);
    BeatIs(net);
    hide IsRun, Next, Enabled, Plain, Broadcast, Shape;
    forall p: nat | 0 < p < n ensures Last(nets').rpcs[|net.rpcs| + p - 1] == AppendCall(0, p, Telling(e)) {
      assert Broadcast(net.servers[0], 0, n)[p - 1] == AppendCall(0, p, Telling(e));
    }
  }

  lemma {:induction false} Informs(n: nat, nets: seq<Net>, steps: seq<Step>, e: LogEntry, b: nat, j: nat)
    returns (nets': seq<Net>, steps': seq<Step>)
    requires IsRun(n, nets, steps) && Informing(Last(nets), n, e, b, 0) && j < n
    ensures IsRun(n, nets', steps') && Informing(Last(nets'), n, e, b, j)
  {
    hide Informing, IsRun;
    nets', steps' := nets, steps;
    if j > 0 {
      nets', steps' := Informs(n, nets, steps, e, b, j - 1);
      nets', steps' := InformMore(n, nets', steps', e, b, j - 1);
    }
  }

  lemma InformMore(n: nat, nets: seq<Net>, steps: seq<Step>, e: LogEntry, b: nat, j: nat)
    returns (nets': seq<Net>, steps': seq<Step>)
    requires IsRun(n, nets, steps) && Informing(Last(nets), n, e, b, j) && j + 1 < n
    ensures IsRun(n, nets', steps') && Informing(Last(nets'), n, e, b, j + 1)
  {
    var net, p, k := Last(nets), j + 1, b + j;
    nets', steps' := Extend(n, nets, steps, Deliver(k));
    assert net.rpcs[b + p - 1] == AppendCall(0, p, Telling(e));
    AppendIs(net, k);
    FollowerCommits(net.servers[p], n, e);
    hide IsRun, Next, Enabled, Plain, AppendEntries;
    forall q: nat | p < q < n ensures Last(nets').rpcs[b + q - 1] == AppendCall(0, q, Telling(e)) {
      assert net.rpcs[b + q - 1] == AppendCall(0, q, Telling(e));
    }
  }

  ghost predicate CommittedEverywhere(net: Net, n: nat, command: int)
  {
    && |net.servers| == n
    && forall i: nat :: i < n ==>
         && |net.servers[i].log| >= 1 && net.servers[i].commitIndex == 1
         && Full(net.servers[i]) == [Sentinel, LogEntry(1, Some(command))]
  }

  lemma Informed(net: Net, n: nat, command: int, b: nat)
    requires n >= 2 && Informing(net, n, LogEntry(1, Some(command)), b, n - 1)
    ensures CommittedEverywhere(net, n, command)
  {}

  /** A new cluster of two or more servers can commit a command on every one of them. */
  lemma CommandCommitted(n: nat, command: int) returns (nets: seq<Net>, steps: seq<Step>)
    requires n >= 2
    ensures IsRun(n, nets, steps) && CommittedEverywhere(Last(nets), n, command)
  {
    hide Led, Replicating, Informing, CommittedEverywhere, Initial, Next, Enabled;
    var e := LogEntry(1, Some(command));
    nets, steps := LeaderElected(n);
    var b := |Last(nets).rpcs|;
    nets, steps := CommandTaken(n, nets, steps, command);
    nets, steps := Replicates(n, nets, steps, e, b, n - 1);
    var b' := |Last(nets).rpcs|;
    nets, steps := InformStarts(n, nets, steps, e, b);
    nets, steps := Informs(n, nets, steps, e, b', n - 1);
    Informed(Last(nets), n, command, b');
  }

  ghost predicate HasLeader(net: Net)
  {
    exists i: nat :: i < |net.servers| && net.servers[i].role == Leader
  }

  /** A cluster can have a leader at all, exactly if it has two or more servers. */
  lemma ElectableIff(n: nat)
    ensures (exists nets, steps :: IsRun(n, nets, steps) && HasLeader(Last(nets))) <==> n >= 2
  {
    if n >= 2 {
      var nets, steps := LeaderElected(n);
      assert HasLeader(Last(nets));
    } else {
      forall nets, steps | IsRun(n, nets, steps) ensures !HasLeader(Last(nets)) {
        if n == 1 {
          AloneNeverLeads(nets, steps, |nets| - 1);
        } else {
          var h := HistoryAt(n, nets, steps, |nets| - 1);
        }
      }
    }
  }
}
