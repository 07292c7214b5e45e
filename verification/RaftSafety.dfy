/**
 What Raft promises, over every run of the cluster: whatever times out, arrives late, gets lost,
 crashes, restarts, or is compacted.
 */
module RaftSafety {
  import opened RaftCore
  import opened RaftCoreSteps
  import opened RaftServer
  import opened RaftNet
  import opened RaftInvariant
  import opened RaftFrames
  import opened RaftStepLocal
  import opened RaftStepVote
  import opened RaftStepAppend
  import opened RaftStepInstall
  import opened RaftTerms

  // ----- every run keeps the invariant

  ghost function InitialHistory(n: nat): History
  {
    History(Core(n, seq(n, _ => [Sentinel]), seq(n, _ => 0), map[], map[], map[], map[]), seq(n, _ => {}))
  }

  lemma InitialOk(n: nat)
    ensures NetInv(Initial(n), InitialHistory(n))
  {
    var h := InitialHistory(n);
    forall i: nat | i < n ensures LogOk(h.core, i) {}
    forall i: nat | i < n ensures ServerOk(h.core, h.counted[i], i, Initial(n).servers[i]) {
      assert Full(Boot(n)) == [Sentinel];
    }
  }

  lemma DeliverStep(net: Net, h: History, k: nat) returns (h': History)
    requires NetInv(net, h) && Enabled(net, Deliver(k))
    ensures NetInv(Next(net, Deliver(k)), h') && Grows(h.core, h'.core)
  {
    assert k < |net.rpcs|;
    OverIs(net, k);
    NetFacts(net, h);
    GrowsSelf(h.core);
    hide *;
    match net.rpcs[k]
    case VoteCall(_, _, _) => h' := VoteCallStep(net, h, k);
    case VoteAnswer(_, _, _, _) => h' := VoteAnswerStep(net, h, k);
    case AppendCall(_, _, _) => h' := AppendCallStep(net, h, k);
    case AppendAnswer(_, _, _, _) => h' := AppendAnswerStep(net, h, k);
    case InstallCall(_, _, _) => h' := InstallCallStep(net, h, k);
    case InstallAnswer(_, _, _, _) => h' := InstallAnswerStep(net, h, k);
    case Over => h' := h;
  }

  lemma OverIs(net: Net, k: nat)
    requires Enabled(net, Deliver(k)) && k < |net.rpcs|
    ensures net.rpcs[k].Over? ==> Next(net, Deliver(k)) == net
  {}

  lemma ServerInRange(net: Net, step: Step)
    requires Enabled(net, step)
    ensures !step.Deliver? && !step.Lose? ==> step.i < |net.servers|
  {}

  /** Every step of the cluster keeps the invariant, and the history it speaks about only grows. */
  lemma StepKeepsInv(net: Net, h: History, step: Step) returns (h': History)
    requires NetInv(net, h) && Enabled(net, step)
    ensures NetInv(Next(net, step), h') && Grows(h.core, h'.core)
  {
    NetFacts(net, h);
    GrowsSelf(h.core);
    ServerInRange(net, step);
    hide *;
    h' := h;
    match step
    case ElectionTimeout(i) => h' := TimeoutStep(net, h, i);
    case Heartbeat(i) => HeartbeatStep(net, h, i);
    case Client(i, command) => h' := ClientStep(net, h, i, command);
    case Compact(i, index, data) => h' := CompactStep(net, h, i, index, data);
    case Crash(i) => CrashStep(net, h, i);
    case Deliver(k) => h' := DeliverStep(net, h, k);
    case Lose(k) => LoseStep(net, h, k);
  }

  /** A run of a cluster of `n` servers: the states it goes through, by the steps between them. */
  ghost predicate IsRun(n: nat, nets: seq<Net>, steps: seq<Step>)
  {
    && |nets| == |steps| + 1 && nets[0] == Initial(n)
    && forall i: nat :: i < |steps| ==> Enabled(nets[i], steps[i]) && nets[i + 1] == Next(nets[i], steps[i])
  }

  /** A history for the state at time `t` of a run. */
  lemma {:induction false} HistoryAt(n: nat, nets: seq<Net>, steps: seq<Step>, t: nat) returns (h: History)
    requires IsRun(n, nets, steps) && t < |nets|
    ensures NetInv(nets[t], h) && h.core.n == n
  {
    hide NetInv, Enabled, Next, Initial;
    if t == 0 {
      InitialOk(n);
      h := InitialHistory(n);
    } else {
      var h0 := HistoryAt(n, nets, steps, t - 1);
      h := StepKeepsInv(nets[t - 1], h0, steps[t - 1]);
    }
  }

  /** Histories for two times of a run, the later one an extension of the earlier. */
  lemma {:induction false} HistoriesAt(n: nat, nets: seq<Net>, steps: seq<Step>, t1: nat, t2: nat)
    returns (h1: History, h2: History)
    requires IsRun(n, nets, steps) && t1 <= t2 < |nets|
    ensures NetInv(nets[t1], h1) && NetInv(nets[t2], h2) && Grows(h1.core, h2.core) && h1.core.n == n
    decreases t2
  {
    hide NetInv, Enabled, Next, Initial;
    if t1 == t2 {
      h1 := HistoryAt(n, nets, steps, t1);
      NetFacts(nets[t1], h1);
      GrowsSelf(h1.core);
      h2 := h1;
    } else {
      var h: History;
      h1, h := HistoriesAt(n, nets, steps, t1, t2 - 1);
      h2 := StepKeepsInv(nets[t2 - 1], h, steps[t2 - 1]);
      GrowsTrans(h1.core, h.core, h2.core);
    }
  }

  // ----- no run gets stuck on a malformed state

  /** In every reachable state, logs, snapshots and indices fit together and every rpc can be delivered. */
  lemma AlwaysShaped(n: nat, nets: seq<Net>, steps: seq<Step>, t: nat)
    requires IsRun(n, nets, steps) && t < |nets|
    ensures |nets[t].servers| == n && AllShaped(nets[t])
    ensures forall k: nat :: k < |nets[t].rpcs| ==> Enabled(nets[t], Deliver(k))
  {
    var h := HistoryAt(n, nets, steps, t);
    var net := nets[t];
    hide IsRun;
    forall i: nat | i < n ensures Shape(net.servers[i], n) && |net.servers[i].disk.log| >= 1 {
      assert ServerOk(h.core, h.counted[i], i, net.servers[i]);
    }
    forall k: nat | k < |net.rpcs| ensures Addressed(net.rpcs[k], n) {
      if !net.rpcs[k].Over? {
        RpcFacts(net, h, k);
      }
    }
  }

  // ----- elections

  /** At most one server ever leads a term. */
  lemma ElectionSafety(n: nat, nets: seq<Net>, steps: seq<Step>, t1: nat, t2: nat, i: nat, j: nat)
    requires IsRun(n, nets, steps) && t1 <= t2 < |nets| && i < |nets[t1].servers| && j < |nets[t2].servers|
    requires nets[t1].servers[i].role == Leader && nets[t2].servers[j].role == Leader
    requires nets[t1].servers[i].currentTerm == nets[t2].servers[j].currentTerm
    ensures i == j
  {
    var h1, h2 := HistoriesAt(n, nets, steps, t1, t2);
    hide IsRun;
    assert ServerOk(h1.core, h1.counted[i], i, nets[t1].servers[i]);
    assert ServerOk(h2.core, h2.counted[j], j, nets[t2].servers[j]);
  }

  /** A leader only appends while it leads. */
  lemma LeaderAppendOnly(n: nat, nets: seq<Net>, steps: seq<Step>, t1: nat, t2: nat, i: nat)
    requires IsRun(n, nets, steps) && t1 <= t2 < |nets| && i < |nets[t1].servers| && i < |nets[t2].servers|
    requires nets[t1].servers[i].role == Leader && nets[t2].servers[i].role == Leader
    requires nets[t1].servers[i].currentTerm == nets[t2].servers[i].currentTerm
    ensures |nets[t1].servers[i].log| >= 1 && |nets[t2].servers[i].log| >= 1
    ensures Full(nets[t1].servers[i]) <= Full(nets[t2].servers[i])
  {
    var h1, h2 := HistoriesAt(n, nets, steps, t1, t2);
    hide IsRun;
    assert ServerOk(h1.core, h1.counted[i], i, nets[t1].servers[i]);
    assert ServerOk(h2.core, h2.counted[i], i, nets[t2].servers[i]);
  }

  // ----- terms

  lemma {:induction false} TermsAt(n: nat, nets: seq<Net>, steps: seq<Step>, t: nat) returns (h: History)
    requires IsRun(n, nets, steps) && t < |nets|
    ensures NetInv(nets[t], h) && TermInv(nets[t], h.core) && h.core.n == n
  {
    if t == 0 {
      InitialOk(n);
      h := InitialHistory(n);
    } else {
      var h0 := TermsAt(n, nets, steps, t - 1);
      hide NetInv, Enabled, Next, Initial, TermInv;
      h := StepKeepsInv(nets[t - 1], h0, steps[t - 1]);
      TermStep(nets[t - 1], h0, steps[t - 1], h);
    }
  }

  /** The term of every server is on its disk, although a snapshot call can return without persisting. */
  lemma TermAlwaysPersisted(n: nat, nets: seq<Net>, steps: seq<Step>, t: nat, i: nat)
    requires IsRun(n, nets, steps) && t < |nets| && i < |nets[t].servers|
    ensures nets[t].servers[i].disk.currentTerm == nets[t].servers[i].currentTerm
  {
    var h := TermsAt(n, nets, steps, t);
    assert Saved(nets[t].servers[i]);
  }

  /** So no term is ever forgotten, whatever crashes. */
  lemma TermMonotone(n: nat, nets: seq<Net>, steps: seq<Step>, t1: nat, t2: nat, i: nat)
    requires IsRun(n, nets, steps) && t1 <= t2 < |nets| && i < |nets[t1].servers|
    ensures i < |nets[t2].servers| && nets[t1].servers[i].currentTerm <= nets[t2].servers[i].currentTerm
  {
    var h1, h2 := HistoriesAt(n, nets, steps, t1, t2);
    assert ServerOk(h1.core, h1.counted[i], i, nets[t1].servers[i]);
    assert ServerOk(h2.core, h2.counted[i], i, nets[t2].servers[i]);
    hide IsRun, NetInv, ServerOk;
    TermAlwaysPersisted(n, nets, steps, t1, i);
    TermAlwaysPersisted(n, nets, steps, t2, i);
  }

  /** What is in memory and has to survive is on disk, in every reachable state. */
  lemma DiskAlwaysCurrent(n: nat, nets: seq<Net>, steps: seq<Step>, t: nat, i: nat)
    requires IsRun(n, nets, steps) && t < |nets| && i < |nets[t].servers|
    ensures var s := nets[t].servers[i]; Shape(s, n) && s.disk == Persist(s).disk
  {
    TermAlwaysPersisted(n, nets, steps, t, i);
    var h := HistoryAt(n, nets, steps, t);
    hide IsRun;
    ServerFacts(nets[t], h, i);
  }

  /** So a crash costs no entry, no term and no vote. */
  lemma CrashCostsNothing(n: nat, nets: seq<Net>, steps: seq<Step>, t: nat, i: nat)
    requires IsRun(n, nets, steps) && t < |steps| && steps[t] == Crash(i)
    ensures i < |nets[t].servers| && i < |nets[t + 1].servers|
    ensures var s, s' := nets[t].servers[i], nets[t + 1].servers[i];
      && |s.log| >= 1 && |s'.log| >= 1 && Full(s') == Full(s)
      && s'.currentTerm == s.currentTerm && s'.votedFor == s.votedFor
  {
    assert Enabled(nets[t], steps[t]) && nets[t + 1] == Next(nets[t], steps[t]);
    DiskAlwaysCurrent(n, nets, steps, t, i);
    hide IsRun;
  }

  /** A snapshot of a newer term is always installed, and with it the term persisted. */
  lemma NewerSnapshotInstalled(n: nat, nets: seq<Net>, steps: seq<Step>, t: nat, k: nat)
    requires IsRun(n, nets, steps) && t < |nets| && k < |nets[t].rpcs| && nets[t].rpcs[k].InstallCall?
    ensures var m := nets[t].rpcs[k];
      && m.dst < |nets[t].servers| && |nets[t].servers[m.dst].log| >= 1
      && var s := nets[t].servers[m.dst];
         m.install.term > s.currentTerm ==>
           InstallSnapshot(s, m.install).0.commitIndex == m.install.lastIncludedIndex > s.commitIndex
  {
    var h := TermsAt(n, nets, steps, t);
    hide IsRun;
    RpcFacts(nets[t], h, k);
    var m := nets[t].rpcs[k];
    ServerFacts(nets[t], h, m.dst);
    NewerInstalls(nets[t], h, k);
  }

  // ----- log matching

  lemma ServerLog(net: Net, h: History, i: nat)
    requires NetInv(net, h) && i < h.core.n
    ensures i < |net.servers| && Shape(net.servers[i], h.core.n) && GoodLog(h.core, Full(net.servers[i]))
  {
    assert ServerOk(h.core, h.counted[i], i, net.servers[i]);
    assert LogOk(h.core, i);
  }

  /** Logs at any two times that agree on the term at an index agree up to it, snapshots included. */
  lemma LogsMatch(n: nat, nets: seq<Net>, steps: seq<Step>, t1: nat, t2: nat, i: nat, j: nat, index: nat)
    requires IsRun(n, nets, steps) && t1 <= t2 < |nets| && i < n && j < n
    ensures |nets[t1].servers| == |nets[t2].servers| == n
    ensures var a, b := nets[t1].servers[i], nets[t2].servers[j];
      && Shape(a, n) && Shape(b, n)
      && (index < |Full(a)| && index < |Full(b)| && Full(a)[index].term == Full(b)[index].term ==>
            Full(a)[..index + 1] == Full(b)[..index + 1])
  {
    var h1, h2 := HistoriesAt(n, nets, steps, t1, t2);
    NetFacts(nets[t1], h1);
    NetFacts(nets[t2], h2);
    GrowsSizes(h1.core, h2.core);
    hide IsRun, NetInv, Inv;
    ServerLog(nets[t1], h1, i);
    ServerLog(nets[t2], h2, j);
    var a, b := Full(nets[t1].servers[i]), Full(nets[t2].servers[j]);
    GoodLogGrows(h1.core, h2.core, a);
    if index < |a| && index < |b| && a[index].term == b[index].term {
      LogMatching(h2.core, a, b, index);
    }
  }

  /** The same on the trimmed logs the servers hold: entries both still hold below an agreeing term agree. */
  lemma TrimmedLogsMatch(n: nat, nets: seq<Net>, steps: seq<Step>, t: nat, i: nat, j: nat, index: nat, r: nat)
    requires IsRun(n, nets, steps) && t < |nets| && i < n && j < n && |nets[t].servers| == n
    requires var a, b := nets[t].servers[i], nets[t].servers[j];
      && a.lastIncludedIndex < r <= index < RealLogLen(a) && b.lastIncludedIndex < r <= index < RealLogLen(b)
      && a.log[index - a.lastIncludedIndex].term == b.log[index - b.lastIncludedIndex].term
    ensures var a, b := nets[t].servers[i], nets[t].servers[j];
      a.log[r - a.lastIncludedIndex] == b.log[r - b.lastIncludedIndex]
  {
    LogsMatch(n, nets, steps, t, t, i, j, index);
    hide IsRun;
    var a, b := nets[t].servers[i], nets[t].servers[j];
    FullIndex(a, n, index);
    FullIndex(b, n, index);
    FullIndex(a, n, r);
    FullIndex(b, n, r);
    assert Full(a)[..index + 1][r] == Full(a)[r] && Full(b)[..index + 1][r] == Full(b)[r];
  }

  lemma AppendCallFacts(net: Net, h: History, k: nat)
    requires NetInv(net, h) && k < |net.rpcs| && net.rpcs[k].AppendCall?
    ensures var a := net.rpcs[k].append;
      && Inv(h.core) && AppendArgsOk(h.core, net.rpcs[k].src, net.rpcs[k].dst, a)
      && a.term in h.core.llog && a.prevLogIndex + |a.entries| < |h.core.llog[a.term]|
      && a.entries == h.core.llog[a.term][a.prevLogIndex + 1..a.prevLogIndex + 1 + |a.entries|]
      && GoodLog(h.core, h.core.llog[a.term])
  {
    RpcFacts(net, h, k);
    assert ElectOk(h.core, net.rpcs[k].append.term);
  }

  /** The message carries the entries `l`, from index `start` on. */
  predicate Carries(m: Rpc, start: nat, l: Log)
  {
    || (m.AppendCall? && start == m.append.prevLogIndex + 1 && l == m.append.entries)
    || (m.InstallCall? && start == 0 && l == m.install.data)
  }

  predicate Stores(s: Server, start: nat, l: Log)
  {
    |s.log| >= 1 && start == 0 && l == Full(s)
  }

  /** The entries `l` from index `start` on are a server's full log, or entries or a snapshot in flight. */
  ghost predicate Held(net: Net, start: nat, l: Log)
  {
    || (exists i: nat :: i < |net.servers| && Stores(net.servers[i], start, l))
    || (exists k: nat :: k < |net.rpcs| && Carries(net.rpcs[k], start, l))
  }

  ghost predicate PieceOf(ll: Log, start: nat, l: Log)
  {
    start + |l| <= |ll| && l == ll[start..start + |l|]
  }

  /** Whatever is held anywhere is a piece of a log whose entries come from the leaders of their terms. */
  lemma HeldPiece(net: Net, h: History, start: nat, l: Log) returns (ll: Log)
    requires NetInv(net, h) && Held(net, start, l)
    ensures GoodLog(h.core, ll) && PieceOf(ll, start, l)
  {
    NetFacts(net, h);
    hide NetInv;
    if i: nat :| i < |net.servers| && Stores(net.servers[i], start, l) {
      hide Full;
      ServerLog(net, h, i);
      ll := l;
    } else {
      var k: nat :| k < |net.rpcs| && Carries(net.rpcs[k], start, l);
      ll := CarriedPiece(net, h, k, start, l);
    }
  }

  lemma CarriedPiece(net: Net, h: History, k: nat, start: nat, l: Log) returns (ll: Log)
    requires NetInv(net, h) && k < |net.rpcs| && Carries(net.rpcs[k], start, l)
    ensures GoodLog(h.core, ll) && PieceOf(ll, start, l)
  {
    hide NetInv;
    if net.rpcs[k].AppendCall? {
      AppendCallFacts(net, h, k);
      ll := h.core.llog[net.rpcs[k].append.term];
    } else {
      InstallCallFacts(net, h, k);
      ll := h.core.llog[net.rpcs[k].install.term];
    }
  }

  lemma InstallCallFacts(net: Net, h: History, k: nat)
    requires NetInv(net, h) && k < |net.rpcs| && net.rpcs[k].InstallCall?
    ensures var a := net.rpcs[k].install;
      && a.term in h.core.llog && GoodLog(h.core, h.core.llog[a.term])
      && a.lastIncludedIndex < |h.core.llog[a.term]| && a.data == h.core.llog[a.term][..a.lastIncludedIndex + 1]
  {
    RpcFacts(net, h, k);
    var m := net.rpcs[k];
    InstallRpc(h.core, h.counted[m.src], net.servers[m.src], m);
    assert ElectOk(h.core, m.install.term);
  }

  lemma PieceMatching(c: Core, la: Log, sa: nat, a: Log, lb: Log, sb: nat, b: Log, index: nat, r: nat)
    requires GoodLog(c, la) && GoodLog(c, lb) && PieceOf(la, sa, a) && PieceOf(lb, sb, b)
    requires sa <= r <= index < sa + |a| && sb <= r <= index < sb + |b| && a[index - sa].term == b[index - sb].term
    ensures a[r - sa] == b[r - sb]
  {
    hide GoodLog;
    assert a[index - sa] == la[index] && b[index - sb] == lb[index];
    LogMatching(c, la, lb, index);
    assert la[..index + 1][r] == la[r] && lb[..index + 1][r] == lb[r];
  }

  /**
   Log matching for everything there is, at any two times: logs, entries in flight and snapshots in
   flight that agree on the term at an index agree on every entry up to it that both hold.
   */
  lemma PiecesMatch(n: nat, nets: seq<Net>, steps: seq<Step>, t1: nat, t2: nat, sa: nat, a: Log, sb: nat, b: Log,
      index: nat, r: nat)
    requires IsRun(n, nets, steps) && t1 <= t2 < |nets| && Held(nets[t1], sa, a) && Held(nets[t2], sb, b)
    requires sa <= r <= index < sa + |a| && sb <= r <= index < sb + |b| && a[index - sa].term == b[index - sb].term
    ensures a[r - sa] == b[r - sb]
  {
    hide *;
    var h1, h2 := HistoriesAt(n, nets, steps, t1, t2);
    var la := HeldPiece(nets[t1], h1, sa, a);
    var lb := HeldPiece(nets[t2], h2, sb, b);
    GoodLogGrows(h1.core, h2.core, la);
    PieceMatching(h2.core, la, sa, a, lb, sb, b, index, r);
  }

  lemma HeldServer(net: Net, n: nat, i: nat)
    requires i < |net.servers| && Shape(net.servers[i], n)
    ensures Held(net, 0, Full(net.servers[i]))
  {
    assert Stores(net.servers[i], 0, Full(net.servers[i]));
  }

  lemma HeldEntries(net: Net, k: nat)
    requires k < |net.rpcs| && net.rpcs[k].AppendCall?
    ensures Held(net, net.rpcs[k].append.prevLogIndex + 1, net.rpcs[k].append.entries)
  {
    assert Carries(net.rpcs[k], net.rpcs[k].append.prevLogIndex + 1, net.rpcs[k].append.entries);
  }

  lemma HeldSnapshot(net: Net, k: nat)
    requires k < |net.rpcs| && net.rpcs[k].InstallCall?
    ensures Held(net, 0, net.rpcs[k].install.data)
  {
    assert Carries(net.rpcs[k], 0, net.rpcs[k].install.data);
  }

  /** Entries in flight match every log: where the terms agree, so do the log and the message before. */
  lemma MessagesMatch(n: nat, nets: seq<Net>, steps: seq<Step>, t: nat, k: nat, i: nat, p: nat, r: nat)
    requires IsRun(n, nets, steps) && t < |nets| && i < n
    requires k < |nets[t].rpcs| && nets[t].rpcs[k].AppendCall? && r <= p < |nets[t].rpcs[k].append.entries|
    ensures |nets[t].servers| == n && Shape(nets[t].servers[i], n)
    ensures var a := nets[t].rpcs[k].append; var l := Full(nets[t].servers[i]); var first := a.prevLogIndex + 1;
      first + p < |l| && l[first + p].term == a.entries[p].term ==> l[first + r] == a.entries[r]
  {
    ShapedAt(n, nets, steps, t, i);
    hide *;
    HeldServer(nets[t], n, i);
    HeldEntries(nets[t], k);
    var a, l := nets[t].rpcs[k].append, Full(nets[t].servers[i]);
    var first := a.prevLogIndex + 1;
    if first + p < |l| && l[first + p].term == a.entries[p].term {
      PiecesMatch(n, nets, steps, t, t, 0, l, first, a.entries, first + p, first + r);
    }
  }

  lemma ShapedAt(n: nat, nets: seq<Net>, steps: seq<Step>, t: nat, i: nat)
    requires IsRun(n, nets, steps) && t < |nets| && i < n
    ensures |nets[t].servers| == n && Shape(nets[t].servers[i], n) && |nets[t].servers[i].log| >= 1
  {
    AlwaysShaped(n, nets, steps, t);
  }

  /** So do snapshots in flight. */
  lemma SnapshotsMatch(n: nat, nets: seq<Net>, steps: seq<Step>, t: nat, k: nat, i: nat, p: nat)
    requires IsRun(n, nets, steps) && t < |nets| && i < n
    requires k < |nets[t].rpcs| && nets[t].rpcs[k].InstallCall?
    ensures |nets[t].servers| == n && Shape(nets[t].servers[i], n)
    ensures var data := nets[t].rpcs[k].install.data; var l := Full(nets[t].servers[i]);
      p < |l| && p < |data| && l[p].term == data[p].term ==> l[..p + 1] == data[..p + 1]
  {
    ShapedAt(n, nets, steps, t, i);
    hide *;
    HeldServer(nets[t], n, i);
    HeldSnapshot(nets[t], k);
    var data, l := nets[t].rpcs[k].install.data, Full(nets[t].servers[i]);
    if p < |l| && p < |data| && l[p].term == data[p].term {
      forall r: nat | r <= p ensures l[r] == data[r] {
        PiecesMatch(n, nets, steps, t, t, 0, l, 0, data, p, r);
      }
    }
  }

  // ----- commitment

  /** Two logs whose committed part reaches an index agree up to it. */
  lemma EvidentAgree(c: Core, a: Log, ca: nat, ba: nat, b: Log, cb: nat, bb: nat, index: nat)
    requires Inv(c) && Evident(c, a, ca, ba) && Evident(c, b, cb, bb) && index <= ca && index <= cb
    requires a[0] == b[0]
    ensures a[..index + 1] == b[..index + 1]
  {
    if index > 0 {
      EvidentLower(c, a, ca, ba, index);
      EvidentLower(c, b, cb, bb, index);
      var t, k :| CommitPoint(c, a, index, ba, t, k);
      var u, m :| CommitPoint(c, b, index, bb, u, m);
      LeadersAgree(c, t, k, u, m, index);
    }
  }

  lemma LeadersAgree(c: Core, t: nat, k: nat, u: nat, m: nat, index: nat)
    requires Inv(c) && Committed(c, t, k) && Committed(c, u, m) && index <= k && index <= m
    ensures c.llog[t][..index + 1] == c.llog[u][..index + 1]
  {
    if t < u {
      LeaderPrefix(c, t, k, u, index);
    } else if u < t {
      LeaderPrefix(c, u, m, t, index);
    }
  }

  lemma LeaderPrefix(c: Core, t: nat, k: nat, u: nat, index: nat)
    requires Inv(c) && Committed(c, t, k) && u in c.elect && t < u && index <= k
    ensures u in c.llog && index < |c.llog[u]| && c.llog[t][..index + 1] == c.llog[u][..index + 1]
  {
    LeaderCompleteness(c, t, k, u);
    assert ElectOk(c, u);
    PrefixTrans(c.llog[t][..k + 1], c.elect[u].log, c.llog[u]);
    assert c.llog[t][..index + 1] == c.llog[t][..k + 1][..index + 1];
    assert c.llog[u][..index + 1] == c.llog[u][..k + 1][..index + 1];
  }

  lemma ServerCommit(net: Net, h: History, i: nat)
    requires NetInv(net, h) && i < h.core.n
    ensures |net.servers| == h.core.n && Shape(net.servers[i], h.core.n)
    ensures var s := net.servers[i];
      Evident(h.core, Full(s), s.commitIndex, s.currentTerm) && Full(s)[0] == Sentinel
  {
    assert ServerOk(h.core, h.counted[i], i, net.servers[i]);
    assert LogOk(h.core, i);
  }

  /** What one server considers committed at one time and another at any other time is the same. */
  lemma StateMachineSafety(n: nat, nets: seq<Net>, steps: seq<Step>, t1: nat, t2: nat, i: nat, j: nat, index: nat)
    requires IsRun(n, nets, steps) && t1 <= t2 < |nets| && i < n && j < n
    ensures |nets[t1].servers| == |nets[t2].servers| == n
    ensures var a, b := nets[t1].servers[i], nets[t2].servers[j];
      && Shape(a, n) && Shape(b, n) && a.commitIndex < |Full(a)| && b.commitIndex < |Full(b)|
      && (index <= a.commitIndex && index <= b.commitIndex ==> Full(a)[..index + 1] == Full(b)[..index + 1])
  {
    var h1, h2 := HistoriesAt(n, nets, steps, t1, t2);
    NetFacts(nets[t2], h2);
    GrowsSizes(h1.core, h2.core);
    ServerCommit(nets[t1], h1, i);
    ServerCommit(nets[t2], h2, j);
    hide IsRun, NetInv, Inv, Grows;
    var a, b := nets[t1].servers[i], nets[t2].servers[j];
    if index <= a.commitIndex && index <= b.commitIndex {
      EvidentGrows(h1.core, h2.core, Full(a), Full(a), a.commitIndex, a.currentTerm, a.currentTerm);
      EvidentAgree(h2.core, Full(a), a.commitIndex, a.currentTerm, Full(b), b.commitIndex, b.currentTerm, index);
    }
  }

  /** What server `a` considers committed is in the log of server `b`. */
  ghost predicate CommittedIn(a: Server, b: Server, n: nat)
  {
    Shape(a, n) && Shape(b, n) && a.commitIndex < |Full(a)| && Full(a)[..a.commitIndex + 1] <= Full(b)
  }

  lemma LeaderLog(net: Net, h: History, j: nat)
    requires NetInv(net, h) && j < h.core.n && |net.servers| == h.core.n && net.servers[j].role == Leader
    ensures var b := net.servers[j];
      && Shape(b, h.core.n) && b.currentTerm in h.core.elect
      && b.currentTerm in h.core.llog && h.core.llog[b.currentTerm] == Full(b)
  {
    ServerFacts(net, h, j);
    hide NetInv, Shape, Full;
    LeaderFacts(h.core, h.counted[j], j, net.servers[j]);
  }

  lemma HoldsEarlier(n: nat, nets: seq<Net>, steps: seq<Step>, t1: nat, t2: nat, i: nat, j: nat)
    requires IsRun(n, nets, steps) && t1 <= t2 < |nets| && i < n && j < n
    requires |nets[t1].servers| == |nets[t2].servers| == n && nets[t2].servers[j].role == Leader
    requires nets[t1].servers[i].currentTerm <= nets[t2].servers[j].currentTerm
    ensures CommittedIn(nets[t1].servers[i], nets[t2].servers[j], n)
  {
    var h1, h2 := HistoriesAt(n, nets, steps, t1, t2);
    NetFacts(nets[t2], h2);
    GrowsSizes(h1.core, h2.core);
    ServerCommit(nets[t1], h1, i);
    LeaderLog(nets[t2], h2, j);
    hide IsRun, NetInv, Inv, Grows, Evident, Shape;
    var a, b := nets[t1].servers[i], nets[t2].servers[j];
    EvidentGrows(h1.core, h2.core, Full(a), Full(a), a.commitIndex, a.currentTerm, a.currentTerm);
    EvidentInLeader(h2.core, Full(a), a.commitIndex, a.currentTerm, b.currentTerm);
  }

  lemma EvidentInElected(c: Core, l: Log, index: nat, bound: nat, u: nat)
    requires Inv(c) && Evident(c, l, index, bound) && bound < u && u in c.elect && l[0] == Sentinel
    ensures l[..index + 1] <= c.elect[u].log
  {
    assert ElectOk(c, u);
    if index > 0 {
      var t: nat, k: nat :| CommitPoint(c, l, index, bound, t, k);
      LeaderCompleteness(c, t, k, u);
      assert l[..index + 1] <= c.llog[t][..k + 1];
    } else {
      assert l[..1] == [Sentinel];
    }
  }

  lemma ElectedFacts(c: Core, c': Core, u: nat)
    requires Inv(c) && Grows(c, c') && u in c.elect
    ensures u in c.llog && u in c'.elect && c'.elect[u] == c.elect[u] && c.elect[u].log <= c.llog[u]
  {
    assert ElectOk(c, u);
  }

  /** What is committed later under an older term was in the log the leader was elected with. */
  lemma HoldsLater(n: nat, nets: seq<Net>, steps: seq<Step>, t1: nat, t2: nat, i: nat, j: nat)
    requires IsRun(n, nets, steps) && t2 <= t1 < |nets| && i < n && j < n
    requires |nets[t1].servers| == |nets[t2].servers| == n && nets[t2].servers[j].role == Leader
    requires nets[t1].servers[i].currentTerm < nets[t2].servers[j].currentTerm
    ensures CommittedIn(nets[t1].servers[i], nets[t2].servers[j], n)
  {
    var h2, h1 := HistoriesAt(n, nets, steps, t2, t1);
    NetFacts(nets[t1], h1);
    NetFacts(nets[t2], h2);
    GrowsSizes(h2.core, h1.core);
    ServerCommit(nets[t1], h1, i);
    LeaderLog(nets[t2], h2, j);
    hide IsRun, NetInv, Inv, Grows, Evident, Shape;
    var a, b := nets[t1].servers[i], nets[t2].servers[j];
    ElectedFacts(h2.core, h1.core, b.currentTerm);
    EvidentInElected(h1.core, Full(a), a.commitIndex, a.currentTerm, b.currentTerm);
    PrefixTrans(Full(a)[..a.commitIndex + 1], h2.core.elect[b.currentTerm].log, Full(b));
  }

  /**
   A leader's log extends whatever any server of an older term considers committed, earlier or later,
   and whatever any server of the same term has committed by then.
   */
  lemma LeaderHoldsCommitted(n: nat, nets: seq<Net>, steps: seq<Step>, t1: nat, t2: nat, i: nat, j: nat)
    requires IsRun(n, nets, steps) && t1 < |nets| && t2 < |nets| && i < n && j < n
    requires |nets[t1].servers| == |nets[t2].servers| == n && nets[t2].servers[j].role == Leader
    requires var a, b := nets[t1].servers[i], nets[t2].servers[j];
      a.currentTerm < b.currentTerm || (a.currentTerm == b.currentTerm && t1 <= t2)
    ensures CommittedIn(nets[t1].servers[i], nets[t2].servers[j], n)
  {
    hide IsRun, CommittedIn;
    if t1 <= t2 {
      HoldsEarlier(n, nets, steps, t1, t2, i, j);
    } else {
      HoldsLater(n, nets, steps, t1, t2, i, j);
    }
  }

  /** Taking entries, a follower never commits past the last index the call verified. */
  lemma FollowerCommitVerified(n: nat, nets: seq<Net>, steps: seq<Step>, t: nat, k: nat)
    requires IsRun(n, nets, steps) && t < |nets| && k < |nets[t].rpcs| && nets[t].rpcs[k].AppendCall?
    ensures var m := nets[t].rpcs[k];
      && |nets[t].servers| == n && m.dst < n && Shape(nets[t].servers[m.dst], n)
      && var s := nets[t].servers[m.dst]; var (s', r) := AppendEntries(s, m.append);
         && s.commitIndex <= s'.commitIndex
         && (s'.commitIndex == s.commitIndex ||
             (r.success && s'.commitIndex == m.append.leaderCommit <= m.append.prevLogIndex + |m.append.entries|))
  {
    var h := HistoryAt(n, nets, steps, t);
    hide IsRun;
    RpcFacts(nets[t], h, k);
    AppendCallFacts(nets[t], h, k);
    var m := nets[t].rpcs[k];
    ServerFacts(nets[t], h, m.dst);
    var s := nets[t].servers[m.dst];
    ServerParts(h.core, h.counted[m.dst], m.dst, s);
    hide *;
    CommitAfter(h.core, m.dst, s, m.src, m.append);
  }

  lemma CommitAfter(c: Core, j: nat, s: Server, src: nat, a: AppendArgs)
    requires Inv(c) && j < c.n == |c.logs| && Shape(s, c.n) && |s.log| >= 1 && Full(s) == c.logs[j] && CommitOk(c, s)
    requires AppendArgsOk(c, src, j, a) && s.lastIncludedIndex <= s.commitIndex
    ensures var (s', r) := AppendEntries(s, a);
      && s.commitIndex <= s'.commitIndex
      && (s'.commitIndex == s.commitIndex ||
          (r.success && s'.commitIndex == a.leaderCommit <= a.prevLogIndex + |a.entries|))
  {
    AppendEntriesCases(s, a);
    AppendReplyHints(s, a);
    AppendArgsFacts(c, src, j, a);
    if a.term >= s.currentTerm && PrevMatches(s, a) {
      FollowFacts(s, c.n, a.term);
      FollowEvident(c, s, a.term);
      CommitFacts(c, Follow(s, a.term));
      hide Inv, AppendEntries, Accept, AppendArgsOk, Evident;
      AcceptShape(c, j, Follow(s, a.term), src, a);
    } else {
      hide Inv, AppendEntries, Accept, AppendArgsOk, Evident;
    }
  }

  // ----- the leader's indices

  /** Leading, a server has a message for every peer: the panic is out of reach, the slice in range. */
  lemma LeaderAlwaysSends(n: nat, nets: seq<Net>, steps: seq<Step>, t: nat, i: nat, peer: nat)
    requires IsRun(n, nets, steps) && t < |nets| && i < n && peer < n && peer != i
    requires |nets[t].servers| == n && nets[t].servers[i].role == Leader
    ensures var s := nets[t].servers[i];
      Shape(s, n) && s.nextIndex[peer] <= RealLogLen(s) && MessageFor(s, i, peer).Some?
  {
    var h := HistoryAt(n, nets, steps, t);
    hide IsRun;
    ServerFacts(nets[t], h, i);
    hide NetInv;
    MessageOk(h.core, h.counted[i], i, nets[t].servers[i], peer);
  }
}
