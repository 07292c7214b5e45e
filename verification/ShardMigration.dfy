/**
 Shards moving between groups.  Every shard carries, besides its data, the writes that made it: a
 record the program does not keep, followed here through every copy.  Parcels may be sent from any
 state a replica of the group has been in, and arrive late, repeatedly, anywhere, or never.
 */
module ShardMigration {
  import opened ShardBalance
  import opened ShardKv

  datatype Traced = Traced(group: Group, past: seq<seq<Write>>)       // by shard

  datatype TracedParcel = TracedParcel(parcel: Parcel, past: seq<Write>)

  /** For each group all states it has been in, and all parcels ever sent. */
  datatype World = World(groups: seq<seq<Traced>>, parcels: seq<TracedParcel>)

  datatype Step =
    | ApplyAt(i: nat, op: Op)            // any command but an arriving shard
    | SendFrom(i: nat, k: nat, s: nat)
    | ArriveAt(i: nat, n: nat)

  // ----- the writes behind a shard

  ghost function Replay(past: seq<Write>): Store
  {
    if past == [] then map[] else Written(Replay(past[..|past| - 1]), past[|past| - 1])
  }

  /** The commands of each client, in strictly increasing order. */
  ghost predicate Increasing(past: seq<Write>)
  {
    forall i, j :: 0 <= i < j < |past| && past[i].client == past[j].client ==> past[i].sequence < past[j].sequence
  }

  ghost predicate Known(past: seq<Write>, duptable: DupTable)
  {
    forall i :: 0 <= i < |past| ==> Duplicated(duptable, past[i].client, past[i].sequence)
  }

  ghost predicate InShard(past: seq<Write>, s: nat)
  {
    forall i :: 0 <= i < |past| ==> Key2Shard(past[i].key) == s
  }

  /** The data is what the writes make of nothing, none of them twice, and the table knows them all. */
  ghost predicate ShardOk(data: Store, past: seq<Write>, s: nat, duptable: DupTable)
  {
    data == Replay(past) && Increasing(past) && Known(past, duptable) && InShard(past, s)
  }

  ghost predicate TracedAt(x: Traced, s: nat)
    requires s < |x.past| && s < |x.group.shards|
  {
    match x.group.shards[s].data
    case None => x.past[s] == []
    case Some(data) => ShardOk(data, x.past[s], s, x.group.duptable)
  }

  ghost predicate TracedOk(x: Traced)
  {
    && Shaped(x.group) && |x.past| == NShards
    && forall s: nat {:trigger TracedAt(x, s)} :: s < NShards ==> TracedAt(x, s)
  }

  ghost predicate ParcelOk(p: TracedParcel)
  {
    p.parcel.shardId < NShards && ShardOk(p.parcel.data, p.past, p.parcel.shardId, p.parcel.duptable)
  }

  // ----- steps

  ghost function Cleared(g: Group, cfg: Config, past: seq<seq<Write>>, n: nat): (r: seq<seq<Write>>)
    requires Shaped(g) && |cfg.shards| == NShards == |past| && n <= NShards
    ensures |r| == NShards
    ensures forall s: nat :: s < NShards ==> r[s] == if s < n && StartsEmpty(g, cfg, s) then [] else past[s]
  {
    if n == 0 then past
    else
      var r := Cleared(g, cfg, past, n - 1);
      if StartsEmpty(g, cfg, n - 1) then r[n - 1 := []] else r
  }

  /** The writes behind each shard once `op` is applied; `sent` are those behind an arriving shard. */
  ghost function PastAfter(x: Traced, op: Op, sent: seq<Write>): seq<seq<Write>>
    requires Shaped(x.group) && |x.past| == NShards && WellFormed(op)
  {
    match op
    case WriteOp(w) =>
      var s := Key2Shard(w.key);
      if Effective(x.group, w) then x.past[s := x.past[s] + [w]] else x.past
    case GetOp(_, _, _) => x.past
    case UpgradeConfig(cfg) => if x.group.cfg.num >= cfg.num then x.past else Cleared(x.group, cfg, x.past, NShards)
    case AddShard(p) => if Accepts(x.group, p) then x.past[p.shardId := sent] else x.past
    case RemoveShard(sequence, s) => if sequence < x.group.cfg.num then x.past else x.past[s := []]
  }

  ghost function After(x: Traced, op: Op, sent: seq<Write>): Traced
    requires Shaped(x.group) && |x.past| == NShards && WellFormed(op)
  {
    Traced(Applied(x.group, op), PastAfter(x, op, sent))
  }

  ghost function TracedPacked(x: Traced, s: nat): TracedParcel
    requires Shaped(x.group) && |x.past| == NShards && s < NShards
  {
    TracedParcel(Packed(x.group, s), x.past[s])
  }

  ghost function Now(w: World, i: nat): Traced
    requires i < |w.groups| && w.groups[i] != []
  {
    w.groups[i][|w.groups[i]| - 1]
  }

  ghost predicate WorldShaped(w: World)
  {
    && (forall i: nat :: i < |w.groups| ==> w.groups[i] != [])
    && (forall i: nat, k: nat {:trigger w.groups[i][k]} :: i < |w.groups| && k < |w.groups[i]| ==>
          Shaped(w.groups[i][k].group) && |w.groups[i][k].past| == NShards)
    && (forall n: nat :: n < |w.parcels| ==> w.parcels[n].parcel.shardId < NShards)
  }

  ghost function Grown(w: World, i: nat, x: Traced): World
    requires i < |w.groups|
  {
    w.(groups := w.groups[i := w.groups[i] + [x]])
  }

  ghost predicate Next(w: World, step: Step, w': World)
    requires WorldShaped(w)
  {
    match step
    case ApplyAt(i, op) =>
      && i < |w.groups| && WellFormed(op) && !op.AddShard?
      && w' == Grown(w, i, After(Now(w, i), op, []))
    case SendFrom(i, k, s) =>
      && i < |w.groups| && k < |w.groups[i]| && s < NShards && MustSend(w.groups[i][k].group, s)
      && w' == w.(parcels := w.parcels + [TracedPacked(w.groups[i][k], s)])
    case ArriveAt(i, n) =>
      && i < |w.groups| && n < |w.parcels|
      && w' == Grown(w, i, After(Now(w, i), AddShard(w.parcels[n].parcel), w.parcels[n].past))
  }

  // ----- applying one command

  lemma KnownMore(past: seq<Write>, a: DupTable, b: DupTable)
    requires Known(past, a) && AtLeast(b, a)
    ensures Known(past, b)
  {}

  /** A write that is carried out is newer than everything its client has behind any shard of the group. */
  lemma WriteTraced(x: Traced, w: Write)
    requires TracedOk(x) && Effective(x.group, w)
    ensures TracedAt(After(x, WriteOp(w), []), Key2Shard(w.key))
  {
    var s := Key2Shard(w.key);
    assert TracedAt(x, s);
    var past := x.past[s] + [w];
    assert past[..|x.past[s]|] == x.past[s];
  }

  /** A shard the command does not touch stays in order: the table only grows. */
  lemma OthersTraced(x: Traced, op: Op, sent: seq<Write>, s: nat)
    requires TracedOk(x) && WellFormed(op) && s < NShards
    requires Shaped(Applied(x.group, op)) && |PastAfter(x, op, sent)| == NShards
    requires PastAfter(x, op, sent)[s] == x.past[s] && Applied(x.group, op).shards[s].data == x.group.shards[s].data
    ensures TracedAt(After(x, op, sent), s)
  {
    assert TracedAt(x, s);
    StepAtLeast(x.group, op);
    hide Applied, PastAfter;
    if x.group.shards[s].data.Some? {
      KnownMore(x.past[s], x.group.duptable, Applied(x.group, op).duptable);
    }
  }

  lemma NothingTraced(s: nat, duptable: DupTable)
    ensures ShardOk(map[], [], s, duptable)
  {}

  lemma ArriveTraced(x: Traced, p: TracedParcel)
    requires TracedOk(x) && ParcelOk(p) && Accepts(x.group, p.parcel)
    ensures TracedAt(After(x, AddShard(p.parcel), p.past), p.parcel.shardId)
  {
    var table := Merge(x.group.duptable, p.parcel.duptable);
    assert AtLeast(table, p.parcel.duptable);
    KnownMore(p.past, p.parcel.duptable, table);
  }

  /** Applying a command keeps every shard of the group in order. */
  lemma AfterOk(x: Traced, op: Op, sent: seq<Write>)
    requires TracedOk(x) && WellFormed(op) && (op.AddShard? ==> ParcelOk(TracedParcel(op.parcel, sent)))
    ensures TracedOk(After(x, op, sent))
  {
    AppliedShaped(x.group, op);
    var y := After(x, op, sent);
    assert |y.past| == NShards;
    forall s: nat | s < NShards ensures TracedAt(y, s) {
      if y.past[s] == x.past[s] && y.group.shards[s].data == x.group.shards[s].data {
        OthersTraced(x, op, sent, s);
      } else {
        ChangedTraced(x, op, sent, s);
      }
    }
  }

  lemma ChangedTraced(x: Traced, op: Op, sent: seq<Write>, s: nat)
    requires TracedOk(x) && WellFormed(op) && (op.AddShard? ==> ParcelOk(TracedParcel(op.parcel, sent))) && s < NShards
    requires Shaped(Applied(x.group, op)) && |PastAfter(x, op, sent)| == NShards
    requires !(PastAfter(x, op, sent)[s] == x.past[s] && Applied(x.group, op).shards[s].data == x.group.shards[s].data)
    ensures TracedAt(After(x, op, sent), s)
  {
    hide ShardOk;
    match op
    case WriteOp(w) => WriteTraced(x, w);
    case GetOp(_, _, _) =>
    case UpgradeConfig(cfg) => NothingTraced(s, x.group.duptable);
    case AddShard(p) => ArriveTraced(x, TracedParcel(p, sent));
    case RemoveShard(_, _) =>
  }

  /** The copy of a shard is in order by the table copied with it. */
  lemma PackedOk(x: Traced, s: nat)
    requires TracedOk(x) && s < NShards
    ensures ParcelOk(TracedPacked(x, s))
  {
    assert TracedAt(x, s);
  }

  // ----- every run

  ghost predicate Inv(w: World)
  {
    && (forall i: nat :: i < |w.groups| ==> w.groups[i] != [])
    && (forall i: nat, k: nat {:trigger w.groups[i][k]} :: i < |w.groups| && k < |w.groups[i]| ==>
          TracedOk(w.groups[i][k]))
    && (forall n: nat :: n < |w.parcels| ==> ParcelOk(w.parcels[n]))
  }

  lemma InvShaped(w: World)
    requires Inv(w)
    ensures WorldShaped(w)
  {}

  lemma GrownOk(w: World, i: nat, x: Traced)
    requires Inv(w) && i < |w.groups| && TracedOk(x)
    ensures Inv(Grown(w, i, x))
  {
    hide TracedOk, ParcelOk;
  }

  lemma StepKeepsInv(w: World, step: Step, w': World)
    requires Inv(w) && WorldShaped(w) && Next(w, step, w')
    ensures Inv(w')
  {
    hide TracedOk, ParcelOk, After, Grown, TracedPacked;
    match step
    case ApplyAt(i, op) =>
      AfterOk(Now(w, i), op, []);
      GrownOk(w, i, After(Now(w, i), op, []));
    case SendFrom(i, k, s) =>
      PackedOk(w.groups[i][k], s);
    case ArriveAt(i, n) =>
      var p := w.parcels[n];
      assert TracedParcel(p.parcel, p.past) == p;
      AfterOk(Now(w, i), AddShard(p.parcel), p.past);
      GrownOk(w, i, After(Now(w, i), AddShard(p.parcel), p.past));
  }

  ghost function Beginning(gids: seq<int>): World
  {
    World(seq(|gids|, i requires 0 <= i < |gids| => [Traced(Start(gids[i]), seq(NShards, _ => []))]), [])
  }

  lemma BeginningOk(gids: seq<int>)
    ensures Inv(Beginning(gids))
  {
    var w := Beginning(gids);
    forall i: nat, k: nat | i < |w.groups| && k < |w.groups[i]| ensures TracedOk(w.groups[i][k]) {
      forall s: nat | s < NShards ensures TracedAt(w.groups[i][k], s) {}
    }
  }

  ghost predicate IsRun(gids: seq<int>, worlds: seq<World>, steps: seq<Step>)
  {
    && |worlds| == |steps| + 1 && worlds[0] == Beginning(gids)
    && forall t: nat :: t < |steps| ==> WorldShaped(worlds[t]) && Next(worlds[t], steps[t], worlds[t + 1])
  }

  lemma {:induction false} InvAlways(gids: seq<int>, worlds: seq<World>, steps: seq<Step>, t: nat)
    requires IsRun(gids, worlds, steps) && t < |worlds|
    ensures Inv(worlds[t])
  {
    hide Inv, Next, Beginning;
    if t == 0 {
      BeginningOk(gids);
    } else {
      InvAlways(gids, worlds, steps, t - 1);
      StepKeepsInv(worlds[t - 1], steps[t - 1], worlds[t]);
    }
  }

  /** Any well-formed command can be applied in any reachable state. */
  lemma AlwaysShaped(gids: seq<int>, worlds: seq<World>, steps: seq<Step>, t: nat)
    requires IsRun(gids, worlds, steps) && t < |worlds|
    ensures WorldShaped(worlds[t])
  {
    InvAlways(gids, worlds, steps, t);
    InvShaped(worlds[t]);
  }

  /** Through any number of moves, no write is behind a shard twice, and the data is what the writes make. */
  lemma AppliedOnce(gids: seq<int>, worlds: seq<World>, steps: seq<Step>, t: nat, i: nat, s: nat, a: nat, b: nat)
    requires IsRun(gids, worlds, steps) && t < |worlds| && i < |worlds[t].groups| && s < NShards
    requires worlds[t].groups[i] != []
    ensures var x := Now(worlds[t], i);
      && Shaped(x.group) && |x.past| == NShards
      && (x.group.shards[s].data.Some? ==> x.group.shards[s].data.value == Replay(x.past[s]))
      && (a < b < |x.past[s]| ==>
            !(x.past[s][a].client == x.past[s][b].client && x.past[s][a].sequence == x.past[s][b].sequence))
  {
    InvAlways(gids, worlds, steps, t);
    assert TracedOk(worlds[t].groups[i][|worlds[t].groups[i]| - 1]);
    assert TracedAt(Now(worlds[t], i), s);
  }

  /** A write behind a shard, whoever applied it, is not carried out again by the group that has the shard. */
  lemma MigratedNeverAgain(gids: seq<int>, worlds: seq<World>, steps: seq<Step>, t: nat, i: nat, s: nat, a: nat,
      ops: seq<Op>)
    requires IsRun(gids, worlds, steps) && t < |worlds| && i < |worlds[t].groups| && s < NShards
    requires worlds[t].groups[i] != []
    requires AllWellFormed(ops)
    ensures var x := Now(worlds[t], i);
      && Shaped(x.group) && |x.past| == NShards
      && (a < |x.past[s]| ==> var later := Replayed(x.group, ops); Applied(later, WriteOp(x.past[s][a])) == later)
  {
    InvAlways(gids, worlds, steps, t);
    var x := Now(worlds[t], i);
    assert TracedOk(worlds[t].groups[i][|worlds[t].groups[i]| - 1]);
    assert TracedAt(x, s);
    hide IsRun, Inv;
    if a < |x.past[s]| {
      NeverAgain(x.group, ops, x.past[s][a]);
    }
  }

  // ----- one group over time

  /** Later in the same group: no number in the table is lower, and another configuration is a newer one. */
  ghost predicate Later(a: Group, b: Group)
  {
    AtLeast(b.duptable, a.duptable) && b.gid == a.gid && (b.cfg == a.cfg || b.cfg.num > a.cfg.num)
  }

  lemma AppliedLater(g: Group, op: Op)
    requires Shaped(g) && WellFormed(op)
    ensures Later(g, Applied(g, op))
  {
    StepAtLeast(g, op);
    AppliedShaped(g, op);
  }

  ghost predicate Ordered(w: World)
  {
    forall i: nat, k: nat, m: nat {:trigger w.groups[i][k], w.groups[i][m]} ::
      i < |w.groups| && k <= m < |w.groups[i]| ==> Later(w.groups[i][k].group, w.groups[i][m].group)
  }

  /** Groups and parcels only grow. */
  ghost predicate Extends(w: World, w': World)
  {
    && |w'.groups| == |w.groups| && w.parcels <= w'.parcels
    && forall i: nat {:trigger w'.groups[i]} :: i < |w.groups| ==> w.groups[i] <= w'.groups[i]
  }

  lemma ExtendsSelf(w: World)
    ensures Extends(w, w)
  {}

  lemma ExtendsTrans(a: World, b: World, c: World)
    requires Extends(a, b) && Extends(b, c)
    ensures Extends(a, c)
  {
    forall i: nat | i < |a.groups| ensures a.groups[i] <= c.groups[i] {
      assert a.groups[i] <= b.groups[i] && b.groups[i] <= c.groups[i];
    }
  }

  lemma GrownOrdered(w: World, i: nat, x: Traced)
    requires Ordered(w) && i < |w.groups| && w.groups[i] != [] && Later(Now(w, i).group, x.group)
    ensures Ordered(Grown(w, i, x)) && Extends(w, Grown(w, i, x))
  {
    var w' := Grown(w, i, x);
    forall j: nat, k: nat, m: nat | j < |w'.groups| && k <= m < |w'.groups[j]|
      ensures Later(w'.groups[j][k].group, w'.groups[j][m].group)
    {
      if j == i && m == |w.groups[i]| && k < m {
        assert Later(w.groups[i][k].group, w.groups[i][m - 1].group);
      }
    }
  }

  lemma StepOrdered(w: World, step: Step, w': World)
    requires WorldShaped(w) && Ordered(w) && Next(w, step, w')
    ensures Ordered(w') && Extends(w, w')
  {
    hide Ordered, Extends, Later, Applied;
    match step
    case ApplyAt(i, op) =>
      AppliedLater(Now(w, i).group, op);
      GrownOrdered(w, i, After(Now(w, i), op, []));
    case SendFrom(i, k, s) => SentOrdered(w, w');
    case ArriveAt(i, n) =>
      AppliedLater(Now(w, i).group, AddShard(w.parcels[n].parcel));
      GrownOrdered(w, i, After(Now(w, i), AddShard(w.parcels[n].parcel), w.parcels[n].past));
  }

  lemma SentOrdered(w: World, w': World)
    requires Ordered(w) && w'.groups == w.groups && w.parcels <= w'.parcels
    ensures Ordered(w') && Extends(w, w')
  {}

  lemma BeginningOrdered(gids: seq<int>)
    ensures Ordered(Beginning(gids))
  {}

  lemma {:induction false} RunOrdered(gids: seq<int>, worlds: seq<World>, steps: seq<Step>, t: nat)
    requires IsRun(gids, worlds, steps) && t < |worlds|
    ensures Ordered(worlds[t])
  {
    hide Ordered, Next, Beginning, WorldShaped;
    if t == 0 {
      BeginningOrdered(gids);
    } else {
      RunOrdered(gids, worlds, steps, t - 1);
      StepOrdered(worlds[t - 1], steps[t - 1], worlds[t]);
    }
  }

  lemma {:induction false} RunExtends(gids: seq<int>, worlds: seq<World>, steps: seq<Step>, t: nat, t': nat)
    requires IsRun(gids, worlds, steps) && t <= t' < |worlds|
    ensures Extends(worlds[t], worlds[t'])
    decreases t'
  {
    hide Next, WorldShaped, Ordered;
    if t == t' {
      ExtendsSelf(worlds[t]);
    } else {
      hide Extends;
      RunExtends(gids, worlds, steps, t, t' - 1);
      RunOrdered(gids, worlds, steps, t' - 1);
      StepOrdered(worlds[t' - 1], steps[t' - 1], worlds[t']);
      ExtendsTrans(worlds[t], worlds[t' - 1], worlds[t']);
    }
  }

  lemma SizeGrows(gids: seq<int>, worlds: seq<World>, steps: seq<Step>, t: nat, t': nat, i: nat)
    requires IsRun(gids, worlds, steps) && t <= t' < |worlds| && i < |worlds[t].groups|
    ensures i < |worlds[t'].groups| && |worlds[t].groups[i]| <= |worlds[t'].groups[i]|
  {
    RunExtends(gids, worlds, steps, t, t');
    assert worlds[t].groups[i] <= worlds[t'].groups[i];
  }

  lemma KnownLater(a: Group, b: Group, w: Write)
    requires Later(a, b) && Duplicated(a.duptable, w.client, w.sequence)
    ensures Duplicated(b.duptable, w.client, w.sequence)
  {}

  /** A group that knows a write at one time of a run knows it at every later time. */
  lemma KnownInRun(gids: seq<int>, worlds: seq<World>, steps: seq<Step>, t: nat, t': nat, i: nat, k: nat, m: nat,
      w: Write)
    requires IsRun(gids, worlds, steps) && t <= t' < |worlds| && i < |worlds[t].groups| && k < |worlds[t].groups[i]|
    requires Duplicated(worlds[t].groups[i][k].group.duptable, w.client, w.sequence)
    requires i < |worlds[t'].groups| && k <= m < |worlds[t'].groups[i]|
    ensures Duplicated(worlds[t'].groups[i][m].group.duptable, w.client, w.sequence)
  {
    RunExtends(gids, worlds, steps, t, t');
    RunOrdered(gids, worlds, steps, t');
    hide IsRun;
    assert worlds[t].groups[i] <= worlds[t'].groups[i];
    assert worlds[t'].groups[i][k] == worlds[t].groups[i][k];
    KnownLater(worlds[t'].groups[i][k].group, worlds[t'].groups[i][m].group, w);
  }

  // ----- the sender has stopped

  /** Under one configuration a group does not both give a shard away and write to it. */
  lemma SenderStoppedInRun(gids: seq<int>, worlds: seq<World>, steps: seq<Step>, t: nat, i: nat, k: nat, m: nat, s: nat,
      w: Write)
    requires IsRun(gids, worlds, steps) && t < |worlds| && i < |worlds[t].groups| && k <= m < |worlds[t].groups[i]|
    requires s < NShards && Key2Shard(w.key) == s && WorldShaped(worlds[t])
    requires MustSend(worlds[t].groups[i][k].group, s) && Effective(worlds[t].groups[i][m].group, w)
    ensures worlds[t].groups[i][m].group.cfg.num > worlds[t].groups[i][k].group.cfg.num
  {
    RunOrdered(gids, worlds, steps, t);
    hide IsRun;
    assert Later(worlds[t].groups[i][k].group, worlds[t].groups[i][m].group);
  }

  /** From a state whose shard has to leave, nothing is written to it until a configuration brings it back. */
  lemma {:induction false} SenderStopped(g: Group, ops: seq<Op>, s: nat, w: Write)
    requires Shaped(g) && AllWellFormed(ops) && s < NShards && g.cfg.shards[s] != g.gid && Key2Shard(w.key) == s
    requires forall i :: 0 <= i < |ops| && ops[i].UpgradeConfig? ==> ops[i].cfg.shards[s] != g.gid
    ensures var later := Replayed(g, ops);
      later.cfg.shards[s] != later.gid && !Effective(later, w) && Applied(later, WriteOp(w)) == later
  {
    if ops != [] {
      SenderStopped(g, ops[..|ops| - 1], s, w);
    }
  }

  // ----- what the sender applied is not applied by the receiver

  lemma WriteKnown(g: Group, w: Write)
    requires Shaped(g) && Effective(g, w)
    ensures Duplicated(Applied(g, WriteOp(w)).duptable, w.client, w.sequence)
  {}

  lemma ArrivalKnown(g: Group, p: Parcel, w: Write)
    requires Shaped(g) && p.shardId < NShards && Accepts(g, p) && Duplicated(p.duptable, w.client, w.sequence)
    ensures Duplicated(Applied(g, AddShard(p)).duptable, w.client, w.sequence)
  {
    assert Merged(g.duptable, p.duptable, Merge(g.duptable, p.duptable));
  }

  /** Group `i` carries out `w` at time `t`. */
  ghost predicate WritesAt(worlds: seq<World>, steps: seq<Step>, t: nat, i: nat, w: Write)
  {
    && t + 1 < |worlds| && t < |steps| && WorldShaped(worlds[t]) && i < |worlds[t].groups|
    && steps[t] == ApplyAt(i, WriteOp(w)) && Effective(Now(worlds[t], i).group, w)
  }

  /** Group `j` accepts, at time `t`, the parcel with number `n`. */
  ghost predicate AcceptsAt(worlds: seq<World>, steps: seq<Step>, t: nat, j: nat, n: nat)
  {
    && t + 1 < |worlds| && t < |steps| && WorldShaped(worlds[t]) && j < |worlds[t].groups| && n < |worlds[t].parcels|
    && steps[t] == ArriveAt(j, n) && Accepts(Now(worlds[t], j).group, worlds[t].parcels[n].parcel)
  }

  /** Group `i` sends, at time `t`, what it held of shard `s` in its state `k`. */
  ghost predicate SendsAt(worlds: seq<World>, steps: seq<Step>, t: nat, i: nat, k: nat, s: nat)
  {
    && t + 1 < |worlds| && t < |steps| && WorldShaped(worlds[t]) && i < |worlds[t].groups| && k < |worlds[t].groups[i]|
    && s < NShards && steps[t] == SendFrom(i, k, s) && MustSend(worlds[t].groups[i][k].group, s)
  }

  lemma WrittenKnown(gids: seq<int>, worlds: seq<World>, steps: seq<Step>, t: nat, i: nat, w: Write)
    requires IsRun(gids, worlds, steps) && WritesAt(worlds, steps, t, i, w)
    ensures i < |worlds[t + 1].groups| && |worlds[t + 1].groups[i]| == |worlds[t].groups[i]| + 1
    ensures Duplicated(Now(worlds[t + 1], i).group.duptable, w.client, w.sequence)
  {
    assert Next(worlds[t], steps[t], worlds[t + 1]);
    WriteKnown(Now(worlds[t], i).group, w);
  }

  lemma SentParcel(gids: seq<int>, worlds: seq<World>, steps: seq<Step>, t: nat, t': nat, i: nat, k: nat, s: nat)
    requires IsRun(gids, worlds, steps) && SendsAt(worlds, steps, t, i, k, s) && t < t' < |worlds|
    ensures var n := |worlds[t].parcels|; var g := worlds[t].groups[i][k].group;
      && n < |worlds[t'].parcels| && worlds[t'].parcels[n].parcel == Packed(g, s)
  {
    assert Next(worlds[t], steps[t], worlds[t + 1]);
    RunExtends(gids, worlds, steps, t + 1, t');
    assert worlds[t + 1].parcels <= worlds[t'].parcels;
  }

  /** The receiver knows, from then on, everything the state the parcel was made in knew. */
  lemma AcceptedKnows(gids: seq<int>, worlds: seq<World>, steps: seq<Step>, t1: nat, t2: nat, t3: nat, i: nat, k: nat,
      s: nat, j: nat, w: Write)
    requires IsRun(gids, worlds, steps) && SendsAt(worlds, steps, t1, i, k, s)
    requires t1 < t2 < t3 < |worlds| && AcceptsAt(worlds, steps, t2, j, |worlds[t1].parcels|)
    requires Duplicated(worlds[t1].groups[i][k].group.duptable, w.client, w.sequence)
    ensures j < |worlds[t3].groups| && worlds[t3].groups[j] != []
    ensures Duplicated(Now(worlds[t3], j).group.duptable, w.client, w.sequence)
  {
    SentParcel(gids, worlds, steps, t1, t2, i, k, s);
    var p := worlds[t2].parcels[|worlds[t1].parcels|].parcel;
    assert Next(worlds[t2], steps[t2], worlds[t2 + 1]);
    ArrivalKnown(Now(worlds[t2], j).group, p, w);
    RunExtends(gids, worlds, steps, t2 + 1, t3);
    assert worlds[t2 + 1].groups[j] <= worlds[t3].groups[j];
    hide Next, IsRun, Applied;
    KnownInRun(gids, worlds, steps, t2 + 1, t3, j, |worlds[t2].groups[j]|, |worlds[t3].groups[j]| - 1, w);
  }

  /**
   A write the sender carried out before the copy was made is never carried out again by the group
   that accepts the shard.  A copy made before the write, by a replica that lags behind, is accepted
   only under an older configuration than the one the write was carried out in.
   */
  lemma SentWriteNeverAgain(gids: seq<int>, worlds: seq<World>, steps: seq<Step>, t0: nat, t1: nat, t2: nat, t3: nat,
      i: nat, k: nat, s: nat, j: nat, w: Write)
    requires IsRun(gids, worlds, steps) && WritesAt(worlds, steps, t0, i, w) && SendsAt(worlds, steps, t1, i, k, s)
    requires t1 < t2 < t3 < |worlds| && AcceptsAt(worlds, steps, t2, j, |worlds[t1].parcels|)
    ensures WorldShaped(worlds[t3]) && j < |worlds[t3].groups|
    ensures k >= |worlds[t0].groups[i]| ==> !Effective(Now(worlds[t3], j).group, w)
    ensures k < |worlds[t0].groups[i]| && Key2Shard(w.key) == s ==>
      Now(worlds[t2], j).group.cfg.num < Now(worlds[t0], i).group.cfg.num
  {
    AlwaysShaped(gids, worlds, steps, t3);
    SizeGrows(gids, worlds, steps, t2, t3, j);
    if k >= |worlds[t0].groups[i]| {
      WrittenKnown(gids, worlds, steps, t0, i, w);
      CopyAfter(gids, worlds, steps, t0, t1, i, k, s, w);
      AcceptedKnows(gids, worlds, steps, t1, t2, t3, i, k, s, j, w);
    } else if Key2Shard(w.key) == s {
      CopyBefore(gids, worlds, steps, t0, t1, t2, i, k, s, j, w);
    }
  }

  lemma CopyAfter(gids: seq<int>, worlds: seq<World>, steps: seq<Step>, t0: nat, t1: nat, i: nat, k: nat, s: nat,
      w: Write)
    requires IsRun(gids, worlds, steps) && WritesAt(worlds, steps, t0, i, w) && SendsAt(worlds, steps, t1, i, k, s)
    requires k >= |worlds[t0].groups[i]|
    ensures Duplicated(worlds[t1].groups[i][k].group.duptable, w.client, w.sequence)
  {
    WrittenKnown(gids, worlds, steps, t0, i, w);
    if t1 <= t0 {
      SizeGrows(gids, worlds, steps, t1, t0, i);
    }
    hide Next, IsRun, Effective;
    KnownInRun(gids, worlds, steps, t0 + 1, t1, i, |worlds[t0].groups[i]|, k, w);
  }

  lemma CopyBefore(gids: seq<int>, worlds: seq<World>, steps: seq<Step>, t0: nat, t1: nat, t2: nat, i: nat, k: nat,
      s: nat, j: nat, w: Write)
    requires IsRun(gids, worlds, steps) && WritesAt(worlds, steps, t0, i, w) && SendsAt(worlds, steps, t1, i, k, s)
    requires t1 < t2 < |worlds| && AcceptsAt(worlds, steps, t2, j, |worlds[t1].parcels|)
    requires k < |worlds[t0].groups[i]| && Key2Shard(w.key) == s
    ensures Now(worlds[t2], j).group.cfg.num < Now(worlds[t0], i).group.cfg.num
  {
    SentParcel(gids, worlds, steps, t1, t2, i, k, s);
    RunExtends(gids, worlds, steps, if t0 <= t1 then t0 else t1, if t0 <= t1 then t1 else t0);
    assert worlds[t0].groups[i][k] == worlds[t1].groups[i][k] by {
      assert worlds[t0].groups[i] <= worlds[t1].groups[i] || worlds[t1].groups[i] <= worlds[t0].groups[i];
    }
    hide Next, IsRun;
    SenderStoppedInRun(gids, worlds, steps, t0, i, k, |worlds[t0].groups[i]| - 1, s, w);
  }

  // ----- any number of moves

  /** A copy of shard `s`, made in state `k` of group `i` at time `sent`, accepted by group `j` at time `arrived`. */
  datatype Hop = Hop(sent: nat, i: nat, k: nat, s: nat, arrived: nat, j: nat)

  ghost predicate IsHop(worlds: seq<World>, steps: seq<Step>, h: Hop)
  {
    && SendsAt(worlds, steps, h.sent, h.i, h.k, h.s) && h.sent < h.arrived
    && AcceptsAt(worlds, steps, h.arrived, h.j, |worlds[h.sent].parcels|)
  }

  /** Each copy is made by the group that accepted the one before, and after it did. */
  ghost predicate IsChain(worlds: seq<World>, steps: seq<Step>, hops: seq<Hop>)
  {
    && (forall m :: 0 <= m < |hops| ==> IsHop(worlds, steps, hops[m]))
    && (forall m :: 0 < m < |hops| ==>
          hops[m].i == hops[m - 1].j && hops[m].k >= |worlds[hops[m - 1].arrived].groups[hops[m].i]|)
  }

  /** At the end of a chain, every write its first copy knew is known from then on. */
  lemma {:induction false} ChainKnows(gids: seq<int>, worlds: seq<World>, steps: seq<Step>, hops: seq<Hop>, t: nat,
      w: Write)
    requires IsRun(gids, worlds, steps) && hops != [] && IsChain(worlds, steps, hops)
    requires Duplicated(worlds[hops[0].sent].groups[hops[0].i][hops[0].k].group.duptable, w.client, w.sequence)
    requires hops[|hops| - 1].arrived < t < |worlds|
    ensures var j := hops[|hops| - 1].j;
      && j < |worlds[t].groups| && worlds[t].groups[j] != []
      && Duplicated(Now(worlds[t], j).group.duptable, w.client, w.sequence)
    decreases |hops|
  {
    hide *;
    var n := |hops| - 1;
    var h := hops[n];
    ChainAt(worlds, steps, hops);
    HopFacts(worlds, steps, h);
    if n > 0 {
      var prev := hops[n - 1];
      HopFacts(worlds, steps, prev);
      ChainKnows(gids, worlds, steps, hops[..n], prev.arrived + 1, w);
      HopKnows(gids, worlds, steps, prev, h, w);
    }
    AcceptedKnows(gids, worlds, steps, h.sent, h.arrived, t, h.i, h.k, h.s, h.j, w);
  }

  lemma HopFacts(worlds: seq<World>, steps: seq<Step>, h: Hop)
    requires IsHop(worlds, steps, h)
    ensures h.sent < h.arrived && h.arrived + 1 < |worlds| && SendsAt(worlds, steps, h.sent, h.i, h.k, h.s)
    ensures AcceptsAt(worlds, steps, h.arrived, h.j, |worlds[h.sent].parcels|)
    ensures h.j < |worlds[h.arrived].groups| && h.i < |worlds[h.sent].groups| && h.k < |worlds[h.sent].groups[h.i]|
  {}

  lemma ChainAt(worlds: seq<World>, steps: seq<Step>, hops: seq<Hop>)
    requires hops != [] && IsChain(worlds, steps, hops)
    ensures var n := |hops| - 1;
      && IsHop(worlds, steps, hops[n])
      && (n > 0 ==> var prev := hops[n - 1];
            && IsChain(worlds, steps, hops[..n]) && IsHop(worlds, steps, prev) && hops[n].i == prev.j
            && prev.j < |worlds[prev.arrived].groups| && hops[n].k >= |worlds[prev.arrived].groups[prev.j]|)
  {
    hide SendsAt;
  }

  /** What a group knew when it had accepted one copy, it knows in every copy it makes afterwards. */
  lemma HopKnows(gids: seq<int>, worlds: seq<World>, steps: seq<Step>, prev: Hop, h: Hop, w: Write)
    requires IsRun(gids, worlds, steps) && IsHop(worlds, steps, prev) && IsHop(worlds, steps, h) && h.i == prev.j
    requires h.i < |worlds[prev.arrived].groups| && h.k >= |worlds[prev.arrived].groups[h.i]|
    requires h.i < |worlds[prev.arrived + 1].groups| && worlds[prev.arrived + 1].groups[h.i] != []
    requires Duplicated(Now(worlds[prev.arrived + 1], h.i).group.duptable, w.client, w.sequence)
    ensures Duplicated(worlds[h.sent].groups[h.i][h.k].group.duptable, w.client, w.sequence)
  {
    assert Next(worlds[prev.arrived], steps[prev.arrived], worlds[prev.arrived + 1]);
    if h.sent <= prev.arrived {
      SizeGrows(gids, worlds, steps, h.sent, prev.arrived, h.i);
    }
    hide Next, IsRun;
    KnownInRun(gids, worlds, steps, prev.arrived + 1, h.sent, h.i, |worlds[prev.arrived].groups[h.i]|, h.k, w);
  }

  /**
   A write is never carried out again by any group its shard reaches, through any number of moves:
   it was carried out before the first copy was made, and each further copy was made after the one
   before it had been accepted.
   */
  lemma ChainNeverAgain(gids: seq<int>, worlds: seq<World>, steps: seq<Step>, t0: nat, hops: seq<Hop>, t: nat, w: Write)
    requires IsRun(gids, worlds, steps) && hops != [] && IsChain(worlds, steps, hops)
    requires WritesAt(worlds, steps, t0, hops[0].i, w) && hops[0].k >= |worlds[t0].groups[hops[0].i]|
    requires hops[|hops| - 1].arrived < t < |worlds|
    ensures WorldShaped(worlds[t]) && hops[|hops| - 1].j < |worlds[t].groups|
    ensures !Effective(Now(worlds[t], hops[|hops| - 1].j).group, w)
  {
    AlwaysShaped(gids, worlds, steps, t);
    var h := hops[0];
    CopyAfter(gids, worlds, steps, t0, h.sent, h.i, h.k, h.s, w);
    ChainKnows(gids, worlds, steps, hops, t, w);
  }
}
