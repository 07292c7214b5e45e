/**
 One replica group of the sharded key/value service: the commands it applies from its log, and what
 it copies to send a shard away.
 */
module ShardKv {
  import opened Sequences
  import opened ShardBalance
  import ShardCtrler

  type Config = ShardCtrler.Config

  type Store = map<string, string>

  type DupTable = map<int, int>

  /** No data: the shard is not here. */
  datatype Shard = Shard(data: Option<Store>, configNum: int)

  datatype Group = Group(gid: int, cfg: Config, lastCfg: Config, shards: seq<Shard>, duptable: DupTable)

  datatype Write = Write(client: int, sequence: int, key: string, value: string, append: bool)

  /** A shard on its way: its data and the sender's table, copied together. */
  datatype Parcel = Parcel(cfgNum: int, shardId: nat, data: Store, configNum: int, duptable: DupTable)

  datatype Op =
    | WriteOp(write: Write)
    | GetOp(client: int, sequence: int, key: string)
    | UpgradeConfig(cfg: Config)
    | AddShard(parcel: Parcel)
    | RemoveShard(sequence: int, shardId: nat)

  datatype Err = OK | ErrWrongGroup | ShardNotArrived | ConfigNotArrived

  function Key2Shard(key: string): (s: nat)
    ensures s < NShards
  {
    (if |key| > 0 then key[0] as int else 0) % NShards
  }

  predicate Shaped(g: Group)
  {
    |g.shards| == |g.cfg.shards| == |g.lastCfg.shards| == NShards
  }

  predicate WellFormed(op: Op)
  {
    && (op.UpgradeConfig? ==> |op.cfg.shards| == NShards)
    && (op.AddShard? ==> op.parcel.shardId < NShards)
    && (op.RemoveShard? ==> op.shardId < NShards)
  }

  // ----- client commands

  predicate Duplicated(duptable: DupTable, client: int, sequence: int)
  {
    client in duptable && sequence <= duptable[client]
  }

  function Written(data: Store, w: Write): Store
  {
    data[w.key := if w.append then (if w.key in data then data[w.key] else "") + w.value else w.value]
  }

  /** Whether the group serves the shard, or why not. */
  function Serving(g: Group, s: nat): Err
    requires Shaped(g) && s < NShards
  {
    if g.cfg.shards[s] != g.gid then ErrWrongGroup
    else if g.shards[s].data.None? then ShardNotArrived
    else OK
  }

  /** The write is carried out: the shard is served and the command is not a repetition. */
  predicate Effective(g: Group, w: Write)
    requires Shaped(g)
  {
    Serving(g, Key2Shard(w.key)) == OK && !Duplicated(g.duptable, w.client, w.sequence)
  }

  function AppliedWrite(g: Group, w: Write): Group
    requires Shaped(g)
  {
    if Effective(g, w) then
      var s := Key2Shard(w.key);
      g.(duptable := g.duptable[w.client := w.sequence],
         shards := g.shards[s := g.shards[s].(data := Some(Written(g.shards[s].data.value, w)))])
    else g
  }

  function AppliedGet(g: Group, client: int, sequence: int, key: string): Group
    requires Shaped(g)
  {
    if Serving(g, Key2Shard(key)) == OK && !Duplicated(g.duptable, client, sequence)
    then g.(duptable := g.duptable[client := sequence])
    else g
  }

  // ----- configurations and shards

  /** The shard is new to the group and comes from nobody. */
  predicate StartsEmpty(g: Group, cfg: Config, s: nat)
    requires Shaped(g) && |cfg.shards| == NShards && s < NShards
  {
    cfg.shards[s] == g.gid && g.cfg.shards[s] == 0
  }

  function Emptied(g: Group, cfg: Config, n: nat): (r: seq<Shard>)
    requires Shaped(g) && |cfg.shards| == NShards && n <= NShards
    ensures |r| == NShards
    ensures forall s: nat :: s < NShards ==>
      r[s] == if s < n && StartsEmpty(g, cfg, s) then Shard(Some(map[]), cfg.num) else g.shards[s]
  {
    if n == 0 then g.shards
    else
      var r := Emptied(g, cfg, n - 1);
      if StartsEmpty(g, cfg, n - 1) then r[n - 1 := Shard(Some(map[]), cfg.num)] else r
  }

  function Upgraded(g: Group, cfg: Config): Group
    requires Shaped(g) && |cfg.shards| == NShards
  {
    if g.cfg.num >= cfg.num then g
    else g.(shards := Emptied(g, cfg, NShards), lastCfg := g.cfg, cfg := cfg)
  }

  /** For every client the higher of the two numbers. */
  ghost predicate Merged<K>(a: map<K, int>, b: map<K, int>, r: map<K, int>)
  {
    && r.Keys == a.Keys + b.Keys
    && forall c :: c in r ==>
         r[c] == if c !in a then b[c] else if c !in b then a[c] else if a[c] < b[c] then b[c] else a[c]
  }

  ghost function Merge<K>(a: map<K, int>, b: map<K, int>): (r: map<K, int>)
    ensures Merged(a, b, r)
  {
    map c | c in a.Keys + b.Keys ::
      if c !in a then b[c] else if c !in b then a[c] else if a[c] < b[c] then b[c] else a[c]
  }

  predicate Accepts(g: Group, p: Parcel)
    requires Shaped(g) && p.shardId < NShards
  {
    g.cfg.num >= p.cfgNum && g.shards[p.shardId].data.None? && p.configNum >= g.cfg.num
  }

  ghost function Added(g: Group, p: Parcel): Group
    requires Shaped(g) && p.shardId < NShards
  {
    if Accepts(g, p)
    then g.(shards := g.shards[p.shardId := Shard(Some(p.data), p.configNum)],
      duptable := Merge(g.duptable, p.duptable))
    else g
  }

  function Removed(g: Group, sequence: int, s: nat): Group
    requires Shaped(g) && s < NShards
  {
    if sequence < g.cfg.num then g else g.(shards := g.shards[s := Shard(None, sequence)])
  }

  // ----- one command

  ghost function Applied(g: Group, op: Op): Group
    requires Shaped(g) && WellFormed(op)
  {
    match op
    case WriteOp(w) => AppliedWrite(g, w)
    case GetOp(client, sequence, key) => AppliedGet(g, client, sequence, key)
    case UpgradeConfig(cfg) => Upgraded(g, cfg)
    case AddShard(p) => Added(g, p)
    case RemoveShard(sequence, s) => Removed(g, sequence, s)
  }

  function Answer(g: Group, op: Op): Err
    requires Shaped(g) && WellFormed(op)
  {
    match op
    case WriteOp(w) => Serving(g, Key2Shard(w.key))
    case GetOp(_, _, key) => Serving(g, Key2Shard(key))
    case AddShard(p) => if g.cfg.num < p.cfgNum then ConfigNotArrived else OK
    case _ => OK
  }

  lemma AppliedShaped(g: Group, op: Op)
    requires Shaped(g) && WellFormed(op)
    ensures Shaped(Applied(g, op)) && Applied(g, op).gid == g.gid
  {}

  ghost predicate AllWellFormed(ops: seq<Op>)
  {
    forall i :: 0 <= i < |ops| ==> WellFormed(ops[i])
  }

  ghost function Replayed(g: Group, ops: seq<Op>): (r: Group)
    requires Shaped(g) && AllWellFormed(ops)
    ensures Shaped(r) && r.gid == g.gid
  {
    if ops == [] then g
    else
      var before := Replayed(g, ops[..|ops| - 1]);
      AppliedShaped(before, ops[|ops| - 1]);
      Applied(before, ops[|ops| - 1])
  }

  // ----- the table only grows

  ghost predicate AtLeast(a: DupTable, b: DupTable)
  {
    forall c :: c in b ==> c in a && b[c] <= a[c]
  }

  lemma StepAtLeast(g: Group, op: Op)
    requires Shaped(g) && WellFormed(op)
    ensures AtLeast(Applied(g, op).duptable, g.duptable)
  {}

  /** Whatever a group applies, no client's number in its table ever goes down. */
  lemma {:induction false} TableNeverDecreases(g: Group, ops: seq<Op>)
    requires Shaped(g) && AllWellFormed(ops)
    ensures AtLeast(Replayed(g, ops).duptable, g.duptable)
  {
    if ops != [] {
      var before := Replayed(g, ops[..|ops| - 1]);
      TableNeverDecreases(g, ops[..|ops| - 1]);
      StepAtLeast(before, ops[|ops| - 1]);
      hide Applied;
    }
  }

  /** A write the table knows is never carried out again, whatever the group applies in between. */
  lemma NeverAgain(g: Group, ops: seq<Op>, w: Write)
    requires Shaped(g) && AllWellFormed(ops) && Duplicated(g.duptable, w.client, w.sequence)
    ensures var later := Replayed(g, ops); Applied(later, WriteOp(w)) == later
  {
    TableNeverDecreases(g, ops);
  }

  // ----- sending

  predicate MustSend(g: Group, s: nat)
    requires Shaped(g) && s < NShards
  {
    g.lastCfg.shards[s] == g.gid && g.cfg.shards[s] != g.gid && g.shards[s].configNum < g.cfg.num
  }

  /** The copy: the data (nothing, if there is none) and the whole table. */
  function Packed(g: Group, s: nat): Parcel
    requires Shaped(g) && s < NShards
  {
    Parcel(g.cfg.num, s, if g.shards[s].data.Some? then g.shards[s].data.value else map[], g.cfg.num, g.duptable)
  }

  /** What is copied of the first `n` shards. */
  function Parcels(g: Group, n: nat): seq<Parcel>
    requires Shaped(g) && n <= NShards
  {
    if n == 0 then [] else Parcels(g, n - 1) + if MustSend(g, n - 1) then [Packed(g, n - 1)] else []
  }

  /** A parcel is sent for exactly the shards that have to leave. */
  lemma {:induction false} ParcelIff(g: Group, n: nat, p: Parcel)
    requires Shaped(g) && n <= NShards
    ensures p in Parcels(g, n) <==> p.shardId < n && MustSend(g, p.shardId) && p == Packed(g, p.shardId)
  {
    if n > 0 {
      ParcelIff(g, n - 1, p);
    }
  }

  // ----- the code

  class Server {
    const gid: int
    var cfg: Config
    var lastCfg: Config
    var shards: seq<Shard>
    var duptable: DupTable

    ghost function Value(): Group
      reads this
    {
      Group(gid, cfg, lastCfg, shards, duptable)
    }

    constructor (gid: int)
      ensures Value() == Start(gid)
    {
      this.gid := gid;
      cfg, lastCfg := NoConfig, NoConfig;
      shards := NothingHere();
      duptable := map[];
    }

    predicate IsDuplicated(client: int, sequence: int)
      reads this
    {
      client in duptable && sequence <= duptable[client]
    }

    method ApplyWrite(w: Write) returns (err: Err)
      requires Shaped(Value())
      modifies this
      ensures Value() == AppliedWrite(old(Value()), w) && err == Serving(old(Value()), Key2Shard(w.key))
    {
      var s := Key2Shard(w.key);
      if cfg.shards[s] != gid {
        return ErrWrongGroup;
      }
      if shards[s].data.None? {
        return ShardNotArrived;
      }
      if !IsDuplicated(w.client, w.sequence) {
        duptable := duptable[w.client := w.sequence];
        var data := shards[s].data.value;
        if w.append {
          data := data[w.key := (if w.key in data then data[w.key] else "") + w.value];
        } else {
          data := data[w.key := w.value];
        }
        shards := shards[s := shards[s].(data := Some(data))];
      }
      return OK;
    }

    method ApplyGet(client: int, sequence: int, key: string) returns (err: Err)
      requires Shaped(Value())
      modifies this
      ensures Value() == AppliedGet(old(Value()), client, sequence, key) && err == Serving(old(Value()), Key2Shard(key))
    {
      var s := Key2Shard(key);
      if cfg.shards[s] != gid {
        return ErrWrongGroup;
      }
      if shards[s].data.None? {
        return ShardNotArrived;
      }
      if !IsDuplicated(client, sequence) {
        duptable := duptable[client := sequence];
      }
      return OK;
    }

    method DoUpgradeConfig(upgradeCfg: Config)
      requires Shaped(Value()) && |upgradeCfg.shards| == NShards
      modifies this
      ensures Value() == Upgraded(old(Value()), upgradeCfg)
    {
      if cfg.num >= upgradeCfg.num {
        return;
      }
      for s := 0 to NShards
        invariant Value() == old(Value()).(shards := Emptied(old(Value()), upgradeCfg, s))
      {
        if upgradeCfg.shards[s] == gid && cfg.shards[s] == 0 {
          shards := shards[s := Shard(Some(map[]), upgradeCfg.num)];
        }
      }
      lastCfg, cfg := cfg, upgradeCfg;
    }

    method DoAddShard(p: Parcel) returns (err: Err)
      requires Shaped(Value()) && p.shardId < NShards
      modifies this
      ensures Value() == Added(old(Value()), p)
      ensures err == if old(cfg.num) < p.cfgNum then ConfigNotArrived else OK
    {
      if cfg.num < p.cfgNum {
        return ConfigNotArrived;
      }
      err := OK;
      if shards[p.shardId].data.Some? || p.configNum < cfg.num {
        return;
      }
      shards := shards[p.shardId := Shard(Some(p.data), p.configNum)];
      duptable := MergeTables(duptable, p.duptable);
    }

    method DoRemoveShard(sequence: int, s: nat)
      requires Shaped(Value()) && s < NShards
      modifies this
      ensures Value() == Removed(old(Value()), sequence, s)
    {
      if sequence < cfg.num {
        return;
      }
      shards := shards[s := Shard(None, sequence)];
    }

    method Apply(op: Op) returns (err: Err)
      requires Shaped(Value()) && WellFormed(op)
      modifies this
      ensures Value() == Applied(old(Value()), op) && err == Answer(old(Value()), op)
    {
      err := OK;
      match op
      case WriteOp(w) => err := ApplyWrite(w);
      case GetOp(client, sequence, key) => err := ApplyGet(client, sequence, key);
      case UpgradeConfig(c) => DoUpgradeConfig(c);
      case AddShard(p) => err := DoAddShard(p);
      case RemoveShard(sequence, s) => DoRemoveShard(sequence, s);
    }

    /** The part of `watch` under the lock: a parcel for every shard still to be sent. */
    method CopyShards() returns (parcels: seq<Parcel>)
      requires Shaped(Value())
      ensures parcels == Parcels(Value(), NShards)
    {
      parcels := [];
      for s := 0 to NShards
        invariant parcels == Parcels(Value(), s)
      {
        if lastCfg.shards[s] == gid && cfg.shards[s] != gid && shards[s].configNum < cfg.num {
          var data := if shards[s].data.Some? then shards[s].data.value else map[];
          parcels := parcels + [Parcel(cfg.num, s, data, cfg.num, duptable)];
        }
      }
    }

    method IsAllSent() returns (r: bool)
      requires Shaped(Value())
      ensures r <==> forall s: nat :: s < NShards ==> !MustSend(Value(), s)
    {
      for s := 0 to NShards
        invariant forall q: nat :: q < s ==> !MustSend(Value(), q)
      {
        if lastCfg.shards[s] == gid && cfg.shards[s] != gid && shards[s].configNum < cfg.num {
          assert MustSend(Value(), s);
          return false;
        }
      }
      return true;
    }
  }

  const NoConfig: Config := ShardCtrler.Config(0, ShardCtrler.NoShards(), map[])

  function NothingHere(): (s: seq<Shard>)
    ensures |s| == NShards && forall i :: 0 <= i < NShards ==> s[i] == Shard(None, 0)
  {
    seq(NShards, _ => Shard(None, 0))
  }

  function Start(gid: int): Group
  {
    Group(gid, NoConfig, NoConfig, NothingHere(), map[])
  }

  lemma MergedUnique<K>(a: map<K, int>, b: map<K, int>, r: map<K, int>, t: map<K, int>)
    requires Merged(a, b, r) && Merged(a, b, t)
    ensures r == t
  {}

  /** Part of a merge: the clients in `rest` have not been dealt with. */
  ghost predicate MergedExcept<K>(a: map<K, int>, b: map<K, int>, rest: set<K>, r: map<K, int>)
  {
    && r.Keys == a.Keys + (b.Keys - rest)
    && forall c :: c in r ==>
         r[c] == if c !in b || c in rest then a[c] else if c !in a then b[c] else if a[c] < b[c] then b[c] else a[c]
  }

  lemma MergeNext<K>(a: map<K, int>, b: map<K, int>, rest: set<K>, r: map<K, int>, c: K)
    requires MergedExcept(a, b, rest, r) && c in rest && c in b
    ensures MergedExcept(a, b, rest - {c}, if c !in r || r[c] < b[c] then r[c := b[c]] else r)
  {}

  lemma MergeStart<K>(a: map<K, int>, b: map<K, int>)
    ensures MergedExcept(a, b, b.Keys, a)
  {}

  lemma MergeEnd<K>(a: map<K, int>, b: map<K, int>, r: map<K, int>)
    requires MergedExcept(a, b, {}, r)
    ensures Merged(a, b, r)
  {}

  /** The loop over the sender's table. */
  method MergeTables(a: DupTable, b: DupTable) returns (r: DupTable)
    ensures r == Merge(a, b)
  {
    hide *;
    r := a;
    var rest := b.Keys;
    MergeStart(a, b);
    while rest != {}
      invariant rest <= b.Keys && MergedExcept(a, b, rest, r)
      decreases |rest|
    {
      ghost var one := Choose(rest);
      var c :| c in rest;
      MergeNext(a, b, rest, r, c);
      if c !in r || r[c] < b[c] {
        r := r[c := b[c]];
      }
      rest := rest - {c};
    }
    MergeEnd(a, b, r);
    MergedUnique(a, b, r, Merge(a, b));
  }
}
