/** What clients of the sharded store see: the value of a key, and a shard handed from group to group. */
module ShardMeaning {
  import opened Sequences
  import opened ShardBalance
  import opened ShardKv
  import opened ShardMigration
  import opened Register

  // ----- one write

  function Lookup(data: Store, key: string): string
  {
    if key in data then data[key] else ""
  }

  /** A put leaves its value, an append adds to what was there, and nothing else changes. */
  lemma WriteExact(g: Group, w: Write, key: string)
    requires Shaped(g) && Effective(g, w)
    ensures var s, after := Key2Shard(w.key), Applied(g, WriteOp(w));
      && g.shards[s].data.Some? && after.shards[s].data.Some?
      && var was, now := g.shards[s].data.value, after.shards[s].data.value;
         && w.key in now && now[w.key] == (if w.append then Lookup(was, w.key) else "") + w.value
         && (key != w.key ==> (key in now <==> key in was) && Lookup(now, key) == Lookup(was, key))
    ensures var s, after := Key2Shard(w.key), Applied(g, WriteOp(w));
      && (forall q: nat :: q < NShards && q != s ==> after.shards[q] == g.shards[q])
      && after.shards[s].configNum == g.shards[s].configNum && after.cfg == g.cfg && after.lastCfg == g.lastCfg
      && Duplicated(after.duptable, w.client, w.sequence)
  {}

  /** A write is carried out exactly if the shard is the group's, its data is here, and the command is new. */
  lemma WriteChangesIff(g: Group, w: Write)
    requires Shaped(g)
    ensures var s, after := Key2Shard(w.key), Applied(g, WriteOp(w));
      && (after != g <==>
            && g.cfg.shards[s] == g.gid && g.shards[s].data.Some?
            && (w.client !in g.duptable || w.sequence > g.duptable[w.client]))
      && (Answer(g, WriteOp(w)) == OK <==> g.cfg.shards[s] == g.gid && g.shards[s].data.Some?)
  {
    var after := Applied(g, WriteOp(w));
    if Effective(g, w) {
      assert Duplicated(after.duptable, w.client, w.sequence) && !Duplicated(g.duptable, w.client, w.sequence);
    }
  }

  /** A read changes no shard, is remembered like a write, and is refused where a write would be. */
  lemma GetExact(g: Group, client: int, sequence: int, key: string)
    requires Shaped(g)
    ensures var s, op := Key2Shard(key), GetOp(client, sequence, key); var after := Applied(g, op);
      && after.shards == g.shards && after.cfg == g.cfg && after.lastCfg == g.lastCfg
      && (Answer(g, op) == OK <==> g.cfg.shards[s] == g.gid && g.shards[s].data.Some?)
      && (Answer(g, op) == OK ==> Duplicated(after.duptable, client, sequence))
      && (Answer(g, op) != OK ==> after == g)
  {}

  // ----- all writes behind a shard

  ghost function WritesTo(past: seq<Write>, key: string): seq<Change>
  {
    if past == [] then []
    else
      var w := past[|past| - 1];
      WritesTo(past[..|past| - 1], key) +
      if w.key != key then [] else [if w.append then Append(w.value) else Put(w.value)]
  }

  /** The writes make, of each key, the last put followed by all later appends. */
  lemma {:induction false} ReplayHolds(past: seq<Write>, key: string)
    ensures Holds(WritesTo(past, key), Lookup(Replay(past), key))
    ensures key in Replay(past) <==> WritesTo(past, key) != []
  {
    if past == [] {
      HoldsNothing();
    } else {
      var n := |past| - 1;
      var w := past[n];
      var changes, value := WritesTo(past[..n], key), Lookup(Replay(past[..n]), key);
      ReplayHolds(past[..n], key);
      hide Holds;
      if w.key == key {
        HoldsNext(changes, value, if w.append then Append(w.value) else Put(w.value));
      } else {
        assert changes + [] == changes;
      }
    }
  }

  /** In every reachable state, a key of a shard holds what the writes behind the shard make of it. */
  lemma KeyHolds(gids: seq<int>, worlds: seq<World>, steps: seq<Step>, t: nat, i: nat, s: nat, key: string)
    requires IsRun(gids, worlds, steps) && t < |worlds| && i < |worlds[t].groups| && s < NShards
    requires worlds[t].groups[i] != []
    ensures var x := Now(worlds[t], i);
      && Shaped(x.group) && |x.past| == NShards
      && (x.group.shards[s].data.Some? ==>
            Holds(WritesTo(x.past[s], key), Lookup(x.group.shards[s].data.value, key)))
  {
    var x := Now(worlds[t], i);
    InvAlways(gids, worlds, steps, t);
    assert TracedOk(worlds[t].groups[i][|worlds[t].groups[i]| - 1]);
    assert TracedAt(x, s);
    ReplayHolds(x.past[s], key);
  }

  // ----- a shard changes hands

  /**
   One configuration gives a shard of group `g` to group `h`.  Once both have it, `g` refuses the
   shard and has to send it; the copy is accepted; `h` then serves the shard with the same data and
   knows every command `g` knew; and when `g` has removed it, it has nothing left to send.
   */
  lemma Handoff(g: Group, h: Group, cfg: Config, s: nat)
    requires Shaped(g) && Shaped(h) && |cfg.shards| == NShards && s < NShards
    requires g.cfg.num < cfg.num && h.cfg.num < cfg.num && g.gid != h.gid
    requires g.cfg.shards[s] == g.gid && g.shards[s].data.Some? && g.shards[s].configNum < cfg.num
    requires h.cfg.shards[s] != 0 && h.shards[s].data.None? && cfg.shards[s] == h.gid
    ensures var g1, h1 := Applied(g, UpgradeConfig(cfg)), Applied(h, UpgradeConfig(cfg));
      && Shaped(g1) && Shaped(h1)
      && Serving(g1, s) == ErrWrongGroup && MustSend(g1, s) && Serving(h1, s) == ShardNotArrived
      && var h2 := Applied(h1, AddShard(Packed(g1, s)));
         && Answer(h1, AddShard(Packed(g1, s))) == OK && Shaped(h2)
         && Serving(h2, s) == OK && h2.shards[s].data == g.shards[s].data
         && AtLeast(h2.duptable, g.duptable) && AtLeast(h2.duptable, h.duptable)
    ensures var g2 := Applied(Applied(g, UpgradeConfig(cfg)), RemoveShard(cfg.num, s));
      Shaped(g2) && g2.shards[s].data.None? && !MustSend(g2, s)
  {}

  /** A group that has not the configuration yet, or has the shard, or is past it, leaves everything as it is. */
  lemma RefusedIff(g: Group, p: Parcel)
    requires Shaped(g) && p.shardId < NShards
    ensures Applied(g, AddShard(p)).shards != g.shards <==>
      g.shards[p.shardId].data.None? && p.cfgNum <= g.cfg.num <= p.configNum
    ensures Answer(g, AddShard(p)) != OK <==> g.cfg.num < p.cfgNum
  {
    var after := Applied(g, AddShard(p));
    assert after.shards[p.shardId] != g.shards[p.shardId] ==> after.shards != g.shards;
  }

  /** A newer configuration is taken up, and the last one remembered; a shard that had no owner starts empty. */
  lemma UpgradeExact(g: Group, cfg: Config, s: nat)
    requires Shaped(g) && |cfg.shards| == NShards && s < NShards
    ensures var after := Applied(g, UpgradeConfig(cfg));
      && (cfg.num <= g.cfg.num ==> after == g)
      && (cfg.num > g.cfg.num ==>
            && after.cfg == cfg && after.lastCfg == g.cfg && after.duptable == g.duptable && Shaped(after)
            && (g.cfg.shards[s] == 0 && cfg.shards[s] == g.gid ==>
                  after.shards[s].data == Some(map[]) && Serving(after, s) == OK)
            && (g.cfg.shards[s] != 0 || cfg.shards[s] != g.gid ==> after.shards[s] == g.shards[s]))
  {}

  /** Removing is refused once the group has moved on. */
  lemma RemoveExact(g: Group, sequence: int, s: nat, q: nat)
    requires Shaped(g) && s < NShards && q < NShards
    ensures var after := Applied(g, RemoveShard(sequence, s));
      && (sequence < g.cfg.num ==> after == g)
      && (sequence >= g.cfg.num ==>
            |after.shards| == NShards && after.shards[q].data == if q == s then None else g.shards[q].data)
      && after.duptable == g.duptable && after.cfg == g.cfg
  {}

  // ----- keys

  /** Every shard has keys, and the first character decides. */
  lemma ShardsHaveKeys(s: nat, rest: string)
    requires s < NShards
    ensures Key2Shard([s as char] + rest) == s && Key2Shard([(s + NShards) as char] + rest) == s
  {}
}
