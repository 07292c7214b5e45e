/** The shard controller: the history of configurations and the commands that extend it. */
module ShardCtrler {
  import opened Sequences
  import opened ShardBalance
  import opened Rebalance

  type Groups = map<int, seq<string>>

  datatype Config = Config(num: nat, shards: seq<int>, groups: Groups)

  datatype Op =
    | Join(client: int, sequence: int, servers: Groups)
    | Leave(client: int, sequence: int, gids: seq<int>)
    | Move(client: int, sequence: int, shard: int, gid: int)
    | Query(client: int, sequence: int)

  datatype State = State(configs: seq<Config>, duptable: map<int, int>)

  // ----- what each command does

  function NoShards(): (s: seq<int>)
    ensures |s| == NShards && forall p :: 0 <= p < NShards ==> s[p] == 0
  {
    seq(NShards, _ => 0)
  }

  ghost function Owners(shards: seq<int>): set<int>
  {
    Elems(shards) - {0}
  }

  /** How many shards each listed group, and each group that owns one, has. */
  ghost function CountMap(gids: set<int>, shards: seq<int>): map<int, nat>
  {
    map gid | gid in gids + Owners(shards) :: Count(shards, gid)
  }

  ghost function Assignment(gids: set<int>, shards: seq<int>): (r: seq<int>)
  {
    if |CountMap(gids, shards)| == 0 then NoShards() else Rebalanced(shards, CountMap(gids, shards))
  }

  function Last(configs: seq<Config>): Config
    requires configs != []
  {
    configs[|configs| - 1]
  }

  ghost function Joined(configs: seq<Config>, servers: Groups): Config
    requires configs != []
  {
    var groups := Last(configs).groups + servers;
    Config(|configs|, Assignment(groups.Keys, Last(configs).shards), groups)
  }

  /** The shards of departed groups are free. */
  function Freed(shards: seq<int>, gids: seq<int>): (r: seq<int>)
    ensures |r| == |shards| && forall p :: 0 <= p < |r| ==> r[p] == if shards[p] in gids then 0 else shards[p]
  {
    if shards == [] then []
    else
      var n := |shards| - 1;
      Freed(shards[..n], gids) + [if shards[n] in gids then 0 else shards[n]]
  }

  ghost function Departed(configs: seq<Config>, gids: seq<int>): Config
    requires configs != []
  {
    var groups := Last(configs).groups - Elems(gids);
    Config(|configs|, Assignment(groups.Keys, Freed(Last(configs).shards, gids)), groups)
  }

  function Handed(configs: seq<Config>, shard: nat, gid: int): Config
    requires configs != [] && shard < |Last(configs).shards|
  {
    var last := Last(configs);
    last.(num := last.num + 1, shards := last.shards[shard := gid])
  }

  predicate Shaped(configs: seq<Config>)
  {
    configs != [] && |Last(configs).shards| == NShards && 0 !in Last(configs).groups
  }

  /** What the code asks of a command: group ids are not zero, and shard numbers are in range. */
  predicate WellFormed(op: Op)
  {
    && (op.Join? ==> 0 !in op.servers)
    && (op.Move? ==> 0 <= op.shard < NShards)
  }

  ghost function Extended(configs: seq<Config>, op: Op): seq<Config>
    requires Shaped(configs) && WellFormed(op)
  {
    match op
    case Join(_, _, servers) => configs + [Joined(configs, servers)]
    case Leave(_, _, gids) => configs + [Departed(configs, gids)]
    case Move(_, _, shard, gid) => configs + [Handed(configs, shard, gid)]
    case Query(_, _) => configs
  }

  predicate Duplicate(st: State, op: Op)
  {
    op.client in st.duptable && st.duptable[op.client] == op.sequence
  }

  ghost function Applied(st: State, op: Op): State
    requires Shaped(st.configs) && WellFormed(op)
  {
    if Duplicate(st, op) then st
    else State(Extended(st.configs, op), st.duptable[op.client := op.sequence])
  }

  lemma CountMapDescribes(gids: set<int>, shards: seq<int>)
    requires 0 !in gids && |CountMap(gids, shards)| > 0
    ensures Describes(CountMap(gids, shards), shards)
  {
    var counts := CountMap(gids, shards);
    forall p | 0 <= p < |shards| ensures shards[p] == 0 || shards[p] in counts {
      assert shards[p] in Elems(shards);
    }
  }

  lemma AppliedShaped(st: State, op: Op)
    requires Shaped(st.configs) && WellFormed(op)
    ensures Shaped(Applied(st, op).configs) && st.configs <= Applied(st, op).configs
  {}

  // ----- every history

  /** Every shard belongs to a listed group; without groups, to none. */
  ghost predicate Assigned(cfg: Config)
  {
    && |cfg.shards| == NShards && 0 !in cfg.groups
    && forall p :: 0 <= p < NShards ==> if cfg.groups == map[] then cfg.shards[p] == 0 else cfg.shards[p] in cfg.groups
  }

  ghost predicate HistoryOk(configs: seq<Config>)
  {
    configs != [] && forall i :: 0 <= i < |configs| ==> configs[i].num == i && Assigned(configs[i])
  }

  ghost predicate Balanced(cfg: Config)
  {
    forall a, b :: a in cfg.groups && b in cfg.groups ==> Count(cfg.shards, a) <= Count(cfg.shards, b) + 1
  }

  /** A move goes to a group that has joined. */
  predicate MoveListed(configs: seq<Config>, op: Op)
    requires configs != []
  {
    op.Move? ==> if Last(configs).groups == map[] then op.gid == 0 else op.gid in Last(configs).groups
  }

  /** With only listed owners, the assignment is balanced over exactly the listed groups. */
  lemma AssignmentOk(num: nat, groups: Groups, shards: seq<int>)
    requires 0 !in groups && |shards| == NShards
    requires forall p :: 0 <= p < NShards ==> shards[p] == 0 || shards[p] in groups
    ensures var cfg := Config(num, Assignment(groups.Keys, shards), groups); Assigned(cfg) && Balanced(cfg)
  {
    var counts := CountMap(groups.Keys, shards);
    assert Owners(shards) <= groups.Keys;
    assert counts.Keys == groups.Keys;
    assert |counts| == |counts.Keys|;
    if |counts| > 0 {
      CountMapDescribes(groups.Keys, shards);
      RebalancedFacts(shards, counts);
      hide Rebalanced, Describes, Count;
      assert exists gid :: gid in counts.Keys by {
        var gid := Choose(counts.Keys);
      }
    }
  }

  lemma JoinOk(configs: seq<Config>, servers: Groups)
    requires HistoryOk(configs) && 0 !in servers
    ensures HistoryOk(configs + [Joined(configs, servers)]) && Balanced(Joined(configs, servers))
  {
    var last := Last(configs);
    AssignmentOk(|configs|, last.groups + servers, last.shards);
  }

  lemma LeaveOk(configs: seq<Config>, gids: seq<int>)
    requires HistoryOk(configs)
    ensures HistoryOk(configs + [Departed(configs, gids)]) && Balanced(Departed(configs, gids))
  {
    var last := Last(configs);
    AssignmentOk(|configs|, last.groups - Elems(gids), Freed(last.shards, gids));
  }

  /** A move keeps every shard with a listed group exactly if it goes to one. */
  lemma MoveOkIff(configs: seq<Config>, op: Op)
    requires HistoryOk(configs) && op.Move? && WellFormed(op)
    ensures HistoryOk(configs + [Handed(configs, op.shard, op.gid)]) <==> MoveListed(configs, op)
  {
    var next := Handed(configs, op.shard, op.gid);
    assert next.shards[op.shard] == op.gid;
    assert (configs + [next])[|configs|] == next;
    if MoveListed(configs, op) {
      assert Assigned(next);
    }
  }

  ghost predicate AllWellFormed(ops: seq<Op>)
  {
    forall i :: 0 <= i < |ops| ==> WellFormed(ops[i])
  }

  /** The state after a log of commands. */
  ghost function Replayed(st: State, ops: seq<Op>): (r: State)
    requires Shaped(st.configs) && AllWellFormed(ops)
    ensures Shaped(r.configs)
  {
    if ops == [] then st
    else
      var before := Replayed(st, ops[..|ops| - 1]);
      AppliedShaped(before, ops[|ops| - 1]);
      Applied(before, ops[|ops| - 1])
  }

  /** Every move that is applied goes to a group that has joined by then. */
  ghost predicate LegalLog(st: State, ops: seq<Op>)
    requires Shaped(st.configs) && AllWellFormed(ops)
  {
    ops == [] ||
    (var n := |ops| - 1; var before := Replayed(st, ops[..n]);
     LegalLog(st, ops[..n]) && (Duplicate(before, ops[n]) || MoveListed(before.configs, ops[n])))
  }

  /** The state a controller starts in. */
  const Fresh := State([Config(0, NoShards(), map[])], map[])

  /** The first command ever, a move to a group that never joined, is carried out. */
  lemma StrayMove(client: int, sequence: int)
    ensures var op := Move(client, sequence, 0, 1);
      && WellFormed(op) && HistoryOk(Fresh.configs) && !Duplicate(Fresh, op)
      && var cfg := Last(Applied(Fresh, op).configs);
         1 !in cfg.groups && Count(cfg.shards, 1) == 1 && !HistoryOk(Applied(Fresh, op).configs)
  {
    var op := Move(client, sequence, 0, 1);
    var cfg := Handed(Fresh.configs, 0, 1);
    assert !MoveListed(Fresh.configs, op);
    MoveOkIff(Fresh.configs, op);
    OnlyOne(cfg.shards, 1);
  }

  lemma {:induction false} OnlyOne(shards: seq<int>, x: int)
    requires shards != [] && shards[0] == x && forall p :: 0 < p < |shards| ==> shards[p] != x
    ensures Count(shards, x) == 1
  {
    var n := |shards| - 1;
    if n > 0 {
      OnlyOne(shards[..n], x);
    }
  }

  lemma StepOk(st: State, op: Op)
    requires HistoryOk(st.configs) && WellFormed(op) && (Duplicate(st, op) || MoveListed(st.configs, op))
    ensures HistoryOk(Applied(st, op).configs)
    ensures !Duplicate(st, op) && (op.Join? || op.Leave?) ==> Balanced(Last(Applied(st, op).configs))
  {
    hide Balanced, Joined, Departed, Handed, MoveListed;
    match op
    case Join(_, _, servers) => JoinOk(st.configs, servers);
    case Leave(_, _, gids) => LeaveOk(st.configs, gids);
    case Move(_, _, shard, gid) => MoveOkIff(st.configs, op);
    case Query(_, _) =>
  }

  lemma PrefixOk(configs: seq<Config>, more: seq<Config>)
    requires configs != [] && configs <= more && HistoryOk(more)
    ensures HistoryOk(configs)
  {}

  /** One command keeps the history in order exactly if it is not a move away from the listed groups. */
  lemma StepOkIff(st: State, op: Op)
    requires Shaped(st.configs) && WellFormed(op)
    ensures HistoryOk(Applied(st, op).configs) <==>
      HistoryOk(st.configs) && (Duplicate(st, op) || MoveListed(st.configs, op))
  {
    AppliedShaped(st, op);
    if HistoryOk(Applied(st, op).configs) {
      PrefixOk(st.configs, Applied(st, op).configs);
      if !Duplicate(st, op) && op.Move? {
        MoveOkIff(st.configs, op);
      }
    } else if HistoryOk(st.configs) && (Duplicate(st, op) || MoveListed(st.configs, op)) {
      StepOk(st, op);
    }
  }

  /**
   Configurations are numbered in order and every shard is with a listed group, in the history of a
   log exactly if every move that was applied went to a group that had joined.
   */
  lemma {:induction false} HistoryAlwaysOk(ops: seq<Op>)
    requires AllWellFormed(ops)
    ensures HistoryOk(Replayed(Fresh, ops).configs) <==> LegalLog(Fresh, ops)
  {
    if ops != [] {
      HistoryAlwaysOk(ops[..|ops| - 1]);
      hide HistoryOk, Applied, Duplicate, MoveListed;
      StepOkIff(Replayed(Fresh, ops[..|ops| - 1]), ops[|ops| - 1]);
    }
  }

  /** Over all owners, listed or not, the listed groups are balanced among themselves. */
  lemma AssignmentBalanced(num: nat, groups: Groups, shards: seq<int>)
    requires 0 !in groups && |shards| == NShards
    ensures Balanced(Config(num, Assignment(groups.Keys, shards), groups))
  {
    var counts := CountMap(groups.Keys, shards);
    assert groups.Keys <= counts.Keys;
    if |counts| > 0 {
      CountMapDescribes(groups.Keys, shards);
      RebalancedFacts(shards, counts);
    } else {
      assert counts.Keys == {};
    }
  }

  /** Whatever the history, a join or a leave makes a balanced configuration. */
  lemma JoinAndLeaveBalance(ops: seq<Op>, op: Op)
    requires AllWellFormed(ops) && WellFormed(op) && (op.Join? || op.Leave?)
    requires !Duplicate(Replayed(Fresh, ops), op)
    ensures var configs := Applied(Replayed(Fresh, ops), op).configs;
      |configs| == |Replayed(Fresh, ops).configs| + 1 && Balanced(Last(configs))
  {
    var configs := Replayed(Fresh, ops).configs;
    hide Assignment, Balanced, Replayed;
    match op
    case Join(_, _, servers) => AssignmentBalanced(|configs|, Last(configs).groups + servers, Last(configs).shards);
    case Leave(_, _, gids) =>
      AssignmentBalanced(|configs|, Last(configs).groups - Elems(gids), Freed(Last(configs).shards, gids));
  }

  /** Old configurations never change. */
  lemma {:induction false} OldConfigsKept(st: State, ops: seq<Op>, k: nat)
    requires Shaped(st.configs) && AllWellFormed(ops) && k <= |ops|
    ensures Replayed(st, ops[..k]).configs <= Replayed(st, ops).configs
    decreases |ops|
  {
    if k == |ops| {
      assert ops[..k] == ops;
    } else {
      var n := |ops| - 1;
      OldConfigsKept(st, ops[..n], k);
      assert ops[..n][..k] == ops[..k];
      AppliedShaped(Replayed(st, ops[..n]), ops[n]);
    }
  }

  lemma {:induction false} OthersKeepSequence(st: State, ops: seq<Op>, client: int)
    requires Shaped(st.configs) && AllWellFormed(ops) && forall i :: 0 <= i < |ops| ==> ops[i].client != client
    ensures var after := Replayed(st, ops).duptable;
      (client in after <==> client in st.duptable) && (client in after ==> after[client] == st.duptable[client])
  {
    if ops != [] {
      OthersKeepSequence(st, ops[..|ops| - 1], client);
    }
  }

  /** A command that reaches the log again, its client having done nothing else meanwhile, has no effect. */
  lemma RetryIgnored(st: State, op: Op, others: seq<Op>)
    requires Shaped(st.configs) && WellFormed(op) && AllWellFormed(others)
    requires forall i :: 0 <= i < |others| ==> others[i].client != op.client
    ensures Shaped(Applied(st, op).configs)
    ensures var after := Replayed(Applied(st, op), others); Applied(after, op) == after
  {
    AppliedShaped(st, op);
    OthersKeepSequence(Applied(st, op), others, op.client);
  }

  // ----- numbering does not depend on where moves go

  ghost predicate Numbered(configs: seq<Config>)
  {
    configs != [] && forall i :: 0 <= i < |configs| ==> configs[i].num == i
  }

  /** Whatever the commands, configuration `i` has number `i`. */
  lemma {:induction false} NumberedAlways(ops: seq<Op>)
    requires AllWellFormed(ops)
    ensures Numbered(Replayed(Fresh, ops).configs)
  {
    if ops != [] {
      NumberedAlways(ops[..|ops| - 1]);
      hide Assignment, Replayed;
      NumberedNext(Replayed(Fresh, ops[..|ops| - 1]), ops[|ops| - 1]);
      ReplayedNext(Fresh, ops);
    }
  }

  lemma ReplayedNext(st: State, ops: seq<Op>)
    requires Shaped(st.configs) && AllWellFormed(ops) && ops != []
    ensures var before := Replayed(st, ops[..|ops| - 1]);
      Shaped(before.configs) && Replayed(st, ops) == Applied(before, ops[|ops| - 1])
  {}

  lemma NumberedNext(st: State, op: Op)
    requires Shaped(st.configs) && WellFormed(op) && Numbered(st.configs)
    ensures Numbered(Applied(st, op).configs)
  {
    hide Assignment, Freed;
  }

  // ----- the code

  /** One zero per listed group. */
  method ZeroCounts(gids: set<int>) returns (cnt: map<int, nat>)
    ensures cnt.Keys == gids && forall gid :: gid in gids ==> cnt[gid] == 0
  {
    cnt := map[];
    var rest := gids;
    while rest != {}
      invariant rest <= gids && cnt.Keys == gids - rest && forall gid :: gid in cnt ==> cnt[gid] == 0
      decreases |rest|
    {
      ghost var one := Choose(rest);
      var gid :| gid in rest;
      cnt, rest := cnt[gid := 0], rest - {gid};
    }
  }

  lemma CountedNone(gids: set<int>, cnt: map<int, nat>)
    requires cnt.Keys == gids && forall gid :: gid in gids ==> cnt[gid] == 0
    ensures cnt == CountMap(gids, [])
  {
    assert CountMap(gids, []).Keys == gids;
  }

  /** Then one up per owned shard. */
  method CountShards(gids: set<int>, shards: seq<int>) returns (cnt: map<int, nat>)
    requires 0 !in gids
    ensures cnt == CountMap(gids, shards)
  {
    hide *;
    cnt := ZeroCounts(gids);
    CountedNone(gids, cnt);
    assert shards[..0] == [];
    for p := 0 to |shards|
      invariant cnt == CountMap(gids, shards[..p])
    {
      CountedNext(gids, shards, p);
      var gid := shards[p];
      if gid != 0 {
        cnt := cnt[gid := (if gid in cnt then cnt[gid] else 0) + 1];
      }
    }
    assert shards[..|shards|] == shards;
  }

  /** The end of both handlers: balance what there is to balance. */
  method Assign(gids: set<int>, shards: seq<int>) returns (r: seq<int>)
    requires 0 !in gids && |shards| == NShards
    ensures r == Assignment(gids, shards) && |r| == NShards
  {
    hide Balanced, Rebalanced, Describes, Count, CountMap, OrderOf, OverSum, Target, Moved;
    var cnt := CountShards(gids, shards);
    r := NoShards();
    if |cnt| != 0 {
      CountMapDescribes(gids, shards);
      r := Balance(cnt, shards);
    }
  }

  /** `r` is `a` with the entries of `b` put in, except for the keys in `rest`. */
  ghost predicate Adds<K(!new), V>(a: map<K, V>, b: map<K, V>, rest: set<K>, r: map<K, V>)
  {
    && (forall k :: k in r <==> k in a || (k in b && k !in rest))
    && forall k :: k in r ==> r[k] == if k in b && k !in rest then b[k] else a[k]
  }

  lemma AddsStart<K(!new), V>(a: map<K, V>, b: map<K, V>)
    ensures Adds(a, b, b.Keys, a)
  {}

  lemma AddsNext<K(!new), V>(a: map<K, V>, b: map<K, V>, rest: set<K>, r: map<K, V>, k: K)
    requires Adds(a, b, rest, r) && k in rest && k in b
    ensures Adds(a, b, rest - {k}, r[k := b[k]])
  {}

  lemma AddsDone<K(!new), V>(a: map<K, V>, b: map<K, V>, r: map<K, V>)
    requires Adds(a, b, {}, r)
    ensures r == a + b
  {
    assert r.Keys == (a + b).Keys;
  }

  method AddGroups(groups: Groups, servers: Groups) returns (r: Groups)
    ensures r == groups + servers
  {
    hide *;
    r := groups;
    var rest := servers.Keys;
    AddsStart(groups, servers);
    while rest != {}
      invariant rest <= servers.Keys && Adds(groups, servers, rest, r)
      decreases |rest|
    {
      ghost var one := Choose(rest);
      var gid :| gid in rest;
      AddsNext(groups, servers, rest, r, gid);
      r, rest := r[gid := servers[gid]], rest - {gid};
    }
    AddsDone(groups, servers, r);
  }

  method RemoveGroups(groups: Groups, gids: seq<int>) returns (r: Groups)
    ensures r == groups - Elems(gids)
  {
    r := groups;
    for i := 0 to |gids|
      invariant r == groups - Elems(gids[..i])
    {
      assert gids[..i + 1] == gids[..i] + [gids[i]];
      ElemsAppend(gids[..i], gids[i]);
      r := r - {gids[i]};
    }
    assert gids[..|gids|] == gids;
  }

  method FreeShards(shards: seq<int>, gids: seq<int>) returns (r: seq<int>)
    ensures r == Freed(shards, gids)
  {
    r := shards;
    for p := 0 to |shards|
      invariant |r| == |shards|
      invariant forall q :: 0 <= q < |shards| ==> r[q] == if q < p && shards[q] in gids then 0 else shards[q]
    {
      if shards[p] in gids {
        r := r[p := 0];
      }
    }
    assert r == Freed(shards, gids);
  }

  lemma CountedNext(gids: set<int>, shards: seq<int>, p: nat)
    requires p < |shards| && 0 !in gids
    ensures var cnt, gid := CountMap(gids, shards[..p]), shards[p];
      CountMap(gids, shards[..p + 1]) ==
      if gid == 0 then cnt else cnt[gid := (if gid in cnt then cnt[gid] else 0) + 1]
  {
    var before, x := shards[..p], shards[p];
    assert shards[..p + 1] == before + [x];
    ElemsAppend(before, x);
    CountPositive(before, x);
    forall gid ensures Count(shards[..p + 1], gid) == Count(before, gid) + if x == gid then 1 else 0 {
      CountAppend(before, gid, x);
    }
    hide Count;
  }

  class Ctrler {
    var configs: seq<Config>
    var duptable: map<int, int>

    ghost function Value(): State
      reads this
    {
      State(configs, duptable)
    }

    constructor ()
      ensures Value() == Fresh
    {
      configs := [Config(0, NoShards(), map[])];
      duptable := map[];
    }

    method HandleJoin(servers: Groups)
      requires Shaped(configs) && 0 !in servers
      modifies this`configs
      ensures configs == old(configs) + [Joined(old(configs), servers)]
    {
      hide Assignment;
      var oldCfg := Last(configs);
      var groups := AddGroups(oldCfg.groups, servers);
      var shards := Assign(groups.Keys, oldCfg.shards);
      configs := configs + [Config(|configs|, shards, groups)];
    }

    method HandleLeave(gids: seq<int>)
      requires Shaped(configs)
      modifies this`configs
      ensures configs == old(configs) + [Departed(old(configs), gids)]
    {
      hide Assignment, Freed;
      var oldCfg := Last(configs);
      var groups := RemoveGroups(oldCfg.groups, gids);
      var newShard := FreeShards(oldCfg.shards, gids);
      var shards := Assign(groups.Keys, newShard);
      configs := configs + [Config(|configs|, shards, groups)];
    }

    method HandleMove(shard: int, gid: int)
      requires Shaped(configs) && 0 <= shard < NShards
      modifies this`configs
      ensures configs == old(configs) + [Handed(old(configs), shard, gid)]
    {
      var newConfig := Last(configs);
      newConfig := newConfig.(num := newConfig.num + 1);
      newConfig := newConfig.(shards := newConfig.shards[shard := gid]);
      configs := configs + [newConfig];
    }

    method ApplyOp(op: Op)
      requires Shaped(configs) && WellFormed(op)
      modifies this
      ensures Value() == Applied(old(Value()), op) && Shaped(configs)
    {
      AppliedShaped(Value(), op);
      if op.client in duptable && duptable[op.client] == op.sequence {
        return;
      }
      duptable := duptable[op.client := op.sequence];
      match op
      case Join(_, _, servers) => HandleJoin(servers);
      case Leave(_, _, gids) => HandleLeave(gids);
      case Move(_, _, shard, gid) => HandleMove(shard, gid);
      case Query(_, _) =>
    }

    /** Every replica that applies the same log is in the same state, however it iterates its maps. */
    method ApplyLog(ops: seq<Op>)
      requires Shaped(configs) && AllWellFormed(ops)
      modifies this
      ensures Value() == Replayed(old(Value()), ops)
    {
      for i := 0 to |ops|
        invariant Shaped(configs) && Value() == Replayed(old(Value()), ops[..i])
      {
        assert ops[..i + 1][..i] == ops[..i];
        ApplyOp(ops[i]);
      }
      assert ops[..|ops|] == ops;
    }

    /** The lookup of `Query`: the configuration asked for, the latest, or none. */
    method Lookup(num: int) returns (r: Option<Config>)
      requires Numbered(configs)
      ensures num == -1 || num >= |configs| ==> r == Some(configs[|configs| - 1])
      ensures 0 <= num < |configs| ==> r == Some(configs[num])
      ensures num < -1 ==> r == None
    {
      if num == -1 || num > Last(configs).num {
        return Some(configs[|configs| - 1]);
      }
      for i := 0 to |configs|
        invariant forall j :: 0 <= j < i ==> configs[j].num != num
      {
        if configs[i].num == num {
          return Some(configs[i]);
        }
      }
      return None;
    }
  }
}
