/** What a log of commands makes of the groups and their shards, read off the log. */
module ShardHistory {
  import opened Sequences
  import opened ShardBalance
  import opened Rebalance
  import opened ShardCtrler

  // ----- one command

  ghost predicate Names(op: Op, gid: int)
  {
    (op.Join? && gid in op.servers) || (op.Leave? && gid in op.gids)
  }

  /** A join lists the groups it names, with their servers; a leave removes those it names; nothing else changes. */
  lemma GroupsAfter(st: State, op: Op, gid: int)
    requires Shaped(st.configs) && WellFormed(op) && !Duplicate(st, op)
    ensures var before, after := Last(st.configs).groups, Last(Applied(st, op).configs).groups;
      && (gid in after <==> if Names(op, gid) then op.Join? else gid in before)
      && (gid in after ==> after[gid] == if Names(op, gid) then op.servers[gid] else before[gid])
  {
    hide Assignment;
  }

  /** A move gives one shard to one group. */
  lemma MoveExact(st: State, op: Op)
    requires Shaped(st.configs) && WellFormed(op) && !Duplicate(st, op) && op.Move?
    ensures var before, after := Last(st.configs), Last(Applied(st, op).configs);
      && |Applied(st, op).configs| == |st.configs| + 1 && |after.shards| == NShards
      && forall p :: 0 <= p < NShards ==> after.shards[p] == if p == op.shard then op.gid else before.shards[p]
  {}

  lemma QueryExact(st: State, op: Op)
    requires Shaped(st.configs) && WellFormed(op) && op.Query?
    ensures Applied(st, op).configs == st.configs
  {}

  /** A group gives up a shard only if it has fewer afterwards. */
  lemma AssignmentKeeps(gids: set<int>, shards: seq<int>, p: nat)
    requires 0 !in gids && |shards| == NShards && p < NShards && shards[p] != 0
    ensures var r := Assignment(gids, shards);
      |r| == NShards && (r[p] != shards[p] ==> Count(r, shards[p]) < Count(shards, shards[p]))
  {
    var counts := CountMap(gids, shards);
    assert shards[p] in Elems(shards);
    assert shards[p] in counts.Keys;
    assert |counts| == |counts.Keys|;
    CountMapDescribes(gids, shards);
    RebalancedFacts(shards, counts);
  }

  /** The shards of a group stay where they are through a join, unless the group has too many. */
  lemma JoinKeeps(st: State, op: Op, p: nat)
    requires Shaped(st.configs) && WellFormed(op) && !Duplicate(st, op) && op.Join? && p < NShards
    ensures var before, after := Last(st.configs).shards, Last(Applied(st, op).configs).shards;
      && |after| == NShards
      && (before[p] != 0 && after[p] != before[p] ==> Count(after, before[p]) < Count(before, before[p]))
  {
    var last := Last(st.configs);
    var groups := last.groups + op.servers;
    if last.shards[p] != 0 {
      AssignmentKeeps(groups.Keys, last.shards, p);
    }
    AssignmentSize(groups.Keys, last.shards);
    hide Assignment, Count;
  }

  lemma AssignmentSize(gids: set<int>, shards: seq<int>)
    requires |shards| == NShards
    ensures |Assignment(gids, shards)| == NShards
  {}

  /** And through a leave of others: those only hand theirs out. */
  lemma LeaveKeeps(st: State, op: Op, p: nat)
    requires Shaped(st.configs) && WellFormed(op) && !Duplicate(st, op) && op.Leave? && p < NShards
    ensures var before, after := Last(st.configs).shards, Last(Applied(st, op).configs).shards;
      && |after| == NShards
      && (before[p] != 0 && before[p] !in op.gids && after[p] != before[p] ==>
            Count(after, before[p]) < Count(before, before[p]))
  {
    var last := Last(st.configs);
    var groups, freed := last.groups - Elems(op.gids), Freed(last.shards, op.gids);
    if last.shards[p] != 0 && last.shards[p] !in op.gids {
      AssignmentKeeps(groups.Keys, freed, p);
      FreedCounts(last.shards, op.gids, last.shards[p]);
    }
    AssignmentSize(groups.Keys, freed);
    hide Assignment, Count;
  }

  lemma {:induction false} FreedCounts(shards: seq<int>, gids: seq<int>, x: int)
    requires x != 0 && x !in gids
    ensures Count(Freed(shards, gids), x) == Count(shards, x)
  {
    if shards != [] {
      var n := |shards| - 1;
      FreedCounts(shards[..n], gids, x);
      CountAppend(Freed(shards[..n], gids), x, if shards[n] in gids then 0 else shards[n]);
    }
  }

  // ----- a whole log

  /** Command `i` of the log is not a repetition. */
  ghost predicate CarriedOut(ops: seq<Op>, i: nat)
    requires AllWellFormed(ops)
  {
    i < |ops| && !Duplicate(Replayed(Fresh, ops[..i]), ops[i])
  }

  /** Command `i` is the last one carried out that names the group. */
  ghost predicate LastNaming(ops: seq<Op>, gid: int, i: nat)
    requires AllWellFormed(ops)
  {
    && i < |ops| && CarriedOut(ops, i) && Names(ops[i], gid)
    && forall j: nat :: i < j < |ops| && CarriedOut(ops, j) ==> !Names(ops[j], gid)
  }

  lemma CarriedPrefix(ops: seq<Op>, n: nat, i: nat)
    requires AllWellFormed(ops) && n <= |ops| && i < n
    ensures AllWellFormed(ops[..n]) && (CarriedOut(ops[..n], i) <==> CarriedOut(ops, i))
  {
    assert ops[..n][..i] == ops[..i];
  }

  lemma NamingPrefix(ops: seq<Op>, gid: int, i: nat)
    requires AllWellFormed(ops) && ops != []
    ensures var n := |ops| - 1;
      && AllWellFormed(ops[..n])
      && (CarriedOut(ops, n) && Names(ops[n], gid) ==> (LastNaming(ops, gid, i) <==> i == n))
      && (!(CarriedOut(ops, n) && Names(ops[n], gid)) ==> (LastNaming(ops, gid, i) <==> LastNaming(ops[..n], gid, i)))
  {
    hide CarriedOut, Names;
    var n := |ops| - 1;
    forall j: nat | j < n ensures AllWellFormed(ops[..n]) && (CarriedOut(ops[..n], j) <==> CarriedOut(ops, j)) {
      CarriedPrefix(ops, n, j);
    }
  }

  /** The last join or leave carried out that names a group decides whether it is listed, and with which servers. */
  lemma {:induction false} ListedIff(ops: seq<Op>, gid: int)
    requires AllWellFormed(ops)
    ensures var groups := Last(Replayed(Fresh, ops).configs).groups;
      && (gid in groups <==> exists i: nat :: LastNaming(ops, gid, i) && ops[i].Join?)
      && forall i: nat :: LastNaming(ops, gid, i) && ops[i].Join? ==>
           gid in groups && groups[gid] == ops[i].servers[gid]
  {
    if ops != [] {
      var n := |ops| - 1;
      var before := Replayed(Fresh, ops[..n]);
      ListedIff(ops[..n], gid);
      forall i: nat ensures
        && (CarriedOut(ops, n) && Names(ops[n], gid) ==> (LastNaming(ops, gid, i) <==> i == n))
        && (!(CarriedOut(ops, n) && Names(ops[n], gid)) ==> (LastNaming(ops, gid, i) <==> LastNaming(ops[..n], gid, i)))
      {
        NamingPrefix(ops, gid, i);
      }
      hide LastNaming, Applied, Names;
      if !Duplicate(before, ops[n]) {
        GroupsAfter(before, ops[n], gid);
      } else {
        RepeatedNothing(before, ops[n]);
      }
    }
  }

  lemma RepeatedNothing(st: State, op: Op)
    requires Shaped(st.configs) && WellFormed(op) && Duplicate(st, op)
    ensures Applied(st, op) == st
  {}

  // ----- repetitions

  /** Command `j` is the last of the client among the first `n`. */
  ghost predicate LastOf(ops: seq<Op>, n: nat, client: int, j: nat)
    requires n <= |ops|
  {
    j < n && ops[j].client == client && forall k :: j < k < n ==> ops[k].client != client
  }

  /** The table has the number of the client's last command, carried out or not. */
  ghost predicate Remembers(table: map<int, int>, ops: seq<Op>, client: int)
  {
    && (client in table <==> exists k: nat :: LastOf(ops, |ops|, client, k))
    && forall k: nat :: LastOf(ops, |ops|, client, k) ==> client in table && table[client] == ops[k].sequence
  }

  lemma RemembersNext(table: map<int, int>, ops: seq<Op>, client: int)
    requires ops != [] && Remembers(table, ops[..|ops| - 1], client)
    ensures var op := ops[|ops| - 1]; Remembers(table[op.client := op.sequence], ops, client)
  {
    var n := |ops| - 1;
    forall k: nat ensures LastOf(ops, n + 1, client, k) <==>
      if ops[n].client == client then k == n else LastOf(ops[..n], n, client, k)
    {
      LastOfNext(ops, client, k);
    }
    hide LastOf;
    if ops[n].client == client {
      assert LastOf(ops, n + 1, client, n);
    }
  }

  lemma {:induction false} TableIs(ops: seq<Op>, client: int)
    requires AllWellFormed(ops)
    ensures Remembers(Replayed(Fresh, ops).duptable, ops, client)
  {
    if ops != [] {
      var n := |ops| - 1;
      TableIs(ops[..n], client);
      ReplayedNext(Fresh, ops);
      hide Replayed, Applied, Remembers;
      TableAfter(Replayed(Fresh, ops[..n]), ops[n]);
      RemembersNext(Replayed(Fresh, ops[..n]).duptable, ops, client);
    }
  }

  lemma LastOfNext(ops: seq<Op>, client: int, k: nat)
    requires ops != []
    ensures var n := |ops| - 1;
      LastOf(ops, n + 1, client, k) <==> if ops[n].client == client then k == n else LastOf(ops[..n], n, client, k)
  {}

  /** A command is ignored exactly if it has the number of the command its client sent before it. */
  lemma IgnoredIff(ops: seq<Op>, i: nat)
    requires AllWellFormed(ops) && i < |ops|
    ensures !CarriedOut(ops, i) <==>
      exists j: nat :: LastOf(ops, i, ops[i].client, j) && ops[j].sequence == ops[i].sequence
  {
    var before, client := ops[..i], ops[i].client;
    forall j: nat ensures LastOf(before, i, client, j) <==> LastOf(ops, i, client, j) {}
    hide Replayed, LastOf;
    TableIs(before, client);
  }

  lemma TableAfter(st: State, op: Op)
    requires Shaped(st.configs) && WellFormed(op)
    ensures Applied(st, op).duptable == st.duptable[op.client := op.sequence]
  {}
}
