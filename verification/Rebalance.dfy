/** `balance`: the two passes over the array, and what they achieve. */
module Rebalance {
  import opened Sequences
  import opened ShardBalance

  // ----- what the result is

  lemma OrderFacts(counts: map<int, nat>, shards: seq<int>)
    requires Describes(counts, shards)
    ensures var order := OrderOf(counts);
      && OrderOk(counts, order) && |order| == |counts| && Elems(order) == counts.Keys
      && forall i: nat :: i < |order| ==> order[i] in counts && Count(shards, order[i]) == Load(counts, order[i])
  {
    var order := OrderOf(counts);
    assert 0 !in Elems(order);
    forall i: nat | i < |order| ensures order[i] in counts {
      assert order[i] in Elems(order);
    }
  }

  lemma RebalancedOk(shards: seq<int>, counts: map<int, nat>)
    requires |shards| == NShards && Describes(counts, shards)
    ensures var order := OrderOf(counts);
      && FillOk(shards, counts, order, |order|, Rebalanced(shards, counts)) && Count(Rebalanced(shards, counts), 0) == 0
  {
    hide Count, Moved, Target, FillOk, ReleaseOk;
    OrderFacts(counts, shards);
    var order := OrderOf(counts);
    var released := Released(shards, counts, order, |order|);
    ReleasedOk(shards, counts, order, |order|);
    LackIsFree(counts, shards, order);
    FilledOk(shards, counts, order, released, |order|);
    NoneFree(shards, counts, order, Filled(released, counts, order, |order|));
  }

  lemma NoneFree(shards: seq<int>, counts: map<int, nat>, order: seq<int>, r: seq<int>)
    requires |r| == |shards| && FillOk(shards, counts, order, |order|, r)
    ensures Count(r, 0) == 0
  {}

  /** Every group has exactly its share. */
  lemma ExactShares(shards: seq<int>, counts: map<int, nat>, i: nat)
    requires |shards| == NShards && Describes(counts, shards) && i < |counts|
    ensures Count(Rebalanced(shards, counts), OrderOf(counts)[i]) == Target(|counts|, i)
  {
    RebalancedOk(shards, counts);
    hide Count, Moved, Target;
    var order := OrderOf(counts);
    assert Over(counts, order, i) >= 0;
  }

  /** Every shard belongs to a listed group. */
  lemma AllAssigned(shards: seq<int>, counts: map<int, nat>, p: nat)
    requires |shards| == NShards && Describes(counts, shards) && p < NShards
    ensures Rebalanced(shards, counts)[p] in counts
  {
    RebalancedOk(shards, counts);
    OrderFacts(counts, shards);
    var r := Rebalanced(shards, counts);
    CountPositive(r, 0);
    hide Count, Moved, Target, Rebalanced;
    assert r[p] in r;
    if r[p] != shards[p] {
      var i: nat :| i < |counts| && OrderOf(counts)[i] == r[p] && Lack(counts, OrderOf(counts), i) > 0;
    }
  }

  /** Sizes differ by at most one. */
  lemma NearlyEqual(shards: seq<int>, counts: map<int, nat>, a: int, b: int)
    requires |shards| == NShards && Describes(counts, shards) && a in counts && b in counts
    ensures Count(Rebalanced(shards, counts), a) <= Count(Rebalanced(shards, counts), b) + 1
  {
    var order := OrderOf(counts);
    assert a in Elems(order) && b in Elems(order);
    var i: nat :| i < |order| && order[i] == a;
    var j: nat :| j < |order| && order[j] == b;
    ExactShares(shards, counts, i);
    ExactShares(shards, counts, j);
  }

  /** Only a group with more than its share loses shards. */
  lemma OthersKeep(shards: seq<int>, counts: map<int, nat>, p: nat)
    requires |shards| == NShards && Describes(counts, shards) && p < NShards && shards[p] != 0
    ensures var r := Rebalanced(shards, counts);
      r[p] != shards[p] ==> Count(r, shards[p]) < Count(shards, shards[p])
  {
    RebalancedOk(shards, counts);
    OrderFacts(counts, shards);
    hide Count, Moved, Target, Rebalanced;
    var r, order := Rebalanced(shards, counts), OrderOf(counts);
    if r[p] != shards[p] {
      var i: nat :| i < |order| && order[i] == shards[p] && Over(counts, order, i) > 0;
    }
  }

  // ----- no assignment with the same shares moves fewer shards

  /** The owner each moved shard lost; zero for the others. */
  ghost function Lost(before: seq<int>, after: seq<int>): (l: seq<int>)
    requires |before| == |after|
    ensures |l| == |before|
  {
    if before == [] then []
    else
      var n := |before| - 1;
      Lost(before[..n], after[..n]) + [if after[n] == before[n] then 0 else before[n]]
  }

  lemma {:induction false} LostFacts(before: seq<int>, after: seq<int>, x: int)
    requires |before| == |after| && x != 0
    ensures Count(before, x) <= Count(Lost(before, after), x) + Count(after, x)
    ensures Moved(before, after) + Count(Lost(before, after), 0) == |before|
    ensures forall p :: 0 <= p < |before| ==> Lost(before, after)[p] == 0 || Lost(before, after)[p] == before[p]
  {
    if before != [] {
      var n := |before| - 1;
      LostFacts(before[..n], after[..n], x);
      var l := Lost(before[..n], after[..n]);
      var y := if after[n] == before[n] then 0 else before[n];
      CountAppend(l, x, y);
      CountAppend(l, 0, y);
    }
  }

  lemma {:induction false} OverIsLost(before: seq<int>, after: seq<int>, counts: map<int, nat>, order: seq<int>, g: nat)
    requires |before| == |after| && Describes(counts, before) && g <= |order| && |order| > 0
    requires forall i: nat :: i < |order| ==>
      order[i] in counts && Count(before, order[i]) == Load(counts, order[i]) &&
        Count(after, order[i]) == Target(|order|, i)
    ensures OverSum(counts, order, g) <= Sum(order[..g], CountIn(Lost(before, after)))
  {
    hide Count, Target, Moved;
    if g > 0 {
      OverIsLost(before, after, counts, order, g - 1);
      assert order[..g][..g - 1] == order[..g - 1];
      LostFacts(before, after, order[g - 1]);
      assert CountIn(Lost(before, after))(order[g - 1]) == Count(Lost(before, after), order[g - 1]);
    }
  }

  /** Any assignment giving every group the same share takes away at least the sum of the overloads. */
  lemma FewestMoves(shards: seq<int>, counts: map<int, nat>, other: seq<int>)
    requires |shards| == |other| == NShards && Describes(counts, shards)
    requires forall i: nat :: i < |counts| ==> Count(other, OrderOf(counts)[i]) == Target(|counts|, i)
    ensures Moved(shards, Rebalanced(shards, counts)) == OverSum(counts, OrderOf(counts), |counts|)
    ensures Moved(shards, Rebalanced(shards, counts)) <= Moved(shards, other)
  {
    RebalancedOk(shards, counts);
    OrderFacts(counts, shards);
    hide Count, Target, Moved, Rebalanced;
    var order, lost := OrderOf(counts), Lost(shards, other);
    OverIsLost(shards, other, counts, order, |order|);
    assert order[..|order|] == order;
    LostFacts(shards, other, order[0]);
    forall p | 0 <= p < |lost| ensures lost[p] == 0 || lost[p] in order {
      assert lost[p] == 0 || lost[p] in Elems(order);
    }
    CountsSum(lost, order);
  }

  // ----- the remainder goes to the tail, so an even assignment is not left alone

  /** Every shard is owned, and every group has the average or one more. */
  ghost predicate Even(counts: map<int, nat>, shards: seq<int>)
  {
    && Count(shards, 0) == 0
    && forall gid :: gid in counts ==> NShards / |counts| <= counts[gid] <= NShards / |counts| + 1
  }

  /** The first `h` of the first `g` groups have one more than `avg`, the others `avg`. */
  ghost predicate Heavy(counts: map<int, nat>, order: seq<int>, avg: nat, g: nat, h: nat)
    requires g <= |order|
  {
    h <= g && forall i: nat :: i < g ==> Load(counts, order[i]) == avg + if i < h then 1 else 0
  }

  ghost predicate Descending(counts: map<int, nat>, order: seq<int>)
  {
    forall i: nat, j: nat :: i < j < |order| ==> Load(counts, order[i]) >= Load(counts, order[j])
  }

  lemma OrderDescends(counts: map<int, nat>, order: seq<int>)
    requires IsOrder(counts, order)
    ensures Descending(counts, order)
  {
    forall i: nat, j: nat | i < j < |order| ensures Load(counts, order[i]) >= Load(counts, order[j]) {
      assert !Less(counts)(order[j], order[i]);
    }
  }

  /** Among groups with equally many shards, those with larger ids come first. */
  lemma TiesByGid(counts: map<int, nat>, i: nat, j: nat)
    requires i < j < |counts|
    ensures var a, b := OrderOf(counts)[i], OrderOf(counts)[j];
      Load(counts, a) > Load(counts, b) || (Load(counts, a) == Load(counts, b) && a > b)
  {
    var order := OrderOf(counts);
    assert !Less(counts)(order[j], order[i]) && order[i] != order[j];
  }

  ghost function Times(a: nat, b: nat): nat
  {
    a * b
  }

  lemma TimesNext(a: nat, b: nat)
    ensures Times(a, 0) == 0 && Times(a, b + 1) == Times(a, b) + a
  {}

  lemma TimesDivides(n: nat)
    requires n > 0
    ensures NShards == Times(NShards / n, n) + NShards % n
  {}

  lemma {:induction false} HeavyFirst(counts: map<int, nat>, shards: seq<int>, order: seq<int>, avg: nat, g: nat)
    returns (h: nat)
    requires g <= |order| && Descending(counts, order)
    requires forall i: nat :: i < |order| ==> avg <= Load(counts, order[i]) == Count(shards, order[i]) <= avg + 1
    ensures Heavy(counts, order, avg, g, h) && Sum(order[..g], CountIn(shards)) == Times(avg, g) + h
  {
    hide Times, Count;
    TimesNext(avg, if g > 0 then g - 1 else 0);
    h := 0;
    if g > 0 {
      h := HeavyFirst(counts, shards, order, avg, g - 1);
      assert order[..g][..g - 1] == order[..g - 1];
      assert CountIn(shards)(order[g - 1]) == Load(counts, order[g - 1]);
      if Load(counts, order[g - 1]) == avg + 1 {
        assert g >= 2 ==> Load(counts, order[g - 2]) >= Load(counts, order[g - 1]);
        h := h + 1;
      }
    }
  }

  lemma {:induction false} HeavyOver(counts: map<int, nat>, order: seq<int>, g: nat)
    requires g <= |order| && |order| > 0 && Heavy(counts, order, NShards / |order|, |order|, NShards % |order|)
    ensures OverSum(counts, order, g) == Min(g, Min(NShards % |order|, |order| - NShards % |order|))
  {
    if g > 0 {
      HeavyOver(counts, order, g - 1);
      TargetIs(|order|, g - 1);
      hide Target;
    }
  }

  lemma AllOwned(shards: seq<int>, counts: map<int, nat>)
    requires Describes(counts, shards) && Count(shards, 0) == 0
    ensures Sum(OrderOf(counts), CountIn(shards)) == |shards|
  {
    var order := OrderOf(counts);
    OrderFacts(counts, shards);
    forall p | 0 <= p < |shards| ensures shards[p] == 0 || shards[p] in order {
      assert shards[p] == 0 || shards[p] in Elems(order);
    }
    CountsSum(shards, order);
  }

  /** Rebalancing an even assignment still moves shards, unless the groups divide them evenly. */
  lemma EvenStillMoves(shards: seq<int>, counts: map<int, nat>)
    requires |shards| == NShards && Describes(counts, shards) && Even(counts, shards)
    ensures var n := |counts|; Moved(shards, Rebalanced(shards, counts)) == Min(NShards % n, n - NShards % n)
  {
    hide *;
    var order := OrderOf(counts);
    MovedIsOver(shards, counts);
    EvenFacts(shards, counts);
    AllOwned(shards, counts);
    OrderDescends(counts, order);
    var h := HeavyFirst(counts, shards, order, NShards / |order|, |order|);
    assert order[..|order|] == order;
    TimesDivides(|order|);
    HeavyOver(counts, order, |order|);
    MinIs(|order|, NShards % |order|);
  }

  lemma {:induction false} CountConcat(a: seq<int>, b: seq<int>, x: int)
    ensures Count(a + b, x) == Count(a, x) + Count(b, x)
  {
    if b == [] {
      assert a + b == a;
    } else {
      var n := |b| - 1;
      CountConcat(a, b[..n], x);
      CountAppend(a + b[..n], x, b[n]);
      assert a + b[..n] + [b[n]] == a + b;
    }
  }

  lemma CountRun(gid: int, x: int)
    ensures Count([gid, gid, gid], x) == (if x == gid then 3 else 0) && Count([gid], x) == if x == gid then 1 else 0
  {
    CountAppend([], x, gid);
    CountAppend([gid], x, gid);
    CountAppend([gid, gid], x, gid);
    assert [] + [gid] == [gid] && [gid] + [gid] == [gid, gid] && [gid, gid] + [gid] == [gid, gid, gid];
  }

  /**
   Fewest moves over all even assignments is too much to ask: four, three and three shards are even
   already, and one of them is moved.
   */
  lemma EvenButMoved()
    ensures var shards, counts := [1, 1, 1, 1, 2, 2, 2, 3, 3, 3], map[1 := 4, 2 := 3, 3 := 3];
      && |shards| == NShards && Describes(counts, shards) && Even(counts, shards)
      && Moved(shards, shards) == 0 && Moved(shards, Rebalanced(shards, counts)) == 1
  {
    var shards, counts := [1, 1, 1, 1, 2, 2, 2, 3, 3, 3], map[1 := 4, 2 := 3, 3 := 3];
    assert shards == [1] + [1, 1, 1] + [2, 2, 2] + [3, 3, 3];
    forall x ensures Count(shards, x) == if x == 1 then 4 else if x == 2 || x == 3 then 3 else 0 {
      hide Count;
      CountRun(1, x);
      CountRun(2, x);
      CountRun(3, x);
      CountConcat([1], [1, 1, 1], x);
      CountConcat([1] + [1, 1, 1], [2, 2, 2], x);
      CountConcat([1] + [1, 1, 1] + [2, 2, 2], [3, 3, 3], x);
    }
    hide Count, Moved, Rebalanced;
    assert counts.Keys == {1, 2, 3} && |counts.Keys| == 3;
    assert |counts| == |counts.Keys|;
    MovedNone(shards);
    EvenStillMoves(shards, counts);
  }

  lemma EvenFacts(shards: seq<int>, counts: map<int, nat>)
    requires Describes(counts, shards) && Even(counts, shards)
    ensures var order := OrderOf(counts);
      && 0 < |order| == |counts| && Count(shards, 0) == 0
      && forall i: nat :: i < |order| ==>
        NShards / |order| <= Load(counts, order[i]) == Count(shards, order[i]) <= NShards / |order| + 1
  {
    OrderFacts(counts, shards);
  }

  lemma MinIs(n: nat, r: nat)
    requires r <= n
    ensures Min(n, Min(r, n - r)) == Min(r, n - r)
  {}

  lemma MovedIsOver(shards: seq<int>, counts: map<int, nat>)
    requires |shards| == NShards && Describes(counts, shards)
    ensures Moved(shards, Rebalanced(shards, counts)) == OverSum(counts, OrderOf(counts), |counts|)
  {
    RebalancedOk(shards, counts);
    hide Count, Moved, Rebalanced, Target;
  }

  // ----- the code

  /** Where the counts stand when a pass has dealt with the first `g` groups. */
  ghost predicate CountsAt(cnt: map<int, nat>, counts: map<int, nat>, order: seq<int>, released: nat, filled: nat)
  {
    forall i: nat :: i < |order| ==> order[i] in cnt && cnt[order[i]] == CountAt(counts, order, released, filled, i)
  }

  ghost function CountAt(counts: map<int, nat>, order: seq<int>, released: nat, filled: nat, i: nat): int
    requires i < |order|
  {
    Load(counts, order[i]) - (if i < released then Over(counts, order, i) else 0) +
      if i < filled then Lack(counts, order, i) else 0
  }

  lemma ReleaseCounts(cnt: map<int, nat>, counts: map<int, nat>, order: seq<int>, g: nat)
    requires Distinct(order) && g < |order| && CountsAt(cnt, counts, order, g, 0) && order[g] in cnt
    ensures var gid, target := order[g], Target(|order|, g);
      && CountsAt(if cnt[gid] > target then cnt[gid := target] else cnt, counts, order, g + 1, 0)
      && Over(counts, order, g) == if cnt[gid] > target then cnt[gid] - target else 0
  {
    hide Target;
  }

  lemma FillCounts(cnt: map<int, nat>, counts: map<int, nat>, order: seq<int>, g: nat)
    requires Distinct(order) && g < |order| && CountsAt(cnt, counts, order, |order|, g) && order[g] in cnt
    ensures var gid, target := order[g], Target(|order|, g);
      && CountsAt(if cnt[gid] < target then cnt[gid := target] else cnt, counts, order, |order|, g + 1)
      && Lack(counts, order, g) == if cnt[gid] < target then target - cnt[gid] else 0
  {
    hide Target;
  }

  lemma CountsHave(cnt: map<int, nat>, counts: map<int, nat>, order: seq<int>, released: nat, filled: nat, i: nat)
    requires i < |order| && CountsAt(cnt, counts, order, released, filled)
    ensures order[i] in cnt
  {}

  lemma CountsStart(counts: map<int, nat>, order: seq<int>)
    requires forall i: nat :: i < |order| ==> order[i] in counts
    ensures CountsAt(counts, counts, order, 0, 0)
  {}

  lemma TargetIs(n: nat, g: nat)
    requires n > 0
    ensures Target(n, g) == if g >= n - NShards % n then NShards / n + 1 else NShards / n
  {}

  lemma PassesStart(shards: seq<int>, counts: map<int, nat>, order: seq<int>)
    ensures Released(shards, counts, order, 0) == shards && Filled(shards, counts, order, 0) == shards
  {}

  lemma ReleasedNext(shards: seq<int>, counts: map<int, nat>, order: seq<int>, g: nat)
    requires g < |order|
    ensures Released(shards, counts, order, g + 1) ==
      Replaced(Released(shards, counts, order, g), order[g], 0, Over(counts, order, g))
  {}

  lemma FilledNext(shards: seq<int>, counts: map<int, nat>, order: seq<int>, g: nat)
    requires g < |order|
    ensures Filled(shards, counts, order, g + 1) ==
      Replaced(Filled(shards, counts, order, g), 0, order[g], Lack(counts, order, g))
  {}

  lemma RebalancedIs(shards: seq<int>, counts: map<int, nat>)
    ensures var order := OrderOf(counts);
      Rebalanced(shards, counts) == Filled(Released(shards, counts, order, |order|), counts, order, |order|)
  {}

  /** All of the above in one place. */
  lemma RebalancedFacts(shards: seq<int>, counts: map<int, nat>)
    requires |shards| == NShards && Describes(counts, shards)
    ensures var r := Rebalanced(shards, counts);
      && |r| == NShards && (forall p :: 0 <= p < NShards ==> r[p] in counts)
      && (forall i: nat :: i < |counts| ==> Count(r, OrderOf(counts)[i]) == Target(|counts|, i))
      && (forall a, b :: a in counts && b in counts ==> Count(r, a) <= Count(r, b) + 1)
      && (forall p :: 0 <= p < NShards && shards[p] != 0 && r[p] != shards[p] ==>
            Count(r, shards[p]) < Count(shards, shards[p]))
      && Moved(shards, r) == OverSum(counts, OrderOf(counts), |counts|)
  {
    hide *;
    var r := Rebalanced(shards, counts);
    forall i: nat | i < |counts| ensures Count(r, OrderOf(counts)[i]) == Target(|counts|, i) {
      ExactShares(shards, counts, i);
    }
    forall p: nat | p < NShards
      ensures r[p] in counts
      ensures shards[p] != 0 && r[p] != shards[p] ==> Count(r, shards[p]) < Count(shards, shards[p])
    {
      AllAssigned(shards, counts, p);
      if shards[p] != 0 {
        OthersKeep(shards, counts, p);
      }
    }
    forall a, b | a in counts && b in counts ensures Count(r, a) <= Count(r, b) + 1 {
      NearlyEqual(shards, counts, a, b);
    }
    FewestMoves(shards, counts, r);
  }

  /** The first pass: overloaded groups give up shards. */
  method ReleasePass(shards: array<int>, counts: map<int, nat>, sortedGids: seq<int>) returns (cnt: map<int, nat>)
    requires |sortedGids| > 0 && Distinct(sortedGids)
    requires forall i :: 0 <= i < |sortedGids| ==> sortedGids[i] != 0 && sortedGids[i] in counts
    modifies shards
    ensures shards[..] == Released(old(shards[..]), counts, sortedGids, |sortedGids|)
    ensures CountsAt(cnt, counts, sortedGids, |sortedGids|, 0)
  {
    hide *;
    ghost var was := shards[..];
    var n := |sortedGids|;
    var avg, remainder := NShards / n, NShards % n;
    cnt := counts;
    PassesStart(was, counts, sortedGids);
    CountsStart(counts, sortedGids);
    for gidx := 0 to n
      invariant CountsAt(cnt, counts, sortedGids, gidx, 0)
      invariant shards[..] == Released(was, counts, sortedGids, gidx)
    {
      var gid := sortedGids[gidx];
      var target := if gidx >= n - remainder then avg + 1 else avg;
      TargetIs(n, gidx);
      CountsHave(cnt, counts, sortedGids, gidx, 0, gidx);
      ReleaseCounts(cnt, counts, sortedGids, gidx);
      ReleasedNext(was, counts, sortedGids, gidx);
      ReplacedNone(shards[..], gid, 0);
      if cnt[gid] > target {
        ReplaceFirst(shards, gid, 0, cnt[gid] - target);
        cnt := cnt[gid := target];
      }
    }
  }

  /** The second pass: the free shards go to the underloaded groups. */
  method FillPass(shards: array<int>, ghost counts: map<int, nat>, g2ShardCnt: map<int, nat>, sortedGids: seq<int>)
    requires |sortedGids| > 0 && Distinct(sortedGids) && forall i :: 0 <= i < |sortedGids| ==> sortedGids[i] != 0
    requires CountsAt(g2ShardCnt, counts, sortedGids, |sortedGids|, 0)
    modifies shards
    ensures shards[..] == Filled(old(shards[..]), counts, sortedGids, |sortedGids|)
  {
    hide *;
    ghost var was := shards[..];
    var n := |sortedGids|;
    var avg, remainder := NShards / n, NShards % n;
    var cnt: map<int, nat> := g2ShardCnt;
    PassesStart(was, counts, sortedGids);
    for gidx := 0 to n
      invariant CountsAt(cnt, counts, sortedGids, n, gidx)
      invariant shards[..] == Filled(was, counts, sortedGids, gidx)
    {
      var gid := sortedGids[gidx];
      var target := if gidx >= n - remainder then avg + 1 else avg;
      TargetIs(n, gidx);
      CountsHave(cnt, counts, sortedGids, n, gidx, gidx);
      FillCounts(cnt, counts, sortedGids, gidx);
      FilledNext(was, counts, sortedGids, gidx);
      ReplacedNone(shards[..], 0, gid);
      if cnt[gid] < target {
        ReplaceFirst(shards, 0, gid, target - cnt[gid]);
        cnt := cnt[gid := target];
      }
    }
  }

  lemma OrderOkFacts(counts: map<int, nat>, order: seq<int>)
    requires OrderOk(counts, order)
    ensures Distinct(order) && |order| > 0 && forall i :: 0 <= i < |order| ==> order[i] != 0
  {
    forall i | 0 <= i < |order| ensures order[i] != 0 {
      assert order[i] in order;
    }
  }

  /** The array is a copy of the caller's. */
  method Balance(g2ShardCnt: map<int, nat>, oldShards: seq<int>) returns (r: seq<int>)
    requires |oldShards| == NShards && Describes(g2ShardCnt, oldShards)
    ensures r == Rebalanced(oldShards, g2ShardCnt)
    ensures |r| == NShards && forall p :: 0 <= p < NShards ==> r[p] in g2ShardCnt
    ensures forall i: nat :: i < |g2ShardCnt| ==> Count(r, OrderOf(g2ShardCnt)[i]) == Target(|g2ShardCnt|, i)
    ensures forall a, b :: a in g2ShardCnt && b in g2ShardCnt ==> Count(r, a) <= Count(r, b) + 1
    ensures forall p :: 0 <= p < NShards && oldShards[p] != 0 && r[p] != oldShards[p] ==>
      Count(r, oldShards[p]) < Count(oldShards, oldShards[p])
    ensures Moved(oldShards, r) == OverSum(g2ShardCnt, OrderOf(g2ShardCnt), |g2ShardCnt|)
  {
    OrderFacts(g2ShardCnt, oldShards);
    hide *;
    var sortedGids := SortGids(g2ShardCnt);
    OrderOkFacts(g2ShardCnt, sortedGids);
    var shards := new int[NShards];
    forall i | 0 <= i < NShards {
      shards[i] := oldShards[i];
    }
    assert shards[..] == oldShards;
    var cnt := ReleasePass(shards, g2ShardCnt, sortedGids);
    FillPass(shards, g2ShardCnt, cnt, sortedGids);
    r := shards[..];
    RebalancedIs(oldShards, g2ShardCnt);
    RebalancedFacts(oldShards, g2ShardCnt);
  }
}
