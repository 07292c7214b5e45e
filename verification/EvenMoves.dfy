/**
 When `balance` moves as few shards as any even assignment would: exactly if the groups divide the
 shards evenly or no group has more than the average.
 */
module EvenMoves {
  import opened Sequences
  import opened ShardBalance
  import opened Rebalance

  /** Every shard is with a listed group, and every group has the average or one more. */
  ghost predicate EvenOver(counts: map<int, nat>, other: seq<int>)
    requires |counts| > 0
  {
    && |other| == NShards && (forall p :: 0 <= p < NShards ==> other[p] in counts)
    && forall gid :: gid in counts ==> NShards / |counts| <= Count(other, gid) <= NShards / |counts| + 1
  }

  // ----- changing one shard

  lemma {:induction false} CountUpdate(s: seq<int>, p: nat, y: int, x: int)
    requires p < |s|
    ensures Count(s[p := y], x) + (if s[p] == x then 1 else 0) == Count(s, x) + if y == x then 1 else 0
  {
    var n, s' := |s| - 1, s[p := y];
    if p < n {
      CountUpdate(s[..n], p, y, x);
      assert s'[..n] == s[..n][p := y];
    } else {
      assert s'[..n] == s[..n];
    }
  }

  ghost function MovedAt(before: seq<int>, p: nat, owner: int): nat
    requires p < |before|
  {
    if before[p] != 0 && owner != before[p] then 1 else 0
  }

  lemma {:induction false} MovedUpdate(before: seq<int>, after: seq<int>, p: nat, y: int)
    requires p < |before| == |after|
    ensures Moved(before, after[p := y]) + MovedAt(before, p, after[p]) == Moved(before, after) + MovedAt(before, p, y)
  {
    var n, after' := |after| - 1, after[p := y];
    if p < n {
      MovedUpdate(before[..n], after[..n], p, y);
      assert after'[..n] == after[..n][p := y];
    } else {
      assert after'[..n] == after[..n];
    }
  }

  lemma {:induction false} GainedSomewhere(a: seq<int>, b: seq<int>, x: int) returns (p: nat)
    requires |a| == |b| && Count(a, x) < Count(b, x)
    ensures p < |a| && a[p] != x && b[p] == x
  {
    p := |a| - 1;
    if a[p] == x || b[p] != x {
      p := GainedSomewhere(a[..p], b[..p], x);
    }
  }

  // ----- sums over the groups

  /** What one group has above a common bound is in the sum above the common bound. */
  lemma {:induction false} SumAtLeast(s: seq<int>, order: seq<int>, least: nat, g: nat, i: nat)
    requires i < g <= |order| && forall j: nat :: j < |order| ==> least <= Count(s, order[j])
    ensures Sum(order[..g], CountIn(s)) + least >= Times(least, g) + Count(s, order[i])
  {
    hide Times, Count;
    TimesNext(least, g - 1);
    assert order[..g][..g - 1] == order[..g - 1];
    assert CountIn(s)(order[g - 1]) == Count(s, order[g - 1]);
    if g == 1 {
      assert order[..0] == [];
    } else {
      SumAtLeast(s, order, least, g - 1, if i < g - 1 then i else 0);
    }
  }

  lemma SumIs(s: seq<int>, counts: map<int, nat>)
    requires |counts| > 0 && 0 !in counts && forall p :: 0 <= p < |s| ==> s[p] == 0 || s[p] in counts
    ensures Sum(OrderOf(counts), CountIn(s)) + Count(s, 0) == |s|
  {
    var order := OrderOf(counts);
    assert 0 !in Elems(order);
    forall p | 0 <= p < |s| ensures s[p] == 0 || s[p] in order {
      assert s[p] == 0 || s[p] in Elems(order);
    }
    CountsSum(s, order);
  }

  lemma OrderHas(counts: map<int, nat>, gid: int) returns (i: nat)
    requires gid in counts
    ensures i < |counts| && OrderOf(counts)[i] == gid
  {
    var order := OrderOf(counts);
    assert gid in Elems(order);
    i :| i < |order| && order[i] == gid;
  }

  lemma OrderListed(counts: map<int, nat>, i: nat)
    requires i < |counts|
    ensures OrderOf(counts)[i] in counts
  {
    assert OrderOf(counts)[i] in Elems(OrderOf(counts));
  }

  // ----- where the code is best

  /** If the groups divide the shards evenly, an even assignment has the shares of the code. */
  lemma EvenIsTarget(counts: map<int, nat>, other: seq<int>, i: nat)
    requires 0 !in counts && i < |counts| && NShards % |counts| == 0 && EvenOver(counts, other)
    ensures Count(other, OrderOf(counts)[i]) == Target(|counts|, i)
  {
    var order, n := OrderOf(counts), |counts|;
    SumIs(other, counts);
    TimesDivides(n);
    TargetIs(n, i);
    hide Target, Times, Count;
    forall j: nat | j < n ensures NShards / n <= Count(other, order[j]) {
      OrderListed(counts, j);
    }
    SumAtLeast(other, order, NShards / n, n, i);
    assert order[..n] == order;
  }

  lemma {:induction false} NothingOver(counts: map<int, nat>, order: seq<int>, g: nat)
    requires g <= |order| && |order| > 0 && forall gid :: gid in counts ==> counts[gid] <= NShards / |order|
    ensures OverSum(counts, order, g) == 0
  {
    if g > 0 {
      NothingOver(counts, order, g - 1);
      TargetIs(|order|, g - 1);
    }
  }

  // ----- where it is not

  lemma SharesFit(shards: seq<int>, counts: map<int, nat>, least: nat)
    requires |shards| == NShards && Describes(counts, shards)
    requires forall j: nat :: j < |counts| ==> least <= Count(shards, OrderOf(counts)[j])
    ensures Times(least, |counts|) <= NShards
  {
    hide Times, Count;
    SumIs(shards, counts);
    SumAtLeast(shards, OrderOf(counts), least, |counts|, 0);
    assert OrderOf(counts)[..|counts|] == OrderOf(counts);
  }

  /** The last group lacks a shard: were all above the average, there would be more shards than there are. */
  lemma LastBelow(shards: seq<int>, counts: map<int, nat>)
    requires |shards| == NShards && Describes(counts, shards)
    ensures Load(counts, OrderOf(counts)[|counts| - 1]) <= NShards / |counts|
  {
    var order, n := OrderOf(counts), |counts|;
    OrderFacts(counts, shards);
    OrderDescends(counts, order);
    var last := Load(counts, order[n - 1]);
    forall j: nat | j < n ensures last <= Count(shards, order[j]) {
      assert j < n - 1 ==> Load(counts, order[j]) >= last;
    }
    hide Count, Describes, IsOrder, Times, Sum, Distinct;
    SharesFit(shards, counts, last);
    BelowAverage(last, n);
  }

  lemma TimesMonotone(a: nat, b: nat, n: nat)
    requires a <= b
    ensures Times(a, n) <= Times(b, n) && Times(a + 1, n) == Times(a, n) + n
  {}

  lemma BelowAverage(least: nat, n: nat)
    requires n > 0 && Times(least, n) <= NShards
    ensures least <= NShards / n
  {
    hide Times;
    var avg := NShards / n;
    TimesDivides(n);
    TimesMonotone(avg, avg, n);
    if least > avg {
      TimesMonotone(avg + 1, least, n);
    }
  }

  /** The first group, above the average, is left with the average. */
  lemma FirstLoses(shards: seq<int>, counts: map<int, nat>, gid: int) returns (p: nat)
    requires |shards| == NShards && Describes(counts, shards) && NShards % |counts| != 0
    requires gid in counts && counts[gid] > NShards / |counts|
    ensures var r, first := Rebalanced(shards, counts), OrderOf(counts)[0];
      && first in counts && Count(r, first) == NShards / |counts|
      && p < NShards && shards[p] == first && r[p] != first
  {
    var order, n := OrderOf(counts), |counts|;
    var i := OrderHas(counts, gid);
    OrderFacts(counts, shards);
    OrderDescends(counts, order);
    ExactShares(shards, counts, 0);
    TargetIs(n, 0);
    hide Count, Target, Rebalanced, IsOrder;
    assert i > 0 ==> Load(counts, order[0]) >= Load(counts, order[i]);
    p := GainedSomewhere(Rebalanced(shards, counts), shards, order[0]);
  }

  /** The last group ends one above the average, with a shard it did not have. */
  lemma LastGains(shards: seq<int>, counts: map<int, nat>) returns (q: nat)
    requires |shards| == NShards && Describes(counts, shards) && NShards % |counts| != 0
    ensures var r, last := Rebalanced(shards, counts), OrderOf(counts)[|counts| - 1];
      && last in counts && Count(r, last) == NShards / |counts| + 1
      && q < NShards && shards[q] != last && r[q] == last
  {
    var order, n := OrderOf(counts), |counts|;
    OrderFacts(counts, shards);
    LastBelow(shards, counts);
    ExactShares(shards, counts, n - 1);
    TargetIs(n, n - 1);
    hide Count, Target, Rebalanced, IsOrder;
    q := GainedSomewhere(shards, Rebalanced(shards, counts), order[n - 1]);
  }

  /** Handing a shard from a group one above the average to one at the average stays even. */
  lemma EvenShift(counts: map<int, nat>, r: seq<int>, p: nat, to: int)
    requires |counts| > 0 && EvenOver(counts, r) && p < NShards && to in counts
    requires Count(r, r[p]) == NShards / |counts| + 1 && Count(r, to) == NShards / |counts|
    ensures EvenOver(counts, r[p := to])
    ensures forall x :: Count(r[p := to], x) + (if r[p] == x then 1 else 0) == Count(r, x) + if to == x then 1 else 0
  {
    hide Count;
    forall x ensures Count(r[p := to], x) + (if r[p] == x then 1 else 0) == Count(r, x) + if to == x then 1 else 0 {
      CountUpdate(r, p, to, x);
    }
  }

  /** The result of the code is even. */
  lemma RebalancedEven(shards: seq<int>, counts: map<int, nat>)
    requires |shards| == NShards && Describes(counts, shards)
    ensures EvenOver(counts, Rebalanced(shards, counts))
  {
    RebalancedFacts(shards, counts);
    hide Count, Target, Rebalanced;
    forall gid | gid in counts
      ensures NShards / |counts| <= Count(Rebalanced(shards, counts), gid) <= NShards / |counts| + 1
    {
      var i := OrderHas(counts, gid);
      TargetIs(|counts|, i);
    }
  }

  /**
   If the groups do not divide the shards and one is above the average, the first group can have a
   shard back.  Where the group that got it has only the average, that one is given a shard of the
   last group instead.
   */
  lemma BetterExists(shards: seq<int>, counts: map<int, nat>, gid: int) returns (other: seq<int>)
    requires |shards| == NShards && Describes(counts, shards) && NShards % |counts| != 0
    requires gid in counts && counts[gid] > NShards / |counts|
    ensures EvenOver(counts, other) && Moved(shards, other) < Moved(shards, Rebalanced(shards, counts))
  {
    hide *;
    var r, first := Rebalanced(shards, counts), OrderOf(counts)[0];
    RebalancedEven(shards, counts);
    var p := FirstLoses(shards, counts, gid);
    OwnerBounds(counts, r, p);
    var r1 := r;
    if Count(r, r[p]) == NShards / |counts| {
      var q := LastGains(shards, counts);
      r1 := r[q := r[p]];
      EvenShift(counts, r, q, r[p]);
      MovedUpdate(shards, r, q, r[p]);
      MovedAtIs(shards, q, r[q]);
      MovedAtIs(shards, q, r[p]);
    }
    other := r1[p := first];
    EvenShift(counts, r1, p, first);
    MovedUpdate(shards, r1, p, first);
    MovedAtIs(shards, p, r[p]);
    MovedAtIs(shards, p, first);
    DescribesOwner(shards, counts, first);
  }

  lemma OwnerBounds(counts: map<int, nat>, r: seq<int>, p: nat)
    requires |counts| > 0 && EvenOver(counts, r) && p < NShards
    ensures |r| == NShards && r[p] in counts && NShards / |counts| <= Count(r, r[p]) <= NShards / |counts| + 1
  {}

  lemma MovedAtIs(before: seq<int>, p: nat, owner: int)
    requires p < |before|
    ensures MovedAt(before, p, owner) <= 1
    ensures MovedAt(before, p, owner) == 1 <==> before[p] != 0 && owner != before[p]
  {}

  lemma DescribesOwner(shards: seq<int>, counts: map<int, nat>, gid: int)
    requires Describes(counts, shards) && gid in counts
    ensures gid != 0
  {}

  /**
   No even assignment moves fewer shards than the code, if and only if the groups divide the shards
   or none of them has more than the average.
   */
  lemma FewestOfAllIff(shards: seq<int>, counts: map<int, nat>)
    requires |shards| == NShards && Describes(counts, shards)
    ensures
      (forall other :: EvenOver(counts, other) ==>
         Moved(shards, Rebalanced(shards, counts)) <= Moved(shards, other)) <==>
      NShards % |counts| == 0 || forall gid :: gid in counts ==> counts[gid] <= NShards / |counts|
  {
    var order, n := OrderOf(counts), |counts|;
    if n > 0 && NShards % n == 0 {
      forall other | EvenOver(counts, other) ensures Moved(shards, Rebalanced(shards, counts)) <= Moved(shards, other) {
        hide Count, Moved, Target, Rebalanced, IsOrder;
        forall i: nat | i < n ensures Count(other, order[i]) == Target(n, i) {
          EvenIsTarget(counts, other, i);
        }
        FewestMoves(shards, counts, other);
      }
    } else if gid :| gid in counts && counts[gid] > NShards / n {
      hide Count, Moved, Target, Rebalanced, IsOrder;
      var other := BetterExists(shards, counts, gid);
    } else {
      hide Count, Moved, Target, Rebalanced;
      MovedIsOver(shards, counts);
      NothingOver(counts, order, n);
    }
  }
}
