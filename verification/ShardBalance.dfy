/**
 The rebalancer of the shard controller.  Groups are taken in a fixed order, most loaded first;
 overloaded groups give up shards, which then go to the underloaded ones.
 */
module ShardBalance {
  import opened Sequences
  import opened Sorting

  const NShards: nat := 10

  // ----- counting

  function Count(s: seq<int>, x: int): nat
  {
    if s == [] then 0 else Count(s[..|s| - 1], x) + if s[|s| - 1] == x then 1 else 0
  }

  lemma CountAppend(s: seq<int>, x: int, y: int)
    ensures Count(s + [y], x) == Count(s, x) + if y == x then 1 else 0
  {
    assert (s + [y])[..|s|] == s;
  }

  lemma {:induction false} CountPositive(s: seq<int>, x: int)
    ensures Count(s, x) > 0 <==> x in s
  {
    if s != [] {
      CountPositive(s[..|s| - 1], x);
    }
  }

  /** The shards of a list of groups together, by `f`. */
  ghost function Sum(order: seq<int>, f: int -> nat): nat
  {
    if order == [] then 0 else Sum(order[..|order| - 1], f) + f(order[|order| - 1])
  }

  ghost function CountIn(s: seq<int>): int -> nat
  {
    x => Count(s, x)
  }

  /** Adding an element to a sequence adds one to the sum over the groups, if it belongs to one. */
  lemma {:induction false} SumAppend(s: seq<int>, y: int, order: seq<int>)
    requires Distinct(order)
    ensures Sum(order, CountIn(s + [y])) == Sum(order, CountIn(s)) + if y in order then 1 else 0
  {
    if order != [] {
      var n := |order| - 1;
      SumAppend(s, y, order[..n]);
      CountAppend(s, order[n], y);
      assert y in order <==> y in order[..n] || y == order[n];
    }
  }

  /** Every element is zero or belongs to exactly one of the groups. */
  lemma {:induction false} CountsSum(s: seq<int>, order: seq<int>)
    requires Distinct(order) && 0 !in order && forall i :: 0 <= i < |s| ==> s[i] == 0 || s[i] in order
    ensures Sum(order, CountIn(s)) + Count(s, 0) == |s|
  {
    if s == [] {
      assert forall x :: CountIn(s)(x) == 0;
      SumZero(order, CountIn(s));
    } else {
      var t := s[..|s| - 1];
      CountsSum(t, order);
      SumAppend(t, s[|s| - 1], order);
      assert t + [s[|s| - 1]] == s;
    }
  }

  lemma {:induction false} SumZero(order: seq<int>, f: int -> nat)
    requires forall x :: x in order ==> f(x) == 0
    ensures Sum(order, f) == 0
  {
    if order != [] {
      var last := order[|order| - 1];
      SumZero(order[..|order| - 1], f);
      assert last in order;
      assert f(last) == 0;
    }
  }

  // ----- the order of the groups

  /** A Go map read: absent keys read as zero. */
  function Load(counts: map<int, nat>, gid: int): nat
  {
    if gid in counts then counts[gid] else 0
  }

  predicate Before(counts: map<int, nat>, a: int, b: int)
  {
    Load(counts, a) > Load(counts, b) || (Load(counts, a) == Load(counts, b) && a > b)
  }

  function Less(counts: map<int, nat>): (int, int) -> bool
  {
    (a, b) => Before(counts, a, b)
  }

  /** All groups, each once, most loaded first, and larger ids first among equals. */
  ghost predicate IsOrder(counts: map<int, nat>, order: seq<int>)
  {
    Distinct(order) && Elems(order) == counts.Keys && Sorted(order, Less(counts))
  }

  lemma {:induction false} OrderUnique(counts: map<int, nat>, a: seq<int>, b: seq<int>)
    requires Distinct(a) && Distinct(b) && Elems(a) == Elems(b) && Sorted(a, Less(counts)) && Sorted(b, Less(counts))
    ensures a == b
  {
    DistinctCard(a);
    DistinctCard(b);
    if a != [] {
      var x, y := a[0], b[0];
      assert x in Elems(b) && y in Elems(a);
      assert x in b && y in a;
      assert !Before(counts, x, y) && !Before(counts, y, x);
      assert x == y;
      assert Elems(a[1..]) == Elems(a) - {x} && Elems(b[1..]) == Elems(b) - {x};
      OrderUnique(counts, a[1..], b[1..]);
      assert a == [x] + a[1..] && b == [y] + b[1..];
    }
  }

  lemma {:induction false} FirstExists(counts: map<int, nat>, keys: set<int>) returns (m: int)
    requires keys != {}
    ensures m in keys && forall x :: x in keys && x != m ==> Before(counts, m, x)
  {
    m := Choose(keys);
    var y, rest := m, keys - {m};
    if rest != {} {
      var first := FirstExists(counts, rest);
      m := if Before(counts, first, y) then first else y;
    }
    forall x | x in keys && x != m ensures Before(counts, m, x) {
      assert x == y || x in rest;
    }
  }

  lemma {:induction false} OrderExists(counts: map<int, nat>, keys: set<int>) returns (order: seq<int>)
    ensures Distinct(order) && Elems(order) == keys && Sorted(order, Less(counts))
  {
    if keys == {} {
      order := [];
    } else {
      var m := FirstExists(counts, keys);
      var rest := OrderExists(counts, keys - {m});
      order := [m] + rest;
      assert m !in Elems(rest);
      assert forall x :: x in order <==> x == m || x in Elems(rest);
      forall i, j | 0 <= i < j < |order| ensures !Before(counts, order[j], order[i]) {
        assert rest[j - 1] in Elems(rest);
        if i > 0 {
          assert !Less(counts)(rest[j - 1], rest[i - 1]);
        }
      }
    }
  }

  lemma HasOrder(counts: map<int, nat>)
    ensures exists order :: IsOrder(counts, order)
  {
    var order := OrderExists(counts, counts.Keys);
    assert IsOrder(counts, order);
  }

  ghost function OrderOf(counts: map<int, nat>): (order: seq<int>)
    ensures IsOrder(counts, order) && |order| == |counts|
  {
    HasOrder(counts);
    var order :| IsOrder(counts, order);
    DistinctCard(order);
    assert |counts| == |counts.Keys|;
    order
  }

  /** `g2ShardCntSortSlice`: whatever order the map is iterated in, the result is the same. */
  method SortGids(counts: map<int, nat>) returns (gids: seq<int>)
    ensures gids == OrderOf(counts)
  {
    gids := [];
    var rest := counts.Keys;
    while rest != {}
      invariant rest <= counts.Keys && Distinct(gids) && Elems(gids) == counts.Keys - rest
      decreases |rest|
    {
      ghost var one := Choose(rest);
      var gid :| gid in rest;
      assert gid !in Elems(gids);
      ElemsAppend(gids, gid);
      gids, rest := gids + [gid], rest - {gid};
    }
    var unsorted := gids;
    gids := Sort(gids, Less(counts));
    DistinctPermutation(unsorted, gids);
    ElemsPermutation(unsorted, gids);
    OrderUnique(counts, gids, OrderOf(counts));
  }

  // ----- replacing the first k occurrences

  ghost function Replaced(s: seq<int>, from: int, to: int, k: nat): (r: seq<int>)
    ensures |r| == |s|
  {
    if s == [] then []
    else
      var n := |s| - 1;
      var t := Replaced(s[..n], from, to, k);
      t + [if s[n] == from && Count(s[..n], from) < k then to else s[n]]
  }

  lemma {:induction false} ReplacedAt(s: seq<int>, from: int, to: int, k: nat, i: nat)
    requires i < |s|
    ensures Replaced(s, from, to, k)[i] == if s[i] == from && Count(s[..i], from) < k then to else s[i]
  {
    var n := |s| - 1;
    if i < n {
      ReplacedAt(s[..n], from, to, k, i);
      assert s[..n][..i] == s[..i];
    }
  }

  lemma {:induction false} ReplacedNone(s: seq<int>, from: int, to: int)
    ensures Replaced(s, from, to, 0) == s
  {
    if s != [] {
      ReplacedNone(s[..|s| - 1], from, to);
    }
  }

  function Min(a: nat, b: nat): nat
  {
    if a <= b then a else b
  }

  lemma {:induction false} ReplacedCounts(s: seq<int>, from: int, to: int, k: nat, x: int)
    requires from != to
    ensures var done := Min(k, Count(s, from));
      Count(Replaced(s, from, to, k), x) ==
      if x == from then Count(s, x) - done else if x == to then Count(s, x) + done else Count(s, x)
  {
    if s != [] {
      var n := |s| - 1;
      ReplacedCounts(s[..n], from, to, k, x);
      var t := Replaced(s[..n], from, to, k);
      CountAppend(t, x, if s[n] == from && Count(s[..n], from) < k then to else s[n]);
    }
  }

  /** The inner loop of both passes: the first `k` shards of `from` go to `to`. */
  method ReplaceFirst(shards: array<int>, from: int, to: int, k: nat)
    requires from != to
    modifies shards
    ensures shards[..] == Replaced(old(shards[..]), from, to, k)
  {
    ghost var was := shards[..];
    var changeNum := k;
    var shard := 0;
    while shard < shards.Length && changeNum > 0
      invariant 0 <= shard <= shards.Length
      invariant changeNum == k - Min(k, Count(was[..shard], from))
      invariant forall i :: 0 <= i < shard ==> shards[i] == Replaced(was, from, to, k)[i]
      invariant forall i :: shard <= i < shards.Length ==> shards[i] == was[i]
    {
      ReplacedAt(was, from, to, k, shard);
      CountAppend(was[..shard], from, was[shard]);
      assert was[..shard + 1] == was[..shard] + [was[shard]];
      if shards[shard] == from {
        shards[shard] := to;
        changeNum := changeNum - 1;
      }
      shard := shard + 1;
    }
    forall i | shard <= i < shards.Length ensures shards[i] == Replaced(was, from, to, k)[i] {
      ReplacedAt(was, from, to, k, i);
      CountMonotone(was, shard, i, from);
    }
  }

  lemma {:induction false} CountMonotone(s: seq<int>, i: nat, j: nat, x: int)
    requires i <= j <= |s|
    ensures Count(s[..i], x) <= Count(s[..j], x)
    decreases j
  {
    if i < j {
      CountMonotone(s, i, j - 1, x);
      CountAppend(s[..j - 1], x, s[j - 1]);
      assert s[..j] == s[..j - 1] + [s[j - 1]];
    }
  }

  // ----- targets and overloads

  /** The share of the group at position `g`: the last ones get the remainder. */
  function Target(n: nat, g: nat): nat
    requires n > 0
  {
    NShards / n + if g >= n - NShards % n then 1 else 0
  }

  ghost function TargetSum(n: nat, g: nat): nat
    requires n > 0
  {
    if g == 0 then 0 else TargetSum(n, g - 1) + Target(n, g - 1)
  }

  lemma {:induction false} TargetSumIs(n: nat, g: nat)
    requires 0 < n && g <= n
    ensures TargetSum(n, g) == (NShards / n) * g + if g > n - NShards % n then g - (n - NShards % n) else 0
  {
    if g > 0 {
      TargetSumIs(n, g - 1);
      var avg := NShards / n;
      assert avg * g == avg * (g - 1) + avg;
    }
  }

  /** The shares add up to all shards. */
  lemma TargetsCover(n: nat)
    requires n > 0
    ensures TargetSum(n, n) == NShards
  {
    TargetSumIs(n, n);
    assert NShards == (NShards / n) * n + NShards % n;
  }

  /** What the group at position `i` has too much, or too little. */
  ghost function Over(counts: map<int, nat>, order: seq<int>, i: nat): nat
    requires i < |order|
  {
    var load, target := Load(counts, order[i]), Target(|order|, i);
    if load > target then load - target else 0
  }

  ghost function Lack(counts: map<int, nat>, order: seq<int>, i: nat): nat
    requires i < |order|
  {
    var load, target := Load(counts, order[i]), Target(|order|, i);
    if load < target then target - load else 0
  }

  ghost function OverSum(counts: map<int, nat>, order: seq<int>, g: nat): nat
    requires g <= |order|
  {
    if g == 0 then 0 else OverSum(counts, order, g - 1) + Over(counts, order, g - 1)
  }

  ghost function LackSum(counts: map<int, nat>, order: seq<int>, g: nat): nat
    requires g <= |order|
  {
    if g == 0 then 0 else LackSum(counts, order, g - 1) + Lack(counts, order, g - 1)
  }

  /** The counts describe the shards, and every shard is free or belongs to one of the groups. */
  ghost predicate Describes(counts: map<int, nat>, shards: seq<int>)
  {
    && |counts| > 0 && 0 !in counts
    && (forall gid :: gid in counts ==> counts[gid] == Count(shards, gid))
    && (forall p :: 0 <= p < |shards| ==> shards[p] == 0 || shards[p] in counts)
  }

  lemma {:induction false} LoadsBalance(counts: map<int, nat>, shards: seq<int>, order: seq<int>, g: nat)
    requires Describes(counts, shards) && IsOrder(counts, order) && g <= |order| && |order| > 0
    ensures Sum(order[..g], CountIn(shards)) + LackSum(counts, order, g) ==
      OverSum(counts, order, g) + TargetSum(|order|, g)
  {
    hide Target, Sorted, Distinct;
    if g > 0 {
      LoadsBalance(counts, shards, order, g - 1);
      assert order[..g][..g - 1] == order[..g - 1];
      assert order[g - 1] in Elems(order);
      assert Load(counts, order[g - 1]) == CountIn(shards)(order[g - 1]);
    }
  }

  /** What the overloaded groups give up, with the free shards, is what the others lack. */
  lemma LackIsFree(counts: map<int, nat>, shards: seq<int>, order: seq<int>)
    requires |shards| == NShards && Describes(counts, shards) && IsOrder(counts, order) && |order| > 0
    ensures Count(shards, 0) + OverSum(counts, order, |order|) == LackSum(counts, order, |order|)
  {
    LoadsBalance(counts, shards, order, |order|);
    assert order[..|order|] == order;
    TargetsCover(|order|);
    forall p | 0 <= p < |shards| ensures shards[p] == 0 || shards[p] in order {
      assert shards[p] == 0 || shards[p] in Elems(order);
    }
    assert 0 !in Elems(order);
    CountsSum(shards, order);
  }

  // ----- the two passes

  ghost function Released(shards: seq<int>, counts: map<int, nat>, order: seq<int>, g: nat): (r: seq<int>)
    requires g <= |order|
    ensures |r| == |shards|
  {
    if g == 0 then shards
    else Replaced(Released(shards, counts, order, g - 1), order[g - 1], 0, Over(counts, order, g - 1))
  }

  ghost function Filled(shards: seq<int>, counts: map<int, nat>, order: seq<int>, g: nat): (r: seq<int>)
    requires g <= |order|
    ensures |r| == |shards|
  {
    if g == 0 then shards
    else Replaced(Filled(shards, counts, order, g - 1), 0, order[g - 1], Lack(counts, order, g - 1))
  }

  ghost function Rebalanced(shards: seq<int>, counts: map<int, nat>): (r: seq<int>)
    ensures |r| == |shards|
  {
    var order := OrderOf(counts);
    Filled(Released(shards, counts, order, |order|), counts, order, |order|)
  }

  /** The shards that had an owner and lost it. */
  ghost function Moved(before: seq<int>, after: seq<int>): nat
    requires |before| == |after|
  {
    if before == [] then 0
    else
      var n := |before| - 1;
      Moved(before[..n], after[..n]) + if before[n] != 0 && after[n] != before[n] then 1 else 0
  }

  // ----- what the passes do to shards and moves

  /** The first `k` of the shards in `from` lose their owner. */
  lemma {:induction false} MovedRelease(before: seq<int>, s: seq<int>, gid: int, k: nat)
    requires |before| == |s| && gid != 0 && forall p :: 0 <= p < |s| && s[p] == gid ==> before[p] == gid
    ensures Moved(before, Replaced(s, gid, 0, k)) == Moved(before, s) + Min(k, Count(s, gid))
  {
    if s != [] {
      var n := |s| - 1;
      MovedRelease(before[..n], s[..n], gid, k);
      assert Replaced(s, gid, 0, k)[..n] == Replaced(s[..n], gid, 0, k);
    }
  }

  lemma {:induction false} MovedSame(before: seq<int>, a: seq<int>, b: seq<int>)
    requires |before| == |a| == |b|
    requires forall p :: 0 <= p < |a| && before[p] != 0 ==> (a[p] == before[p] <==> b[p] == before[p])
    ensures Moved(before, a) == Moved(before, b)
  {
    if a != [] {
      var n := |a| - 1;
      MovedSame(before[..n], a[..n], b[..n]);
    }
  }

  ghost predicate Overloaded(counts: map<int, nat>, order: seq<int>, gid: int)
  {
    exists i: nat :: i < |order| && order[i] == gid && Over(counts, order, i) > 0
  }

  ghost predicate Underloaded(counts: map<int, nat>, order: seq<int>, gid: int)
  {
    exists i: nat :: i < |order| && order[i] == gid && Lack(counts, order, i) > 0
  }

  /** After the first pass has dealt with `g` groups. */
  ghost predicate ReleaseOk(shards: seq<int>, counts: map<int, nat>, order: seq<int>, g: nat, r: seq<int>)
    requires g <= |order| && |r| == |shards|
  {
    && (forall i: nat {:trigger Over(counts, order, i)} :: i < |order| ==>
          Count(r, order[i]) == Load(counts, order[i]) - if i < g then Over(counts, order, i) else 0)
    && Count(r, 0) == Count(shards, 0) + OverSum(counts, order, g)
    && (forall p :: 0 <= p < |r| && r[p] != shards[p] ==> r[p] == 0 && Overloaded(counts, order, shards[p]))
    && Moved(shards, r) == OverSum(counts, order, g)
  }

  ghost predicate OrderOk(counts: map<int, nat>, order: seq<int>)
  {
    Distinct(order) && 0 !in order && |order| > 0
  }

  lemma ReleaseNext(shards: seq<int>, counts: map<int, nat>, order: seq<int>, g: nat, r: seq<int>)
    requires OrderOk(counts, order) && g < |order| && |r| == |shards| && ReleaseOk(shards, counts, order, g, r)
    ensures ReleaseOk(shards, counts, order, g + 1, Replaced(r, order[g], 0, Over(counts, order, g)))
  {
    hide Count, Moved, Target;
    var gid, k := order[g], Over(counts, order, g);
    var r' := Replaced(r, gid, 0, k);
    forall i: nat | i < |order|
      ensures Count(r', order[i]) == Load(counts, order[i]) - if i < g + 1 then Over(counts, order, i) else 0
    {
      assert order[i] in order && gid in order;
      assert i != g ==> order[i] != gid;
      assert Count(r, gid) == Load(counts, gid) >= k;
      assert Count(r, order[i]) == Load(counts, order[i]) - if i < g then Over(counts, order, i) else 0;
      ReplacedCounts(r, gid, 0, k, order[i]);
    }
    ReplacedCounts(r, gid, 0, k, 0);
    forall p: nat | p < |r| && r'[p] != shards[p] ensures r'[p] == 0 && Overloaded(counts, order, shards[p]) {
      ReplacedAt(r, gid, 0, k, p);
      assert gid in order;
      if r[p] == shards[p] {
        assert order[g] == shards[p] && Over(counts, order, g) > 0;
      }
    }
    MovedRelease(shards, r, gid, k);
  }

  lemma {:induction false} ReleasedOk(shards: seq<int>, counts: map<int, nat>, order: seq<int>, g: nat)
    requires OrderOk(counts, order) && g <= |order|
    requires forall i: nat :: i < |order| ==> Count(shards, order[i]) == Load(counts, order[i])
    ensures ReleaseOk(shards, counts, order, g, Released(shards, counts, order, g))
  {
    if g == 0 {
      MovedNone(shards);
    } else {
      ReleasedOk(shards, counts, order, g - 1);
      hide Count, Moved, Target, ReleaseOk;
      ReleaseNext(shards, counts, order, g - 1, Released(shards, counts, order, g - 1));
    }
  }

  lemma {:induction false} MovedNone(s: seq<int>)
    ensures Moved(s, s) == 0
  {
    if s != [] {
      MovedNone(s[..|s| - 1]);
    }
  }

  /** After the second pass has dealt with `g` groups. */
  ghost predicate FillOk(shards: seq<int>, counts: map<int, nat>, order: seq<int>, g: nat, r: seq<int>)
    requires g <= |order| && |r| == |shards|
  {
    && (forall i: nat {:trigger Over(counts, order, i)} :: i < |order| ==>
          Count(r, order[i]) == Load(counts, order[i]) - Over(counts, order, i) +
            if i < g then Lack(counts, order, i) else 0)
    && Count(r, 0) + LackSum(counts, order, g) == LackSum(counts, order, |order|)
    && (forall p :: 0 <= p < |r| && r[p] != shards[p] ==>
          && (shards[p] == 0 || Overloaded(counts, order, shards[p]))
          && (r[p] == 0 || Underloaded(counts, order, r[p])))
    && Moved(shards, r) == OverSum(counts, order, |order|)
  }

  lemma {:induction false} LackSumGrows(counts: map<int, nat>, order: seq<int>, g: nat, h: nat)
    requires g <= h <= |order|
    ensures LackSum(counts, order, g) <= LackSum(counts, order, h)
  {
    if g < h {
      LackSumGrows(counts, order, g, h - 1);
    }
  }

  lemma NotBoth(counts: map<int, nat>, order: seq<int>, g: nat)
    requires Distinct(order) && g < |order| && Lack(counts, order, g) > 0
    ensures !Overloaded(counts, order, order[g])
  {}

  lemma FillNext(shards: seq<int>, counts: map<int, nat>, order: seq<int>, g: nat, r: seq<int>)
    requires OrderOk(counts, order) && g < |order| && |r| == |shards| && FillOk(shards, counts, order, g, r)
    ensures FillOk(shards, counts, order, g + 1, Replaced(r, 0, order[g], Lack(counts, order, g)))
  {
    hide Count, Moved, Target;
    var gid, k := order[g], Lack(counts, order, g);
    var r' := Replaced(r, 0, gid, k);
    LackSumGrows(counts, order, g + 1, |order|);
    forall i: nat | i < |order|
      ensures Count(r', order[i]) ==
        Load(counts, order[i]) - Over(counts, order, i) + if i < g + 1 then Lack(counts, order, i) else 0
    {
      assert order[i] in order && gid in order;
      assert i != g ==> order[i] != gid;
      assert Over(counts, order, i) >= 0;
      ReplacedCounts(r, 0, gid, k, order[i]);
    }
    ReplacedCounts(r, 0, gid, k, 0);
    if k > 0 {
      NotBoth(counts, order, g);
    }
    forall p: nat | p < |r|
      ensures r'[p] == r[p] || (r[p] == 0 && r'[p] == gid && k > 0)
    {
      ReplacedAt(r, 0, gid, k, p);
    }
    FillMoves(shards, counts, order, g, r, r');
  }

  lemma FillMoves(shards: seq<int>, counts: map<int, nat>, order: seq<int>, g: nat, r: seq<int>, r': seq<int>)
    requires OrderOk(counts, order) && g < |order| && |r| == |r'| == |shards| && FillOk(shards, counts, order, g, r)
    requires forall p :: 0 <= p < |r| ==>
      r'[p] == r[p] || (r[p] == 0 && r'[p] == order[g] && Lack(counts, order, g) > 0)
    ensures Moved(shards, r') == Moved(shards, r)
    ensures forall p :: 0 <= p < |r| && r'[p] != shards[p] ==>
          && (shards[p] == 0 || Overloaded(counts, order, shards[p]))
          && (r'[p] == 0 || Underloaded(counts, order, r'[p]))
  {
    hide Count, Moved, Target;
    forall p | 0 <= p < |r| && shards[p] != 0 ensures r[p] == shards[p] <==> r'[p] == shards[p] {
      if r'[p] != r[p] {
        NotBoth(counts, order, g);
      }
    }
    MovedSame(shards, r, r');
  }

  lemma {:induction false} FilledOk(shards: seq<int>, counts: map<int, nat>, order: seq<int>, released: seq<int>,
      g: nat)
    requires OrderOk(counts, order) && g <= |order| && |released| == |shards|
    requires ReleaseOk(shards, counts, order, |order|, released)
    requires Count(shards, 0) + OverSum(counts, order, |order|) == LackSum(counts, order, |order|)
    ensures FillOk(shards, counts, order, g, Filled(released, counts, order, g))
  {
    hide Count, Moved, Target;
    if g > 0 {
      FilledOk(shards, counts, order, released, g - 1);
      hide FillOk, ReleaseOk;
      FillNext(shards, counts, order, g - 1, Filled(released, counts, order, g - 1));
    }
  }
}
