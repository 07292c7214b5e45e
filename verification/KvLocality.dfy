/**
 The key/value model and its partition by key.  Checking each key's operations against a single
 register gives the answer for the whole map-valued store: the store's history is linearizable
 exactly when every key's history is.
 */
module KvLocality {
  import opened Sequences
  import opened Linearizability
  import opened Operations
  import Sorting
  import StringOrder

  datatype KvInput = KvInput(op: nat, key: string, value: string)   // op: 0 get, 1 put, otherwise append

  datatype KvOutput = KvOutput(value: string)

  type KvOp = Operation<KvInput, KvOutput>

  // ----- the model of one key, and the store it stands for

  function KvStep(state: string, input: KvInput, output: KvOutput): (bool, string)
  {
    if input.op == 0 then (output.value == state, state)
    else if input.op == 1 then (true, input.value)
    else (true, state + input.value)
  }

  const KvModel: Model<string, KvInput, KvOutput> := Model("", KvStep)

  type Store = map<string, string>

  /** A missing key reads as the empty string. */
  function Lookup(st: Store, key: string): string
  {
    if key in st then st[key] else ""
  }

  /** One operation against the whole store. */
  function StoreStep(st: Store, input: KvInput, output: KvOutput): (bool, Store)
  {
    var current := Lookup(st, input.key);
    if input.op == 0 then (output.value == current, st)
    else if input.op == 1 then (true, st[input.key := input.value])
    else (true, st[input.key := current + input.value])
  }

  const StoreModel: Model<Store, KvInput, KvOutput> := Model(map[], StoreStep)

  /** A store step is the register step of its own key and leaves the other keys alone. */
  lemma StoreStepIsLocal(st: Store, x: KvOp, key: string)
    ensures var (ok, st') := StoreStep(st, x.input, x.output);
      && (ok, Lookup(st', x.input.key)) == KvStep(Lookup(st, x.input.key), x.input, x.output)
      && (key != x.input.key ==> Lookup(st', key) == Lookup(st, key))
  {}

  // ----- the partition

  function Filter(ops: seq<KvOp>, key: string): (r: seq<KvOp>)
    ensures forall x :: x in r ==> x in ops && x.input.key == key
  {
    if ops == [] then []
    else
      var rest := Filter(ops[..|ops| - 1], key);
      if ops[|ops| - 1].input.key == key then rest + [ops[|ops| - 1]] else rest
  }

  /** The parts are the operations of distinct keys, in their original order, and nothing is lost. */
  ghost predicate PartitionOf(ops: seq<KvOp>, keys: seq<string>, parts: seq<seq<KvOp>>)
  {
    && Distinct(keys) && |parts| == |keys|
    && (forall i :: 0 <= i < |keys| ==> parts[i] == Filter(ops, keys[i]))
    && (forall x :: x in ops ==> x.input.key in keys)
    && (forall i :: 0 <= i < |keys| ==> parts[i] != [])
  }

  /** The map of the first loop: each key that occurs, with its operations. */
  ghost predicate Grouped(ops: seq<KvOp>, m: map<string, seq<KvOp>>)
  {
    && (forall k :: k in m ==> m[k] == Filter(ops, k) && m[k] != [])
    && (forall k :: k !in m ==> Filter(ops, k) == [])
    && (forall x :: x in ops ==> x.input.key in m)
  }

  lemma GroupedSnoc(ops: seq<KvOp>, m: map<string, seq<KvOp>>, x: KvOp)
    requires Grouped(ops, m)
    ensures Grouped(ops + [x], m[x.input.key := (if x.input.key in m then m[x.input.key] else []) + [x]])
  {
    var m' := m[x.input.key := (if x.input.key in m then m[x.input.key] else []) + [x]];
    assert (ops + [x])[..|ops|] == ops;
    forall k ensures if k in m' then m'[k] == Filter(ops + [x], k) && m'[k] != [] else Filter(ops + [x], k) == [] {
    }
  }

  method GroupByKey(ops: seq<KvOp>) returns (m: map<string, seq<KvOp>>)
    ensures Grouped(ops, m)
  {
    m := map[];
    for i := 0 to |ops|
      invariant Grouped(ops[..i], m)
    {
      var key := ops[i].input.key;
      GroupedSnoc(ops[..i], m, ops[i]);
      assert ops[..i + 1] == ops[..i] + [ops[i]];
      m := m[key := (if key in m then m[key] else []) + [ops[i]]];
    }
    assert ops[..|ops|] == ops;
  }

  method SortedKeys<V>(m: map<string, V>) returns (keys: seq<string>)
    ensures Distinct(keys) && Sorting.Sorted(keys, StringOrder.Less)
    ensures forall k :: k in keys <==> k in m
  {
    var unsorted := Keys(m);
    StringOrder.LessIsOrder();
    keys := Sorting.Sort(unsorted, StringOrder.Less);
    DistinctPermutation(unsorted, keys);
    forall k ensures k in keys <==> k in m {
      assert k in multiset(keys) <==> k in multiset(unsorted);
    }
  }

  method Partition(ops: seq<KvOp>) returns (parts: seq<seq<KvOp>>, ghost keys: seq<string>)
    ensures PartitionOf(ops, keys, parts)
    ensures Sorting.Sorted(keys, StringOrder.Less)
  {
    var m := GroupByKey(ops);
    var sorted := SortedKeys(m);
    parts := [];
    for i := 0 to |sorted|
      invariant |parts| == i && forall j :: 0 <= j < i ==> parts[j] == m[sorted[j]]
    {
      parts := parts + [m[sorted[i]]];
    }
    keys := sorted;
  }

  /** `for k := range m`: the keys in some order. */
  method Keys<V>(m: map<string, V>) returns (keys: seq<string>)
    ensures Distinct(keys) && forall k :: k in keys <==> k in m
  {
    keys := [];
    var rest := m.Keys;
    while rest != {}
      invariant Distinct(keys) && rest <= m.Keys
      invariant forall k :: k in keys <==> k in m && k !in rest
      decreases rest
    {
      var k :| k in rest;
      keys := keys + [k];
      rest := rest - {k};
    }
  }

  // ----- from the store to the keys

  lemma {:induction false} FilterCount(ops: seq<KvOp>, key: string, x: KvOp)
    ensures multiset(Filter(ops, key))[x] == if x.input.key == key then multiset(ops)[x] else 0
  {
    if ops != [] {
      var n := |ops| - 1;
      assert ops == ops[..n] + [ops[n]];
      FilterCount(ops[..n], key, x);
    }
  }

  lemma FilterPermutes(a: seq<KvOp>, b: seq<KvOp>, key: string)
    requires multiset(a) == multiset(b)
    ensures multiset(Filter(a, key)) == multiset(Filter(b, key))
  {
    forall x: KvOp ensures multiset(Filter(a, key))[x] == multiset(Filter(b, key))[x] {
      FilterCount(a, key, x);
      FilterCount(b, key, x);
    }
  }

  lemma {:induction false} FilterRealTime(lin: seq<KvOp>, key: string)
    requires InRealTime(lin)
    ensures InRealTime(Filter(lin, key))
  {
    if lin != [] {
      var n := |lin| - 1;
      FilterRealTime(lin[..n], key);
      var rest := Filter(lin[..n], key);
      forall i | 0 <= i < |rest| ensures !(lin[n].ret < rest[i].call) {
        assert rest[i] in lin[..n];
        var j :| 0 <= j < n && lin[j] == rest[i];
      }
    }
  }

  lemma {:induction false} FilterSteps(lin: seq<KvOp>, st: Store, key: string)
    requires Steps(StoreModel, st, lin)
    ensures Steps(KvModel, Lookup(st, key), Filter(lin, key))
    ensures Lookup(After(StoreModel, st, lin), key) == After(KvModel, Lookup(st, key), Filter(lin, key))
  {
    if lin != [] {
      var n := |lin| - 1;
      var x := lin[n];
      assert lin == lin[..n] + [x];
      StepsSnoc(StoreModel, st, lin[..n], x);
      FilterSteps(lin[..n], st, key);
      StoreStepIsLocal(After(StoreModel, st, lin[..n]), x, key);
      if x.input.key == key {
        StepsSnoc(KvModel, Lookup(st, key), Filter(lin[..n], key), x);
      }
    }
  }

  lemma StoreOrderGivesKeyOrder(ops: seq<KvOp>, lin: seq<KvOp>, key: string)
    requires Orders(StoreModel, ops, lin)
    ensures Orders(KvModel, Filter(ops, key), Filter(lin, key))
  {
    FilterPermutes(lin, ops, key);
    FilterRealTime(lin, key);
    FilterSteps(lin, map[], key);
  }

  // ----- from the keys to the store

  ghost function Union(lins: seq<seq<KvOp>>): multiset<KvOp>
  {
    if lins == [] then multiset{} else Union(lins[..|lins| - 1]) + multiset(lins[|lins| - 1])
  }

  lemma {:induction false} InUnion(lins: seq<seq<KvOp>>, x: KvOp)
    ensures x in Union(lins) <==> exists i :: 0 <= i < |lins| && x in lins[i]
  {
    if lins != [] {
      var n := |lins| - 1;
      InUnion(lins[..n], x);
      if x in lins[n] {
        assert 0 <= n < |lins| && x in lins[n];
      }
      if exists i :: 0 <= i < n && x in lins[..n][i] {
        var i :| 0 <= i < n && x in lins[..n][i];
        assert x in lins[i];
      }
    }
  }

  /** Taking the head off one part takes it out of the union. */
  lemma {:induction false} UnionTail(lins: seq<seq<KvOp>>, i: nat)
    requires i < |lins| && lins[i] != []
    ensures Union(lins) == Union(lins[i := lins[i][1..]]) + multiset{lins[i][0]}
  {
    var n := |lins| - 1;
    var lins' := lins[i := lins[i][1..]];
    assert Union(lins) == Union(lins[..n]) + multiset(lins[n]);
    assert Union(lins') == Union(lins'[..n]) + multiset(lins'[n]);
    hide Union;
    if i == n {
      assert lins'[..n] == lins[..n];
      assert lins[n] == [lins[n][0]] + lins[n][1..];
    } else {
      UnionTail(lins[..n], i);
      assert lins'[..n] == lins[..n][i := lins[i][1..]];
    }
  }

  lemma {:induction false} FirstToReturn(m: multiset<KvOp>) returns (b: KvOp)
    requires |m| > 0
    ensures b in m && forall x :: x in m ==> b.ret <= x.ret
  {
    var y :| y in m;
    var rest := m - multiset{y};
    if |rest| == 0 {
      b := y;
      assert m == rest + multiset{y};
    } else {
      var c := FirstToReturn(rest);
      b := if y.ret <= c.ret then y else c;
      forall x | x in m ensures b.ret <= x.ret {
        if x != y {
          assert x in rest;
        }
      }
    }
  }

  /** The per-key linearizations to be merged, from the store state `st`. */
  ghost predicate Mergeable(keys: seq<string>, lins: seq<seq<KvOp>>, st: Store)
  {
    && Distinct(keys) && |keys| == |lins|
    && forall i :: 0 <= i < |keys| ==> KeyOk(keys[i], lins[i], st)
  }

  ghost predicate KeyOk(key: string, lin: seq<KvOp>, st: Store)
  {
    && InRealTime(lin) && Timed(lin) && Steps(KvModel, Lookup(st, key), lin)
    && forall x :: x in lin ==> x.input.key == key
  }

  /**
   Some part's next operation was called before anything left over returned: the next operation
   of the key that has the earliest return.
   */
  lemma NextToMerge(keys: seq<string>, lins: seq<seq<KvOp>>, st: Store) returns (i: nat)
    requires Mergeable(keys, lins, st) && |Union(lins)| > 0
    ensures i < |lins| && lins[i] != []
    ensures forall x :: x in Union(lins) ==> !(x.ret < lins[i][0].call)
  {
    var b := FirstToReturn(Union(lins));
    InUnion(lins, b);
    i :| 0 <= i < |lins| && b in lins[i];
    assert KeyOk(keys[i], lins[i], st);
    var p :| 0 <= p < |lins[i]| && lins[i][p] == b;
    assert lins[i][0].call <= b.ret;
  }

  lemma MergeableNext(keys: seq<string>, lins: seq<seq<KvOp>>, st: Store, i: nat)
    requires Mergeable(keys, lins, st) && i < |lins| && lins[i] != []
    ensures var a := lins[i][0]; var (ok, st') := StoreStep(st, a.input, a.output);
      ok && Mergeable(keys, lins[i := lins[i][1..]], st')
  {
    var a := lins[i][0];
    assert KeyOk(keys[i], lins[i], st);
    assert a in lins[i];
    var (ok, st') := StoreStep(st, a.input, a.output);
    var lins' := lins[i := lins[i][1..]];
    forall j | 0 <= j < |keys| ensures KeyOk(keys[j], lins'[j], st') {
      assert KeyOk(keys[j], lins[j], st);
      StoreStepIsLocal(st, a, keys[j]);
    }
  }

  lemma NothingToMerge(st: Store)
    ensures InRealTime<KvInput, KvOutput>([]) && Steps(StoreModel, st, [])
  {}

  lemma Prepend(a: KvOp, rest: seq<KvOp>, st: Store)
    requires InRealTime(rest) && forall x :: x in rest ==> !(x.ret < a.call)
    requires StoreStep(st, a.input, a.output).0 && Steps(StoreModel, StoreStep(st, a.input, a.output).1, rest)
    ensures InRealTime([a] + rest) && Steps(StoreModel, st, [a] + rest)
    ensures multiset([a] + rest) == multiset(rest) + multiset{a}
  {
    assert ([a] + rest)[1..] == rest;
  }

  /** Per-key linearizations merge into one linearization of the store. */
  lemma {:induction false} Merge(keys: seq<string>, lins: seq<seq<KvOp>>, st: Store) returns (lin: seq<KvOp>)
    requires Mergeable(keys, lins, st)
    ensures multiset(lin) == Union(lins) && InRealTime(lin) && Steps(StoreModel, st, lin)
    decreases |Union(lins)|
  {
    hide Mergeable, Union, InRealTime, Steps;
    if |Union(lins)| == 0 {
      lin := [];
      assert InRealTime(lin) && Steps(StoreModel, st, lin) by {
        NothingToMerge(st);
      }
    } else {
      var i := NextToMerge(keys, lins, st);
      var a := lins[i][0];
      UnionTail(lins, i);
      MergeableNext(keys, lins, st, i);
      var rest := Merge(keys, lins[i := lins[i][1..]], StoreStep(st, a.input, a.output).1);
      lin := [a] + rest;
      forall x | x in rest ensures !(x.ret < a.call) {
        assert x in multiset(rest);
      }
      Prepend(a, rest, st);
    }
  }

  // ----- the locality theorem

  lemma {:induction false} PartitionUnion(ops: seq<KvOp>, keys: seq<string>, parts: seq<seq<KvOp>>, x: KvOp)
    requires Distinct(keys) && |parts| == |keys| && forall i :: 0 <= i < |keys| ==> parts[i] == Filter(ops, keys[i])
    ensures Union(parts)[x] == if x.input.key in keys then multiset(ops)[x] else 0
  {
    if keys != [] {
      var n := |keys| - 1;
      PartitionUnion(ops, keys[..n], parts[..n], x);
      FilterCount(ops, keys[n], x);
      assert keys == keys[..n] + [keys[n]];
    }
  }

  lemma NothingLost(ops: seq<KvOp>, keys: seq<string>, parts: seq<seq<KvOp>>)
    requires PartitionOf(ops, keys, parts)
    ensures Union(parts) == multiset(ops)
  {
    forall x: KvOp ensures Union(parts)[x] == multiset(ops)[x] {
      PartitionUnion(ops, keys, parts, x);
      if x in multiset(ops) {
        assert x in ops;
      }
    }
  }

  ghost function Witness(part: seq<KvOp>): (lin: seq<KvOp>)
    requires OpsLinearizable(KvModel, part)
    ensures Orders(KvModel, part, lin)
  {
    var lin: seq<KvOp> :| Orders(KvModel, part, lin);
    lin
  }

  lemma SameMembers(a: seq<KvOp>, b: seq<KvOp>, x: KvOp)
    requires multiset(a) == multiset(b)
    ensures x in a <==> x in b
  {
    assert x in multiset(a) <==> x in multiset(b);
  }

  lemma WitnessesMergeable(ops: seq<KvOp>, keys: seq<string>, parts: seq<seq<KvOp>>, lins: seq<seq<KvOp>>)
    requires PartitionOf(ops, keys, parts) && Timed(ops) && |lins| == |parts|
    requires forall i :: 0 <= i < |parts| ==> Orders(KvModel, parts[i], lins[i])
    ensures Mergeable(keys, lins, map[])
  {
    forall i | 0 <= i < |keys| ensures KeyOk(keys[i], lins[i], map[]) {
      forall x | x in lins[i] ensures x.input.key == keys[i] && x.call <= x.ret {
        SameMembers(parts[i], lins[i], x);
        assert x in ops;
      }
    }
  }

  lemma {:induction false} UnionPermutes(a: seq<seq<KvOp>>, b: seq<seq<KvOp>>)
    requires |a| == |b| && forall i :: 0 <= i < |a| ==> multiset(a[i]) == multiset(b[i])
    ensures Union(a) == Union(b)
  {
    if a != [] {
      UnionPermutes(a[..|a| - 1], b[..|b| - 1]);
    }
  }

  /** The store is linearizable exactly when every key is. */
  lemma Locality(ops: seq<KvOp>, keys: seq<string>, parts: seq<seq<KvOp>>)
    requires PartitionOf(ops, keys, parts) && Timed(ops)
    ensures OpsLinearizable(StoreModel, ops) <==>
            forall i :: 0 <= i < |parts| ==> OpsLinearizable(KvModel, parts[i])
  {
    if OpsLinearizable(StoreModel, ops) {
      var lin: seq<KvOp> :| Orders(StoreModel, ops, lin);
      forall i | 0 <= i < |parts| ensures OpsLinearizable(KvModel, parts[i]) {
        StoreOrderGivesKeyOrder(ops, lin, keys[i]);
      }
    }
    if forall i :: 0 <= i < |parts| ==> OpsLinearizable(KvModel, parts[i]) {
      var lins := seq(|parts|, i requires 0 <= i < |parts| => Witness(parts[i]));
      WitnessesMergeable(ops, keys, parts, lins);
      var lin := Merge(keys, lins, map[]);
      UnionPermutes(lins, parts);
      NothingLost(ops, keys, parts);
      assert Orders(StoreModel, ops, lin);
    }
  }
}