/**
 Histories of timed operations, as clients report them, and their translation into entries.
 A history of operations is linearizable exactly when the entries made from it are, for every
 sorted order of the entries.
 */
module Operations {
  import opened Sequences
  import opened Linearizability
  import Sorting

  datatype Operation<+I, +O> = Operation(clientId: int, input: I, call: int, output: O, ret: int)

  // ----- linearizability of operations

  /** No operation is put before one that had returned before it was called. */
  ghost predicate InRealTime<I, O>(lin: seq<Operation<I, O>>)
  {
    forall i, j :: 0 <= i < j < |lin| ==> !(lin[j].ret < lin[i].call)
  }

  /** The model accepts the operations one after another, starting in `s`. */
  ghost predicate Steps<S, I, O>(m: Model<S, I, O>, s: S, lin: seq<Operation<I, O>>)
  {
    lin == [] ||
    var (ok, s') := m.step(s, lin[0].input, lin[0].output);
    ok && Steps(m, s', lin[1..])
  }

  ghost predicate Orders<S, I, O>(m: Model<S, I, O>, ops: seq<Operation<I, O>>, lin: seq<Operation<I, O>>)
  {
    multiset(lin) == multiset(ops) && InRealTime(lin) && Steps(m, m.init, lin)
  }

  ghost predicate OpsLinearizable<S, I(!new), O(!new)>(m: Model<S, I, O>, ops: seq<Operation<I, O>>)
  {
    exists lin: seq<Operation<I, O>> :: Orders(m, ops, lin)
  }

  // ----- making entries

  /** `byTime`: by timestamp, calls before returns. */
  predicate ByTime<I, O>(a: Entry<I, O>, b: Entry<I, O>)
  {
    if a.time != b.time then a.time < b.time else a.CallEntry? && b.ReturnEntry?
  }

  function CallOf<I, O>(ops: seq<Operation<I, O>>, k: nat): Entry<I, O>
    requires k < |ops|
  {
    CallEntry(k, ops[k].call, ops[k].input)
  }

  function ReturnOf<I, O>(ops: seq<Operation<I, O>>, k: nat): Entry<I, O>
    requires k < |ops|
  {
    ReturnEntry(k, ops[k].ret, ops[k].output)
  }

  /** The entries in the order they are appended. */
  ghost function RawEntries<I, O>(ops: seq<Operation<I, O>>): (r: seq<Entry<I, O>>)
    ensures |r| == 2 * |ops|
    ensures forall k: nat :: k < |ops| ==> r[2 * k] == CallOf(ops, k) && r[2 * k + 1] == ReturnOf(ops, k)
  {
    if ops == [] then []
    else
      var n := |ops| - 1;
      assert forall k: nat :: k < n ==>
        CallOf(ops[..n], k) == CallOf(ops, k) && ReturnOf(ops[..n], k) == ReturnOf(ops, k);
      RawEntries(ops[..n]) + [CallOf(ops, n), ReturnOf(ops, n)]
  }

  /** `h` is the entries of `ops` in some sorted order. */
  ghost predicate EntriesOf<I, O>(ops: seq<Operation<I, O>>, h: seq<Entry<I, O>>)
  {
    multiset(h) == multiset(RawEntries(ops)) && Sorting.Sorted(h, ByTime<I, O>)
  }

  ghost predicate Timed<I, O>(ops: seq<Operation<I, O>>)
  {
    forall k :: 0 <= k < |ops| ==> ops[k].call <= ops[k].ret
  }

  method MakeEntries<I(!new), O(!new)>(ops: seq<Operation<I, O>>) returns (h: seq<Entry<I, O>>)
    ensures EntriesOf(ops, h)
  {
    var entries: seq<Entry<I, O>> := [];
    for id := 0 to |ops|
      invariant entries == RawEntries(ops[..id])
    {
      assert ops[..id + 1][..id] == ops[..id];
      entries := entries + [CallEntry(id, ops[id].call, ops[id].input)];
      entries := entries + [ReturnEntry(id, ops[id].ret, ops[id].output)];
    }
    assert ops[..|ops|] == ops;
    h := Sorting.Sort(entries, ByTime);
  }

  // ----- the entries are a well-formed history

  lemma RawDistinct<I, O>(ops: seq<Operation<I, O>>)
    ensures Distinct(RawEntries(ops))
  {
    var r := RawEntries(ops);
    forall i, j | 0 <= i < j < |r| ensures r[i] != r[j] {
      assert r[2 * (i / 2)] == CallOf(ops, i / 2) && r[2 * (i / 2) + 1] == ReturnOf(ops, i / 2);
      assert r[2 * (j / 2)] == CallOf(ops, j / 2) && r[2 * (j / 2) + 1] == ReturnOf(ops, j / 2);
    }
  }

  /** An entry of `h` is the call or the return of the operation whose id it carries. */
  lemma EntryIsOf<I, O>(ops: seq<Operation<I, O>>, h: seq<Entry<I, O>>, p: nat)
    requires EntriesOf(ops, h) && p < |h|
    ensures 0 <= h[p].id < |ops|
    ensures h[p] == if h[p].CallEntry? then CallOf(ops, h[p].id) else ReturnOf(ops, h[p].id)
  {
    var r := RawEntries(ops);
    assert h[p] in multiset(h);
    assert h[p] in multiset(r);
    var i :| 0 <= i < |r| && r[i] == h[p];
    assert r[2 * (i / 2)] == CallOf(ops, i / 2) && r[2 * (i / 2) + 1] == ReturnOf(ops, i / 2);
  }

  lemma HasBoth<I, O>(ops: seq<Operation<I, O>>, h: seq<Entry<I, O>>, id: nat)
    requires EntriesOf(ops, h) && id < |ops|
    ensures HasCall(h, id) && HasReturn(h, id)
  {
    var r := RawEntries(ops);
    assert r[2 * id] in multiset(r) && r[2 * id + 1] in multiset(r);
    assert CallOf(ops, id) in multiset(h) && ReturnOf(ops, id) in multiset(h);
    var p :| 0 <= p < |h| && h[p] == CallOf(ops, id);
    var q :| 0 <= q < |h| && h[q] == ReturnOf(ops, id);
  }

  lemma EntriesWellFormed<I, O>(ops: seq<Operation<I, O>>, h: seq<Entry<I, O>>)
    requires EntriesOf(ops, h) && Timed(ops)
    ensures WellFormed(h) && Size(h) == |ops|
  {
    var r := RawEntries(ops);
    assert |h| == |multiset(h)| == |multiset(r)| == |r|;
    RawDistinct(ops);
    DistinctPermutation(r, h);
    forall p | 0 <= p < |h| ensures 0 <= h[p].id < Size(h) {
      EntryIsOf(ops, h, p);
    }
    forall p, q | 0 <= p < q < |h| && h[p].id == h[q].id ensures h[p].CallEntry? && h[q].ReturnEntry? {
      EntryIsOf(ops, h, p);
      EntryIsOf(ops, h, q);
      assert !ByTime(h[q], h[p]);
    }
    forall id | 0 <= id < Size(h) ensures HasCall(h, id) && HasReturn(h, id) {
      HasBoth(ops, h, id);
    }
  }

  /** The order of the entries is the order of the timestamps. */
  lemma PrecedesIsTime<I, O>(ops: seq<Operation<I, O>>, h: seq<Entry<I, O>>, b: nat, a: nat)
    requires EntriesOf(ops, h) && Timed(ops) && WellFormed(h) && Size(h) == |ops| && a < |ops| && b < |ops|
    ensures Precedes(h, b, a) <==> ops[b].ret < ops[a].call
  {
    var p, q := ReturnAt(h, b), CallAt(h, a);
    EntryIsOf(ops, h, p);
    EntryIsOf(ops, h, q);
    if p < q {
      assert !ByTime(h[q], h[p]);
    } else {
      assert p != q;
      assert !ByTime(h[p], h[q]);
    }
  }

  // ----- operations and ids

  ghost function Pick<T>(ops: seq<T>, lin: seq<nat>): (r: seq<T>)
    requires forall k :: 0 <= k < |lin| ==> lin[k] < |ops|
    ensures |r| == |lin| && forall k :: 0 <= k < |lin| ==> r[k] == ops[lin[k]]
  {
    seq(|lin|, k requires 0 <= k < |lin| => ops[lin[k]])
  }

  ghost predicate Permutes(lin: seq<nat>, n: nat)
  {
    Distinct(lin) && |lin| == n && forall k :: 0 <= k < |lin| ==> lin[k] < n
  }

  function Without<T>(s: seq<T>, j: nat): seq<T>
    requires j < |s|
  {
    s[..j] + s[j + 1..]
  }

  lemma WithoutMultiset<T>(s: seq<T>, j: nat)
    requires j < |s|
    ensures multiset(s) == multiset(Without(s, j)) + multiset{s[j]}
  {
    assert s == s[..j] + [s[j]] + s[j + 1..];
  }

  lemma WithoutPermutes(lin: seq<nat>, n: nat, j: nat)
    requires Permutes(lin, n + 1) && j < |lin| && lin[j] == n
    ensures Permutes(Without(lin, j), n)
  {
    var r := Without(lin, j);
    forall k | 0 <= k < |r| ensures r[k] < n {
      assert r[k] == lin[if k < j then k else k + 1];
    }
  }

  lemma PickWithout<T>(ops: seq<T>, lin: seq<nat>, j: nat)
    requires ops != [] && Permutes(lin, |ops|) && j < |lin| && lin[j] == |ops| - 1
    ensures Permutes(Without(lin, j), |ops| - 1)
    ensures Pick(ops[..|ops| - 1], Without(lin, j)) == Without(Pick(ops, lin), j)
  {
    WithoutPermutes(lin, |ops| - 1, j);
    forall k | 0 <= k < |lin| - 1
      ensures Pick(ops[..|ops| - 1], Without(lin, j))[k] == Without(Pick(ops, lin), j)[k]
    {
      assert Without(lin, j)[k] == lin[if k < j then k else k + 1];
    }
  }

  /** Picking along a permutation picks every element once. */
  lemma {:induction false} PickAll<T>(ops: seq<T>, lin: seq<nat>)
    requires Permutes(lin, |ops|)
    ensures multiset(Pick(ops, lin)) == multiset(ops)
  {
    if ops != [] {
      var n := |ops| - 1;
      AllIds(lin, |ops|);
      assert n in Elems(lin);
      var j: nat :| j < |lin| && lin[j] == n;
      WithoutPermutes(lin, n, j);
      PickAll(ops[..n], Without(lin, j));
      PickWithout(ops, lin, j);
      WithoutMultiset(Pick(ops, lin), j);
      assert ops == ops[..n] + [ops[n]];
    }
  }

  lemma InsertPermutes(p: seq<nat>, n: nat, j: nat)
    requires Permutes(p, n) && j <= n
    ensures Permutes(p[..j] + [n] + p[j..], n + 1)
  {}

  lemma SameSize<T>(a: seq<T>, b: seq<T>)
    requires multiset(a) == multiset(b)
    ensures |a| == |b|
  {
    assert |multiset(a)| == |a|;
  }

  lemma LastOccurs<T>(ops: seq<T>, lin: seq<T>) returns (j: nat)
    requires multiset(lin) == multiset(ops) && ops != []
    ensures j < |lin| && lin[j] == ops[|ops| - 1] && multiset(Without(lin, j)) == multiset(ops[..|ops| - 1])
  {
    var n := |ops| - 1;
    assert ops == ops[..n] + [ops[n]];
    assert ops[n] in multiset(lin);
    j :| 0 <= j < |lin| && lin[j] == ops[n];
    WithoutMultiset(lin, j);
    CancelOne(multiset(Without(lin, j)), multiset(ops[..n]), ops[n]);
  }

  lemma NothingToPick<T>(ops: seq<T>)
    requires ops == []
    ensures Permutes([], |ops|) && Pick(ops, []) == []
  {}

  lemma PermutesBelow(p: seq<nat>, n: nat)
    requires Permutes(p, n)
    ensures |p| == n && forall k :: 0 <= k < |p| ==> p[k] < n
  {}

  /** Every rearrangement is picked along some permutation. */
  lemma {:induction false} PermutationOf<T>(ops: seq<T>, lin: seq<T>) returns (p: seq<nat>)
    requires multiset(lin) == multiset(ops)
    ensures Permutes(p, |ops|) && Pick(ops, p) == lin
  {
    hide *;
    SameSize(lin, ops);
    if ops == [] {
      p := [];
      NothingToPick(ops);
    } else {
      var n := |ops| - 1;
      var j := LastOccurs(ops, lin);
      var q := PermutationOf(ops[..n], Without(lin, j));
      PermutesBelow(q, n);
      p := q[..j] + [n] + q[j..];
      InsertPermutes(q, n, j);
      PermutesBelow(p, n + 1);
      PickInserted(ops, lin, q, j);
    }
  }

  lemma PickInserted<T>(ops: seq<T>, lin: seq<T>, q: seq<nat>, j: nat)
    requires ops != [] && j < |lin| == |ops| && lin[j] == ops[|ops| - 1]
    requires Permutes(q, |ops| - 1) && Pick(ops[..|ops| - 1], q) == Without(lin, j)
    ensures var p := q[..j] + [|ops| - 1] + q[j..];
      (forall k :: 0 <= k < |p| ==> p[k] < |ops|) && Pick(ops, p) == lin
  {
    var p := q[..j] + [|ops| - 1] + q[j..];
    forall k | 0 <= k < |p| ensures p[k] < |ops| && ops[p[k]] == lin[k] {
      if k < j {
        assert Pick(ops[..|ops| - 1], q)[k] == Without(lin, j)[k];
      } else if k > j {
        assert Pick(ops[..|ops| - 1], q)[k - 1] == Without(lin, j)[k - 1];
      }
    }
  }

  // ----- the two notions agree

  ghost function After<S, I, O>(m: Model<S, I, O>, s: S, lin: seq<Operation<I, O>>): S
  {
    if lin == [] then s else After(m, m.step(s, lin[0].input, lin[0].output).1, lin[1..])
  }

  lemma {:induction false} StepsSnoc<S, I, O>(m: Model<S, I, O>, s: S, lin: seq<Operation<I, O>>, x: Operation<I, O>)
    ensures Steps(m, s, lin + [x]) <==> Steps(m, s, lin) && m.step(After(m, s, lin), x.input, x.output).0
    ensures After(m, s, lin + [x]) == m.step(After(m, s, lin), x.input, x.output).1
  {
    var l := lin + [x];
    if lin == [] {
      assert l[1..] == [];
    } else {
      StepsSnoc(m, m.step(s, lin[0].input, lin[0].output).1, lin[1..], x);
      assert l[1..] == lin[1..] + [x];
    }
  }

  lemma {:induction false} AcceptedIsSteps<S, I, O>(m: Model<S, I, O>, ops: seq<Operation<I, O>>, h: seq<Entry<I, O>>,
      lin: seq<nat>)
    requires EntriesOf(ops, h) && WellFormed(h) && Size(h) == |ops| && Ids(h, lin)
    ensures Accepted(m, h, lin) <==> Steps(m, m.init, Pick(ops, lin))
    ensures Run(m, h, lin) == After(m, m.init, Pick(ops, lin))
  {
    if lin != [] {
      var n := |lin| - 1;
      var id := lin[n];
      AcceptedIsSteps(m, ops, h, lin[..n]);
      StepsSnoc(m, m.init, Pick(ops, lin[..n]), ops[id]);
      assert Pick(ops, lin) == Pick(ops, lin[..n]) + [ops[id]];
      EntryIsOf(ops, h, CallAt(h, id));
      EntryIsOf(ops, h, ReturnAt(h, id));
    }
  }

  lemma LinearizationIsOrder<S, I, O>(m: Model<S, I, O>, ops: seq<Operation<I, O>>, h: seq<Entry<I, O>>, lin: seq<nat>)
    requires EntriesOf(ops, h) && Timed(ops) && WellFormed(h) && Size(h) == |ops| && Permutes(lin, |ops|)
    ensures IsLinearization(m, h, lin) <==> Orders(m, ops, Pick(ops, lin))
  {
    PickAll(ops, lin);
    AcceptedIsSteps(m, ops, h, lin);
    var picked := Pick(ops, lin);
    forall i, j | 0 <= i < j < |lin|
      ensures Precedes(h, lin[j], lin[i]) <==> picked[j].ret < picked[i].call
    {
      PrecedesIsTime(ops, h, lin[j], lin[i]);
    }
  }

  /** For every sorted order of the entries, the checker decides linearizability of the operations. */
  lemma EntriesDecideOperations<S, I(!new), O(!new)>(m: Model<S, I, O>, ops: seq<Operation<I, O>>, h: seq<Entry<I, O>>)
    requires EntriesOf(ops, h) && Timed(ops)
    ensures WellFormed(h)
    ensures Linearizable(m, h) <==> OpsLinearizable(m, ops)
  {
    EntriesWellFormed(ops, h);
    if Linearizable(m, h) {
      var lin: seq<nat> :| IsLinearization(m, h, lin);
      LinearizationIsOrder(m, ops, h, lin);
    }
    if OpsLinearizable(m, ops) {
      var order: seq<Operation<I, O>> :| Orders(m, ops, order);
      var lin := PermutationOf(ops, order);
      LinearizationIsOrder(m, ops, h, lin);
    }
  }
}