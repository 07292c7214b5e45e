/**
 `checkEvents`: renumbering and converting keep what a history of events means, so the verdict is
 about the operations the events describe.
 */
module EventVerdict {
  import opened Sequences
  import opened Linearizability
  import opened Operations
  import opened Events
  import CheckParallel
  import Sorting

  // ----- the operations behind the events

  lemma ReturnUnique<I, O>(es: seq<Event<I, O>>, p: nat)
    requires Paired(es) && p < |es|
    ensures Called(es, es[p].id) && Returned(es, es[p].id)
    ensures es[p].ReturnEvent? ==> ReturnPos(es, es[p].id) == p
    ensures es[p].CallEvent? ==> CallPos(es, es[p].id) == p < ReturnPos(es, es[p].id)
  {
    assert Called(es, es[p].id) && Returned(es, es[p].id);
  }

  /** The operation called at position `p`: its time of call and return are the positions of the events. */
  ghost function OpAt<I, O>(es: seq<Event<I, O>>, p: nat): Operation<I, O>
    requires Paired(es) && p < |es| && es[p].CallEvent?
  {
    ReturnUnique(es, p);
    var q := ReturnPos(es, es[p].id);
    Operation(es[p].clientId, es[p].input, p, es[q].output, q)
  }

  /** The operations called in the first `n` events, in order of their calls. */
  ghost function OpsCalled<I, O>(es: seq<Event<I, O>>, n: nat): seq<Operation<I, O>>
    requires Paired(es) && n <= |es|
  {
    if n == 0 then []
    else OpsCalled(es, n - 1) + if es[n - 1].CallEvent? then [OpAt(es, n - 1)] else []
  }

  ghost function EventOps<I, O>(es: seq<Event<I, O>>): seq<Operation<I, O>>
    requires Paired(es)
  {
    OpsCalled(es, |es|)
  }

  /** Renaming the ids leaves the operations alone. */
  lemma {:induction false} RenamedOps<I, O>(es: seq<Event<I, O>>, r: seq<Event<I, O>>, n: nat)
    requires Paired(es) && Paired(r) && Renamed(es, r) && n <= |es|
    ensures OpsCalled(es, n) == OpsCalled(r, n)
  {
    hide *;
    if n == 0 {
      OpsCalledNone(es);
      OpsCalledNone(r);
    } else {
      RenamedOp(es, r, n - 1);
      RenamedOps(es, r, n - 1);
      OpsCalledNext(es, n - 1);
      OpsCalledNext(r, n - 1);
    }
  }

  lemma OpsCalledNone<I, O>(es: seq<Event<I, O>>)
    requires Paired(es)
    ensures OpsCalled(es, 0) == []
  {}

  lemma OpsCalledNext<I, O>(es: seq<Event<I, O>>, n: nat)
    requires Paired(es) && n < |es|
    ensures OpsCalled(es, n + 1) == OpsCalled(es, n) + if es[n].CallEvent? then [OpAt(es, n)] else []
  {
    hide OpAt, Paired;
  }

  lemma RenamedOp<I, O>(es: seq<Event<I, O>>, r: seq<Event<I, O>>, p: nat)
    requires Paired(es) && Paired(r) && Renamed(es, r) && p < |es|
    ensures |r| == |es| && (r[p].CallEvent? <==> es[p].CallEvent?)
    ensures es[p].CallEvent? ==> OpAt(es, p) == OpAt(r, p)
  {
    if es[p].CallEvent? {
      ReturnUnique(es, p);
      ReturnUnique(r, p);
      var q := ReturnPos(es, es[p].id);
      assert r[q].id == r[p].id && r[q].ReturnEvent?;
      ReturnUnique(r, q);
    }
  }

  ghost predicate IsCalled<I, O>(es: seq<Event<I, O>>, n: nat, x: Operation<I, O>)
    requires Paired(es) && n <= |es|
  {
    exists p: nat :: p < n && es[p].CallEvent? && x == OpAt(es, p)
  }

  lemma {:induction false} OpsCalledIff<I, O>(es: seq<Event<I, O>>, n: nat, x: Operation<I, O>)
    requires Paired(es) && n <= |es|
    ensures x in OpsCalled(es, n) <==> IsCalled(es, n, x)
  {
    if n > 0 {
      OpsCalledIff(es, n - 1, x);
      hide OpAt, Paired;
    }
  }

  lemma {:induction false} OpsCalledDistinct<I, O>(es: seq<Event<I, O>>, n: nat)
    requires Paired(es) && n <= |es|
    ensures Distinct(OpsCalled(es, n)) && forall i :: 0 <= i < |OpsCalled(es, n)| ==> OpsCalled(es, n)[i].call < n
  {
    if n > 0 {
      OpsCalledDistinct(es, n - 1);
      hide Paired;
    }
  }

  // ----- the operations by id

  ghost predicate AllPaired<I, O>(r: seq<Event<I, O>>, k: nat)
  {
    forall id: nat :: id < k ==> Called(r, id) && Returned(r, id)
  }

  lemma DensePaired<I, O>(r: seq<Event<I, O>>, k: nat)
    requires Paired(r) && Dense(r, k)
    ensures AllPaired(r, k)
  {
    forall id: nat | id < k ensures Called(r, id) && Returned(r, id) {
      assert Occurs(r, id);
    }
  }

  ghost function OpsById<I, O>(r: seq<Event<I, O>>, k: nat): (ops: seq<Operation<I, O>>)
    requires Paired(r) && AllPaired(r, k)
    ensures |ops| == k && forall id: nat :: id < k ==> ops[id] == OpAt(r, CallPos(r, id))
  {
    if k == 0 then [] else OpsById(r, k - 1) + [OpAt(r, CallPos(r, k - 1))]
  }

  /** The same operations, in order of ids and in order of calls. */
  lemma ByIdOrByCall<I, O>(r: seq<Event<I, O>>, k: nat)
    requires Paired(r) && Dense(r, k) && AllPaired(r, k)
    ensures multiset(OpsById(r, k)) == multiset(EventOps(r))
  {
    forall x ensures x in OpsById(r, k) <==> x in EventOps(r) {
      ByIdIff(r, k, x);
      OpsCalledIff(r, |r|, x);
    }
    ByIdDistinct(r, k);
    OpsCalledDistinct(r, |r|);
    hide OpsById, OpsCalled, Paired, Dense;
    SameElements(OpsById(r, k), EventOps(r));
  }

  lemma ByIdIff<I, O>(r: seq<Event<I, O>>, k: nat, x: Operation<I, O>)
    requires Paired(r) && Dense(r, k) && AllPaired(r, k)
    ensures x in OpsById(r, k) <==> IsCalled(r, |r|, x)
  {
    hide OpAt, Paired, Dense;
    var a := OpsById(r, k);
    if x in a {
      var id: nat :| id < k && a[id] == x;
      assert Called(r, id) && x == OpAt(r, CallPos(r, id));
    }
    if IsCalled(r, |r|, x) {
      var p: nat :| p < |r| && r[p].CallEvent? && x == OpAt(r, p);
      CallIsAt(r, k, p);
      assert a[r[p].id] == x;
    }
  }

  lemma CallIsAt<I, O>(r: seq<Event<I, O>>, k: nat, p: nat)
    requires Paired(r) && Dense(r, k) && p < |r| && r[p].CallEvent?
    ensures 0 <= r[p].id < k && Called(r, r[p].id) && CallPos(r, r[p].id) == p
  {
    ReturnUnique(r, p);
  }

  lemma ByIdDistinct<I, O>(r: seq<Event<I, O>>, k: nat)
    requires Paired(r) && AllPaired(r, k)
    ensures Distinct(OpsById(r, k))
  {
    var a := OpsById(r, k);
    forall i: nat, j: nat | i < j < k ensures a[i] != a[j] {
      assert a[i] == OpAt(r, CallPos(r, i)) && a[j] == OpAt(r, CallPos(r, j));
    }
  }

  /** One entry of the converted history. */
  lemma EntryAt<I, O>(r: seq<Event<I, O>>, k: nat, p: nat)
    requires Paired(r) && Dense(r, k) && AllPaired(r, k) && p < |r|
    ensures var id := r[p].id; var ops := OpsById(r, k);
      0 <= id < k && Convert(r)[p] == if r[p].CallEvent? then CallOf(ops, id) else ReturnOf(ops, id)
  {
    ReturnUnique(r, p);
    var id := r[p].id;
    ReturnUnique(r, CallPos(r, id));
  }

  ghost predicate EntryOfSome<I, O>(ops: seq<Operation<I, O>>, x: Entry<I, O>)
  {
    exists id: nat :: id < |ops| && (x == CallOf(ops, id) || x == ReturnOf(ops, id))
  }

  lemma SomeNext<I, O>(ops: seq<Operation<I, O>>, x: Entry<I, O>)
    requires ops != []
    ensures var n := |ops| - 1;
      EntryOfSome(ops, x) <==> EntryOfSome(ops[..n], x) || x == CallOf(ops, n) || x == ReturnOf(ops, n)
  {
    var n := |ops| - 1;
    if EntryOfSome(ops, x) {
      var id: nat :| id < |ops| && (x == CallOf(ops, id) || x == ReturnOf(ops, id));
      assert id < n ==> CallOf(ops[..n], id) == CallOf(ops, id) && ReturnOf(ops[..n], id) == ReturnOf(ops, id);
    }
    if EntryOfSome(ops[..n], x) {
      var id: nat :| id < n && (x == CallOf(ops[..n], id) || x == ReturnOf(ops[..n], id));
      assert CallOf(ops[..n], id) == CallOf(ops, id) && ReturnOf(ops[..n], id) == ReturnOf(ops, id);
    }
  }

  lemma {:induction false} RawAt<I, O>(ops: seq<Operation<I, O>>, x: Entry<I, O>)
    ensures x in RawEntries(ops) <==> EntryOfSome(ops, x)
  {
    if ops != [] {
      var n := |ops| - 1;
      RawAt(ops[..n], x);
      SomeNext(ops, x);
      hide EntryOfSome, CallOf, ReturnOf;
      assert RawEntries(ops) == RawEntries(ops[..n]) + [CallOf(ops, n), ReturnOf(ops, n)];
    }
  }

  lemma InConverted<I, O>(r: seq<Event<I, O>>, k: nat, id: nat)
    requires Paired(r) && Dense(r, k) && AllPaired(r, k) && id < k
    ensures CallOf(OpsById(r, k), id) in Convert(r) && ReturnOf(OpsById(r, k), id) in Convert(r)
  {
    EntryAt(r, k, CallPos(r, id));
    EntryAt(r, k, ReturnPos(r, id));
  }

  lemma ConvertedElements<I, O>(r: seq<Event<I, O>>, k: nat, x: Entry<I, O>)
    requires Paired(r) && Dense(r, k) && AllPaired(r, k)
    ensures x in Convert(r) <==> x in RawEntries(OpsById(r, k))
  {
    hide Paired, Dense, OpAt, CallOf, ReturnOf;
    var h, ops := Convert(r), OpsById(r, k);
    RawAt(ops, x);
    if x in h {
      var p: nat :| p < |h| && h[p] == x;
      EntryAt(r, k, p);
    }
    if EntryOfSome(ops, x) {
      var id: nat :| id < k && (x == CallOf(ops, id) || x == ReturnOf(ops, id));
      InConverted(r, k, id);
    }
  }

  /** The converted history is the entries of the operations, sorted. */
  lemma ConvertedEntries<I, O>(r: seq<Event<I, O>>, k: nat)
    requires Paired(r) && Dense(r, k) && AllPaired(r, k)
    ensures EntriesOf(OpsById(r, k), Convert(r)) && Timed(OpsById(r, k))
  {
    ByIdTimed(r, k);
    hide *;
    var h, ops := Convert(r), OpsById(r, k);
    forall x ensures x in h <==> x in RawEntries(ops) {
      ConvertedElements(r, k, x);
    }
    RawDistinct(ops);
    ConvertedSorted(r);
    SameElements(h, RawEntries(ops));
    EntriesFrom(ops, h);
  }

  lemma EntriesFrom<I, O>(ops: seq<Operation<I, O>>, h: seq<Entry<I, O>>)
    requires multiset(h) == multiset(RawEntries(ops)) && Sorting.Sorted(h, ByTime<I, O>)
    ensures EntriesOf(ops, h)
  {}

  lemma ConvertedSorted<I, O>(r: seq<Event<I, O>>)
    ensures Distinct(Convert(r)) && Sorting.Sorted(Convert(r), ByTime<I, O>)
  {
    var h := Convert(r);
    forall i, j | 0 <= i < j < |h| ensures h[i] != h[j] && !ByTime(h[j], h[i]) {
      assert h[i].time == i && h[j].time == j;
    }
  }

  lemma ByIdTimed<I, O>(r: seq<Event<I, O>>, k: nat)
    requires Paired(r) && AllPaired(r, k)
    ensures Timed(OpsById(r, k))
  {
    var ops := OpsById(r, k);
    forall id: nat | id < k ensures ops[id].call <= ops[id].ret {
      assert ops[id] == OpAt(r, CallPos(r, id));
      ReturnUnique(r, CallPos(r, id));
    }
  }

  /** A converted and renumbered history is linearizable exactly if the operations behind the events are. */
  lemma EventsDecideOperations<S, I(!new), O(!new)>(m: Model<S, I, O>, es: seq<Event<I, O>>, r: seq<Event<I, O>>,
      k: nat)
    requires Paired(es) && Renamed(es, r) && Dense(r, k)
    ensures WellFormed(Convert(r))
    ensures Linearizable(m, Convert(r)) <==> OpsLinearizable(m, EventOps(es))
  {
    RenamedPaired(es, r);
    DensePaired(r, k);
    RenamedOps(es, r, |es|);
    ByIdOrByCall(r, k);
    ConvertedEntries(r, k);
    hide *;
    EntriesDecideOperations(m, OpsById(r, k), Convert(r));
    SameOps(m, OpsById(r, k), EventOps(es));
  }

  lemma SameOps<S, I(!new), O(!new)>(m: Model<S, I, O>, a: seq<Operation<I, O>>, b: seq<Operation<I, O>>)
    requires multiset(a) == multiset(b)
    ensures OpsLinearizable(m, a) <==> OpsLinearizable(m, b)
  {
    if lin: seq<Operation<I, O>> :| Orders(m, a, lin) {
      assert Orders(m, b, lin);
    }
    if lin: seq<Operation<I, O>> :| Orders(m, b, lin) {
      assert Orders(m, a, lin);
    }
  }

  // ----- checkEvents, for a model that does not partition

  /** With one part to wait for, the question stays open only if the timeout comes first. */
  lemma OneUndecided<S, I, O>(m: Model<S, I, O>, hs: seq<seq<Entry<I, O>>>, events: seq<CheckParallel.Arrival>)
    requires |hs| == 1 && WellFormed(hs[0])
    ensures CheckParallel.Undecided(m, hs, events) <==> CheckParallel.TimedOutAt(events, 0)
  {
    assert CheckParallel.Heard(events[..0]) == {};
    assert CheckParallel.GoodSoFar(m, hs, events[..0]);
  }

  method CheckEvents<S(==), I(!new), O(!new)>(
    m: Model<S, I, O>, history: seq<Event<I, O>>, verbose: bool, events: seq<CheckParallel.Arrival>,
    seen: (nat, nat) -> bool)
    returns (result: CheckParallel.CheckResult)
    requires Paired(history) && CheckParallel.Schedule(events, 1)
    ensures result.Okay? ==> OpsLinearizable(m, EventOps(history))
    ensures result.Illegal? ==> !OpsLinearizable(m, EventOps(history))
    ensures result.Unknown? <==> CheckParallel.TimedOutAt(events, 0)
  {
    var r, k := Renumber(history);
    EventsDecideOperations(m, history, r, k);
    hide OpsLinearizable, Linearizable, WellFormed, Paired, EventOps, CheckParallel.Schedule;
    var hs := [Convert(r)];
    var longest;
    result, longest := CheckParallel.CheckParallel(m, hs, verbose, events, seen);
    assert CheckParallel.AllLinearizable(m, hs) <==> Linearizable(m, hs[0]);
    OneUndecided(m, hs, events);
  }
}
