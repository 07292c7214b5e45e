/**
 `checkParallel` and `checkOperations`: one search per partition, results arriving in any order,
 and possibly a timeout.  For the key/value model the combined answer is the answer for the whole
 store.
 */
module CheckParallel {
  import opened Sequences
  import opened Linearizability
  import opened Operations
  import opened KvLocality
  import opened Search
  import opened Checker
  import Sorting
  import StringOrder

  datatype CheckResult = Unknown | Okay | Illegal

  /** What the select statement receives: the result of a finished partition, or the timeout. */
  datatype Arrival = Finished(i: nat) | Timeout

  /** Each partition reports once; all of them do, unless the timeout fires. */
  ghost predicate Schedule(events: seq<Arrival>, n: nat)
  {
    && (forall k :: 0 <= k < |events| && events[k].Finished? ==> events[k].i < n)
    && (forall j, k :: 0 <= j < k < |events| && events[j].Finished? && events[k].Finished? ==>
          events[j].i != events[k].i)
    && (Timeout in events || forall i: nat :: i < n ==> Finished(i) in events)
  }

  ghost predicate AllLinearizable<S, I, O>(m: Model<S, I, O>, hs: seq<seq<Entry<I, O>>>)
    requires forall i :: 0 <= i < |hs| ==> WellFormed(hs[i])
  {
    forall i :: 0 <= i < |hs| ==> Linearizable(m, hs[i])
  }

  /** The partitions heard from so far. */
  function Heard(events: seq<Arrival>): set<nat>
  {
    set e | e in events && e.Finished? :: e.i
  }

  /** As many results as partitions means all of them reported. */
  lemma CountIsAll(events: seq<Arrival>, n: nat, k: nat)
    requires Schedule(events, n) && k <= |events| && Timeout !in events[..k]
    ensures |Heard(events[..k])| == k <= n
    ensures k == n ==> forall i: nat :: i < n ==> i in Heard(events[..k])
    decreases k
  {
    HeardCount(events, n, k);
    BelowCard(n);
    assert Heard(events[..k]) <= Below(n);
    SubsetCard(Heard(events[..k]), Below(n));
    if k == n {
      SubsetSameCard(Heard(events[..k]), Below(n));
    }
  }

  lemma {:induction false} HeardCount(events: seq<Arrival>, n: nat, k: nat)
    requires Schedule(events, n) && k <= |events| && Timeout !in events[..k]
    ensures |Heard(events[..k])| == k
  {
    if k > 0 {
      var e := events[k - 1];
      assert events[..k] == events[..k - 1] + [e];
      assert e in events[..k] && e != Timeout;
      HeardCount(events, n, k - 1);
      assert Heard(events[..k]) == Heard(events[..k - 1]) + {e.i};
      forall x | x in events[..k - 1] && x.Finished? ensures x.i != e.i {
        var j :| 0 <= j < k - 1 && events[j] == x;
      }
    }
  }

  /** Every partition heard from is linearizable. */
  ghost predicate GoodSoFar<S, I, O>(m: Model<S, I, O>, hs: seq<seq<Entry<I, O>>>, events: seq<Arrival>)
    requires forall i :: 0 <= i < |hs| ==> WellFormed(hs[i])
  {
    forall i: nat :: i in Heard(events) && i < |hs| ==> Linearizable(m, hs[i])
  }

  lemma HearOne<S, I, O>(m: Model<S, I, O>, hs: seq<seq<Entry<I, O>>>, events: seq<Arrival>, k: nat)
    requires forall i :: 0 <= i < |hs| ==> WellFormed(hs[i])
    requires Schedule(events, |hs|) && k < |events| && events[k].Finished?
    ensures events[k].i < |hs| && Heard(events[..k + 1]) == Heard(events[..k]) + {events[k].i}
    ensures Timeout !in events[..k] ==> Timeout !in events[..k + 1]
    ensures GoodSoFar(m, hs, events[..k + 1]) <==> GoodSoFar(m, hs, events[..k]) && Linearizable(m, hs[events[k].i])
  {
    assert events[..k + 1] == events[..k] + [events[k]];
    assert Heard(events[..k + 1]) == Heard(events[..k]) + {events[k].i};
  }

  lemma HearAll<S, I, O>(m: Model<S, I, O>, hs: seq<seq<Entry<I, O>>>, events: seq<Arrival>, k: nat)
    requires forall i :: 0 <= i < |hs| ==> WellFormed(hs[i])
    requires Schedule(events, |hs|) && k <= |events| && Timeout !in events[..k]
    ensures k <= |hs| && (!GoodSoFar(m, hs, events[..k]) ==> !AllLinearizable(m, hs))
    ensures k == |hs| && GoodSoFar(m, hs, events[..k]) ==> AllLinearizable(m, hs)
  {
    CountIsAll(events, |hs|, k);
  }

  // ----- the timeout

  /** The timeout is what the loop receives after `k` results. */
  ghost predicate TimedOutAt(events: seq<Arrival>, k: nat)
  {
    k < |events| && events[k] == Timeout && Timeout !in events[..k]
  }

  /** The timeout comes before all `n` have reported. */
  ghost predicate TimeRunsOut(events: seq<Arrival>, n: nat)
  {
    exists k: nat :: k < n && TimedOutAt(events, k)
  }

  /** It does, and those that have reported are linearizable. */
  ghost predicate Undecided<S, I, O>(m: Model<S, I, O>, hs: seq<seq<Entry<I, O>>>, events: seq<Arrival>)
    requires forall i :: 0 <= i < |hs| ==> WellFormed(hs[i])
  {
    exists k: nat :: k < |hs| && TimedOutAt(events, k) && GoodSoFar(m, hs, events[..k])
  }

  /** Where the loop stops settles whether the question stays open. */
  lemma WhereItStops<S, I, O>(m: Model<S, I, O>, hs: seq<seq<Entry<I, O>>>, events: seq<Arrival>, count: nat)
    requires forall i :: 0 <= i < |hs| ==> WellFormed(hs[i])
    requires count <= |events| && Timeout !in events[..count]
    ensures count < |hs| && TimedOutAt(events, count) ==>
      (Undecided(m, hs, events) <==> GoodSoFar(m, hs, events[..count]))
    ensures count >= |hs| || !GoodSoFar(m, hs, events[..count]) ==> !Undecided(m, hs, events)
  {
    forall k: nat | TimedOutAt(events, k)
      ensures count <= k && (GoodSoFar(m, hs, events[..k]) ==> GoodSoFar(m, hs, events[..count]))
      ensures TimedOutAt(events, count) ==> k == count
    {
      FirstTimeout(events, count, k);
    }
  }

  lemma TimedOutIs(events: seq<Arrival>, k: nat, n: nat)
    requires k <= |events| && Timeout !in events[..k]
    ensures TimedOutAt(events, k) <==> k < |events| && events[k] == Timeout
    ensures TimedOutAt(events, k) && k < n ==> TimeRunsOut(events, n)
  {}

  lemma PrefixHas(events: seq<Arrival>, k: nat, n: nat)
    requires k < n <= |events|
    ensures events[k] in events[..n] && events[..k] <= events[..n]
  {
    assert events[..n][k] == events[k];
  }

  lemma FirstTimeout(events: seq<Arrival>, count: nat, k: nat)
    requires count <= |events| && Timeout !in events[..count] && TimedOutAt(events, k)
    ensures count <= k && Heard(events[..count]) <= Heard(events[..k])
    ensures TimedOutAt(events, count) ==> k == count
  {
    if k < count {
      PrefixHas(events, k, count);
    } else if count < k {
      PrefixHas(events, count, k);
    }
  }

  // ----- partial linearizations

  /** For every operation a longest partial linearization that contains it, or none if there is none. */
  ghost predicate AllLongest<S, I, O>(m: Model<S, I, O>, h: seq<Entry<I, O>>, longest: seq<Option<seq<nat>>>)
    requires WellFormed(h)
  {
    |longest| == Size(h) && forall id: nat :: id < Size(h) ==> LongestFor(m, h, longest, id)
  }

  lemma CompleteIsLongest<S, I, O>(m: Model<S, I, O>, h: seq<Entry<I, O>>, longest: seq<Option<seq<nat>>>)
    requires WellFormed(h) && LongestSound(m, h, longest)
    requires forall id: nat :: id < Size(h) ==> longest[id].Some? && IsLinearization(m, h, longest[id].value)
    ensures AllLongest(m, h, longest)
  {
    forall id: nat | id < Size(h) ensures LongestFor(m, h, longest, id) {
      forall lin: seq<nat> | PartialLinearization(m, h, lin) && id in lin ensures |lin| <= |longest[id].value| {
        AtMostAllIds(lin, Size(h));
      }
    }
  }

  /** What an unkilled search leaves behind. */
  lemma SearchedAll<S, I, O>(m: Model<S, I, O>, h: seq<Entry<I, O>>, ok: bool, longest: seq<Option<seq<nat>>>)
    requires WellFormed(h) && LongestSound(m, h, longest)
    requires ok ==> forall id: nat :: id < Size(h) ==> longest[id].Some? && IsLinearization(m, h, longest[id].value)
    requires !ok ==> forall id: nat :: id < Size(h) ==> LongestFor(m, h, longest, id)
    ensures AllLongest(m, h, longest)
  {
    if ok {
      CompleteIsLongest(m, h, longest);
    }
  }

  /** The tables of the partitions in `heard` are sound, and complete where asked for. */
  ghost predicate Info<S, I, O>(m: Model<S, I, O>, hs: seq<seq<Entry<I, O>>>, tables: seq<seq<Option<seq<nat>>>>,
      heard: set<nat>, full: bool)
    requires forall i :: 0 <= i < |hs| ==> WellFormed(hs[i])
  {
    && |tables| == |hs|
    && forall i: nat :: i < |hs| && i in heard ==>
         LongestSound(m, hs[i], tables[i]) && (full ==> AllLongest(m, hs[i], tables[i]))
  }

  lemma InfoNext<S, I, O>(m: Model<S, I, O>, hs: seq<seq<Entry<I, O>>>, tables: seq<seq<Option<seq<nat>>>>,
      heard: set<nat>, full: bool, i: nat, l: seq<Option<seq<nat>>>)
    requires forall i :: 0 <= i < |hs| ==> WellFormed(hs[i])
    requires Info(m, hs, tables, heard, full) && i < |hs|
    requires LongestSound(m, hs[i], l) && (full ==> AllLongest(m, hs[i], l))
    ensures |tables| == |hs| && Info(m, hs, tables[i := l], heard + {i}, full)
  {}

  // ----- the loop

  /** What search `i` finds when it reads the flag. */
  function Flag(kill: bool, seen: (nat, nat) -> bool, i: nat): nat -> bool
  {
    (n: nat) => kill && seen(i, n)
  }

  lemma FlagDown(seen: (nat, nat) -> bool, i: nat)
    ensures forall n: nat :: !Flag(false, seen, i)(n)
  {}

  /** The result of search `i`, received while the flag is down. */
  method Receive<S(==), I, O>(m: Model<S, I, O>, h: seq<Entry<I, O>>, computeInfo: bool, kill: bool,
      seen: (nat, nat) -> bool, i: nat)
    returns (r: bool, l: seq<Option<seq<nat>>>)
    requires WellFormed(h) && !kill
    ensures r <==> Linearizable(m, h)
    ensures LongestSound(m, h, l) && (computeInfo ==> AllLongest(m, h, l))
  {
    hide *;
    FlagDown(seen, i);
    r, l := CheckSingle(m, h, computeInfo, Flag(kill, seen, i));
    if computeInfo {
      SearchedAll(m, h, r, l);
    }
  }

  /**
   The searches share one kill flag; `seen(i, n)` says whether search `i` would find it raised at
   its iteration `n`, which it does only once it has been raised.  Every result the loop receives
   comes from a search that ended while the flag was down.
   */
  method CheckParallel<S(==), I, O>(
    m: Model<S, I, O>, hs: seq<seq<Entry<I, O>>>, computeInfo: bool, events: seq<Arrival>, seen: (nat, nat) -> bool)
    returns (result: CheckResult, longest: seq<seq<Option<seq<nat>>>>)
    requires hs != [] && forall i :: 0 <= i < |hs| ==> WellFormed(hs[i])
    requires Schedule(events, |hs|)
    ensures result.Okay? ==> AllLinearizable(m, hs)
    ensures result.Illegal? ==> !AllLinearizable(m, hs)
    ensures result.Unknown? <==> Undecided(m, hs, events)
    ensures |longest| == |hs|
    ensures computeInfo ==> forall i: nat :: i < |hs| ==> LongestSound(m, hs[i], longest[i])
    ensures computeInfo && !TimeRunsOut(events, |hs|) ==> forall i: nat :: i < |hs| ==> AllLongest(m, hs[i], longest[i])
  {
    var ok, timedOut, kill := true, false, false;
    var count := 0;
    longest := seq(|hs|, _ => []);
    NothingHeard(m, hs, longest, events, computeInfo);
    hide *;
    while true
      invariant count <= |events| && Timeout !in events[..count] && count < |hs|
      invariant ok <==> GoodSoFar(m, hs, events[..count])
      invariant !kill
      invariant Info(m, hs, longest, Heard(events[..count]), computeInfo)
      invariant !timedOut
      decreases |events| - count
    {
      NotOver(events, |hs|, count);
      HearAll(m, hs, events, count);
      var event := events[count];
      if event.Timeout? {
        timedOut := true;
        kill := true;
        break;
      }
      HearOne(m, hs, events, count);
      var r, l := Receive(m, hs[event.i], computeInfo, kill, seen, event.i);
      InfoNext(m, hs, longest, Heard(events[..count]), computeInfo, event.i, l);
      longest := longest[event.i := l];
      count := count + 1;
      ok := ok && r;
      HearAll(m, hs, events, count);
      if !ok && !computeInfo {
        kill := true;
        break;
      }
      if count >= |hs| {
        break;
      }
    }
    WhereItStops(m, hs, events, count);
    TimedOutIs(events, count, |hs|);
    if computeInfo {
      longest := CollectRest(m, hs, events, count, kill, seen, longest);
    }
    if !ok {
      result := Illegal;
    } else if timedOut {
      result := Unknown;
    } else {
      result := Okay;
    }
  }

  lemma NothingHeard<S, I, O>(m: Model<S, I, O>, hs: seq<seq<Entry<I, O>>>, tables: seq<seq<Option<seq<nat>>>>,
      events: seq<Arrival>, full: bool)
    requires |tables| == |hs| && forall i :: 0 <= i < |hs| ==> WellFormed(hs[i])
    ensures GoodSoFar(m, hs, events[..0]) && Info(m, hs, tables, Heard(events[..0]), full)
  {}

  lemma InfoDone<S, I, O>(m: Model<S, I, O>, hs: seq<seq<Entry<I, O>>>, tables: seq<seq<Option<seq<nat>>>>,
      heard: set<nat>, full: bool)
    requires forall i :: 0 <= i < |hs| ==> WellFormed(hs[i])
    requires Info(m, hs, tables, heard, full) && forall i: nat :: i < |hs| ==> i in heard
    ensures |tables| == |hs| && forall i: nat :: i < |hs| ==> LongestSound(m, hs[i], tables[i])
    ensures full ==> forall i: nat :: i < |hs| ==> AllLongest(m, hs[i], tables[i])
  {}

  lemma InfoWeaker<S, I, O>(m: Model<S, I, O>, hs: seq<seq<Entry<I, O>>>, tables: seq<seq<Option<seq<nat>>>>,
      heard: set<nat>, full: bool)
    requires forall i :: 0 <= i < |hs| ==> WellFormed(hs[i])
    requires Info(m, hs, tables, heard, full)
    ensures Info(m, hs, tables, heard, false)
  {}

  /** Waiting for the searches not heard from; a raised flag may cut them short. */
  method CollectRest<S(==), I, O>(
    m: Model<S, I, O>, hs: seq<seq<Entry<I, O>>>, events: seq<Arrival>, count: nat, kill: bool,
    seen: (nat, nat) -> bool, longest: seq<seq<Option<seq<nat>>>>)
    returns (tables: seq<seq<Option<seq<nat>>>>)
    requires forall i :: 0 <= i < |hs| ==> WellFormed(hs[i])
    requires Schedule(events, |hs|) && count <= |events| && Timeout !in events[..count]
    requires Info(m, hs, longest, Heard(events[..count]), true)
    ensures |tables| == |hs| && forall i: nat :: i < |hs| ==> LongestSound(m, hs[i], tables[i])
    ensures count == |hs| ==> forall i: nat :: i < |hs| ==> AllLongest(m, hs[i], tables[i])
  {
    CountIsAll(events, |hs|, count);
    tables := longest;
    if count == |hs| {
      InfoDone(m, hs, tables, Heard(events[..count]), true);
      return;
    }
    InfoWeaker(m, hs, tables, Heard(events[..count]), true);
    hide *;
    var reported: set<nat> := Heard(events[..count]);
    ghost var heard: set<nat> := reported;
    for i: nat := 0 to |hs|
      invariant Info(m, hs, tables, heard, false) && reported <= heard
      invariant forall j: nat :: j < i ==> j in heard
    {
      if i !in reported {
        var r, l := CheckSingle(m, hs[i], true, Flag(kill, seen, i));
        InfoNext(m, hs, tables, heard, false, i, l);
        tables := tables[i := l];
      }
      heard := heard + {i};
    }
    InfoDone(m, hs, tables, heard, false);
  }

  lemma NotOver(events: seq<Arrival>, n: nat, k: nat)
    requires Schedule(events, n) && k <= |events| && Timeout !in events[..k] && k < n
    ensures k < |events|
  {
    if k == |events| {
      assert events[..k] == events;
      CountIsAll(events, n, k);
      forall i: nat | i < n ensures i in Heard(events) {
        assert Finished(i) in events;
      }
      BelowCard(n);
      SubsetCard(Below(n), Heard(events));
    }
  }

  // ----- checkOperations for the key/value model

  method MakeAllEntries(parts: seq<seq<KvOp>>) returns (hs: seq<seq<Entry<KvInput, KvOutput>>>)
    ensures |hs| == |parts| && forall i :: 0 <= i < |parts| ==> EntriesOf(parts[i], hs[i])
  {
    hide EntriesOf;
    hs := [];
    for i := 0 to |parts|
      invariant |hs| == i && forall j :: 0 <= j < i ==> EntriesOf(parts[j], hs[j])
    {
      var h := MakeEntries(parts[i]);
      hs := hs + [h];
    }
  }

  lemma PartTimed(ops: seq<KvOp>, keys: seq<string>, parts: seq<seq<KvOp>>, i: nat)
    requires PartitionOf(ops, keys, parts) && Timed(ops) && i < |parts|
    ensures Timed(parts[i])
  {
    forall k | 0 <= k < |parts[i]| ensures parts[i][k].call <= parts[i][k].ret {
      assert parts[i][k] in ops;
    }
  }

  /** The per-key searches together decide the whole store. */
  lemma PartsDecideStore(ops: seq<KvOp>, keys: seq<string>, parts: seq<seq<KvOp>>,
      hs: seq<seq<Entry<KvInput, KvOutput>>>)
    requires PartitionOf(ops, keys, parts) && Timed(ops)
    requires |hs| == |parts| && forall i :: 0 <= i < |parts| ==> EntriesOf(parts[i], hs[i])
    ensures forall i :: 0 <= i < |hs| ==> WellFormed(hs[i])
    ensures AllLinearizable(KvModel, hs) <==> OpsLinearizable(StoreModel, ops)
    ensures forall i :: 0 <= i < |hs| ==> (Linearizable(KvModel, hs[i]) <==> OpsLinearizable(KvModel, parts[i]))
  {
    forall i | 0 <= i < |hs|
      ensures WellFormed(hs[i]) && (Linearizable(KvModel, hs[i]) <==> OpsLinearizable(KvModel, parts[i]))
    {
      PartTimed(ops, keys, parts, i);
      EntriesDecideOperations(KvModel, parts[i], hs[i]);
    }
    Locality(ops, keys, parts);
  }

  /** The keys of a history. */
  ghost function KeySet(ops: seq<KvOp>): set<string>
  {
    set op | op in ops :: op.input.key
  }

  lemma OnePartPerKey(ops: seq<KvOp>, keys: seq<string>, parts: seq<seq<KvOp>>)
    requires PartitionOf(ops, keys, parts)
    ensures |parts| == |KeySet(ops)| && Elems(keys) == KeySet(ops)
  {
    DistinctCard(keys);
    forall i | 0 <= i < |keys| ensures keys[i] in KeySet(ops) {
      assert parts[i][0] in parts[i];
    }
    assert Elems(keys) == KeySet(ops);
  }

  /** The time runs out before all keys have reported, and those that have are linearizable. */
  ghost predicate KeysUndecided(ops: seq<KvOp>, keys: seq<string>, events: seq<Arrival>)
  {
    exists k: nat :: k < |keys| && TimedOutAt(events, k) && GoodKeys(ops, keys, Heard(events[..k]))
  }

  ghost predicate GoodKeys(ops: seq<KvOp>, keys: seq<string>, heard: set<nat>)
  {
    forall i: nat :: i in heard && i < |keys| ==> OpsLinearizable(KvModel, Filter(ops, keys[i]))
  }

  lemma SameUndecided(ops: seq<KvOp>, keys: seq<string>, hs: seq<seq<Entry<KvInput, KvOutput>>>, events: seq<Arrival>)
    requires |hs| == |keys| && forall i :: 0 <= i < |hs| ==> WellFormed(hs[i])
    requires forall i :: 0 <= i < |hs| ==>
      (Linearizable(KvModel, hs[i]) <==> OpsLinearizable(KvModel, Filter(ops, keys[i])))
    ensures Undecided(KvModel, hs, events) <==> KeysUndecided(ops, keys, events)
  {
    hide WellFormed, Linearizable, OpsLinearizable, TimedOutAt, Filter, Heard;
    forall k: nat ensures k <= |events| ==>
      (GoodSoFar(KvModel, hs, events[..k]) <==> GoodKeys(ops, keys, Heard(events[..k])))
    {
    }
  }

  lemma PartitionFacts(ops: seq<KvOp>, keys: seq<string>, parts: seq<seq<KvOp>>)
    requires PartitionOf(ops, keys, parts)
    ensures Distinct(keys) && |parts| == |keys| && (ops != [] ==> parts != [])
    ensures forall i :: 0 <= i < |keys| ==> parts[i] == Filter(ops, keys[i])
  {
    assert ops != [] ==> ops[0] in ops;
  }

  lemma SearchesDecide(ops: seq<KvOp>, keys: seq<string>, parts: seq<seq<KvOp>>,
      hs: seq<seq<Entry<KvInput, KvOutput>>>, events: seq<Arrival>)
    requires ops != [] && PartitionOf(ops, keys, parts) && Timed(ops)
    requires |hs| == |parts| && forall i :: 0 <= i < |parts| ==> EntriesOf(parts[i], hs[i])
    ensures Distinct(keys) && Elems(keys) == KeySet(ops) && |hs| == |KeySet(ops)| && hs != []
    ensures forall i :: 0 <= i < |hs| ==> WellFormed(hs[i])
    ensures AllLinearizable(KvModel, hs) <==> OpsLinearizable(StoreModel, ops)
    ensures Undecided(KvModel, hs, events) <==> KeysUndecided(ops, keys, events)
  {
    hide *;
    PartsDecideStore(ops, keys, parts, hs);
    OnePartPerKey(ops, keys, parts);
    PartitionFacts(ops, keys, parts);
    SameUndecided(ops, keys, hs, events);
  }

  /**
   `arrivals(n)` is the order in which the results of `n` partitions come in, and where the
   timeout falls.  Partition `i` holds the operations of the `i`-th key in ascending order.  An empty
   history has no partition to wait for and is not accepted.
   */
  method CheckKvOperations(ops: seq<KvOp>, verbose: bool, arrivals: nat -> seq<Arrival>, seen: (nat, nat) -> bool)
    returns (result: CheckResult, ghost keys: seq<string>)
    requires ops != [] && Timed(ops)
    requires forall n: nat :: Schedule(arrivals(n), n)
    ensures Distinct(keys) && Elems(keys) == KeySet(ops) && Sorting.Sorted(keys, StringOrder.Less)
    ensures result.Okay? ==> OpsLinearizable(StoreModel, ops)
    ensures result.Illegal? ==> !OpsLinearizable(StoreModel, ops)
    ensures result.Unknown? <==> KeysUndecided(ops, keys, arrivals(|KeySet(ops)|))
  {
    hide *;
    var parts;
    parts, keys := Partition(ops);
    var hs := MakeAllEntries(parts);
    SearchesDecide(ops, keys, parts, hs, arrivals(|hs|));
    var longest;
    result, longest := CheckParallel(KvModel, hs, verbose, arrivals(|hs|), seen);
  }
}
