/** What it means for a history of the key/value store to be linearizable, without running the model. */
module KvMeaning {
  import opened Operations
  import opened KvLocality
  import opened Register

  /** What the operations put into or append to a key, in order. */
  ghost function ChangesTo(ops: seq<KvOp>, key: string): seq<Change>
  {
    if ops == [] then []
    else
      var x := ops[|ops| - 1].input;
      ChangesTo(ops[..|ops| - 1], key) +
      if x.key != key || x.op == 0 then [] else [if x.op == 1 then Put(x.value) else Append(x.value)]
  }

  /** If the operation is a get, it returned the last put of its key before it, with all later appends. */
  ghost predicate ReadsLatest(lin: seq<KvOp>, i: nat)
    requires i < |lin|
  {
    lin[i].input.op == 0 ==> Holds(ChangesTo(lin[..i], lin[i].input.key), lin[i].output.value)
  }

  ghost predicate StoreHolds(ops: seq<KvOp>, st: Store)
  {
    forall key :: Holds(ChangesTo(ops, key), Lookup(st, key))
  }

  lemma ChangesNext(lin: seq<KvOp>, k: nat, key: string)
    requires k < |lin|
    ensures var x := lin[k].input;
      ChangesTo(lin[..k + 1], key) == ChangesTo(lin[..k], key) +
        if x.key != key || x.op == 0 then [] else [if x.op == 1 then Put(x.value) else Append(x.value)]
  {
    assert lin[..k + 1][..k] == lin[..k];
  }

  lemma StoreHoldsNext(lin: seq<KvOp>, k: nat, st: Store)
    requires k < |lin| && StoreHolds(lin[..k], st)
    ensures var (ok, st') := StoreStep(st, lin[k].input, lin[k].output);
      (ok <==> ReadsLatest(lin, k)) && StoreHolds(lin[..k + 1], st')
  {
    var x := lin[k].input;
    var (ok, st') := StoreStep(st, x, lin[k].output);
    forall key ensures Holds(ChangesTo(lin[..k + 1], key), Lookup(st', key)) {
      var changes := ChangesTo(lin[..k], key);
      ChangesNext(lin, k, key);
      assert Holds(changes, Lookup(st, key));
      hide Holds, ChangesTo;
      if x.key == key && x.op != 0 {
        HoldsNext(changes, Lookup(st, key), if x.op == 1 then Put(x.value) else Append(x.value));
      } else {
        assert changes + [] == changes;
      }
    }
    var now := Lookup(st, x.key);
    assert Holds(ChangesTo(lin[..k], x.key), now);
    if x.op == 0 && ReadsLatest(lin, k) {
      HoldsOne(ChangesTo(lin[..k], x.key), now, lin[k].output.value);
    }
  }

  lemma {:induction false} LegalFrom(lin: seq<KvOp>, k: nat, st: Store)
    requires k <= |lin| && StoreHolds(lin[..k], st)
    ensures Steps(StoreModel, st, lin[k..]) <==> forall i: nat :: k <= i < |lin| ==> ReadsLatest(lin, i)
    decreases |lin| - k
  {
    hide StoreHolds, ReadsLatest;
    if k < |lin| {
      StoreHoldsNext(lin, k, st);
      LegalFrom(lin, k + 1, StoreStep(st, lin[k].input, lin[k].output).1);
      assert lin[k..][1..] == lin[k + 1..];
    }
  }

  /** The store accepts a sequence of operations exactly if every get returned the latest value. */
  lemma AcceptsIff(lin: seq<KvOp>)
    ensures Steps(StoreModel, map[], lin) <==> forall i: nat :: i < |lin| ==> ReadsLatest(lin, i)
  {
    forall key ensures Holds(ChangesTo([], key), Lookup(map[], key)) {
      HoldsNothing();
    }
    assert lin[..0] == [] && lin[0..] == lin;
    LegalFrom(lin, 0, map[]);
  }

  ghost predicate Explains(ops: seq<KvOp>, lin: seq<KvOp>)
  {
    multiset(lin) == multiset(ops) && InRealTime(lin) && forall i: nat :: i < |lin| ==> ReadsLatest(lin, i)
  }

  /**
   A history is linearizable exactly if its operations can be put in an order that respects real time
   and in which every get returns the last put before it, followed by all later appends.
   */
  lemma LinearizableIff(ops: seq<KvOp>)
    ensures OpsLinearizable(StoreModel, ops) <==> exists lin: seq<KvOp> :: Explains(ops, lin)
  {
    forall lin: seq<KvOp> ensures Orders(StoreModel, ops, lin) <==> Explains(ops, lin) {
      AcceptsIff(lin);
    }
  }
}
