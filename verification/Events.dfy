/**
 Histories given as events in the order they happened.  Renumbering makes the ids dense in the
 order of first occurrence, so that any history in which every operation is called and then
 returns becomes a well-formed one with the same operations.
 */
module Events {
  import opened Sequences
  import opened Linearizability

  datatype Event<+I, +O> =
    | CallEvent(clientId: int, id: int, input: I)
    | ReturnEvent(clientId: int, id: int, output: O)

  /** Each id that occurs has one call and one later return. */
  ghost predicate Paired<I, O>(es: seq<Event<I, O>>)
  {
    && (forall p, q :: 0 <= p < q < |es| && es[p].id == es[q].id ==> es[p].CallEvent? && es[q].ReturnEvent?)
    && (forall p :: 0 <= p < |es| ==> Called(es, es[p].id) && Returned(es, es[p].id))
  }

  ghost predicate Called<I, O>(es: seq<Event<I, O>>, id: int)
  {
    exists p :: 0 <= p < |es| && es[p].CallEvent? && es[p].id == id
  }

  ghost predicate Returned<I, O>(es: seq<Event<I, O>>, id: int)
  {
    exists p :: 0 <= p < |es| && es[p].ReturnEvent? && es[p].id == id
  }

  /** `r` is `es` with ids renamed one to one. */
  ghost predicate Renamed<I, O>(es: seq<Event<I, O>>, r: seq<Event<I, O>>)
  {
    && |r| == |es|
    && (forall i :: 0 <= i < |es| ==> r[i] == es[i].(id := r[i].id))
    && (forall i, j :: 0 <= i < |es| && 0 <= j < |es| ==> (r[i].id == r[j].id <==> es[i].id == es[j].id))
  }

  /** Ids are 0..k-1, and each is new or has occurred before: numbered in order of occurrence. */
  ghost predicate Dense<I, O>(r: seq<Event<I, O>>, k: nat)
  {
    && (forall i :: 0 <= i < |r| ==> 0 <= r[i].id < k)
    && (forall id: nat :: id < k ==> Occurs(r, id))
    && (forall i :: 0 <= i < |r| && r[i].id > 0 ==> Occurs(r[..i], r[i].id - 1))
  }

  ghost predicate Occurs<I, O>(r: seq<Event<I, O>>, id: int)
  {
    exists i :: 0 <= i < |r| && r[i].id == id
  }

  lemma OccursPrefix<I, O>(r: seq<Event<I, O>>, n: nat, id: int)
    requires n <= |r| && Occurs(r[..n], id)
    ensures Occurs(r, id)
  {
    var i :| 0 <= i < n && r[..n][i].id == id;
    assert r[i].id == id;
  }

  lemma DenseSnoc<I, O>(r: seq<Event<I, O>>, k: nat, x: Event<I, O>)
    requires Dense(r, k) && 0 <= x.id <= k
    ensures Dense(r + [x], if x.id == k then k + 1 else k)
  {
    var r' := r + [x];
    var k' := if x.id == k then k + 1 else k;
    assert r'[..|r|] == r;
    forall id: nat | id < k' ensures Occurs(r', id) {
      if id < k {
        OccursPrefix(r', |r|, id);
      } else {
        assert r'[|r|].id == id;
      }
    }
    forall i | 0 <= i < |r'| && r'[i].id > 0 ensures Occurs(r'[..i], r'[i].id - 1) {
      assert r'[..i] == r[..i];
      if i == |r| {
        assert r[..i] == r;
      }
    }
  }

  ghost predicate Numbering(m: map<int, nat>, k: nat)
  {
    && (forall a :: a in m ==> m[a] < k)
    && (forall a, b :: a in m && b in m && m[a] == m[b] ==> a == b)
  }

  ghost predicate NumberedBy<I, O>(es: seq<Event<I, O>>, r: seq<Event<I, O>>, m: map<int, nat>)
  {
    |r| == |es| && forall j :: 0 <= j < |es| ==> es[j].id in m && r[j] == es[j].(id := m[es[j].id])
  }

  method Renumber<I, O>(es: seq<Event<I, O>>) returns (r: seq<Event<I, O>>, ghost k: nat)
    ensures Renamed(es, r) && Dense(r, k)
  {
    r := [];
    var m: map<int, nat> := map[];
    var id := 0;
    assert Dense(r, id);
    hide Dense, Occurs;
    for i := 0 to |es|
      invariant NumberedBy(es[..i], r, m) && Numbering(m, id) && Dense(r, id)
    {
      var v := es[i];
      assert es[..i + 1] == es[..i] + [v];
      if v.id in m {
        DenseSnoc(r, id, v.(id := m[v.id]));
        r := r + [v.(id := m[v.id])];
      } else {
        DenseSnoc(r, id, v.(id := id));
        r := r + [v.(id := id)];
        m := m[v.id := id];
        id := id + 1;
      }
    }
    assert es[..|es|] == es;
    NumberedIsRenamed(es, r, m, id);
    k := id;
  }

  lemma NumberedIsRenamed<I, O>(es: seq<Event<I, O>>, r: seq<Event<I, O>>, m: map<int, nat>, k: nat)
    requires NumberedBy(es, r, m) && Numbering(m, k)
    ensures Renamed(es, r)
  {}

  /** `convertEntries`: the position is the timestamp. */
  function Convert<I, O>(es: seq<Event<I, O>>): (h: seq<Entry<I, O>>)
    ensures |h| == |es|
    ensures forall i :: 0 <= i < |es| ==>
      h[i].id == es[i].id && h[i].time == i && (h[i].CallEntry? <==> es[i].CallEvent?)
    ensures forall i :: 0 <= i < |es| && es[i].CallEvent? ==> h[i].input == es[i].input
    ensures forall i :: 0 <= i < |es| && es[i].ReturnEvent? ==> h[i].output == es[i].output
  {
    seq(|es|, i requires 0 <= i < |es| =>
      if es[i].CallEvent? then CallEntry(es[i].id, i, es[i].input) else ReturnEntry(es[i].id, i, es[i].output))
  }

  lemma RenamedPaired<I, O>(es: seq<Event<I, O>>, r: seq<Event<I, O>>)
    requires Paired(es) && Renamed(es, r)
    ensures Paired(r)
  {
    forall p | 0 <= p < |r| ensures Called(r, r[p].id) && Returned(r, r[p].id) {
      assert Called(es, es[p].id) && Returned(es, es[p].id);
      var c :| 0 <= c < |es| && es[c].CallEvent? && es[c].id == es[p].id;
      var d :| 0 <= d < |es| && es[d].ReturnEvent? && es[d].id == es[p].id;
      assert r[c].CallEvent? && r[c].id == r[p].id && r[d].ReturnEvent? && r[d].id == r[p].id;
    }
  }

  ghost function CallPos<I, O>(r: seq<Event<I, O>>, id: int): (p: nat)
    requires Called(r, id)
    ensures p < |r| && r[p].CallEvent? && r[p].id == id
  {
    var p: nat :| p < |r| && r[p].CallEvent? && r[p].id == id;
    p
  }

  ghost function ReturnPos<I, O>(r: seq<Event<I, O>>, id: int): (p: nat)
    requires Returned(r, id)
    ensures p < |r| && r[p].ReturnEvent? && r[p].id == id
  {
    var p: nat :| p < |r| && r[p].ReturnEvent? && r[p].id == id;
    p
  }

  /** The positions of all calls, then of all returns. */
  ghost function AllPositions<I, O>(r: seq<Event<I, O>>, k: nat): (pos: seq<nat>)
    requires forall id: nat :: id < k ==> Called(r, id) && Returned(r, id)
    ensures |pos| == 2 * k
    ensures forall id: nat :: id < k ==> pos[id] == CallPos(r, id) && pos[id + k] == ReturnPos(r, id)
  {
    seq(2 * k, i requires 0 <= i < 2 * k => if i < k then CallPos(r, i) else ReturnPos(r, i - k))
  }

  lemma PositionsDistinct<I, O>(r: seq<Event<I, O>>, k: nat)
    requires forall id: nat :: id < k ==> Called(r, id) && Returned(r, id)
    ensures Distinct(AllPositions(r, k)) && Elems(AllPositions(r, k)) <= Below(|r|)
  {
    var pos := AllPositions(r, k);
    forall i: nat | i < 2 * k
      ensures pos[i] < |r|
      ensures i < k ==> r[pos[i]].CallEvent? && r[pos[i]].id == i
      ensures i >= k ==> r[pos[i]].ReturnEvent? && r[pos[i]].id == i - k
    {
      var id: nat := if i < k then i else i - k;
      assert pos[id] == CallPos(r, id) && pos[id + k] == ReturnPos(r, id);
    }
  }

  lemma PositionsCover<I, O>(r: seq<Event<I, O>>, k: nat)
    requires Paired(r) && forall i :: 0 <= i < |r| ==> 0 <= r[i].id < k
    requires forall id: nat :: id < k ==> Called(r, id) && Returned(r, id)
    ensures Below(|r|) <= Elems(AllPositions(r, k))
  {
    var pos := AllPositions(r, k);
    forall p: nat | p < |r| ensures p in pos {
      var id: nat := r[p].id;
      if r[p].CallEvent? {
        assert pos[id] == CallPos(r, id) == p;
      } else {
        assert pos[id + k] == ReturnPos(r, id) == p;
      }
    }
  }

  /** Dense ids are half as many as the events. */
  lemma PairsCount<I, O>(r: seq<Event<I, O>>, k: nat)
    requires Paired(r) && Dense(r, k)
    ensures |r| == 2 * k
  {
    forall id: nat | id < k ensures Called(r, id) && Returned(r, id) {
      assert Occurs(r, id);
    }
    hide AllPositions;
    PositionsDistinct(r, k);
    PositionsCover(r, k);
    DistinctCard(AllPositions(r, k));
    BelowCard(|r|);
    SubsetCard(Below(|r|), Elems(AllPositions(r, k)));
    SubsetCard(Elems(AllPositions(r, k)), Below(|r|));
  }

  /** Renumbered and converted, a paired history is well-formed. */
  lemma RenumberedWellFormed<I, O>(es: seq<Event<I, O>>, r: seq<Event<I, O>>, k: nat)
    requires Paired(es) && Renamed(es, r) && Dense(r, k)
    ensures WellFormed(Convert(r)) && Size(Convert(r)) == k
  {
    RenamedPaired(es, r);
    PairsCount(r, k);
    var h := Convert(r);
    forall id | 0 <= id < k ensures HasCall(h, id) && HasReturn(h, id) {
      assert Occurs(r, id);
      var i :| 0 <= i < |r| && r[i].id == id;
      assert h[CallPos(r, id)].CallEntry? && h[ReturnPos(r, id)].ReturnEntry?;
    }
  }
}
