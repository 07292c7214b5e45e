/**
 The doubly linked list that the search walks and edits.  Node 0 is the head sentinel and node
 `p + 1` stands for entry `p` of the history.  `Links` is the value of all `next` and `prev`
 fields, with -1 for nil; `lift` and `unlift` are specified on it, and shown to be exact inverses.
 */
module LinkedHistory {
  import opened Linearizability

  // ----- pointer fields as a value

  datatype Links = Links(next: seq<int>, prev: seq<int>)

  ghost predicate InRange(k: Links, n: nat)
  {
    && |k.next| == n && |k.prev| == n
    && (forall i :: 0 <= i < n ==> -1 <= k.next[i] < n)
    && (forall i :: 0 <= i < n ==> -1 <= k.prev[i] < n)
  }

  /** `next` leads from node `i` to the nearest live node after it. */
  ghost predicate NextOk(k: Links, live: set<nat>, i: nat)
    requires i < |k.next|
  {
    if k.next[i] == -1 then forall j :: j in live ==> j <= i
    else k.next[i] > i && k.next[i] in live && forall j :: j in live ==> j <= i || j >= k.next[i]
  }

  ghost predicate PrevOk(k: Links, live: set<nat>, i: nat)
    requires i < |k.prev|
  {
    if k.prev[i] == -1 then forall j :: j in live ==> j >= i
    else k.prev[i] < i && k.prev[i] in live && forall j :: j in live ==> j >= i || j <= k.prev[i]
  }

  /** The list starting at the head visits exactly the live nodes, in order, both ways. */
  ghost predicate Linked(k: Links, n: nat, live: set<nat>)
  {
    && InRange(k, n)
    && 0 in live
    && (forall i :: i in live ==> i < n)
    && (forall i {:trigger NextOk(k, live, i)} :: i in live ==> NextOk(k, live, i))
    && (forall i {:trigger PrevOk(k, live, i)} :: i in live ==> PrevOk(k, live, i))
  }

  /** Unlinking one node: its neighbours point past it, its own fields stay. */
  function Remove(k: Links, x: nat): Links
    requires x < |k.next| == |k.prev| && 0 <= k.prev[x] < |k.next| && -1 <= k.next[x] < |k.next|
  {
    Links(
      k.next[k.prev[x] := k.next[x]],
      if k.next[x] == -1 then k.prev else k.prev[k.next[x] := k.prev[x]])
  }

  /** Relinking one node through the fields it kept. */
  function Restore(k: Links, x: nat): Links
    requires x < |k.next| == |k.prev| && 0 <= k.prev[x] < |k.next| && -1 <= k.next[x] < |k.next|
  {
    Links(
      k.next[k.prev[x] := x],
      if k.next[x] == -1 then k.prev else k.prev[k.next[x] := x])
  }

  lemma PrevExists(k: Links, n: nat, live: set<nat>, x: nat)
    requires Linked(k, n, live) && x in live && x != 0
    ensures x < n && 0 <= k.prev[x] < x && k.prev[x] in live && k.next[k.prev[x]] == x
    ensures k.next[x] != -1 ==> x < k.next[x] < n && k.next[x] in live && k.prev[k.next[x]] == x
  {
    assert PrevOk(k, live, x);
    assert k.prev[x] != -1;
    assert NextOk(k, live, k.prev[x]);
    assert NextOk(k, live, x);
    if k.next[x] != -1 {
      assert PrevOk(k, live, k.next[x]);
    }
  }

  lemma RemoveNext(k: Links, live: set<nat>, x: nat, i: nat)
    requires x < |k.next| == |k.prev| && 0 <= k.prev[x] < x && -1 <= k.next[x] < |k.next| && i < |k.next|
    requires x in live && i in live && i != x
    requires NextOk(k, live, i) && NextOk(k, live, x) && PrevOk(k, live, x)
    ensures NextOk(Remove(k, x), live - {x}, i)
  {}

  lemma RemovePrev(k: Links, live: set<nat>, x: nat, i: nat)
    requires x < |k.next| == |k.prev| && 0 <= k.prev[x] < x && -1 <= k.next[x] < |k.next| && i < |k.next|
    requires x in live && i in live && i != x
    requires PrevOk(k, live, i) && NextOk(k, live, x) && PrevOk(k, live, x)
    ensures PrevOk(Remove(k, x), live - {x}, i)
  {}

  lemma RemoveLinked(k: Links, n: nat, live: set<nat>, x: nat)
    requires Linked(k, n, live) && x in live && x != 0
    ensures x < n && 0 <= k.prev[x] < n
    ensures Linked(Remove(k, x), n, live - {x})
  {
    hide NextOk, PrevOk;
    PrevExists(k, n, live, x);
    forall i | i in live - {x} ensures NextOk(Remove(k, x), live - {x}, i) && PrevOk(Remove(k, x), live - {x}, i) {
      assert NextOk(k, live, x) && PrevOk(k, live, x) && NextOk(k, live, i) && PrevOk(k, live, i);
      RemoveNext(k, live, x, i);
      RemovePrev(k, live, x, i);
    }
  }

  lemma RestoreRemove(k: Links, n: nat, live: set<nat>, x: nat)
    requires Linked(k, n, live) && x in live && x != 0
    ensures x < n && 0 <= k.prev[x] < n
    ensures Remove(k, x).prev[x] == k.prev[x] && Remove(k, x).next[x] == k.next[x]
    ensures Restore(Remove(k, x), x) == k
  {
    PrevExists(k, n, live, x);
  }

  // ----- lift and unlift

  /** What `lift` needs: call `c` and its return `r` are both on the list, in that order. */
  ghost predicate Liftable(k: Links, n: nat, live: set<nat>, c: nat, r: nat)
  {
    Linked(k, n, live) && c in live && r in live && 0 < c < r
  }

  ghost function Lifted(k: Links, n: nat, live: set<nat>, c: nat, r: nat): Links
    requires Liftable(k, n, live, c, r)
  {
    RemoveLinked(k, n, live, c);
    RemoveLinked(Remove(k, c), n, live - {c}, r);
    Remove(Remove(k, c), r)
  }

  lemma LiftLinked(k: Links, n: nat, live: set<nat>, c: nat, r: nat)
    requires Liftable(k, n, live, c, r)
    ensures Linked(Lifted(k, n, live, c, r), n, live - {c} - {r})
  {
    RemoveLinked(k, n, live, c);
    RemoveLinked(Remove(k, c), n, live - {c}, r);
  }

  /** Fields of unlinked nodes are frozen, so relinking in reverse order undoes `lift` exactly. */
  lemma UnliftUndoesLift(k: Links, n: nat, live: set<nat>, c: nat, r: nat)
    requires Liftable(k, n, live, c, r)
    ensures |k.next| == |k.prev| == n && c < n && 0 <= k.prev[c] < n && -1 <= k.next[c] < n
    ensures var l := Lifted(k, n, live, c, r);
      && r < n && |l.next| == |l.prev| == n && 0 <= l.prev[r] < n && -1 <= l.next[r] < n
      && var m := Restore(l, r);
         && m == Remove(k, c)
         && 0 <= m.prev[c] < n && -1 <= m.next[c] < n
         && Restore(m, c) == k
  {
    RemoveLinked(k, n, live, c);
    RestoreRemove(k, n, live, c);
    RemoveLinked(Remove(k, c), n, live - {c}, r);
    RestoreRemove(Remove(k, c), n, live - {c}, r);
  }

  // ----- the nodes

  datatype Value<+I, +O> = Nil | Input(input: I) | Output(output: O)

  class Node<I, O> {
    const value: Value<I, O>
    const matching: Node?<I, O>   // the return node of a call; nil for a return
    const id: int
    var next: Node?<I, O>
    var prev: Node?<I, O>

    constructor (value: Value<I, O>, matching: Node?<I, O>, id: int)
      ensures this.value == value && this.matching == matching && this.id == id
      ensures next == null && prev == null
    {
      this.value := value;
      this.matching := matching;
      this.id := id;
      next := null;
      prev := null;
    }
  }

  ghost function At<I, O>(ns: seq<Node<I, O>>, i: int): Node?<I, O>
    requires -1 <= i < |ns|
  {
    if i == -1 then null else ns[i]
  }

  /** The nodes are distinct and their pointers are `k`. */
  ghost predicate Mirrors<I, O>(ns: seq<Node<I, O>>, k: Links)
    reads ns
  {
    && InRange(k, |ns|)
    && (forall i, j :: 0 <= i < j < |ns| ==> ns[i] != ns[j])
    && (forall i :: 0 <= i < |ns| ==> ns[i].next == At(ns, k.next[i]))
    && (forall i :: 0 <= i < |ns| ==> ns[i].prev == At(ns, k.prev[i]))
  }

  /** The pointers that `lift` and `unlift` follow are not nil and not the node itself. */
  lemma LiftIndices(k: Links, n: nat, live: set<nat>, c: nat, r: nat)
    requires Liftable(k, n, live, c, r)
    ensures c < n && r < n && InRange(k, n)
    ensures 0 <= k.prev[c] < c < k.next[c] < n
    ensures var k1 := Remove(k, c);
      && InRange(k1, n) && 0 <= k1.prev[r] < r && k1.next[r] != r
      && k1.prev[c] == k.prev[c] && k1.next[c] == k.next[c]
      && Lifted(k, n, live, c, r) == Remove(k1, r)
      && InRange(Remove(k1, r), n) && Remove(k1, r).prev[r] == k1.prev[r] && Remove(k1, r).next[r] == k1.next[r]
  {
    PrevExists(k, n, live, c);
    NextExists(k, n, live, c, r);
    RemoveLinked(k, n, live, c);
    PrevExists(Remove(k, c), n, live - {c}, r);
  }

  /** A call is never the last node: its return comes after it. */
  lemma NextExists(k: Links, n: nat, live: set<nat>, c: nat, r: nat)
    requires Liftable(k, n, live, c, r)
    ensures c < n && c < k.next[c] <= r
  {
    assert NextOk(k, live, c);
  }

  lemma MirrorsAt<I, O>(ns: seq<Node<I, O>>, k: Links, i: nat)
    requires Mirrors(ns, k) && i < |ns|
    ensures |k.next| == |k.prev| == |ns| && -1 <= k.next[i] < |ns| && -1 <= k.prev[i] < |ns|
    ensures ns[i].next == At(ns, k.next[i]) && ns[i].prev == At(ns, k.prev[i])
    ensures k.next[i] >= 0 ==> ns[i].next == ns[k.next[i]]
    ensures k.next[i] == -1 ==> ns[i].next == null
    ensures k.prev[i] >= 0 ==> ns[i].prev == ns[k.prev[i]]
  {}

  /** One write to a `next` field: node `i` now points to node `j`, or to nothing. */
  method SetNext<I, O>(x: Node<I, O>, y: Node?<I, O>, ghost ns: seq<Node<I, O>>, ghost k: Links, ghost i: nat,
      ghost j: int)
    requires Mirrors(ns, k) && i < |ns| == |k.next| && ns[i] == x && -1 <= j < |ns| && y == At(ns, j)
    modifies x`next
    ensures Mirrors(ns, Links(k.next[i := j], k.prev))
  {
    x.next := y;
    forall m | 0 <= m < |ns| ensures ns[m].next == At(ns, k.next[i := j][m]) && ns[m].prev == At(ns, k.prev[m]) {
      assert m != i ==> ns[m] != x;
    }
  }

  method SetPrev<I, O>(x: Node<I, O>, y: Node?<I, O>, ghost ns: seq<Node<I, O>>, ghost k: Links, ghost i: nat,
      ghost j: int)
    requires Mirrors(ns, k) && i < |ns| == |k.prev| && ns[i] == x && -1 <= j < |ns| && y == At(ns, j)
    modifies x`prev
    ensures Mirrors(ns, Links(k.next, k.prev[i := j]))
  {
    x.prev := y;
    forall m | 0 <= m < |ns| ensures ns[m].next == At(ns, k.next[m]) && ns[m].prev == At(ns, k.prev[i := j][m]) {
      assert m != i ==> ns[m] != x;
    }
  }

  lemma RemoveIs(k: Links, x: nat)
    requires x < |k.next| == |k.prev| && 0 <= k.prev[x] < |k.next| && -1 <= k.next[x] < |k.next|
    ensures Remove(k, x) == Links(k.next[k.prev[x] := k.next[x]],
      if k.next[x] == -1 then k.prev else k.prev[k.next[x] := k.prev[x]])
    ensures Restore(k, x) == Links(k.next[k.prev[x] := x], if k.next[x] == -1 then k.prev else k.prev[k.next[x] := x])
  {}

  lemma AtIs<I, O>(ns: seq<Node<I, O>>, i: nat)
    requires i < |ns|
    ensures At(ns, i) == ns[i]
  {}

  /** The writes that unlink a node. */
  method Unlink<I, O>(x: Node<I, O>, ghost ns: seq<Node<I, O>>, ghost k: Links, ghost i: nat)
    requires Mirrors(ns, k) && i < |ns| && ns[i] == x && 0 <= k.prev[i] != i && k.next[i] != i
    modifies ns
    ensures Mirrors(ns, Remove(k, i))
  {
    hide *;
    MirrorsAt(ns, k, i);
    RemoveIs(k, i);
    SetNext(x.prev, x.next, ns, k, k.prev[i], k.next[i]);
    ghost var k1 := Links(k.next[k.prev[i] := k.next[i]], k.prev);
    MirrorsAt(ns, k1, i);
    if x.next != null {
      SetPrev(x.next, x.prev, ns, k1, k.next[i], k.prev[i]);
    }
  }

  /** The writes that put an unlinked node back. */
  method Relink<I, O>(x: Node<I, O>, ghost ns: seq<Node<I, O>>, ghost k: Links, ghost i: nat)
    requires Mirrors(ns, k) && i < |ns| && ns[i] == x && 0 <= k.prev[i] != i && k.next[i] != i
    modifies ns
    ensures Mirrors(ns, Restore(k, i))
  {
    hide *;
    MirrorsAt(ns, k, i);
    RemoveIs(k, i);
    AtIs(ns, i);
    SetNext(x.prev, x, ns, k, k.prev[i], i);
    ghost var k1 := Links(k.next[k.prev[i] := i], k.prev);
    MirrorsAt(ns, k1, i);
    if x.next != null {
      SetPrev(x.next, x, ns, k1, k.next[i], i);
    }
  }

  /** The same for a call, without the test for nil: a call always has a node after it. */
  method UnlinkCall<I, O>(x: Node<I, O>, ghost ns: seq<Node<I, O>>, ghost k: Links, ghost i: nat)
    requires Mirrors(ns, k) && i < |ns| && ns[i] == x && 0 <= k.prev[i] != i && i != k.next[i] >= 0
    modifies ns
    ensures Mirrors(ns, Remove(k, i))
  {
    hide *;
    MirrorsAt(ns, k, i);
    RemoveIs(k, i);
    SetNext(x.prev, x.next, ns, k, k.prev[i], k.next[i]);
    ghost var k1 := Links(k.next[k.prev[i] := k.next[i]], k.prev);
    MirrorsAt(ns, k1, i);
    SetPrev(x.next, x.prev, ns, k1, k.next[i], k.prev[i]);
  }

  method RelinkCall<I, O>(x: Node<I, O>, ghost ns: seq<Node<I, O>>, ghost k: Links, ghost i: nat)
    requires Mirrors(ns, k) && i < |ns| && ns[i] == x && 0 <= k.prev[i] != i && i != k.next[i] >= 0
    modifies ns
    ensures Mirrors(ns, Restore(k, i))
  {
    hide *;
    MirrorsAt(ns, k, i);
    RemoveIs(k, i);
    AtIs(ns, i);
    SetNext(x.prev, x, ns, k, k.prev[i], i);
    ghost var k1 := Links(k.next[k.prev[i] := i], k.prev);
    MirrorsAt(ns, k1, i);
    SetPrev(x.next, x, ns, k1, k.next[i], i);
  }

  method Lift<I, O>(entry: Node<I, O>, ghost ns: seq<Node<I, O>>, ghost k: Links, ghost live: set<nat>, ghost c: nat,
      ghost r: nat)
    requires Liftable(k, |ns|, live, c, r) && Mirrors(ns, k)
    requires ns[c] == entry && entry.matching == ns[r]
    modifies ns
    ensures Mirrors(ns, Lifted(k, |ns|, live, c, r))
  {
    hide Linked;
    LiftIndices(k, |ns|, live, c, r);
    ghost var k1 := Remove(k, c);
    UnlinkCall(entry, ns, k, c);
    var matching := entry.matching;
    Unlink(matching, ns, k1, r);
  }

  method Unlift<I, O>(entry: Node<I, O>, ghost ns: seq<Node<I, O>>, ghost k: Links, ghost live: set<nat>, ghost c: nat,
      ghost r: nat)
    requires Liftable(k, |ns|, live, c, r) && Mirrors(ns, Lifted(k, |ns|, live, c, r))
    requires ns[c] == entry && entry.matching == ns[r]
    modifies ns
    ensures Mirrors(ns, k)
  {
    hide Linked;
    LiftIndices(k, |ns|, live, c, r);
    UnliftUndoesLift(k, |ns|, live, c, r);
    ghost var k1 := Remove(k, c);
    var matching := entry.matching;
    Relink(matching, ns, Lifted(k, |ns|, live, c, r), r);
    assert Mirrors(ns, k1);
    RelinkCall(entry, ns, k1, c);
  }

  // ----- building the list

  /** The nodes are distinct and linked in sequence, with nil at both ends. */
  ghost predicate Chain<I, O>(ns: seq<Node<I, O>>)
    reads ns
  {
    && (forall i, j :: 0 <= i < j < |ns| ==> ns[i] != ns[j])
    && (forall i {:trigger ns[i].next} :: 0 <= i < |ns| - 1 ==> ns[i].next == ns[i + 1])
    && (forall i {:trigger ns[i].prev} :: 0 < i < |ns| ==> ns[i].prev == ns[i - 1])
    && (ns != [] ==> ns[0].prev == null && ns[|ns| - 1].next == null)
  }

  ghost function First<I, O>(ns: seq<Node<I, O>>): Node?<I, O>
  {
    if ns == [] then null else ns[0]
  }

  /** Node `x` carries entry `p`; `ns` holds the nodes of the entries from `i` on. */
  ghost predicate Carries<I, O>(h: seq<Entry<I, O>>, ns: seq<Node<I, O>>, i: nat, p: nat)
    requires WellFormed(h) && i <= p < |h| && |ns| == |h| - i
  {
    var x := ns[p - i];
    && x.id == h[p].id
    && (h[p].ReturnEntry? ==> x.value == Output(h[p].output) && x.matching == null)
    && (h[p].CallEntry? ==>
          && x.value == Input(h[p].input)
          && ReturnAt(h, h[p].id) > p
          && x.matching == ns[ReturnAt(h, h[p].id) - i])
  }

  method InsertBefore<I, O>(n: Node<I, O>, mark: Node?<I, O>) returns (r: Node<I, O>)
    requires n.next == null && n.prev == null && n != mark
    requires mark != null ==> mark.prev != n && mark.prev != mark
    modifies n, mark, if mark == null then null else mark.prev
    ensures r == n && n.next == mark
    ensures mark == null ==> n.prev == null
    ensures mark != null ==>
      && mark.prev == n && mark.next == old(mark.next)
      && n.prev == old(mark.prev)
      && (n.prev != null ==> n.prev.next == n && n.prev.prev == old(mark.prev.prev))
  {
    if mark != null {
      var beforeMark := mark.prev;
      mark.prev := n;
      n.next := mark;
      if beforeMark != null {
        n.prev := beforeMark;
        beforeMark.next := n;
      }
    }
    return n;
  }

  /** Putting a new node in front of a chain. */
  method Prepend<I, O>(n: Node<I, O>, root: Node?<I, O>, ghost ns: seq<Node<I, O>>) returns (r: Node<I, O>)
    requires Chain(ns) && root == First(ns) && n !in ns && n.next == null && n.prev == null
    modifies n, ns
    ensures r == n && Chain([n] + ns)
  {
    assert ns != [] ==> ns[0].prev == null && ns[0] != n;
    r := InsertBefore(n, root);
    assert forall i :: 0 <= i < |ns| ==> ([n] + ns)[i + 1] == ns[i];
  }

  lemma CarriesShift<I, O>(h: seq<Entry<I, O>>, ns: seq<Node<I, O>>, x: Node<I, O>, i: nat, p: nat)
    requires WellFormed(h) && i < p < |h| && |ns| == |h| - (i + 1) && Carries(h, ns, i + 1, p)
    ensures Carries(h, [x] + ns, i, p)
  {
    assert ([x] + ns)[p - i] == ns[p - (i + 1)];
  }

  method MakeLinkedEntries<I, O>(h: seq<Entry<I, O>>) returns (root: Node?<I, O>, ghost ns: seq<Node<I, O>>)
    requires WellFormed(h)
    ensures |ns| == |h| && Chain(ns) && root == First(ns)
    ensures forall x :: x in ns ==> fresh(x)
    ensures forall p: nat :: p < |h| ==> Carries(h, ns, 0, p)
  {
    root := null;
    ns := [];
    var returned: map<int, Node<I, O>> := map[];
    var i := |h|;
    while i > 0
      invariant 0 <= i <= |h| && |ns| == |h| - i && Chain(ns) && root == First(ns)
      invariant forall j :: 0 <= j < |ns| ==> fresh(ns[j])
      invariant forall p: nat :: i <= p < |h| ==> Carries(h, ns, i, p)
      invariant forall p: nat :: i <= p < |h| && h[p].ReturnEntry? ==>
        h[p].id in returned && returned[h[p].id] == ns[p - i]
    {
      i := i - 1;
      var elem := h[i];
      var node: Node<I, O>;
      if elem.ReturnEntry? {
        node := new Node(Output(elem.output), null, elem.id);
        returned := returned[elem.id := node];
      } else {
        CallAtUnique(h, i);
        CallBeforeReturn(h, elem.id);
        assert ReturnAt(h, elem.id) > i;
        assert elem.id in returned;
        node := new Node(Input(elem.input), returned[elem.id], elem.id);
      }
      root := Prepend(node, root, ns);
      forall p: nat | i <= p < |h| ensures Carries(h, [node] + ns, i, p) {
        if p > i {
          CarriesShift(h, ns, node, i, p);
        }
      }
      ns := [node] + ns;
    }
  }
}
