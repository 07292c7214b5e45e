/**
 How the linked list represents the search: at every depth of the stack the links are the list of
 the entries whose operations are not below that depth, and each pushed call's `lift` leads from
 one depth to the next.
 */
module ListSearch {
  import opened Linearizability
  import opened LinkedHistory
  import opened Search

  /** The links of the untouched list of `n` nodes. */
  ghost function FullLinks(n: nat): Links
  {
    Links(seq(n, i requires 0 <= i < n => if i + 1 < n then i + 1 else -1), seq(n, i => i - 1))
  }

  /** The head and the nodes of the entries whose operation is not in `gone`. */
  ghost function LiveNodes<I, O>(h: seq<Entry<I, O>>, gone: set<nat>): set<nat>
  {
    set i: nat | i <= |h| && IsLive(h, gone, i)
  }

  ghost predicate IsLive<I, O>(h: seq<Entry<I, O>>, gone: set<nat>, i: nat)
    requires i <= |h|
  {
    i == 0 || h[i - 1].id !in gone
  }

  lemma FullLinked<I, O>(h: seq<Entry<I, O>>)
    ensures Linked(FullLinks(|h| + 1), |h| + 1, LiveNodes(h, {}))
  {
    var k := FullLinks(|h| + 1);
    var live := LiveNodes(h, {});
    forall i: nat | i <= |h| ensures i in live {
      assert IsLive(h, {}, i);
    }
  }

  /** The pointer out of a live node is the next live entry. */
  lemma NextIsNextLive<I, O>(h: seq<Entry<I, O>>, k: Links, gone: set<nat>, i: nat)
    requires Linked(k, |h| + 1, LiveNodes(h, gone)) && i in LiveNodes(h, gone)
    ensures i <= |h| && k.next[i] == var q := NextLive(h, gone, i); if q == |h| then -1 else q + 1
  {
    var live := LiveNodes(h, gone);
    var q := NextLive(h, gone, i);
    assert NextOk(k, live, i);
    if q < |h| {
      assert q + 1 in live;
      assert k.next[i] != -1 && k.next[i] <= q + 1;
    }
  }

  lemma LiveAfterLift<I, O>(h: seq<Entry<I, O>>, gone: set<nat>, id: nat)
    requires WellFormed(h) && id < Size(h)
    ensures LiveNodes(h, gone) - {CallAt(h, id) + 1} - {ReturnAt(h, id) + 1} == LiveNodes(h, gone + {id})
  {
    forall i: nat | i <= |h|
      ensures IsLive(h, gone + {id}, i) <==> IsLive(h, gone, i) && i != CallAt(h, id) + 1 && i != ReturnAt(h, id) + 1
    {
      if i > 0 && h[i - 1].id == id {
        if h[i - 1].CallEntry? {
          CallAtUnique(h, i - 1);
        } else {
          ReturnAtUnique(h, i - 1);
        }
      }
    }
  }

  ghost predicate CallLiftable<I, O>(h: seq<Entry<I, O>>, k: Links, gone: set<nat>, id: nat)
    requires WellFormed(h) && id < Size(h)
  {
    Liftable(k, |h| + 1, LiveNodes(h, gone), CallAt(h, id) + 1, ReturnAt(h, id) + 1)
  }

  ghost function CallLifted<I, O>(h: seq<Entry<I, O>>, k: Links, gone: set<nat>, id: nat): Links
    requires WellFormed(h) && id < Size(h) && CallLiftable(h, k, gone, id)
  {
    Lifted(k, |h| + 1, LiveNodes(h, gone), CallAt(h, id) + 1, ReturnAt(h, id) + 1)
  }

  lemma CallLiftedLinked<I, O>(h: seq<Entry<I, O>>, k: Links, gone: set<nat>, id: nat)
    requires WellFormed(h) && id < Size(h) && id !in gone && Linked(k, |h| + 1, LiveNodes(h, gone))
    ensures CallLiftable(h, k, gone, id)
    ensures Linked(CallLifted(h, k, gone, id), |h| + 1, LiveNodes(h, gone + {id}))
  {
    hide Linked;
    CallBeforeReturn(h, id);
    LiftLinked(k, |h| + 1, LiveNodes(h, gone), CallAt(h, id) + 1, ReturnAt(h, id) + 1);
    LiveAfterLift(h, gone, id);
  }

  lemma CallLiftedIs<I, O>(h: seq<Entry<I, O>>, k: Links, gone: set<nat>, id: nat)
    requires WellFormed(h) && id < Size(h) && CallLiftable(h, k, gone, id)
    ensures var c, r, live := CallAt(h, id) + 1, ReturnAt(h, id) + 1, LiveNodes(h, gone);
      && Liftable(k, |h| + 1, live, c, r) && CallLifted(h, k, gone, id) == Lifted(k, |h| + 1, live, c, r)
      && c <= |h| && IsLive(h, gone, c) && IsLive(h, gone, 0)
  {
    hide Linked, Lifted;
    assert CallAt(h, id) + 1 in LiveNodes(h, gone);
  }

  /** Depth `j` of the stack: the links below it, and the lift that leads to the next depth. */
  ghost predicate DepthOk<S, I, O>(h: seq<Entry<I, O>>, calls: seq<Frame<S>>, ks: seq<Links>, j: nat)
    requires WellFormed(h) && j < |calls| && |ks| == |calls| + 1
  {
    && calls[j].id < Size(h)
    && CallLiftable(h, ks[j], On(calls[..j]), calls[j].id)
    && ks[j + 1] == CallLifted(h, ks[j], On(calls[..j]), calls[j].id)
  }

  /** The links at every depth of the stack; the last ones are the links in force. */
  ghost predicate ListStack<S, I, O>(h: seq<Entry<I, O>>, calls: seq<Frame<S>>, ks: seq<Links>)
    requires WellFormed(h)
  {
    && |ks| == |calls| + 1
    && Linked(ks[|calls|], |h| + 1, LiveNodes(h, On(calls)))
    && forall j: nat :: j < |calls| ==> DepthOk(h, calls, ks, j)
  }

  lemma StackSize<S, I, O>(h: seq<Entry<I, O>>, calls: seq<Frame<S>>, ks: seq<Links>)
    requires WellFormed(h) && ListStack(h, calls, ks)
    ensures |ks| == |calls| + 1
  {}

  lemma DepthFacts<S, I, O>(h: seq<Entry<I, O>>, calls: seq<Frame<S>>, ks: seq<Links>, j: nat)
    requires WellFormed(h) && j < |calls| && |ks| == |calls| + 1 && DepthOk(h, calls, ks, j)
    ensures calls[j].id < Size(h) && CallLiftable(h, ks[j], On(calls[..j]), calls[j].id)
    ensures ks[j + 1] == CallLifted(h, ks[j], On(calls[..j]), calls[j].id)
  {}

  lemma ListStackPush<S, I, O>(h: seq<Entry<I, O>>, calls: seq<Frame<S>>, ks: seq<Links>, f: Frame<S>)
    requires WellFormed(h) && ListStack(h, calls, ks) && f.id < Size(h) && f.id !in On(calls)
    ensures CallLiftable(h, ks[|calls|], On(calls), f.id)
    ensures ListStack(h, calls + [f], ks + [CallLifted(h, ks[|calls|], On(calls), f.id)])
  {
    hide Linked, Liftable;
    CallLiftedLinked(h, ks[|calls|], On(calls), f.id);
    PathPush(calls, f);
    var calls' := calls + [f];
    var ks' := ks + [CallLifted(h, ks[|calls|], On(calls), f.id)];
    forall j: nat | j < |calls'| ensures DepthOk(h, calls', ks', j) {
      assert calls'[..j] == calls[..j];
      if j < |calls| {
        assert DepthOk(h, calls, ks, j);
      } else {
        assert calls[..j] == calls;
      }
    }
  }

  lemma ListStackPop<S, I, O>(h: seq<Entry<I, O>>, calls: seq<Frame<S>>, ks: seq<Links>)
    requires WellFormed(h) && ListStack(h, calls, ks) && calls != []
    ensures ListStack(h, calls[..|calls| - 1], ks[..|calls|])
    ensures DepthOk(h, calls, ks, |calls| - 1)
  {
    var last: nat := |calls| - 1;
    var calls' := calls[..last];
    var ks' := ks[..|calls|];
    assert DepthOk(h, calls, ks, last);
    hide Linked, Lifted, On;
    forall j: nat | j < last ensures DepthOk(h, calls', ks', j) {
      assert DepthOk(h, calls, ks, j);
      assert calls'[..j] == calls[..j];
    }
  }
}
