/**
 `checkSingle` on the heap: pointer surgery on the linked list, an in-place bit vector, a stack
 and a memo table.  Every iteration is shown to be the corresponding step of the search on
 values, from which both verdicts, the partial linearizations and termination follow.
 */
module Checker {
  import opened Sequences
  import opened Linearizability
  import opened LinkedHistory
  import opened ListSearch
  import opened Search
  import opened TraversalOrder
  import Bitset
  import opened MemoTable

  /** An element of the `calls` stack. */
  datatype CallsEntry<I, O, S> = CallsEntry(entry: Node<I, O>, state: S)

  /** The local variables of the loop, apart from the node fields. */
  datatype Locals<I, O, S(==)> = Locals(
    entry: Node?<I, O>,
    state: S,
    calls: seq<CallsEntry<I, O, S>>,
    cache: Cache<S>,
    linearized: seq<Bitset.Word>,
    longest: seq<Option<seq<nat>>>)

  /** Node 0 is the head; node `p + 1` carries entry `p` and a call node points to its return. */
  ghost predicate NodesOf<I, O>(h: seq<Entry<I, O>>, ns: seq<Node<I, O>>)
    requires WellFormed(h)
  {
    && |ns| == |h| + 1
    && forall p: nat :: p < |h| ==> NodeOf(h, ns, p)
  }

  ghost predicate NodeOf<I, O>(h: seq<Entry<I, O>>, ns: seq<Node<I, O>>, p: nat)
    requires WellFormed(h) && p < |h| && |ns| == |h| + 1
  {
    && ns[p + 1].id == h[p].id
    && (h[p].ReturnEntry? ==> ns[p + 1].value == Output(h[p].output) && ns[p + 1].matching == null)
    && (h[p].CallEntry? ==> ns[p + 1].value == Input(h[p].input) && ns[p + 1].matching == ns[ReturnAt(h, h[p].id) + 1])
  }

  ghost function CursorNode<I, O>(h: seq<Entry<I, O>>, ns: seq<Node<I, O>>, p: nat): Node?<I, O>
    requires |ns| == |h| + 1 && p <= |h|
  {
    if p < |h| then ns[p + 1] else null
  }

  ghost predicate StackNodes<S, I, O>(h: seq<Entry<I, O>>, ns: seq<Node<I, O>>, calls: seq<CallsEntry<I, O, S>>,
      frames: seq<Frame<S>>)
    requires WellFormed(h) && |ns| == |h| + 1
  {
    && |calls| == |frames|
    && forall j :: 0 <= j < |calls| ==>
         && frames[j].id < Size(h)
         && calls[j].state == frames[j].state
         && calls[j].entry == ns[CallAt(h, frames[j].id) + 1]
  }

  /** The loop variables represent the search state `st`. */
  ghost predicate Represents<S, I, O>(P: Problem<S, I, O>, ns: seq<Node<I, O>>, c: Locals<I, O, S>, st: State<S>)
    requires WellFormed(P.h) && |ns| == |P.h| + 1
  {
    && st.cursor <= |P.h|
    && c.entry == CursorNode(P.h, ns, st.cursor)
    && c.state == st.state
    && StackNodes(P.h, ns, c.calls, st.calls)
    && Bitset.Positions(c.linearized) == On(st.calls)
    && Size(P.h) <= 64 * |c.linearized|
    && StandsFor(c.cache, |c.linearized|, st.cache)
    && c.longest == st.longest
  }

  // ----- reading the list

  /** Following `next` from the head or from the cursor. */
  lemma NextNode<S, I, O>(P: Problem<S, I, O>, ns: seq<Node<I, O>>, ks: seq<Links>, calls: seq<Frame<S>>, i: nat)
    requires WellFormed(P.h) && |ns| == |P.h| + 1 && ListStack(P.h, calls, ks)
    requires i <= |P.h| && IsLive(P.h, On(calls), i)
    ensures var k := ks[|calls|];
      InRange(k, |ns|) && At(ns, k.next[i]) == CursorNode(P.h, ns, NextLive(P.h, On(calls), i))
  {
    NextIsNextLive(P.h, ks[|calls|], On(calls), i);
  }

  /** Nothing is live exactly when the cursor is at the end. */
  lemma EndIsEmpty<S, I, O>(P: Problem<S, I, O>, st: State<S>)
    requires WellFormed(P.h) && CursorOk(P, st)
    ensures st.cursor == |P.h| <==> NextLive(P.h, On(st.calls), 0) == |P.h|
    ensures st.cursor == |P.h| ==> forall p :: 0 <= p < |P.h| ==> P.h[p].id in On(st.calls)
  {
    if st.cursor == |P.h| {
      forall p | 0 <= p < |P.h| ensures P.h[p].id in On(st.calls) {
        var id: nat := P.h[p].id;
        var r := ReturnAt(P.h, id);
        assert P.h[r].ReturnEntry? && P.h[r].id == id;
      }
    }
  }

  // ----- one iteration

  lemma CursorFacts<S, I, O>(P: Problem<S, I, O>, ns: seq<Node<I, O>>, c: Locals<I, O, S>, st: State<S>)
    requires WellFormed(P.h) && NodesOf(P.h, ns) && Represents(P, ns, c, st) && CursorOk(P, st) && st.cursor < |P.h|
    ensures c.entry != null && c.entry == ns[st.cursor + 1] && c.entry.id == P.h[st.cursor].id
    ensures IsLive(P.h, On(st.calls), st.cursor + 1)
    ensures c.entry.matching != null <==> P.h[st.cursor].CallEntry?
    ensures P.h[st.cursor].CallEntry? ==>
      var id: nat := P.h[st.cursor].id;
      && c.entry.value.Input? && c.entry.matching == ns[ReturnAt(P.h, id) + 1] && c.entry.matching.value.Output?
      && st.cursor == CallAt(P.h, id)
      && P.m.step(c.state, c.entry.value.input, c.entry.matching.value.output)
         == (Ok(P.m, P.h, st.state, id), Post(P.m, P.h, st.state, id))
  {
    assert NodeOf(P.h, ns, st.cursor);
    if P.h[st.cursor].CallEntry? {
      CallAtUnique(P.h, st.cursor);
      assert NodeOf(P.h, ns, ReturnAt(P.h, P.h[st.cursor].id));
    }
  }

  lemma AdvanceRepresents<S, I, O>(P: Problem<S, I, O>, ns: seq<Node<I, O>>, c: Locals<I, O, S>, st: State<S>)
    requires WellFormed(P.h) && NodesOf(P.h, ns) && Represents(P, ns, c, st) && st.cursor < |P.h|
    ensures Represents(P, ns, c.(entry := CursorNode(P.h, ns, NextLive(P.h, On(st.calls), st.cursor + 1))),
      Advanced(P, st))
  {}

  lemma PushRepresents<S, I, O>(P: Problem<S, I, O>, ns: seq<Node<I, O>>, c: Locals<I, O, S>, st: State<S>,
      c': Locals<I, O, S>)
    requires WellFormed(P.h) && NodesOf(P.h, ns) && Represents(P, ns, c, st)
    requires st.cursor < |P.h| && P.h[st.cursor].CallEntry?
    requires var id: nat := P.h[st.cursor].id; var st' := Pushed(P, st);
      && c'.entry == CursorNode(P.h, ns, st'.cursor)
      && c'.state == st'.state
      && c'.calls == c.calls + [CallsEntry(ns[st.cursor + 1], c.state)]
      && |c'.linearized| == |c.linearized|
      && Bitset.Positions(c'.linearized) == Bitset.Positions(c.linearized) + {id}
      && StandsFor(c'.cache, |c.linearized|, st'.cache)
      && c'.longest == c.longest
    ensures Represents(P, ns, c', Pushed(P, st))
  {
    hide StandsFor, Bitset.Positions, NextLive;
    var id: nat := P.h[st.cursor].id;
    CallAtUnique(P.h, st.cursor);
    PathPush(st.calls, Frame(id, st.state));
  }

  lemma PopRepresents<S, I, O>(P: Problem<S, I, O>, ns: seq<Node<I, O>>, c: Locals<I, O, S>, st: State<S>,
      c': Locals<I, O, S>)
    requires WellFormed(P.h) && NodesOf(P.h, ns) && Represents(P, ns, c, st) && StackOk(P, st)
    requires st.calls != []
    requires var last := |st.calls| - 1; var st' := Popped(P, st);
      && c'.entry == CursorNode(P.h, ns, st'.cursor)
      && c'.state == c.calls[last].state
      && c'.calls == c.calls[..last]
      && |c'.linearized| == |c.linearized|
      && Bitset.Positions(c'.linearized) == Bitset.Positions(c.linearized) - {st.calls[last].id}
      && c'.cache == c.cache
      && c'.longest == st'.longest
    ensures Represents(P, ns, c', Popped(P, st))
  {
    hide StandsFor, Bitset.Positions, NextLive, Run, Accepted, RealTime;
    var last := |st.calls| - 1;
    PopOn(st.calls);
  }

  lemma PopOn<S>(calls: seq<Frame<S>>)
    requires calls != [] && Distinct(Path(calls))
    ensures On(calls) - {calls[|calls| - 1].id} == On(calls[..|calls| - 1])
  {
    var last := |calls| - 1;
    assert calls == calls[..last] + [calls[last]];
    PathPush(calls[..last], calls[last]);
    PathPrefix(calls, last);
    assert Path(calls)[last] == calls[last].id;
    assert calls[last].id !in Path(calls)[..last];
  }

  lemma EntryIdsPath<S, I, O>(P: Problem<S, I, O>, ns: seq<Node<I, O>>, calls: seq<CallsEntry<I, O, S>>,
      frames: seq<Frame<S>>)
    requires WellFormed(P.h) && NodesOf(P.h, ns) && StackNodes(P.h, ns, calls, frames)
    ensures forall i :: 0 <= i < |calls| ==> calls[i].entry.id == frames[i].id
    ensures forall i :: 0 <= i < |calls| ==> 0 <= calls[i].entry.id < Size(P.h)
  {
    forall i | 0 <= i < |calls| ensures calls[i].entry.id == frames[i].id {
      assert NodeOf(P.h, ns, CallAt(P.h, frames[i].id));
    }
  }

  // ----- the table of partial linearizations

  method CollectIds<I, O, S>(calls: seq<CallsEntry<I, O, S>>, ghost path: seq<nat>) returns (ids: seq<nat>)
    requires |path| == |calls| && forall i :: 0 <= i < |calls| ==> calls[i].entry.id == path[i]
    ensures ids == path
  {
    ids := [];
    for i := 0 to |calls|
      invariant ids == path[..i]
    {
      ids := ids + [calls[i].entry.id];
    }
  }

  method RecordLongest<I, O, S>(calls: seq<CallsEntry<I, O, S>>, longest: seq<Option<seq<nat>>>, ghost path: seq<nat>)
    returns (r: seq<Option<seq<nat>>>)
    requires |path| == |calls| && forall i :: 0 <= i < |calls| ==> calls[i].entry.id == path[i] < |longest|
    ensures r == Recorded(longest, path)
  {
    r := longest;
    var ids: Option<seq<nat>> := None;
    for i := 0 to |calls|
      invariant |r| == |longest|
      invariant ids.Some? ==> ids.value == path
      invariant forall id :: 0 <= id < |r| ==>
        r[id] ==
          if id in path[..i] && (longest[id].None? || |path| > |longest[id].value|) then Some(path)
          else longest[id]
    {
      var v := calls[i].entry.id;
      if r[v].None? || |calls| > |r[v].value| {
        if ids.None? {
          var collected := CollectIds(calls, path);
          ids := Some(collected);
        }
        r := r[v := Some(ids.value)];
      }
      assert path[..i + 1] == path[..i] + [path[i]];
    }
    assert path[..|path|] == path;
  }

  // ----- the list, built and counted

  /** `length`: the number of nodes from the first one on. */
  method Length<I, O>(first: Node?<I, O>, ghost ns: seq<Node<I, O>>) returns (l: nat)
    requires Chain(ns) && first == First(ns)
    ensures l == |ns|
  {
    l := 0;
    var n := first;
    while n != null
      invariant l <= |ns| && n == if l < |ns| then ns[l] else null
      decreases |ns| - l
    {
      n := n.next;
      l := l + 1;
    }
  }

  lemma ChainMirrors<I, O>(ns: seq<Node<I, O>>)
    requires Chain(ns)
    ensures Mirrors(ns, FullLinks(|ns|))
  {
    var k := FullLinks(|ns|);
    forall i | 0 <= i < |ns| ensures ns[i].next == At(ns, k.next[i]) && ns[i].prev == At(ns, k.prev[i]) {
    }
  }

  lemma HeadNodes<I, O>(h: seq<Entry<I, O>>, head: Node<I, O>, nodes: seq<Node<I, O>>)
    requires WellFormed(h) && |nodes| == |h| && forall p: nat :: p < |h| ==> Carries(h, nodes, 0, p)
    ensures NodesOf(h, [head] + nodes)
  {
    var ns := [head] + nodes;
    forall p: nat | p < |h| ensures NodeOf(h, ns, p) {
      assert Carries(h, nodes, 0, p);
      assert ns[p + 1] == nodes[p];
      if h[p].CallEntry? {
        assert ns[ReturnAt(h, h[p].id) + 1] == nodes[ReturnAt(h, h[p].id)];
      }
    }
  }

  /** The history as a list behind a head sentinel, ready for the search. */
  method BuildList<I, O>(h: seq<Entry<I, O>>)
    returns (head: Node<I, O>, entry: Node?<I, O>, n: nat, ghost ns: seq<Node<I, O>>)
    requires WellFormed(h)
    ensures NodesOf(h, ns) && ns[0] == head && n == Size(h)
    ensures forall j :: 0 <= j < |ns| ==> fresh(ns[j])
    ensures Mirrors(ns, FullLinks(|h| + 1))
    ensures entry == CursorNode(h, ns, 0)
  {
    hide *;
    ghost var nodes;
    entry, nodes := MakeLinkedEntries(h);
    var l := Length(entry, nodes);
    n := l / 2;
    var sentinel := new Node(Nil, null, -1);
    assert forall j :: 0 <= j < |nodes| ==> nodes[j] in nodes;
    head := Prepend(sentinel, entry, nodes);
    ns := [head] + nodes;
    HeadNodes(h, head, nodes);
    ChainMirrors(ns);
    StartNode(h, nodes, ns);
  }

  lemma StartNode<I, O>(h: seq<Entry<I, O>>, nodes: seq<Node<I, O>>, ns: seq<Node<I, O>>)
    requires WellFormed(h) && |nodes| == |h| && |ns| == |h| + 1 && ns[1..] == nodes
    ensures First(nodes) == CursorNode(h, ns, 0) && Size(h) == |h| / 2
  {
    assert nodes != [] ==> ns[1..][0] == ns[1];
  }

  // ----- the search itself

  /** Everything the loop keeps, apart from the node fields. */
  ghost predicate LoopInv<S, I, O>(P: Problem<S, I, O>, ns: seq<Node<I, O>>, ks: seq<Links>, c: Locals<I, O, S>,
      st: State<S>)
  {
    && WellFormed(P.h) && NodesOf(P.h, ns)
    && Inv(P, st) && ListStack(P.h, st.calls, ks) && Represents(P, ns, c, st)
  }

  /** Reading `next` of the head or of a live node. */
  method Follow<S, I, O>(x: Node<I, O>, ghost P: Problem<S, I, O>, ghost ns: seq<Node<I, O>>, ghost ks: seq<Links>,
      ghost calls: seq<Frame<S>>, ghost i: nat)
    returns (r: Node?<I, O>)
    requires WellFormed(P.h) && |ns| == |P.h| + 1 && ListStack(P.h, calls, ks) && Mirrors(ns, ks[|calls|])
    requires i <= |P.h| && IsLive(P.h, On(calls), i) && ns[i] == x
    ensures r == CursorNode(P.h, ns, NextLive(P.h, On(calls), i))
  {
    NextNode(P, ns, ks, calls, i);
    r := x.next;
  }

  lemma HeadIsLive<I, O>(h: seq<Entry<I, O>>, gone: set<nat>)
    ensures IsLive(h, gone, 0)
  {}

  /** Linearizing the call under the cursor: lift it and return to the head of the list. */
  method PushEntry<S, I, O>(
    head: Node<I, O>, entry: Node<I, O>,
    ghost P: Problem<S, I, O>, ghost ns: seq<Node<I, O>>, ghost ks: seq<Links>, ghost calls: seq<Frame<S>>,
    ghost f: Frame<S>)
    returns (next: Node?<I, O>, ghost ks': seq<Links>)
    requires WellFormed(P.h) && |ns| == |P.h| + 1 && ListStack(P.h, calls, ks) && Mirrors(ns, ks[|calls|])
    requires f.id < Size(P.h) && f.id !in On(calls)
    requires head == ns[0] && entry == ns[CallAt(P.h, f.id) + 1] && entry.matching == ns[ReturnAt(P.h, f.id) + 1]
    modifies ns
    ensures ListStack(P.h, calls + [f], ks') && Mirrors(ns, ks'[|calls| + 1])
    ensures next == CursorNode(P.h, ns, NextLive(P.h, On(calls + [f]), 0))
  {
    hide *;
    StackSize(P.h, calls, ks);
    ListStackPush(P.h, calls, ks, f);
    CallLiftedIs(P.h, ks[|calls|], On(calls), f.id);
    Lift(entry, ns, ks[|calls|], LiveNodes(P.h, On(calls)), CallAt(P.h, f.id) + 1, ReturnAt(P.h, f.id) + 1);
    ks' := ks + [CallLifted(P.h, ks[|calls|], On(calls), f.id)];
    HeadIsLive(P.h, On(calls + [f]));
    next := Follow(head, P, ns, ks', calls + [f], 0);
  }

  /** Unlifting the call on top of the stack. */
  method UnliftTop<S, I, O>(
    entry: Node<I, O>, ghost h: seq<Entry<I, O>>, ghost ns: seq<Node<I, O>>, ghost ks: seq<Links>,
    ghost calls: seq<Frame<S>>, ghost below: seq<Frame<S>>, ghost f: Frame<S>)
    requires WellFormed(h) && |ns| == |h| + 1 && ListStack(h, calls, ks) && calls == below + [f]
    requires |ks| == |calls| + 1 && Mirrors(ns, ks[|calls|]) && f.id < Size(h)
    requires entry == ns[CallAt(h, f.id) + 1] && entry.matching == ns[ReturnAt(h, f.id) + 1]
    modifies ns
    ensures ListStack(h, below, ks[..|calls|]) && Mirrors(ns, ks[|below|])
    ensures CallAt(h, f.id) + 1 <= |h| && IsLive(h, On(below), CallAt(h, f.id) + 1)
  {
    hide *;
    ghost var last: nat := |below|;
    ListStackPop(h, calls, ks);
    assert calls[..last] == below;
    DepthFacts(h, calls, ks, last);
    CallLiftedIs(h, ks[last], On(below), f.id);
    Unlift(entry, ns, ks[last], LiveNodes(h, On(below)), CallAt(h, f.id) + 1, ReturnAt(h, f.id) + 1);
  }

  /** Taking the last call back: unlift it and go on behind it. */
  method PopEntry<S, I, O>(
    entry: Node<I, O>,
    ghost P: Problem<S, I, O>, ghost ns: seq<Node<I, O>>, ghost ks: seq<Links>, ghost calls: seq<Frame<S>>)
    returns (next: Node?<I, O>, ghost ks': seq<Links>)
    requires WellFormed(P.h) && |ns| == |P.h| + 1 && ListStack(P.h, calls, ks) && Mirrors(ns, ks[|calls|])
    requires calls != []
    requires var id := calls[|calls| - 1].id;
      && id < Size(P.h)
      && entry == ns[CallAt(P.h, id) + 1] && entry.matching == ns[ReturnAt(P.h, id) + 1]
    modifies ns
    ensures ListStack(P.h, calls[..|calls| - 1], ks') && Mirrors(ns, ks'[|calls| - 1])
    ensures next == CursorNode(P.h, ns, NextLive(P.h, On(calls[..|calls| - 1]), CallAt(P.h, calls[|calls| - 1].id) + 1))
  {
    hide *;
    StackSize(P.h, calls, ks);
    ghost var below, f := calls[..|calls| - 1], calls[|calls| - 1];
    UnliftTop(entry, P.h, ns, ks, calls, below, f);
    ks' := ks[..|calls|];
    next := Follow(entry, P, ns, ks', below, CallAt(P.h, f.id) + 1);
  }

  // ----- the loop invariant over the three kinds of step

  lemma AdvanceLoop<S, I, O>(P: Problem<S, I, O>, ns: seq<Node<I, O>>, ks: seq<Links>, c: Locals<I, O, S>, st: State<S>,
      c': Locals<I, O, S>)
    requires LoopInv(P, ns, ks, c, st)
    requires st.cursor < |P.h| && P.h[st.cursor].CallEntry? && !Pushes(P, st)
    requires c' == c.(entry := CursorNode(P.h, ns, NextLive(P.h, On(st.calls), st.cursor + 1)))
    ensures LoopInv(P, ns, ks, c', Advanced(P, st))
    ensures Progress(P, st) < Progress(P, Advanced(P, st))
  {
    AdvanceInv(P, st);
    AdvanceRepresents(P, ns, c, st);
    AdvanceProgress(P, st);
  }

  lemma PushLoop<S, I, O>(P: Problem<S, I, O>, ns: seq<Node<I, O>>, ks: seq<Links>, c: Locals<I, O, S>, st: State<S>,
      ks': seq<Links>, c': Locals<I, O, S>)
    requires LoopInv(P, ns, ks, c, st)
    requires st.cursor < |P.h| && P.h[st.cursor].CallEntry? && Pushes(P, st)
    requires ListStack(P.h, Pushed(P, st).calls, ks')
    requires var id: nat := P.h[st.cursor].id; var st' := Pushed(P, st);
      && c'.entry == CursorNode(P.h, ns, st'.cursor)
      && c'.state == st'.state
      && c'.calls == c.calls + [CallsEntry(ns[st.cursor + 1], c.state)]
      && |c'.linearized| == |c.linearized|
      && Bitset.Positions(c'.linearized) == Bitset.Positions(c.linearized) + {id}
      && StandsFor(c'.cache, |c.linearized|, st'.cache)
      && c'.longest == c.longest
    ensures LoopInv(P, ns, ks', c', Pushed(P, st))
    ensures Progress(P, st) < Progress(P, Pushed(P, st))
  {
    PushInv(P, st);
    PushRepresents(P, ns, c, st, c');
    PushProgress(P, st);
  }

  lemma PopLoop<S, I, O>(P: Problem<S, I, O>, ns: seq<Node<I, O>>, ks: seq<Links>, c: Locals<I, O, S>, st: State<S>,
      ks': seq<Links>, c': Locals<I, O, S>)
    requires LoopInv(P, ns, ks, c, st)
    requires st.cursor < |P.h| && P.h[st.cursor].ReturnEntry? && st.calls != []
    requires ListStack(P.h, st.calls[..|st.calls| - 1], ks')
    requires var last := |st.calls| - 1; var st' := Popped(P, st);
      && c'.entry == CursorNode(P.h, ns, st'.cursor)
      && c'.state == c.calls[last].state
      && c'.calls == c.calls[..last]
      && |c'.linearized| == |c.linearized|
      && Bitset.Positions(c'.linearized) == Bitset.Positions(c.linearized) - {st.calls[last].id}
      && c'.cache == c.cache
      && c'.longest == st'.longest
    ensures LoopInv(P, ns, ks', c', Popped(P, st))
    ensures Progress(P, st) < Progress(P, Popped(P, st))
  {
    PopInv(P, st);
    PopRepresents(P, ns, c, st, c');
    PopProgress(P, st);
  }

  // ----- the loop body

  /** Whether to linearize the call under the cursor: the model accepts it and the node is new. */
  method Decide<S(==), I, O>(
    m: Model<S, I, O>, entry: Node<I, O>, state: S, cache: Cache<S>, linearized: array<Bitset.Word>,
    ghost P: Problem<S, I, O>, ghost ns: seq<Node<I, O>>, ghost c: Locals<I, O, S>, ghost st: State<S>)
    returns (push: bool, newCacheEntry: CacheEntry<S>)
    requires WellFormed(P.h) && NodesOf(P.h, ns) && Represents(P, ns, c, st) && CursorOk(P, st)
    requires entry == c.entry && state == c.state && cache == c.cache && linearized[..] == c.linearized
    requires P.prune && m == P.m && st.cursor < |P.h| && P.h[st.cursor].CallEntry?
    ensures push <==> Pushes(P, st)
    ensures |newCacheEntry.linearized| == |c.linearized|
    ensures newCacheEntry.state == Post(P.m, P.h, st.state, P.h[st.cursor].id)
    ensures Meaning(newCacheEntry) == (On(st.calls) + {P.h[st.cursor].id as nat}, newCacheEntry.state)
  {
    CursorFacts(P, ns, c, st);
    hide NodesOf, NodeOf, StackNodes, StandsFor, Bitset.Positions, Bitset.WithBit, Post, Ok;
    var matching := entry.matching;
    var (ok, newState) := m.step(state, entry.value.input, matching.value.output);
    var newLinearized := Bitset.Clone(linearized);
    Bitset.Set(newLinearized, entry.id);
    newCacheEntry := CacheEntry(newLinearized[..], newState);
    if ok {
      var hit := CacheContains(cache, newCacheEntry, st.cache);
      push := !hit;
    } else {
      push := false;
    }
  }

  /** What the loop body needs to know of the invariant. */
  lemma LoopFacts<S, I, O>(P: Problem<S, I, O>, ns: seq<Node<I, O>>, ks: seq<Links>, c: Locals<I, O, S>, st: State<S>)
    requires LoopInv(P, ns, ks, c, st)
    ensures WellFormed(P.h) && NodesOf(P.h, ns) && |ns| == |P.h| + 1
    ensures ListStack(P.h, st.calls, ks) && |ks| == |st.calls| + 1
    ensures Represents(P, ns, c, st) && CursorOk(P, st) && Ids(P.h, Path(st.calls)) && Distinct(Path(st.calls))
    ensures st.cursor <= |P.h| && c.longest == st.longest && c.state == st.state && |c.calls| == |st.calls|
    ensures StackNodes(P.h, ns, c.calls, st.calls)
    ensures StandsFor(c.cache, |c.linearized|, st.cache)
    ensures Size(P.h) <= 64 * |c.linearized|
    ensures |c.longest| == Size(P.h)
  {}

  lemma PushFacts<S, I, O>(P: Problem<S, I, O>, st: State<S>)
    requires WellFormed(P.h) && CursorOk(P, st) && st.cursor < |P.h| && P.h[st.cursor].CallEntry?
    ensures var id: nat := P.h[st.cursor].id;
      && id < Size(P.h) && id !in On(st.calls) && st.cursor == CallAt(P.h, id)
      && Pushed(P, st).calls == st.calls + [Frame(id, st.state)]
      && Pushed(P, st).state == Post(P.m, P.h, st.state, id)
      && Pushed(P, st).cursor == NextLive(P.h, On(st.calls + [Frame(id, st.state)]), 0)
      && Pushed(P, st).cache == st.cache + {(On(st.calls) + {id}, Post(P.m, P.h, st.state, id))}
  {
    CallAtUnique(P.h, st.cursor);
    PathPush(st.calls, Frame(P.h[st.cursor].id, st.state));
  }

  /** The branch that linearizes the call: memo table, stack, state, bit vector, list. */
  method Linearize<S(==), I, O>(
    head: Node<I, O>, entry: Node<I, O>, state: S, calls: seq<CallsEntry<I, O, S>>, cache: Cache<S>,
    linearized: array<Bitset.Word>, newCacheEntry: CacheEntry<S>,
    ghost P: Problem<S, I, O>, ghost ns: seq<Node<I, O>>, ghost ks: seq<Links>, ghost c: Locals<I, O, S>,
    ghost st: State<S>)
    returns (entry': Node?<I, O>, state': S, calls': seq<CallsEntry<I, O, S>>, cache': Cache<S>, ghost ks': seq<Links>)
    requires LoopInv(P, ns, ks, c, st) && c == Locals(entry, state, calls, cache, linearized[..], c.longest)
    requires Mirrors(ns, ks[|st.calls|]) && head == ns[0]
    requires st.cursor < |P.h| && P.h[st.cursor].CallEntry? && Pushes(P, st)
    requires |newCacheEntry.linearized| == |c.linearized|
    requires newCacheEntry.state == Post(P.m, P.h, st.state, P.h[st.cursor].id)
    requires Meaning(newCacheEntry) == (On(st.calls) + {P.h[st.cursor].id as nat}, newCacheEntry.state)
    modifies ns, linearized
    ensures LoopInv(P, ns, ks', Locals(entry', state', calls', cache', linearized[..], c.longest), Pushed(P, st))
    ensures Mirrors(ns, ks'[|Pushed(P, st).calls|])
    ensures Progress(P, st) < Progress(P, Pushed(P, st))
  {
    hide *;
    LoopFacts(P, ns, ks, c, st);
    CursorFacts(P, ns, c, st);
    PushFacts(P, st);
    cache' := CacheAdd(cache, newCacheEntry, st.cache);
    calls' := calls + [CallsEntry(entry, state)];
    state' := newCacheEntry.state;
    Bitset.Set(linearized, entry.id);
    entry', ks' := PushEntry(head, entry, P, ns, ks, st.calls, Frame(P.h[st.cursor].id, st.state));
    PushLoop(P, ns, ks, c, st, ks', Locals(entry', state', calls', cache', linearized[..], c.longest));
  }

  /** The call branch: linearize the call unless the model or the memo table says no. */
  method TryCall<S(==), I, O>(
    m: Model<S, I, O>, head: Node<I, O>, entry: Node<I, O>, state: S, calls: seq<CallsEntry<I, O, S>>, cache: Cache<S>,
    linearized: array<Bitset.Word>,
    ghost P: Problem<S, I, O>, ghost ns: seq<Node<I, O>>, ghost ks: seq<Links>, ghost c: Locals<I, O, S>,
    ghost st: State<S>)
    returns (entry': Node?<I, O>, state': S, calls': seq<CallsEntry<I, O, S>>, cache': Cache<S>, ghost ks': seq<Links>,
      ghost st': State<S>)
    requires LoopInv(P, ns, ks, c, st) && c == Locals(entry, state, calls, cache, linearized[..], c.longest)
    requires Mirrors(ns, ks[|st.calls|]) && head == ns[0] && P.prune && m == P.m
    requires st.cursor < |P.h| && P.h[st.cursor].CallEntry?
    modifies ns, linearized
    ensures LoopInv(P, ns, ks', Locals(entry', state', calls', cache', linearized[..], c.longest), st')
    ensures Mirrors(ns, ks'[|st'.calls|])
    ensures Progress(P, st) < Progress(P, st')
  {
    hide *;
    LoopFacts(P, ns, ks, c, st);
    CursorFacts(P, ns, c, st);
    PushFacts(P, st);
    var push, newCacheEntry := Decide(m, entry, state, cache, linearized, P, ns, c, st);
    if push {
      entry', state', calls', cache', ks' :=
        Linearize(head, entry, state, calls, cache, linearized, newCacheEntry, P, ns, ks, c, st);
      st' := Pushed(P, st);
    } else {
      state', calls', cache', ks' := state, calls, cache, ks;
      entry' := Follow(entry, P, ns, ks, st.calls, st.cursor + 1);
      st' := Advanced(P, st);
      assert st'.calls == st.calls by {
        AdvanceFacts(P, st);
      }
      AdvanceLoop(P, ns, ks, c, st, Locals(entry', state', calls', cache', linearized[..], c.longest));
    }
  }

  lemma AdvanceFacts<S, I, O>(P: Problem<S, I, O>, st: State<S>)
    requires st.cursor < |P.h|
    ensures Advanced(P, st).calls == st.calls
  {}

  lemma PopFacts<S, I, O>(P: Problem<S, I, O>, ns: seq<Node<I, O>>, calls: seq<CallsEntry<I, O, S>>, st: State<S>)
    requires WellFormed(P.h) && NodesOf(P.h, ns) && StackNodes(P.h, ns, calls, st.calls) && calls != []
    requires Ids(P.h, Path(st.calls))
    ensures var last := |st.calls| - 1; var id := st.calls[last].id; var st' := Popped(P, st);
      && id < Size(P.h)
      && calls[last].state == st.calls[last].state
      && calls[last].entry == ns[CallAt(P.h, id) + 1]
      && calls[last].entry.matching == ns[ReturnAt(P.h, id) + 1]
      && st'.calls == st.calls[..last]
      && st'.cursor == NextLive(P.h, On(st.calls[..last]), CallAt(P.h, id) + 1)
      && st'.longest == if P.partial then Recorded(st.longest, Path(st.calls)) else st.longest
  {
    assert NodeOf(P.h, ns, CallAt(P.h, st.calls[|st.calls| - 1].id));
  }

  /** The return branch: record the stack if asked to, then take the last call back. */
  method Backtrack<S(==), I, O>(
    calls: seq<CallsEntry<I, O, S>>, linearized: array<Bitset.Word>, longest: seq<Option<seq<nat>>>,
    computePartial: bool, ghost P: Problem<S, I, O>, ghost ns: seq<Node<I, O>>, ghost ks: seq<Links>,
    ghost c: Locals<I, O, S>, ghost st: State<S>)
    returns (entry': Node?<I, O>, state': S, calls': seq<CallsEntry<I, O, S>>, longest': seq<Option<seq<nat>>>,
      ghost ks': seq<Links>, ghost st': State<S>)
    requires LoopInv(P, ns, ks, c, st) && c == Locals(c.entry, c.state, calls, c.cache, linearized[..], longest)
    requires Mirrors(ns, ks[|st.calls|]) && computePartial == P.partial
    requires st.cursor < |P.h| && P.h[st.cursor].ReturnEntry? && calls != []
    modifies ns, linearized
    ensures LoopInv(P, ns, ks', Locals(entry', state', calls', c.cache, linearized[..], longest'), st')
    ensures Mirrors(ns, ks'[|st'.calls|])
    ensures Progress(P, st) < Progress(P, st')
  {
    hide *;
    LoopFacts(P, ns, ks, c, st);
    EntryIdsPath(P, ns, calls, st.calls);
    PopFacts(P, ns, calls, st);
    st' := Popped(P, st);
    longest' := longest;
    if computePartial {
      longest' := RecordLongest(calls, longest, Path(st.calls));
    }
    var callsTop := calls[|calls| - 1];
    state' := callsTop.state;
    Bitset.Clear(linearized, callsTop.entry.id);
    calls' := calls[..|calls| - 1];
    entry', ks' := PopEntry(callsTop.entry, P, ns, ks, st.calls);
    PopLoop(P, ns, ks, c, st, ks', Locals(entry', state', calls', c.cache, linearized[..], longest'));
  }

  // ----- checkSingle

  /** Every recorded sequence is a legal partial linearization containing its operation. */
  ghost predicate LongestSound<S, I, O>(m: Model<S, I, O>, h: seq<Entry<I, O>>, longest: seq<Option<seq<nat>>>)
    requires WellFormed(h)
  {
    && |longest| == Size(h)
    && forall id :: 0 <= id < |longest| && longest[id].Some? ==>
         PartialLinearization(m, h, longest[id].value) && id in longest[id].value
  }

  lemma StartLoop<S, I, O>(P: Problem<S, I, O>, ns: seq<Node<I, O>>, c: Locals<I, O, S>)
    requires WellFormed(P.h) && NodesOf(P.h, ns)
    requires c.entry == CursorNode(P.h, ns, 0) && c.state == P.m.init && c.calls == [] && c.cache == map[]
    requires Bitset.Positions(c.linearized) == {} && Size(P.h) <= 64 * |c.linearized|
    requires c.longest == Start(P).longest
    ensures LoopInv(P, ns, [FullLinks(|P.h| + 1)], c, Start(P))
  {
    StartInv(P);
    FullLinked(P.h);
    assert On(Start(P).calls) == {};
    assert ListStack(P.h, Start(P).calls, [FullLinks(|P.h| + 1)]);
    hide Inv, Linked, NodesOf, WellFormed, FullLinks, LiveNodes, ListStack;
    assert Represents(P, ns, c, Start(P));
  }

  /** The loop ends exactly when the cursor is at the end. */
  lemma HeadNext<S, I, O>(P: Problem<S, I, O>, ns: seq<Node<I, O>>, ks: seq<Links>, c: Locals<I, O, S>, st: State<S>)
    requires LoopInv(P, ns, ks, c, st) && Mirrors(ns, ks[|st.calls|])
    ensures |ns| > 0 && (ns[0].next == null <==> st.cursor == |P.h|)
  {
    NextNode(P, ns, ks, st.calls, 0);
    EndIsEmpty(P, st);
  }

  lemma LoopDone<S, I, O>(P: Problem<S, I, O>, ns: seq<Node<I, O>>, ks: seq<Links>, c: Locals<I, O, S>, st: State<S>)
    requires LoopInv(P, ns, ks, c, st) && st.cursor == |P.h|
    ensures IsLinearization(P.m, P.h, Path(st.calls)) && Linearizable(P.m, P.h)
  {
    EndIsEmpty(P, st);
    SuccessIsLinearization(P, st);
  }

  lemma CompleteLongest<S, I, O>(m: Model<S, I, O>, h: seq<Entry<I, O>>, lin: seq<nat>, longest: seq<Option<seq<nat>>>)
    requires WellFormed(h) && IsLinearization(m, h, lin)
    requires |longest| == Size(h) && forall i :: 0 <= i < |longest| ==> longest[i] == Some(lin)
    ensures LongestSound(m, h, longest)
  {
    FullPartialIsLinearization(m, h, lin);
    AllIds(lin, Size(h));
    forall id: nat | id < Size(h) ensures id in lin {
      assert id in Below(Size(h));
    }
  }

  lemma LoopLongest<S, I, O>(P: Problem<S, I, O>, ns: seq<Node<I, O>>, ks: seq<Links>, c: Locals<I, O, S>, st: State<S>)
    requires LoopInv(P, ns, ks, c, st)
    ensures LongestSound(P.m, P.h, c.longest)
  {}

  lemma LoopRefuted<S, I, O>(P: Problem<S, I, O>, ns: seq<Node<I, O>>, ks: seq<Links>, c: Locals<I, O, S>, st: State<S>)
    requires LoopInv(P, ns, ks, c, st)
    requires st.cursor < |P.h| && P.h[st.cursor].ReturnEntry? && st.calls == []
    ensures !Linearizable(P.m, P.h)
    ensures |c.longest| == Size(P.h)
    ensures P.partial ==> forall id: nat :: id < Size(P.h) ==> LongestFor(P.m, P.h, c.longest, id)
  {
    ExhaustedIsRefuted(P, st);
  }

  lemma LoopProgress<S, I, O>(P: Problem<S, I, O>, ns: seq<Node<I, O>>, ks: seq<Links>, c: Locals<I, O, S>,
      st: State<S>)
    requires LoopInv(P, ns, ks, c, st)
    ensures Ids(P.h, Path(st.calls)) && Progress(P, st) < Goal(P)
  {
    ProgressBound(P, st);
  }

  /** The list, the empty bit vector and the initial variables. */
  method Setup<S, I, O>(ghost P: Problem<S, I, O>, h: seq<Entry<I, O>>)
    returns (head: Node<I, O>, entry: Node?<I, O>, n: nat, linearized: array<Bitset.Word>, ghost ns: seq<Node<I, O>>)
    requires WellFormed(h) && P.h == h
    ensures |ns| > 0 && ns[0] == head && n == Size(h)
    ensures fresh(linearized) && forall j :: 0 <= j < |ns| ==> fresh(ns[j])
    ensures Start(P).calls == [] && Mirrors(ns, FullLinks(|h| + 1))
    ensures LoopInv(P, ns, [FullLinks(|h| + 1)], Locals(entry, P.m.init, [], map[], linearized[..], seq(n, _ => None)),
      Start(P))
  {
    head, entry, n, ns := BuildList(h);
    hide Mirrors, NodesOf, Bitset.Positions, FullLinks;
    linearized := Bitset.NewBitset(n);
    StartLoop(P, ns, Locals(entry, P.m.init, [], map[], linearized[..], seq(n, _ => None)));
  }

  /**
   `killed(i)` is what the atomic load of the kill flag yields in iteration `i`.  An unkilled
   search answers true exactly when the history is linearizable.
   */
  method CheckSingle<S(==), I, O>(m: Model<S, I, O>, h: seq<Entry<I, O>>, computePartial: bool, killed: nat -> bool)
    returns (ok: bool, longest: seq<Option<seq<nat>>>)
    requires WellFormed(h)
    ensures ok ==> Linearizable(m, h)
    ensures !ok && (forall i: nat :: !killed(i)) ==> !Linearizable(m, h)
    ensures LongestSound(m, h, longest)
    ensures ok ==> forall id: nat :: id < Size(h) ==> longest[id].Some? && IsLinearization(m, h, longest[id].value)
    ensures !ok && computePartial && (forall i: nat :: !killed(i)) ==>
      forall id: nat :: id < Size(h) ==> LongestFor(m, h, longest, id)
  {
    hide *;
    ghost var P := Problem(m, h, true, computePartial);
    var head, entry, n, linearized, ns := Setup(P, h);
    var cache: Cache<S> := map[];
    var calls: seq<CallsEntry<I, O, S>> := [];
    longest := seq(n, _ => None);
    var state := m.init;
    ghost var st := Start(P);
    ghost var ks := [FullLinks(|h| + 1)];
    var iteration := 0;
    LoopFacts(P, ns, ks, Locals(entry, state, calls, cache, linearized[..], longest), st);
    while head.next != null
      invariant LoopInv(P, ns, ks, Locals(entry, state, calls, cache, linearized[..], longest), st)
      invariant |ks| == |st.calls| + 1 && |ns| > 0 && ns[0] == head && Mirrors(ns, ks[|st.calls|])
      invariant fresh(linearized) && forall j :: 0 <= j < |ns| ==> fresh(ns[j])
      invariant Ids(P.h, Path(st.calls))
      decreases Goal(P) - Progress(P, st)
    {
      ghost var c := Locals(entry, state, calls, cache, linearized[..], longest);
      LoopFacts(P, ns, ks, c, st);
      LoopProgress(P, ns, ks, c, st);
      LoopLongest(P, ns, ks, c, st);
      HeadNext(P, ns, ks, c, st);
      CursorFacts(P, ns, c, st);
      if killed(iteration) {
        return false, longest;
      }
      if entry.matching != null {
        entry, state, calls, cache, ks, st :=
          TryCall(m, head, entry, state, calls, cache, linearized, P, ns, ks, c, st);
      } else {
        if |calls| == 0 {
          LoopRefuted(P, ns, ks, c, st);
          return false, longest;
        }
        entry, state, calls, longest, ks, st := Backtrack(calls, linearized, longest, computePartial, P, ns, ks, c, st);
      }
      LoopFacts(P, ns, ks, Locals(entry, state, calls, cache, linearized[..], longest), st);
      iteration := iteration + 1;
    }
    ghost var c := Locals(entry, state, calls, cache, linearized[..], longest);
    LoopFacts(P, ns, ks, c, st);
    HeadNext(P, ns, ks, c, st);
    LoopDone(P, ns, ks, c, st);
    EntryIdsPath(P, ns, calls, st.calls);
    var ids := CollectIds(calls, Path(st.calls));
    longest := seq(n, _ => Some(ids));
    CompleteLongest(m, h, ids, longest);
    ok := true;
  }
}