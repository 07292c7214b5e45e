/**
 The backtracking search of `checkSingle` on values: the same cursor, stack of calls, memo table
 and table of longest partial linearizations, with the linked list replaced by what it stands
 for, the entries whose operation is not on the stack.  The invariant `Inv` is kept by every
 step and makes both verdicts exact; `Progress` is a numeric measure of the traversal order.
 */
module Search {
  import opened Sequences
  import opened Linearizability

  /** A pushed call: the operation and the state it was linearized in. */
  datatype Frame<+S> = Frame(id: nat, state: S)

  datatype State<S(==)> = State(
    cursor: nat,                          // position of the entry under inspection; |h| for none
    state: S,
    calls: seq<Frame<S>>,
    cache: set<(set<nat>, S)>,
    longest: seq<Option<seq<nat>>>)

  /** The problem being searched, and the two switches of the search. */
  datatype Problem<!S, !I, !O> = Problem(m: Model<S, I, O>, h: seq<Entry<I, O>>, prune: bool, partial: bool)

  function Path<S>(calls: seq<Frame<S>>): (ids: seq<nat>)
    ensures |ids| == |calls|
    ensures forall k :: 0 <= k < |calls| ==> ids[k] == calls[k].id
  {
    seq(|calls|, k requires 0 <= k < |calls| => calls[k].id)
  }

  /** The operations on the stack. */
  ghost function On<S>(calls: seq<Frame<S>>): set<nat>
  {
    Elems(Path(calls))
  }

  /** The first position from `p` on whose operation is not in `gone`. */
  ghost function NextLive<I, O>(h: seq<Entry<I, O>>, gone: set<nat>, p: nat): (q: nat)
    requires p <= |h|
    ensures p <= q <= |h|
    ensures q < |h| ==> h[q].id !in gone
    ensures forall i :: p <= i < q ==> h[i].id in gone
    decreases |h| - p
  {
    if p == |h| || h[p].id !in gone then p else NextLive(h, gone, p + 1)
  }

  // ----- the steps of the loop

  ghost function Start<S, I, O>(P: Problem<S, I, O>): State<S>
  {
    State(0, P.m.init, [], {}, seq(Size(P.h), _ => None))
  }

  ghost function Advanced<S, I, O>(P: Problem<S, I, O>, st: State<S>): State<S>
    requires st.cursor < |P.h|
  {
    st.(cursor := NextLive(P.h, On(st.calls), st.cursor + 1))
  }

  ghost function Pushed<S, I, O>(P: Problem<S, I, O>, st: State<S>): State<S>
    requires WellFormed(P.h) && st.cursor < |P.h| && P.h[st.cursor].CallEntry?
  {
    var id: nat := P.h[st.cursor].id;
    var next := Post(P.m, P.h, st.state, id);
    var calls := st.calls + [Frame(id, st.state)];
    State(NextLive(P.h, On(calls), 0), next, calls, st.cache + {(On(calls), next)}, st.longest)
  }

  /** The table after recording the stack as a partial linearization. */
  ghost function Recorded(longest: seq<Option<seq<nat>>>, path: seq<nat>): (r: seq<Option<seq<nat>>>)
    ensures |r| == |longest|
    ensures forall id :: 0 <= id < |r| ==>
      r[id] == if id in path && (longest[id].None? || |path| > |longest[id].value|) then Some(path) else longest[id]
  {
    seq(|longest|, id requires 0 <= id < |longest| =>
      if id in path && (longest[id].None? || |path| > |longest[id].value|) then Some(path) else longest[id])
  }

  ghost function Popped<S, I, O>(P: Problem<S, I, O>, st: State<S>): State<S>
    requires WellFormed(P.h) && st.calls != [] && Ids(P.h, Path(st.calls))
  {
    var last := |st.calls| - 1;
    var top := st.calls[last];
    assert Path(st.calls)[last] == top.id;
    State(
      NextLive(P.h, On(st.calls[..last]), CallAt(P.h, top.id) + 1),
      top.state,
      st.calls[..last],
      st.cache,
      if P.partial then Recorded(st.longest, Path(st.calls)) else st.longest)
  }

  /** Whether the call under the cursor is to be pushed. */
  ghost predicate Pushes<S, I, O>(P: Problem<S, I, O>, st: State<S>)
    requires WellFormed(P.h) && st.cursor < |P.h| && P.h[st.cursor].CallEntry?
  {
    var id: nat := P.h[st.cursor].id;
    && Ok(P.m, P.h, st.state, id)
    && !(P.prune && (On(st.calls) + {id}, Post(P.m, P.h, st.state, id)) in st.cache)
  }

  // ----- what it means to have searched below a node

  /** Nothing outside `gone` returned before `x` was called. */
  ghost predicate Minimal<I, O>(h: seq<Entry<I, O>>, gone: set<nat>, x: nat)
    requires WellFormed(h) && x < Size(h)
  {
    x !in gone && forall b: nat :: b < Size(h) && b !in gone ==> !Precedes(h, b, x)
  }

  /** `w` legally continues a partial linearization of the operations `gone` that ended in `s`. */
  ghost predicate Extends<S, I, O>(P: Problem<S, I, O>, gone: set<nat>, s: S, w: seq<nat>)
    requires WellFormed(P.h)
    decreases |w|
  {
    w == [] ||
    (&& w[0] < Size(P.h)
     && Minimal(P.h, gone, w[0])
     && Ok(P.m, P.h, s, w[0])
     && Extends(P, gone + {w[0]}, Post(P.m, P.h, s, w[0]), w[1..]))
  }

  ghost predicate Covers(longest: seq<Option<seq<nat>>>, id: nat, len: nat)
  {
    id < |longest| && longest[id].Some? && |longest[id].value| >= len
  }

  /** No continuation is complete, and all of them are accounted for in the table. */
  ghost predicate Explored<S, I, O>(P: Problem<S, I, O>, longest: seq<Option<seq<nat>>>, gone: set<nat>, s: S)
    requires WellFormed(P.h)
  {
    forall w: seq<nat> :: Extends(P, gone, s, w) ==>
      && |gone| + |w| < Size(P.h)
      && (P.partial ==> forall id: nat :: id in gone || id in w ==> Covers(longest, id, |gone| + |w|))
  }

  ghost predicate ChildDone<S, I, O>(P: Problem<S, I, O>, longest: seq<Option<seq<nat>>>, gone: set<nat>, s: S, id: nat)
    requires WellFormed(P.h) && id < Size(P.h)
  {
    Ok(P.m, P.h, s, id) ==> Explored(P, longest, gone + {id}, Post(P.m, P.h, s, id))
  }

  /** Every child of the node `(gone, s)` whose call lies before `p` has been searched. */
  ghost predicate DoneBelow<S, I, O>(P: Problem<S, I, O>, longest: seq<Option<seq<nat>>>, gone: set<nat>, s: S, p: nat)
    requires WellFormed(P.h)
  {
    forall id: nat :: id < Size(P.h) && id !in gone && CallAt(P.h, id) < p ==> ChildDone(P, longest, gone, s, id)
  }

  // ----- the invariant

  ghost function StateAfter<S>(st: State<S>, k: nat): S
    requires k <= |st.calls|
  {
    if k < |st.calls| then st.calls[k].state else st.state
  }

  /** The stack is a legal partial linearization and its states are the states it runs through. */
  ghost predicate StackOk<S, I, O>(P: Problem<S, I, O>, st: State<S>)
    requires WellFormed(P.h)
  {
    && PartialLinearization(P.m, P.h, Path(st.calls))
    && forall k: nat :: k <= |st.calls| ==> StateAfter(st, k) == Run(P.m, P.h, Path(st.calls)[..k])
  }

  /** The cursor is on an entry of the list, and no return entry comes before it. */
  ghost predicate CursorOk<S, I, O>(P: Problem<S, I, O>, st: State<S>)
  {
    && st.cursor <= |P.h|
    && (st.cursor < |P.h| ==> P.h[st.cursor].id !in On(st.calls))
    && forall p :: 0 <= p < st.cursor && P.h[p].id !in On(st.calls) ==> P.h[p].CallEntry?
  }

  ghost predicate FramesDone<S, I, O>(P: Problem<S, I, O>, st: State<S>)
    requires WellFormed(P.h) && Ids(P.h, Path(st.calls))
  {
    forall k: nat :: k < |st.calls| ==> FrameDone(P, st, k)
  }

  ghost predicate FrameDone<S, I, O>(P: Problem<S, I, O>, st: State<S>, k: nat)
    requires WellFormed(P.h) && Ids(P.h, Path(st.calls)) && k < |st.calls|
  {
    assert Path(st.calls)[k] == st.calls[k].id;
    DoneBelow(P, st.longest, On(st.calls[..k]), st.calls[k].state, CallAt(P.h, st.calls[k].id))
  }

  ghost predicate OnStack<S>(st: State<S>, e: (set<nat>, S))
  {
    exists k: nat :: 1 <= k <= |st.calls| && e == (On(st.calls[..k]), StateAfter(st, k))
  }

  ghost predicate CacheOk<S, I, O>(P: Problem<S, I, O>, st: State<S>)
    requires WellFormed(P.h)
  {
    forall e :: e in st.cache ==> Explored(P, st.longest, e.0, e.1) || OnStack(st, e)
  }

  ghost predicate LongestOk<S, I, O>(P: Problem<S, I, O>, longest: seq<Option<seq<nat>>>)
    requires WellFormed(P.h)
  {
    && |longest| == Size(P.h)
    && forall id :: 0 <= id < |longest| && longest[id].Some? ==>
         PartialLinearization(P.m, P.h, longest[id].value) && id in longest[id].value
  }

  ghost predicate Inv<S, I, O>(P: Problem<S, I, O>, st: State<S>)
    requires WellFormed(P.h)
  {
    && StackOk(P, st)
    && CursorOk(P, st)
    && DoneBelow(P, st.longest, On(st.calls), st.state, st.cursor)
    && FramesDone(P, st)
    && CacheOk(P, st)
    && LongestOk(P, st.longest)
  }

  lemma StartInv<S, I, O>(P: Problem<S, I, O>)
    requires WellFormed(P.h)
    ensures Inv(P, Start(P))
  {
    var st := Start(P);
    assert Path(st.calls) == [];
    assert Path(st.calls)[..0] == [];
  }

  // ----- advancing

  lemma AdvanceInv<S, I, O>(P: Problem<S, I, O>, st: State<S>)
    requires WellFormed(P.h) && Inv(P, st)
    requires st.cursor < |P.h| && P.h[st.cursor].CallEntry? && !Pushes(P, st)
    ensures Inv(P, Advanced(P, st))
  {
    var st' := Advanced(P, st);
    var id: nat := P.h[st.cursor].id;
    CursorChildDone(P, st);
    forall x: nat | x < Size(P.h) && x !in On(st.calls) && CallAt(P.h, x) < st'.cursor
      ensures ChildDone(P, st.longest, On(st.calls), st.state, x)
    {
      if CallAt(P.h, x) == st.cursor {
        assert x == id;
      }
    }
    assert FramesDone(P, st') by {
      forall k: nat | k < |st'.calls| ensures FrameDone(P, st', k) {
        assert FrameDone(P, st, k);
      }
    }
    AdvanceCache(P, st, st');
  }

  lemma AdvanceCache<S, I, O>(P: Problem<S, I, O>, st: State<S>, st': State<S>)
    requires WellFormed(P.h) && CacheOk(P, st)
    requires st' == st.(cursor := st'.cursor)
    ensures CacheOk(P, st')
  {
    forall e | e in st'.cache ensures Explored(P, st'.longest, e.0, e.1) || OnStack(st', e) {
      if OnStack(st, e) {
        var k: nat :| 1 <= k <= |st.calls| && e == (On(st.calls[..k]), StateAfter(st, k));
        assert StateAfter(st', k) == StateAfter(st, k);
      }
    }
  }

  /** A call that is not pushed needs no search: refused, or already searched from the same node. */
  lemma CursorChildDone<S, I, O>(P: Problem<S, I, O>, st: State<S>)
    requires WellFormed(P.h) && Inv(P, st)
    requires st.cursor < |P.h| && P.h[st.cursor].CallEntry? && !Pushes(P, st)
    ensures ChildDone(P, st.longest, On(st.calls), st.state, P.h[st.cursor].id)
  {
    var id: nat := P.h[st.cursor].id;
    if Ok(P.m, P.h, st.state, id) {
      var e := (On(st.calls) + {id}, Post(P.m, P.h, st.state, id));
      assert e in st.cache;
      if OnStack(st, e) {
        TooBigForStack(P, st, e, id);
      }
    }
  }

  lemma TooBigForStack<S, I, O>(P: Problem<S, I, O>, st: State<S>, e: (set<nat>, S), id: nat)
    requires WellFormed(P.h) && StackOk(P, st)
    requires id !in On(st.calls) && id in e.0
    ensures !OnStack(st, e)
  {
    forall k: nat | 1 <= k <= |st.calls| ensures id !in On(st.calls[..k]) {
      assert forall i :: 0 <= i < k ==> Path(st.calls[..k])[i] == Path(st.calls)[i];
    }
  }

  // ----- pushing

  lemma PathPush<S>(calls: seq<Frame<S>>, f: Frame<S>)
    ensures Path(calls + [f]) == Path(calls) + [f.id]
    ensures On(calls + [f]) == On(calls) + {f.id}
  {}

  lemma PathPrefix<S>(calls: seq<Frame<S>>, k: nat)
    requires k <= |calls|
    ensures Path(calls[..k]) == Path(calls)[..k]
  {}

  /** A call before every return of the list is minimal: the operation may be linearized next. */
  lemma CursorMinimal<S, I, O>(P: Problem<S, I, O>, st: State<S>)
    requires WellFormed(P.h) && CursorOk(P, st)
    requires st.cursor < |P.h| && P.h[st.cursor].CallEntry?
    ensures Minimal(P.h, On(st.calls), P.h[st.cursor].id)
  {
    var id: nat := P.h[st.cursor].id;
    CallAtUnique(P.h, st.cursor);
    forall b: nat | b < Size(P.h) && b !in On(st.calls) ensures !Precedes(P.h, b, id) {
      assert P.h[ReturnAt(P.h, b)].ReturnEntry?;
    }
  }

  lemma PartialPush<S, I, O>(m: Model<S, I, O>, h: seq<Entry<I, O>>, lin: seq<nat>, id: nat)
    requires WellFormed(h) && PartialLinearization(m, h, lin) && id < Size(h)
    requires Minimal(h, Elems(lin), id) && Ok(m, h, Run(m, h, lin), id)
    ensures PartialLinearization(m, h, lin + [id])
    ensures Run(m, h, lin + [id]) == Post(m, h, Run(m, h, lin), id)
  {
    var l := lin + [id];
    assert l[..|lin|] == lin;
    forall k, b: nat | 0 <= k < |l| && b < Size(h) && Precedes(h, b, l[k]) ensures b in l[..k] {
      if k < |lin| {
        assert l[..k] == lin[..k];
      }
    }
  }

  lemma PushStack<S, I, O>(P: Problem<S, I, O>, st: State<S>)
    requires WellFormed(P.h) && StackOk(P, st) && CursorOk(P, st)
    requires st.cursor < |P.h| && P.h[st.cursor].CallEntry? && Pushes(P, st)
    ensures StackOk(P, Pushed(P, st))
  {
    var st' := Pushed(P, st);
    var id: nat := P.h[st.cursor].id;
    var path := Path(st.calls);
    PathPush(st.calls, Frame(id, st.state));
    CursorMinimal(P, st);
    assert path[..|path|] == path;
    assert StateAfter(st, |st.calls|) == Run(P.m, P.h, path);
    PartialPush(P.m, P.h, path, id);
    forall k: nat | k <= |st'.calls|
      ensures StateAfter(st', k) == Run(P.m, P.h, Path(st'.calls)[..k])
    {
      if k <= |path| {
        assert Path(st'.calls)[..k] == path[..k];
        assert StateAfter(st, k) == Run(P.m, P.h, path[..k]);
      } else {
        assert Path(st'.calls)[..k] == path + [id];
      }
    }
  }

  lemma PushFrames<S, I, O>(P: Problem<S, I, O>, st: State<S>)
    requires WellFormed(P.h) && Inv(P, st)
    requires st.cursor < |P.h| && P.h[st.cursor].CallEntry? && Pushes(P, st)
    requires Ids(P.h, Path(Pushed(P, st).calls))
    ensures FramesDone(P, Pushed(P, st))
  {
    var st' := Pushed(P, st);
    CallAtUnique(P.h, st.cursor);
    forall k: nat | k < |st'.calls| ensures FrameDone(P, st', k) {
      assert st'.calls[..k] == st.calls[..k];
      if k < |st.calls| {
        assert FrameDone(P, st, k);
      } else {
        assert st.calls[..k] == st.calls;
      }
    }
  }

  lemma PushCache<S, I, O>(P: Problem<S, I, O>, st: State<S>)
    requires WellFormed(P.h) && CacheOk(P, st)
    requires st.cursor < |P.h| && P.h[st.cursor].CallEntry? && Pushes(P, st)
    ensures CacheOk(P, Pushed(P, st))
  {
    var st' := Pushed(P, st);
    forall e | e in st'.cache ensures Explored(P, st'.longest, e.0, e.1) || OnStack(st', e) {
      if e !in st.cache {
        assert st'.calls[..|st'.calls|] == st'.calls;
        assert e == (On(st'.calls[..|st'.calls|]), StateAfter(st', |st'.calls|));
      } else if OnStack(st, e) {
        var k: nat :| 1 <= k <= |st.calls| && e == (On(st.calls[..k]), StateAfter(st, k));
        assert st'.calls[..k] == st.calls[..k];
        assert StateAfter(st', k) == StateAfter(st, k);
      }
    }
  }

  lemma PushInv<S, I, O>(P: Problem<S, I, O>, st: State<S>)
    requires WellFormed(P.h) && Inv(P, st)
    requires st.cursor < |P.h| && P.h[st.cursor].CallEntry? && Pushes(P, st)
    ensures Inv(P, Pushed(P, st))
  {
    var st' := Pushed(P, st);
    PushStack(P, st);
    PushFrames(P, st);
    PushCache(P, st);
    assert CursorOk(P, st');
    forall x: nat | x < Size(P.h) && x !in On(st'.calls) ensures CallAt(P.h, x) >= st'.cursor {
      assert P.h[CallAt(P.h, x)].id !in On(st'.calls);
    }
    assert DoneBelow(P, st'.longest, On(st'.calls), st'.state, st'.cursor);
  }

  // ----- popping

  /** A bigger table still accounts for everything. */
  ghost predicate Improves(longest: seq<Option<seq<nat>>>, longest': seq<Option<seq<nat>>>)
  {
    && |longest| == |longest'|
    && forall id :: 0 <= id < |longest| && longest[id].Some? ==>
         longest'[id].Some? && |longest'[id].value| >= |longest[id].value|
  }

  lemma ExploredImproves<S, I, O>(P: Problem<S, I, O>, longest: seq<Option<seq<nat>>>, longest': seq<Option<seq<nat>>>,
      gone: set<nat>, s: S)
    requires WellFormed(P.h) && Explored(P, longest, gone, s) && Improves(longest, longest')
    ensures Explored(P, longest', gone, s)
  {
    forall w: seq<nat> | Extends(P, gone, s, w)
      ensures && |gone| + |w| < Size(P.h)
              && (P.partial ==> forall id: nat :: id in gone || id in w ==> Covers(longest', id, |gone| + |w|))
    {
      forall id: nat | P.partial && (id in gone || id in w) ensures Covers(longest', id, |gone| + |w|) {
        assert Covers(longest, id, |gone| + |w|);
      }
    }
  }

  lemma DoneImproves<S, I, O>(P: Problem<S, I, O>, longest: seq<Option<seq<nat>>>, longest': seq<Option<seq<nat>>>,
      gone: set<nat>, s: S, p: nat)
    requires WellFormed(P.h) && DoneBelow(P, longest, gone, s, p) && Improves(longest, longest')
    ensures DoneBelow(P, longest', gone, s, p)
  {
    forall id: nat | id < Size(P.h) && id !in gone && CallAt(P.h, id) < p
      ensures ChildDone(P, longest', gone, s, id)
    {
      assert ChildDone(P, longest, gone, s, id);
      if Ok(P.m, P.h, s, id) {
        ExploredImproves(P, longest, longest', gone + {id}, Post(P.m, P.h, s, id));
      }
    }
  }

  /** What `Explored` asks of one continuation. */
  ghost predicate Accounted<S, I, O>(P: Problem<S, I, O>, longest: seq<Option<seq<nat>>>, gone: set<nat>, w: seq<nat>)
  {
    && |gone| + |w| < Size(P.h)
    && (P.partial ==> forall id: nat :: id in gone || id in w ==> Covers(longest, id, |gone| + |w|))
  }

  lemma ChildAccounts<S, I, O>(P: Problem<S, I, O>, longest: seq<Option<seq<nat>>>, gone: set<nat>, s: S, w: seq<nat>)
    requires WellFormed(P.h) && w != [] && Extends(P, gone, s, w)
    requires ChildDone(P, longest, gone, s, w[0])
    ensures Accounted(P, longest, gone, w)
  {
    var child := gone + {w[0]};
    assert |child| == |gone| + 1;
    assert Extends(P, child, Post(P.m, P.h, s, w[0]), w[1..]);
    forall id: nat | P.partial && (id in gone || id in w) ensures Covers(longest, id, |gone| + |w|) {
      assert id in child || id in w[1..];
    }
  }

  lemma ContinuationAccounted<S, I, O>(P: Problem<S, I, O>, st: State<S>, longest': seq<Option<seq<nat>>>, w: seq<nat>)
    requires WellFormed(P.h) && StackOk(P, st) && CursorOk(P, st)
    requires st.cursor < |P.h| && P.h[st.cursor].ReturnEntry?
    requires DoneBelow(P, longest', On(st.calls), st.state, st.cursor)
    requires P.partial ==> forall id: nat :: id in On(st.calls) ==> Covers(longest', id, |st.calls|)
    requires Extends(P, On(st.calls), st.state, w)
    ensures Accounted(P, longest', On(st.calls), w)
  {
    var last: nat := P.h[st.cursor].id;
    SomeoneLeft(P, st, last);
    if w != [] {
      ReturnAtUnique(P.h, st.cursor);
      CallBeforeOrAt(P.h, On(st.calls), w[0], last);
      ChildAccounts(P, longest', On(st.calls), st.state, w);
    }
  }

  /** At a return entry every continuation starts with a call before it, so the node is explored. */
  lemma NodeExplored<S, I, O>(P: Problem<S, I, O>, st: State<S>, longest': seq<Option<seq<nat>>>)
    requires WellFormed(P.h) && Inv(P, st)
    requires st.cursor < |P.h| && P.h[st.cursor].ReturnEntry?
    requires Improves(st.longest, longest')
    requires P.partial ==> forall id: nat :: id in On(st.calls) ==> Covers(longest', id, |st.calls|)
    ensures Explored(P, longest', On(st.calls), st.state)
  {
    DoneImproves(P, st.longest, longest', On(st.calls), st.state, st.cursor);
    forall w: seq<nat> | Extends(P, On(st.calls), st.state, w)
      ensures Accounted(P, longest', On(st.calls), w)
    {
      ContinuationAccounted(P, st, longest', w);
    }
  }

  lemma CallBeforeOrAt<I, O>(h: seq<Entry<I, O>>, gone: set<nat>, x: nat, last: nat)
    requires WellFormed(h) && x < Size(h) && last < Size(h) && last !in gone && Minimal(h, gone, x)
    ensures CallAt(h, x) < ReturnAt(h, last)
  {
    CallBeforeReturn(h, last);
    assert !Precedes(h, last, x);
    assert h[CallAt(h, x)].CallEntry? && h[ReturnAt(h, last)].ReturnEntry?;
  }

  lemma SomeoneLeft<S, I, O>(P: Problem<S, I, O>, st: State<S>, last: nat)
    requires WellFormed(P.h) && StackOk(P, st) && last < Size(P.h) && last !in On(st.calls)
    ensures |On(st.calls)| == |st.calls| < Size(P.h)
  {
    DistinctCard(Path(st.calls));
    AtMostAllIds(Path(st.calls), Size(P.h));
    if |st.calls| >= Size(P.h) {
      AllIds(Path(st.calls), Size(P.h));
    }
  }

  lemma PartialPrefix<S, I, O>(m: Model<S, I, O>, h: seq<Entry<I, O>>, lin: seq<nat>, n: nat)
    requires WellFormed(h) && PartialLinearization(m, h, lin) && n <= |lin|
    ensures PartialLinearization(m, h, lin[..n])
  {
    AcceptedPrefix(m, h, lin, n);
    forall k, b: nat | 0 <= k < n && b < Size(h) && Precedes(h, b, lin[k]) ensures b in lin[..n][..k] {
      assert lin[..n][..k] == lin[..k];
    }
  }

  lemma PopStack<S, I, O>(P: Problem<S, I, O>, st: State<S>, st': State<S>)
    requires WellFormed(P.h) && StackOk(P, st) && st.calls != []
    requires st'.calls == st.calls[..|st.calls| - 1] && st'.state == st.calls[|st.calls| - 1].state
    ensures StackOk(P, st')
  {
    var last := |st.calls| - 1;
    var path := Path(st.calls);
    PathPrefix(st.calls, last);
    PartialPrefix(P.m, P.h, path, last);
    forall k: nat | k <= |st'.calls| ensures StateAfter(st', k) == Run(P.m, P.h, Path(st'.calls)[..k]) {
      assert path[..last][..k] == path[..k];
      assert StateAfter(st, k) == Run(P.m, P.h, path[..k]);
    }
  }

  lemma PopCursor<S, I, O>(P: Problem<S, I, O>, st: State<S>)
    requires WellFormed(P.h) && StackOk(P, st) && st.calls != []
    ensures CursorOk(P, Popped(P, st))
  {
    var st' := Popped(P, st);
    var last := |st.calls| - 1;
    var path := Path(st.calls);
    var id := path[last];
    PathPrefix(st.calls, last);
    forall p | 0 <= p < st'.cursor && P.h[p].id !in On(st'.calls) ensures P.h[p].CallEntry? {
      var b: nat := P.h[p].id;
      assert p <= CallAt(P.h, id);
      assert P.h[CallAt(P.h, id)].CallEntry?;
      if P.h[p].ReturnEntry? {
        ReturnAtUnique(P.h, p);
        assert false;
      }
    }
  }

  lemma RecordedImproves(longest: seq<Option<seq<nat>>>, path: seq<nat>)
    ensures Improves(longest, Recorded(longest, path))
    ensures forall id: nat :: id in path && id < |longest| ==> Covers(Recorded(longest, path), id, |path|)
  {}

  lemma PopLongest<S, I, O>(P: Problem<S, I, O>, st: State<S>)
    requires WellFormed(P.h) && StackOk(P, st) && LongestOk(P, st.longest) && st.calls != []
    ensures Improves(st.longest, Popped(P, st).longest)
    ensures LongestOk(P, Popped(P, st).longest)
    ensures P.partial ==> forall id: nat :: id in On(st.calls) ==> Covers(Popped(P, st).longest, id, |st.calls|)
  {
    RecordedImproves(st.longest, Path(st.calls));
  }

  lemma PopFrames<S, I, O>(P: Problem<S, I, O>, st: State<S>)
    requires WellFormed(P.h) && Inv(P, st) && st.calls != []
    requires Ids(P.h, Path(Popped(P, st).calls)) && Improves(st.longest, Popped(P, st).longest)
    ensures FramesDone(P, Popped(P, st))
  {
    var st' := Popped(P, st);
    forall k: nat | k < |st'.calls| ensures FrameDone(P, st', k) {
      assert FrameDone(P, st, k);
      assert st'.calls[..k] == st.calls[..k];
      DoneImproves(P, st.longest, st'.longest, On(st.calls[..k]), st.calls[k].state, CallAt(P.h, st.calls[k].id));
    }
  }

  lemma PopOnStack<S>(st: State<S>, st': State<S>, e: (set<nat>, S))
    requires st.calls != []
    requires st'.calls == st.calls[..|st.calls| - 1] && st'.state == st.calls[|st.calls| - 1].state
    requires OnStack(st, e)
    ensures OnStack(st', e) || e == (On(st.calls), st.state)
  {
    var k: nat :| 1 <= k <= |st.calls| && e == (On(st.calls[..k]), StateAfter(st, k));
    if k == |st.calls| {
      assert st.calls[..k] == st.calls;
    } else {
      assert st'.calls[..k] == st.calls[..k];
      assert StateAfter(st', k) == StateAfter(st, k);
    }
  }

  lemma PopCache<S, I, O>(P: Problem<S, I, O>, st: State<S>, st': State<S>)
    requires WellFormed(P.h) && CacheOk(P, st) && st.calls != []
    requires st'.calls == st.calls[..|st.calls| - 1] && st'.state == st.calls[|st.calls| - 1].state
    requires st'.cache == st.cache && Improves(st.longest, st'.longest)
    requires Explored(P, st'.longest, On(st.calls), st.state)
    ensures CacheOk(P, st')
  {
    forall e | e in st'.cache ensures Explored(P, st'.longest, e.0, e.1) || OnStack(st', e) {
      if Explored(P, st.longest, e.0, e.1) {
        ExploredImproves(P, st.longest, st'.longest, e.0, e.1);
      } else {
        PopOnStack(st, st', e);
      }
    }
  }

  /** The frame uncovered by a pop: the popped child was its last unsearched one. */
  lemma PopDone<S, I, O>(P: Problem<S, I, O>, st: State<S>)
    requires WellFormed(P.h) && Inv(P, st) && st.calls != []
    requires Improves(st.longest, Popped(P, st).longest)
    requires Explored(P, Popped(P, st).longest, On(st.calls), st.state)
    ensures var st' := Popped(P, st); DoneBelow(P, st'.longest, On(st'.calls), st'.state, st'.cursor)
  {
    var st' := Popped(P, st);
    var last := |st.calls| - 1;
    var id := Path(st.calls)[last];
    assert FrameDone(P, st, last);
    DoneImproves(P, st.longest, st'.longest, On(st'.calls), st'.state, CallAt(P.h, id));
    forall x: nat | x < Size(P.h) && x !in On(st'.calls) && CallAt(P.h, x) < st'.cursor
      ensures ChildDone(P, st'.longest, On(st'.calls), st'.state, x)
    {
      if CallAt(P.h, x) >= CallAt(P.h, id) {
        assert CallAt(P.h, x) == CallAt(P.h, id);
        assert x == id;
        PopChild(P, st);
      }
    }
  }

  lemma PopChild<S, I, O>(P: Problem<S, I, O>, st: State<S>)
    requires WellFormed(P.h) && StackOk(P, st) && st.calls != []
    ensures var last := |st.calls| - 1;
      && On(st.calls[..last]) + {st.calls[last].id} == On(st.calls)
      && st.calls[last].id < Size(P.h)
      && Post(P.m, P.h, st.calls[last].state, st.calls[last].id) == st.state
  {
    var last := |st.calls| - 1;
    var path := Path(st.calls);
    assert st.calls == st.calls[..last] + [st.calls[last]];
    PathPush(st.calls[..last], st.calls[last]);
    PathPrefix(st.calls, last);
    assert path[..|path|] == path;
    assert StateAfter(st, last) == Run(P.m, P.h, path[..last]);
    assert StateAfter(st, |path|) == Run(P.m, P.h, path[..|path|]);
  }

  lemma PopInv<S, I, O>(P: Problem<S, I, O>, st: State<S>)
    requires WellFormed(P.h) && Inv(P, st)
    requires st.cursor < |P.h| && P.h[st.cursor].ReturnEntry? && st.calls != []
    ensures Inv(P, Popped(P, st))
  {
    PopStack(P, st, Popped(P, st));
    PopCursor(P, st);
    PopLongest(P, st);
    NodeExplored(P, st, Popped(P, st).longest);
    PopFrames(P, st);
    PopCache(P, st, Popped(P, st));
    PopDone(P, st);
  }

  // ----- the verdicts

  lemma {:induction false} PartialExtends<S, I, O>(P: Problem<S, I, O>, lin: seq<nat>, k: nat)
    requires WellFormed(P.h) && PartialLinearization(P.m, P.h, lin) && k <= |lin|
    ensures Extends(P, Elems(lin[..k]), Run(P.m, P.h, lin[..k]), lin[k..])
    decreases |lin| - k
  {
    if k < |lin| {
      PartialExtends(P, lin, k + 1);
      assert lin[..k + 1] == lin[..k] + [lin[k]];
      assert Elems(lin[..k + 1]) == Elems(lin[..k]) + {lin[k]};
      AcceptedPrefix(P.m, P.h, lin, k + 1);
      assert lin[..k + 1][..k] == lin[..k];
      assert lin[k..][1..] == lin[k + 1..];
      assert Minimal(P.h, Elems(lin[..k]), lin[k]);
    }
  }

  lemma {:induction false} AcceptedPrefix<S, I, O>(m: Model<S, I, O>, h: seq<Entry<I, O>>, lin: seq<nat>, k: nat)
    requires WellFormed(h) && Ids(h, lin) && Accepted(m, h, lin) && k <= |lin|
    ensures Accepted(m, h, lin[..k])
  {
    if k < |lin| {
      var t := lin[..|lin| - 1];
      AcceptedPrefix(m, h, t, k);
      assert t[..k] == lin[..k];
    } else {
      assert lin[..k] == lin;
    }
  }

  /** The list is empty only when the stack holds a complete linearization. */
  lemma SuccessIsLinearization<S, I, O>(P: Problem<S, I, O>, st: State<S>)
    requires WellFormed(P.h) && Inv(P, st)
    requires forall p :: 0 <= p < |P.h| ==> P.h[p].id in On(st.calls)
    ensures IsLinearization(P.m, P.h, Path(st.calls))
  {
    var path := Path(st.calls);
    AtMostAllIds(path, Size(P.h));
    if |path| < Size(P.h) {
      var b: nat :| b < Size(P.h) && b !in path;
      var p := CallAt(P.h, b);
      assert false;
    }
    FullPartialIsLinearization(P.m, P.h, path);
  }

  /** `longest[id]` is a longest legal partial linearization containing `id`, if there is any. */
  ghost predicate LongestFor<S, I, O>(m: Model<S, I, O>, h: seq<Entry<I, O>>, longest: seq<Option<seq<nat>>>, id: nat)
    requires WellFormed(h) && id < |longest|
  {
    && (longest[id].Some? ==> PartialLinearization(m, h, longest[id].value) && id in longest[id].value)
    && (forall lin: seq<nat> :: PartialLinearization(m, h, lin) && id in lin ==>
          longest[id].Some? && |longest[id].value| >= |lin|)
  }

  /** A return entry under the cursor with nothing on the stack: no linearization exists. */
  lemma ExhaustedIsRefuted<S, I, O>(P: Problem<S, I, O>, st: State<S>)
    requires WellFormed(P.h) && Inv(P, st)
    requires st.cursor < |P.h| && P.h[st.cursor].ReturnEntry? && st.calls == []
    ensures !Linearizable(P.m, P.h)
    ensures P.partial ==> forall id: nat :: id < Size(P.h) ==> LongestFor(P.m, P.h, st.longest, id)
  {
    assert On(st.calls) == {};
    NodeExplored(P, st, st.longest);
    assert Path(st.calls)[..0] == [];
    assert StateAfter(st, 0) == P.m.init;
    forall lin: seq<nat> | PartialLinearization(P.m, P.h, lin)
      ensures |lin| < Size(P.h)
      ensures P.partial ==> forall id: nat :: id in lin ==> Covers(st.longest, id, |lin|)
    {
      PartialExtends(P, lin, 0);
      assert lin[..0] == [] && lin[0..] == lin;
      assert Elems(lin[..0]) == {};
      assert Extends(P, On(st.calls), st.state, lin);
    }
    forall lin: seq<nat> ensures !IsLinearization(P.m, P.h, lin) {
      FullPartialIsLinearization(P.m, P.h, lin);
    }
  }
}
