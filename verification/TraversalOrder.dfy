/**
 Termination of the search.  The stack of call positions followed by the cursor, read as the
 digits of one number with the first pushed call most significant, grows with every iteration,
 also when the search pops or jumps back to the head of the list.
 */
module TraversalOrder {
  import opened Sequences
  import opened Linearizability
  import opened Search

  function Pow(base: nat, e: nat): nat
  {
    if e == 0 then 1 else base * Pow(base, e - 1)
  }

  /** The number with leading digits `ds`, padded with zeros to `width` digits. */
  function Value(ds: seq<nat>, base: nat, width: nat): nat
  {
    if width == 0 then 0
    else if ds == [] then Value([], base, width - 1)
    else ds[0] * Pow(base, width - 1) + Value(ds[1..], base, width - 1)
  }

  predicate Digits(ds: seq<nat>, base: nat)
  {
    forall i :: 0 <= i < |ds| ==> ds[i] < base
  }

  lemma MulStep(d: nat, base: nat, w: nat)
    requires d < base
    ensures d * w + w <= base * w
  {
    assert (d + 1) * w <= base * w by {
      MulMono(d + 1, base, w);
    }
  }

  lemma MulMono(a: nat, b: nat, w: nat)
    requires a <= b
    ensures a * w <= b * w
  {}

  lemma {:induction false} ValueBound(ds: seq<nat>, base: nat, width: nat)
    requires base > 0 && Digits(ds, base)
    ensures Value(ds, base, width) < Pow(base, width)
  {
    if width > 0 {
      if ds == [] {
        ValueBound([], base, width - 1);
        MulStep(0, base, Pow(base, width - 1));
      } else {
        ValueBound(ds[1..], base, width - 1);
        MulStep(ds[0], base, Pow(base, width - 1));
      }
    }
  }

  lemma {:induction false} PowPositive(base: nat, e: nat)
    requires base > 0
    ensures Pow(base, e) > 0
  {
    if e > 0 {
      PowPositive(base, e - 1);
      MulMono(1, base, Pow(base, e - 1));
    }
  }

  /** A bigger digit wins over whatever follows the smaller one. */
  lemma {:induction false} BiggerDigit(p: seq<nat>, x: nat, t: seq<nat>, y: nat, base: nat, width: nat)
    requires base > 0 && x < y && Digits(t, base) && |p| < width
    ensures Value(p + [x] + t, base, width) < Value(p + [y], base, width)
  {
    if p == [] {
      assert ([x] + t)[1..] == t && p + [x] + t == [x] + t && p + [y] == [y];
      ValueBound(t, base, width - 1);
      MulStep(x, y, Pow(base, width - 1));
    } else {
      assert (p + [x] + t)[1..] == p[1..] + [x] + t && (p + [y])[1..] == p[1..] + [y];
      BiggerDigit(p[1..], x, t, y, base, width - 1);
    }
  }

  /** One more nonzero digit makes the number bigger. */
  lemma {:induction false} OneMoreDigit(p: seq<nat>, d: nat, base: nat, width: nat)
    requires base > 0 && d > 0 && |p| < width
    ensures Value(p, base, width) < Value(p + [d], base, width)
  {
    if p == [] {
      ValueEmpty(base, width);
      PowPositive(base, width - 1);
      MulMono(1, d, Pow(base, width - 1));
      assert p + [d] == [d];
    } else {
      assert (p + [d])[1..] == p[1..] + [d];
      OneMoreDigit(p[1..], d, base, width - 1);
    }
  }

  lemma {:induction false} ValueEmpty(base: nat, width: nat)
    ensures Value([], base, width) == 0
  {
    if width > 0 {
      ValueEmpty(base, width - 1);
    }
  }

  // ----- the position of the search

  ghost function Base<S, I, O>(P: Problem<S, I, O>): nat
  {
    |P.h| + 2
  }

  ghost function Marks<S, I, O>(P: Problem<S, I, O>, calls: seq<Frame<S>>): (r: seq<nat>)
    requires WellFormed(P.h) && Ids(P.h, Path(calls))
    ensures |r| == |calls| && Digits(r, Base(P))
    ensures forall k :: 0 <= k < |calls| ==> Path(calls)[k] == calls[k].id && r[k] == CallAt(P.h, calls[k].id) + 1
  {
    var path := Path(calls);
    seq(|calls|, k requires 0 <= k < |calls| => CallAt(P.h, path[k]) + 1)
  }

  ghost function Progress<S, I, O>(P: Problem<S, I, O>, st: State<S>): nat
    requires WellFormed(P.h) && Ids(P.h, Path(st.calls))
  {
    Value(Marks(P, st.calls) + [st.cursor + 1], Base(P), Size(P.h) + 1)
  }

  ghost function Goal<S, I, O>(P: Problem<S, I, O>): nat
  {
    Pow(Base(P), Size(P.h) + 1)
  }

  lemma ProgressBound<S, I, O>(P: Problem<S, I, O>, st: State<S>)
    requires WellFormed(P.h) && Ids(P.h, Path(st.calls)) && st.cursor <= |P.h|
    ensures Progress(P, st) < Goal(P)
  {
    ValueBound(Marks(P, st.calls) + [st.cursor + 1], Base(P), Size(P.h) + 1);
  }

  lemma AdvanceProgress<S, I, O>(P: Problem<S, I, O>, st: State<S>)
    requires WellFormed(P.h) && StackOk(P, st) && st.cursor < |P.h|
    ensures Progress(P, st) < Progress(P, Advanced(P, st))
  {
    hide Value, NextLive, Accepted, Run;
    AtMostAllIds(Path(st.calls), Size(P.h));
    var marks := Marks(P, st.calls);
    assert marks + [st.cursor + 1] + [] == marks + [st.cursor + 1];
    BiggerDigit(marks, st.cursor + 1, [], Advanced(P, st).cursor + 1, Base(P), Size(P.h) + 1);
  }

  lemma MarksPush<S, I, O>(P: Problem<S, I, O>, calls: seq<Frame<S>>, f: Frame<S>)
    requires WellFormed(P.h) && Ids(P.h, Path(calls)) && f.id < Size(P.h)
    ensures Ids(P.h, Path(calls + [f]))
    ensures Marks(P, calls + [f]) == Marks(P, calls) + [CallAt(P.h, f.id) + 1]
  {
    PathPush(calls, f);
  }

  lemma PushProgress<S, I, O>(P: Problem<S, I, O>, st: State<S>)
    requires WellFormed(P.h) && StackOk(P, st) && CursorOk(P, st)
    requires st.cursor < |P.h| && P.h[st.cursor].CallEntry?
    ensures Ids(P.h, Path(Pushed(P, st).calls))
    ensures Progress(P, st) < Progress(P, Pushed(P, st))
  {
    hide Value, NextLive, Accepted, Run;
    SomeoneLeft(P, st, P.h[st.cursor].id);
    CallAtUnique(P.h, st.cursor);
    MarksPush(P, st.calls, Frame(P.h[st.cursor].id, st.state));
    OneMoreDigit(Marks(P, st.calls) + [st.cursor + 1], Pushed(P, st).cursor + 1, Base(P), Size(P.h) + 1);
  }

  lemma PopProgress<S, I, O>(P: Problem<S, I, O>, st: State<S>)
    requires WellFormed(P.h) && StackOk(P, st) && st.calls != [] && st.cursor < |P.h|
    ensures Ids(P.h, Path(Popped(P, st).calls))
    ensures Progress(P, st) < Progress(P, Popped(P, st))
  {
    hide Value, NextLive, Accepted, Run;
    var last := |st.calls| - 1;
    var rest := st.calls[..last];
    assert st.calls == rest + [st.calls[last]];
    PathPrefix(st.calls, last);
    assert Path(st.calls)[last] == st.calls[last].id;
    MarksPush(P, rest, st.calls[last]);
    AtMostAllIds(Path(st.calls), Size(P.h));
    BiggerDigit(Marks(P, rest), CallAt(P.h, st.calls[last].id) + 1, [st.cursor + 1],
                Popped(P, st).cursor + 1, Base(P), Size(P.h) + 1);
  }
}
