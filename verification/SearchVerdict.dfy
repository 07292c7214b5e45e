/**
 The search run to its end, with or without the memo table.  Both runs end, and both answer
 exactly whether the history is linearizable, so pruning never changes the verdict.
 */
module SearchVerdict {
  import opened Linearizability
  import opened Search
  import opened TraversalOrder

  /** One iteration of the loop. */
  ghost function Next<S, I, O>(P: Problem<S, I, O>, st: State<S>): State<S>
    requires WellFormed(P.h) && st.cursor < |P.h| && Ids(P.h, Path(st.calls))
    requires P.h[st.cursor].ReturnEntry? ==> st.calls != []
  {
    if P.h[st.cursor].ReturnEntry? then Popped(P, st)
    else if Pushes(P, st) then Pushed(P, st)
    else Advanced(P, st)
  }

  lemma NextKeepsInv<S, I, O>(P: Problem<S, I, O>, st: State<S>)
    requires WellFormed(P.h) && Inv(P, st) && st.cursor < |P.h|
    requires P.h[st.cursor].ReturnEntry? ==> st.calls != []
    ensures Inv(P, Next(P, st))
    ensures Progress(P, st) < Progress(P, Next(P, st)) < Goal(P)
  {
    hide Progress, Advanced, Pushed, Popped, Pushes, Goal, FramesDone, CacheOk, DoneBelow;
    if P.h[st.cursor].ReturnEntry? {
      PopInv(P, st);
      PopProgress(P, st);
    } else if Pushes(P, st) {
      PushInv(P, st);
      PushProgress(P, st);
    } else {
      AdvanceInv(P, st);
      AdvanceProgress(P, st);
    }
    ProgressBound(P, Next(P, st));
  }

  /** The verdict of the search from `st` on. */
  ghost predicate Verdict<S, I, O>(P: Problem<S, I, O>, st: State<S>)
    requires WellFormed(P.h) && Inv(P, st)
    decreases Goal(P) - Progress(P, st)
  {
    if st.cursor == |P.h| then true
    else if P.h[st.cursor].ReturnEntry? && st.calls == [] then false
    else
      NextKeepsInv(P, st);
      Verdict(P, Next(P, st))
  }

  lemma {:induction false} VerdictExact<S, I, O>(P: Problem<S, I, O>, st: State<S>)
    requires WellFormed(P.h) && Inv(P, st)
    ensures Verdict(P, st) <==> Linearizable(P.m, P.h)
    decreases Goal(P) - Progress(P, st)
  {
    hide Progress, Goal, Next, Linearizable;
    if st.cursor == |P.h| {
      CursorAtEnd(P, st);
    } else if P.h[st.cursor].ReturnEntry? && st.calls == [] {
      ExhaustedIsRefuted(P, st);
    } else {
      NextKeepsInv(P, st);
      VerdictExact(P, Next(P, st));
    }
  }

  lemma CursorAtEnd<S, I, O>(P: Problem<S, I, O>, st: State<S>)
    requires WellFormed(P.h) && Inv(P, st) && st.cursor == |P.h|
    ensures Linearizable(P.m, P.h)
  {
    forall p | 0 <= p < |P.h| ensures P.h[p].id in On(st.calls) {
      var r := ReturnAt(P.h, P.h[p].id);
      assert P.h[r].ReturnEntry? && P.h[r].id == P.h[p].id;
    }
    SuccessIsLinearization(P, st);
  }

  /** The memo table only saves work. */
  lemma PruningKeepsVerdict<S, I, O>(m: Model<S, I, O>, h: seq<Entry<I, O>>, partial: bool)
    requires WellFormed(h)
    ensures var with := Problem(m, h, true, partial); var without := Problem(m, h, false, partial);
      && Inv(with, Start(with)) && Inv(without, Start(without))
      && (Verdict(with, Start(with)) <==> Verdict(without, Start(without)))
  {
    hide Verdict;
    var with, without := Problem(m, h, true, partial), Problem(m, h, false, partial);
    StartInv(with);
    StartInv(without);
    VerdictExact(with, Start(with));
    VerdictExact(without, Start(without));
  }
}
