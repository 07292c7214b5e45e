/**
 What the checker decides.  A history is a sequence of call and return entries, each operation
 having one call and one later return; a linearization orders the operations so that the model
 accepts them one after another and none is put before an operation that had returned before it
 was called.
 */
module Linearizability {
  import opened Sequences

  datatype Entry<+I, +O> =
    | CallEntry(id: int, time: int, input: I)
    | ReturnEntry(id: int, time: int, output: O)

  /** The sequential specification: an initial state and a total step function. */
  datatype Model<!S, !I, !O> = Model(init: S, step: (S, I, O) -> (bool, S))

  // ----- well-formed histories

  function Size<I, O>(h: seq<Entry<I, O>>): nat
  {
    |h| / 2
  }

  /** Ids are dense, and each has exactly one call and one return, in that order. */
  ghost predicate WellFormed<I, O>(h: seq<Entry<I, O>>)
  {
    && (forall p :: 0 <= p < |h| ==> 0 <= h[p].id < Size(h))
    && (forall p, q :: 0 <= p < q < |h| && h[p].id == h[q].id ==> h[p].CallEntry? && h[q].ReturnEntry?)
    && (forall id :: 0 <= id < Size(h) ==> HasCall(h, id) && HasReturn(h, id))
  }

  ghost predicate HasCall<I, O>(h: seq<Entry<I, O>>, id: int)
  {
    exists p :: 0 <= p < |h| && h[p].CallEntry? && h[p].id == id
  }

  ghost predicate HasReturn<I, O>(h: seq<Entry<I, O>>, id: int)
  {
    exists p :: 0 <= p < |h| && h[p].ReturnEntry? && h[p].id == id
  }

  ghost function CallAt<I, O>(h: seq<Entry<I, O>>, id: nat): (p: nat)
    requires WellFormed(h) && id < Size(h)
    ensures p < |h| && h[p].CallEntry? && h[p].id == id
  {
    assert HasCall(h, id);
    var p: nat :| p < |h| && h[p].CallEntry? && h[p].id == id;
    p
  }

  ghost function ReturnAt<I, O>(h: seq<Entry<I, O>>, id: nat): (p: nat)
    requires WellFormed(h) && id < Size(h)
    ensures p < |h| && h[p].ReturnEntry? && h[p].id == id
  {
    assert HasReturn(h, id);
    var p: nat :| p < |h| && h[p].ReturnEntry? && h[p].id == id;
    p
  }

  lemma CallAtUnique<I, O>(h: seq<Entry<I, O>>, p: nat)
    requires WellFormed(h) && p < |h| && h[p].CallEntry?
    ensures CallAt(h, h[p].id) == p
  {}

  lemma ReturnAtUnique<I, O>(h: seq<Entry<I, O>>, p: nat)
    requires WellFormed(h) && p < |h| && h[p].ReturnEntry?
    ensures ReturnAt(h, h[p].id) == p
  {}

  lemma CallBeforeReturn<I, O>(h: seq<Entry<I, O>>, id: nat)
    requires WellFormed(h) && id < Size(h)
    ensures CallAt(h, id) < ReturnAt(h, id)
  {}

  // ----- linearizations

  /** Operation `b` returned before operation `a` was called. */
  ghost predicate Precedes<I, O>(h: seq<Entry<I, O>>, b: nat, a: nat)
    requires WellFormed(h) && a < Size(h) && b < Size(h)
  {
    ReturnAt(h, b) < CallAt(h, a)
  }

  ghost predicate Ok<S, I, O>(m: Model<S, I, O>, h: seq<Entry<I, O>>, s: S, id: nat)
    requires WellFormed(h) && id < Size(h)
  {
    m.step(s, h[CallAt(h, id)].input, h[ReturnAt(h, id)].output).0
  }

  ghost function Post<S, I, O>(m: Model<S, I, O>, h: seq<Entry<I, O>>, s: S, id: nat): S
    requires WellFormed(h) && id < Size(h)
  {
    m.step(s, h[CallAt(h, id)].input, h[ReturnAt(h, id)].output).1
  }

  predicate Ids<I, O>(h: seq<Entry<I, O>>, lin: seq<nat>)
  {
    forall k :: 0 <= k < |lin| ==> lin[k] < Size(h)
  }

  /** The state after the operations of `lin`. */
  ghost function Run<S, I, O>(m: Model<S, I, O>, h: seq<Entry<I, O>>, lin: seq<nat>): S
    requires WellFormed(h) && Ids(h, lin)
  {
    if lin == [] then m.init
    else Post(m, h, Run(m, h, lin[..|lin| - 1]), lin[|lin| - 1])
  }

  /** The model accepts the operations of `lin` one after another. */
  ghost predicate Accepted<S, I, O>(m: Model<S, I, O>, h: seq<Entry<I, O>>, lin: seq<nat>)
    requires WellFormed(h) && Ids(h, lin)
  {
    lin == [] ||
    (Accepted(m, h, lin[..|lin| - 1]) && Ok(m, h, Run(m, h, lin[..|lin| - 1]), lin[|lin| - 1]))
  }

  /** Whatever returned before a linearized operation was called comes earlier. */
  ghost predicate RealTime<I, O>(h: seq<Entry<I, O>>, lin: seq<nat>)
    requires WellFormed(h) && Ids(h, lin)
  {
    forall k, b: nat :: 0 <= k < |lin| && b < Size(h) && Precedes(h, b, lin[k]) ==> b in lin[..k]
  }

  /** A legal prefix of a linearization. */
  ghost predicate PartialLinearization<S, I, O>(m: Model<S, I, O>, h: seq<Entry<I, O>>, lin: seq<nat>)
    requires WellFormed(h)
  {
    Ids(h, lin) && Distinct(lin) && RealTime(h, lin) && Accepted(m, h, lin)
  }

  /** An ordering of all operations, accepted by the model, that contradicts no real-time order. */
  ghost predicate IsLinearization<S, I, O>(m: Model<S, I, O>, h: seq<Entry<I, O>>, lin: seq<nat>)
    requires WellFormed(h)
  {
    && Ids(h, lin) && Distinct(lin) && |lin| == Size(h)
    && (forall i, j :: 0 <= i < j < |lin| ==> !Precedes(h, lin[j], lin[i]))
    && Accepted(m, h, lin)
  }

  ghost predicate Linearizable<S, I, O>(m: Model<S, I, O>, h: seq<Entry<I, O>>)
    requires WellFormed(h)
  {
    exists lin: seq<nat> :: IsLinearization(m, h, lin)
  }

  // ----- full and partial linearizations

  /** A full-length legal prefix is a linearization, and conversely. */
  lemma FullPartialIsLinearization<S, I, O>(m: Model<S, I, O>, h: seq<Entry<I, O>>, lin: seq<nat>)
    requires WellFormed(h)
    ensures IsLinearization(m, h, lin) <==> PartialLinearization(m, h, lin) && |lin| == Size(h)
  {
    if PartialLinearization(m, h, lin) && |lin| == Size(h) {
      forall i, j | 0 <= i < j < |lin| ensures !Precedes(h, lin[j], lin[i]) {
        assert lin[j] !in lin[..i];
      }
    }
    if IsLinearization(m, h, lin) {
      forall k, b: nat | 0 <= k < |lin| && b < Size(h) && Precedes(h, b, lin[k])
        ensures b in lin[..k]
      {
        AllIds(lin, Size(h));
        assert b in Below(Size(h));
        var j :| 0 <= j < |lin| && lin[j] == b;
        CallBeforeReturn(h, b);
        assert j < k;
        assert lin[..k][j] == b;
      }
    }
  }
}
