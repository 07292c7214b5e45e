/** The MapReduce coordinator: which task to hand out, and when the job is done. */
module Coordinator {
  import opened Sequences

  datatype Outcome = MapTask(id: nat) | ReduceTask(id: nat) | Wait | JobDone

  datatype Kind = Map | Reduce | OtherKind

  datatype Coord = Coord(
    mapFinished: seq<bool>,
    mapAssigned: seq<Option<real>>,       // when handed out last
    reduceFinished: seq<bool>,
    reduceAssigned: seq<Option<real>>,
    done: bool)

  predicate Shaped(c: Coord, nMap: nat, nReduce: nat)
  {
    |c.mapFinished| == |c.mapAssigned| == nMap && |c.reduceFinished| == |c.reduceAssigned| == nReduce
  }

  predicate All(finished: seq<bool>)
  {
    forall i :: 0 <= i < |finished| ==> finished[i]
  }

  /** Not finished, and either never handed out or handed out more than ten seconds ago. */
  predicate Available(finished: seq<bool>, handed: seq<Option<real>>, now: real, i: nat)
    requires i < |finished| == |handed|
  {
    !finished[i] && (handed[i].None? || now - handed[i].value > 10.0)
  }

  ghost predicate IsFirst(finished: seq<bool>, handed: seq<Option<real>>, now: real, i: nat)
    requires |finished| == |handed|
  {
    && i < |finished| && Available(finished, handed, now, i)
    && forall j: nat :: j < i ==> !Available(finished, handed, now, j)
  }

  ghost predicate NoneAvailable(finished: seq<bool>, handed: seq<Option<real>>, now: real)
    requires |finished| == |handed|
  {
    forall i: nat :: i < |finished| ==> !Available(finished, handed, now, i)
  }

  /** What one pass over the tables decides, and the tables after it. */
  ghost predicate Decides(c: Coord, now: real, c': Coord, o: Outcome)
    requires |c.mapFinished| == |c.mapAssigned| && |c.reduceFinished| == |c.reduceAssigned|
  {
    match o
    case MapTask(i) =>
      && IsFirst(c.mapFinished, c.mapAssigned, now, i)
      && c' == c.(mapAssigned := c.mapAssigned[i := Some(now)])
    case ReduceTask(i) =>
      && All(c.mapFinished) && IsFirst(c.reduceFinished, c.reduceAssigned, now, i)
      && c' == c.(reduceAssigned := c.reduceAssigned[i := Some(now)])
    case Wait =>
      && c' == c
      && ((!All(c.mapFinished) && NoneAvailable(c.mapFinished, c.mapAssigned, now)) ||
          (All(c.mapFinished) && !All(c.reduceFinished) && NoneAvailable(c.reduceFinished, c.reduceAssigned, now)))
    case JobDone => All(c.mapFinished) && All(c.reduceFinished) && c' == c.(done := true)
  }

  /** The job counts as done only when every task has been reported finished. */
  predicate Settled(c: Coord)
  {
    c.done ==> All(c.mapFinished) && All(c.reduceFinished)
  }

  /** The tables leave nothing open: every state and time has one decision. */
  lemma DecisionUnique(c: Coord, now: real, a: Coord, o: Outcome, b: Coord, q: Outcome)
    requires |c.mapFinished| == |c.mapAssigned| && |c.reduceFinished| == |c.reduceAssigned|
    requires Decides(c, now, a, o) && Decides(c, now, b, q)
    ensures a == b && o == q
  {
    if o.MapTask? && q.MapTask? {
      assert o.id == q.id;
    }
    if o.ReduceTask? && q.ReduceTask? {
      assert o.id == q.id;
    }
  }

  /** The inner loop: the first task to hand out; otherwise, whether all are finished. */
  method Scan(finished: seq<bool>, handed: seq<Option<real>>, now: real) returns (task: Option<nat>, allDone: bool)
    requires |finished| == |handed|
    ensures task.Some? ==> IsFirst(finished, handed, now, task.value)
    ensures task.None? ==> NoneAvailable(finished, handed, now) && (allDone <==> All(finished))
  {
    allDone := true;
    for i := 0 to |finished|
      invariant forall j: nat :: j < i ==> !Available(finished, handed, now, j)
      invariant allDone <==> forall j :: 0 <= j < i ==> finished[j]
    {
      if !finished[i] {
        if handed[i].None? || now - handed[i].value > 10.0 {
          return Some(i), false;
        }
        allDone := false;
      }
    }
    task := None;
  }

  class Coordinator {
    var mapFinished: seq<bool>
    var mapAssigned: seq<Option<real>>
    var reduceFinished: seq<bool>
    var reduceAssigned: seq<Option<real>>
    var done: bool

    ghost function Value(): Coord
      reads this
    {
      Coord(mapFinished, mapAssigned, reduceFinished, reduceAssigned, done)
    }

    constructor (nMap: nat, nReduce: nat)
      ensures Value() == Start(nMap, nReduce) && Settled(Value())
    {
      mapFinished, mapAssigned := Falses(nMap), Nones(nMap);
      reduceFinished, reduceAssigned := Falses(nReduce), Nones(nReduce);
      done := false;
    }

    /**
     One pass of `GetTask` with the lock held; `Wait` is where the code waits for the condition
     variable before the next pass.
     */
    method GetTask(now: real) returns (o: Outcome)
      requires |mapFinished| == |mapAssigned| && |reduceFinished| == |reduceAssigned| && Settled(Value())
      modifies this
      ensures Decides(old(Value()), now, Value(), o) && Settled(Value())
    {
      var task, allDone := Scan(mapFinished, mapAssigned, now);
      if task.Some? {
        mapAssigned := mapAssigned[task.value := Some(now)];
        return MapTask(task.value);
      }
      if !allDone {
        return Wait;
      }
      task, allDone := Scan(reduceFinished, reduceAssigned, now);
      if task.Some? {
        reduceAssigned := reduceAssigned[task.value := Some(now)];
        return ReduceTask(task.value);
      }
      if !allDone {
        return Wait;
      }
      done := true;
      return JobDone;
    }

    method FinishedTask(kind: Kind, id: nat) returns (ok: bool)
      requires kind.Map? ==> id < |mapFinished|
      requires (kind.Reduce? ==> id < |reduceFinished|) && Settled(Value())
      modifies this
      ensures Settled(Value())
      ensures ok <==> !kind.OtherKind?
      ensures Value() == Reported(old(Value()), kind, id)
      ensures mapFinished == if kind.Map? then old(mapFinished)[id := true] else old(mapFinished)
      ensures reduceFinished == if kind.Reduce? then old(reduceFinished)[id := true] else old(reduceFinished)
      ensures mapAssigned == old(mapAssigned) && reduceAssigned == old(reduceAssigned) && done == old(done)
    {
      match kind {
        case Map => mapFinished := mapFinished[id := true];
        case Reduce => reduceFinished := reduceFinished[id := true];
        case OtherKind => return false;
      }
      return true;
    }

    /** Main may stop on this answer: no task is still owed. */
    method Done() returns (r: bool)
      requires Settled(Value())
      ensures r == done
      ensures r ==> All(mapFinished) && All(reduceFinished)
    {
      return done;
    }
  }

  function Falses(n: nat): (s: seq<bool>)
    ensures |s| == n && forall i :: 0 <= i < n ==> !s[i]
  {
    seq(n, _ => false)
  }

  function Nones(n: nat): (s: seq<Option<real>>)
    ensures |s| == n && forall i :: 0 <= i < n ==> s[i] == None
  {
    seq(n, _ => None)
  }

  function Start(nMap: nat, nReduce: nat): Coord
  {
    Coord(Falses(nMap), Nones(nMap), Falses(nReduce), Nones(nReduce), false)
  }

  function Reported(c: Coord, kind: Kind, id: nat): Coord
    requires kind.Map? ==> id < |c.mapFinished|
    requires kind.Reduce? ==> id < |c.reduceFinished|
  {
    match kind
    case Map => c.(mapFinished := c.mapFinished[id := true])
    case Reduce => c.(reduceFinished := c.reduceFinished[id := true])
    case OtherKind => c
  }
}
