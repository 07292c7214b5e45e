/** What the coordinator's tables say about the past of a job. */
module JobHistory {
  import opened Sequences
  import opened Coordinator
  import opened MapReduceJob

  // ----- the events of one task

  /** Map or reduce task `i`. */
  datatype Task = Task(reduce: bool, i: nat)

  function Size(p: Problem, reduce: bool): nat
  {
    if reduce then p.nReduce else |p.mapped|
  }

  function Finished(c: Coord, reduce: bool): seq<bool>
  {
    if reduce then c.reduceFinished else c.mapFinished
  }

  function Assigned(c: Coord, reduce: bool): seq<Option<real>>
  {
    if reduce then c.reduceAssigned else c.mapAssigned
  }

  /** The step reports task `x`: by a worker that has renamed all its files. */
  ghost predicate Reports(j: Job, step: Step, x: Task)
  {
    if x.reduce then step.ReportReduce? && step.w in j.workers && j.workers[step.w] == Written(x.i)
    else step.ReportMap? && step.w in j.workers && j.workers[step.w].Mapping? && j.workers[step.w].task == x.i
  }

  ghost predicate HandsOut(step: Step, x: Task)
  {
    step.Ask? && step.o == if x.reduce then ReduceTask(x.i) else MapTask(x.i)
  }

  ghost predicate ReportedBefore(jobs: seq<Job>, steps: seq<Step>, t: nat, x: Task)
    requires t <= |steps| < |jobs|
  {
    exists u: nat :: u < t && Reports(jobs[u], steps[u], x)
  }

  /** Step `u` is the last before `t` that hands task `x` out. */
  ghost predicate LastHandOut(steps: seq<Step>, t: nat, x: Task, u: nat)
    requires t <= |steps|
  {
    u < t && HandsOut(steps[u], x) && forall v: nat :: u < v < t ==> !HandsOut(steps[v], x)
  }

  // ----- one step

  lemma StepTables(p: Problem, j: Job, step: Step, j': Job, x: Task)
    requires Ok(p) && Next(p, j, step, j') && x.i < Size(p, x.reduce)
    requires Shaped(j.coord, |p.mapped|, p.nReduce)
    ensures Shaped(j'.coord, |p.mapped|, p.nReduce)
    ensures Finished(j'.coord, x.reduce)[x.i] <==> Finished(j.coord, x.reduce)[x.i] || Reports(j, step, x)
    ensures Assigned(j'.coord, x.reduce)[x.i] ==
      if HandsOut(step, x) then Some(step.now) else Assigned(j.coord, x.reduce)[x.i]
    ensures j'.coord.done <==> j.coord.done || (step.Ask? && step.o.JobDone?)
  {}

  lemma AlwaysSized(p: Problem, jobs: seq<Job>, steps: seq<Step>, t: nat)
    requires Ok(p) && IsRun(p, jobs, steps) && t < |jobs|
    ensures Shaped(jobs[t].coord, |p.mapped|, p.nReduce)
  {
    InvAlways(p, jobs, steps, t);
  }

  // ----- every run

  /** A task counts as finished exactly if a worker that did it has reported. */
  lemma {:induction false} FinishedIff(p: Problem, jobs: seq<Job>, steps: seq<Step>, t: nat, x: Task)
    requires Ok(p) && IsRun(p, jobs, steps) && t < |jobs| && x.i < Size(p, x.reduce)
    ensures Shaped(jobs[t].coord, |p.mapped|, p.nReduce)
    ensures Finished(jobs[t].coord, x.reduce)[x.i] <==> ReportedBefore(jobs, steps, t, x)
  {
    AlwaysSized(p, jobs, steps, t);
    if t > 0 {
      FinishedIff(p, jobs, steps, t - 1, x);
      RunStep(p, jobs, steps, t - 1);
      hide IsRun, Next, Reports;
      StepTables(p, jobs[t - 1], steps[t - 1], jobs[t], x);
    }
  }

  /** The table remembers when a task was handed out last, if ever. */
  lemma {:induction false} AssignedIff(p: Problem, jobs: seq<Job>, steps: seq<Step>, t: nat, x: Task, u: nat)
    requires Ok(p) && IsRun(p, jobs, steps) && t < |jobs| && x.i < Size(p, x.reduce)
    ensures Shaped(jobs[t].coord, |p.mapped|, p.nReduce)
    ensures LastHandOut(steps, t, x, u) ==> Assigned(jobs[t].coord, x.reduce)[x.i] == Some(steps[u].now)
    ensures (forall v: nat :: v < t ==> !HandsOut(steps[v], x)) <==> Assigned(jobs[t].coord, x.reduce)[x.i] == None
  {
    AlwaysSized(p, jobs, steps, t);
    if t > 0 {
      AssignedIff(p, jobs, steps, t - 1, x, u);
      RunStep(p, jobs, steps, t - 1);
      hide IsRun, Next, HandsOut;
      StepTables(p, jobs[t - 1], steps[t - 1], jobs[t], x);
    }
  }

  lemma HandedOutAvailable(p: Problem, j: Job, step: Step, j': Job, x: Task)
    requires Ok(p) && Next(p, j, step, j') && HandsOut(step, x) && x.i < Size(p, x.reduce)
    requires Shaped(j.coord, |p.mapped|, p.nReduce)
    ensures Available(Finished(j.coord, x.reduce), Assigned(j.coord, x.reduce), step.now, x.i)
    ensures x.reduce ==> All(j.coord.mapFinished)
  {}

  /**
   A task is never handed out once it is reported, nor within ten seconds of the last time; a reduce
   task only once every map task is reported.
   */
  lemma HandedOutApart(p: Problem, jobs: seq<Job>, steps: seq<Step>, t: nat, x: Task)
    requires Ok(p) && IsRun(p, jobs, steps) && t < |steps| && HandsOut(steps[t], x) && x.i < Size(p, x.reduce)
    ensures !ReportedBefore(jobs, steps, t, x)
    ensures forall u: nat :: LastHandOut(steps, t, x, u) ==> steps[t].now - steps[u].now > 10.0
    ensures x.reduce ==> forall i: nat :: i < |p.mapped| ==> ReportedBefore(jobs, steps, t, Task(false, i))
  {
    FinishedIff(p, jobs, steps, t, x);
    RunStep(p, jobs, steps, t);
    HandedOutAvailable(p, jobs[t], steps[t], jobs[t + 1], x);
    forall u: nat | LastHandOut(steps, t, x, u) ensures steps[t].now - steps[u].now > 10.0 {
      AssignedIff(p, jobs, steps, t, x, u);
    }
    if x.reduce {
      forall i: nat | i < |p.mapped| ensures ReportedBefore(jobs, steps, t, Task(false, i)) {
        FinishedIff(p, jobs, steps, t, Task(false, i));
      }
    }
  }

  ghost predicate AllReported(p: Problem, jobs: seq<Job>, steps: seq<Step>, t: nat, reduce: bool)
    requires t <= |steps| < |jobs|
  {
    forall i: nat :: i < Size(p, reduce) ==> ReportedBefore(jobs, steps, t, Task(reduce, i))
  }

  lemma AllFinishedIff(p: Problem, jobs: seq<Job>, steps: seq<Step>, t: nat, reduce: bool)
    requires Ok(p) && IsRun(p, jobs, steps) && t < |jobs|
    ensures All(Finished(jobs[t].coord, reduce)) <==> AllReported(p, jobs, steps, t, reduce)
  {
    AlwaysSized(p, jobs, steps, t);
    forall i: nat | i < Size(p, reduce)
      ensures Finished(jobs[t].coord, reduce)[i] <==> ReportedBefore(jobs, steps, t, Task(reduce, i))
    {
      FinishedIff(p, jobs, steps, t, Task(reduce, i));
    }
    hide IsRun, ReportedBefore;
  }

  /** A worker is told that the job is done exactly if every task is reported. */
  lemma DoneIff(p: Problem, jobs: seq<Job>, steps: seq<Step>, t: nat)
    requires Ok(p) && IsRun(p, jobs, steps) && t < |steps| && steps[t].Ask?
    ensures steps[t].o.JobDone? <==> AllReported(p, jobs, steps, t, false) && AllReported(p, jobs, steps, t, true)
  {
    AllFinishedIff(p, jobs, steps, t, false);
    AllFinishedIff(p, jobs, steps, t, true);
    AlwaysSized(p, jobs, steps, t);
    RunStep(p, jobs, steps, t);
    hide IsRun, AllReported;
    DecisionDone(jobs[t].coord, steps[t].now, jobs[t + 1].coord, steps[t].o);
  }

  lemma DecisionDone(c: Coord, now: real, c': Coord, o: Outcome)
    requires |c.mapFinished| == |c.mapAssigned| && |c.reduceFinished| == |c.reduceAssigned| && Decides(c, now, c', o)
    ensures o.JobDone? <==> All(c.mapFinished) && All(c.reduceFinished)
  {}

  // ----- what an idle worker is told

  /** Task `x` is not reported, and was not handed out within the last ten seconds. */
  ghost predicate Free(jobs: seq<Job>, steps: seq<Step>, t: nat, now: real, x: Task)
    requires t <= |steps| < |jobs|
  {
    !ReportedBefore(jobs, steps, t, x) && forall u: nat :: LastHandOut(steps, t, x, u) ==> now - steps[u].now > 10.0
  }

  ghost predicate FirstFree(jobs: seq<Job>, steps: seq<Step>, t: nat, now: real, x: Task)
    requires t <= |steps| < |jobs|
  {
    Free(jobs, steps, t, now, x) && forall i: nat :: i < x.i ==> !Free(jobs, steps, t, now, Task(x.reduce, i))
  }

  lemma {:induction false} LastExists(steps: seq<Step>, t: nat, x: Task, v: nat) returns (u: nat)
    requires v < t <= |steps| && HandsOut(steps[v], x)
    ensures LastHandOut(steps, t, x, u)
    decreases t
  {
    if HandsOut(steps[t - 1], x) {
      u := t - 1;
    } else {
      u := LastExists(steps, t - 1, x, v);
    }
  }

  lemma FreeIff(p: Problem, jobs: seq<Job>, steps: seq<Step>, t: nat, now: real, x: Task)
    requires Ok(p) && IsRun(p, jobs, steps) && t < |jobs| && x.i < Size(p, x.reduce)
    ensures Shaped(jobs[t].coord, |p.mapped|, p.nReduce)
    ensures Free(jobs, steps, t, now, x) <==>
      Available(Finished(jobs[t].coord, x.reduce), Assigned(jobs[t].coord, x.reduce), now, x.i)
  {
    FinishedIff(p, jobs, steps, t, x);
    AssignedIff(p, jobs, steps, t, x, 0);
    forall u: nat | LastHandOut(steps, t, x, u)
      ensures Assigned(jobs[t].coord, x.reduce)[x.i] == Some(steps[u].now)
    {
      AssignedIff(p, jobs, steps, t, x, u);
    }
    hide IsRun, Initial, ReportedBefore, HandsOut;
    if v: nat :| v < t && HandsOut(steps[v], x) {
      var u := LastExists(steps, t, x, v);
    }
  }

  lemma DecisionTask(c: Coord, now: real, c': Coord, o: Outcome, i: nat)
    requires |c.mapFinished| == |c.mapAssigned| && |c.reduceFinished| == |c.reduceAssigned| && Decides(c, now, c', o)
    ensures o == MapTask(i) <==> IsFirst(c.mapFinished, c.mapAssigned, now, i)
    ensures o == ReduceTask(i) <==> All(c.mapFinished) && IsFirst(c.reduceFinished, c.reduceAssigned, now, i)
  {}

  lemma FirstFreeIff(p: Problem, jobs: seq<Job>, steps: seq<Step>, t: nat, now: real, x: Task)
    requires Ok(p) && IsRun(p, jobs, steps) && t < |jobs| && x.i < Size(p, x.reduce)
    ensures Shaped(jobs[t].coord, |p.mapped|, p.nReduce)
    ensures FirstFree(jobs, steps, t, now, x) <==>
      IsFirst(Finished(jobs[t].coord, x.reduce), Assigned(jobs[t].coord, x.reduce), now, x.i)
  {
    AlwaysSized(p, jobs, steps, t);
    forall i: nat | i <= x.i
      ensures Free(jobs, steps, t, now, Task(x.reduce, i)) <==>
        Available(Finished(jobs[t].coord, x.reduce), Assigned(jobs[t].coord, x.reduce), now, i)
    {
      FreeIff(p, jobs, steps, t, now, Task(x.reduce, i));
    }
    hide IsRun, Free, Available;
    assert x == Task(x.reduce, x.i);
  }

  /**
   A worker that asks is given the first free map task; if all are reported, the first free reduce
   task.  So a task whose worker has died is handed out again.
   */
  lemma HandedOutIff(p: Problem, jobs: seq<Job>, steps: seq<Step>, t: nat, x: Task)
    requires Ok(p) && IsRun(p, jobs, steps) && t < |steps| && steps[t].Ask? && x.i < Size(p, x.reduce)
    ensures HandsOut(steps[t], x) <==>
      FirstFree(jobs, steps, t, steps[t].now, x) && (x.reduce ==> AllReported(p, jobs, steps, t, false))
  {
    AllFinishedIff(p, jobs, steps, t, false);
    AlwaysSized(p, jobs, steps, t);
    FirstFreeIff(p, jobs, steps, t, steps[t].now, x);
    RunStep(p, jobs, steps, t);
    hide IsRun, AllReported, FirstFree, IsFirst;
    DecisionTask(jobs[t].coord, steps[t].now, jobs[t + 1].coord, steps[t].o, x.i);
  }
}
