/**
 A MapReduce job: one coordinator and any number of workers that may be slow, crash, or have their
 task handed to someone else.  Intermediate and output files appear by atomic renames, before the
 worker reports.
 */
module MapReduceJob {
  import opened Coordinator
  import opened MapReduce
  import opened MapReduceAgree

  /** What the job computes: the pairs of each input, and how they are spread and reduced. */
  datatype Problem = Problem(mapped: seq<seq<KeyValue>>, nReduce: nat, ihash: string -> nat, reducef: Reducer)

  datatype Worker =
    | Idle
    | Mapping(task: nat, renamed: nat)                              // files renamed so far
    | Reducing(task: nat, fetched: nat, read: seq<KeyValue>)         // files read so far, and their pairs
    | Written(task: nat)                                            // output renamed, not yet reported

  datatype Job = Job(coord: Coord, files: map<(nat, nat), seq<KeyValue>>, outs: map<nat, seq<Line>>,
      workers: map<nat, Worker>)

  datatype Step =
    | Spawn(w: nat)
    | Die(w: nat)                             // a crash, wherever the worker is
    | Ask(w: nat, now: real, o: Outcome)      // one pass of GetTask
    | RenameFile(w: nat)
    | ReportMap(w: nat)
    | ReadFile(w: nat)
    | RenameOutput(w: nat, lines: seq<Line>)
    | ReportReduce(w: nat)

  predicate Ok(p: Problem)
  {
    p.nReduce > 0
  }

  ghost function Part(p: Problem, i: nat, r: nat): seq<KeyValue>
    requires Ok(p) && i < |p.mapped|
  {
    Bucket(p.mapped[i], p.nReduce, p.ihash, r)
  }

  ghost function Parts(p: Problem, r: nat): (b: seq<seq<KeyValue>>)
    requires Ok(p)
    ensures |b| == |p.mapped|
  {
    Buckets(p.mapped, p.nReduce, p.ihash, r)
  }

  ghost function Initial(p: Problem): Job
  {
    Job(Start(|p.mapped|, p.nReduce), map[], map[], map[])
  }

  // ----- steps

  ghost function Take(o: Outcome): Worker
    requires o.MapTask? || o.ReduceTask?
  {
    match o
    case MapTask(i) => Mapping(i, 0)
    case ReduceTask(r) => Reducing(r, 0, [])
  }

  /** Job `j` goes to `j'` by `step`. */
  ghost predicate Next(p: Problem, j: Job, step: Step, j': Job)
    requires Ok(p)
  {
    match step
    case Spawn(w) => w !in j.workers && j' == j.(workers := j.workers[w := Idle])
    case Die(w) => j' == j.(workers := j.workers - {w})
    case Ask(w, now, o) =>
      && w in j.workers && j.workers[w] == Idle && Shaped(j.coord, |p.mapped|, p.nReduce)
      && Decides(j.coord, now, j'.coord, o)
      && j' == j.(coord := j'.coord,
                  workers := match o
                             case Wait => j.workers
                             case JobDone => j.workers - {w}
                             case _ => j.workers[w := Take(o)])
    case RenameFile(w) =>
      && w in j.workers && j.workers[w].Mapping? && j.workers[w].renamed < p.nReduce && j.workers[w].task < |p.mapped|
      && var Mapping(i, r) := j.workers[w];
         j' == j.(files := j.files[(i, r) := Part(p, i, r)], workers := j.workers[w := Mapping(i, r + 1)])
    case ReportMap(w) =>
      && w in j.workers && j.workers[w].Mapping? && j.workers[w].renamed == p.nReduce
      && j.workers[w].task < |j.coord.mapFinished|
      && j' == j.(coord := Reported(j.coord, Kind.Map, j.workers[w].task), workers := j.workers[w := Idle])
    case ReadFile(w) =>
      && w in j.workers && j.workers[w].Reducing? && j.workers[w].fetched < |p.mapped|
      && var Reducing(r, k, read) := j.workers[w];
         j' == if (k, r) in j.files
               then j.(workers := j.workers[w := Reducing(r, k + 1, read + j.files[(k, r)])])
               else j.(workers := j.workers - {w})
    case RenameOutput(w, lines) =>
      && w in j.workers && j.workers[w].Reducing? && j.workers[w].fetched == |p.mapped|
      && IsOutput(j.workers[w].read, p.reducef, lines)
      && j' == j.(outs := j.outs[j.workers[w].task := lines], workers := j.workers[w := Written(j.workers[w].task)])
    case ReportReduce(w) =>
      && w in j.workers && j.workers[w].Written? && j.workers[w].task < |j.coord.reduceFinished|
      && j' == j.(coord := Reported(j.coord, Kind.Reduce, j.workers[w].task), workers := j.workers[w := Idle])
  }

  // ----- what every run keeps

  ghost predicate FileOk(p: Problem, j: Job, i: nat, r: nat)
    requires Ok(p)
  {
    i < |p.mapped| && (i, r) in j.files && j.files[(i, r)] == Part(p, i, r)
  }

  /** Every file that is there is complete and correct. */
  ghost predicate FilesOk(p: Problem, j: Job)
    requires Ok(p)
  {
    forall i, r :: (i, r) in j.files ==> FileOk(p, j, i, r)
  }

  ghost predicate OutOk(p: Problem, j: Job, r: nat)
    requires Ok(p)
  {
    r < p.nReduce && r in j.outs && IsOutput(Flatten(Parts(p, r)), p.reducef, j.outs[r])
  }

  ghost predicate WorkerOk(p: Problem, j: Job, w: nat)
    requires Ok(p) && w in j.workers
  {
    match j.workers[w]
    case Idle => true
    case Mapping(i, k) => i < |p.mapped| && k <= p.nReduce && forall r: nat :: r < k ==> (i, r) in j.files
    case Reducing(r, k, read) =>
      r < p.nReduce && k <= |p.mapped| && All(j.coord.mapFinished) && read == Flatten(Parts(p, r)[..k])
    case Written(r) => r < p.nReduce && r in j.outs
  }

  ghost predicate CoordOk(p: Problem, j: Job)
    requires Ok(p)
  {
    && Shaped(j.coord, |p.mapped|, p.nReduce)
    && (forall i: nat, r: nat {:trigger (i, r) in j.files} ::
          i < |p.mapped| && r < p.nReduce && j.coord.mapFinished[i] ==> (i, r) in j.files)
    && (forall r: nat :: r < p.nReduce && j.coord.reduceFinished[r] ==> r in j.outs)
    && (j.coord.done ==> All(j.coord.mapFinished) && All(j.coord.reduceFinished))
  }

  ghost predicate Inv(p: Problem, j: Job)
  {
    && Ok(p) && CoordOk(p, j) && FilesOk(p, j)
    && (forall r :: r in j.outs ==> OutOk(p, j, r))
    && (forall w :: w in j.workers ==> WorkerOk(p, j, w))
  }

  lemma InitialOk(p: Problem)
    requires Ok(p)
    ensures Inv(p, Initial(p))
  {}

  // ----- each step keeps it

  /** Only the workers changed, and only by `w`. */
  lemma StepSpawnDie(p: Problem, j: Job, step: Step, j': Job)
    requires Inv(p, j) && Next(p, j, step, j') && (step.Spawn? || step.Die?)
    ensures Inv(p, j')
  {
    hide IsOutput, Flatten, Buckets;
    forall w | w in j'.workers ensures WorkerOk(p, j', w) {
      assert w in j.workers ==> WorkerOk(p, j, w);
    }
  }

  lemma StepAsk(p: Problem, j: Job, step: Step, j': Job)
    requires Inv(p, j) && Next(p, j, step, j') && step.Ask?
    ensures Inv(p, j')
  {
    hide IsOutput, Buckets;
    forall w | w in j'.workers ensures WorkerOk(p, j', w) {
      assert WorkerOk(p, j, w);
      if step.o.ReduceTask? && w == step.w {
        assert Parts(p, step.o.id)[..0] == [];
      }
    }
  }

  lemma StepRenameFile(p: Problem, j: Job, step: Step, j': Job)
    requires Inv(p, j) && Next(p, j, step, j') && step.RenameFile?
    ensures Inv(p, j')
  {
    hide IsOutput, Flatten, Buckets, Bucket;
    forall w | w in j'.workers ensures WorkerOk(p, j', w) {
      assert WorkerOk(p, j, w);
    }
    forall i, r | (i, r) in j'.files ensures FileOk(p, j', i, r) {
      assert (i, r) in j.files ==> FileOk(p, j, i, r);
    }
  }

  lemma StepReportMap(p: Problem, j: Job, step: Step, j': Job)
    requires Inv(p, j) && Next(p, j, step, j') && step.ReportMap?
    ensures Inv(p, j')
  {
    hide IsOutput, Flatten, Buckets, Bucket;
    assert WorkerOk(p, j, step.w);
    forall w | w in j'.workers ensures WorkerOk(p, j', w) {
      assert WorkerOk(p, j, w);
    }
  }

  /** The file a reduce task reads next is there: the maps it was handed out after have finished. */
  lemma NextFileThere(p: Problem, j: Job, w: nat)
    requires Inv(p, j) && w in j.workers && j.workers[w].Reducing? && j.workers[w].fetched < |p.mapped|
    ensures FileOk(p, j, j.workers[w].fetched, j.workers[w].task)
  {
    hide IsOutput, Flatten, Buckets, Bucket;
    assert WorkerOk(p, j, w);
    assert (j.workers[w].fetched, j.workers[w].task) in j.files;
  }

  lemma FlattenNext(parts: seq<seq<KeyValue>>, k: nat)
    requires k < |parts|
    ensures Flatten(parts[..k + 1]) == Flatten(parts[..k]) + parts[k]
  {
    assert parts[..k + 1][..k] == parts[..k];
  }

  lemma PartsAt(p: Problem, r: nat, i: nat)
    requires Ok(p) && i < |p.mapped|
    ensures Parts(p, r)[i] == Part(p, i, r)
  {}

  lemma StepReadFile(p: Problem, j: Job, step: Step, j': Job)
    requires Inv(p, j) && Next(p, j, step, j') && step.ReadFile?
    ensures Inv(p, j')
  {
    NextFileThere(p, j, step.w);
    var r, k := j.workers[step.w].task, j.workers[step.w].fetched;
    FlattenNext(Parts(p, r), k);
    PartsAt(p, r, k);
    hide IsOutput, Part, Parts, Flatten, Decides;
    assert WorkerOk(p, j, step.w);
    forall w | w in j'.workers ensures WorkerOk(p, j', w) {
      assert WorkerOk(p, j, w);
    }
  }

  lemma StepRenameOutput(p: Problem, j: Job, step: Step, j': Job)
    requires Inv(p, j) && Next(p, j, step, j') && step.RenameOutput?
    ensures Inv(p, j')
  {
    hide IsOutput, Part, Parts, Flatten, Decides;
    assert WorkerOk(p, j, step.w);
    var r := j.workers[step.w].task;
    assert Parts(p, r)[..|p.mapped|] == Parts(p, r);
    assert OutOk(p, j', r);
    forall q | q in j'.outs ensures OutOk(p, j', q) {
      assert q != r ==> OutOk(p, j, q);
    }
    forall w | w in j'.workers ensures WorkerOk(p, j', w) {
      assert WorkerOk(p, j, w);
    }
  }

  lemma StepReportReduce(p: Problem, j: Job, step: Step, j': Job)
    requires Inv(p, j) && Next(p, j, step, j') && step.ReportReduce?
    ensures Inv(p, j')
  {
    hide IsOutput, Flatten, Buckets, Bucket;
    assert WorkerOk(p, j, step.w);
    forall w | w in j'.workers ensures WorkerOk(p, j', w) {
      assert WorkerOk(p, j, w);
    }
  }

  lemma StepKeepsInv(p: Problem, j: Job, step: Step, j': Job)
    requires Inv(p, j) && Next(p, j, step, j')
    ensures Inv(p, j')
  {
    hide *;
    match step
    case Spawn(_) => StepSpawnDie(p, j, step, j');
    case Die(_) => StepSpawnDie(p, j, step, j');
    case Ask(_, _, _) => StepAsk(p, j, step, j');
    case RenameFile(_) => StepRenameFile(p, j, step, j');
    case ReportMap(_) => StepReportMap(p, j, step, j');
    case ReadFile(_) => StepReadFile(p, j, step, j');
    case RenameOutput(_, _) => StepRenameOutput(p, j, step, j');
    case ReportReduce(_) => StepReportReduce(p, j, step, j');
  }

  // ----- runs

  ghost predicate IsRun(p: Problem, jobs: seq<Job>, steps: seq<Step>)
    requires Ok(p)
  {
    && |jobs| == |steps| + 1 && jobs[0] == Initial(p)
    && forall i: nat :: i < |steps| ==> Next(p, jobs[i], steps[i], jobs[i + 1])
  }

  lemma {:induction false} InvAlways(p: Problem, jobs: seq<Job>, steps: seq<Step>, t: nat)
    requires Ok(p) && IsRun(p, jobs, steps) && t < |jobs|
    ensures Inv(p, jobs[t])
  {
    hide Inv, Next, Initial;
    if t == 0 {
      InitialOk(p);
    } else {
      InvAlways(p, jobs, steps, t - 1);
      StepKeepsInv(p, jobs[t - 1], steps[t - 1], jobs[t]);
    }
  }

  /** Whoever holds a reduce task finds every intermediate file, complete and correct. */
  lemma ReduceFindsFiles(p: Problem, jobs: seq<Job>, steps: seq<Step>, t: nat, w: nat, i: nat)
    requires Ok(p) && IsRun(p, jobs, steps) && t < |jobs| && w in jobs[t].workers && jobs[t].workers[w].Reducing?
    requires i < |p.mapped|
    ensures FileOk(p, jobs[t], i, jobs[t].workers[w].task)
  {
    InvAlways(p, jobs, steps, t);
    hide IsOutput, Flatten, Buckets, Bucket, IsRun;
    assert WorkerOk(p, jobs[t], w);
    assert (i, jobs[t].workers[w].task) in jobs[t].files;
  }

  lemma OutsKept(p: Problem, j: Job, step: Step, j': Job, r: nat)
    requires Ok(p) && Next(p, j, step, j') && r in j.outs
    ensures r in j'.outs
  {}

  lemma OutsCorrect(p: Problem, j: Job, r: nat)
    requires Inv(p, j) && r in j.outs
    ensures IsOutput(Flatten(Parts(p, r)), p.reducef, j.outs[r])
  {
    assert OutOk(p, j, r);
  }

  /** An output file that is there never changes again, whoever else writes it. */
  lemma {:induction false} OutputFinal(p: Problem, jobs: seq<Job>, steps: seq<Step>, t1: nat, t2: nat, r: nat)
    requires Ok(p) && IgnoresOrder(p.reducef) && IsRun(p, jobs, steps) && t1 <= t2 < |jobs| && r in jobs[t1].outs
    ensures r in jobs[t2].outs && jobs[t2].outs[r] == jobs[t1].outs[r]
    decreases t2
  {
    hide *;
    if t1 < t2 {
      OutputFinal(p, jobs, steps, t1, t2 - 1, r);
      InvAlways(p, jobs, steps, t2 - 1);
      InvAlways(p, jobs, steps, t2);
      RunStep(p, jobs, steps, t2 - 1);
      OutsKept(p, jobs[t2 - 1], steps[t2 - 1], jobs[t2], r);
      OutsCorrect(p, jobs[t2 - 1], r);
      OutsCorrect(p, jobs[t2], r);
      OutputUnique(Flatten(Parts(p, r)), p.reducef, jobs[t2 - 1].outs[r], jobs[t2].outs[r]);
    }
  }

  lemma RunStep(p: Problem, jobs: seq<Job>, steps: seq<Step>, t: nat)
    requires Ok(p) && IsRun(p, jobs, steps) && t + 1 < |jobs|
    ensures t < |steps| && Next(p, jobs[t], steps[t], jobs[t + 1])
  {}

  ghost function OutputFiles(outs: map<nat, seq<Line>>, n: nat): (s: seq<seq<Line>>)
    requires forall r: nat :: r < n ==> r in outs
    ensures |s| == n && forall r: nat :: r < n ==> s[r] == outs[r]
  {
    if n == 0 then [] else OutputFiles(outs, n - 1) + [outs[n - 1]]
  }

  /** When the coordinator says it is done, every output file is there, and will not change. */
  lemma DoneMeansFinal(p: Problem, jobs: seq<Job>, steps: seq<Step>, t1: nat, t2: nat)
    requires Ok(p) && IgnoresOrder(p.reducef) && IsRun(p, jobs, steps) && t1 <= t2 < |jobs| && jobs[t1].coord.done
    ensures forall r: nat :: r < p.nReduce ==>
      r in jobs[t1].outs && r in jobs[t2].outs && jobs[t2].outs[r] == jobs[t1].outs[r]
  {
    InvAlways(p, jobs, steps, t1);
    forall r: nat | r < p.nReduce
      ensures r in jobs[t1].outs && r in jobs[t2].outs && jobs[t2].outs[r] == jobs[t1].outs[r]
    {
      assert r in jobs[t1].outs;
      OutputFinal(p, jobs, steps, t1, t2, r);
    }
  }

  /** And together they hold the lines of the sequential program. */
  lemma DoneMeansSequential(p: Problem, jobs: seq<Job>, steps: seq<Step>, t: nat, s: seq<Line>)
    requires Ok(p) && IgnoresOrder(p.reducef) && IsRun(p, jobs, steps) && t < |jobs| && jobs[t].coord.done
    requires IsOutput(Flatten(p.mapped), p.reducef, s)
    ensures forall r: nat :: r < p.nReduce ==> r in jobs[t].outs
    ensures var all := Flatten(OutputFiles(jobs[t].outs, p.nReduce));
      multiset(all) == multiset(s) && multiset(Texts(all)) == multiset(Texts(s))
  {
    InvAlways(p, jobs, steps, t);
    DoneMeansFinal(p, jobs, steps, t, t);
    var outs := OutputFiles(jobs[t].outs, p.nReduce);
    forall r | 0 <= r < |outs| ensures IsOutput(Flatten(Buckets(p.mapped, |outs|, p.ihash, r)), p.reducef, outs[r]) {
      assert OutOk(p, jobs[t], r);
    }
    hide IsOutput, IgnoresOrder, IsRun, Inv;
    assert AllOutputs(p.mapped, p.ihash, p.reducef, outs);
    DistributedIsSequential(p.mapped, p.ihash, p.reducef, outs, s);
    SameTexts(Flatten(outs), s);
  }
}
