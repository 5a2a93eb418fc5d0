/** The monitoring scheduler: one dispatch pass, and the jobs' rhythm over many passes. */
module IntervalScheduler {

  /** `locked` is the state of the job's own lock; the runner is not part of the model. */
  datatype Job = Job(name: string, interval: real, delay: real, nextRun: real, locked: bool)

  /** The interval with the floor the dispatcher gives it. */
  function Gap(job: Job): (r: real)
    ensures r > 0.0
  {
    if job.interval > 0.01 then job.interval else 0.01
  }

  predicate Due(job: Job, now: real) {
    job.nextRun <= now
  }

  function Marked(job: Job, now: real): Job {
    job.(nextRun := now + Gap(job))
  }

  /** What one pass does to one job: a due job is put off, and locked if it was free. */
  function Dispatched(job: Job, now: real): Job {
    if Due(job, now) then Marked(job, now).(locked := true) else job
  }

  predicate Starts(job: Job, now: real) {
    Due(job, now) && !job.locked
  }

  ghost predicate StartedBy(jobs: seq<Job>, now: real, started: seq<nat>) {
    && (forall i, j :: 0 <= i < j < |started| ==> started[i] < started[j])
    && (forall k: nat :: k in started <==> k < |jobs| && Starts(jobs[k], now))
  }

  function Initialised(jobs: seq<Job>, now: real): (r: seq<Job>)
    ensures |r| == |jobs|
  {
    seq(|jobs|, k requires 0 <= k < |jobs| =>
      jobs[k].(nextRun := now + (if jobs[k].delay > 0.0 then jobs[k].delay else 0.0)))
  }

  class Scheduler {
    var jobs: seq<Job>
    /** Jobs of the workers started so far, in order of dispatch. */
    var workers: seq<nat>

    /** One pass over the jobs while no worker finishes. */
    method DispatchDue(now: real) returns (started: seq<nat>)
      modifies this
      ensures |jobs| == |old(jobs)|
      ensures forall k :: 0 <= k < |jobs| ==> jobs[k] == Dispatched(old(jobs)[k], now)
      ensures StartedBy(old(jobs), now, started)
      ensures workers == old(workers) + started
    {
      started := [];
      for i := 0 to |jobs|
        invariant |jobs| == |old(jobs)|
        invariant forall k :: 0 <= k < |jobs| ==>
                    jobs[k] == if k < i then Dispatched(old(jobs)[k], now) else old(jobs)[k]
        invariant forall k: nat :: k in started <==> k < i && Starts(old(jobs)[k], now)
        invariant forall k, l :: 0 <= k < l < |started| ==> started[k] < started[l]
        invariant workers == old(workers) + started
      {
        if now < jobs[i].nextRun {
          continue;
        }
        jobs := jobs[i := Marked(jobs[i], now)];
        if jobs[i].locked {
          continue;
        }
        jobs := jobs[i := jobs[i].(locked := true)];
        assert forall k :: 0 <= k < |started| ==> started[k] in started;
        workers := workers + [i];
        started := started + [i];
      }
    }

    method InitializeJobs(now: real)
      modifies this
      ensures jobs == Initialised(old(jobs), now) && workers == old(workers)
    {
      for i := 0 to |jobs|
        invariant |jobs| == |old(jobs)| && workers == old(workers)
        invariant forall k :: 0 <= k < |jobs| ==>
                    jobs[k] == if k < i then Initialised(old(jobs), now)[k] else old(jobs)[k]
      {
        jobs := jobs[i := jobs[i].(nextRun := now + (if jobs[i].delay > 0.0 then jobs[i].delay else 0.0))];
      }
    }
  }

  // ---- one job over many passes -------------------------------------------------------

  /** A pass at `now`; before it, the job's worker may have released the lock. */
  datatype Pass = Pass(now: real, released: bool)

  function Unlocked(job: Job, p: Pass): Job {
    if p.released then job.(locked := false) else job
  }

  function After(job: Job, passes: seq<Pass>): Job {
    if passes == [] then job
    else Dispatched(Unlocked(After(job, passes[..|passes| - 1]), passes[|passes| - 1]), passes[|passes| - 1].now)
  }

  /** Pass `i` found the job due. */
  predicate DueAt(job: Job, passes: seq<Pass>, i: nat)
    requires i < |passes|
  {
    Due(After(job, passes[..i]), passes[i].now)
  }

  predicate StartedAt(job: Job, passes: seq<Pass>, i: nat)
    requires i < |passes|
  {
    Starts(Unlocked(After(job, passes[..i]), passes[i]), passes[i].now)
  }

  lemma {:induction false} GapIsFixed(job: Job, passes: seq<Pass>)
    ensures Gap(After(job, passes)) == Gap(job)
  {
    if passes != [] {
      GapIsFixed(job, passes[..|passes| - 1]);
    }
  }

  /** From the pass that finds a job due, its next run lies at least one gap later. */
  lemma {:induction false} PutOff(job: Job, passes: seq<Pass>, i: nat, j: nat)
    requires i < j <= |passes| && DueAt(job, passes, i)
    ensures After(job, passes[..j]).nextRun >= passes[i].now + Gap(job)
    decreases j
  {
    assert passes[..j][..j - 1] == passes[..j - 1];
    GapIsFixed(job, passes[..j - 1]);
    if i < j - 1 {
      PutOff(job, passes, i, j - 1);
    }
  }

  /** A job runs no more often than its interval allows, whatever the passes' times and
      however long its workers hold the lock. */
  lemma RunsAreSpaced(job: Job, passes: seq<Pass>, i: nat, j: nat)
    requires i < j < |passes| && StartedAt(job, passes, i) && StartedAt(job, passes, j)
    ensures passes[j].now >= passes[i].now + Gap(job)
    ensures exists k :: i < k <= j && passes[k].released
  {
    PutOff(job, passes, i, j);
    if forall k :: i < k <= j ==> !passes[k].released {
      StaysLocked(job, passes, i, j);
    }
  }

  lemma {:induction false} StaysLocked(job: Job, passes: seq<Pass>, i: nat, j: nat)
    requires i < j <= |passes| && StartedAt(job, passes, i)
    requires forall k :: i < k < j ==> !passes[k].released
    ensures After(job, passes[..j]).locked
    decreases j
  {
    assert passes[..j][..j - 1] == passes[..j - 1];
    if i < j - 1 {
      StaysLocked(job, passes, i, j - 1);
    }
  }
}
