/** The maintenance job queue: batch admission, one worker per batch, restart recovery. */
module JobQueue {
  import opened Common
  import opened Retention

  datatype JobState = Queued | Running | Successful | Incomplete | Failed | Unreachable | Cancelled

  predicate Active(s: JobState) {
    s == Queued || s == Running
  }

  datatype Job = Job(
    id: string, instance: string, state: JobState, createdAt: int, startedAt: Option<int>,
    finishedAt: Option<int>, durationSeconds: Option<int>, summary: string)

  type Jobs = map<string, Job>

  datatype StartError = MixedInstances | Busy

  // ---- the document updates --------------------------------------------------------

  predicate Occupied(jobs: Jobs, instance: string) {
    exists id :: id in jobs && jobs[id].instance == instance && Active(jobs[id].state)
  }

  function Inserted(jobs: Jobs, batch: seq<Job>): Jobs {
    if batch == [] then jobs
    else Inserted(jobs, batch[..|batch| - 1])[batch[|batch| - 1].id := batch[|batch| - 1]]
  }

  /** Terminal jobs with the time they are ordered by. */
  function TerminalAges(jobs: Jobs): map<string, real> {
    map id | id in jobs && !Active(jobs[id].state) ::
      (if jobs[id].finishedAt.Some? && jobs[id].finishedAt.value != 0 then jobs[id].finishedAt.value
       else jobs[id].createdAt) as real
  }

  /** `_start_jobs`, the whole of it one update. */
  function StartDoc(jobs: Jobs, batch: seq<Job>, maxJobs: nat): Result<Jobs, StartError> {
    if batch == [] then Ok(jobs)
    else if exists j :: j in batch && j.instance != batch[0].instance then Err(MixedInstances)
    else if Occupied(jobs, batch[0].instance) then Err(Busy)
    else
      var all := Inserted(jobs, batch);
      Ok(Bounded(all, TerminalAges(all), maxJobs))
  }

  function SetRunning(jobs: Jobs, id: string, clock: int): Jobs {
    if id !in jobs then jobs else jobs[id := jobs[id].(state := Running, startedAt := Some(clock))]
  }

  function Max0(x: int): int {
    if x > 0 then x else 0
  }

  function SetFinished(jobs: Jobs, id: string, state: JobState, started: int, clock: int, summary: string): Jobs {
    if id !in jobs then jobs
    else jobs[id := jobs[id].(state := state, finishedAt := Some(clock),
                              durationSeconds := Some(Max0(clock - started)), summary := summary)]
  }

  /** What became of the remote playbook: an exception, or its recap totals, exit status and
      whether the result it should have printed is missing. */
  datatype Outcome = Raised | Ran(unreachable: nat, exitStatus: int, failed: nat, missing: bool)

  function ResultState(o: Outcome): JobState {
    match o
    case Raised => Failed
    case Ran(unreachable, exitStatus, failed, missing) =>
      if unreachable > 0 then Unreachable
      else if exitStatus != 0 || failed > 0 then Failed
      else if missing then Incomplete
      else Successful
  }

  /** One job's work; `later` is the time and message of an error raised after its result was
      stored, which takes the result back. */
  datatype Work = Work(started: int, outcome: Outcome, finished: int, summary: string, later: Option<(int, string)>)

  function FinalState(w: Work): JobState {
    if w.later.Some? then Failed else ResultState(w.outcome)
  }

  const INTERRUPTED := "HomelabHQ restarted before the job result was collected"

  function Interrupted(job: Job, clock: int): Job {
    job.(state := Failed, finishedAt := Some(clock),
         durationSeconds := Some(Max0(clock - (if job.startedAt.Some? && job.startedAt.value != 0
                                               then job.startedAt.value else clock))),
         summary := INTERRUPTED)
  }

  /** `recover_interrupted_jobs` */
  function Recovered(jobs: Jobs, clock: int): Jobs {
    map id | id in jobs :: if Active(jobs[id].state) then Interrupted(jobs[id], clock) else jobs[id]
  }

  function Without(jobs: Jobs, instances: set<string>): Jobs {
    map id | id in jobs && jobs[id].instance !in instances :: jobs[id]
  }

  /** The stored jobs, updated in place. */
  class JobStore {
    var jobs: Jobs

    method StartJobs(batch: seq<Job>, maxJobs: nat) returns (r: Result<seq<string>, StartError>)
      modifies this
      ensures r.Err? ==> StartDoc(old(jobs), batch, maxJobs) == Err(r.error) && jobs == old(jobs)
      ensures r.Ok? ==> StartDoc(old(jobs), batch, maxJobs) == Ok(jobs) && r.value == Ids(batch)
    {
      if batch == [] {
        return Ok([]);
      }
      if exists j :: j in batch && j.instance != batch[0].instance {
        return Err(MixedInstances);
      }
      if Occupied(jobs, batch[0].instance) {
        return Err(Busy);
      }
      var all := jobs;
      for i := 0 to |batch|
        invariant all == Inserted(jobs, batch[..i])
        invariant jobs == old(jobs)
      {
        assert batch[..i + 1][..i] == batch[..i];
        all := all[batch[i].id := batch[i]];
      }
      assert batch[..|batch|] == batch;
      jobs := Bound(all, TerminalAges(all), maxJobs);
      r := Ok(Ids(batch));
    }

    /** One job from its start to a terminal state; a job that is gone is skipped. */
    method RunJob(id: string, w: Work) returns (state: Option<JobState>)
      modifies this
      ensures id !in old(jobs) ==> jobs == old(jobs) && state == None
      ensures id in old(jobs) ==>
                var end := if w.later.Some? then w.later.value else (w.finished, w.summary);
                && state == Some(FinalState(w))
                && jobs == old(jobs)[id := old(jobs)[id].(
                     state := FinalState(w), startedAt := Some(w.started), finishedAt := Some(end.0),
                     durationSeconds := Some(Max0(end.0 - w.started)), summary := end.1)]
    {
      if id !in jobs {
        return None;
      }
      jobs := SetRunning(jobs, id, w.started);
      var result := ResultState(w.outcome);
      jobs := SetFinished(jobs, id, result, w.started, w.finished, w.summary);
      if w.later.Some? {
        result := Failed;
        jobs := SetFinished(jobs, id, result, w.started, w.later.value.0, w.later.value.1);
      }
      state := Some(result);
    }

    /** The worker thread of a batch: its jobs in order, each finished before the next. */
    method RunJobSequence(ids: seq<string>, works: seq<Work>)
      requires |works| == |ids| && forall i, j :: 0 <= i < j < |ids| ==> ids[i] != ids[j]
      modifies this
      ensures jobs.Keys == old(jobs).Keys
      ensures forall i :: 0 <= i < |ids| && ids[i] in jobs ==> jobs[ids[i]].state == FinalState(works[i])
      ensures forall id :: id in jobs && id !in ids ==> jobs[id] == old(jobs)[id]
    {
      for i := 0 to |ids|
        invariant jobs.Keys == old(jobs).Keys
        invariant forall k :: 0 <= k < i && ids[k] in jobs ==> jobs[ids[k]].state == FinalState(works[k])
        invariant forall id :: id in jobs && id !in ids ==> jobs[id] == old(jobs)[id]
      {
        var _ := RunJob(ids[i], works[i]);
      }
    }

    /** A device goes, and with it all jobs of its instances, whatever their state. */
    method DeleteInstances(instances: set<string>)
      modifies this
      ensures jobs == Without(old(jobs), instances)
    {
      var pending := jobs.Keys;
      while pending != {}
        invariant pending <= jobs.Keys
        invariant forall id :: id in jobs <==> id in old(jobs) && (id in pending || id in Without(old(jobs), instances))
        invariant forall id :: id in jobs ==> jobs[id] == old(jobs)[id]
        decreases pending
      {
        var id :| id in pending;
        pending := pending - {id};
        if jobs[id].instance in instances {
          jobs := jobs - {id};
        }
      }
    }

    method RecoverInterruptedJobs(clock: int) returns (recovered: nat)
      modifies this
      ensures jobs == Recovered(old(jobs), clock)
      ensures recovered == |set id | id in old(jobs) && Active(old(jobs)[id].state)|
    {
      recovered := 0;
      var pending := jobs.Keys;
      ghost var seen: set<string> := {};
      while pending != {}
        invariant pending <= jobs.Keys && jobs.Keys == old(jobs).Keys
        invariant forall id :: id in jobs ==>
                    jobs[id] == if id in pending then old(jobs)[id] else Recovered(old(jobs), clock)[id]
        invariant seen == set id | id in old(jobs) && Active(old(jobs)[id].state) && id !in pending
        invariant recovered == |seen|
        decreases pending
      {
        var id :| id in pending;
        pending := pending - {id};
        if Active(jobs[id].state) {
          jobs := jobs[id := Interrupted(jobs[id], clock)];
          recovered := recovered + 1;
          seen := seen + {id};
        }
      }
      assert seen == set id | id in old(jobs) && Active(old(jobs)[id].state);
    }
  }

  function Ids(batch: seq<Job>): (ids: seq<string>)
    ensures |ids| == |batch|
  {
    seq(|batch|, i requires 0 <= i < |batch| => batch[i].id)
  }

  /** Recovery leaves nothing active and touches nothing else. */
  lemma RecoveryEndsActivity(jobs: Jobs, clock: int)
    ensures var after := Recovered(jobs, clock);
            && after.Keys == jobs.Keys
            && (forall id :: id in after ==> !Active(after[id].state))
            && (forall id :: id in jobs && !Active(jobs[id].state) ==> after[id] == jobs[id])
  {
  }

  predicate Names(batch: seq<Job>, id: string) {
    exists i :: 0 <= i < |batch| && batch[i].id == id
  }

  lemma {:induction false} InsertedFacts(jobs: Jobs, batch: seq<Job>)
    requires forall i, j :: 0 <= i < j < |batch| ==> batch[i].id != batch[j].id
    ensures forall id :: id in Inserted(jobs, batch) <==> id in jobs || Names(batch, id)
    ensures forall i :: 0 <= i < |batch| ==>
              batch[i].id in Inserted(jobs, batch) && Inserted(jobs, batch)[batch[i].id] == batch[i]
    ensures forall id :: id in jobs && !Names(batch, id) ==> Inserted(jobs, batch)[id] == jobs[id]
  {
    if batch != [] {
      var init, last := batch[..|batch| - 1], batch[|batch| - 1];
      InsertedFacts(jobs, init);
      assert forall i :: 0 <= i < |init| ==> init[i] == batch[i];
      forall id
        ensures Names(batch, id) <==> Names(init, id) || id == last.id
      {
        if Names(init, id) {
          var i :| 0 <= i < |init| && init[i].id == id;
          assert batch[i].id == id;
        }
      }
    }
  }

  /** An admission drops no active job, and only the oldest terminal ones, and ends within
      the limit as far as the active jobs allow. */
  lemma AdmissionBounds(jobs: Jobs, batch: seq<Job>, maxJobs: nat)
    requires StartDoc(jobs, batch, maxJobs).Ok? && batch != []
    ensures var all, kept := Inserted(jobs, batch), StartDoc(jobs, batch, maxJobs).value;
            && (forall id :: id in kept ==> id in all && kept[id] == all[id])
            && (forall id :: id in all && Active(all[id].state) ==> id in kept)
            && (forall gone, id :: gone in all && gone !in kept && id in kept && !Active(kept[id].state) ==>
                  Older(TerminalAges(all), gone, id))
            && |kept| <= (if |ActiveIds(all)| > maxJobs then |ActiveIds(all)| else maxJobs)
  {
    TerminalBounds(Inserted(jobs, batch), maxJobs);
  }

  lemma AgesAreTerminal(all: Jobs)
    ensures TerminalAges(all).Keys <= all.Keys && all.Keys - TerminalAges(all).Keys == ActiveIds(all)
    ensures forall id :: id in all ==> (id in TerminalAges(all) <==> !Active(all[id].state))
  {
  }

  lemma TerminalBounds(all: Jobs, maxJobs: nat)
    ensures var kept := Bounded(all, TerminalAges(all), maxJobs);
            && (forall id :: id in kept ==> id in all && kept[id] == all[id])
            && (forall id :: id in all && Active(all[id].state) ==> id in kept)
            && (forall gone, id :: gone in all && gone !in kept && id in kept && !Active(kept[id].state) ==>
                  Older(TerminalAges(all), gone, id))
            && |kept| <= (if |ActiveIds(all)| > maxJobs then |ActiveIds(all)| else maxJobs)
  {
    AgesAreTerminal(all);
    OldestLeave(all, TerminalAges(all), maxJobs);
  }

  /** The same, for any terminal records. */
  lemma OldestLeave(all: Jobs, ages: map<string, real>, maxJobs: nat)
    requires ages.Keys <= all.Keys && all.Keys - ages.Keys == ActiveIds(all)
    requires forall id :: id in all ==> (id in ages <==> !Active(all[id].state))
    ensures var kept := Bounded(all, ages, maxJobs);
            && (forall id :: id in kept ==> id in all && kept[id] == all[id])
            && (forall id :: id in all && Active(all[id].state) ==> id in kept)
            && (forall gone, id :: gone in all && gone !in kept && id in kept && !Active(kept[id].state) ==>
                  Older(ages, gone, id))
            && |kept| <= (if |ActiveIds(all)| > maxJobs then |ActiveIds(all)| else maxJobs)
  {
    BoundedFacts(all, ages, maxJobs);
  }

  function ActiveIds(jobs: Jobs): set<string> {
    set id | id in jobs && Active(jobs[id].state)
  }
}
