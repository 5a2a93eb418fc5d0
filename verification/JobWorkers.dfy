/** Admissions, workers and restarts interleaved in every order against one job document.

    Job ids are random, hence fresh.  A worker thread takes its batch job by job and may
    die anywhere; a restart ends every worker and recovers before anything is admitted. */
module JobWorkers {
  import opened JobQueue

  /** Where a worker is in its current job: not begun, inside it, or past its result. */
  datatype Stage = Idle | Inside | After

  datatype Batch = Batch(ids: seq<string>, instance: string, pos: nat, stage: Stage, alive: bool)

  /** `owner` records the batch and position every admitted id was given. */
  datatype System = System(jobs: Jobs, batches: seq<Batch>, owner: map<string, (int, int)>)

  datatype Action =
    | Admit(batch: seq<Job>, maxJobs: nat)
    | Begin(b: nat, clock: int)
    | Finish(b: nat, state: JobState, started: int, clock: int)
    | FailAfter(b: nat, started: int, clock: int)
    | Next(b: nat)
    | Die(b: nat)
    | Restart(clock: int)
    | Delete(instances: set<string>)

  ghost predicate FreshBatch(s: System, batch: seq<Job>) {
    && batch != []
    && (forall i :: 0 <= i < |batch| ==> batch[i].state == Queued && batch[i].id !in s.owner && batch[i].id !in s.jobs)
    && (forall i, j :: 0 <= i < j < |batch| ==> batch[i].id != batch[j].id)
  }

  predicate Working(s: System, b: nat, stage: Stage) {
    b < |s.batches| && s.batches[b].alive && s.batches[b].pos < |s.batches[b].ids| && s.batches[b].stage == stage
  }

  function Current(s: System, b: nat): string
    requires b < |s.batches| && s.batches[b].pos < |s.batches[b].ids|
  {
    s.batches[b].ids[s.batches[b].pos]
  }

  function With(s: System, b: nat, jobs: Jobs, batch: Batch): System
    requires b < |s.batches|
  {
    s.(jobs := jobs, batches := s.batches[b := batch])
  }

  function Owners(owner: map<string, (int, int)>, b: nat, ids: seq<string>): map<string, (int, int)> {
    if ids == [] then owner
    else Owners(owner, b, ids[..|ids| - 1])[ids[|ids| - 1] := (b, |ids| - 1)]
  }

  ghost function DoAdmit(s: System, batch: seq<Job>, maxJobs: nat): System {
    if FreshBatch(s, batch) && StartDoc(s.jobs, batch, maxJobs).Ok? then
      System(StartDoc(s.jobs, batch, maxJobs).value,
             s.batches + [Batch(Ids(batch), batch[0].instance, 0, Idle, true)],
             Owners(s.owner, |s.batches|, Ids(batch)))
    else s
  }

  function Closed(batches: seq<Batch>): seq<Batch> {
    seq(|batches|, b requires 0 <= b < |batches| =>
      batches[b].(pos := |batches[b].ids|, stage := Idle, alive := false))
  }

  function DoBegin(s: System, b: nat, clock: int): System {
    if !Working(s, b, Idle) then s
    else if Current(s, b) in s.jobs then
      With(s, b, SetRunning(s.jobs, Current(s, b), clock), s.batches[b].(stage := Inside))
    else With(s, b, s.jobs, s.batches[b].(pos := s.batches[b].pos + 1))
  }

  function DoFinish(s: System, b: nat, state: JobState, started: int, clock: int): System {
    if Working(s, b, Inside) && !Active(state) then
      With(s, b, SetFinished(s.jobs, Current(s, b), state, started, clock, ""), s.batches[b].(stage := After))
    else s
  }

  function DoFailAfter(s: System, b: nat, started: int, clock: int): System {
    if Working(s, b, After) then
      With(s, b, SetFinished(s.jobs, Current(s, b), Failed, started, clock, ""), s.batches[b])
    else s
  }

  function DoNext(s: System, b: nat): System {
    if Working(s, b, After) then With(s, b, s.jobs, s.batches[b].(pos := s.batches[b].pos + 1, stage := Idle)) else s
  }

  function DoDie(s: System, b: nat): System {
    if b < |s.batches| then With(s, b, s.jobs, s.batches[b].(alive := false)) else s
  }

  /** One step; an action whose guard fails leaves the system as it is. */
  ghost function Do(s: System, a: Action): System {
    match a
    case Admit(batch, maxJobs) => DoAdmit(s, batch, maxJobs)
    case Begin(b, clock) => DoBegin(s, b, clock)
    case Finish(b, state, started, clock) => DoFinish(s, b, state, started, clock)
    case FailAfter(b, started, clock) => DoFailAfter(s, b, started, clock)
    case Next(b) => DoNext(s, b)
    case Die(b) => DoDie(s, b)
    case Delete(instances) => s.(jobs := Without(s.jobs, instances))
    case Restart(clock) => s.(jobs := Recovered(s.jobs, clock), batches := Closed(s.batches))
  }

  ghost function DoAll(s: System, actions: seq<Action>): System {
    if actions == [] then s else Do(DoAll(s, actions[..|actions| - 1]), actions[|actions| - 1])
  }

  /** A process starts on a document whose interrupted jobs were recovered. */
  ghost predicate Initial(s: System) {
    s.batches == [] && s.owner == map[] && forall id :: id in s.jobs ==> !Active(s.jobs[id].state)
  }

  // ---- the invariant ----------------------------------------------------------------

  predicate Over(jobs: Jobs, id: string) {
    id !in jobs || !Active(jobs[id].state)
  }

  /** A job before its worker is over, the current one matches the stage, later ones wait,
      unless their records were deleted. */
  predicate InPlace(jobs: Jobs, b: Batch, k: nat)
    requires k < |b.ids|
  {
    if k < b.pos || (k == b.pos && b.stage == After) then Over(jobs, b.ids[k])
    else
      b.ids[k] in jobs ==>
        && jobs[b.ids[k]].instance == b.instance
        && jobs[b.ids[k]].state == (if k == b.pos && b.stage == Inside then Running else Queued)
  }

  ghost predicate AllInPlace(jobs: Jobs, b: Batch) {
    forall k :: 0 <= k < |b.ids| ==> InPlace(jobs, b, k)
  }

  /** A batch that still has active jobs. */
  ghost predicate Open(jobs: Jobs, b: Batch) {
    exists k :: 0 <= k < |b.ids| && IsActive(jobs, b.ids[k])
  }

  predicate IsActive(jobs: Jobs, id: string) {
    id in jobs && Active(jobs[id].state)
  }

  ghost predicate OwnersInv(s: System) {
    && (forall b, k :: 0 <= b < |s.batches| && 0 <= k < |s.batches[b].ids| ==>
          s.batches[b].ids[k] in s.owner && s.owner[s.batches[b].ids[k]] == (b, k))
    && (forall id :: id in s.jobs && Active(s.jobs[id].state) ==> OwnedJob(s, id))
  }

  predicate OwnedJob(s: System, id: string) {
    && id in s.owner
    && 0 <= s.owner[id].0 < |s.batches|
    && 0 <= s.owner[id].1 < |s.batches[s.owner[id].0].ids|
    && s.batches[s.owner[id].0].ids[s.owner[id].1] == id
  }

  ghost predicate Inv(s: System) {
    && OwnersInv(s)
    && (forall b :: 0 <= b < |s.batches| ==> AllInPlace(s.jobs, s.batches[b]))
    && (forall b, c :: 0 <= b < c < |s.batches| && Open(s.jobs, s.batches[b]) && Open(s.jobs, s.batches[c]) ==>
          s.batches[b].instance != s.batches[c].instance)
  }

  lemma InitialInv(s: System)
    requires Initial(s)
    ensures Inv(s)
  {
  }

  /** A step of batch `b` that rewrites at most its current job. */
  lemma WorkerStep(s: System, b: nat, jobs: Jobs, batch: Batch)
    requires Inv(s) && b < |s.batches|
    requires batch.ids == s.batches[b].ids && batch.instance == s.batches[b].instance
    requires jobs.Keys == s.jobs.Keys && AllInPlace(jobs, batch)
    requires forall id :: id in jobs && id !in batch.ids ==> jobs[id] == s.jobs[id]
    requires forall id :: id in jobs && Active(jobs[id].state) ==> Active(s.jobs[id].state)
    ensures Inv(With(s, b, jobs, batch))
  {
    var s' := With(s, b, jobs, batch);
    forall c | 0 <= c < |s'.batches| && Open(jobs, s'.batches[c])
      ensures Open(s.jobs, s.batches[c])
    {
      var k :| 0 <= k < |s'.batches[c].ids| && IsActive(jobs, s'.batches[c].ids[k]);
      assert IsActive(s.jobs, s.batches[c].ids[k]);
    }
    forall c | 0 <= c < |s'.batches|
      ensures AllInPlace(jobs, s'.batches[c])
    {
      if c != b {
        OtherBatch(s, b, c);
        forall k | 0 <= k < |s.batches[c].ids|
          ensures InPlace(jobs, s.batches[c], k)
        {
          assert InPlace(s.jobs, s.batches[c], k);
          assert s.batches[c].ids[k] !in batch.ids;
        }
      }
    }
    forall id | id in jobs && Active(jobs[id].state)
      ensures OwnedJob(s', id)
    {
      assert OwnedJob(s, id);
    }
  }

  lemma OtherBatch(s: System, b: nat, c: nat)
    requires OwnersInv(s) && b < |s.batches| && c < |s.batches| && b != c
    ensures forall k :: 0 <= k < |s.batches[c].ids| ==> s.batches[c].ids[k] !in s.batches[b].ids
  {
    forall k | 0 <= k < |s.batches[c].ids|
      ensures s.batches[c].ids[k] !in s.batches[b].ids
    {
      assert s.owner[s.batches[c].ids[k]] == (c, k);
    }
  }

  /** Within a batch no id occurs twice. */
  lemma DistinctIds(s: System, b: nat, j: nat, k: nat)
    requires OwnersInv(s) && b < |s.batches| && j < |s.batches[b].ids| && k < |s.batches[b].ids| && j != k
    ensures s.batches[b].ids[j] != s.batches[b].ids[k]
  {
    assert s.owner[s.batches[b].ids[j]] == (b, j) && s.owner[s.batches[b].ids[k]] == (b, k);
  }

  /** Rewriting the current job keeps the rest of its batch in place. */
  lemma CurrentRewritten(s: System, b: nat, jobs: Jobs, batch: Batch)
    requires Inv(s) && b < |s.batches| && s.batches[b].pos < |s.batches[b].ids|
    requires batch.ids == s.batches[b].ids && batch.instance == s.batches[b].instance && batch.pos == s.batches[b].pos
    requires jobs.Keys == s.jobs.Keys
    requires forall id :: id in jobs && id != Current(s, b) ==> jobs[id] == s.jobs[id]
    requires InPlace(jobs, batch, batch.pos)
    ensures AllInPlace(jobs, batch)
  {
    forall k | 0 <= k < |batch.ids|
      ensures InPlace(jobs, batch, k)
    {
      assert InPlace(s.jobs, s.batches[b], k);
      if k != batch.pos {
        DistinctIds(s, b, k, batch.pos);
      }
    }
  }

  /** A step that rewrites the current job, and never makes a job active again. */
  lemma JobRewritten(s: System, b: nat, jobs: Jobs, batch: Batch)
    requires Inv(s) && b < |s.batches| && s.batches[b].pos < |s.batches[b].ids|
    requires batch == s.batches[b].(stage := batch.stage) && (s.batches[b].stage == After ==> batch.stage == After)
    requires jobs.Keys == s.jobs.Keys
    requires forall id :: id in jobs && id != Current(s, b) ==> jobs[id] == s.jobs[id]
    requires Current(s, b) in jobs && Active(jobs[Current(s, b)].state) ==> Active(s.jobs[Current(s, b)].state)
    requires InPlace(jobs, batch, batch.pos)
    ensures Inv(With(s, b, jobs, batch))
  {
    CurrentRewritten(s, b, jobs, batch);
    WorkerStep(s, b, jobs, batch);
  }

  /** The worker goes on from a job that is over or gone. */
  lemma MovedOn(s: System, b: nat)
    requires Inv(s) && b < |s.batches| && s.batches[b].pos < |s.batches[b].ids|
    requires s.batches[b].stage == After || (s.batches[b].stage == Idle && Current(s, b) !in s.jobs)
    ensures Inv(With(s, b, s.jobs, s.batches[b].(pos := s.batches[b].pos + 1, stage := Idle)))
  {
    var batch := s.batches[b];
    var next := batch.(pos := batch.pos + 1, stage := Idle);
    assert AllInPlace(s.jobs, batch);
    forall k | 0 <= k < |batch.ids|
      ensures InPlace(s.jobs, next, k)
    {
      assert InPlace(s.jobs, batch, k);
    }
    WorkerStep(s, b, s.jobs, next);
  }

  lemma DeathKeepsInv(s: System, b: nat)
    requires Inv(s)
    ensures Inv(DoDie(s, b))
  {
    if b < |s.batches| {
      var batch, dead := s.batches[b], s.batches[b].(alive := false);
      assert AllInPlace(s.jobs, batch);
      forall k | 0 <= k < |batch.ids|
        ensures InPlace(s.jobs, dead, k)
      {
        assert InPlace(s.jobs, batch, k);
      }
      WorkerStep(s, b, s.jobs, dead);
    }
  }

  /** The record under the current id still is that of the batch's job, in the batch's instance. */
  lemma CurrentInPlace(s: System, b: nat)
    requires Inv(s) && b < |s.batches| && s.batches[b].pos < |s.batches[b].ids|
    ensures InPlace(s.jobs, s.batches[b], s.batches[b].pos)
  {
    assert AllInPlace(s.jobs, s.batches[b]);
  }

  lemma StartKeepsInv(s: System, b: nat, clock: int)
    requires Inv(s) && Working(s, b, Idle) && Current(s, b) in s.jobs
    ensures Inv(With(s, b, SetRunning(s.jobs, Current(s, b), clock), s.batches[b].(stage := Inside)))
  {
    var id := Current(s, b);
    var running, inside := SetRunning(s.jobs, id, clock), s.batches[b].(stage := Inside);
    CurrentInPlace(s, b);
    assert s.jobs[id].state == Queued && running[id].state == Running && running[id].instance == s.batches[b].instance;
    assert InPlace(running, inside, inside.pos);
    JobRewritten(s, b, running, inside);
  }

  lemma BeginKeepsInv(s: System, b: nat, clock: int)
    requires Inv(s)
    ensures Inv(DoBegin(s, b, clock))
  {
    if Working(s, b, Idle) {
      if Current(s, b) in s.jobs {
        StartKeepsInv(s, b, clock);
      } else {
        MovedOn(s, b);
        assert s.batches[b].(pos := s.batches[b].pos + 1) == s.batches[b].(pos := s.batches[b].pos + 1, stage := Idle);
      }
    }
  }

  /** A result is stored: of the job inside, or over the one just stored. */
  lemma ResultKeepsInv(s: System, b: nat, state: JobState, started: int, clock: int)
    requires Inv(s) && (Working(s, b, Inside) || Working(s, b, After)) && !Active(state)
    ensures var stored := SetFinished(s.jobs, Current(s, b), state, started, clock, "");
            Inv(With(s, b, stored, s.batches[b].(stage := After)))
  {
    CurrentInPlace(s, b);
    JobRewritten(s, b, SetFinished(s.jobs, Current(s, b), state, started, clock, ""), s.batches[b].(stage := After));
  }

  lemma FinishKeepsInv(s: System, b: nat, state: JobState, started: int, clock: int)
    requires Inv(s)
    ensures Inv(DoFinish(s, b, state, started, clock))
  {
    if Working(s, b, Inside) && !Active(state) {
      ResultKeepsInv(s, b, state, started, clock);
    }
  }

  lemma FailureKeepsInv(s: System, b: nat, started: int, clock: int)
    requires Inv(s)
    ensures Inv(DoFailAfter(s, b, started, clock))
  {
    if Working(s, b, After) {
      ResultKeepsInv(s, b, Failed, started, clock);
      assert s.batches[b].(stage := After) == s.batches[b];
    }
  }

  lemma NextKeepsInv(s: System, b: nat)
    requires Inv(s)
    ensures Inv(DoNext(s, b))
  {
    if Working(s, b, After) {
      MovedOn(s, b);
    }
  }

  lemma RestartKeepsInv(s: System, clock: int)
    requires Inv(s)
    ensures Inv(Do(s, Restart(clock)))
  {
    var s' := Do(s, Restart(clock));
    RecoveryEndsActivity(s.jobs, clock);
    forall b | 0 <= b < |s'.batches|
      ensures AllInPlace(s'.jobs, s'.batches[b]) && !Open(s'.jobs, s'.batches[b])
    {
    }
  }

  lemma DeleteKeepsInv(s: System, instances: set<string>)
    requires Inv(s)
    ensures Inv(Do(s, Delete(instances)))
  {
    var s' := Do(s, Delete(instances));
    forall b | 0 <= b < |s.batches|
      ensures AllInPlace(s'.jobs, s.batches[b])
      ensures Open(s'.jobs, s.batches[b]) ==> Open(s.jobs, s.batches[b])
    {
      assert AllInPlace(s.jobs, s.batches[b]);
      forall k | 0 <= k < |s.batches[b].ids|
        ensures InPlace(s'.jobs, s.batches[b], k)
        ensures IsActive(s'.jobs, s.batches[b].ids[k]) ==> IsActive(s.jobs, s.batches[b].ids[k])
      {
        assert InPlace(s.jobs, s.batches[b], k);
      }
    }
    forall id | id in s'.jobs && Active(s'.jobs[id].state)
      ensures OwnedJob(s', id)
    {
      assert OwnedJob(s, id);
    }
  }

  lemma {:induction false} OwnersFacts(owner: map<string, (int, int)>, b: nat, ids: seq<string>)
    requires forall i, j :: 0 <= i < j < |ids| ==> ids[i] != ids[j]
    ensures forall k :: 0 <= k < |ids| ==> ids[k] in Owners(owner, b, ids) && Owners(owner, b, ids)[ids[k]] == (b, k)
    ensures forall id :: id in owner && id !in ids ==>
              id in Owners(owner, b, ids) && Owners(owner, b, ids)[id] == owner[id]
  {
    if ids != [] {
      OwnersFacts(owner, b, ids[..|ids| - 1]);
    }
  }

  /** An open batch occupies its instance. */
  lemma OpenOccupies(s: System, b: nat)
    requires Inv(s) && b < |s.batches| && Open(s.jobs, s.batches[b])
    ensures Occupied(s.jobs, s.batches[b].instance)
  {
    var batch := s.batches[b];
    var k :| 0 <= k < |batch.ids| && IsActive(s.jobs, batch.ids[k]);
    assert AllInPlace(s.jobs, batch);
    assert InPlace(s.jobs, batch, k);
  }

  /** What the inserted jobs look like, by membership in the id list. */
  lemma InsertedByIds(jobs: Jobs, batch: seq<Job>)
    requires forall i, j :: 0 <= i < j < |batch| ==> batch[i].id != batch[j].id
    requires forall i :: 0 <= i < |batch| ==> batch[i].id !in jobs
    ensures forall i :: 0 <= i < |batch| ==>
              batch[i].id in Inserted(jobs, batch) && Inserted(jobs, batch)[batch[i].id] == batch[i]
    ensures forall id :: id in Inserted(jobs, batch) && id !in Ids(batch) ==>
              id in jobs && Inserted(jobs, batch)[id] == jobs[id]
    ensures forall id :: id in jobs ==> id in Inserted(jobs, batch) && Inserted(jobs, batch)[id] == jobs[id]
  {
    InsertedFacts(jobs, batch);
    forall id | id in Inserted(jobs, batch) && id !in Ids(batch)
      ensures id in jobs && Inserted(jobs, batch)[id] == jobs[id]
    {
      assert forall i :: 0 <= i < |batch| ==> Ids(batch)[i] == batch[i].id;
    }
  }

  lemma SameInstance(jobs: Jobs, batch: seq<Job>, maxJobs: nat)
    requires batch != [] && StartDoc(jobs, batch, maxJobs).Ok?
    ensures forall i :: 0 <= i < |batch| ==> batch[i].instance == batch[0].instance
    ensures !Occupied(jobs, batch[0].instance)
  {
    assert forall i :: 0 <= i < |batch| ==> batch[i] in batch;
  }

  lemma AdmittedJobs(s: System, batch: seq<Job>, maxJobs: nat)
    requires FreshBatch(s, batch) && StartDoc(s.jobs, batch, maxJobs).Ok?
    ensures var kept := StartDoc(s.jobs, batch, maxJobs).value;
            && (forall i :: 0 <= i < |batch| ==> batch[i].id in kept && kept[batch[i].id] == batch[i])
            && (forall id :: id in kept && id !in Ids(batch) ==> id in s.jobs && kept[id] == s.jobs[id])
            && (forall id :: id in s.jobs && Active(s.jobs[id].state) ==> id in kept && kept[id] == s.jobs[id])
  {
    InsertedByIds(s.jobs, batch);
    AdmissionBounds(s.jobs, batch, maxJobs);
  }

  lemma AdmitKeepsInv(s: System, batch: seq<Job>, maxJobs: nat)
    requires Inv(s)
    ensures Inv(DoAdmit(s, batch, maxJobs))
  {
    if FreshBatch(s, batch) && StartDoc(s.jobs, batch, maxJobs).Ok? {
      var ids := Ids(batch);
      AdmittedJobs(s, batch, maxJobs);
      SameInstance(s.jobs, batch, maxJobs);
      assert forall i :: 0 <= i < |ids| ==> ids[i] == batch[i].id;
      OwnersFacts(s.owner, |s.batches|, ids);
      BatchAppended(s, DoAdmit(s, batch, maxJobs), Batch(ids, batch[0].instance, 0, Idle, true));
    }
  }

  /** A new batch of fresh queued jobs on an instance nothing is active on. */
  lemma BatchAppended(s: System, s': System, batch: Batch)
    requires Inv(s) && s'.batches == s.batches + [batch] && !Occupied(s.jobs, batch.instance)
    requires AllInPlace(s'.jobs, batch)
    requires forall k :: 0 <= k < |batch.ids| ==>
               batch.ids[k] !in s.owner && batch.ids[k] in s'.owner && s'.owner[batch.ids[k]] == (|s.batches|, k)
    requires forall id :: id in s.owner && id !in batch.ids ==> id in s'.owner && s'.owner[id] == s.owner[id]
    requires forall id :: id in s'.jobs && id !in batch.ids ==> id in s.jobs && s'.jobs[id] == s.jobs[id]
    requires forall id :: id in s.jobs && Active(s.jobs[id].state) ==> id in s'.jobs && s'.jobs[id] == s.jobs[id]
    ensures Inv(s')
  {
    OldBatchesKept(s, s', batch.ids);
    NewOwners(s, s', batch.ids);
    forall b | 0 <= b < |s.batches| && Open(s'.jobs, s.batches[b])
      ensures Open(s.jobs, s.batches[b]) && s.batches[b].instance != batch.instance
    {
      var k :| 0 <= k < |s.batches[b].ids| && IsActive(s'.jobs, s.batches[b].ids[k]);
      assert s.batches[b].ids[k] in s.owner;
      assert IsActive(s.jobs, s.batches[b].ids[k]);
      OpenOccupies(s, b);
    }
  }

  lemma OldBatchesKept(s: System, s': System, ids: seq<string>)
    requires Inv(s) && |s.batches| < |s'.batches| && forall b :: 0 <= b < |s.batches| ==> s'.batches[b] == s.batches[b]
    requires forall i :: 0 <= i < |ids| ==> ids[i] !in s.owner
    requires forall id :: id in s'.jobs && id !in ids ==> id in s.jobs && s'.jobs[id] == s.jobs[id]
    requires forall id :: id in s.jobs && Active(s.jobs[id].state) ==> id in s'.jobs && s'.jobs[id] == s.jobs[id]
    ensures forall b :: 0 <= b < |s.batches| ==> AllInPlace(s'.jobs, s'.batches[b])
  {
    forall b, k | 0 <= b < |s.batches| && 0 <= k < |s.batches[b].ids|
      ensures InPlace(s'.jobs, s'.batches[b], k)
    {
      assert AllInPlace(s.jobs, s.batches[b]);
      assert InPlace(s.jobs, s.batches[b], k);
      assert s.batches[b].ids[k] in s.owner;
    }
  }

  lemma NewOwners(s: System, s': System, ids: seq<string>)
    requires Inv(s) && |s'.batches| == |s.batches| + 1 && s'.batches[|s.batches|].ids == ids
    requires forall b :: 0 <= b < |s.batches| ==> s'.batches[b] == s.batches[b]
    requires forall k :: 0 <= k < |ids| ==>
               ids[k] !in s.owner && ids[k] in s'.owner && s'.owner[ids[k]] == (|s.batches|, k)
    requires forall id :: id in s.owner && id !in ids ==> id in s'.owner && s'.owner[id] == s.owner[id]
    requires forall id :: id in s'.jobs && id !in ids ==> id in s.jobs && s'.jobs[id] == s.jobs[id]
    ensures OwnersInv(s')
  {
    forall b, k | 0 <= b < |s'.batches| && 0 <= k < |s'.batches[b].ids|
      ensures s'.batches[b].ids[k] in s'.owner && s'.owner[s'.batches[b].ids[k]] == (b, k)
    {
      if b < |s.batches| {
        assert s.batches[b].ids[k] in s.owner && s.owner[s.batches[b].ids[k]] == (b, k);
      }
    }
    forall id | id in s'.jobs && Active(s'.jobs[id].state)
      ensures OwnedJob(s', id)
    {
      if id in ids {
        var k :| 0 <= k < |ids| && ids[k] == id;
      } else {
        assert OwnedJob(s, id);
      }
    }
  }

  lemma StepKeepsInv(s: System, a: Action)
    requires Inv(s)
    ensures Inv(Do(s, a))
  {
    match a
    case Admit(batch, maxJobs) => AdmitKeepsInv(s, batch, maxJobs);
    case Begin(b, clock) => BeginKeepsInv(s, b, clock);
    case Finish(b, state, started, clock) => FinishKeepsInv(s, b, state, started, clock);
    case FailAfter(b, started, clock) => FailureKeepsInv(s, b, started, clock);
    case Next(b) => NextKeepsInv(s, b);
    case Die(b) => DeathKeepsInv(s, b);
    case Delete(instances) => DeleteKeepsInv(s, instances);
    case Restart(clock) => RestartKeepsInv(s, clock);
  }

  lemma {:induction false} Reachable(s: System, actions: seq<Action>)
    requires Inv(s)
    ensures Inv(DoAll(s, actions))
  {
    if actions != [] {
      Reachable(s, actions[..|actions| - 1]);
      StepKeepsInv(DoAll(s, actions[..|actions| - 1]), actions[|actions| - 1]);
    }
  }

  // ---- what holds over every interleaving ---------------------------------------------

  /** The active jobs of one instance come from one batch, at most one of them is running,
      and every job before it in its batch is over. */
  lemma OneBatchAtATime(start: System, actions: seq<Action>, x: string, y: string)
    requires Initial(start)
    requires var jobs := DoAll(start, actions).jobs;
             IsActive(jobs, x) && IsActive(jobs, y) && jobs[x].instance == jobs[y].instance
    ensures var s := DoAll(start, actions);
            && OwnedJob(s, x) && OwnedJob(s, y) && s.owner[x].0 == s.owner[y].0
            && (s.jobs[x].state == Running && s.jobs[y].state == Running ==> x == y)
            && (s.jobs[x].state == Running ==>
                  forall k :: 0 <= k < s.owner[x].1 ==> Over(s.jobs, s.batches[s.owner[x].0].ids[k]))
  {
    InitialInv(start);
    Reachable(start, actions);
    var s := DoAll(start, actions);
    ActivePlace(s, x);
    ActivePlace(s, y);
  }

  lemma ActivePlace(s: System, x: string)
    requires Inv(s) && IsActive(s.jobs, x)
    ensures OwnedJob(s, x)
    ensures var (b, k) := s.owner[x];
            && Open(s.jobs, s.batches[b]) && s.jobs[x].instance == s.batches[b].instance
            && (s.jobs[x].state == Running ==> k == s.batches[b].pos)
            && (s.jobs[x].state == Running ==> forall j :: 0 <= j < k ==> Over(s.jobs, s.batches[b].ids[j]))
  {
    assert OwnedJob(s, x);
    var (b, k) := s.owner[x];
    assert AllInPlace(s.jobs, s.batches[b]);
    assert InPlace(s.jobs, s.batches[b], k);
    forall j | 0 <= j < k && k == s.batches[b].pos
      ensures Over(s.jobs, s.batches[b].ids[j])
    {
      assert InPlace(s.jobs, s.batches[b], j);
    }
  }

  /** An admitted id whose job is terminal or has been pruned. */
  predicate Finished(s: System, id: string) {
    (id in s.owner || id in s.jobs) && !IsActive(s.jobs, id)
  }

  lemma StepKeepsFinished(s: System, a: Action, id: string)
    requires Inv(s) && Finished(s, id)
    ensures !IsActive(Do(s, a).jobs, id)
  {
    match a
    case Admit(batch, maxJobs) =>
      if FreshBatch(s, batch) && StartDoc(s.jobs, batch, maxJobs).Ok? {
        AdmittedJobs(s, batch, maxJobs);
        assert forall i :: 0 <= i < |batch| ==> Ids(batch)[i] == batch[i].id;
      }
    case Begin(b, clock) =>
      if Working(s, b, Idle) {
        assert AllInPlace(s.jobs, s.batches[b]);
        assert InPlace(s.jobs, s.batches[b], s.batches[b].pos);
      }
    case _ =>
  }

  /** A job that is over never becomes active again. */
  lemma {:induction false} TerminalStaysTerminal(s: System, actions: seq<Action>, id: string)
    requires Inv(s) && id in s.owner && !IsActive(s.jobs, id)
    ensures id in DoAll(s, actions).owner && !IsActive(DoAll(s, actions).jobs, id)
  {
    if actions != [] {
      var init, last := actions[..|actions| - 1], actions[|actions| - 1];
      TerminalStaysTerminal(s, init, id);
      Reachable(s, init);
      var before := DoAll(s, init);
      StepKeepsFinished(before, last, id);
      OwnersOnlyGrow(before, last, id);
    }
  }

  lemma {:induction false} OwnersKept(owner: map<string, (int, int)>, b: nat, ids: seq<string>, id: string)
    requires id in owner
    ensures id in Owners(owner, b, ids)
  {
    if ids != [] {
      OwnersKept(owner, b, ids[..|ids| - 1], id);
    }
  }

  lemma OwnersOnlyGrow(s: System, a: Action, id: string)
    requires id in s.owner
    ensures id in Do(s, a).owner
  {
    if a.Admit? {
      OwnersKept(s.owner, |s.batches|, Ids(a.batch), id);
    }
  }
}
