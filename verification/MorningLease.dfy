/** The morning run's token-fenced lease and its run history.

    Every function here is one committed document update.  Runners are
    interleaved arbitrarily, may crash anywhere, and read a clock that never goes
    back. */
module MorningLease {
  import opened Common
  import opened Retention
  import opened Sorting
  import opened MorningAggregate

  predicate Terminal(status: RunStatus) {
    status == Successful || status == Partial || status == Failed
  }

  datatype Trigger = Scheduled | Manual

  datatype PhaseStatus = Pending | Disabled | Completed

  /** Retention and lease length are configured, with floors of 10 runs and 300 seconds. */
  datatype SettingsData = SettingsData(maxRuns: nat, lease: nat, fold: Fold)
  type Settings = s: SettingsData | s.maxRuns >= 10 && s.lease >= 300
    witness SettingsData(90, 14400, x => x)

  datatype Config = Config(runAnsibleChecks: bool, runDeviceNativeChecks: bool)

  datatype Request = Request(
    id: string, token: string, trigger: Trigger, requestedBy: string, scheduledFor: Option<string>)

  datatype Run = Run(
    id: string, trigger: Trigger, requestedBy: string, scheduledFor: Option<string>,
    startedAt: nat, completedAt: Option<nat>, status: RunStatus, config: Config,
    phaseStatus: map<string, PhaseStatus>, results: Aggregated, fatalError: Option<string>,
    delivery: seq<string>)

  datatype Lock = Lock(runId: string, token: string, expiresAt: nat)

  datatype Doc = Doc(lock: Option<Lock>, runs: map<string, Run>, config: Config)

  datatype Conflict = AlreadyActive | AlreadyRan

  // ---- the document updates ------------------------------------------------------

  function NewRun(req: Request, config: Config, clock: nat): Run {
    Run(req.id, req.trigger, req.requestedBy, req.scheduledFor, clock, None, Running, config,
        map["ansible" := if config.runAnsibleChecks then Pending else Disabled,
            "deviceNative" := if config.runDeviceNativeChecks then Pending else Disabled],
        Totals([]), None, [])
  }

  /** The run an expired lock still names is failed if it never got a result. */
  function FailAbandoned(doc: Doc, clock: nat): map<string, Run> {
    if doc.lock.None? || doc.lock.value.runId == "" || doc.lock.value.runId !in doc.runs then doc.runs
    else
      var run := doc.runs[doc.lock.value.runId];
      if run.status == Running then
        doc.runs[doc.lock.value.runId := run.(
          status := Failed, completedAt := Some(clock),
          fatalError := Some("The previous process stopped before the run completed"))]
      else doc.runs
  }

  predicate Occupied(runs: map<string, Run>, occurrence: Option<string>) {
    && occurrence.Some? && occurrence.value != ""
    && exists id :: id in runs && runs[id].trigger == Scheduled && runs[id].scheduledFor == occurrence
  }

  /** Terminal runs with the time they are ordered by. */
  function TerminalAges(runs: map<string, Run>): map<string, real> {
    map id | id in runs && Terminal(runs[id].status) ::
      (if runs[id].completedAt.Some? then runs[id].completedAt.value else runs[id].startedAt) as real
  }

  function Prune(runs: map<string, Run>, maxRuns: nat): map<string, Run> {
    Bounded(runs, TerminalAges(runs), maxRuns)
  }

  /** `_acquire`: `now` was read before the update, `clock` is the time inside it. */
  function AcquireDoc(doc: Doc, st: Settings, now: nat, clock: nat, req: Request): Result<Doc, Conflict> {
    if doc.lock.Some? && doc.lock.value.expiresAt > now then Err(AlreadyActive)
    else
      var runs := FailAbandoned(doc, clock);
      if Occupied(runs, req.scheduledFor) then Err(AlreadyRan)
      else Ok(Doc(Some(Lock(req.id, req.token, now + st.lease)),
                  Prune(runs[req.id := NewRun(req, doc.config, clock)], st.maxRuns), doc.config))
  }

  predicate Owns(doc: Doc, runId: string, token: string) {
    doc.lock.Some? && doc.lock.value.runId == runId && doc.lock.value.token == token
  }

  function RenewDoc(doc: Doc, st: Settings, runId: string, token: string, clock: nat): Doc {
    if Owns(doc, runId, token) then doc.(lock := Some(Lock(runId, token, clock + st.lease))) else doc
  }

  function ReleaseDoc(doc: Doc, runId: string, token: string): Doc {
    if Owns(doc, runId, token) then doc.(lock := None) else doc
  }

  /** One phase is merged into a run: its whole aggregate, status included, is replaced. */
  ghost function PersistRun(run: Run, fold: Fold, phase: string, sources: seq<Source>): Run {
    var aggregated := Aggregate(Flatten(run.results.devices) + sources, fold);
    run.(results := aggregated, status := aggregated.status, phaseStatus := run.phaseStatus[phase := Completed])
  }

  ghost function CompleteRun(run: Run, fold: Fold, clock: nat, delivery: seq<string>): Run {
    run.(completedAt := Some(clock), status := Aggregate(Flatten(run.results.devices), fold).status,
         delivery := delivery)
  }

  function FailRun(run: Run, clock: nat, message: string): Run {
    run.(completedAt := Some(clock), status := Failed, fatalError := Some(message))
  }

  ghost function PersistDoc(doc: Doc, st: Settings, runId: string, phase: string, sources: seq<Source>): Doc {
    if runId !in doc.runs then doc
    else doc.(runs := doc.runs[runId := PersistRun(doc.runs[runId], st.fold, phase, sources)])
  }

  ghost function CompleteDoc(doc: Doc, st: Settings, runId: string, clock: nat, delivery: seq<string>): Doc {
    if runId !in doc.runs then doc
    else doc.(runs := doc.runs[runId := CompleteRun(doc.runs[runId], st.fold, clock, delivery)])
  }

  function FailDoc(doc: Doc, runId: string, clock: nat, message: string): Doc {
    if runId !in doc.runs then doc
    else doc.(runs := doc.runs[runId := FailRun(doc.runs[runId], clock, message)])
  }

  /** The stored document, updated in place by each mutator. */
  class MorningDocument {
    var lock: Option<Lock>
    var runs: map<string, Run>
    const config: Config

    function State(): Doc
      reads this
    {
      Doc(lock, runs, config)
    }

    constructor (config: Config)
      ensures State() == Doc(None, map[], config)
    {
      this.config := config;
      lock, runs := None, map[];
    }

    method FailAbandonedRun(clock: nat) returns (kept: map<string, Run>)
      ensures kept == FailAbandoned(State(), clock)
    {
      kept := runs;
      if lock.Some? && lock.value.runId != "" && lock.value.runId in runs {
        var abandoned := runs[lock.value.runId];
        if abandoned.status == Running {
          kept := kept[lock.value.runId := abandoned.(
            status := Failed, completedAt := Some(clock),
            fatalError := Some("The previous process stopped before the run completed"))];
        }
      }
    }

    method Acquire(st: Settings, now: nat, clock: nat, req: Request) returns (r: Result<Run, Conflict>)
      modifies this
      ensures r.Err? ==> AcquireDoc(old(State()), st, now, clock, req) == Err(r.error) && State() == old(State())
      ensures r.Ok? ==>
                AcquireDoc(old(State()), st, now, clock, req) == Ok(State()) && r.value == NewRun(req, config, clock)
    {
      if lock.Some? && lock.value.expiresAt > now {
        return Err(AlreadyActive);
      }
      var kept := FailAbandonedRun(clock);
      if Occupied(kept, req.scheduledFor) {
        return Err(AlreadyRan);
      }
      var run := NewRun(req, config, clock);
      Enter(st, kept, run, Lock(req.id, req.token, now + st.lease));
      r := Ok(run);
    }

    /** The new run and its lease are stored, and the oldest runs leave. */
    method Enter(st: Settings, kept: map<string, Run>, run: Run, lease: Lock)
      modifies this
      ensures State() == Doc(Some(lease), Prune(kept[run.id := run], st.maxRuns), config)
    {
      var all := kept[run.id := run];
      runs := Bound(all, TerminalAges(all), st.maxRuns);
      lock := Some(lease);
    }

    method Renew(st: Settings, runId: string, token: string, clock: nat)
      modifies this
      ensures State() == RenewDoc(old(State()), st, runId, token, clock)
    {
      if lock.Some? && lock.value.runId == runId && lock.value.token == token {
        lock := Some(lock.value.(expiresAt := clock + st.lease));
      }
    }

    method Release(runId: string, token: string)
      modifies this
      ensures State() == ReleaseDoc(old(State()), runId, token)
    {
      if lock.Some? && lock.value.runId == runId && lock.value.token == token {
        lock := None;
      }
    }

    method PersistPhase(st: Settings, runId: string, phase: string, sources: seq<Source>)
      modifies this
      ensures State() == PersistDoc(old(State()), st, runId, phase, sources)
    {
      if runId !in runs {
        return;
      }
      var run := runs[runId];
      var existing := StoredSources(run.results.devices);
      var aggregated := AggregateSources(existing + sources, st.fold);
      runs := runs[runId := run.(results := aggregated, status := aggregated.status,
                                 phaseStatus := run.phaseStatus[phase := Completed])];
    }

    method Complete(st: Settings, runId: string, clock: nat, delivery: seq<string>)
      modifies this
      ensures State() == CompleteDoc(old(State()), st, runId, clock, delivery)
    {
      if runId in runs {
        var stored := StoredSources(runs[runId].results.devices);
        var again := AggregateSources(stored, st.fold);
        runs := runs[runId := runs[runId].(completedAt := Some(clock), status := again.status, delivery := delivery)];
      }
    }

    method Fail(runId: string, clock: nat, message: string)
      modifies this
      ensures State() == FailDoc(old(State()), runId, clock, message)
    {
      if runId in runs {
        runs := runs[runId := runs[runId].(completedAt := Some(clock), status := Failed, fatalError := Some(message))];
      }
    }
  }

  // ---- phases and completion agree ---------------------------------------------------

  ghost function PersistAll(run: Run, fold: Fold, phases: seq<(string, seq<Source>)>): Run {
    if phases == [] then run
    else PersistRun(PersistAll(run, fold, phases[..|phases| - 1]), fold,
                    phases[|phases| - 1].0, phases[|phases| - 1].1)
  }

  function AllSources(phases: seq<(string, seq<Source>)>): seq<Source> {
    if phases == [] then [] else AllSources(phases[..|phases| - 1]) + phases[|phases| - 1].1
  }

  lemma NothingAggregated(fold: Fold)
    ensures Aggregate([], fold) == Totals([])
  {
    var none: Merging := map[];
    NameOrderIsStrictTotal(none, fold);
    SortedSize(NameOrder(none, fold), none.Keys, DeviceOrder(none, fold));
  }

  /** Whatever phases a run persists, it holds the aggregate of all their sources, and the
      status recomputed on completion is the status of that aggregate. */
  lemma {:induction false} PhasesAccumulate(req: Request, config: Config, fold: Fold, clock: nat,
                                            phases: seq<(string, seq<Source>)>, end: nat, delivery: seq<string>)
    requires NoRebootKind(AllSources(phases))
    ensures var run := PersistAll(NewRun(req, config, clock), fold, phases);
            && run.results == Aggregate(AllSources(phases), fold)
            && (phases != [] ==> run.status == run.results.status)
            && CompleteRun(run, fold, end, delivery).status == Aggregate(AllSources(phases), fold).status
  {
    var run := PersistAll(NewRun(req, config, clock), fold, phases);
    NothingAggregated(fold);
    if phases != [] {
      var init, last := phases[..|phases| - 1], phases[|phases| - 1];
      assert forall s :: s in AllSources(init) ==> s in AllSources(phases);
      PhasesAccumulate(req, config, fold, clock, init, end, delivery);
      PhasesEqualOnce(AllSources(init), last.1, fold);
    }
    PhasesEqualOnce(AllSources(phases), [], fold);
    assert Flatten(run.results.devices) + [] == Flatten(run.results.devices);
    assert AllSources(phases) + [] == AllSources(phases);
  }
}
