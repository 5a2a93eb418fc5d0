/** What becomes of a morning run whose process dies, or whose lease is taken over.

    Persisting a phase and completing a run are not fenced by the lease's token: they write
    to the run whoever holds the lease by then. */
module MorningVerdicts {
  import opened Common
  import opened MorningAggregate
  import opened MorningEvidence
  import opened MorningLease
  import opened MorningRunners

  // ---- phases and the running status -------------------------------------------------------

  predicate PhaseDone(run: Run) {
    exists phase :: phase in run.phaseStatus && run.phaseStatus[phase] == Completed
  }

  /** An uncompleted run is running as long as none of its phases is done, and what it stores
      can be read back as it is. */
  ghost predicate RecordOk(run: Run) {
    && (run.completedAt.None? ==> (run.status == Running <==> !PhaseDone(run)))
    && NoRebootKind(Flatten(run.results.devices))
  }

  ghost predicate RecordsOk(runs: map<string, Run>) {
    forall id :: id in runs ==> RecordOk(runs[id])
  }

  lemma NewRunOk(req: Request, config: Config, clock: nat)
    ensures RecordOk(NewRun(req, config, clock))
  {
  }

  lemma AggregatesReadBack(xs: seq<Source>, fold: Fold)
    ensures NoRebootKind(Flatten(Aggregate(xs, fold).devices))
  {
    var stored := Flatten(Aggregate(xs, fold).devices);
    EvidenceKept(xs, fold);
    OthersHaveOtherKinds(xs);
    forall s | s in stored
      ensures s.kind != REBOOT_KIND
    {
      assert s in multiset(stored);
      assert s in OtherKinds(xs);
    }
  }

  lemma {:induction false} OthersHaveOtherKinds(xs: seq<Source>)
    ensures NoRebootKind(OtherKinds(xs))
  {
    if xs != [] {
      OthersHaveOtherKinds(xs[..|xs| - 1]);
    }
  }

  lemma PersistedRunOk(run: Run, fold: Fold, phase: string, sources: seq<Source>)
    ensures RecordOk(PersistRun(run, fold, phase, sources)) && Terminal(PersistRun(run, fold, phase, sources).status)
    ensures PhaseDone(PersistRun(run, fold, phase, sources))
  {
    var xs := Flatten(run.results.devices) + sources;
    AggregatesReadBack(xs, fold);
    StatusesAreTerminal(Devices(Merge(map[], xs), fold));
    var after := PersistRun(run, fold, phase, sources);
    assert phase in after.phaseStatus && after.phaseStatus[phase] == Completed;
  }

  lemma AcquireKeepsRecords(st: Settings, s: System, req: Request, now: nat)
    requires RecordsOk(s.doc.runs)
    ensures RecordsOk(DoAcquire(st, s, req, now).doc.runs)
  {
    NewRunOk(req, s.doc.config, s.clock);
    PruneFacts(FailAbandoned(s.doc, s.clock)[req.id := NewRun(req, s.doc.config, s.clock)], st.maxRuns);
  }

  lemma StepKeepsRecords(st: Settings, s: System, a: Action)
    requires RecordsOk(s.doc.runs)
    ensures RecordsOk(Do(st, s, a).doc.runs)
  {
    match a
    case Acquire(req, now) => AcquireKeepsRecords(st, s, req, now);
    case Persist(token, phase, sources) =>
      if At(s, token, Executing) && s.runners[token].runId in s.doc.runs {
        PersistedRunOk(s.doc.runs[s.runners[token].runId], st.fold, phase, sources);
      }
    case _ =>
  }

  lemma {:induction false} RecordsStayOk(st: Settings, s: System, actions: seq<Action>)
    requires RecordsOk(s.doc.runs)
    ensures RecordsOk(DoAll(st, s, actions).doc.runs)
  {
    if actions != [] {
      RecordsStayOk(st, s, actions[..|actions| - 1]);
      StepKeepsRecords(st, DoAll(st, s, actions[..|actions| - 1]), actions[|actions| - 1]);
    }
  }

  /** Over every interleaving, an uncompleted run still counts as running exactly when none of
      its phases was persisted. */
  lemma RunningUntilAPhase(st: Settings, config: Config, actions: seq<Action>, id: string)
    requires id in DoAll(st, Start(config), actions).doc.runs
    ensures var run := DoAll(st, Start(config), actions).doc.runs[id];
            run.completedAt.None? ==> (run.status == Running <==> !PhaseDone(run))
  {
    RecordsStayOk(st, Start(config), actions);
  }

  // ---- runs whose runner died --------------------------------------------------------------

  lemma TakeoverCloses(st: Settings, s: System, req: Request, now: nat, id: string)
    requires RunsInv(s) && Fresh(s, req) && now <= s.clock && AcquireDoc(s.doc, st, now, s.clock, req).Ok?
    requires id in s.doc.runs && s.doc.runs[id].completedAt.None? && id in DoAcquire(st, s, req, now).doc.runs
    ensures DoAcquire(st, s, req, now).doc.runs[id].completedAt.Some? <==> IsRunning(s.doc.runs, id)
  {
    AcquiredDoc(s.doc, st, now, s.clock, req);
    PruneFacts(FailAbandoned(s.doc, s.clock)[req.id := NewRun(req, s.doc.config, s.clock)], st.maxRuns);
  }

  /** A takeover completes an uncompleted run, if it keeps it, exactly when no phase of it was
      persisted. */
  lemma TakeoverClosesIff(st: Settings, config: Config, actions: seq<Action>, req: Request, now: nat, id: string)
    requires var s := DoAll(st, Start(config), actions);
             && Fresh(s, req) && now <= s.clock && AcquireDoc(s.doc, st, now, s.clock, req).Ok?
             && id in s.doc.runs && s.doc.runs[id].completedAt.None? && id in DoAcquire(st, s, req, now).doc.runs
    ensures var s := DoAll(st, Start(config), actions);
            DoAcquire(st, s, req, now).doc.runs[id].completedAt.Some? <==> !PhaseDone(s.doc.runs[id])
  {
    Reachable(st, Start(config), actions);
    RunningUntilAPhase(st, config, actions, id);
    TakeoverCloses(st, DoAll(st, Start(config), actions), req, now, id);
  }

  /** Nobody works on the run any more. */
  ghost predicate Deserted(s: System, id: string) {
    && id in s.usedIds
    && forall t :: t in s.runners && s.runners[t].runId == id ==> s.runners[t].stage != Executing
  }

  /** The run is as it was, if it is still there. */
  ghost predicate SameRun(s: System, s': System, id: string) {
    id in s'.doc.runs ==> id in s.doc.runs && s'.doc.runs[id] == s.doc.runs[id]
  }

  lemma AcquireKeepsDeserted(st: Settings, s: System, req: Request, now: nat, id: string)
    requires Inv(st, s) && Deserted(s, id) && !IsRunning(s.doc.runs, id)
    ensures Deserted(DoAcquire(st, s, req, now), id) && SameRun(s, DoAcquire(st, s, req, now), id)
  {
    if Fresh(s, req) && now <= s.clock && AcquireDoc(s.doc, st, now, s.clock, req).Ok? {
      PruneFacts(FailAbandoned(s.doc, s.clock)[req.id := NewRun(req, s.doc.config, s.clock)], st.maxRuns);
    }
  }

  lemma StepKeepsDeserted(st: Settings, s: System, a: Action, id: string)
    requires Inv(st, s) && Deserted(s, id) && !IsRunning(s.doc.runs, id)
    ensures Deserted(Do(st, s, a), id) && SameRun(s, Do(st, s, a), id)
  {
    if a.Acquire? {
      AcquireKeepsDeserted(st, s, a.req, a.now, id);
    }
  }

  /** A run that has a status and nobody working on it stays as it is for good. */
  lemma {:induction false} DesertedRunStays(st: Settings, s: System, actions: seq<Action>, id: string)
    requires Inv(st, s) && Deserted(s, id) && id in s.doc.runs && !IsRunning(s.doc.runs, id)
    ensures Deserted(DoAll(st, s, actions), id)
    ensures id in DoAll(st, s, actions).doc.runs ==> DoAll(st, s, actions).doc.runs[id] == s.doc.runs[id]
  {
    if actions != [] {
      var init := actions[..|actions| - 1];
      DesertedRunStays(st, s, init, id);
      Reachable(st, s, init);
      NoRunReturns(st, s, init, id);
      StepKeepsDeserted(st, DoAll(st, s, init), actions[|actions| - 1], id);
    }
  }

  /** Any runner may leave such a run behind, without a completion time if it had none: it
      persists a phase and dies. */
  lemma DeathAfterAPhase(st: Settings, s: System, token: string, phase: string, sources: seq<Source>)
    requires Inv(st, s) && At(s, token, Executing) && s.runners[token].runId in s.doc.runs
    ensures var id := s.runners[token].runId;
            var dead := Do(st, Do(st, s, Persist(token, phase, sources)), Crash(token));
            && Deserted(dead, id) && id in dead.doc.runs
            && !IsRunning(dead.doc.runs, id) && PhaseDone(dead.doc.runs[id])
            && dead.doc.runs[id].completedAt == s.doc.runs[id].completedAt
  {
    PersistGivesResult(st, s, token, phase, sources);
    StepKeepsInv(st, s, Persist(token, phase, sources));
    CrashDeserts(st, Do(st, s, Persist(token, phase, sources)), token);
  }

  lemma PersistGivesResult(st: Settings, s: System, token: string, phase: string, sources: seq<Source>)
    requires At(s, token, Executing) && s.runners[token].runId in s.doc.runs
    ensures var (id, s') := (s.runners[token].runId, Do(st, s, Persist(token, phase, sources)));
            && s'.runners == s.runners && s'.usedIds == s.usedIds && s'.doc.lock == s.doc.lock && s'.clock == s.clock
            && s'.doc.runs == s.doc.runs[id := PersistRun(s.doc.runs[id], st.fold, phase, sources)]
            && !IsRunning(s'.doc.runs, id) && PhaseDone(s'.doc.runs[id])
            && s'.doc.runs[id].completedAt == s.doc.runs[id].completedAt
  {
    PersistedRunOk(s.doc.runs[s.runners[token].runId], st.fold, phase, sources);
  }

  lemma CrashDeserts(st: Settings, s: System, token: string)
    requires RunnersInv(s) && token in s.runners
    ensures Do(st, s, Crash(token)).doc == s.doc && Deserted(Do(st, s, Crash(token)), s.runners[token].runId)
  {
  }

  // ---- runs whose lease was taken over -------------------------------------------------------

  /** A check that went well. */
  function GoodNews(): Source {
    Source("nas", "nas", None, "device", "deviceNative", "up_to_date", None, None, map[])
  }

  lemma GoodNewsCounts(xs: seq<Source>, fold: Fold)
    requires NoRebootKind(xs)
    ensures Aggregate(xs + [GoodNews()], fold).status != Failed
  {
    var all := xs + [GoodNews()];
    StatusFromSources(all, fold);
    CountConcat(xs, [GoodNews()], SUCCEEDING);
    assert CountStatus([GoodNews()], SUCCEEDING) == 1;
  }

  predicate HasStatus(s: System, id: string, status: RunStatus) {
    id in s.doc.runs && s.doc.runs[id].status == status
  }

  lemma LiveRunnerOverturns(st: Settings, s: System, id: string) returns (more: seq<Action>)
    requires id in s.usedIds && id in s.doc.runs && RecordOk(s.doc.runs[id]) && !Deserted(s, id)
    ensures id in DoAll(st, s, more).doc.runs && !HasStatus(DoAll(st, s, more), id, Failed)
  {
    var token :| token in s.runners && s.runners[token].runId == id && s.runners[token].stage == Executing;
    var a := Persist(token, "deviceNative", [GoodNews()]);
    more := [a];
    assert more[..0] == [] && DoAll(st, s, more) == Do(st, s, a);
    Overwritten(st, s, token);
  }

  lemma DesertedFailureLasts(st: Settings, s: System, id: string, more: seq<Action>)
    requires Inv(st, s) && Deserted(s, id) && HasStatus(s, id, Failed)
    ensures id in DoAll(st, s, more).doc.runs ==> HasStatus(DoAll(st, s, more), id, Failed)
  {
    DesertedRunStays(st, s, more, id);
  }

  /** The verdict of a takeover, or any other failure, lasts through everything that may follow
      if and only if the run's own runner is not at work any more: one that is may persist
      another phase, and the run has a better status again. */
  lemma FailureLastsIff(st: Settings, config: Config, actions: seq<Action>, id: string)
    requires HasStatus(DoAll(st, Start(config), actions), id, Failed)
    ensures var s := DoAll(st, Start(config), actions);
            Deserted(s, id) <==>
            forall more: seq<Action> :: id in DoAll(st, s, more).doc.runs ==> HasStatus(DoAll(st, s, more), id, Failed)
  {
    var s := DoAll(st, Start(config), actions);
    Reachable(st, Start(config), actions);
    RecordsStayOk(st, Start(config), actions);
    if Deserted(s, id) {
      forall more: seq<Action>
        ensures id in DoAll(st, s, more).doc.runs ==> HasStatus(DoAll(st, s, more), id, Failed)
      {
        DesertedFailureLasts(st, s, id, more);
      }
    } else {
      var more := LiveRunnerOverturns(st, s, id);
    }
  }

  /** The overwriting step leaves the lease alone, so the successor may be running meanwhile. */
  lemma Overwritten(st: Settings, s: System, token: string)
    requires At(s, token, Executing) && s.runners[token].runId in s.doc.runs
    requires NoRebootKind(Flatten(s.doc.runs[s.runners[token].runId].results.devices))
    ensures var (id, s') := (s.runners[token].runId, Do(st, s, Persist(token, "deviceNative", [GoodNews()])));
            && s'.doc.lock == s.doc.lock && id in s'.doc.runs && s'.doc.runs[id].status != Failed
            && forall x :: x != id ==> (IsRunning(s'.doc.runs, x) <==> IsRunning(s.doc.runs, x))
  {
    var id := s.runners[token].runId;
    PersistGivesResult(st, s, token, "deviceNative", [GoodNews()]);
    GoodNewsCounts(Flatten(s.doc.runs[id].results.devices), st.fold);
  }

  lemma TakenDoc(doc: Doc, st: Settings, now: nat, clock: nat, req: Request)
    requires AcquireDoc(doc, st, now, clock, req).Ok? && req.id !in doc.runs
    requires doc.lock.Some? && doc.lock.value.runId != "" && IsRunning(doc.runs, doc.lock.value.runId)
    ensures var (id, taken) := (doc.lock.value.runId, AcquireDoc(doc, st, now, clock, req).value);
            && IsRunning(taken.runs, req.id) && taken.lock == Some(Lock(req.id, req.token, now + st.lease))
            && (id in taken.runs ==> taken.runs[id].status == Failed)
  {
    AcquiredDoc(doc, st, now, clock, req);
    PruneFacts(FailAbandoned(doc, clock)[req.id := NewRun(req, doc.config, clock)], st.maxRuns);
  }

  /** A takeover from a runner that is merely late. */
  lemma LateRunnerFailed(st: Settings, s: System, token: string, req: Request, now: nat)
    requires RunsInv(s) && At(s, token, Executing) && IsRunning(s.doc.runs, s.runners[token].runId)
    requires Fresh(s, req) && now <= s.clock && AcquireDoc(s.doc, st, now, s.clock, req).Ok?
    ensures var (id, taken) := (s.runners[token].runId, DoAcquire(st, s, req, now));
            && At(taken, token, Executing) && taken.runners[token].runId == id
            && IsRunning(taken.doc.runs, req.id) && HasLease(taken, req.token)
            && (id in taken.doc.runs ==> HasStatus(taken, id, Failed))
  {
    var taken := System(AcquireDoc(s.doc, st, now, s.clock, req).value, s.clock,
                        s.runners[req.token := Runner(req.id, Executing)], s.usedIds + {req.id});
    assert DoAcquire(st, s, req, now) == taken;
    assert s.doc.lock.Some? && s.doc.lock.value.runId == s.runners[token].runId && req.token != token;
    TakenDoc(s.doc, st, now, s.clock, req);
  }

  /** A run that is failed by a takeover gets a better status from its old runner, which was
      late and lost the lease, while the successor holds the lease and runs. */
  lemma OldRunnerOverturnsVerdict(st: Settings, s: System, token: string, req: Request, now: nat)
    requires Inv(st, s) && RecordsOk(s.doc.runs)
    requires At(s, token, Executing) && IsRunning(s.doc.runs, s.runners[token].runId)
    requires Fresh(s, req) && now <= s.clock && AcquireDoc(s.doc, st, now, s.clock, req).Ok?
    requires s.runners[token].runId in DoAcquire(st, s, req, now).doc.runs
    ensures var (id, taken) := (s.runners[token].runId, DoAcquire(st, s, req, now));
            var after := Do(st, taken, Persist(token, "deviceNative", [GoodNews()]));
            && HasStatus(taken, id, Failed)
            && id in after.doc.runs && !HasStatus(after, id, Failed)
            && IsRunning(after.doc.runs, req.id) && HasLease(after, req.token)
  {
    LateRunnerFailed(st, s, token, req, now);
    AcquireKeepsRecords(st, s, req, now);
    Overwritten(st, DoAcquire(st, s, req, now), token);
  }
}
