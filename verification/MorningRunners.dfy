/** Any number of morning-run runners against one document, in every interleaving.

    A runner commits one update at a time and may stop for good between any two
    of them.  Run ids and tokens are random, hence fresh.  A runner that has not
    yet completed or failed its run is executing; it releases its lease only
    afterwards, or when its run record is gone. */
module MorningRunners {
  import opened Common
  import opened Retention
  import opened MorningAggregate
  import opened MorningLease

  datatype Stage = Executing | Settled | Gone

  datatype Runner = Runner(runId: string, stage: Stage)

  /** The stored document, the clock, the runner of every token, and the names handed out. */
  datatype System = System(doc: Doc, clock: nat, runners: map<string, Runner>, usedIds: set<string>)

  datatype Action =
    | Tick(seconds: nat)
    | Acquire(req: Request, now: nat)
    | Renew(token: string)
    | Persist(token: string, phase: string, sources: seq<Source>)
    | Complete(token: string, delivery: seq<string>)
    | Fail(token: string, message: string)
    | Quit(token: string)
    | Release(token: string)
    | Crash(token: string)

  predicate Fresh(s: System, req: Request) {
    && req.id != "" && req.id !in s.usedIds && req.id !in s.doc.runs
    && req.token !in s.runners
  }

  predicate At(s: System, token: string, stage: Stage) {
    token in s.runners && s.runners[token].stage == stage
  }

  function Move(s: System, token: string, stage: Stage): map<string, Runner>
    requires token in s.runners
  {
    s.runners[token := Runner(s.runners[token].runId, stage)]
  }

  /** An acquisition whose clock was read at `now`; a conflict changes nothing. */
  function DoAcquire(st: Settings, s: System, req: Request, now: nat): System {
    if Fresh(s, req) && now <= s.clock then
      var r := AcquireDoc(s.doc, st, now, s.clock, req);
      if r.Ok? then System(r.value, s.clock, s.runners[req.token := Runner(req.id, Executing)], s.usedIds + {req.id})
      else s
    else s
  }

  /** One step; an action whose guard fails leaves the system as it is. */
  ghost function Do(st: Settings, s: System, a: Action): System {
    match a
    case Tick(seconds) => s.(clock := s.clock + seconds)
    case Acquire(req, now) => DoAcquire(st, s, req, now)
    case Renew(token) =>
      if At(s, token, Executing) then s.(doc := RenewDoc(s.doc, st, s.runners[token].runId, token, s.clock)) else s
    case Persist(token, phase, sources) =>
      if At(s, token, Executing) then s.(doc := PersistDoc(s.doc, st, s.runners[token].runId, phase, sources)) else s
    case Complete(token, delivery) =>
      if At(s, token, Executing) then
        s.(doc := CompleteDoc(s.doc, st, s.runners[token].runId, s.clock, delivery), runners := Move(s, token, Settled))
      else s
    case Fail(token, message) =>
      if At(s, token, Executing) then
        s.(doc := FailDoc(s.doc, s.runners[token].runId, s.clock, message), runners := Move(s, token, Settled))
      else s
    case Quit(token) =>
      if At(s, token, Executing) && s.runners[token].runId !in s.doc.runs then
        s.(runners := Move(s, token, Settled))
      else s
    case Release(token) =>
      if At(s, token, Settled) then
        s.(doc := ReleaseDoc(s.doc, s.runners[token].runId, token), runners := Move(s, token, Gone))
      else s
    case Crash(token) =>
      if token in s.runners then s.(runners := Move(s, token, Gone)) else s
  }

  ghost function DoAll(st: Settings, s: System, actions: seq<Action>): System {
    if actions == [] then s else Do(st, DoAll(st, s, actions[..|actions| - 1]), actions[|actions| - 1])
  }

  function Start(config: Config): System {
    System(Doc(None, map[], config), 0, map[], {})
  }

  // ---- the invariant ---------------------------------------------------------------

  predicate IsRunning(runs: map<string, Run>, id: string) {
    id in runs && runs[id].status == Running
  }

  /** Runs are keyed by fresh ids, and only the run the lock names can be running. */
  ghost predicate RunsInv(s: System) {
    && (forall id :: id in s.doc.runs ==> s.doc.runs[id].id == id && id in s.usedIds && id != "")
    && (forall id :: id in s.doc.runs ==> Terminal(s.doc.runs[id].status) || s.doc.runs[id].status == Running)
    && (forall id :: IsRunning(s.doc.runs, id) ==> s.doc.lock.Some? && s.doc.lock.value.runId == id)
  }

  /** Runners have runs of their own, the lock belongs to one of them, and a settled
      runner's run is no longer running. */
  ghost predicate RunnersInv(s: System) {
    && (forall t :: t in s.runners ==> s.runners[t].runId in s.usedIds)
    && (forall t, u :: t in s.runners && u in s.runners && s.runners[t].runId == s.runners[u].runId ==> t == u)
    && (s.doc.lock.Some? ==>
          && s.doc.lock.value.token in s.runners
          && s.runners[s.doc.lock.value.token].runId == s.doc.lock.value.runId)
    && (forall t :: At(s, t, Settled) ==> !IsRunning(s.doc.runs, s.runners[t].runId))
  }

  ghost predicate OccurrencesInv(runs: map<string, Run>) {
    forall a, b ::
      && a in runs && b in runs && runs[a].trigger == Scheduled && runs[b].trigger == Scheduled
      && runs[a].scheduledFor.Some? && runs[a].scheduledFor.value != ""
      && runs[a].scheduledFor == runs[b].scheduledFor
      ==> a == b
  }

  /** No lease reaches further than one lease length from now. */
  predicate LeaseInv(st: Settings, s: System) {
    s.doc.lock.Some? ==> s.doc.lock.value.expiresAt <= s.clock + st.lease
  }

  ghost predicate Inv(st: Settings, s: System) {
    RunsInv(s) && RunnersInv(s) && OccurrencesInv(s.doc.runs) && LeaseInv(st, s)
  }

  lemma FailAbandonedFacts(doc: Doc, clock: nat)
    ensures var runs := FailAbandoned(doc, clock);
            && runs.Keys == doc.runs.Keys
            && (forall id :: id in runs ==>
                  && runs[id].id == doc.runs[id].id && runs[id].trigger == doc.runs[id].trigger
                  && runs[id].scheduledFor == doc.runs[id].scheduledFor
                  && (runs[id].status == doc.runs[id].status || runs[id].status == Failed))
            && (forall id :: id in runs && doc.lock.Some? && doc.lock.value.runId == id && id != "" ==>
                  runs[id].status != Running)
  {
  }

  lemma PruneFacts(runs: map<string, Run>, maxRuns: nat)
    ensures forall id :: id in Prune(runs, maxRuns) ==> id in runs && Prune(runs, maxRuns)[id] == runs[id]
    ensures forall id :: id in runs && !Terminal(runs[id].status) ==> id in Prune(runs, maxRuns)
  {
    BoundedFacts(runs, TerminalAges(runs), maxRuns);
  }

  /** What an acquisition leaves: the new run, running, among runs that are all terminal. */
  ghost predicate Acquired(was: map<string, Run>, runs: map<string, Run>, id: string) {
    && id in runs && runs[id].status == Running && runs[id].id == id
    && (forall x :: x in runs && x != id ==>
          && x in was && Terminal(runs[x].status) && runs[x].id == x
          && runs[x].trigger == was[x].trigger && runs[x].scheduledFor == was[x].scheduledFor)
  }

  lemma AllTerminal(st: Settings, s: System)
    requires Inv(st, s)
    ensures var runs := FailAbandoned(s.doc, s.clock); forall id :: id in runs ==> Terminal(runs[id].status)
  {
    FailAbandonedFacts(s.doc, s.clock);
    var runs := FailAbandoned(s.doc, s.clock);
    forall id | id in runs
      ensures Terminal(runs[id].status)
    {
      if IsRunning(s.doc.runs, id) {
        assert s.doc.lock.value.runId == id;
      }
    }
  }

  ghost predicate SameHistory(was: map<string, Run>, runs: map<string, Run>) {
    forall x :: x in runs ==>
      && x in was && Terminal(runs[x].status) && runs[x].id == x
      && runs[x].trigger == was[x].trigger && runs[x].scheduledFor == was[x].scheduledFor
  }

  lemma PrunedAcquisition(was: map<string, Run>, failed: map<string, Run>, kept: map<string, Run>, run: Run)
    requires SameHistory(was, failed) && run.status == Running && run.id !in failed
    requires forall id :: id in kept ==> id in failed[run.id := run] && kept[id] == failed[run.id := run][id]
    requires run.id in kept
    ensures Acquired(was, kept, run.id) && kept[run.id] == run
  {
  }

  lemma HistoryKept(st: Settings, s: System)
    requires Inv(st, s)
    ensures SameHistory(s.doc.runs, FailAbandoned(s.doc, s.clock))
    ensures FailAbandoned(s.doc, s.clock).Keys == s.doc.runs.Keys
  {
    FailAbandonedFacts(s.doc, s.clock);
    AllTerminal(st, s);
  }

  lemma NewOccurrence(was: map<string, Run>, failed: map<string, Run>, kept: map<string, Run>, run: Run)
    requires OccurrencesInv(was) && SameHistory(was, failed) && !Occupied(failed, run.scheduledFor)
    requires run.id !in failed
    requires forall id :: id in kept ==> id in failed[run.id := run] && kept[id] == failed[run.id := run][id]
    ensures OccurrencesInv(kept)
  {
    forall a, b |
      && a in kept && b in kept && kept[a].trigger == Scheduled && kept[b].trigger == Scheduled
      && kept[a].scheduledFor.Some? && kept[a].scheduledFor.value != ""
      && kept[a].scheduledFor == kept[b].scheduledFor
      ensures a == b
    {
      if a != run.id && b != run.id {
        assert was[a].scheduledFor == kept[a].scheduledFor && was[b].scheduledFor == kept[b].scheduledFor;
      }
    }
  }

  lemma AcquiredRuns(was: map<string, Run>, failed: map<string, Run>, run: Run, maxRuns: nat)
    requires OccurrencesInv(was) && SameHistory(was, failed) && !Occupied(failed, run.scheduledFor)
    requires run.status == Running && run.id !in failed
    ensures var kept := Prune(failed[run.id := run], maxRuns);
            Acquired(was, kept, run.id) && kept[run.id] == run && OccurrencesInv(kept)
  {
    var all := failed[run.id := run];
    var kept := Prune(all, maxRuns);
    PruneFacts(all, maxRuns);
    assert all[run.id] == run && !Terminal(Running);
    assert run.id in kept;
    PrunedAcquisition(was, failed, kept, run);
    NewOccurrence(was, failed, kept, run);
  }

  lemma AcquiredDoc(doc: Doc, st: Settings, now: nat, clock: nat, req: Request)
    requires AcquireDoc(doc, st, now, clock, req).Ok?
    ensures var run := NewRun(req, doc.config, clock);
            && run.id == req.id && run.status == Running && !Occupied(FailAbandoned(doc, clock), run.scheduledFor)
            && AcquireDoc(doc, st, now, clock, req).value ==
               Doc(Some(Lock(req.id, req.token, now + st.lease)),
                   Prune(FailAbandoned(doc, clock)[req.id := run], st.maxRuns), doc.config)
  {
  }

  lemma AcquireRuns(st: Settings, s: System, req: Request, now: nat)
    requires Inv(st, s) && Fresh(s, req) && AcquireDoc(s.doc, st, now, s.clock, req).Ok?
    ensures var after := AcquireDoc(s.doc, st, now, s.clock, req).value;
            && Acquired(s.doc.runs, after.runs, req.id)
            && after.runs[req.id] == NewRun(req, s.doc.config, s.clock)
            && OccurrencesInv(after.runs)
            && after.lock == Some(Lock(req.id, req.token, now + st.lease))
  {
    var failed, run := FailAbandoned(s.doc, s.clock), NewRun(req, s.doc.config, s.clock);
    AcquiredDoc(s.doc, st, now, s.clock, req);
    HistoryKept(st, s);
    AcquiredRuns(s.doc.runs, failed, run, st.maxRuns);
  }

  lemma AcquireKeepsInv(st: Settings, s: System, req: Request, now: nat)
    requires Inv(st, s)
    ensures Inv(st, DoAcquire(st, s, req, now))
  {
    var r := AcquireDoc(s.doc, st, now, s.clock, req);
    if Fresh(s, req) && now <= s.clock && r.Ok? {
      AcquireRuns(st, s, req, now);
      var s' := System(r.value, s.clock, s.runners[req.token := Runner(req.id, Executing)], s.usedIds + {req.id});
      AfterAcquire(st, s, s', req, now);
      assert DoAcquire(st, s, req, now) == s';
    }
  }

  lemma AfterAcquire(st: Settings, s: System, s': System, req: Request, now: nat)
    requires Inv(st, s) && Fresh(s, req) && now <= s.clock
    requires Acquired(s.doc.runs, s'.doc.runs, req.id) && OccurrencesInv(s'.doc.runs)
    requires s'.doc.lock == Some(Lock(req.id, req.token, now + st.lease)) && s'.clock == s.clock
    requires s'.runners == s.runners[req.token := Runner(req.id, Executing)] && s'.usedIds == s.usedIds + {req.id}
    ensures Inv(st, s')
  {
  }

  lemma StatusesAreTerminal(devices: seq<Device>)
    ensures Terminal(Totals(devices).status)
  {
  }

  lemma UpdatedOccurrences(runs: map<string, Run>, id: string, run: Run)
    requires OccurrencesInv(runs) && id in runs
    requires run.trigger == runs[id].trigger && run.scheduledFor == runs[id].scheduledFor
    ensures OccurrencesInv(runs[id := run])
  {
    var now := runs[id := run];
    assert forall x :: x in now ==>
             x in runs && now[x].trigger == runs[x].trigger && now[x].scheduledFor == runs[x].scheduledFor;
  }

  lemma UpdatedRuns(s: System, s': System, id: string, run: Run)
    requires RunsInv(s) && id in s.doc.runs && run.id == id && Terminal(run.status)
    requires s'.doc == s.doc.(runs := s.doc.runs[id := run]) && s'.usedIds == s.usedIds
    ensures RunsInv(s') && forall x :: IsRunning(s'.doc.runs, x) ==> IsRunning(s.doc.runs, x)
  {
    forall x | IsRunning(s'.doc.runs, x)
      ensures IsRunning(s.doc.runs, x)
    {
      assert x != id;
    }
  }

  /** A runner writes a result into a run, and may settle by it. */
  lemma UpdateKeepsInv(st: Settings, s: System, id: string, run: Run, runners: map<string, Runner>)
    requires Inv(st, s) && id in s.doc.runs
    requires run.id == id && Terminal(run.status)
    requires run.trigger == s.doc.runs[id].trigger && run.scheduledFor == s.doc.runs[id].scheduledFor
    requires runners.Keys == s.runners.Keys
    requires forall t :: t in runners ==> runners[t].runId == s.runners[t].runId
    requires forall t :: t in runners && runners[t].stage == Settled ==>
               s.runners[t].stage == Settled || runners[t].runId == id
    ensures Inv(st, s.(doc := s.doc.(runs := s.doc.runs[id := run]), runners := runners))
  {
    var s' := s.(doc := s.doc.(runs := s.doc.runs[id := run]), runners := runners);
    UpdatedOccurrences(s.doc.runs, id, run);
    UpdatedRuns(s, s', id, run);
    forall t | At(s', t, Settled)
      ensures !IsRunning(s'.doc.runs, s'.runners[t].runId)
    {
      if s.runners[t].stage == Settled {
        assert At(s, t, Settled);
      }
    }
  }

  lemma RunnerStepKeepsInv(st: Settings, s: System, token: string, stage: Stage)
    requires Inv(st, s) && token in s.runners
    requires stage == Settled ==> !IsRunning(s.doc.runs, s.runners[token].runId)
    ensures Inv(st, s.(runners := Move(s, token, stage)))
  {
    var s' := s.(runners := Move(s, token, stage));
    forall t | At(s', t, Settled)
      ensures !IsRunning(s'.doc.runs, s'.runners[t].runId)
    {
      assert t == token || At(s, t, Settled);
    }
  }

  lemma ReleaseKeepsInv(st: Settings, s: System, token: string)
    requires Inv(st, s)
    ensures Inv(st, Do(st, s, Release(token)))
  {
    if At(s, token, Settled) {
      var runId := s.runners[token].runId;
      RunnerStepKeepsInv(st, s, token, Gone);
      if Owns(s.doc, runId, token) {
        forall id
          ensures !IsRunning(s.doc.runs, id)
        {
        }
      }
    }
  }

  lemma StepKeepsInv(st: Settings, s: System, a: Action)
    requires Inv(st, s)
    ensures Inv(st, Do(st, s, a))
  {
    match a
    case Tick(_) =>
    case Acquire(req, now) => AcquireKeepsInv(st, s, req, now);
    case Renew(_) =>
    case Persist(token, phase, sources) =>
      if At(s, token, Executing) && s.runners[token].runId in s.doc.runs {
        var run := s.doc.runs[s.runners[token].runId];
        StatusesAreTerminal(Devices(Merge(map[], Flatten(run.results.devices) + sources), st.fold));
        UpdateKeepsInv(st, s, run.id, PersistRun(run, st.fold, phase, sources), s.runners);
      }
    case Complete(token, delivery) =>
      if At(s, token, Executing) {
        SettleKeepsInv(st, s, token, true, delivery, "");
      }
    case Fail(token, message) =>
      if At(s, token, Executing) {
        SettleKeepsInv(st, s, token, false, [], message);
      }
    case Quit(token) =>
      if At(s, token, Executing) && s.runners[token].runId !in s.doc.runs {
        RunnerStepKeepsInv(st, s, token, Settled);
      }
    case Release(token) => ReleaseKeepsInv(st, s, token);
    case Crash(token) =>
      if token in s.runners {
        RunnerStepKeepsInv(st, s, token, Gone);
      }
  }

  lemma SettleKeepsInv(st: Settings, s: System, token: string, completed: bool, delivery: seq<string>, message: string)
    requires Inv(st, s) && At(s, token, Executing)
    ensures Inv(st, Do(st, s, if completed then Complete(token, delivery) else Fail(token, message)))
  {
    var runId := s.runners[token].runId;
    if runId in s.doc.runs {
      var run := s.doc.runs[runId];
      StatusesAreTerminal(Devices(Merge(map[], Flatten(run.results.devices)), st.fold));
      var next := if completed then CompleteRun(run, st.fold, s.clock, delivery) else FailRun(run, s.clock, message);
      UpdateKeepsInv(st, s, runId, next, Move(s, token, Settled));
    } else {
      RunnerStepKeepsInv(st, s, token, Settled);
    }
  }

  lemma {:induction false} Reachable(st: Settings, s: System, actions: seq<Action>)
    requires Inv(st, s)
    ensures Inv(st, DoAll(st, s, actions))
  {
    if actions != [] {
      Reachable(st, s, actions[..|actions| - 1]);
      StepKeepsInv(st, DoAll(st, s, actions[..|actions| - 1]), actions[|actions| - 1]);
    }
  }

  // ---- what holds over every interleaving --------------------------------------------

  /** A running run is always the one the stored lock names, so there is at most one. */
  lemma OnlyTheLockedRunRuns(st: Settings, config: Config, actions: seq<Action>, a: string, b: string)
    ensures var doc := DoAll(st, Start(config), actions).doc;
            && (IsRunning(doc.runs, a) ==> doc.lock.Some? && doc.lock.value.runId == a)
            && (IsRunning(doc.runs, a) && IsRunning(doc.runs, b) ==> a == b)
  {
    Reachable(st, Start(config), actions);
  }

  /** No two retained scheduled runs stand for the same occurrence. */
  lemma OccurrencesRunOnce(st: Settings, config: Config, actions: seq<Action>, a: string, b: string)
    requires var runs := DoAll(st, Start(config), actions).doc.runs;
             && a in runs && b in runs && a != b
             && runs[a].trigger == Scheduled && runs[b].trigger == Scheduled
             && runs[a].scheduledFor.Some? && runs[a].scheduledFor.value != ""
    ensures DoAll(st, Start(config), actions).doc.runs[a].scheduledFor
            != DoAll(st, Start(config), actions).doc.runs[b].scheduledFor
  {
    Reachable(st, Start(config), actions);
  }

  /** A known run that is not running: finished, failed as abandoned, or removed. */
  predicate Over(s: System, id: string) {
    id in s.usedIds && !IsRunning(s.doc.runs, id)
  }

  /** Only an acquisition makes a run running. */
  lemma RunningOnlyByAcquire(st: Settings, s: System, a: Action, id: string)
    requires !a.Acquire? && !IsRunning(s.doc.runs, id)
    ensures !IsRunning(Do(st, s, a).doc.runs, id)
    ensures Do(st, s, a).usedIds == s.usedIds
  {
    match a
    case Persist(token, _, sources) =>
      if At(s, token, Executing) && s.runners[token].runId in s.doc.runs {
        var run := s.doc.runs[s.runners[token].runId];
        StatusesAreTerminal(Devices(Merge(map[], Flatten(run.results.devices) + sources), st.fold));
      }
    case Complete(token, _) =>
      if At(s, token, Executing) && s.runners[token].runId in s.doc.runs {
        var run := s.doc.runs[s.runners[token].runId];
        StatusesAreTerminal(Devices(Merge(map[], Flatten(run.results.devices)), st.fold));
      }
    case _ =>
  }

  lemma StepKeepsOver(st: Settings, s: System, a: Action, id: string)
    requires Inv(st, s) && Over(s, id)
    ensures Over(Do(st, s, a), id)
  {
    if a.Acquire? {
      AcquireKeepsOver(st, s, a.req, a.now, id);
    } else {
      RunningOnlyByAcquire(st, s, a, id);
    }
  }

  lemma AcquireKeepsOver(st: Settings, s: System, req: Request, now: nat, id: string)
    requires Inv(st, s) && Over(s, id)
    ensures Over(DoAcquire(st, s, req, now), id)
  {
    if Fresh(s, req) && now <= s.clock && AcquireDoc(s.doc, st, now, s.clock, req).Ok? {
      AcquireRuns(st, s, req, now);
    }
  }

  /** No run ever returns to running, not even after it was pruned. */
  lemma {:induction false} NoRunReturns(st: Settings, s: System, actions: seq<Action>, id: string)
    requires Inv(st, s) && Over(s, id)
    ensures Over(DoAll(st, s, actions), id)
  {
    if actions != [] {
      var init := actions[..|actions| - 1];
      Reachable(st, s, init);
      NoRunReturns(st, s, init, id);
      StepKeepsOver(st, DoAll(st, s, init), actions[|actions| - 1], id);
    }
  }

  /** The token whose runner takes the step; `None` for the clock and for acquisitions. */
  function Actor(a: Action): Option<string> {
    match a
    case Tick(_) => None
    case Acquire(_, _) => None
    case Renew(t) => Some(t)
    case Persist(t, _, _) => Some(t)
    case Complete(t, _) => Some(t)
    case Fail(t, _) => Some(t)
    case Quit(t) => Some(t)
    case Release(t) => Some(t)
    case Crash(t) => Some(t)
  }

  predicate HasLease(s: System, token: string) {
    s.doc.lock.Some? && s.doc.lock.value.token == token
  }

  /** A runner without the lease cannot extend, replace or remove the stored lock. */
  lemma FencedOut(st: Settings, s: System, a: Action, token: string)
    requires Inv(st, s) && Actor(a) == Some(token) && !HasLease(s, token)
    ensures Do(st, s, a).doc.lock == s.doc.lock
  {
  }

  lemma AcquireKeepsLoss(st: Settings, s: System, req: Request, now: nat, token: string)
    requires token in s.runners && !HasLease(s, token)
    ensures token in DoAcquire(st, s, req, now).runners && !HasLease(DoAcquire(st, s, req, now), token)
  {
  }

  lemma StepKeepsLoss(st: Settings, s: System, a: Action, token: string)
    requires token in s.runners && !HasLease(s, token)
    ensures token in Do(st, s, a).runners && !HasLease(Do(st, s, a), token)
  {
    if a.Acquire? {
      AcquireKeepsLoss(st, s, a.req, a.now, token);
    }
  }

  /** A lease once lost, by release or takeover, is lost for good. */
  lemma {:induction false} LeaseNeverRegained(st: Settings, s: System, actions: seq<Action>, token: string)
    requires Inv(st, s) && token in s.runners && !HasLease(s, token)
    ensures token in DoAll(st, s, actions).runners && !HasLease(DoAll(st, s, actions), token)
  {
    if actions != [] {
      var init := actions[..|actions| - 1];
      LeaseNeverRegained(st, s, init, token);
      StepKeepsLoss(st, DoAll(st, s, init), actions[|actions| - 1], token);
    }
  }

  /** A step other than the holder's release keeps the lease, and time only goes on. */
  lemma StepKeepsLease(st: Settings, s: System, a: Action, token: string)
    requires Inv(st, s) && HasLease(s, token) && a != Release(token) && s.clock < s.doc.lock.value.expiresAt
    ensures HasLease(Do(st, s, a), token)
    ensures Do(st, s, a).doc.lock.value.expiresAt >= s.doc.lock.value.expiresAt
  {
  }

  lemma ClockGoesOn(st: Settings, s: System, a: Action)
    ensures Do(st, s, a).clock >= s.clock
  {
  }

  /** Nobody else takes a lease before it expires: until then only its own runner's
      release ends it. */
  lemma {:induction false} LeaseHeldUntilExpiry(st: Settings, s: System, actions: seq<Action>, token: string)
    requires Inv(st, s) && HasLease(s, token)
    requires forall i :: 0 <= i < |actions| ==> actions[i] != Release(token)
    requires DoAll(st, s, actions).clock < s.doc.lock.value.expiresAt
    ensures HasLease(DoAll(st, s, actions), token)
    ensures DoAll(st, s, actions).doc.lock.value.expiresAt >= s.doc.lock.value.expiresAt
  {
    if actions != [] {
      var init, last := actions[..|actions| - 1], actions[|actions| - 1];
      ClockGoesOn(st, DoAll(st, s, init), last);
      LeaseHeldUntilExpiry(st, s, init, token);
      Reachable(st, s, init);
      StepKeepsLease(st, DoAll(st, s, init), last, token);
    }
  }

  // ---- retention -----------------------------------------------------------------------

  /** Every acquisition bounds the history, drops only the oldest terminal runs, and keeps
      the run it started. */
  lemma AcquireBoundsHistory(st: Settings, s: System, req: Request, now: nat)
    requires Inv(st, s) && Fresh(s, req) && AcquireDoc(s.doc, st, now, s.clock, req).Ok?
    ensures var all := FailAbandoned(s.doc, s.clock)[req.id := NewRun(req, s.doc.config, s.clock)];
            var kept := AcquireDoc(s.doc, st, now, s.clock, req).value.runs;
            && |kept| == (if |all| < st.maxRuns then |all| else st.maxRuns)
            && req.id in kept
            && DroppedAreOldest(all, kept, req.id)
  {
    AcquireRuns(st, s, req, now);
    AllTerminal(st, s);
    var all := FailAbandoned(s.doc, s.clock)[req.id := NewRun(req, s.doc.config, s.clock)];
    PruneBounds(all, st.maxRuns, req.id);
  }

  /** Everything dropped is terminal and older than every run kept beside the new one. */
  ghost predicate DroppedAreOldest(all: map<string, Run>, kept: map<string, Run>, newest: string) {
    && (forall id :: id in kept ==> id in all && kept[id] == all[id])
    && (forall gone :: gone in all && gone !in kept ==> Terminal(all[gone].status))
    && (forall gone, id :: gone in all && gone !in kept && id in kept && id != newest ==>
          Older(TerminalAges(all), gone, id))
  }

  lemma PruneBounds(all: map<string, Run>, maxRuns: nat, newest: string)
    requires maxRuns > 0 && newest in all && all[newest].status == Running
    requires forall id :: id in all && id != newest ==> Terminal(all[id].status)
    ensures |Prune(all, maxRuns)| == if |all| < maxRuns then |all| else maxRuns
    ensures DroppedAreOldest(all, Prune(all, maxRuns), newest)
  {
    var ages := TerminalAges(all);
    assert all.Keys - ages.Keys == {newest};
    BoundedFacts(all, ages, maxRuns);
  }
}
