/** Any number of dispatching threads and worker threads of one scheduler, interleaved at
    every access to a job's fields, its lock and the worker set. */
module SchedulerThreads {
  import opened IntervalScheduler

  /** Where a dispatcher is in the loop body for the job at `at`; `Recorded(w)` has put
      worker `w` in the set and not yet started it. */
  datatype Phase = Looking | Found | PutOff | Holding | Recorded(w: nat)

  datatype Dispatcher = Dispatcher(now: real, at: nat, phase: Phase)

  datatype WorkerStage = Added | Started | Released | Gone

  datatype Worker = Worker(job: nat, stage: WorkerStage)

  /** The scheduler's own thread. */
  datatype Loop = Off | Booting | Checking | Dispatching(d: nat) | Waiting

  datatype System = System(
    jobs: seq<Job>, dispatchers: seq<Dispatcher>, workers: seq<Worker>, stopped: bool, loop: Loop)

  datatype Action =
    | Enter(now: real)
    | Look(d: nat)
    | Mark(d: nat)
    | TryLock(d: nat)
    | Record(d: nat)
    | Launch(d: nat)
    | Release(w: nat)
    | Discard(w: nat)
    | StartThread
    | Boot(now: real)
    | LoopTop(now: real)
    | LoopEnd
    | Wake
    | SetStop

  predicate At(s: System, d: nat, phase: Phase) {
    d < |s.dispatchers| && s.dispatchers[d].at < |s.jobs| && s.dispatchers[d].phase == phase
  }

  predicate RecordedAt(s: System, d: nat) {
    && d < |s.dispatchers| && s.dispatchers[d].at < |s.jobs| && s.dispatchers[d].phase.Recorded?
    && s.dispatchers[d].phase.w < |s.workers|
  }

  function Put(s: System, d: nat, x: Dispatcher): System
    requires d < |s.dispatchers|
  {
    s.(dispatchers := s.dispatchers[d := x])
  }

  function PutJob(s: System, j: nat, job: Job): System
    requires j < |s.jobs|
  {
    s.(jobs := s.jobs[j := job])
  }

  function PutWorker(s: System, w: nat, stage: WorkerStage): System
    requires w < |s.workers|
  {
    s.(workers := s.workers[w := s.workers[w].(stage := stage)])
  }

  function NextJob(x: Dispatcher): Dispatcher {
    x.(at := x.at + 1, phase := Looking)
  }

  function DoLook(s: System, d: nat): System {
    if !At(s, d, Looking) then s
    else
      var x := s.dispatchers[d];
      Put(s, d, if Due(s.jobs[x.at], x.now) then x.(phase := Found) else NextJob(x))
  }

  function DoMark(s: System, d: nat): System {
    if !At(s, d, Found) then s
    else
      var x := s.dispatchers[d];
      Put(PutJob(s, x.at, Marked(s.jobs[x.at], x.now)), d, x.(phase := PutOff))
  }

  function DoTryLock(s: System, d: nat): System {
    if !At(s, d, PutOff) then s
    else
      var x := s.dispatchers[d];
      if s.jobs[x.at].locked then Put(s, d, NextJob(x))
      else Put(PutJob(s, x.at, s.jobs[x.at].(locked := true)), d, x.(phase := Holding))
  }

  function DoRecord(s: System, d: nat): System {
    if !At(s, d, Holding) then s
    else
      var x := s.dispatchers[d];
      Put(s.(workers := s.workers + [Worker(x.at, Added)]), d, x.(phase := Recorded(|s.workers|)))
  }

  function DoLaunch(s: System, d: nat): System {
    if !RecordedAt(s, d) then s
    else
      var x := s.dispatchers[d];
      Put(PutWorker(s, x.phase.w, Started), d, NextJob(x))
  }

  function DoRelease(s: System, w: nat): System {
    if w < |s.workers| && s.workers[w].stage == Started && s.workers[w].job < |s.jobs| then
      PutWorker(PutJob(s, s.workers[w].job, s.jobs[s.workers[w].job].(locked := false)), w, Released)
    else s
  }

  function DoDiscard(s: System, w: nat): System {
    if w < |s.workers| && s.workers[w].stage == Released then PutWorker(s, w, Gone) else s
  }

  function DoLoopTop(s: System, now: real): System {
    if s.loop != Checking then s
    else if s.stopped then s.(loop := Off)
    else s.(dispatchers := s.dispatchers + [Dispatcher(now, 0, Looking)], loop := Dispatching(|s.dispatchers|))
  }

  predicate PassDone(s: System, d: nat) {
    d < |s.dispatchers| && s.dispatchers[d].at >= |s.jobs|
  }

  /** One step; an action whose guard fails leaves the system as it is. */
  function Do(s: System, a: Action): System {
    match a
    case Enter(now) => s.(dispatchers := s.dispatchers + [Dispatcher(now, 0, Looking)])
    case Look(d) => DoLook(s, d)
    case Mark(d) => DoMark(s, d)
    case TryLock(d) => DoTryLock(s, d)
    case Record(d) => DoRecord(s, d)
    case Launch(d) => DoLaunch(s, d)
    case Release(w) => DoRelease(s, w)
    case Discard(w) => DoDiscard(s, w)
    case StartThread => if s.loop == Off then s.(stopped := false, loop := Booting) else s
    case Boot(now) => if s.loop == Booting then s.(jobs := Initialised(s.jobs, now), loop := Checking) else s
    case LoopTop(now) => DoLoopTop(s, now)
    case LoopEnd => if s.loop.Dispatching? && PassDone(s, s.loop.d) then s.(loop := Waiting) else s
    case Wake => if s.loop == Waiting then s.(loop := Checking) else s
    case SetStop => s.(stopped := true)
  }

  function DoAll(s: System, actions: seq<Action>): System {
    if actions == [] then s else Do(DoAll(s, actions[..|actions| - 1]), actions[|actions| - 1])
  }

  lemma {:induction false} DoAllJoin(s: System, a: seq<Action>, b: seq<Action>)
    ensures DoAll(s, a + b) == DoAll(DoAll(s, a), b)
  {
    if b == [] {
      assert a + b == a;
    } else {
      DoAllJoin(s, a, b[..|b| - 1]);
      assert (a + b)[..|a + b| - 1] == a + b[..|b| - 1];
    }
  }

  lemma {:induction false} DoAllFirst(s: System, a: Action, rest: seq<Action>)
    ensures DoAll(s, [a] + rest) == DoAll(Do(s, a), rest)
  {
    DoAllJoin(s, [a], rest);
    assert DoAll(s, [a]) == Do(DoAll(s, []), a);
  }

  lemma OneStep(s: System, a: Action)
    ensures DoAll(s, [a]) == Do(s, a)
  {
    assert [a][..0] == [];
  }

  predicate Initial(s: System) {
    s.dispatchers == [] && s.workers == [] && s.loop == Off && forall j :: 0 <= j < |s.jobs| ==> !s.jobs[j].locked
  }

  // ---- the lock invariant -----------------------------------------------------------------

  /** Whoever has to release a job's lock: a dispatcher about to record a worker, or a
      worker whose runner has not returned. */
  datatype Holder = Dispatch(d: nat) | Run(w: nat)

  predicate Holds(s: System, h: Holder, j: nat) {
    match h
    case Dispatch(d) => d < |s.dispatchers| && s.dispatchers[d].phase == Holding && s.dispatchers[d].at == j
    case Run(w) =>
      && w < |s.workers| && s.workers[w].job == j
      && (s.workers[w].stage == Added || s.workers[w].stage == Started)
  }

  ghost predicate Held(s: System, j: nat) {
    exists h :: Holds(s, h, j)
  }

  ghost predicate LockInv(s: System) {
    && (forall h, j: nat :: Holds(s, h, j) ==> j < |s.jobs| && s.jobs[j].locked)
    && (forall h, g, j: nat :: Holds(s, h, j) && Holds(s, g, j) ==> h == g)
    && (forall j :: 0 <= j < |s.jobs| && s.jobs[j].locked ==> Held(s, j))
  }

  /** Dispatchers and the workers they are about to start. */
  ghost predicate PhaseInv(s: System) {
    && (forall d :: 0 <= d < |s.dispatchers| && s.dispatchers[d].phase != Looking ==> s.dispatchers[d].at < |s.jobs|)
    && (forall d :: 0 <= d < |s.dispatchers| && s.dispatchers[d].phase.Recorded? ==>
          RecordedAt(s, d) && s.workers[s.dispatchers[d].phase.w] == Worker(s.dispatchers[d].at, Added))
    && (forall d, e ::
          && 0 <= d < e < |s.dispatchers|
          && s.dispatchers[d].phase.Recorded? && s.dispatchers[e].phase.Recorded?
          ==> s.dispatchers[d].phase.w != s.dispatchers[e].phase.w)
    && (forall w :: 0 <= w < |s.workers| && s.workers[w].stage == Added ==> Launched(s, w))
    && (forall w :: 0 <= w < |s.workers| ==> s.workers[w].job < |s.jobs|)
    && (s.loop.Dispatching? ==> s.loop.d < |s.dispatchers|)
  }

  /** Some dispatcher is about to start worker `w`. */
  ghost predicate Launched(s: System, w: nat) {
    exists d :: 0 <= d < |s.dispatchers| && s.dispatchers[d].phase == Recorded(w)
  }

  ghost predicate Inv(s: System) {
    PhaseInv(s) && LockInv(s)
  }

  /** A step that changes neither the holders nor the locks. */
  lemma SameLocks(s: System, s': System)
    requires LockInv(s) && |s'.jobs| == |s.jobs|
    requires forall j :: 0 <= j < |s.jobs| ==> s'.jobs[j].locked == s.jobs[j].locked
    requires forall h, j: nat :: Holds(s', h, j) <==> Holds(s, h, j)
    ensures LockInv(s')
  {
    forall j | 0 <= j < |s'.jobs| && s'.jobs[j].locked
      ensures Held(s', j)
    {
      var h :| Holds(s, h, j);
      assert Holds(s', h, j);
    }
  }

  /** A step that hands job `j`'s lock from nobody or `old` to `new`. */
  lemma HandedOver(s: System, s': System, j: nat, g: Holder)
    requires LockInv(s) && |s'.jobs| == |s.jobs| && j < |s.jobs| && s'.jobs[j].locked
    requires forall k :: 0 <= k < |s.jobs| && k != j ==> s'.jobs[k].locked == s.jobs[k].locked
    requires forall h, k: nat :: k != j ==> (Holds(s', h, k) <==> Holds(s, h, k))
    requires forall h :: Holds(s', h, j) <==> h == g
    ensures LockInv(s')
  {
    assert Holds(s', g, j);
    forall k | 0 <= k < |s'.jobs| && s'.jobs[k].locked
      ensures Held(s', k)
    {
      if k != j {
        var h :| Holds(s, h, k);
        assert Holds(s', h, k);
      }
    }
  }

  /** A step that leaves every dispatcher alone that is about to start a worker. */
  lemma StillLaunched(s: System, s': System)
    requires PhaseInv(s) && |s.dispatchers| <= |s'.dispatchers|
    requires forall w :: 0 <= w < |s'.workers| && s'.workers[w].stage == Added ==>
               w < |s.workers| && s.workers[w].stage == Added
    requires forall d :: 0 <= d < |s.dispatchers| && s.dispatchers[d].phase.Recorded? ==>
               s'.dispatchers[d].phase == s.dispatchers[d].phase
               || (s.dispatchers[d].phase.w < |s'.workers| && s'.workers[s.dispatchers[d].phase.w].stage != Added)
    ensures forall w :: 0 <= w < |s'.workers| && s'.workers[w].stage == Added ==> Launched(s', w)
  {
    forall w | 0 <= w < |s'.workers| && s'.workers[w].stage == Added
      ensures Launched(s', w)
    {
      var d :| 0 <= d < |s.dispatchers| && s.dispatchers[d].phase == Recorded(w);
      assert s'.dispatchers[d].phase == Recorded(w);
    }
  }

  lemma LookKeepsInv(s: System, d: nat)
    requires Inv(s)
    ensures Inv(DoLook(s, d))
  {
    var s' := DoLook(s, d);
    SameLocks(s, s');
    StillLaunched(s, s');
  }

  lemma MarkKeepsInv(s: System, d: nat)
    requires Inv(s)
    ensures Inv(DoMark(s, d))
  {
    var s' := DoMark(s, d);
    SameLocks(s, s');
    StillLaunched(s, s');
  }

  lemma TryLockKeepsInv(s: System, d: nat)
    requires Inv(s)
    ensures Inv(DoTryLock(s, d))
  {
    var s' := DoTryLock(s, d);
    if At(s, d, PutOff) {
      var j := s.dispatchers[d].at;
      if s.jobs[j].locked {
        SameLocks(s, s');
      } else {
        forall h
          ensures Holds(s', h, j) <==> h == Dispatch(d)
        {
          assert !Holds(s, h, j);
        }
        HandedOver(s, s', j, Dispatch(d));
      }
    }
    StillLaunched(s, s');
  }

  lemma RecordKeepsInv(s: System, d: nat)
    requires Inv(s)
    ensures Inv(DoRecord(s, d))
  {
    var s' := DoRecord(s, d);
    if At(s, d, Holding) {
      var j := s.dispatchers[d].at;
      assert Holds(s, Dispatch(d), j);
      forall h
        ensures Holds(s', h, j) <==> h == Run(|s.workers|)
      {
        assert Holds(s, h, j) ==> h == Dispatch(d);
      }
      HandedOver(s, s', j, Run(|s.workers|));
    }
    forall w | 0 <= w < |s'.workers| && s'.workers[w].stage == Added
      ensures Launched(s', w)
    {
      if w < |s.workers| {
        var e :| 0 <= e < |s.dispatchers| && s.dispatchers[e].phase == Recorded(w);
        assert s'.dispatchers[e].phase == Recorded(w);
      } else {
        assert s'.dispatchers[d].phase == Recorded(w);
      }
    }
  }

  lemma LaunchKeepsInv(s: System, d: nat)
    requires Inv(s)
    ensures Inv(DoLaunch(s, d))
  {
    var s' := DoLaunch(s, d);
    SameLocks(s, s');
    StillLaunched(s, s');
  }

  lemma ReleaseKeepsInv(s: System, w: nat)
    requires Inv(s)
    ensures Inv(DoRelease(s, w))
  {
    var s' := DoRelease(s, w);
    if w < |s.workers| && s.workers[w].stage == Started {
      var j := s.workers[w].job;
      assert Holds(s, Run(w), j);
      forall h, k: nat
        ensures Holds(s', h, k) <==> k != j && Holds(s, h, k)
      {
        assert Holds(s, h, j) ==> h == Run(w);
      }
      forall k | 0 <= k < |s'.jobs| && s'.jobs[k].locked
        ensures Held(s', k)
      {
        var h :| Holds(s, h, k);
        assert Holds(s', h, k);
      }
    }
    StillLaunched(s, s');
  }

  lemma DiscardKeepsInv(s: System, w: nat)
    requires Inv(s)
    ensures Inv(DoDiscard(s, w))
  {
    var s' := DoDiscard(s, w);
    SameLocks(s, s');
    StillLaunched(s, s');
  }

  /** A thread enters the dispatch loop. */
  lemma EntryKeepsInv(s: System, now: real, s': System)
    requires Inv(s) && s' == s.(dispatchers := s.dispatchers + [Dispatcher(now, 0, Looking)], loop := s'.loop)
    requires s'.loop.Dispatching? ==> s'.loop.d < |s'.dispatchers|
    ensures Inv(s')
  {
    SameLocks(s, s');
    StillLaunched(s, s');
  }

  /** The scheduler's thread moves on, or the stop flag changes. */
  lemma LoopMoveKeepsInv(s: System, s': System)
    requires Inv(s) && s'.dispatchers == s.dispatchers && s'.workers == s.workers
    requires |s'.jobs| == |s.jobs| && forall j :: 0 <= j < |s.jobs| ==> s'.jobs[j].locked == s.jobs[j].locked
    requires s'.loop.Dispatching? ==> s'.loop == s.loop
    ensures Inv(s')
  {
    SameLocks(s, s');
    StillLaunched(s, s');
  }

  lemma StepKeepsInv(s: System, a: Action)
    requires Inv(s)
    ensures Inv(Do(s, a))
  {
    match a
    case Look(d) => LookKeepsInv(s, d);
    case Mark(d) => MarkKeepsInv(s, d);
    case TryLock(d) => TryLockKeepsInv(s, d);
    case Record(d) => RecordKeepsInv(s, d);
    case Launch(d) => LaunchKeepsInv(s, d);
    case Release(w) => ReleaseKeepsInv(s, w);
    case Discard(w) => DiscardKeepsInv(s, w);
    case Enter(now) => EntryKeepsInv(s, now, Do(s, a));
    case LoopTop(now) =>
      if s.loop == Checking && !s.stopped {
        EntryKeepsInv(s, now, Do(s, a));
      } else {
        LoopMoveKeepsInv(s, Do(s, a));
      }
    case _ => LoopMoveKeepsInv(s, Do(s, a));
  }

  lemma {:induction false} Reachable(s: System, actions: seq<Action>)
    requires Inv(s)
    ensures Inv(DoAll(s, actions))
  {
    if actions != [] {
      Reachable(s, actions[..|actions| - 1]);
      StepKeepsInv(DoAll(s, actions[..|actions| - 1]), actions[|actions| - 1]);
    }
  }

  // ---- no overlap -------------------------------------------------------------------------

  /** A job's lock is held exactly when somebody has yet to release it, and that is one
      thread only; a worker's release never meets an unheld lock. */
  lemma LockHasOneHolder(start: System, actions: seq<Action>, j: nat)
    requires Initial(start) && j < |start.jobs|
    ensures var s := DoAll(start, actions);
            && j < |s.jobs|
            && (s.jobs[j].locked <==> Held(s, j))
            && (forall h, g :: Holds(s, h, j) && Holds(s, g, j) ==> h == g)
    ensures var s := DoAll(start, actions);
            forall w, v ::
              && 0 <= w < v < |s.workers| && s.workers[w].stage == Started && s.workers[v].stage == Started
              ==> s.workers[w].job != s.workers[v].job
    ensures var s := DoAll(start, actions);
            forall w :: 0 <= w < |s.workers| && s.workers[w].stage == Started ==>
                s.workers[w].job < |s.jobs| && s.jobs[s.workers[w].job].locked
  {
    Reachable(start, actions);
    SameJobs(start, actions);
    var s := DoAll(start, actions);
    forall w | 0 <= w < |s.workers| && s.workers[w].stage == Started
      ensures Holds(s, Run(w), s.workers[w].job)
    {
    }
  }

  lemma {:induction false} SameJobs(s: System, actions: seq<Action>)
    ensures |DoAll(s, actions).jobs| == |s.jobs|
  {
    if actions != [] {
      SameJobs(s, actions[..|actions| - 1]);
    }
  }

  // ---- a pass nobody interrupts -----------------------------------------------------------

  function Workers(started: seq<nat>): (r: seq<Worker>)
    ensures |r| == |started|
  {
    seq(|started|, i requires 0 <= i < |started| => Worker(started[i], Started))
  }

  /** `s'` is `s` after dispatcher `d` dealt with one job. */
  ghost predicate JobDone(s: System, d: nat, s': System, started: seq<nat>)
    requires At(s, d, Looking)
  {
    var x := s.dispatchers[d];
    && started == (if Starts(s.jobs[x.at], x.now) then [x.at] else [])
    && s' == s.(jobs := s.jobs[x.at := Dispatched(s.jobs[x.at], x.now)],
                dispatchers := s.dispatchers[d := NextJob(x)],
                workers := s.workers + Workers(started))
  }

  /** From the lock on: record a worker and start it. */
  lemma WorkerStarted(s: System, d: nat) returns (actions: seq<Action>)
    requires At(s, d, Holding)
    ensures var x := s.dispatchers[d];
            DoAll(s, actions) ==
            s.(dispatchers := s.dispatchers[d := NextJob(x)], workers := s.workers + Workers([x.at]))
  {
    var s1 := DoRecord(s, d);
    var s2 := DoLaunch(s1, d);
    actions := [Record(d)] + [Launch(d)];
    DoAllFirst(s, Record(d), [Launch(d)]);
    OneStep(s1, Launch(d));
    assert s2.workers == s.workers + Workers([s.dispatchers[d].at]);
    assert s2.dispatchers == s.dispatchers[d := NextJob(s.dispatchers[d])];
  }

  lemma DueJobMarked(s: System, d: nat) returns (actions: seq<Action>)
    requires At(s, d, Looking) && Due(s.jobs[s.dispatchers[d].at], s.dispatchers[d].now)
    ensures var x := s.dispatchers[d];
            DoAll(s, actions) ==
            s.(jobs := s.jobs[x.at := Marked(s.jobs[x.at], x.now)],
               dispatchers := s.dispatchers[d := x.(phase := PutOff)])
  {
    var s1 := DoLook(s, d);
    actions := [Look(d)] + [Mark(d)];
    DoAllFirst(s, Look(d), [Mark(d)]);
    OneStep(s1, Mark(d));
    assert DoMark(s1, d).dispatchers == s.dispatchers[d := s.dispatchers[d].(phase := PutOff)];
  }

  /** A job that is not due, or whose lock somebody holds. */
  lemma JobPassedOver(s: System, d: nat) returns (actions: seq<Action>)
    requires At(s, d, Looking) && !Starts(s.jobs[s.dispatchers[d].at], s.dispatchers[d].now)
    ensures JobDone(s, d, DoAll(s, actions), [])
  {
    var x := s.dispatchers[d];
    assert s.workers + Workers([]) == s.workers;
    if !Due(s.jobs[x.at], x.now) {
      actions := [Look(d)];
      OneStep(s, Look(d));
      assert s.jobs[x.at := s.jobs[x.at]] == s.jobs;
    } else {
      var marking := DueJobMarked(s, d);
      var s1 := DoAll(s, marking);
      OneStep(s1, TryLock(d));
      DoAllJoin(s, marking, [TryLock(d)]);
      actions := marking + [TryLock(d)];
      assert DoTryLock(s1, d).dispatchers == s.dispatchers[d := NextJob(x)];
    }
  }

  /** A due job with a free lock, up to the point where the dispatcher holds it. */
  lemma FreeJobLocked(s: System, d: nat) returns (actions: seq<Action>)
    requires At(s, d, Looking) && Starts(s.jobs[s.dispatchers[d].at], s.dispatchers[d].now)
    ensures var x := s.dispatchers[d];
            DoAll(s, actions) ==
            s.(jobs := s.jobs[x.at := Dispatched(s.jobs[x.at], x.now)],
               dispatchers := s.dispatchers[d := x.(phase := Holding)])
  {
    var x := s.dispatchers[d];
    var marking := DueJobMarked(s, d);
    var s1 := DoAll(s, marking);
    OneStep(s1, TryLock(d));
    DoAllJoin(s, marking, [TryLock(d)]);
    actions := marking + [TryLock(d)];
    assert DoTryLock(s1, d).jobs == s.jobs[x.at := Dispatched(s.jobs[x.at], x.now)];
    assert DoTryLock(s1, d).dispatchers == s.dispatchers[d := x.(phase := Holding)];
  }

  /** The steps of dispatcher `d` on one job do to it what `Dispatched` says. */
  lemma JobAlone(s: System, d: nat) returns (actions: seq<Action>, started: seq<nat>)
    requires At(s, d, Looking)
    ensures JobDone(s, d, DoAll(s, actions), started)
  {
    var x := s.dispatchers[d];
    if !Starts(s.jobs[x.at], x.now) {
      started := [];
      actions := JobPassedOver(s, d);
    } else {
      started := [x.at];
      var locking := FreeJobLocked(s, d);
      var s1 := DoAll(s, locking);
      var starting := WorkerStarted(s1, d);
      DoAllJoin(s, locking, starting);
      actions := locking + starting;
      assert s1.dispatchers[d := NextJob(x)] == s.dispatchers[d := NextJob(x)];
    }
  }

  /** `s'` is `s` after dispatcher `d` dealt with all its remaining jobs. */
  ghost predicate RestDone(s: System, d: nat, s': System, started: seq<nat>)
    requires d < |s.dispatchers|
  {
    var x := s.dispatchers[d];
    && PassDone(s', d) && |s'.jobs| == |s.jobs| && s'.workers == s.workers + Workers(started)
    && (forall k :: 0 <= k < |s.jobs| ==>
          s'.jobs[k] == if k < x.at then s.jobs[k] else Dispatched(s.jobs[k], x.now))
    && (forall i, j :: 0 <= i < j < |started| ==> started[i] < started[j])
    && (forall k: nat :: k in started <==> x.at <= k < |s.jobs| && Starts(s.jobs[k], x.now))
  }

  lemma JobThenRest(s: System, d: nat, s1: System, here: seq<nat>, s': System, later: seq<nat>)
    requires At(s, d, Looking) && JobDone(s, d, s1, here) && d < |s1.dispatchers| && RestDone(s1, d, s', later)
    ensures RestDone(s, d, s', here + later)
  {
    assert Workers(here + later) == Workers(here) + Workers(later);
    assert forall i :: 0 <= i < |later| ==> later[i] in later;
  }

  /** The steps of a whole pass, uninterrupted, do what the dispatching method is proved to do. */
  lemma {:induction false} PassAlone(s: System, d: nat) returns (actions: seq<Action>, started: seq<nat>)
    requires d < |s.dispatchers| && s.dispatchers[d].phase == Looking && s.dispatchers[d].at <= |s.jobs|
    ensures RestDone(s, d, DoAll(s, actions), started)
    decreases |s.jobs| - s.dispatchers[d].at
  {
    if s.dispatchers[d].at == |s.jobs| {
      actions, started := [], [];
    } else {
      var first, here := JobAlone(s, d);
      var rest, later := PassAlone(DoAll(s, first), d);
      actions, started := first + rest, here + later;
      DoAllJoin(s, first, rest);
      JobThenRest(s, d, DoAll(s, first), here, DoAll(s, actions), later);
    }
  }
}
