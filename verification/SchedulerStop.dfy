/** What a True answer of the scheduler's `stop` is worth. */
module SchedulerStop {
  import opened IntervalScheduler
  import opened SchedulerThreads

  /** The worker set is empty. */
  ghost predicate Idle(s: System) {
    forall w :: 0 <= w < |s.workers| ==> s.workers[w].stage == Gone
  }

  /** Nobody but the scheduler's own thread is inside the dispatch loop. */
  ghost predicate Alone(s: System) {
    forall d :: 0 <= d < |s.dispatchers| ==> s.loop == Dispatching(d) || PassDone(s, d)
  }

  /** Nobody else dispatches and the scheduler is not started again. */
  ghost predicate NoEntry(actions: seq<Action>) {
    forall i :: 0 <= i < |actions| ==> !actions[i].Enter? && !actions[i].StartThread?
  }

  /** The pass under way has a job that it is going to start a worker for. */
  ghost predicate MayStill(s: System) {
    && s.loop.Dispatching? && s.loop.d < |s.dispatchers|
    && var x := s.dispatchers[s.loop.d];
       if x.phase == Looking then exists k :: x.at <= k < |s.jobs| && Due(s.jobs[k], x.now) else x.at < |s.jobs|
  }

  ghost predicate Stopping(s: System) {
    Inv(s) && s.stopped && Alone(s)
  }

  // ---- nothing more comes ------------------------------------------------------------------

  predicate OfDispatcher(a: Action) {
    a.Look? || a.Mark? || a.TryLock? || a.Record? || a.Launch?
  }

  /** Threads that have left the dispatch loop do nothing more. */
  lemma OthersAreDone(s: System, a: Action)
    requires Stopping(s) && OfDispatcher(a) && s.loop != Dispatching(a.d)
    ensures Do(s, a) == s
  {
    if a.d < |s.dispatchers| {
      assert PassDone(s, a.d);
    }
  }

  /** A pass with nothing more to start goes through its remaining jobs. */
  lemma PassDwindles(s: System, a: Action)
    requires Stopping(s) && !MayStill(s) && OfDispatcher(a) && s.loop == Dispatching(a.d)
    ensures var s' := Do(s, a);
            Alone(s') && !MayStill(s') && s'.stopped && s'.workers == s.workers
  {
    assert s.dispatchers[a.d].phase == Looking;
  }

  lemma QuietStep(s: System, a: Action)
    requires Stopping(s) && Idle(s) && !MayStill(s) && !a.Enter? && !a.StartThread?
    ensures Stopping(Do(s, a)) && Idle(Do(s, a)) && !MayStill(Do(s, a)) && Do(s, a).workers == s.workers
  {
    StepKeepsInv(s, a);
    if OfDispatcher(a) {
      if s.loop == Dispatching(a.d) {
        PassDwindles(s, a);
      } else {
        OthersAreDone(s, a);
      }
    }
  }

  lemma {:induction false} QuietRun(s: System, actions: seq<Action>)
    requires Stopping(s) && Idle(s) && !MayStill(s) && NoEntry(actions)
    ensures var s' := DoAll(s, actions);
            Stopping(s') && Idle(s') && !MayStill(s') && s'.workers == s.workers
  {
    if actions != [] {
      QuietRun(s, actions[..|actions| - 1]);
      QuietStep(DoAll(s, actions[..|actions| - 1]), actions[|actions| - 1]);
    }
  }

  lemma JoinedStep(s: System, a: Action)
    requires Stopping(s) && s.loop == Off && !a.Enter? && !a.StartThread?
    ensures Stopping(Do(s, a)) && Do(s, a).loop == Off && |Do(s, a).workers| == |s.workers|
  {
    StepKeepsInv(s, a);
    if OfDispatcher(a) {
      OthersAreDone(s, a);
    }
  }

  /** Once the scheduler's thread has ended, no worker is added. */
  lemma {:induction false} JoinedRun(s: System, actions: seq<Action>)
    requires Stopping(s) && s.loop == Off && NoEntry(actions)
    ensures var s' := DoAll(s, actions);
            Stopping(s') && s'.loop == Off && |s'.workers| == |s.workers|
  {
    if actions != [] {
      JoinedRun(s, actions[..|actions| - 1]);
      JoinedStep(DoAll(s, actions[..|actions| - 1]), actions[|actions| - 1]);
    }
  }

  /** With no thread in the dispatch loop, every worker in the set has been started. */
  lemma NoneLeftUnstarted(s: System)
    requires Stopping(s) && s.loop == Off
    ensures forall w :: 0 <= w < |s.workers| ==> s.workers[w].stage != Added
  {
    forall d | 0 <= d < |s.dispatchers|
      ensures s.dispatchers[d].phase == Looking
    {
      assert PassDone(s, d);
    }
    assert forall w :: 0 <= w < |s.workers| ==> !Launched(s, w);
  }

  lemma InitialInv(s: System)
    requires Initial(s)
    ensures Inv(s)
  {
  }

  /** `stop` after a join that succeeded: every worker the idle check waits for has been
      started, and once the check has found none there never is one again. */
  lemma JoinedStopIsFinal(start: System, before: seq<Action>, between: seq<Action>, after: seq<Action>)
    requires Initial(start) && NoEntry(between) && NoEntry(after)
    requires var joined := DoAll(start, before); joined.stopped && joined.loop == Off && Alone(joined)
    ensures var checked := DoAll(DoAll(start, before), between);
            && (forall w :: 0 <= w < |checked.workers| ==> checked.workers[w].stage != Added)
            && (Idle(checked) ==> Idle(DoAll(checked, after)) && DoAll(checked, after).workers == checked.workers)
  {
    InitialInv(start);
    Reachable(start, before);
    JoinedRun(DoAll(start, before), between);
    var checked := DoAll(DoAll(start, before), between);
    NoneLeftUnstarted(checked);
    if Idle(checked) {
      QuietRun(checked, after);
    }
  }

  // ---- and when something may -----------------------------------------------------------

  function NextAction(s: System, d: nat): Action
    requires d < |s.dispatchers|
  {
    match s.dispatchers[d].phase
    case Looking => Look(d)
    case Found => Mark(d)
    case PutOff => TryLock(d)
    case Holding => SchedulerThreads.Record(d)
    case Recorded(_) => Launch(d)
  }

  function Left(s: System, d: nat): nat
    requires d < |s.dispatchers|
  {
    var x := s.dispatchers[d];
    if x.at >= |s.jobs| then 0
    else 5 * (|s.jobs| - x.at) - (match x.phase
                                  case Looking => 0
                                  case Found => 1
                                  case PutOff => 2
                                  case Holding => 3
                                  case Recorded(_) => 4)
  }

  /** An idle scheduler's only lock is the one its dispatcher holds. */
  lemma IdleIsUnlocked(s: System, d: nat)
    requires Stopping(s) && Idle(s) && s.loop == Dispatching(d) && At(s, d, PutOff)
    ensures !s.jobs[s.dispatchers[d].at].locked
  {
    forall e | 0 <= e < |s.dispatchers| && e != d
      ensures s.dispatchers[e].phase == Looking
    {
      assert PassDone(s, e);
    }
    assert !Held(s, s.dispatchers[d].at);
  }

  /** One more step of the pass: it still ends with a worker in the set. */
  lemma PassStep(s: System, d: nat)
    requires Stopping(s) && s.loop == Dispatching(d) && d < |s.dispatchers| && s.dispatchers[d].at < |s.jobs|
    requires Idle(s) ==> MayStill(s)
    ensures var s' := Do(s, NextAction(s, d));
            && Stopping(s') && s'.loop == s.loop && d < |s'.dispatchers| && Left(s', d) < Left(s, d)
            && (Idle(s') ==> MayStill(s'))
  {
    var s' := Do(s, NextAction(s, d));
    StepKeepsInv(s, NextAction(s, d));
    if Idle(s) {
      if s.dispatchers[d].phase == PutOff {
        IdleIsUnlocked(s, d);
      } else if s.dispatchers[d].phase == Holding {
        assert s'.workers[|s.workers|].stage == Added;
      }
    } else {
      var w :| 0 <= w < |s.workers| && s.workers[w].stage != Gone;
      assert s'.workers[w].stage != Gone;
    }
  }

  /** The pass runs to its end and the thread leaves its loop. */
  lemma {:induction false} PassRuns(s: System, d: nat) returns (actions: seq<Action>)
    requires Stopping(s) && s.loop == Dispatching(d) && d < |s.dispatchers|
    requires Idle(s) ==> MayStill(s)
    ensures NoEntry(actions) && DoAll(s, actions).loop == Off && !Idle(DoAll(s, actions))
    decreases Left(s, d)
  {
    if s.dispatchers[d].at < |s.jobs| {
      var a := NextAction(s, d);
      PassStep(s, d);
      var rest := PassRuns(Do(s, a), d);
      actions := [a] + rest;
      DoAllFirst(s, a, rest);
    } else {
      var s1 := Do(s, LoopEnd);
      var s2 := Do(s1, Wake);
      actions := [LoopEnd] + ([Wake] + [LoopTop(0.0)]);
      DoAllFirst(s, LoopEnd, [Wake] + [LoopTop(0.0)]);
      DoAllFirst(s1, Wake, [LoopTop(0.0)]);
      OneStep(s2, LoopTop(0.0));
    }
  }

  /** An empty worker set found while stopping is final if and only if the pass under way,
      if there is one, has no further job to start; otherwise `stop` may answer True (the
      thread has ended by the time it is asked) with a worker running. */
  lemma IdleIsFinalIff(s: System)
    requires Stopping(s) && Idle(s)
    ensures !MayStill(s) <==> forall actions :: NoEntry(actions) ==> Idle(DoAll(s, actions))
    ensures MayStill(s) ==> exists actions ::
                NoEntry(actions) && DoAll(s, actions).loop == Off && !Idle(DoAll(s, actions))
  {
    if MayStill(s) {
      var actions := PassRuns(s, s.loop.d);
      assert NoEntry(actions) && !Idle(DoAll(s, actions));
    } else {
      forall actions | NoEntry(actions)
        ensures Idle(DoAll(s, actions))
      {
        QuietRun(s, actions);
      }
    }
  }

  function OneJob(): System {
    System([Job("network", 60.0, 0.0, 0.0, false)], [], [], false, Off)
  }

  /** The race is reachable: `stop` comes while the first pass holds its first job's lock. */
  lemma StopCanMissAWorker() returns (actions: seq<Action>)
    ensures Initial(OneJob())
    ensures var s := DoAll(OneJob(), actions); Stopping(s) && Idle(s) && MayStill(s)
  {
    var job := OneJob().jobs[0];
    var s3 := System([job], [Dispatcher(0.0, 0, Looking)], [], false, Dispatching(0));
    var boot := FirstPassBegins();
    var pass := FirstPassLocks(s3);
    actions := boot + pass;
    DoAllJoin(OneJob(), boot, pass);
    InitialInv(OneJob());
    Reachable(OneJob(), actions);
  }

  lemma FirstPassBegins() returns (actions: seq<Action>)
    ensures DoAll(OneJob(), actions) == System(OneJob().jobs, [Dispatcher(0.0, 0, Looking)], [], false, Dispatching(0))
  {
    var s0 := OneJob();
    var s1 := s0.(loop := Booting);
    var s2 := s0.(loop := Checking);
    assert Do(s1, Boot(0.0)).jobs == s2.jobs;
    actions := [StartThread] + ([Boot(0.0)] + [LoopTop(0.0)]);
    DoAllFirst(s0, StartThread, [Boot(0.0)] + [LoopTop(0.0)]);
    DoAllFirst(s1, Boot(0.0), [LoopTop(0.0)]);
    OneStep(s2, LoopTop(0.0));
  }

  lemma FirstPassLocks(s: System) returns (actions: seq<Action>)
    requires s == System(OneJob().jobs, [Dispatcher(0.0, 0, Looking)], [], false, Dispatching(0))
    ensures var job := OneJob().jobs[0].(nextRun := 60.0, locked := true);
            DoAll(s, actions) == System([job], [Dispatcher(0.0, 0, Holding)], [], true, Dispatching(0))
  {
    var s1 := s.(dispatchers := [Dispatcher(0.0, 0, Found)]);
    var s2 := s.(dispatchers := [Dispatcher(0.0, 0, PutOff)], jobs := [s.jobs[0].(nextRun := 60.0)]);
    var s3 := s.(dispatchers := [Dispatcher(0.0, 0, Holding)], jobs := [s2.jobs[0].(locked := true)]);
    assert Do(s, Look(0)) == s1 && Do(s1, Mark(0)) == s2 && Do(s2, TryLock(0)) == s3;
    actions := [Look(0)] + ([Mark(0)] + ([TryLock(0)] + [SetStop]));
    DoAllFirst(s, Look(0), [Mark(0)] + ([TryLock(0)] + [SetStop]));
    DoAllFirst(s1, Mark(0), [TryLock(0)] + [SetStop]);
    DoAllFirst(s2, TryLock(0), [SetStop]);
    OneStep(s3, SetStop);
  }
}
