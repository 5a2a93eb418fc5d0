/** Debounced reachability and monitoring payload of one device, poll by poll. */
module DevicePolling {
  import opened Common

  type Values = map<string, real>

  /** One poll: did the device answer, what it reported, and when. */
  datatype Poll = Poll(online: bool, values: Values, ts: int)

  datatype State = State(
    online: bool, confirmed: bool, miss: nat, values: Values, ts: int, since: int,
    reachabilityCheckedAt: Option<int>, sourceCheckedAt: Option<int>)

  /** Consecutive misses before a device counts as offline, and whether its driver only
      checks availability. */
  datatype Config = Config(offlineAfter: nat, availabilityOnly: bool)

  datatype Transition = WentOnline | WentOffline

  // ---- one poll -----------------------------------------------------------------------------

  function NextMiss(prev: Option<State>, p: Poll): nat {
    if p.online then 0 else (if prev.Some? then prev.value.miss else 0) + 1
  }

  function NextConfirmed(prev: Option<State>, p: Poll, cfg: Config): bool {
    if p.online then true
    else if NextMiss(prev, p) >= cfg.offlineAfter then false
    else if prev.None? then true
    else prev.value.confirmed
  }

  function Report(prev: Option<State>, p: Poll, cfg: Config): Option<Transition> {
    if prev.None? || prev.value.confirmed == NextConfirmed(prev, p, cfg) then None
    else Some(if NextConfirmed(prev, p, cfg) then WentOnline else WentOffline)
  }

  function NextSource(prev: Option<State>, p: Poll, cfg: Config): Option<int> {
    if p.online && !cfg.availabilityOnly then Some(p.ts)
    else if prev.None? then None
    else if prev.value.sourceCheckedAt.None? && prev.value.online && prev.value.ts != 0 then Some(prev.value.ts)
    else prev.value.sourceCheckedAt
  }

  function Next(prev: Option<State>, p: Poll, cfg: Config): State {
    State(
      p.online, NextConfirmed(prev, p, cfg), NextMiss(prev, p),
      if p.online && !cfg.availabilityOnly then p.values else if prev.Some? then prev.value.values else map[],
      p.ts,
      if Report(prev, p, cfg).Some? then p.ts
      else if prev.Some? && prev.value.since != 0 then prev.value.since
      else p.ts,
      if cfg.availabilityOnly && p.online then Some(p.ts)
      else if prev.Some? then prev.value.reachabilityCheckedAt
      else None,
      NextSource(prev, p, cfg))
  }

  /** A device record whose state each poll replaces. */
  class Device {
    var state: Option<State>

    method ApplyRecord(p: Poll, cfg: Config) returns (transition: Option<Transition>)
      modifies this
      ensures state == Some(Next(old(state), p, cfg))
      ensures transition == Report(old(state), p, cfg)
    {
      var prev := state;
      var miss := if p.online then 0 else (if prev.Some? then prev.value.miss else 0) + 1;
      var confirmed := true;
      if !p.online {
        if miss >= cfg.offlineAfter {
          confirmed := false;
        } else if prev.Some? {
          confirmed := prev.value.confirmed;
        }
      }
      var since := if prev.Some? && prev.value.since != 0 then prev.value.since else p.ts;
      transition := None;
      if prev.Some? && prev.value.confirmed != confirmed {
        since := p.ts;
        transition := Some(if confirmed then WentOnline else WentOffline);
      }
      var values, source := p.values, Some(p.ts);
      if !p.online || cfg.availabilityOnly {
        values := if prev.Some? then prev.value.values else map[];
        source := if prev.Some? then prev.value.sourceCheckedAt else None;
        if source.None? && prev.Some? && prev.value.online && prev.value.ts != 0 {
          source := Some(prev.value.ts);
        }
      }
      var reachable := if prev.Some? then prev.value.reachabilityCheckedAt else None;
      if cfg.availabilityOnly && p.online {
        reachable := Some(p.ts);
      }
      state := Some(State(p.online, confirmed, miss, values, p.ts, since, reachable, source));
    }
  }

  // ---- any sequence of polls ------------------------------------------------------------------

  function Run(polls: seq<Poll>, cfg: Config): Option<State> {
    if polls == [] then None else Some(Next(Run(polls[..|polls| - 1], cfg), polls[|polls| - 1], cfg))
  }

  function Reports(polls: seq<Poll>, cfg: Config): seq<Transition> {
    if polls == [] then []
    else
      var before := Reports(polls[..|polls| - 1], cfg);
      var r := Report(Run(polls[..|polls| - 1], cfg), polls[|polls| - 1], cfg);
      if r.Some? then before + [r.value] else before
  }

  /** Length of the streak of failures at the end. */
  function Streak(polls: seq<Poll>): nat {
    if polls == [] || polls[|polls| - 1].online then 0 else Streak(polls[..|polls| - 1]) + 1
  }

  lemma {:induction false} StreakIsTrailing(polls: seq<Poll>)
    ensures Streak(polls) <= |polls|
    ensures forall i :: |polls| - Streak(polls) <= i < |polls| ==> !polls[i].online
    ensures Streak(polls) < |polls| ==> polls[|polls| - Streak(polls) - 1].online
  {
    if polls != [] && !polls[|polls| - 1].online {
      StreakIsTrailing(polls[..|polls| - 1]);
    }
  }

  /** A device counts as reachable until the streak of failures reaches the limit. */
  predicate Reachable(polls: seq<Poll>, cfg: Config) {
    Streak(polls) < cfg.offlineAfter
  }

  /** The poll that last changed the reachability, or the first one. */
  function LastFlip(polls: seq<Poll>, cfg: Config): (i: nat)
    requires polls != []
    ensures i < |polls|
  {
    var n := |polls| - 1;
    if n == 0 then 0
    else if Reachable(polls, cfg) != Reachable(polls[..n], cfg) then n
    else LastFlip(polls[..n], cfg)
  }

  /** The first time other than zero among the polls from `i` on: zero reads as "never". */
  function FirstTime(polls: seq<Poll>, i: nat): int
    requires i < |polls|
    decreases |polls| - i
  {
    if polls[i].ts != 0 || i == |polls| - 1 then polls[i].ts else FirstTime(polls, i + 1)
  }

  lemma {:induction false} FirstTimeGrows(polls: seq<Poll>, i: nat)
    requires i + 1 < |polls|
    ensures var before := FirstTime(polls[..|polls| - 1], i);
            FirstTime(polls, i) == if before != 0 then before else polls[|polls| - 1].ts
    decreases |polls| - i
  {
    if i + 2 < |polls| && polls[i].ts == 0 {
      FirstTimeGrows(polls, i + 1);
    }
  }

  /** The debounced state is a function of the failures alone: the miss count is the trailing
      streak, and the confirmed state says whether it is below the limit. */
  lemma {:induction false} DebounceIsStreak(polls: seq<Poll>, cfg: Config)
    requires polls != [] && cfg.offlineAfter > 0
    ensures Run(polls, cfg).value.miss == Streak(polls)
    ensures Run(polls, cfg).value.confirmed == Reachable(polls, cfg)
  {
    if |polls| > 1 {
      DebounceIsStreak(polls[..|polls| - 1], cfg);
    }
  }

  /** `since` is the time of the last change of the confirmed state, or of the first poll. */
  lemma {:induction false} SinceLastFlip(polls: seq<Poll>, cfg: Config)
    requires polls != [] && cfg.offlineAfter > 0
    ensures Run(polls, cfg).value.since == FirstTime(polls, LastFlip(polls, cfg))
  {
    if |polls| > 1 {
      var init := polls[..|polls| - 1];
      SinceLastFlip(init, cfg);
      DebounceIsStreak(init, cfg);
      DebounceIsStreak(polls, cfg);
      if Reachable(polls, cfg) == Reachable(init, cfg) {
        FirstTimeGrows(polls, LastFlip(init, cfg));
      }
    }
  }

  /** "Offline" is reported by exactly the poll that completes a streak of the limit, "online"
      by exactly the first answer after such a streak; a first poll reports nothing. */
  lemma ReportedIff(polls: seq<Poll>, cfg: Config)
    requires polls != [] && cfg.offlineAfter > 0
    ensures var (init, last) := (polls[..|polls| - 1], polls[|polls| - 1]);
            var r := Report(Run(init, cfg), last, cfg);
            && (r == Some(WentOffline) <==> init != [] && Streak(polls) == cfg.offlineAfter)
            && (r == Some(WentOnline) <==> last.online && Streak(init) >= cfg.offlineAfter)
  {
    if |polls| > 1 {
      DebounceIsStreak(polls[..|polls| - 1], cfg);
    }
  }

  /** Reports alternate, and the last one names the confirmed state. */
  lemma {:induction false} ReportsAlternate(polls: seq<Poll>, cfg: Config)
    ensures var reports := Reports(polls, cfg);
            && (forall i :: 1 <= i < |reports| ==> reports[i] != reports[i - 1])
            && (reports != [] ==>
                  polls != [] && Run(polls, cfg).value.confirmed == (reports[|reports| - 1] == WentOnline))
  {
    if polls != [] {
      ReportsAlternate(polls[..|polls| - 1], cfg);
    }
  }

  /** The last poll that was answered, if any was. */
  function LastAnswer(polls: seq<Poll>): Option<Poll> {
    if polls == [] then None
    else if polls[|polls| - 1].online then Some(polls[|polls| - 1])
    else LastAnswer(polls[..|polls| - 1])
  }

  /** The first answered poll that has a time. */
  function FirstAnswer(polls: seq<Poll>): Option<Poll> {
    if polls == [] then None
    else if FirstAnswer(polls[..|polls| - 1]).Some? then FirstAnswer(polls[..|polls| - 1])
    else if polls[|polls| - 1].online && polls[|polls| - 1].ts != 0 then Some(polls[|polls| - 1])
    else None
  }

  /** With a monitoring driver, failures never lose the last payload or its age. */
  lemma {:induction false} PayloadIsLastAnswer(polls: seq<Poll>, cfg: Config)
    requires polls != [] && !cfg.availabilityOnly
    ensures var s := Run(polls, cfg).value;
            match LastAnswer(polls)
            case Some(p) => s.values == p.values && s.sourceCheckedAt == Some(p.ts)
            case None => s.values == map[] && s.sourceCheckedAt == None && !s.online
  {
    if |polls| > 1 {
      PayloadIsLastAnswer(polls[..|polls| - 1], cfg);
    }
  }

  /** With an availability-only driver there never is a payload.  An age is recorded for it all
      the same, if and only if some poll before the last was answered: that of the first answer. */
  lemma {:induction false} AvailabilityHasNoPayload(polls: seq<Poll>, cfg: Config)
    requires polls != [] && cfg.availabilityOnly
    ensures var s := Run(polls, cfg).value;
            && s.values == map[]
            && s.reachabilityCheckedAt == (if LastAnswer(polls).Some? then Some(LastAnswer(polls).value.ts) else None)
            && s.sourceCheckedAt == (var first := FirstAnswer(polls[..|polls| - 1]);
                                     if first.Some? then Some(first.value.ts) else None)
  {
    if |polls| > 1 {
      var init := polls[..|polls| - 1];
      AvailabilityHasNoPayload(init, cfg);
    }
  }
}
