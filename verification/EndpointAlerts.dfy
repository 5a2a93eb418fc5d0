/** Debounced endpoint alerts: a condition is reported once per streak of observations. */
module EndpointAlerts {

  datatype Alert = Alert(count: nat, sent: bool)

  type Alerts = map<string, Alert>

  function Seen(alerts: Alerts, name: string): Alert {
    if name in alerts then alerts[name] else Alert(0, false)
  }

  /** The alert state after one observation: absent conditions are forgotten. */
  function Observe(alerts: Alerts, conditions: set<string>): Alerts {
    map name | name in conditions ::
      var count := Seen(alerts, name).count + 1;
      Alert(count, Seen(alerts, name).sent || count >= 2)
  }

  /** The conditions reported by one observation. */
  function Emitted(alerts: Alerts, conditions: set<string>): set<string> {
    set name | name in conditions && Seen(alerts, name).count + 1 >= 2 && !Seen(alerts, name).sent
  }

  class AlertState {
    var alerts: Alerts

    /** `_update_alert_state`: the state is updated in place, name by name. */
    method Update(conditions: seq<string>) returns (emitted: seq<string>)
      modifies this
      ensures var observed := set c | c in conditions;
              && alerts == Observe(old(alerts), observed)
              && (set e | e in emitted) == Emitted(old(alerts), observed)
      ensures forall i, j :: 0 <= i < j < |emitted| ==> emitted[i] != emitted[j]
    {
      emitted := [];
      var pending := alerts.Keys + set c | c in conditions;
      while pending != {}
        invariant pending <= old(alerts).Keys + set c | c in conditions
        invariant forall name :: name in pending ==> (name in alerts <==> name in old(alerts))
        invariant forall name :: name in pending && name in alerts ==> alerts[name] == old(alerts)[name]
        invariant forall name :: name !in pending ==> (name in alerts <==> name in conditions)
        invariant forall name :: name !in pending && name in conditions ==>
                    alerts[name] == Observe(old(alerts), set c | c in conditions)[name]
        invariant forall e :: e in emitted <==> e in Emitted(old(alerts), set c | c in conditions) && e !in pending
        invariant forall i, j :: 0 <= i < j < |emitted| ==> emitted[i] != emitted[j]
        decreases pending
      {
        var name :| name in pending;
        var item := Seen(alerts, name);
        if name in conditions {
          item := item.(count := item.count + 1);
          if item.count >= 2 && !item.sent {
            item := item.(sent := true);
            emitted := emitted + [name];
          }
          alerts := alerts[name := item];
        } else {
          alerts := alerts - {name};
        }
        pending := pending - {name};
      }
    }
  }

  // ---- whole runs -----------------------------------------------------------------

  type Observations = seq<set<string>>

  function Run(obs: Observations): Alerts {
    if obs == [] then map[] else Observe(Run(obs[..|obs| - 1]), obs[|obs| - 1])
  }

  /** How many observations in a row, up to the last, had the condition. */
  function Trailing(obs: Observations, name: string): nat {
    if obs == [] || name !in obs[|obs| - 1] then 0 else 1 + Trailing(obs[..|obs| - 1], name)
  }

  lemma {:induction false} StateIsStreaks(obs: Observations, name: string)
    ensures name in Run(obs) <==> Trailing(obs, name) > 0
    ensures name in Run(obs) ==> Run(obs)[name] == Alert(Trailing(obs, name), Trailing(obs, name) >= 2)
  {
    if obs != [] {
      StateIsStreaks(obs[..|obs| - 1], name);
    }
  }

  /** Over any run a condition is reported exactly at the second observation of its streak. */
  lemma ReportedAtTheSecond(obs: Observations, conditions: set<string>, name: string)
    ensures name in Emitted(Run(obs), conditions) <==> Trailing(obs + [conditions], name) == 2
  {
    assert (obs + [conditions])[..|obs|] == obs;
    StateIsStreaks(obs, name);
  }

  function Reports(obs: Observations, name: string): nat {
    if obs == [] then 0
    else
      var init := obs[..|obs| - 1];
      Reports(init, name) + if name in Emitted(Run(init), obs[|obs| - 1]) then 1 else 0
  }

  /** Observations `i` up to but not including `j` are a longest streak of the condition. */
  predicate MaximalStreak(obs: Observations, name: string, i: int, j: int) {
    && 0 <= i < j <= |obs|
    && (forall k :: i <= k < j ==> name in obs[k])
    && (i > 0 ==> name !in obs[i - 1])
    && (j < |obs| ==> name !in obs[j])
  }

  function LongStreaks(obs: Observations, name: string): set<(int, int)> {
    set i, j | 0 <= i < |obs| && 0 <= j <= |obs| && MaximalStreak(obs, name, i, j) && j - i >= 2 :: (i, j)
  }

  lemma {:induction false} TrailingStreak(obs: Observations, name: string)
    ensures Trailing(obs, name) <= |obs|
    ensures Trailing(obs, name) > 0 ==> MaximalStreak(obs, name, |obs| - Trailing(obs, name), |obs|)
    ensures forall i :: MaximalStreak(obs, name, i, |obs|) ==> i == |obs| - Trailing(obs, name)
    ensures Trailing(obs, name) == 0 && obs != [] ==> name !in obs[|obs| - 1]
  {
    if obs != [] && name in obs[|obs| - 1] {
      var init := obs[..|obs| - 1];
      TrailingStreak(init, name);
      forall i | MaximalStreak(obs, name, i, |obs|)
        ensures i == |obs| - Trailing(obs, name)
      {
        if i < |init| {
          assert MaximalStreak(init, name, i, |init|);
        } else if Trailing(init, name) > 0 {
          assert name in init[|init| - 1];
        }
      }
    }
  }

  lemma StreaksAfterOne(obs: Observations, conditions: set<string>, name: string, i: int, j: int)
    ensures var now := obs + [conditions];
            MaximalStreak(now, name, i, j) <==>
            if j <= |obs| then MaximalStreak(obs, name, i, j) && !(j == |obs| && name in conditions)
            else j == |now| && name in conditions && i == |now| - Trailing(now, name)
  {
    var now := obs + [conditions];
    assert now[..|obs|] == obs;
    TrailingStreak(now, name);
  }

  /** The long streaks after one more observation, pair by pair. */
  lemma LongStreakAfterOne(obs: Observations, conditions: set<string>, name: string, pair: (int, int))
    ensures var now := obs + [conditions];
            pair in LongStreaks(now, name) <==>
            if pair.1 == |now| then
              name in conditions && Trailing(now, name) >= 2 && pair.0 == |now| - Trailing(now, name)
            else pair in LongStreaks(obs, name) && !(pair.1 == |obs| && name in conditions)
  {
    var now := obs + [conditions];
    StreaksAfterOne(obs, conditions, name, pair.0, pair.1);
    TrailingStreak(now, name);
  }

  lemma OpenStreak(obs: Observations, name: string, pair: (int, int))
    requires pair.1 == |obs|
    ensures pair in LongStreaks(obs, name) <==> Trailing(obs, name) >= 2 && pair.0 == |obs| - Trailing(obs, name)
  {
    TrailingStreak(obs, name);
  }

  lemma LongStreaksGrow(obs: Observations, conditions: set<string>, name: string)
    ensures |LongStreaks(obs + [conditions], name)| ==
            |LongStreaks(obs, name)| + if Trailing(obs + [conditions], name) == 2 then 1 else 0
  {
    var now := obs + [conditions];
    assert now[..|obs|] == obs;
    var before, after := LongStreaks(obs, name), LongStreaks(now, name);
    var t := Trailing(obs, name);
    var ended, grown := (|obs| - t, |obs|), (|obs| - t, |now|);
    forall pair: (int, int)
      ensures pair in after <==>
              if name in conditions && t >= 1 then pair == grown || (pair in before && pair != ended)
              else pair in before
    {
      LongStreakAfterOne(obs, conditions, name, pair);
      if pair.1 == |obs| {
        OpenStreak(obs, name, pair);
      }
    }
    OpenStreak(obs, name, ended);
    if name in conditions && t >= 1 {
      assert grown !in before;
      assert after == before - {ended} + {grown};
    } else {
      assert after == before;
    }
  }

  /** The number of reports of a condition is its number of streaks of length two or more. */
  lemma {:induction false} ReportsCountLongStreaks(obs: Observations, name: string)
    ensures Reports(obs, name) == |LongStreaks(obs, name)|
  {
    if obs == [] {
      assert LongStreaks(obs, name) == {};
    } else {
      var init, last := obs[..|obs| - 1], obs[|obs| - 1];
      ReportsCountLongStreaks(init, name);
      ReportedAtTheSecond(init, last, name);
      LongStreaksGrow(init, last, name);
      assert obs == init + [last];
    }
  }
}
