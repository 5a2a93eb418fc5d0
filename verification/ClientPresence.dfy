/** What the roster promises over any sequence of scans and edits, from an empty roster. */
module ClientPresence {
  import opened Common
  import opened ClientRoster

  datatype Op =
    | Scanning(s: Scan)
    | Forget(macs: set<string>)
    | Ignore(mac: string, now: int)
    | SetMetadata(mac: string, notify: Option<bool>, now: int)

  ghost function Apply(t: Roster, op: Op, cfg: Config): Roster {
    match op
    case Scanning(s) => Step(t, s, cfg)
    case Forget(macs) => Forgotten(t, macs)
    case Ignore(mac, now) => Ignored(t, mac, now)
    case SetMetadata(mac, notify, now) => Described(t, mac, notify, now)
  }

  ghost function Run(t: Roster, ops: seq<Op>, cfg: Config): Roster {
    if ops == [] then t else Apply(Run(t, ops[..|ops| - 1], cfg), ops[|ops| - 1], cfg)
  }

  /** An edit leaves what the scans recorded of a client alone. */
  lemma EditsKeep(t: Roster, op: Op, cfg: Config, mac: string)
    requires !op.Scanning? && mac in Apply(t, op, cfg)
    ensures var r' := Apply(t, op, cfg)[mac];
            if mac in t then
              r'.events == t[mac].events && r'.online == t[mac].online && r'.lastSeen == t[mac].lastSeen
              && r'.nacApproved == t[mac].nacApproved
            else r'.events == [] && !r'.online && r'.lastSeen == Time(op, 0) && r'.nacApproved == None && !op.Forget?
  {
  }

  /** A scan tracks only clients that were tracked before or are found. */
  lemma StepMembers(t: Roster, s: Scan, cfg: Config, mac: string)
    requires mac in Step(t, s, cfg)
    ensures mac in t || mac in s.clients
    ensures Step(t, s, cfg)[mac] == Scanned(t, s, cfg, mac)
  {
  }

  // ---- presence and its event list -------------------------------------------------------------

  predicate PresenceOk(events: seq<Event>, online: bool) {
    && |events| <= EVENTS_MAX
    && (forall i :: 1 <= i < |events| ==> events[i].ev != events[i - 1].ev)
    && (online <==> events != [] && events[|events| - 1].ev == Up)
  }

  lemma TransitionKeepsPresence(events: seq<Event>, e: Event)
    requires PresenceOk(events, e.ev == Down)
    ensures PresenceOk(Logged(events, e), e.ev == Up)
  {
    var all := events + [e];
    assert forall i :: 1 <= i < |all| ==> all[i].ev != all[i - 1].ev;
  }

  lemma ScanKeepsPresence(t: Roster, s: Scan, cfg: Config, mac: string)
    requires mac in t ==> PresenceOk(t[mac].events, t[mac].online)
    requires mac in Step(t, s, cfg)
    ensures PresenceOk(Step(t, s, cfg)[mac].events, Step(t, s, cfg)[mac].online)
  {
    StepMembers(t, s, cfg, mac);
    var r := Base(t, mac, s.now);
    if mac in s.clients {
      FoundRecord(t, s, cfg, mac);
      if !r.online {
        TransitionKeepsPresence(r.events, Event(s.now, Up, Via(s.clients[mac].seen)));
      }
    } else {
      MissedRecord(t, s, cfg, mac);
      if GoesDown(r, s, cfg) {
        TransitionKeepsPresence(r.events, Event(s.now, Down, r.via));
      }
    }
  }

  /** Every record's events alternate, number at most fifty, and end in "up" exactly while
      the client is online. */
  lemma {:induction false} EventsTellPresence(ops: seq<Op>, cfg: Config, mac: string)
    requires mac in Run(map[], ops, cfg)
    ensures PresenceOk(Run(map[], ops, cfg)[mac].events, Run(map[], ops, cfg)[mac].online)
  {
    if ops != [] {
      var init, last := ops[..|ops| - 1], ops[|ops| - 1];
      var before := Run(map[], init, cfg);
      if mac in before {
        EventsTellPresence(init, cfg, mac);
      }
      if last.Scanning? {
        ScanKeepsPresence(before, last.s, cfg, mac);
      } else {
        EditsKeep(before, last, cfg, mac);
      }
    }
  }

  // ---- one scan, exactly ---------------------------------------------------------------------

  /** A client goes down in exactly the full scans that have negative evidence of it, comes up
      exactly when it is found, and its events grow by that transition alone. */
  lemma TransitionsAreExact(t: Roster, s: Scan, cfg: Config, mac: string)
    requires mac in t && mac in Step(t, s, cfg)
    ensures var (r, r') := (t[mac], Step(t, s, cfg)[mac]);
            && (!r.online && r'.online <==> !r.online && Found(s, mac))
            && (r.online && !r'.online <==> !Found(s, mac) && GoesDown(r, s, cfg))
            && (r.online == r'.online ==> r'.events == r.events)
            && (r.online != r'.online ==>
                  r'.events == Logged(r.events, if Found(s, mac) then Event(s.now, Up, Via(s.clients[mac].seen))
                                                else Event(s.now, Down, r.via)))
  {
    if Found(s, mac) {
      FoundRecord(t, s, cfg, mac);
    } else {
      MissedRecord(t, s, cfg, mac);
    }
  }

  /** A full scan keeps, of every client that stays tracked, all sightings by failed sources
      and the Wi-Fi kind they tell, and keeps online every client that one of them had seen. */
  lemma FailedSourcesProtect(t: Roster, s: Scan, cfg: Config, mac: string)
    requires mac in t
    ensures mac in Step(t, s, cfg) ==>
              var (r, r') := (t[mac], Step(t, s, cfg)[mac]);
              && (forall i :: 0 <= i < |r.seen| && r.seen[i].via in Failed(s) ==> Listed(r'.seen, r.seen[i]))
              && (WifiSeenBy(r, Failed(s)) && r.kind == Wifi ==> r'.kind == Wifi)
    ensures t[mac].online && SeenBy(t[mac], Failed(s)) ==>
              mac in Step(t, s, cfg) && Step(t, s, cfg)[mac].online && Step(t, s, cfg)[mac].events == t[mac].events
  {
    var r := t[mac];
    if Found(s, mac) {
      FoundRecord(t, s, cfg, mac);
      MergeIsExact(s.clients[mac].seen, r.seen, Failed(s), |r.seen|);
    } else {
      MissedRecord(t, s, cfg, mac);
      assert forall i :: 0 <= i < |r.seen| ==> Listed(r.seen, r.seen[i]);
    }
  }

  /** A partial scan neither takes a client down nor changes a known kind or known sightings. */
  lemma PartialScansOnlyAdd(t: Roster, s: Scan, cfg: Config, mac: string)
    requires !s.full && mac in t && mac in Step(t, s, cfg)
    ensures var (r, r') := (t[mac], Step(t, s, cfg)[mac]);
            && (r.online ==> r'.online)
            && (r.kind != NoKind ==> r'.kind == r.kind)
            && (r.seen != [] ==> r'.seen == r.seen)
  {
  }

  /** So through any number of partial scans a client that is online stays tracked and online,
      with the kind and the sightings that a full scan gave it. */
  lemma {:induction false} PartialScansKeepTopology(t: Roster, ops: seq<Op>, cfg: Config, mac: string)
    requires forall i :: 0 <= i < |ops| ==> ops[i].Scanning? && !ops[i].s.full
    requires mac in t && t[mac].online && t[mac].kind != NoKind && t[mac].seen != []
    ensures mac in Run(t, ops, cfg)
    ensures var r := Run(t, ops, cfg)[mac]; r.online && r.kind == t[mac].kind && r.seen == t[mac].seen
  {
    if ops != [] {
      var init, last := ops[..|ops| - 1], ops[|ops| - 1];
      PartialScansKeepTopology(t, init, cfg, mac);
      PrunedIff(Run(t, init, cfg), last.s, cfg, mac);
      PartialScansOnlyAdd(Run(t, init, cfg), last.s, cfg, mac);
    }
  }

  /** Retention drops exactly the clients that were not found, are offline once the scan has
      been settled, and were last seen before the cutoff. */
  lemma PrunedIff(t: Roster, s: Scan, cfg: Config, mac: string)
    requires mac in t
    ensures mac !in Step(t, s, cfg) <==>
            && !Found(s, mac) && (!t[mac].online || GoesDown(t[mac], s, cfg))
            && cfg.retentionDays > 0 && t[mac].lastSeen < s.now - cfg.retentionDays * DAY
  {
  }

  function Sweep(now: int, clients: map<string, Client>): Scan {
    Scan(now, clients, None, true, [])
  }

  /** A client that is online before a scan may be taken down and pruned by that same scan: it
      connected, and the next scan, half a year later, does not find it. */
  lemma OnlineClientPruned()
    ensures var cfg := Config(600, 180);
            var first, later := Sweep(0, map["m" := Client(NoKind, [])]), Sweep(181 * DAY, map[]);
            var t := Run(map[], [Scanning(first)], cfg);
            && "m" in t && t["m"].online
            && "m" !in Run(map[], [Scanning(first), Scanning(later)], cfg)
  {
    var cfg, first, later := Config(600, 180), Sweep(0, map["m" := Client(NoKind, [])]), Sweep(181 * DAY, map[]);
    var ops := [Scanning(first), Scanning(later)];
    var t := Step(map[], first, cfg);
    assert [Scanning(first)][..0] == [] && ops[..1] == [Scanning(first)];
    assert Run(map[], [Scanning(first)], cfg) == t;
    assert Run(map[], ops, cfg) == Step(t, later, cfg);
    FoundRecord(map[], first, cfg, "m");
    MissedRecord(t, later, cfg, "m");
    PrunedIff(t, later, cfg, "m");
  }

  // ---- approval ------------------------------------------------------------------------------

  /** The last allow-list that was known. */
  function LastKnown(ops: seq<Op>): Option<set<string>> {
    if ops == [] then None
    else
      var last := ops[|ops| - 1];
      if last.Scanning? && last.s.approved.Some? then last.s.approved else LastKnown(ops[..|ops| - 1])
  }

  /** A client is new exactly while it is missing from the known allow-list and was first seen
      less than a day ago; when it was first seen never changes while it is tracked. */
  lemma NewUntilADayOld(t: Roster, s: Scan, cfg: Config, mac: string)
    requires mac in Step(t, s, cfg)
    ensures var (r, r') := (Base(t, mac, s.now), Step(t, s, cfg)[mac]);
            && r'.firstSeen == r.firstSeen
            && r'.isNew == (if s.approved.None? then r.isNew
                            else mac !in s.approved.value && s.now - r.firstSeen < NEW_WINDOW)
  {
    StepMembers(t, s, cfg, mac);
    var r := Base(t, mac, s.now);
    if mac in s.clients {
      JudgedFields(Observed(r, mac, s.clients[mac], s), mac, s);
    } else {
      var away := GoneAway(r);
      assert away.firstSeen == r.firstSeen && away.isNew == r.isNew;
      JudgedFields(away, mac, s);
    }
  }

  lemma JudgedFields(r: Record, mac: string, s: Scan)
    ensures Judged(r, mac, s).firstSeen == r.firstSeen
    ensures s.approved.None? ==> Judged(r, mac, s) == r
    ensures s.approved.Some? ==>
              Judged(r, mac, s).isNew == (mac !in s.approved.value && s.now - r.firstSeen < NEW_WINDOW)
  {
  }

  ghost predicate KnowsList(ops: seq<Op>) {
    ops != [] && ops[|ops| - 1].Scanning? && ops[|ops| - 1].s.approved.Some?
  }

  /** No approval flag ever disagrees with the last known allow-list, and a scan that knows
      the list decides the flags of every tracked client: approved if on the list, new if not
      on it and first seen less than a day ago. */
  lemma {:induction false} ApprovalIsMembership(ops: seq<Op>, cfg: Config, mac: string)
    requires mac in Run(map[], ops, cfg)
    ensures var r := Run(map[], ops, cfg)[mac];
            && (r.nacApproved.Some? ==>
                  LastKnown(ops).Some? && r.nacApproved.value == (mac in LastKnown(ops).value))
            && (KnowsList(ops) ==>
                  && r.nacApproved.Some?
                  && (r.isNew <==> !r.nacApproved.value && ops[|ops| - 1].s.now - r.firstSeen < NEW_WINDOW))
  {
    if ops != [] {
      var init, last := ops[..|ops| - 1], ops[|ops| - 1];
      var before := Run(map[], init, cfg);
      if mac in before {
        ApprovalIsMembership(init, cfg, mac);
      }
      if !last.Scanning? {
        EditsKeep(before, last, cfg, mac);
      } else {
        StepMembers(before, last.s, cfg, mac);
        NewUntilADayOld(before, last.s, cfg, mac);
        if mac in last.s.clients {
          FoundRecord(before, last.s, cfg, mac);
        } else {
          MissedRecord(before, last.s, cfg, mac);
        }
      }
    }
  }

  // ---- timing --------------------------------------------------------------------------------

  function Time(op: Op, clock: int): int {
    match op
    case Scanning(s) => s.now
    case Forget(_) => clock
    case Ignore(_, now) => now
    case SetMetadata(_, _, now) => now
  }

  function Clock(ops: seq<Op>, start: int): int {
    if ops == [] then start else Time(ops[|ops| - 1], Clock(ops[..|ops| - 1], start))
  }

  /** The clock never runs backwards. */
  predicate Ordered(ops: seq<Op>, start: int) {
    ops == [] || (Ordered(ops[..|ops| - 1], start) && Clock(ops, start) >= Clock(ops[..|ops| - 1], start))
  }

  predicate TimesOk(events: seq<Event>, online: bool, lastSeen: int, clock: int, cfg: Config) {
    && lastSeen <= clock
    && (forall i :: 0 <= i < |events| ==> events[i].ts <= (if online then lastSeen else clock))
    && (forall i :: 1 <= i < |events| ==> events[i].ts >= events[i - 1].ts)
    && (forall i :: 1 <= i < |events| && events[i].ev == Down ==>
          events[i].ts >= events[i - 1].ts + cfg.offlineAfter)
  }

  lemma AppendedTimes(events: seq<Event>, e: Event, limit: int, cfg: Config)
    requires forall i :: 0 <= i < |events| ==> events[i].ts <= limit
    requires forall i :: 1 <= i < |events| ==> events[i].ts >= events[i - 1].ts
    requires forall i :: 1 <= i < |events| && events[i].ev == Down ==>
               events[i].ts >= events[i - 1].ts + cfg.offlineAfter
    requires limit <= e.ts && (e.ev == Down ==> limit + cfg.offlineAfter <= e.ts)
    ensures TimesOk(Logged(events, e), e.ev == Up, if e.ev == Up then e.ts else limit, e.ts, cfg)
  {
    var all := events + [e];
    assert forall i :: 0 <= i < |all| ==> all[i].ts <= e.ts;
    assert forall i :: 1 <= i < |all| ==> all[i].ts >= all[i - 1].ts;
    assert forall i :: 1 <= i < |all| && all[i].ev == Down ==> all[i].ts >= all[i - 1].ts + cfg.offlineAfter;
    SuffixTimes(all, EVENTS_MAX, e.ev == Up, if e.ev == Up then e.ts else limit, e.ts, cfg);
  }

  lemma SuffixTimes(events: seq<Event>, n: nat, online: bool, lastSeen: int, clock: int, cfg: Config)
    requires TimesOk(events, online, lastSeen, clock, cfg)
    ensures TimesOk(Suffix(events, n), online, lastSeen, clock, cfg)
  {
    var last := Suffix(events, n);
    var d := |events| - |last|;
    forall i | 0 <= i < |last|
      ensures last[i].ts <= (if online then lastSeen else clock)
      ensures i > 0 ==> last[i].ts >= last[i - 1].ts
      ensures i > 0 && last[i].ev == Down ==> last[i].ts >= last[i - 1].ts + cfg.offlineAfter
    {
      assert last[i] == events[d + i];
      if i > 0 {
        assert last[i - 1] == events[d + i - 1];
      }
    }
  }

  ghost predicate RecordTimesOk(t: Roster, mac: string, clock: int, cfg: Config) {
    mac in t ==> TimesOk(t[mac].events, t[mac].online, t[mac].lastSeen, clock, cfg)
  }

  lemma ScanKeepsTimes(t: Roster, s: Scan, cfg: Config, mac: string, clock: int)
    requires RecordTimesOk(t, mac, clock, cfg) && clock <= s.now && mac in Step(t, s, cfg)
    ensures RecordTimesOk(Step(t, s, cfg), mac, s.now, cfg)
  {
    StepMembers(t, s, cfg, mac);
    var r := Base(t, mac, s.now);
    if mac in s.clients {
      FoundRecord(t, s, cfg, mac);
      if !r.online {
        AppendedTimes(r.events, Event(s.now, Up, Via(s.clients[mac].seen)), clock, cfg);
      }
    } else {
      MissedRecord(t, s, cfg, mac);
      if GoesDown(r, s, cfg) {
        AppendedTimes(r.events, Event(s.now, Down, r.via), r.lastSeen, cfg);
      }
    }
  }

  /** Events are in time order, and every "down" comes at least the offline period after the
      "up" before it. */
  lemma {:induction false} PresenceLasts(ops: seq<Op>, cfg: Config, start: int, mac: string)
    requires Ordered(ops, start) && cfg.offlineAfter >= 0
    ensures RecordTimesOk(Run(map[], ops, cfg), mac, Clock(ops, start), cfg)
  {
    if ops != [] && mac in Run(map[], ops, cfg) {
      var init, last := ops[..|ops| - 1], ops[|ops| - 1];
      PresenceLasts(init, cfg, start, mac);
      if last.Scanning? {
        ScanKeepsTimes(Run(map[], init, cfg), last.s, cfg, mac, Clock(init, start));
      } else {
        EditsKeep(Run(map[], init, cfg), last, cfg, mac);
      }
    }
  }

  // ---- ignoring ------------------------------------------------------------------------------

  predicate Misses(op: Op, mac: string) {
    op.Scanning? && !Found(op.s, mac)
  }

  predicate Finds(op: Op, mac: string) {
    op.Scanning? && Found(op.s, mac)
  }

  ghost predicate Missed(ops: seq<Op>, mac: string) {
    exists i :: 0 <= i < |ops| && Misses(ops[i], mac)
  }

  /** The client was missed by one scan and found by a later one. */
  ghost predicate CameBack(ops: seq<Op>, mac: string) {
    exists i, j :: 0 <= i < j < |ops| && Misses(ops[i], mac) && Finds(ops[j], mac)
  }

  /** The client was neither pruned nor forgotten in between. */
  ghost predicate AlwaysTracked(t: Roster, ops: seq<Op>, cfg: Config, mac: string) {
    mac in Run(t, ops, cfg) && (ops != [] ==> AlwaysTracked(t, ops[..|ops| - 1], cfg, mac))
  }

  lemma CameBackStep(ops: seq<Op>, mac: string)
    requires ops != []
    ensures var (init, last) := (ops[..|ops| - 1], ops[|ops| - 1]);
            && (CameBack(ops, mac) <==> CameBack(init, mac) || (Missed(init, mac) && Finds(last, mac)))
            && (Missed(ops, mac) <==> Missed(init, mac) || Misses(last, mac))
  {
    var (init, last) := (ops[..|ops| - 1], ops[|ops| - 1]);
    assert ops == init + [last];
    if Missed(init, mac) && Finds(last, mac) {
      var i :| 0 <= i < |init| && Misses(init[i], mac);
      assert Misses(ops[i], mac) && Finds(ops[|init|], mac);
    }
    if CameBack(init, mac) {
      var i, j :| 0 <= i < j < |init| && Misses(init[i], mac) && Finds(init[j], mac);
      assert Misses(ops[i], mac) && Finds(ops[j], mac);
    }
    if Missed(init, mac) {
      var i :| 0 <= i < |init| && Misses(init[i], mac);
      assert Misses(ops[i], mac);
    }
    if Misses(last, mac) {
      assert Misses(ops[|init|], mac);
    }
  }

  /** What one operation other than ignoring the client does to its two marks. */
  lemma MarksAfter(t: Roster, op: Op, cfg: Config, mac: string)
    requires mac in Apply(t, op, cfg) && !(op.Ignore? && op.mac == mac)
    ensures var r' := Apply(t, op, cfg)[mac];
            if mac !in t then !r'.ignored && !r'.away
            else if Finds(op, mac) then
              r'.ignored == (t[mac].ignored && !t[mac].away) && r'.away == (t[mac].away && !t[mac].ignored)
            else if Misses(op, mac) then r'.ignored == t[mac].ignored && r'.away == (t[mac].away || t[mac].ignored)
            else r'.ignored == t[mac].ignored && r'.away == t[mac].away
  {
    if Finds(op, mac) {
      FoundRecord(t, op.s, cfg, mac);
    } else if Misses(op, mac) {
      StepMembers(t, op.s, cfg, mac);
      MissedRecord(t, op.s, cfg, mac);
    }
  }

  /** An ignored client stays ignored through any scans and edits while it is tracked, until a
      scan has missed it and a later one finds it again, and no longer. */
  lemma {:induction false} IgnoredUntilReturn(t: Roster, mac: string, now: int, ops: seq<Op>, cfg: Config)
    requires forall i :: 0 <= i < |ops| ==> !(ops[i].Ignore? && ops[i].mac == mac)
    ensures var start, after := Ignored(t, mac, now), Run(Ignored(t, mac, now), ops, cfg);
            mac in after ==>
              && (after[mac].ignored <==> AlwaysTracked(start, ops, cfg, mac) && !CameBack(ops, mac))
              && (after[mac].ignored ==> (after[mac].away <==> Missed(ops, mac)))
  {
    var start := Ignored(t, mac, now);
    if ops != [] {
      var init, last := ops[..|ops| - 1], ops[|ops| - 1];
      IgnoredUntilReturn(t, mac, now, init, cfg);
      CameBackStep(ops, mac);
      if mac in Run(start, ops, cfg) {
        MarksAfter(Run(start, init, cfg), last, cfg, mac);
      }
    }
  }
}
