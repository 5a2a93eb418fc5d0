/** The presence roster of one owner: scans, and the owner's own edits. */
module ClientRoster {
  import opened Common

  const EVENTS_MAX := 50
  const NEW_WINDOW := 86400
  const DAY := 86400

  datatype Config = Config(offlineAfter: int, retentionDays: nat)

  datatype Kind = NoKind | Wifi | OtherKind(name: string)

  datatype Sighting = Sighting(via: string, place: string, kind: Kind, signal: int)

  datatype Presence = Up | Down

  datatype Event = Event(ts: int, ev: Presence, via: string)

  datatype Record = Record(
    firstSeen: int, lastSeen: int, online: bool, events: seq<Event>, seen: seq<Sighting>, kind: Kind, via: string,
    ignored: bool, away: bool, notify: bool, nacApproved: Option<bool>, isNew: bool)

  type Roster = map<string, Record>

  /** One client of a scan, under its upper-cased address. */
  datatype Client = Client(kind: Kind, seen: seq<Sighting>)

  datatype Source = Source(device: string, failed: bool)

  datatype Scan = Scan(
    now: int, clients: map<string, Client>, approved: Option<set<string>>, full: bool, sources: seq<Source>)

  function Fresh(now: int): Record {
    Record(now, now, false, [], [], NoKind, "", false, false, false, None, false)
  }

  // ---- sightings ----------------------------------------------------------------------------

  function FirstWifi(seen: seq<Sighting>): Option<Sighting> {
    if seen == [] then None
    else if seen[0].kind == Wifi then Some(seen[0])
    else FirstWifi(seen[1..])
  }

  function Via(seen: seq<Sighting>): string {
    if seen == [] then ""
    else
      Named(if FirstWifi(seen).Some? then FirstWifi(seen).value else seen[0])
  }

  /** The source, the place, or both with a dot between them. */
  function Named(s: Sighting): string {
    if s.via != "" && s.place != "" then s.via + " \U{00B7} " + s.place
    else if s.via != "" then s.via
    else s.place
  }

  lemma {:induction false} FirstWifiIsFirst(seen: seq<Sighting>, i: nat)
    requires i < |seen| && forall k :: 0 <= k < i ==> seen[k].kind != Wifi
    ensures seen[i].kind == Wifi ==> FirstWifi(seen) == Some(seen[i])
    ensures i == |seen| - 1 && seen[i].kind != Wifi ==> FirstWifi(seen) == None
  {
    if i > 0 {
      FirstWifiIsFirst(seen[1..], i - 1);
    }
  }

  /** The first Wi-Fi sighting names the connection, or without one the first of all. */
  lemma WifiDecidesVia(seen: seq<Sighting>, i: nat)
    requires i < |seen| && forall k :: 0 <= k < i ==> seen[k].kind != Wifi
    ensures seen[i].kind == Wifi ==> Via(seen) == Named(seen[i])
    ensures i == |seen| - 1 && seen[i].kind != Wifi ==> Via(seen) == Named(seen[0])
  {
    FirstWifiIsFirst(seen, i);
  }

  /** Devices whose part of a full scan failed; a partial scan has none. */
  function Failed(s: Scan): set<string> {
    if s.full then set x | x in s.sources && x.failed && x.device != "" :: x.device else {}
  }

  function Identity(x: Sighting): (string, string, Kind) {
    (x.via, x.place, x.kind)
  }

  ghost predicate Listed(list: seq<Sighting>, x: Sighting) {
    exists i :: 0 <= i < |list| && Identity(list[i]) == Identity(x)
  }

  /** The current sightings and those of the first `n` previous ones that a failed source made. */
  ghost function Merged(current: seq<Sighting>, previous: seq<Sighting>, failed: set<string>, n: nat): seq<Sighting>
    requires n <= |previous|
  {
    if n == 0 then current
    else
      var merged, x := Merged(current, previous, failed, n - 1), previous[n - 1];
      if x.via in failed && !Listed(merged, x) then merged + [x] else merged
  }

  /** The merge keeps every current sighting and the identity of every sighting a failed source
      made before, and brings nothing else back. */
  lemma {:induction false} MergeIsExact(current: seq<Sighting>, previous: seq<Sighting>, failed: set<string>, n: nat)
    requires n <= |previous|
    ensures var merged := Merged(current, previous, failed, n);
            && current <= merged
            && (forall i :: 0 <= i < n && previous[i].via in failed ==> Listed(merged, previous[i]))
            && (forall i :: |current| <= i < |merged| ==> merged[i] in previous && merged[i].via in failed)
            && (forall i, j :: 0 <= i < j < |merged| && |current| <= j ==> Identity(merged[i]) != Identity(merged[j]))
  {
    if n > 0 {
      MergeIsExact(current, previous, failed, n - 1);
      var before, merged := Merged(current, previous, failed, n - 1), Merged(current, previous, failed, n);
      assert before <= merged;
      forall i | 0 <= i < n && previous[i].via in failed
        ensures Listed(merged, previous[i])
      {
        if Listed(before, previous[i]) {
          var k :| 0 <= k < |before| && Identity(before[k]) == Identity(previous[i]);
          assert merged[k] == before[k];
        } else {
          assert merged[|before|] == previous[n - 1];
        }
      }
    }
  }

  method MergeFailedSourceSightings(current: seq<Sighting>, previous: seq<Sighting>, failed: set<string>)
    returns (merged: seq<Sighting>)
    ensures merged == Merged(current, previous, failed, |previous|)
  {
    merged := current;
    var identities := set x | x in current :: Identity(x);
    for i := 0 to |previous|
      invariant merged == Merged(current, previous, failed, i)
      invariant identities == set x | x in merged :: Identity(x)
    {
      var x := previous[i];
      assert Identity(x) in identities <==> Listed(merged, x);
      if x.via in failed && Identity(x) !in identities {
        merged := merged + [x];
        identities := identities + {Identity(x)};
      }
    }
  }

  // ---- one record in one scan ---------------------------------------------------------------

  function Logged(events: seq<Event>, e: Event): seq<Event> {
    Suffix(events + [e], EVENTS_MAX)
  }

  function WithEvent(r: Record, ts: int, ev: Presence, via: string): Record {
    r.(events := Logged(r.events, Event(ts, ev, via)))
  }

  predicate SeenBy(r: Record, failed: set<string>) {
    exists i :: 0 <= i < |r.seen| && r.seen[i].via in failed
  }

  predicate WifiSeenBy(r: Record, failed: set<string>) {
    exists i :: 0 <= i < |r.seen| && r.seen[i].kind == Wifi && r.seen[i].via in failed
  }

  /** The first loop's body: an ignored client that is not there has gone away. */
  function GoneAway(r: Record): Record {
    if r.ignored then r.(away := true) else r
  }

  function Returned(r: Record): Record {
    if r.ignored && r.away then r.(ignored := false, away := false) else r
  }

  function Judged(r: Record, mac: string, s: Scan): Record {
    if s.approved.None? then r
    else r.(nacApproved := Some(mac in s.approved.value),
            isNew := mac !in s.approved.value && s.now - r.firstSeen < NEW_WINDOW)
  }

  /** A full scan may change the kind, unless only a failed source could tell it is Wi-Fi. */
  function NewKind(r: Record, c: Client, s: Scan): Kind {
    if c.kind != NoKind && (s.full || r.kind == NoKind) && !(WifiSeenBy(r, Failed(s)) && c.kind != Wifi) then c.kind
    else r.kind
  }

  ghost function NewSeen(r: Record, c: Client, s: Scan): seq<Sighting> {
    if s.full || r.seen == [] then Merged(c.seen, r.seen, Failed(s), |r.seen|) else r.seen
  }

  /** The second loop's body. */
  ghost function Observed(r: Record, mac: string, c: Client, s: Scan): Record {
    var via := Via(c.seen);
    var back := Returned(r);
    var up := if r.online then back else WithEvent(back, s.now, Up, via);
    Judged(up.(online := true, lastSeen := s.now, via := if via != "" then via else r.via,
               kind := NewKind(r, c, s), seen := NewSeen(r, c, s)),
           mac, s)
  }

  predicate GoesDown(r: Record, s: Scan, cfg: Config) {
    s.full && r.online && !SeenBy(r, Failed(s)) && s.now - r.lastSeen >= cfg.offlineAfter
  }

  /** The presence check of a client the scan did not find. */
  function Settled(r: Record, s: Scan, cfg: Config): Record {
    if GoesDown(r, s, cfg) then WithEvent(r.(online := false), s.now, Down, r.via) else r
  }

  predicate Stale(r: Record, s: Scan, cfg: Config) {
    cfg.retentionDays > 0 && !r.online && r.lastSeen < s.now - cfg.retentionDays * DAY
  }

  function Base(t: Roster, mac: string, now: int): Record {
    if mac in t then t[mac] else Fresh(now)
  }

  ghost function Scanned(t: Roster, s: Scan, cfg: Config, mac: string): Record {
    if mac in s.clients then Judged(Observed(Base(t, mac, s.now), mac, s.clients[mac], s), mac, s)
    else Settled(Judged(GoneAway(Base(t, mac, s.now)), mac, s), s, cfg)
  }

  predicate Found(s: Scan, mac: string) {
    mac in s.clients
  }

  /** The roster after a scan. */
  ghost function Step(t: Roster, s: Scan, cfg: Config): Roster {
    map mac | mac in t.Keys + s.clients.Keys && (Found(s, mac) || !Stale(Scanned(t, s, cfg, mac), s, cfg)) ::
      Scanned(t, s, cfg, mac)
  }

  /** Every field of a found client's record that matters to presence. */
  lemma FoundRecord(t: Roster, s: Scan, cfg: Config, mac: string)
    requires mac in s.clients
    ensures var (r, r', c) := (Base(t, mac, s.now), Scanned(t, s, cfg, mac), s.clients[mac]);
            && mac in Step(t, s, cfg) && Step(t, s, cfg)[mac] == r'
            && r'.online && r'.lastSeen == s.now && r'.firstSeen == r.firstSeen
            && r'.events == (if r.online then r.events else Logged(r.events, Event(s.now, Up, Via(c.seen))))
            && r'.kind == NewKind(r, c, s) && r'.seen == NewSeen(r, c, s)
            && r'.ignored == (r.ignored && !r.away) && r'.away == (r.away && !r.ignored)
            && r'.nacApproved == (if s.approved.Some? then Some(mac in s.approved.value) else r.nacApproved)
  {
  }

  /** The same for a tracked client that the scan did not find. */
  lemma MissedRecord(t: Roster, s: Scan, cfg: Config, mac: string)
    requires mac in t && mac !in s.clients
    ensures var (r, r') := (t[mac], Scanned(t, s, cfg, mac));
            && (mac in Step(t, s, cfg) <==> !Stale(r', s, cfg))
            && (mac in Step(t, s, cfg) ==> Step(t, s, cfg)[mac] == r')
            && r'.online == (r.online && !GoesDown(r, s, cfg)) && r'.lastSeen == r.lastSeen
            && r'.events == (if GoesDown(r, s, cfg) then Logged(r.events, Event(s.now, Down, r.via)) else r.events)
            && r'.kind == r.kind && r'.seen == r.seen
            && r'.ignored == r.ignored && r'.away == (r.away || r.ignored)
            && r'.nacApproved == (if s.approved.Some? then Some(mac in s.approved.value) else r.nacApproved)
  {
  }

  predicate DownNotice(mac: string, r: Record, s: Scan, cfg: Config) {
    !Found(s, mac) && r.notify && GoesDown(r, s, cfg)
  }

  /** The clients whose owner is told that they connected, and that they left. */
  function UpNotices(t: Roster, s: Scan): set<string> {
    set mac | mac in s.clients && Base(t, mac, s.now).notify && !Base(t, mac, s.now).online
  }

  function DownNotices(t: Roster, s: Scan, cfg: Config): set<string> {
    set mac | mac in t && DownNotice(mac, t[mac], s, cfg)
  }

  // ---- the owner's edits ----------------------------------------------------------------------

  function Forgotten(t: Roster, macs: set<string>): Roster {
    t - macs
  }

  /** The first `n` of a list of addresses. */
  function FirstOf(macs: seq<string>, n: nat): set<string>
    requires n <= |macs|
  {
    set i | 0 <= i < n :: macs[i]
  }

  lemma OneFewer(t: Roster, mac: string)
    requires mac in t
    ensures |t - {mac}| == |t| - 1
  {
    assert (t - {mac}).Keys == t.Keys - {mac};
    assert |t.Keys| == |t| && |(t - {mac}).Keys| == |t - {mac}|;
  }

  function Ignored(t: Roster, mac: string, now: int): Roster {
    t[mac := Base(t, mac, now).(ignored := true, away := false)]
  }

  function Described(t: Roster, mac: string, notify: Option<bool>, now: int): Roster {
    var r := Base(t, mac, now);
    t[mac := if notify.Some? then r.(notify := notify.value) else r]
  }

  // ---- the loops of one scan ------------------------------------------------------------------

  function MarkedAway(t: Roster, s: Scan): Roster {
    map mac | mac in t :: if Found(s, mac) then t[mac] else GoneAway(t[mac])
  }

  ghost function AllObserved(t: Roster, s: Scan): Roster {
    map mac | mac in t.Keys + s.clients.Keys ::
      if mac in s.clients then Observed(Base(t, mac, s.now), mac, s.clients[mac], s) else t[mac]
  }

  function AllJudged(t: Roster, s: Scan): Roster {
    map mac | mac in t :: Judged(t[mac], mac, s)
  }

  function AllSettled(t: Roster, s: Scan, cfg: Config): Roster {
    map mac | mac in t :: if Found(s, mac) then t[mac] else Settled(t[mac], s, cfg)
  }

  function Pruned(t: Roster, s: Scan, cfg: Config): Roster {
    map mac | mac in t && (Found(s, mac) || !Stale(t[mac], s, cfg)) :: t[mac]
  }

  /** Running the loops one after the other does to every record what one look at it says. */
  lemma LoopsMakeStep(t: Roster, s: Scan, cfg: Config)
    ensures Pruned(AllSettled(AllJudged(AllObserved(MarkedAway(t, s), s), s), s, cfg), s, cfg) == Step(t, s, cfg)
  {
    var away := MarkedAway(t, s);
    var observed := AllObserved(away, s);
    var judged := AllJudged(observed, s);
    var done := AllSettled(judged, s, cfg);
    assert forall mac :: mac in s.clients ==> Base(away, mac, s.now) == Base(t, mac, s.now);
    forall mac | mac in t.Keys + s.clients.Keys
      ensures mac in done && done[mac] == Scanned(t, s, cfg, mac)
    {
      if mac in s.clients {
        assert done[mac] == Judged(observed[mac], mac, s);
      } else {
        assert observed[mac] == GoneAway(t[mac]);
      }
    }
    PruneMakesStep(t, done, s, cfg);
  }

  lemma PruneMakesStep(t: Roster, done: Roster, s: Scan, cfg: Config)
    requires done.Keys == t.Keys + s.clients.Keys && forall mac :: mac in done ==> done[mac] == Scanned(t, s, cfg, mac)
    ensures Pruned(done, s, cfg) == Step(t, s, cfg)
  {
  }

  /** The clients of the scan that are not pending have been observed. */
  ghost predicate PartlyObserved(now: Roster, was: Roster, s: Scan, pending: set<string>) {
    && now.Keys == was.Keys + (s.clients.Keys - pending)
    && forall mac :: mac in now ==>
         now[mac] == if mac in s.clients && mac !in pending then Observed(Base(was, mac, s.now), mac, s.clients[mac], s)
                     else was[mac]
  }

  lemma ObservedOneMore(now: Roster, was: Roster, s: Scan, pending: set<string>, mac: string)
    requires PartlyObserved(now, was, s, pending) && mac in pending && pending <= s.clients.Keys
    ensures Base(now, mac, s.now) == Base(was, mac, s.now)
    ensures PartlyObserved(now[mac := Observed(Base(was, mac, s.now), mac, s.clients[mac], s)], was, s, pending - {mac})
  {
  }

  lemma ObservedAtEnd(now: Roster, was: Roster, s: Scan)
    requires PartlyObserved(now, was, s, {})
    ensures now == AllObserved(was, s)
  {
  }

  /** The records that are not pending have been settled. */
  ghost predicate PartlySettled(now: Roster, was: Roster, s: Scan, cfg: Config, pending: set<string>) {
    && now.Keys == was.Keys
    && forall mac :: mac in now ==>
         now[mac] == if mac in pending || Found(s, mac) then was[mac] else Settled(was[mac], s, cfg)
  }

  lemma SettledAtEnd(now: Roster, was: Roster, s: Scan, cfg: Config)
    requires PartlySettled(now, was, s, cfg, {})
    ensures now == AllSettled(was, s, cfg)
  {
  }

  lemma NoticedOneMore(notices: set<string>, pending: set<string>, mac: string)
    requires mac in pending
    ensures notices - (pending - {mac}) == (notices - pending) + (if mac in notices then {mac} else {})
  {
  }

  class RosterStore {
    var tracked: Roster

    method MarkAway(s: Scan)
      modifies this
      ensures tracked == MarkedAway(old(tracked), s)
    {
      var pending := tracked.Keys;
      while pending != {}
        invariant tracked.Keys == old(tracked).Keys && pending <= tracked.Keys
        invariant forall mac :: mac in tracked ==>
                    tracked[mac] == if mac in pending then old(tracked)[mac] else MarkedAway(old(tracked), s)[mac]
        decreases pending
      {
        var mac :| mac in pending;
        pending := pending - {mac};
        if tracked[mac].ignored && mac !in s.clients {
          tracked := tracked[mac := tracked[mac].(away := true)];
        }
      }
    }

    method Observe(mac: string, s: Scan)
      requires mac in s.clients
      modifies this
      ensures tracked == old(tracked)[mac := Observed(Base(old(tracked), mac, s.now), mac, s.clients[mac], s)]
    {
      var c := s.clients[mac];
      var r := Base(tracked, mac, s.now);
      var via, record := Via(c.seen), r;
      if record.ignored && record.away {
        record := record.(ignored := false, away := false);
      }
      if !r.online {
        record := WithEvent(record, s.now, Up, via);
      }
      var kind := NewKind(r, c, s);
      var seen := r.seen;
      if s.full || r.seen == [] {
        seen := MergeFailedSourceSightings(c.seen, r.seen, Failed(s));
      }
      record := record.(online := true, lastSeen := s.now, via := if via != "" then via else r.via,
                        kind := kind, seen := seen);
      tracked := tracked[mac := Judged(record, mac, s)];
    }

    method ObserveAll(s: Scan) returns (notices: set<string>)
      modifies this
      ensures tracked == AllObserved(old(tracked), s)
      ensures notices == UpNotices(old(tracked), s)
    {
      notices := {};
      var pending := s.clients.Keys;
      while pending != {}
        invariant pending <= s.clients.Keys
        invariant PartlyObserved(tracked, old(tracked), s, pending)
        invariant notices == UpNotices(old(tracked), s) - pending
        decreases pending
      {
        var mac :| mac in pending;
        ObservedOneMore(tracked, old(tracked), s, pending, mac);
        NoticedOneMore(UpNotices(old(tracked), s), pending, mac);
        pending := pending - {mac};
        var record := Base(tracked, mac, s.now);
        if record.notify && !record.online {
          notices := notices + {mac};
        }
        Observe(mac, s);
      }
      ObservedAtEnd(tracked, old(tracked), s);
    }

    method JudgeAll(s: Scan)
      modifies this
      ensures tracked == AllJudged(old(tracked), s)
    {
      var pending := tracked.Keys;
      while pending != {}
        invariant tracked.Keys == old(tracked).Keys && pending <= tracked.Keys
        invariant forall mac :: mac in tracked ==>
                    tracked[mac] == if mac in pending then old(tracked)[mac] else Judged(old(tracked)[mac], mac, s)
        decreases pending
      {
        var mac :| mac in pending;
        pending := pending - {mac};
        tracked := tracked[mac := Judged(tracked[mac], mac, s)];
      }
    }

    method Settle(mac: string, s: Scan, cfg: Config) returns (notice: bool)
      requires mac in tracked
      modifies this
      ensures var r := old(tracked)[mac];
              tracked == old(tracked)[mac := if Found(s, mac) then r else Settled(r, s, cfg)]
      ensures notice == DownNotice(mac, old(tracked)[mac], s, cfg)
    {
      var record := tracked[mac];
      if mac in s.clients || !s.full || !record.online || SeenBy(record, Failed(s)) {
        return false;
      }
      notice := false;
      if s.now - record.lastSeen >= cfg.offlineAfter {
        notice := record.notify;
        tracked := tracked[mac := WithEvent(record.(online := false), s.now, Down, record.via)];
      }
    }

    method SettleAll(s: Scan, cfg: Config) returns (notices: set<string>)
      modifies this
      ensures tracked == AllSettled(old(tracked), s, cfg)
      ensures notices == DownNotices(old(tracked), s, cfg)
    {
      notices := {};
      var pending := tracked.Keys;
      while pending != {}
        invariant pending <= tracked.Keys && PartlySettled(tracked, old(tracked), s, cfg, pending)
        invariant notices == DownNotices(old(tracked), s, cfg) - pending
        decreases pending
      {
        var mac :| mac in pending;
        NoticedOneMore(DownNotices(old(tracked), s, cfg), pending, mac);
        pending := pending - {mac};
        var notice := Settle(mac, s, cfg);
        if notice {
          notices := notices + {mac};
        }
      }
      SettledAtEnd(tracked, old(tracked), s, cfg);
    }

    method PruneStaleRecords(s: Scan, cfg: Config)
      modifies this
      ensures tracked == Pruned(old(tracked), s, cfg)
    {
      if cfg.retentionDays == 0 {
        return;
      }
      var cutoff := s.now - cfg.retentionDays * DAY;
      var pending := tracked.Keys;
      while pending != {}
        invariant pending <= tracked.Keys
        invariant forall mac :: mac in tracked <==>
                    mac in old(tracked) && (mac in pending || mac in Pruned(old(tracked), s, cfg))
        invariant forall mac :: mac in tracked ==> tracked[mac] == old(tracked)[mac]
        decreases pending
      {
        var mac :| mac in pending;
        pending := pending - {mac};
        if mac !in s.clients && !tracked[mac].online && tracked[mac].lastSeen < cutoff {
          tracked := tracked - {mac};
        }
      }
    }

    method Forget(macs: seq<string>) returns (forgotten: nat)
      modifies this
      ensures tracked == Forgotten(old(tracked), FirstOf(macs, |macs|))
      ensures forgotten == |old(tracked)| - |tracked|
    {
      forgotten := 0;
      for i := 0 to |macs|
        invariant tracked == Forgotten(old(tracked), FirstOf(macs, i))
        invariant forgotten == |old(tracked)| - |tracked|
      {
        if macs[i] in tracked {
          OneFewer(tracked, macs[i]);
          tracked := tracked - {macs[i]};
          forgotten := forgotten + 1;
        }
      }
    }

    method Ignore(mac: string, now: int)
      modifies this
      ensures tracked == Ignored(old(tracked), mac, now)
    {
      var record := if mac in tracked then tracked[mac] else Fresh(now);
      tracked := tracked[mac := record.(ignored := true, away := false)];
    }

    /** Of the owner's metadata only the notification choice matters to presence. */
    method SetMetadata(mac: string, notify: Option<bool>, now: int)
      modifies this
      ensures tracked == Described(old(tracked), mac, notify, now)
    {
      var record := if mac in tracked then tracked[mac] else Fresh(now);
      if notify.Some? {
        record := record.(notify := notify.value);
      }
      tracked := tracked[mac := record];
    }

    /** One discovery result, recorded. */
    method RecordObservations(s: Scan, cfg: Config) returns (ups: set<string>, downs: set<string>)
      modifies this
      ensures tracked == Step(old(tracked), s, cfg)
      ensures ups == UpNotices(old(tracked), s) && downs == DownNotices(old(tracked), s, cfg)
    {
      MarkAway(s);
      ups := ObserveAll(s);
      JudgeAll(s);
      downs := SettleAll(s, cfg);
      PruneStaleRecords(s, cfg);
      LoopsMakeStep(old(tracked), s, cfg);
      NoticesOfLoops(old(tracked), s, cfg);
    }
  }

  /** Neither the earlier loops nor the allow-list change who is notified. */
  lemma NoticesOfLoops(t: Roster, s: Scan, cfg: Config)
    ensures UpNotices(MarkedAway(t, s), s) == UpNotices(t, s)
    ensures DownNotices(AllJudged(AllObserved(MarkedAway(t, s), s), s), s, cfg) == DownNotices(t, s, cfg)
  {
    var judged := AllJudged(AllObserved(MarkedAway(t, s), s), s);
    forall mac
      ensures mac in DownNotices(judged, s, cfg) <==> mac in DownNotices(t, s, cfg)
    {
      if mac in t && !Found(s, mac) {
        assert judged[mac] == Judged(GoneAway(t[mac]), mac, s);
      }
    }
  }
}
