/** Aggregation of a morning run's source results into per-device records.

    The aggregator is applied again to its own flattened output after every
    phase, when a run completes, and for every member's restricted view. */
module MorningAggregate {
  import opened Common
  import opened Sorting

  const REBOOT_KIND := "rebootRequired"
  const FAILING := {"failed", "incomplete", "unreachable"}
  const SUCCEEDING := {"up_to_date", "updates_available"}

  /** One check result; `evidence` stands for the remaining descriptive fields. */
  datatype Source = Source(
    deviceId: string, name: string, ownerId: Option<string>, resourceType: string,
    kind: string, status: string, rebootRequired: Option<bool>, summary: Option<string>,
    evidence: map<string, string>)

  datatype RebootNote = RebootNote(kind: string, required: bool, summary: Option<string>)

  /** An item of a device's insertion-ordered `sources` dictionary. */
  datatype Entry =
    | Checks(kind: string, checks: seq<Source>)
    | Reboots(notes: seq<RebootNote>)
  {
    function Key(): string {
      if Checks? then kind else REBOOT_KIND
    }
  }

  /** A device while sources are being merged. */
  datatype Merged = Merged(name: string, ownerId: Option<string>, resourceType: string, entries: seq<Entry>)

  datatype Device = Device(
    deviceId: string, name: string, ownerId: Option<string>, resourceType: string, sources: seq<Entry>,
    requiresUpdates: bool, rebootRequired: bool, unreachable: bool, checkIncomplete: bool,
    unsupported: bool, upToDate: bool)

  datatype DeviceIds = DeviceIds(
    checked: seq<string>, updates: seq<string>, reboot: seq<string>,
    incomplete: seq<string>, unreachable: seq<string>, unsupported: seq<string>)

  datatype RunStatus = Running | Successful | Partial | Failed

  datatype Aggregated = Aggregated(
    status: RunStatus, devices: seq<Device>, uniqueDevicesChecked: nat, devicesRequiringUpdates: nat,
    devicesRequiringReboot: nat, failedChecks: nat, unreachableChecks: nat, unsupportedDevices: nat,
    deviceIds: DeviceIds)

  // ---- merging ----------------------------------------------------------------

  function NameOf(s: Source): string {
    if s.name != "" then s.name else s.deviceId
  }

  /** `sources.setdefault(kind, []).append(source)` */
  function AddCheck(entries: seq<Entry>, s: Source): seq<Entry> {
    if entries == [] then [Checks(s.kind, [s])]
    else if entries[0].Checks? && entries[0].kind == s.kind then
      [Checks(s.kind, entries[0].checks + [s])] + entries[1..]
    else [entries[0]] + AddCheck(entries[1..], s)
  }

  type Merging = map<string, Merged>

  /** One source is merged: the first source of a device names it. */
  function AddSource(merged: Merging, s: Source): Merging {
    var device := if s.deviceId in merged then merged[s.deviceId]
                  else Merged(NameOf(s), s.ownerId, s.resourceType, []);
    merged[s.deviceId := device.(entries := AddCheck(device.entries, s))]
  }

  function Merge(merged: Merging, xs: seq<Source>): Merging {
    if xs == [] then merged else AddSource(Merge(merged, xs[..|xs| - 1]), xs[|xs| - 1])
  }

  // ---- finishing a device -------------------------------------------------------

  function AllChecks(entries: seq<Entry>): seq<Source> {
    if entries == [] then []
    else (if entries[0].Checks? then entries[0].checks else []) + AllChecks(entries[1..])
  }

  function Notes(checks: seq<Source>): seq<RebootNote> {
    if checks == [] then []
    else
      var c := checks[0];
      (if c.rebootRequired.Some? then [RebootNote(c.kind, c.rebootRequired.value, c.summary)] else [])
      + Notes(checks[1..])
  }

  /** `sources["rebootRequired"] = notes` */
  function PutReboots(entries: seq<Entry>, notes: seq<RebootNote>): seq<Entry> {
    if entries == [] then [Reboots(notes)]
    else if entries[0].Key() == REBOOT_KIND then [Reboots(notes)] + entries[1..]
    else [entries[0]] + PutReboots(entries[1..], notes)
  }

  function Statuses(checks: seq<Source>): set<string> {
    set c | c in checks :: c.status
  }

  function Finish(id: string, m: Merged): Device {
    var checks := AllChecks(m.entries);
    var statuses := Statuses(checks);
    var requiresUpdates := "updates_available" in statuses;
    var checkIncomplete := statuses * FAILING != {};
    var notes := Notes(checks);
    Device(id, m.name, m.ownerId, m.resourceType,
           if notes != [] then PutReboots(m.entries, notes) else m.entries,
           requiresUpdates,
           exists c :: c in checks && c.rebootRequired == Some(true),
           "unreachable" in statuses,
           checkIncomplete,
           checks != [] && statuses == {"unsupported"},
           "up_to_date" in statuses && !requiresUpdates && !checkIncomplete)
  }

  // ---- the sorted device list ---------------------------------------------------

  type Fold = string -> string

  /** Devices are listed by case-folded name, then by id. */
  function NameOrder(merged: Merging, fold: Fold): Order {
    (a, b) =>
      && a in merged && b in merged
      && (Before(fold(merged[a].name), fold(merged[b].name))
          || (fold(merged[a].name) == fold(merged[b].name) && Before(a, b)))
  }

  lemma NameOrderIsStrictTotal(merged: Merging, fold: Fold)
    ensures StrictTotal(NameOrder(merged, fold), merged.Keys)
  {
    var less := NameOrder(merged, fold);
    forall a | a in merged
      ensures !less(a, a)
    {
      BeforeIrreflexive(a);
      BeforeIrreflexive(fold(merged[a].name));
    }
    forall a, b | a in merged && b in merged && a != b
      ensures less(a, b) || less(b, a)
    {
      BeforeTotal(a, b);
      BeforeTotal(fold(merged[a].name), fold(merged[b].name));
    }
    forall a, b, c | less(a, b) && less(b, c)
      ensures less(a, c)
    {
      if Before(a, b) && Before(b, c) {
        BeforeTransitive(a, b, c);
      }
      if Before(fold(merged[a].name), fold(merged[b].name)) && Before(fold(merged[b].name), fold(merged[c].name)) {
        BeforeTransitive(fold(merged[a].name), fold(merged[b].name), fold(merged[c].name));
      }
    }
  }

  ghost function DeviceOrder(merged: Merging, fold: Fold): (ids: seq<string>)
    ensures IsSorted(NameOrder(merged, fold), merged.Keys, ids)
    ensures forall i :: 0 <= i < |ids| ==> ids[i] in merged
    ensures forall i, j :: 0 <= i < j < |ids| ==> ids[i] != ids[j]
  {
    NameOrderIsStrictTotal(merged, fold);
    SortedSize(NameOrder(merged, fold), merged.Keys, Sorted(NameOrder(merged, fold), merged.Keys));
    Sorted(NameOrder(merged, fold), merged.Keys)
  }

  function FinishAll(merged: Merging, ids: seq<string>): (devices: seq<Device>)
    requires forall i :: 0 <= i < |ids| ==> ids[i] in merged
    ensures |devices| == |ids|
    ensures forall i :: 0 <= i < |ids| ==> devices[i] == Finish(ids[i], merged[ids[i]])
  {
    seq(|ids|, i requires 0 <= i < |ids| => Finish(ids[i], merged[ids[i]]))
  }

  lemma FinishFirst(merged: Merging, id: string, rest: seq<string>)
    requires id in merged && forall i :: 0 <= i < |rest| ==> rest[i] in merged
    ensures FinishAll(merged, [id] + rest) == [Finish(id, merged[id])] + FinishAll(merged, rest)
  {
    var ids, tail := [id] + rest, FinishAll(merged, rest);
    var one, two := FinishAll(merged, ids), [Finish(id, merged[id])] + tail;
    assert one[0] == two[0];
    forall i | 0 < i < |ids|
      ensures one[i] == two[i]
    {
      assert ids[i] == rest[i - 1] && two[i] == tail[i - 1];
    }
  }

  ghost function Devices(merged: Merging, fold: Fold): seq<Device> {
    FinishAll(merged, DeviceOrder(merged, fold))
  }

  // ---- totals -------------------------------------------------------------------

  function Select(devices: seq<Device>, p: Device -> bool): (r: seq<Device>)
    ensures forall d :: d in r <==> d in devices && p(d)
  {
    if devices == [] then []
    else (if p(devices[0]) then [devices[0]] else []) + Select(devices[1..], p)
  }

  function Ids(devices: seq<Device>): (ids: seq<string>)
    ensures |ids| == |devices|
  {
    seq(|devices|, i requires 0 <= i < |devices| => devices[i].deviceId)
  }

  function CountStatus(checks: seq<Source>, among: set<string>): nat {
    if checks == [] then 0
    else (if checks[0].status in among then 1 else 0) + CountStatus(checks[1..], among)
  }

  /** Checks of one listed device whose status is in `among`; reboot notes carry no status. */
  function DeviceCount(d: Device, among: set<string>): nat {
    CountStatus(AllChecks(d.sources), among)
  }

  function Sum(devices: seq<Device>, w: Device -> nat): nat {
    if devices == [] then 0 else w(devices[0]) + Sum(devices[1..], w)
  }

  function Totals(devices: seq<Device>): Aggregated {
    var checked := Select(devices, (d: Device) => !d.unsupported);
    var updates := Select(devices, (d: Device) => d.requiresUpdates);
    var reboots := Select(devices, (d: Device) => d.rebootRequired);
    var incomplete := Select(devices, (d: Device) => d.checkIncomplete);
    var unreachable := Select(devices, (d: Device) => d.unreachable);
    var unsupported := Select(devices, (d: Device) => d.unsupported);
    var failed := Sum(devices, (d: Device) => DeviceCount(d, FAILING));
    var succeeded := Sum(devices, (d: Device) => DeviceCount(d, SUCCEEDING));
    Aggregated(
      if failed > 0 && (succeeded > 0 || updates != []) then Partial
      else if failed > 0 then Failed else Successful,
      devices, |checked|, |updates|, |reboots|, failed, |unreachable|, |unsupported|,
      DeviceIds(Ids(checked), Ids(updates), Ids(reboots), Ids(incomplete), Ids(unreachable), Ids(unsupported)))
  }

  /** `aggregate(source_results)`, for any case-folding function. */
  ghost function Aggregate(xs: seq<Source>, fold: Fold): Aggregated {
    Totals(Devices(Merge(map[], xs), fold))
  }

  method AggregateSources(xs: seq<Source>, fold: Fold) returns (result: Aggregated)
    ensures result == Aggregate(xs, fold)
  {
    var merged: Merging := map[];
    for i := 0 to |xs|
      invariant merged == Merge(map[], xs[..i])
    {
      assert xs[..i + 1][..i] == xs[..i];
      var s := xs[i];
      if s.deviceId !in merged {
        merged := merged[s.deviceId := Merged(NameOf(s), s.ownerId, s.resourceType, [])];
      }
      var device := merged[s.deviceId];
      merged := merged[s.deviceId := device.(entries := AddCheck(device.entries, s))];
    }
    assert xs[..|xs|] == xs;
    NameOrderIsStrictTotal(merged, fold);
    var ids := Sort(NameOrder(merged, fold), merged.Keys);
    assert ids == DeviceOrder(merged, fold);
    var devices := FinishDevices(merged, ids);
    result := Totals(devices);
  }

  method FinishDevices(merged: Merging, ids: seq<string>) returns (devices: seq<Device>)
    requires forall i :: 0 <= i < |ids| ==> ids[i] in merged
    ensures devices == FinishAll(merged, ids)
  {
    devices := [];
    for i := 0 to |ids|
      invariant |devices| == i
      invariant forall k :: 0 <= k < i ==> devices[k] == Finish(ids[k], merged[ids[k]])
    {
      devices := devices + [Finish(ids[i], merged[ids[i]])];
    }
  }

  // ---- flattening -----------------------------------------------------------------

  function FlatEntries(entries: seq<Entry>): seq<Source> {
    if entries == [] then [] else ReadBack(entries[0]) + FlatEntries(entries[1..])
  }

  function ReadBack(e: Entry): seq<Source> {
    if e.Checks? && e.kind != REBOOT_KIND then e.checks else []
  }

  /** The stored source results of some devices, skipping the reboot notes. */
  function Flatten(devices: seq<Device>): seq<Source> {
    if devices == [] then [] else FlatEntries(devices[0].sources) + Flatten(devices[1..])
  }

  lemma FlattenCons(d: Device, rest: seq<Device>)
    ensures Flatten([d] + rest) == FlatEntries(d.sources) + Flatten(rest)
  {
    assert ([d] + rest)[1..] == rest;
  }

  lemma {:induction false} FlattenConcat(a: seq<Device>, b: seq<Device>)
    ensures Flatten(a + b) == Flatten(a) + Flatten(b)
  {
    if a == [] {
      assert a + b == b;
    } else {
      var d, rest := a[0], a[1..];
      HeadFirst(a, b);
      FlattenConcat(rest, b);
      FlattenCons(d, rest + b);
      FlattenCons(d, rest);
      JoinAssociates(FlatEntries(d.sources), Flatten(rest), Flatten(b));
    }
  }

  lemma FlattenSnoc(devices: seq<Device>, i: nat)
    requires i < |devices|
    ensures Flatten(devices[..i + 1]) == Flatten(devices[..i]) + FlatEntries(devices[i].sources)
  {
    assert devices[..i + 1] == devices[..i] + [devices[i]];
    FlattenConcat(devices[..i], [devices[i]]);
    assert [devices[i]][1..] == [];
    assert Flatten([devices[i]]) == FlatEntries(devices[i].sources);
  }

  /** The comprehension every caller uses to read the stored sources back. */
  method StoredSources(devices: seq<Device>) returns (sources: seq<Source>)
    ensures sources == Flatten(devices)
  {
    sources := [];
    for i := 0 to |devices|
      invariant sources == Flatten(devices[..i])
    {
      FlattenSnoc(devices, i);
      sources := sources + FlatEntries(devices[i].sources);
    }
    assert devices[..|devices|] == devices;
  }

  /** No source kind collides with the key that holds the reboot notes. */
  predicate NoRebootKind(xs: seq<Source>) {
    forall s :: s in xs ==> s.kind != REBOOT_KIND
  }

  // ---- replaying a merged record -----------------------------------------------------

  /** Every check sits under its own kind, each kind appears once, in one device. */
  ghost predicate Regular(entries: seq<Entry>, id: string) {
    && (forall i :: 0 <= i < |entries| ==>
          && entries[i].Checks? && entries[i].checks != [] && entries[i].kind != REBOOT_KIND
          && (forall c :: c in entries[i].checks ==> c.kind == entries[i].kind && c.deviceId == id))
    && (forall i, j :: 0 <= i < j < |entries| ==> entries[i].Key() != entries[j].Key())
  }

  ghost predicate Unfiled(entries: seq<Entry>, kind: string) {
    forall i :: 0 <= i < |entries| ==> entries[i].Key() != kind
  }

  /** The record is headed by the source that named it. */
  ghost predicate RegularRecord(id: string, m: Merged) {
    && Regular(m.entries, id)
    && m.entries != []
    && var first := m.entries[0].checks[0];
       m.name == NameOf(first) && m.ownerId == first.ownerId && m.resourceType == first.resourceType
  }

  ghost predicate RegularMerging(merged: Merging) {
    forall id :: id in merged ==> RegularRecord(id, merged[id])
  }

  lemma {:induction false} AddCheckAt(entries: seq<Entry>, s: Source, i: nat)
    requires i < |entries| && entries[i].Checks? && entries[i].kind == s.kind
    requires Unfiled(entries[..i], s.kind)
    ensures AddCheck(entries, s) == entries[i := Checks(s.kind, entries[i].checks + [s])]
  {
    if i > 0 {
      assert entries[..i][0] == entries[0];
      assert entries[1..][..i - 1] == entries[..i][1..];
      AddCheckAt(entries[1..], s, i - 1);
    }
  }

  lemma {:induction false} AddCheckFresh(entries: seq<Entry>, s: Source)
    requires Unfiled(entries, s.kind)
    ensures AddCheck(entries, s) == entries + [Checks(s.kind, [s])]
  {
    if entries != [] {
      AddCheckFresh(entries[1..], s);
    }
  }

  lemma AddCheckRegular(entries: seq<Entry>, s: Source, id: string)
    requires Regular(entries, id) && s.kind != REBOOT_KIND && s.deviceId == id
    ensures Regular(AddCheck(entries, s), id) && AddCheck(entries, s) != []
    ensures entries != [] ==> AddCheck(entries, s)[0].checks[0] == entries[0].checks[0]
    ensures entries == [] ==> AddCheck(entries, s)[0].checks[0] == s
  {
    if i :| 0 <= i < |entries| && entries[i].Key() == s.kind {
      AddCheckAt(entries, s, i);
      RegularUpdated(entries, s, id, i);
    } else {
      AddCheckFresh(entries, s);
      RegularAppended(entries, s, id);
    }
  }

  lemma RegularUpdated(entries: seq<Entry>, s: Source, id: string, i: nat)
    requires Regular(entries, id) && s.kind != REBOOT_KIND && s.deviceId == id
    requires i < |entries| && entries[i].Checks? && entries[i].kind == s.kind
    ensures Regular(entries[i := Checks(s.kind, entries[i].checks + [s])], id)
  {
  }

  lemma RegularAppended(entries: seq<Entry>, s: Source, id: string)
    requires Regular(entries, id) && s.kind != REBOOT_KIND && s.deviceId == id && Unfiled(entries, s.kind)
    ensures Regular(entries + [Checks(s.kind, [s])], id)
  {
  }

  lemma {:induction false} MergeRegular(merged: Merging, xs: seq<Source>)
    requires RegularMerging(merged) && NoRebootKind(xs)
    ensures RegularMerging(Merge(merged, xs))
  {
    if xs != [] {
      var init, s := xs[..|xs| - 1], xs[|xs| - 1];
      assert s in xs;
      MergeRegular(merged, init);
      var before := Merge(merged, init);
      AddCheckRegular(if s.deviceId in before then before[s.deviceId].entries else [], s, s.deviceId);
    }
  }

  lemma {:induction false} MergeConcat(merged: Merging, xs: seq<Source>, ys: seq<Source>)
    ensures Merge(merged, xs + ys) == Merge(Merge(merged, xs), ys)
  {
    if ys == [] {
      assert xs + ys == xs;
    } else {
      MergeConcat(merged, xs, ys[..|ys| - 1]);
      assert (xs + ys)[..|xs + ys| - 1] == xs + ys[..|ys| - 1];
    }
  }

  /** Filing a list of checks into one device's entries. */
  function AddAll(entries: seq<Entry>, checks: seq<Source>): seq<Entry> {
    if checks == [] then entries else AddCheck(AddAll(entries, checks[..|checks| - 1]), checks[|checks| - 1])
  }

  lemma {:induction false} AddAllConcat(entries: seq<Entry>, a: seq<Source>, b: seq<Source>)
    ensures AddAll(entries, a + b) == AddAll(AddAll(entries, a), b)
  {
    if b == [] {
      assert a + b == a;
    } else {
      AddAllConcat(entries, a, b[..|b| - 1]);
      assert (a + b)[..|a + b| - 1] == a + b[..|b| - 1];
    }
  }

  /** Filing the checks of one new kind appends that kind with its checks in order. */
  lemma {:induction false} AddAllNewKind(entries: seq<Entry>, kind: string, checks: seq<Source>)
    requires Unfiled(entries, kind) && checks != []
    requires forall c :: c in checks ==> c.kind == kind
    ensures AddAll(entries, checks) == entries + [Checks(kind, checks)]
  {
    var init, s := checks[..|checks| - 1], checks[|checks| - 1];
    assert s in checks && checks == init + [s];
    if init == [] {
      AddCheckFresh(entries, s);
    } else {
      AddAllNewKind(entries, kind, init);
      var grown := entries + [Checks(kind, init)];
      assert grown[..|entries|] == entries;
      AddCheckAt(grown, s, |entries|);
    }
  }

  lemma FlatCons(e: Entry, rest: seq<Entry>)
    ensures FlatEntries([e] + rest) == ReadBack(e) + FlatEntries(rest)
  {
    assert ([e] + rest)[1..] == rest;
  }

  lemma {:induction false} FlatConcat(a: seq<Entry>, b: seq<Entry>)
    ensures FlatEntries(a + b) == FlatEntries(a) + FlatEntries(b)
  {
    if a == [] {
      assert a + b == b;
    } else {
      var e, rest := a[0], a[1..];
      HeadFirst(a, b);
      FlatConcat(rest, b);
      FlatCons(e, rest + b);
      FlatCons(e, rest);
      JoinAssociates(ReadBack(e), FlatEntries(rest), FlatEntries(b));
    }
  }

  /** Filing the flattened checks of some entries rebuilds the entries. */
  lemma {:induction false} RebuildEntries(entries: seq<Entry>, id: string)
    requires Regular(entries, id)
    ensures AddAll([], FlatEntries(entries)) == entries
  {
    if entries != [] {
      var n := |entries|;
      var init, last := entries[..n - 1], entries[n - 1];
      assert entries == init + [last];
      RebuildEntries(init, id);
      FlatConcat(init, [last]);
      assert [last][1..] == [];
      assert FlatEntries([last]) == last.checks;
      AddAllConcat([], FlatEntries(init), last.checks);
      AddAllNewKind(init, last.kind, last.checks);
    }
  }

  /** Merging the checks of one new device makes its record, named by the first of them. */
  lemma {:induction false} MergeDevice(merged: Merging, id: string, checks: seq<Source>)
    requires id !in merged && checks != []
    requires forall c :: c in checks ==> c.deviceId == id
    ensures Merge(merged, checks) ==
            merged[id := Merged(NameOf(checks[0]), checks[0].ownerId, checks[0].resourceType, AddAll([], checks))]
  {
    var init, s := checks[..|checks| - 1], checks[|checks| - 1];
    assert s in checks;
    if init != [] {
      MergeDevice(merged, id, init);
    } else {
      assert Merge(merged, init) == merged;
      assert AddAll([], init) == [];
    }
  }

  lemma {:induction false} FlatOfDevice(entries: seq<Entry>, id: string)
    requires Regular(entries, id)
    ensures forall c :: c in FlatEntries(entries) ==> c.deviceId == id && c.kind != REBOOT_KIND
    ensures entries != [] ==> FlatEntries(entries) != [] && FlatEntries(entries)[0] == entries[0].checks[0]
  {
    if entries != [] {
      FlatOfDevice(entries[1..], id);
    }
  }

  /** Merging a device's flattened checks into a collection without it restores its record. */
  lemma ReplayRecord(merged: Merging, id: string, m: Merged)
    requires id !in merged && RegularRecord(id, m)
    ensures Merge(merged, FlatEntries(m.entries)) == merged[id := m]
  {
    FlatOfDevice(m.entries, id);
    RebuildEntries(m.entries, id);
    MergeDevice(merged, id, FlatEntries(m.entries));
  }

  lemma {:induction false} PutRebootsAppends(entries: seq<Entry>, notes: seq<RebootNote>)
    requires Unfiled(entries, REBOOT_KIND)
    ensures PutReboots(entries, notes) == entries + [Reboots(notes)]
  {
    if entries != [] {
      var e, rest := entries[0], entries[1..];
      HeadFirst(entries, [Reboots(notes)]);
      assert e in entries && forall x :: x in rest ==> x in entries;
      PutRebootsAppends(rest, notes);
    }
  }

  /** A finished device still holds all its checks. */
  lemma FinishKeepsChecks(id: string, m: Merged)
    requires Regular(m.entries, id)
    ensures FlatEntries(Finish(id, m).sources) == FlatEntries(m.entries)
  {
    var notes := Notes(AllChecks(m.entries));
    if notes != [] {
      PutRebootsAppends(m.entries, notes);
      FlatConcat(m.entries, [Reboots(notes)]);
      assert FlatEntries([Reboots(notes)]) == [];
    }
  }

  function Restrict(merged: Merging, ids: set<string>): Merging {
    map id | id in merged && id in ids :: merged[id]
  }

  /** Flattening any of the devices and merging again gives back exactly their records. */
  lemma {:induction false} ReplayDevices(merged: Merging, ids: seq<string>, into: Merging)
    requires RegularMerging(merged)
    requires forall i :: 0 <= i < |ids| ==> ids[i] in merged && ids[i] !in into
    requires forall i, j :: 0 <= i < j < |ids| ==> ids[i] != ids[j]
    ensures Merge(into, Flatten(FinishAll(merged, ids))) == into + Restrict(merged, Elements(ids))
  {
    if ids == [] {
      assert Restrict(merged, Elements(ids)) == map[];
      assert FinishAll(merged, ids) == [];
    } else {
      var id, rest := ids[0], ids[1..];
      var next := into[id := merged[id]];
      ReplayDevices(merged, rest, next);
      FlattenFirst(merged, ids);
      MergeConcat(into, FlatEntries(merged[id].entries), Flatten(FinishAll(merged, rest)));
      ReplayRecord(into, id, merged[id]);
      RestrictFirst(merged, ids, into);
    }
  }

  lemma FlattenFirst(merged: Merging, ids: seq<string>)
    requires ids != [] && RegularMerging(merged)
    requires forall i :: 0 <= i < |ids| ==> ids[i] in merged
    ensures Flatten(FinishAll(merged, ids)) ==
              FlatEntries(merged[ids[0]].entries) + Flatten(FinishAll(merged, ids[1..]))
  {
    assert FinishAll(merged, ids)[1..] == FinishAll(merged, ids[1..]);
    FinishKeepsChecks(ids[0], merged[ids[0]]);
  }

  lemma RestrictFirst(merged: Merging, ids: seq<string>, into: Merging)
    requires ids != [] && ids[0] in merged
    requires forall i :: 0 <= i < |ids| ==> ids[i] !in into
    ensures into[ids[0] := merged[ids[0]]] + Restrict(merged, Elements(ids[1..]))
            == into + Restrict(merged, Elements(ids))
  {
    assert ids == [ids[0]] + ids[1..];
    assert Elements(ids) == {ids[0]} + Elements(ids[1..]);
  }

  lemma RestrictToAll(merged: Merging)
    ensures map[] + Restrict(merged, merged.Keys) == merged
  {
  }

  /** The stored devices carry the whole merge. */
  lemma ReplayAll(xs: seq<Source>, fold: Fold)
    requires NoRebootKind(xs)
    ensures Merge(map[], Flatten(Aggregate(xs, fold).devices)) == Merge(map[], xs)
  {
    var merged := Merge(map[], xs);
    MergeRegular(map[], xs);
    var ids := DeviceOrder(merged, fold);
    assert Aggregate(xs, fold).devices == FinishAll(merged, ids);
    assert Elements(ids) == merged.Keys;
    ReplayDevices(merged, ids, map[]);
    RestrictToAll(merged);
  }

  /** Phase by phase is the same as all at once. */
  lemma PhasesEqualOnce(xs: seq<Source>, ys: seq<Source>, fold: Fold)
    requires NoRebootKind(xs)
    ensures Aggregate(Flatten(Aggregate(xs, fold).devices) + ys, fold) == Aggregate(xs + ys, fold)
  {
    ReplayAll(xs, fold);
    MergeConcat(map[], Flatten(Aggregate(xs, fold).devices), ys);
    MergeConcat(map[], xs, ys);
  }
}
