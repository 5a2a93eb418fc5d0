/** What an aggregate says about the sources it was made from. */
module MorningEvidence {
  import opened Common
  import opened Sorting
  import opened MorningAggregate

  // ---- the sources filed under a device and a kind ---------------------------------

  /** The sources of one device and kind, in the order they were reported. */
  function Where(xs: seq<Source>, id: string, kind: string): seq<Source> {
    if xs == [] then []
    else
      var earlier, s := Where(xs[..|xs| - 1], id, kind), xs[|xs| - 1];
      if s.deviceId == id && s.kind == kind then earlier + [s] else earlier
  }

  /** The checks stored under `kind`. */
  function UnderKind(entries: seq<Entry>, kind: string): seq<Source> {
    if entries == [] then []
    else if entries[0].Checks? && entries[0].kind == kind then entries[0].checks
    else UnderKind(entries[1..], kind)
  }

  lemma {:induction false} AddCheckFiles(entries: seq<Entry>, s: Source, kind: string)
    ensures UnderKind(AddCheck(entries, s), kind) ==
            if s.kind == kind then UnderKind(entries, kind) + [s] else UnderKind(entries, kind)
  {
    if entries != [] && !(entries[0].Checks? && entries[0].kind == s.kind) {
      AddCheckFiles(entries[1..], s, kind);
      assert AddCheck(entries, s)[1..] == AddCheck(entries[1..], s);
    } else if entries != [] {
      assert AddCheck(entries, s)[1..] == entries[1..];
    }
  }

  /** Each device keeps, under each kind, exactly its own sources of that kind in order. */
  lemma {:induction false} KindListsAreTheSources(xs: seq<Source>, id: string, kind: string)
    ensures id in Merge(map[], xs) <==> exists s :: s in xs && s.deviceId == id
    ensures id in Merge(map[], xs) ==> UnderKind(Merge(map[], xs)[id].entries, kind) == Where(xs, id, kind)
    ensures id !in Merge(map[], xs) ==> Where(xs, id, kind) == []
  {
    if xs != [] {
      var init, s := xs[..|xs| - 1], xs[|xs| - 1];
      assert xs == init + [s];
      KindListsAreTheSources(init, id, kind);
      var before := Merge(map[], init);
      AddCheckFiles(if s.deviceId in before then before[s.deviceId].entries else [], s, kind);
    }
  }

  // ---- conservation of the evidence --------------------------------------------------

  /** The sources whose kind is not the key of the reboot notes. */
  function OtherKinds(xs: seq<Source>): seq<Source> {
    if xs == [] then []
    else
      var earlier, s := OtherKinds(xs[..|xs| - 1]), xs[|xs| - 1];
      if s.kind == REBOOT_KIND then earlier else earlier + [s]
  }

  lemma {:induction false} OtherKindsAreAllIff(xs: seq<Source>)
    ensures NoRebootKind(xs) ==> OtherKinds(xs) == xs
    ensures |OtherKinds(xs)| <= |xs|
    ensures !NoRebootKind(xs) ==> |OtherKinds(xs)| < |xs|
  {
    if xs != [] {
      var init, s := xs[..|xs| - 1], xs[|xs| - 1];
      OtherKindsAreAllIff(init);
      LastLast(xs);
      assert NoRebootKind(xs) <==> NoRebootKind(init) && s.kind != REBOOT_KIND;
    }
  }

  /** What one more source adds to what can be read back. */
  function Readable(s: Source): multiset<Source> {
    if s.kind == REBOOT_KIND then multiset{} else multiset{s}
  }

  lemma {:induction false} AddCheckGrows(entries: seq<Entry>, s: Source)
    ensures multiset(FlatEntries(AddCheck(entries, s))) == multiset(FlatEntries(entries)) + Readable(s)
  {
    if entries == [] {
      FlatCons(Checks(s.kind, [s]), []);
      assert AddCheck(entries, s) == [Checks(s.kind, [s])] + [];
    } else {
      var e, rest := entries[0], entries[1..];
      HeadFirst(entries, []);
      FlatCons(e, rest);
      if e.Checks? && e.kind == s.kind {
        FlatCons(Checks(s.kind, e.checks + [s]), rest);
      } else {
        AddCheckGrows(rest, s);
        FlatCons(e, AddCheck(rest, s));
      }
    }
  }

  function StoredCount(merged: Merging, c: Source): nat {
    if c.deviceId in merged then multiset(FlatEntries(merged[c.deviceId].entries))[c] else 0
  }

  lemma {:induction false} MergeKeepsCount(xs: seq<Source>, c: Source)
    ensures StoredCount(Merge(map[], xs), c) == multiset(OtherKinds(xs))[c]
  {
    if xs != [] {
      var init, s := xs[..|xs| - 1], xs[|xs| - 1];
      MergeKeepsCount(init, c);
      var before := Merge(map[], init);
      AddCheckGrows(if s.deviceId in before then before[s.deviceId].entries else [], s);
    }
  }

  /** Checks stored under a device and a kind are of that device and kind. */
  ghost predicate Filed(entries: seq<Entry>, id: string) {
    forall e, c :: e in entries && e.Checks? && c in e.checks ==> c.kind == e.kind && c.deviceId == id
  }

  ghost predicate AllFiled(merged: Merging) {
    forall id :: id in merged ==> Filed(merged[id].entries, id)
  }

  lemma {:induction false} AddCheckFiled(entries: seq<Entry>, s: Source)
    requires Filed(entries, s.deviceId)
    ensures Filed(AddCheck(entries, s), s.deviceId)
  {
    if entries != [] && !(entries[0].Checks? && entries[0].kind == s.kind) {
      AddCheckFiled(entries[1..], s);
    }
  }

  lemma {:induction false} MergeFiled(xs: seq<Source>)
    ensures AllFiled(Merge(map[], xs))
  {
    if xs != [] {
      var init, s := xs[..|xs| - 1], xs[|xs| - 1];
      MergeFiled(init);
      var before := Merge(map[], init);
      AddCheckFiled(if s.deviceId in before then before[s.deviceId].entries else [], s);
    }
  }

  lemma {:induction false} FlatFiled(entries: seq<Entry>, id: string)
    requires Filed(entries, id)
    ensures forall c :: c in FlatEntries(entries) ==> c.deviceId == id
  {
    if entries != [] {
      var e, rest := entries[0], entries[1..];
      HeadFirst(entries, []);
      FlatCons(e, rest);
      assert e in entries && forall x :: x in rest ==> x in entries;
      FlatFiled(rest, id);
    }
  }

  /** The notes take the place of what is never read back. */
  lemma {:induction false} PutRebootsKeepsFlat(entries: seq<Entry>, notes: seq<RebootNote>)
    ensures FlatEntries(PutReboots(entries, notes)) == FlatEntries(entries)
  {
    if entries == [] {
      FlatCons(Reboots(notes), []);
      assert PutReboots(entries, notes) == [Reboots(notes)] + [];
    } else {
      var e, rest := entries[0], entries[1..];
      HeadFirst(entries, []);
      FlatCons(e, rest);
      if e.Key() == REBOOT_KIND {
        FlatCons(Reboots(notes), rest);
      } else {
        PutRebootsKeepsFlat(rest, notes);
        FlatCons(e, PutReboots(rest, notes));
      }
    }
  }

  lemma FinishKeepsFlat(id: string, m: Merged)
    ensures FlatEntries(Finish(id, m).sources) == FlatEntries(m.entries)
  {
    PutRebootsKeepsFlat(m.entries, Notes(AllChecks(m.entries)));
  }

  lemma FlattenOne(merged: Merging, ids: seq<string>)
    requires ids != [] && forall i :: 0 <= i < |ids| ==> ids[i] in merged
    ensures Flatten(FinishAll(merged, ids)) ==
              FlatEntries(merged[ids[0]].entries) + Flatten(FinishAll(merged, ids[1..]))
  {
    var id, rest := ids[0], ids[1..];
    HeadFirst(ids, []);
    FinishFirst(merged, id, rest);
    FlattenCons(Finish(id, merged[id]), FinishAll(merged, rest));
    FinishKeepsFlat(id, merged[id]);
  }

  lemma {:induction false} FlattenCount(merged: Merging, ids: seq<string>, c: Source)
    requires AllFiled(merged)
    requires forall i :: 0 <= i < |ids| ==> ids[i] in merged
    requires forall i, j :: 0 <= i < j < |ids| ==> ids[i] != ids[j]
    ensures multiset(Flatten(FinishAll(merged, ids)))[c] == if c.deviceId in ids then StoredCount(merged, c) else 0
  {
    if ids != [] {
      FlattenOne(merged, ids);
      FlattenCount(merged, ids[1..], c);
      FlatFiled(merged[ids[0]].entries, ids[0]);
      var first, rest := FlatEntries(merged[ids[0]].entries), Flatten(FinishAll(merged, ids[1..]));
      assert multiset(first + rest)[c] == multiset(first)[c] + multiset(rest)[c];
      assert c.deviceId in ids <==> c.deviceId == ids[0] || c.deviceId in ids[1..];
    }
  }

  /** An aggregate keeps exactly the sources whose kind is not the key of the reboot notes, once
      for each report. */
  lemma EvidenceKept(xs: seq<Source>, fold: Fold)
    ensures multiset(Flatten(Aggregate(xs, fold).devices)) == multiset(OtherKinds(xs))
  {
    var merged := Merge(map[], xs);
    var ids := DeviceOrder(merged, fold);
    MergeFiled(xs);
    forall c: Source
      ensures multiset(Flatten(FinishAll(merged, ids)))[c] == multiset(OtherKinds(xs))[c]
    {
      FlattenCount(merged, ids, c);
      MergeKeepsCount(xs, c);
      assert c.deviceId in ids <==> c.deviceId in Elements(ids);
    }
    assert Aggregate(xs, fold).devices == FinishAll(merged, ids);
  }

  /** So it keeps every source exactly when none uses that key as its kind. */
  lemma EvidenceKeptIffNoRebootKind(xs: seq<Source>, fold: Fold)
    ensures multiset(Flatten(Aggregate(xs, fold).devices)) == multiset(xs) <==> NoRebootKind(xs)
  {
    EvidenceKept(xs, fold);
    OtherKindsAreAllIff(xs);
    assert |multiset(OtherKinds(xs))| == |OtherKinds(xs)| && |multiset(xs)| == |xs|;
  }

  // ---- counts and status from the sources ----------------------------------------------

  lemma {:induction false} CountConcat(a: seq<Source>, b: seq<Source>, among: set<string>)
    ensures CountStatus(a + b, among) == CountStatus(a, among) + CountStatus(b, among)
  {
    if a == [] {
      assert a + b == b;
    } else {
      CountConcat(a[1..], b, among);
      assert (a + b)[1..] == a[1..] + b;
    }
  }

  lemma CountWithoutAt(s: seq<Source>, j: nat, among: set<string>)
    requires j < |s|
    ensures CountStatus(s, among) == CountStatus(s[..j] + s[j + 1..], among) + CountStatus([s[j]], among)
  {
    CountConcat(s[..j], s[j + 1..], among);
    CountConcat([s[j]], s[j + 1..], among);
    CountConcat(s[..j], [s[j]] + s[j + 1..], among);
    assert s == s[..j] + ([s[j]] + s[j + 1..]);
  }

  lemma SameWithout(a: seq<Source>, b: seq<Source>, j: nat)
    requires multiset(a) == multiset(b) && a != [] && j < |b| && b[j] == a[0]
    ensures multiset(a[..0] + a[1..]) == multiset(b[..j] + b[j + 1..]) && |a[..0] + a[1..]| < |a|
  {
    WithoutAt(a, 0);
    WithoutAt(b, j);
  }

  lemma {:induction false} CountOfPermutation(a: seq<Source>, b: seq<Source>, among: set<string>)
    requires multiset(a) == multiset(b)
    ensures CountStatus(a, among) == CountStatus(b, among)
    decreases |a|
  {
    if a == [] {
      assert multiset(b) == multiset{};
      assert |b| == |multiset(b)|;
    } else {
      assert a[0] in multiset(b);
      var j :| 0 <= j < |b| && b[j] == a[0];
      var a', b' := a[..0] + a[1..], b[..j] + b[j + 1..];
      SameWithout(a, b, j);
      CountWithoutAt(a, 0, among);
      CountWithoutAt(b, j, among);
      CountOfPermutation(a', b', among);
    }
  }

  lemma {:induction false} AllChecksAreFlat(entries: seq<Entry>)
    requires forall e :: e in entries && e.Checks? ==> e.kind != REBOOT_KIND
    ensures AllChecks(entries) == FlatEntries(entries)
  {
    if entries != [] {
      AllChecksAreFlat(entries[1..]);
    }
  }

  lemma {:induction false} SumIsCount(devices: seq<Device>, among: set<string>)
    requires forall d, e :: d in devices && e in d.sources && e.Checks? ==> e.kind != REBOOT_KIND
    ensures Sum(devices, (d: Device) => DeviceCount(d, among)) == CountStatus(Flatten(devices), among)
  {
    if devices != [] {
      SumIsCount(devices[1..], among);
      AllChecksAreFlat(devices[0].sources);
      CountConcat(FlatEntries(devices[0].sources), Flatten(devices[1..]), among);
    }
  }

  lemma FinishedEntries(id: string, m: Merged)
    requires Regular(m.entries, id)
    ensures forall e :: e in Finish(id, m).sources && e.Checks? ==> e.kind != REBOOT_KIND
  {
    PutRebootsAppends(m.entries, Notes(AllChecks(m.entries)));
  }

  /** No check is lost or counted twice, whatever devices and kinds the sources fall into. */
  lemma ChecksAreConserved(xs: seq<Source>, fold: Fold, among: set<string>)
    requires NoRebootKind(xs)
    ensures Sum(Aggregate(xs, fold).devices, (d: Device) => DeviceCount(d, among)) == CountStatus(xs, among)
  {
    var merged := Merge(map[], xs);
    var ids := DeviceOrder(merged, fold);
    var devices := Aggregate(xs, fold).devices;
    MergeRegular(map[], xs);
    forall d, e | d in devices && e in d.sources && e.Checks?
      ensures e.kind != REBOOT_KIND
    {
      var i :| 0 <= i < |devices| && devices[i] == d;
      FinishedEntries(ids[i], merged[ids[i]]);
    }
    SumIsCount(devices, among);
    EvidenceKeptIffNoRebootKind(xs, fold);
    CountOfPermutation(Flatten(devices), xs, among);
  }

  /** What a run reports as its failed checks and its status, read off its sources. */
  lemma StatusFromSources(xs: seq<Source>, fold: Fold)
    requires NoRebootKind(xs)
    ensures Aggregate(xs, fold).failedChecks == CountStatus(xs, FAILING)
    ensures Aggregate(xs, fold).status ==
            if CountStatus(xs, FAILING) == 0 then Successful
            else if CountStatus(xs, SUCCEEDING) > 0 then Partial else Failed
  {
    var devices := Aggregate(xs, fold).devices;
    ChecksAreConserved(xs, fold, FAILING);
    ChecksAreConserved(xs, fold, SUCCEEDING);
    var updates := Select(devices, (d: Device) => d.requiresUpdates);
    if updates != [] {
      assert updates[0] in updates;
      var merged := Merge(map[], xs);
      var ids := DeviceOrder(merged, fold);
      MergeRegular(map[], xs);
      var i :| 0 <= i < |devices| && devices[i] == updates[0];
      UpdatesSucceed(ids[i], merged[ids[i]]);
      SumAtLeast(devices, (d: Device) => DeviceCount(d, SUCCEEDING), i);
    }
  }

  lemma {:induction false} SumAtLeast(devices: seq<Device>, w: Device -> nat, i: nat)
    requires i < |devices|
    ensures Sum(devices, w) >= w(devices[i])
  {
    if i > 0 {
      SumAtLeast(devices[1..], w, i - 1);
    }
  }

  lemma {:induction false} CountAtLeast(checks: seq<Source>, among: set<string>, i: nat)
    requires i < |checks| && checks[i].status in among
    ensures CountStatus(checks, among) > 0
  {
    if i > 0 {
      CountAtLeast(checks[1..], among, i - 1);
    }
  }

  lemma UpdatesSucceed(id: string, m: Merged)
    requires Regular(m.entries, id) && Finish(id, m).requiresUpdates
    ensures DeviceCount(Finish(id, m), SUCCEEDING) > 0
  {
    var checks := AllChecks(m.entries);
    var i :| 0 <= i < |checks| && checks[i].status == "updates_available";
    FinishedEntries(id, m);
    FinishKeepsChecks(id, m);
    AllChecksAreFlat(Finish(id, m).sources);
    AllChecksAreFlat(m.entries);
    CountAtLeast(checks, SUCCEEDING, i);
  }

  // ---- device flags from the sources -----------------------------------------------------

  lemma {:induction false} MergeMembers(xs: seq<Source>, id: string, c: Source)
    ensures id in Merge(map[], xs) ==> (c in AllChecks(Merge(map[], xs)[id].entries) <==> c in xs && c.deviceId == id)
    ensures id !in Merge(map[], xs) ==> !(c in xs && c.deviceId == id)
  {
    if xs != [] {
      var init, s := xs[..|xs| - 1], xs[|xs| - 1];
      assert xs == init + [s];
      MergeMembers(init, id, c);
      var before := Merge(map[], init);
      AddCheckMembers(if s.deviceId in before then before[s.deviceId].entries else [], s, c);
    }
  }

  lemma {:induction false} AddCheckMembers(entries: seq<Entry>, s: Source, c: Source)
    ensures c in AllChecks(AddCheck(entries, s)) <==> c in AllChecks(entries) || c == s
  {
    if entries != [] {
      var r := AddCheck(entries, s);
      if entries[0].Checks? && entries[0].kind == s.kind {
        assert r[1..] == entries[1..];
      } else {
        AddCheckMembers(entries[1..], s, c);
        assert r[1..] == AddCheck(entries[1..], s) && r[0] == entries[0];
      }
    }
  }

  ghost predicate Reported(xs: seq<Source>, id: string, status: string) {
    exists s :: s in xs && s.deviceId == id && s.status == status
  }

  ghost predicate ReportedAmong(xs: seq<Source>, id: string, among: set<string>) {
    exists s :: s in xs && s.deviceId == id && s.status in among
  }

  lemma ChecksOfDevice(xs: seq<Source>, id: string)
    requires id in Merge(map[], xs)
    ensures forall c :: c in AllChecks(Merge(map[], xs)[id].entries) <==> c in xs && c.deviceId == id
    ensures AllChecks(Merge(map[], xs)[id].entries) != []
  {
    forall c: Source
      ensures c in AllChecks(Merge(map[], xs)[id].entries) <==> c in xs && c.deviceId == id
    {
      MergeMembers(xs, id, c);
    }
    KindListsAreTheSources(xs, id, "");
    var some :| some in xs && some.deviceId == id;
    assert some in AllChecks(Merge(map[], xs)[id].entries);
  }

  lemma StatusMembers(checks: seq<Source>, among: set<string>)
    ensures forall st :: st in Statuses(checks) <==> exists c :: c in checks && c.status == st
    ensures Statuses(checks) * among != {} <==> exists c :: c in checks && c.status in among
  {
    if c :| c in checks && c.status in among {
      assert c.status in Statuses(checks) * among;
    }
    if Statuses(checks) * among != {} {
      var st :| st in Statuses(checks) * among;
    }
  }

  lemma OnlyUnsupported(checks: seq<Source>)
    requires checks != []
    ensures Statuses(checks) == {"unsupported"} <==> forall c :: c in checks ==> c.status == "unsupported"
  {
    assert checks[0].status in Statuses(checks);
    assert forall c :: c in checks ==> c.status in Statuses(checks);
  }

  /** A device's flags, for every mix of successful, failed and unreachable sources. */
  lemma FlagsFromSources(xs: seq<Source>, fold: Fold, d: Device)
    requires d in Aggregate(xs, fold).devices
    ensures d.requiresUpdates <==> Reported(xs, d.deviceId, "updates_available")
    ensures d.unreachable <==> Reported(xs, d.deviceId, "unreachable")
    ensures d.checkIncomplete <==> ReportedAmong(xs, d.deviceId, FAILING)
    ensures d.rebootRequired <==> exists s :: s in xs && s.deviceId == d.deviceId && s.rebootRequired == Some(true)
    ensures d.unsupported <==> forall s :: s in xs && s.deviceId == d.deviceId ==> s.status == "unsupported"
    ensures d.upToDate <==> Reported(xs, d.deviceId, "up_to_date") && !d.requiresUpdates && !d.checkIncomplete
  {
    var merged := Merge(map[], xs);
    var devices := Aggregate(xs, fold).devices;
    var i :| 0 <= i < |devices| && devices[i] == d;
    var id := DeviceOrder(merged, fold)[i];
    ChecksOfDevice(xs, id);
    var checks := AllChecks(merged[id].entries);
    StatusMembers(checks, FAILING);
    OnlyUnsupported(checks);
    FlagsFromChecks(xs, id, checks, d.requiresUpdates, "updates_available");
    FlagsFromChecks(xs, id, checks, d.unreachable, "unreachable");
    FlagsFromChecks(xs, id, checks, "up_to_date" in Statuses(checks), "up_to_date");
  }

  lemma FlagsFromChecks(xs: seq<Source>, id: string, checks: seq<Source>, flag: bool, status: string)
    requires forall c :: c in checks <==> c in xs && c.deviceId == id
    requires flag <==> status in Statuses(checks)
    ensures flag <==> Reported(xs, id, status)
  {
    StatusMembers(checks, {});
  }
}
