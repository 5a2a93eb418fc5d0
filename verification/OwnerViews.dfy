/** Owner-restricted views of a run and the identities that keep them well defined. */
module OwnerViews {
  import opened Common
  import opened Sorting
  import opened MorningAggregate
  import opened MorningEvidence

  function OwnedBy(owner: Option<string>): Device -> bool {
    (d: Device) => d.ownerId == owner
  }

  /** A member's view: their devices' sources, aggregated again. */
  ghost function View(devices: seq<Device>, owner: Option<string>, fold: Fold): Aggregated {
    Aggregate(Flatten(Select(devices, OwnedBy(owner))), fold)
  }

  /** The status a member sees: the run's own while none of its devices are theirs. */
  ghost function ViewStatus(devices: seq<Device>, runStatus: RunStatus, owner: Option<string>, fold: Fold): RunStatus {
    if Select(devices, OwnedBy(owner)) != [] then View(devices, owner, fold).status else runStatus
  }

  method ViewAggregate(devices: seq<Device>, runStatus: RunStatus, owner: Option<string>, fold: Fold)
    returns (result: Aggregated)
    ensures result == View(devices, owner, fold).(status := ViewStatus(devices, runStatus, owner, fold))
  {
    var visible := Select(devices, OwnedBy(owner));
    var sources := StoredSources(visible);
    result := AggregateSources(sources, fold);
    if visible == [] {
      result := result.(status := runStatus);
    }
  }

  // ---- a view keeps its devices unchanged ---------------------------------------------

  /** The ids, in listing order, of the devices with one owner. */
  function OwnedIds(merged: Merging, ids: seq<string>, owner: Option<string>): (r: seq<string>)
    requires forall i :: 0 <= i < |ids| ==> ids[i] in merged
    ensures forall i :: 0 <= i < |r| ==> r[i] in merged && merged[r[i]].ownerId == owner
    ensures forall id :: id in r <==> id in ids && merged[id].ownerId == owner
  {
    if ids == [] then []
    else (if merged[ids[0]].ownerId == owner then [ids[0]] else []) + OwnedIds(merged, ids[1..], owner)
  }

  lemma {:induction false} SelectOwned(merged: Merging, ids: seq<string>, owner: Option<string>)
    requires forall i :: 0 <= i < |ids| ==> ids[i] in merged
    ensures Select(FinishAll(merged, ids), OwnedBy(owner)) == FinishAll(merged, OwnedIds(merged, ids, owner))
  {
    if ids != [] {
      SelectOwned(merged, ids[1..], owner);
      var rest := OwnedIds(merged, ids[1..], owner);
      FinishFirst(merged, ids[0], ids[1..]);
      FinishFirst(merged, ids[0], rest);
      assert [ids[0]] + ids[1..] == ids;
      var all := FinishAll(merged, ids);
      assert all[0] == Finish(ids[0], merged[ids[0]]) && all[1..] == FinishAll(merged, ids[1..]);
    }
  }

  lemma {:induction false} OwnedIdsAscend(merged: Merging, ids: seq<string>, owner: Option<string>, less: Order)
    requires forall i :: 0 <= i < |ids| ==> ids[i] in merged
    requires forall i, j :: 0 <= i < j < |ids| ==> less(ids[i], ids[j])
    ensures forall i, j :: 0 <= i < j < |OwnedIds(merged, ids, owner)| ==>
              less(OwnedIds(merged, ids, owner)[i], OwnedIds(merged, ids, owner)[j])
  {
    if ids != [] {
      OwnedIdsAscend(merged, ids[1..], owner, less);
      var rest := OwnedIds(merged, ids[1..], owner);
      forall k | 0 <= k < |rest|
        ensures less(ids[0], rest[k])
      {
        assert rest[k] in ids[1..];
        var p :| 0 <= p < |ids| - 1 && ids[1..][p] == rest[k];
        assert ids[p + 1] == rest[k];
      }
    }
  }

  /** The listing order of some of the devices is the listing order of all, restricted. */
  lemma RestrictedOrder(merged: Merging, owner: Option<string>, fold: Fold)
    ensures var ids := OwnedIds(merged, DeviceOrder(merged, fold), owner);
            DeviceOrder(Restrict(merged, Elements(ids)), fold) == ids
  {
    var all := DeviceOrder(merged, fold);
    var ids := OwnedIds(merged, all, owner);
    var some := Restrict(merged, Elements(ids));
    OwnedIdsAscend(merged, all, owner, NameOrder(merged, fold));
    forall i, j | 0 <= i < j < |ids|
      ensures NameOrder(some, fold)(ids[i], ids[j])
    {
      assert NameOrder(merged, fold)(ids[i], ids[j]);
      assert ids[i] in Elements(ids) && ids[j] in Elements(ids);
    }
    assert Elements(ids) == some.Keys;
    NameOrderIsStrictTotal(some, fold);
    SortedUnique(NameOrder(some, fold), some.Keys, ids, DeviceOrder(some, fold));
  }

  lemma OwnedIdsDistinct(merged: Merging, owner: Option<string>, fold: Fold)
    ensures var ids := OwnedIds(merged, DeviceOrder(merged, fold), owner);
            forall i, j :: 0 <= i < j < |ids| ==> ids[i] != ids[j]
  {
    RestrictedOrder(merged, owner, fold);
  }

  /** Re-aggregating the visible sources returns exactly the visible device records. */
  lemma ViewShowsOwnedDevices(xs: seq<Source>, owner: Option<string>, fold: Fold)
    requires NoRebootKind(xs)
    ensures var devices := Aggregate(xs, fold).devices;
            View(devices, owner, fold) == Totals(Select(devices, OwnedBy(owner)))
    ensures var devices := Aggregate(xs, fold).devices;
            View(devices, owner, fold).devices == Select(devices, OwnedBy(owner))
  {
    var merged := Merge(map[], xs);
    var all := DeviceOrder(merged, fold);
    var ids := OwnedIds(merged, all, owner);
    MergeRegular(map[], xs);
    SelectOwned(merged, all, owner);
    OwnedIdsDistinct(merged, owner, fold);
    ReplayDevices(merged, ids, map[]);
    var some := Restrict(merged, Elements(ids));
    assert map[] + some == some;
    RestrictedOrder(merged, owner, fold);
    SameFinish(merged, ids);
  }

  lemma SameFinish(merged: Merging, ids: seq<string>)
    requires forall i :: 0 <= i < |ids| ==> ids[i] in merged
    ensures forall i :: 0 <= i < |ids| ==> ids[i] in Restrict(merged, Elements(ids))
    ensures FinishAll(Restrict(merged, Elements(ids)), ids) == FinishAll(merged, ids)
  {
    forall i | 0 <= i < |ids|
      ensures ids[i] in Restrict(merged, Elements(ids))
    {
      assert ids[i] in Elements(ids);
    }
  }

  // ---- a view is the aggregate of the owner's own sources ----------------------------------

  function OwnSources(xs: seq<Source>, owner: Option<string>): (r: seq<Source>)
    ensures forall s :: s in r <==> s in xs && s.ownerId == owner
  {
    if xs == [] then []
    else OwnSources(xs[..|xs| - 1], owner)
         + (if xs[|xs| - 1].ownerId == owner then [xs[|xs| - 1]] else [])
  }

  /** Sources that share a device id share an owner. */
  ghost predicate OneOwnerPerDevice(xs: seq<Source>) {
    forall s, t :: s in xs && t in xs && s.deviceId == t.deviceId ==> s.ownerId == t.ownerId
  }

  ghost predicate OwnersMatch(merged: Merging, xs: seq<Source>) {
    forall s :: s in xs ==> s.deviceId in merged && merged[s.deviceId].ownerId == s.ownerId
  }

  lemma {:induction false} MergeOwners(xs: seq<Source>)
    requires OneOwnerPerDevice(xs)
    ensures OwnersMatch(Merge(map[], xs), xs)
    ensures forall id :: id in Merge(map[], xs) ==> exists s :: s in xs && s.deviceId == id
  {
    if xs != [] {
      var init, s := xs[..|xs| - 1], xs[|xs| - 1];
      assert xs == init + [s];
      MergeOwners(init);
    }
  }

  function OwnedPart(merged: Merging, owner: Option<string>): Merging {
    map id | id in merged && merged[id].ownerId == owner :: merged[id]
  }

  lemma AddOwnSource(merged: Merging, s: Source, owner: Option<string>)
    requires s.deviceId in merged ==> merged[s.deviceId].ownerId == s.ownerId
    ensures OwnedPart(AddSource(merged, s), owner) ==
            if s.ownerId == owner then AddSource(OwnedPart(merged, owner), s) else OwnedPart(merged, owner)
  {
  }

  lemma MergeOneMore(xs: seq<Source>, s: Source)
    ensures Merge(map[], xs + [s]) == AddSource(Merge(map[], xs), s)
  {
    assert (xs + [s])[..|xs|] == xs;
  }

  lemma OwnOneMore(xs: seq<Source>, s: Source, owner: Option<string>)
    ensures OwnSources(xs + [s], owner) == OwnSources(xs, owner) + (if s.ownerId == owner then [s] else [])
  {
    assert (xs + [s])[..|xs|] == xs;
  }

  lemma {:induction false} MergeOwnSources(xs: seq<Source>, owner: Option<string>)
    requires OneOwnerPerDevice(xs)
    ensures Merge(map[], OwnSources(xs, owner)) == OwnedPart(Merge(map[], xs), owner)
  {
    if xs != [] {
      var init, s := xs[..|xs| - 1], xs[|xs| - 1];
      LastLast(xs);
      MergeOwnSources(init, owner);
      OwnerSoFar(init, s);
      AddOwnSource(Merge(map[], init), s, owner);
      MergeOneMore(init, s);
      OwnOneMore(init, s, owner);
      if s.ownerId == owner {
        MergeOneMore(OwnSources(init, owner), s);
      } else {
        assert OwnSources(init, owner) + [] == OwnSources(init, owner);
      }
    }
  }

  lemma OwnerSoFar(init: seq<Source>, s: Source)
    requires OneOwnerPerDevice(init + [s])
    ensures s.deviceId in Merge(map[], init) ==> Merge(map[], init)[s.deviceId].ownerId == s.ownerId
  {
    assert forall t :: t in init ==> t in init + [s];
    assert s in init + [s];
    MergeOwners(init);
  }

  lemma OneOwnerViews(xs: seq<Source>, owner: Option<string>, fold: Fold)
    requires NoRebootKind(xs) && OneOwnerPerDevice(xs)
    ensures View(Aggregate(xs, fold).devices, owner, fold) == Aggregate(OwnSources(xs, owner), fold)
  {
    var merged := Merge(map[], xs);
    var all := DeviceOrder(merged, fold);
    var ids := OwnedIds(merged, all, owner);
    ViewShowsOwnedDevices(xs, owner, fold);
    MergeOwnSources(xs, owner);
    SelectOwned(merged, all, owner);
    RestrictedOrder(merged, owner, fold);
    SameFinish(merged, ids);
    assert Elements(all) == merged.Keys;
    forall id
      ensures id in Elements(ids) <==> id in OwnedPart(merged, owner)
    {
      assert id in all <==> id in Elements(all);
    }
    assert OwnedPart(merged, owner) == Restrict(merged, Elements(ids));
  }

  lemma StoredUnderOneOwner(xs: seq<Source>, fold: Fold, s: Source)
    requires NoRebootKind(xs) && s in xs
    ensures exists owner :: s in Flatten(View(Aggregate(xs, fold).devices, owner, fold).devices)
                            && forall t :: t in xs && t.deviceId == s.deviceId ==>
                                             t in Flatten(View(Aggregate(xs, fold).devices, owner, fold).devices)
  {
    var merged := Merge(map[], xs);
    var all := DeviceOrder(merged, fold);
    KindListsAreTheSources(xs, s.deviceId, s.kind);
    var owner := merged[s.deviceId].ownerId;
    ViewShowsOwnedDevices(xs, owner, fold);
    SelectOwned(merged, all, owner);
    MergeRegular(map[], xs);
    MergeFiled(xs);
    OtherKindsAreAllIff(xs);
    OwnedIdsDistinct(merged, owner, fold);
    var ids := OwnedIds(merged, all, owner);
    assert s.deviceId in Elements(all);
    assert s.deviceId in ids;
    forall t | t in xs && t.deviceId == s.deviceId
      ensures t in Flatten(FinishAll(merged, ids))
    {
      MergeKeepsCount(xs, t);
      FlattenCount(merged, ids, t);
      assert t in multiset(xs);
      assert t in multiset(Flatten(FinishAll(merged, ids)));
    }
  }

  /** Exactly when every view is the aggregate of that owner's sources: one owner per device. */
  lemma ViewsAreOwnIffOneOwner(xs: seq<Source>, fold: Fold)
    requires NoRebootKind(xs)
    ensures (forall owner :: View(Aggregate(xs, fold).devices, owner, fold) == Aggregate(OwnSources(xs, owner), fold))
            <==> OneOwnerPerDevice(xs)
  {
    var devices := Aggregate(xs, fold).devices;
    if OneOwnerPerDevice(xs) {
      forall owner
        ensures View(devices, owner, fold) == Aggregate(OwnSources(xs, owner), fold)
      {
        OneOwnerViews(xs, owner, fold);
      }
    } else {
      var s, t :| s in xs && t in xs && s.deviceId == t.deviceId && s.ownerId != t.ownerId;
      StoredUnderOneOwner(xs, fold, s);
      var owner :| s in Flatten(View(devices, owner, fold).devices)
                   && forall t :: t in xs && t.deviceId == s.deviceId ==>
                         t in Flatten(View(devices, owner, fold).devices);
      var alien := if s.ownerId == owner then t else s;
      EvidenceKeptIffNoRebootKind(OwnSources(xs, owner), fold);
      assert alien !in OwnSources(xs, owner);
      assert alien in multiset(Flatten(View(devices, owner, fold).devices));
      assert alien !in multiset(OwnSources(xs, owner));
    }
  }

  // ---- the views partition the run -------------------------------------------------------------

  function SumOver(owners: seq<Option<string>>, f: Option<string> -> nat): nat {
    if owners == [] then 0 else f(owners[0]) + SumOver(owners[1..], f)
  }

  ghost predicate Distinct(owners: seq<Option<string>>) {
    forall i, j :: 0 <= i < j < |owners| ==> owners[i] != owners[j]
  }

  function OwnedSum(devices: seq<Device>, w: Device -> nat): Option<string> -> nat {
    (owner: Option<string>) => Sum(Select(devices, OwnedBy(owner)), w)
  }

  lemma OwnedSumOne(d: Device, rest: seq<Device>, w: Device -> nat, o: Option<string>)
    ensures OwnedSum([d] + rest, w)(o) == OwnedSum(rest, w)(o) + if d.ownerId == o then w(d) else 0
  {
    var owned := Select(rest, OwnedBy(o));
    assert ([d] + rest)[1..] == rest;
    assert ([d] + owned)[1..] == owned;
    assert Select([d] + rest, OwnedBy(o)) == if d.ownerId == o then [d] + owned else [] + owned;
    assert [] + owned == owned;
    assert Sum([d] + owned, w) == w(d) + Sum(owned, w);
  }

  lemma {:induction false} SumOverOne(owners: seq<Option<string>>, d: Device, rest: seq<Device>, w: Device -> nat)
    requires Distinct(owners)
    ensures SumOver(owners, OwnedSum([d] + rest, w)) ==
            SumOver(owners, OwnedSum(rest, w)) + if d.ownerId in owners then w(d) else 0
  {
    if owners != [] {
      SumOverOne(owners[1..], d, rest, w);
      OwnedSumOne(d, rest, w, owners[0]);
      assert owners == [owners[0]] + owners[1..];
    }
  }

  /** Whatever is summed over devices is the sum of what each owner sees. */
  lemma {:induction false} OwnersPartition(devices: seq<Device>, owners: seq<Option<string>>, w: Device -> nat)
    requires Distinct(owners) && forall d :: d in devices ==> d.ownerId in owners
    ensures SumOver(owners, OwnedSum(devices, w)) == Sum(devices, w)
  {
    if devices == [] {
      NothingOwned(owners, w);
    } else {
      OwnersPartition(devices[1..], owners, w);
      SumOverOne(owners, devices[0], devices[1..], w);
      assert devices == [devices[0]] + devices[1..];
    }
  }

  lemma {:induction false} NothingOwned(owners: seq<Option<string>>, w: Device -> nat)
    ensures SumOver(owners, OwnedSum([], w)) == 0
  {
    if owners != [] {
      NothingOwned(owners[1..], w);
    }
  }

  function Indicator(p: Device -> bool): Device -> nat {
    (d: Device) => if p(d) then 1 else 0
  }

  lemma {:induction false} SizeIsSum(devices: seq<Device>, p: Device -> bool)
    ensures |Select(devices, p)| == Sum(devices, Indicator(p))
  {
    if devices != [] {
      SizeIsSum(devices[1..], p);
    }
  }

  lemma {:induction false} SameSummands(owners: seq<Option<string>>, f: Option<string> -> nat, g: Option<string> -> nat)
    requires forall o :: o in owners ==> f(o) == g(o)
    ensures SumOver(owners, f) == SumOver(owners, g)
  {
    if owners != [] {
      SameSummands(owners[1..], f, g);
    }
  }

  /** A figure of the view, per owner. */
  ghost function Shown(xs: seq<Source>, fold: Fold, figure: Aggregated -> nat): Option<string> -> nat {
    (owner: Option<string>) => figure(View(Aggregate(xs, fold).devices, owner, fold))
  }

  lemma ShownPartition(xs: seq<Source>, fold: Fold, owners: seq<Option<string>>, figure: Aggregated -> nat,
                       w: Device -> nat)
    requires NoRebootKind(xs)
    requires Distinct(owners) && forall d :: d in Aggregate(xs, fold).devices ==> d.ownerId in owners
    requires forall devices :: figure(Totals(devices)) == Sum(devices, w)
    ensures SumOver(owners, Shown(xs, fold, figure)) == figure(Aggregate(xs, fold))
  {
    var devices := Aggregate(xs, fold).devices;
    forall o | o in owners
      ensures Shown(xs, fold, figure)(o) == OwnedSum(devices, w)(o)
    {
      ViewShowsOwnedDevices(xs, o, fold);
    }
    SameSummands(owners, Shown(xs, fold, figure), OwnedSum(devices, w));
    OwnersPartition(devices, owners, w);
    assert Aggregate(xs, fold) == Totals(devices);
  }

  /** Over all owners, the devices, updates, reboots and failed checks add up to the run's. */
  lemma ViewsPartitionTheRun(xs: seq<Source>, fold: Fold, owners: seq<Option<string>>)
    requires NoRebootKind(xs)
    requires Distinct(owners) && forall d :: d in Aggregate(xs, fold).devices ==> d.ownerId in owners
    ensures SumOver(owners, Shown(xs, fold, (a: Aggregated) => a.uniqueDevicesChecked)) ==
              Aggregate(xs, fold).uniqueDevicesChecked
    ensures SumOver(owners, Shown(xs, fold, (a: Aggregated) => a.devicesRequiringUpdates)) ==
              Aggregate(xs, fold).devicesRequiringUpdates
    ensures SumOver(owners, Shown(xs, fold, (a: Aggregated) => a.devicesRequiringReboot)) ==
              Aggregate(xs, fold).devicesRequiringReboot
    ensures SumOver(owners, Shown(xs, fold, (a: Aggregated) => a.failedChecks)) == Aggregate(xs, fold).failedChecks
  {
    forall devices: seq<Device>
      ensures Totals(devices).uniqueDevicesChecked == Sum(devices, Indicator((d: Device) => !d.unsupported))
      ensures Totals(devices).devicesRequiringUpdates == Sum(devices, Indicator((d: Device) => d.requiresUpdates))
      ensures Totals(devices).devicesRequiringReboot == Sum(devices, Indicator((d: Device) => d.rebootRequired))
    {
      SizeIsSum(devices, (d: Device) => !d.unsupported);
      SizeIsSum(devices, (d: Device) => d.requiresUpdates);
      SizeIsSum(devices, (d: Device) => d.rebootRequired);
    }
    ShownPartition(xs, fold, owners, (a: Aggregated) => a.uniqueDevicesChecked,
                   Indicator((d: Device) => !d.unsupported));
    ShownPartition(xs, fold, owners, (a: Aggregated) => a.devicesRequiringUpdates,
                   Indicator((d: Device) => d.requiresUpdates));
    ShownPartition(xs, fold, owners, (a: Aggregated) => a.devicesRequiringReboot,
                   Indicator((d: Device) => d.rebootRequired));
    ShownPartition(xs, fold, owners, (a: Aggregated) => a.failedChecks, (d: Device) => DeviceCount(d, FAILING));
  }
}
