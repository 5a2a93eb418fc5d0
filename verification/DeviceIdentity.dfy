/** The canonical device identity of a compute workload, and why it keeps owners apart. */
module DeviceIdentity {
  import opened Common
  import opened MorningAggregate
  import OwnerViews

  datatype DeviceRecord = DeviceRecord(id: string, ownerId: Option<string>, host: string)

  datatype Instance = Instance(
    id: string, ownerId: Option<string>, mappedDevice: Option<string>, inventoryHost: string)

  datatype Document = Document(devices: map<string, DeviceRecord>, instances: map<string, Instance>)

  /** Stripping and case folding of a host name. */
  type Normalise = string -> string

  predicate SameHost(instance: Instance, device: DeviceRecord, norm: Normalise) {
    device.ownerId == instance.ownerId && norm(device.host) == norm(instance.inventoryHost)
  }

  lemma OneElement(s: set<string>, a: string, b: string)
    requires |s| == 1 && a in s && b in s
    ensures a == b
  {
    RemoveOne(s, a);
    assert b !in s - {a};
  }

  /** An explicit mapping, else the only host match, else the workload's own id. */
  function IdentityForCompute(instance: Instance, doc: Document, norm: Normalise): (string, string) {
    var mapped := instance.mappedDevice;
    if mapped.Some? && mapped.value in doc.devices && doc.devices[mapped.value].ownerId == instance.ownerId then
      (mapped.value, "device")
    else
      var matches := set k | k in doc.devices && SameHost(instance, doc.devices[k], norm);
      if norm(instance.inventoryHost) != "" && |matches| == 1 then
        assert matches != {};
        assert forall a, b :: a in matches && b in matches ==> a == b by {
          forall a, b | a in matches && b in matches
            ensures a == b
          {
            OneElement(matches, a, b);
          }
        }
        var k :| k in matches;
        (doc.devices[k].id, "device")
      else (instance.id, "compute")
  }

  /** Ids are random hexadecimal words: records carry the key they are stored under, no id
      holds a colon, and devices and workloads share none. */
  ghost predicate WellKeyed(doc: Document) {
    && (forall k :: k in doc.devices ==> doc.devices[k].id == k && ':' !in k)
    && (forall k :: k in doc.instances ==> doc.instances[k].id == k && ':' !in k)
    && doc.devices.Keys !! doc.instances.Keys
  }

  /** A workload is only ever identified with a device of its own owner. */
  lemma IdentityKeepsOwner(instance: Instance, doc: Document, norm: Normalise)
    requires WellKeyed(doc)
    ensures var (id, kind) := IdentityForCompute(instance, doc, norm);
            if kind == "device" then id in doc.devices && doc.devices[id].ownerId == instance.ownerId
            else id == instance.id
  {
  }

  // ---- the nodes of a cluster ---------------------------------------------------------------

  /** A Proxmox device reports each of its nodes under an id of the node's own. */
  function NodeId(deviceId: string, node: string): string {
    deviceId + ":node:" + node
  }

  /** What stands before the first colon. */
  function Root(id: string): string {
    if id == "" || id[0] == ':' then "" else [id[0]] + Root(id[1..])
  }

  lemma {:induction false} RootOf(id: string, rest: string)
    requires ':' !in id
    ensures Root(id + ":" + rest) == id && Root(id) == id
  {
    if id != "" {
      RootOf(id[1..], rest);
      assert (id + ":" + rest)[1..] == id[1..] + ":" + rest;
    }
  }

  lemma RootOfNode(deviceId: string, node: string)
    requires ':' !in deviceId
    ensures Root(NodeId(deviceId, node)) == deviceId && NodeId(deviceId, node) != deviceId
  {
    RootOf(deviceId, "node:" + node);
    assert NodeId(deviceId, node) == deviceId + ":" + ("node:" + node);
  }

  /** Nodes of different devices, or different nodes of one, never share an id. */
  lemma NodeIdsDiffer(d: string, node: string, e: string, other: string)
    requires ':' !in d && ':' !in e && NodeId(d, node) == NodeId(e, other)
    ensures d == e && node == other
  {
    RootOfNode(d, node);
    RootOfNode(e, other);
    assert node == NodeId(d, node)[|d| + 6..];
    assert other == NodeId(e, other)[|e| + 6..];
  }

  // ---- the sources of a run --------------------------------------------------------------------

  ghost predicate NodeOf(s: Source, doc: Document, d: string, node: string) {
    d in doc.devices && s.deviceId == NodeId(d, node) && s.ownerId == doc.devices[d].ownerId
  }

  ghost predicate WorkloadOf(s: Source, doc: Document, norm: Normalise, k: string) {
    && k in doc.instances && s.ownerId == doc.instances[k].ownerId
    && s.deviceId == IdentityForCompute(doc.instances[k], doc, norm).0
  }

  /** A check of a stored device, of a node of one, or of a stored workload under its
      canonical identity. */
  ghost predicate FromDocument(s: Source, doc: Document, norm: Normalise) {
    || (s.deviceId in doc.devices && s.ownerId == doc.devices[s.deviceId].ownerId)
    || (exists d, node :: NodeOf(s, doc, d, node))
    || (exists k :: WorkloadOf(s, doc, norm, k))
  }

  /** The documents a run reads, phase by phase: records come and go, but an id never changes
      its owner and is never given again. */
  ghost predicate OwnersAgree(docs: seq<Document>) {
    && (forall i :: 0 <= i < |docs| ==> WellKeyed(docs[i]))
    && (forall i, j :: 0 <= i < |docs| && 0 <= j < |docs| ==> Agree(docs[i], docs[j]))
  }

  ghost predicate Agree(a: Document, b: Document) {
    && (forall k :: k in a.devices && k in b.devices ==> a.devices[k].ownerId == b.devices[k].ownerId)
    && (forall k :: k in a.instances && k in b.instances ==> a.instances[k].ownerId == b.instances[k].ownerId)
    && a.devices.Keys !! b.instances.Keys
  }

  /** The record an id starts with names the owner. */
  ghost predicate OwnedIn(id: string, owner: Option<string>, doc: Document) {
    || (Root(id) in doc.devices && owner == doc.devices[Root(id)].ownerId)
    || (Root(id) in doc.instances && owner == doc.instances[Root(id)].ownerId)
  }

  lemma SourceIsOwned(s: Source, doc: Document, norm: Normalise)
    requires WellKeyed(doc) && FromDocument(s, doc, norm)
    ensures OwnedIn(s.deviceId, s.ownerId, doc)
  {
    if s.deviceId in doc.devices && s.ownerId == doc.devices[s.deviceId].ownerId {
      RootOf(s.deviceId, "");
    } else if d, node :| NodeOf(s, doc, d, node) {
      RootOfNode(d, node);
    } else {
      var k :| WorkloadOf(s, doc, norm, k);
      IdentityKeepsOwner(doc.instances[k], doc, norm);
      RootOf(s.deviceId, "");
    }
  }

  /** Canonical identities give every device a single owner, so every member's view of a run
      is exactly the aggregate of that member's own sources. */
  lemma CanonicalIdentitiesSeparateOwners(xs: seq<Source>, docs: seq<Document>, norm: Normalise, fold: Fold)
    requires OwnersAgree(docs) && NoRebootKind(xs)
    requires forall s :: s in xs ==> exists i :: 0 <= i < |docs| && FromDocument(s, docs[i], norm)
    ensures OwnerViews.OneOwnerPerDevice(xs)
    ensures forall owner :: OwnerViews.View(Aggregate(xs, fold).devices, owner, fold)
                            == Aggregate(OwnerViews.OwnSources(xs, owner), fold)
  {
    forall s, t | s in xs && t in xs && s.deviceId == t.deviceId
      ensures s.ownerId == t.ownerId
    {
      var i :| 0 <= i < |docs| && FromDocument(s, docs[i], norm);
      var j :| 0 <= j < |docs| && FromDocument(t, docs[j], norm);
      SourceIsOwned(s, docs[i], norm);
      SourceIsOwned(t, docs[j], norm);
      assert Agree(docs[i], docs[j]) && Agree(docs[j], docs[i]);
    }
    OwnerViews.ViewsAreOwnIffOneOwner(xs, fold);
  }
}
