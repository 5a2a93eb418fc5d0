/** Switching a WireGuard endpoint on an external firewall, with rollback and audit.

    Any driver call may fail.  A peer save that fails has no effect; a gateway save
    that fails may have changed that gateway; a failed regeneration or restart may
    or may not have happened.  Nobody else edits the firewall meanwhile. */
module EndpointSwitch {
  import opened Common

  const MAX_HISTORY: nat := 100
  const HANDSHAKE_READS: nat := 6

  /** A stored configuration record: field name to value. */
  type Record = map<string, string>

  function Get(r: Record, field: string): Option<string> {
    if field in r then Some(r[field]) else None
  }

  // ---- the firewall -------------------------------------------------------------

  datatype Call = Connect | ReadPeer | ReadGateway | SavePeer | SaveGateway | Regenerate | Restart | ReadStatus

  /** One driver call: whether it succeeded, and the handshake time a status read returned. */
  datatype Attempt = Attempt(call: Call, ok: bool, handshake: Option<int>)

  class Firewall {
    var peers: map<string, Record>
    var gateways: map<string, Record>
    var generated: map<string, Record>
    var running: map<string, map<string, Record>>
    ghost var calls: seq<Attempt>

    method Open() returns (ok: bool)
      modifies `calls
      ensures calls == old(calls) + [Attempt(Connect, ok, None)]
    {
      ok := *;
      calls := calls + [Attempt(Connect, ok, None)];
    }

    method Peer(uuid: string) returns (r: Option<Record>)
      modifies `calls
      ensures r.Some? ==> uuid in peers && r.value == peers[uuid]
      ensures calls == old(calls) + [Attempt(ReadPeer, r.Some?, None)]
    {
      var up: bool := *;
      r := if up && uuid in peers then Some(peers[uuid]) else None;
      calls := calls + [Attempt(ReadPeer, r.Some?, None)];
    }

    method Gateway(uuid: string) returns (r: Option<Record>)
      modifies `calls
      ensures r.Some? ==> uuid in gateways && r.value == gateways[uuid]
      ensures calls == old(calls) + [Attempt(ReadGateway, r.Some?, None)]
    {
      var up: bool := *;
      r := if up && uuid in gateways then Some(gateways[uuid]) else None;
      calls := calls + [Attempt(ReadGateway, r.Some?, None)];
    }

    method UpdatePeer(uuid: string, peer: Record) returns (ok: bool)
      modifies `peers, `calls
      ensures peers == if ok then old(peers)[uuid := peer] else old(peers)
      ensures calls == old(calls) + [Attempt(SavePeer, ok, None)]
    {
      ok := *;
      if ok {
        peers := peers[uuid := peer];
      }
      calls := calls + [Attempt(SavePeer, ok, None)];
    }

    method UpdateGateway(uuid: string, gateway: Record) returns (ok: bool)
      modifies `gateways, `calls
      ensures ok ==> gateways == old(gateways)[uuid := gateway]
      ensures gateways - {uuid} == old(gateways) - {uuid}
      ensures calls == old(calls) + [Attempt(SaveGateway, ok, None)]
    {
      ok := *;
      var stored: Record := *;
      var touched: bool := *;
      if ok {
        gateways := gateways[uuid := gateway];
      } else if touched {
        gateways := gateways[uuid := stored];
      }
      calls := calls + [Attempt(SaveGateway, ok, None)];
    }

    method Reconfigure() returns (ok: bool)
      modifies `generated, `calls
      ensures ok ==> generated == peers
      ensures calls == old(calls) + [Attempt(Regenerate, ok, None)]
    {
      ok := *;
      var done: bool := *;
      if ok || done {
        generated := peers;
      }
      calls := calls + [Attempt(Regenerate, ok, None)];
    }

    method RestartInstance(instance: string) returns (ok: bool)
      modifies `running, `calls
      ensures ok ==> instance != "" && running == old(running)[instance := generated]
      ensures running - {instance} == old(running) - {instance}
      ensures calls == old(calls) + [Attempt(Restart, ok, None)]
    {
      ok := *;
      ok := ok && instance != "";
      var done: bool := *;
      var down: bool := *;
      if ok || done {
        running := running[instance := generated];
      } else if down {
        running := running - {instance};
      }
      calls := calls + [Attempt(Restart, ok, None)];
    }

    /** The latest handshake of a peer; `ok` is false when the read failed. */
    method Status() returns (ok: bool, handshake: Option<int>)
      modifies `calls
      ensures calls == old(calls) + [Attempt(ReadStatus, ok, handshake)]
      ensures !ok ==> handshake == None
    {
      ok := *;
      var h: Option<int> := *;
      handshake := if ok then h else None;
      calls := calls + [Attempt(ReadStatus, ok, handshake)];
    }
  }

  // ---- who may switch to what -------------------------------------------------------

  datatype Profile = Profile(id: string, enabled: bool, peerUuid: string, instanceUuid: string, gatewayUuid: string)

  datatype Candidate = Candidate(
    candidateId: string, classification: string, endpointIp: string, endpointPort: Option<int>, publicKey: string)

  datatype ManagedDevice = ManagedDevice(
    ownerId: string, profiles: seq<Profile>, lastCandidates: map<string, seq<Candidate>>)

  datatype SwitchError =
    | NotConfirmed | DeviceNotFound | ProfileNotFound | NotConfigured | NotSelectable | MalformedCandidate

  function FindProfile(profiles: seq<Profile>, id: string): Option<Profile> {
    if profiles == [] then None
    else if profiles[0].id == id then Some(profiles[0]) else FindProfile(profiles[1..], id)
  }

  function SelectedProfile(profiles: seq<Profile>, id: Option<string>): Option<Profile> {
    if id.None? then (if profiles == [] then None else Some(profiles[0]))
    else FindProfile(profiles, id.value)
  }

  function FindCandidate(candidates: seq<Candidate>, id: string): Option<Candidate> {
    if candidates == [] then None
    else if candidates[0].candidateId == id then Some(candidates[0]) else FindCandidate(candidates[1..], id)
  }

  /** The checks made before anything is contacted. */
  function Admit(confirmed: bool, device: Option<ManagedDevice>, ownerId: string, profileId: Option<string>,
                 candidateId: string, validIp: string -> bool): Result<(Profile, Candidate), SwitchError>
  {
    if !confirmed then Err(NotConfirmed)
    else if device.None? || device.value.ownerId != ownerId then Err(DeviceNotFound)
    else
      var selected := SelectedProfile(device.value.profiles, profileId);
      if selected.None? then Err(ProfileNotFound)
      else
        var profile := selected.value;
        if !profile.enabled || profile.peerUuid == "" then Err(NotConfigured)
        else
          var last := device.value.lastCandidates;
          var known := if profile.id in last then last[profile.id] else [];
          var found := FindCandidate(known, candidateId);
          if found.None? || found.value.classification !in {"Preferred", "Eligible"} then Err(NotSelectable)
          else
            var c := found.value;
            if !validIp(c.endpointIp) || c.endpointPort.None? || !(1 <= c.endpointPort.value <= 65535)
               || c.publicKey == ""
            then Err(MalformedCandidate) else Ok((profile, c))
  }

  // ---- what the switch plans ------------------------------------------------------------

  function IsSpace(c: char): bool {
    c in {' ', '\t', '\n', '\r'}
  }

  function Strip(s: string): string
    decreases |s|
  {
    if s == "" then s
    else if IsSpace(s[0]) then Strip(s[1..])
    else if IsSpace(s[|s| - 1]) then Strip(s[..|s| - 1]) else s
  }

  function SplitCommas(s: string): seq<string> {
    if s == "" then [""]
    else
      var rest := SplitCommas(s[1..]);
      if s[0] == ',' then [""] + rest
      else if rest == [] then [[s[0]]] else [[s[0]] + rest[0]] + rest[1..]
  }

  /** The WireGuard instances a peer lists. */
  function PeerInstances(peer: Record): set<string> {
    set v | v in SplitCommas(if "servers" in peer then peer["servers"] else "") && Strip(v) != "" :: Strip(v)
  }

  predicate Associated(peer: Record, instance: string) {
    PeerInstances(peer) == {} || instance in PeerInstances(peer)
  }

  /** The port is written back as text. */
  type Digits = int -> string

  function Replacement(peer: Record, c: Candidate, digits: Digits): Record {
    peer["serveraddress" := c.endpointIp]
        ["serverport" := digits(if c.endpointPort.Some? then c.endpointPort.value else 0)]
        ["pubkey" := c.publicKey]
  }

  /** A gateway field follows the endpoint where it equals the peer's old address; a field and
      an address that are both missing, or both empty, count as equal. */
  predicate Follows(gateway: Record, peer: Record, field: string) {
    Get(gateway, field) == Get(peer, "serveraddress")
  }

  predicate GatewayFollows(gateway: Record, peer: Record) {
    gateway != map[] && (Follows(gateway, peer, "gateway") || Follows(gateway, peer, "monitor"))
  }

  function Redirect(gateway: Record, peer: Record, field: string, ip: string): Record {
    if Follows(gateway, peer, field) then gateway[field := ip] else gateway
  }

  function PlannedGateway(gateway: Record, peer: Record, ip: string): Record {
    if gateway == map[] then gateway
    else Redirect(Redirect(gateway, peer, "gateway", ip), peer, "monitor", ip)
  }

  method PlanGateway(gateway: Record, peer: Record, ip: string) returns (after: Record, changed: bool)
    ensures changed == GatewayFollows(gateway, peer)
    ensures after == PlannedGateway(gateway, peer, ip)
  {
    after, changed := gateway, false;
    if gateway != map[] {
      if Get(after, "gateway") == Get(peer, "serveraddress") {
        after, changed := after["gateway" := ip], true;
      }
      if Get(after, "monitor") == Get(peer, "serveraddress") {
        after, changed := after["monitor" := ip], true;
      }
    }
  }

  /** A planned gateway differs in the two address fields only, and is the gateway itself unless
      one of them equals the peer's old address.  For a peer that has an address, a gateway that
      names it nowhere is never touched; for one that has none, a gateway that lacks an address
      or a monitor is given the new address all the same. */
  lemma UnrelatedGatewayIsUntouched(gateway: Record, peer: Record, ip: string)
    ensures forall field :: field != "gateway" && field != "monitor" ==>
              Get(PlannedGateway(gateway, peer, ip), field) == Get(gateway, field)
    ensures !GatewayFollows(gateway, peer) ==> PlannedGateway(gateway, peer, ip) == gateway
    ensures "serveraddress" in peer ==>
              (GatewayFollows(gateway, peer) <==>
                ("gateway" in gateway && gateway["gateway"] == peer["serveraddress"])
                || ("monitor" in gateway && gateway["monitor"] == peer["serveraddress"]))
    ensures "serveraddress" !in peer ==>
              (GatewayFollows(gateway, peer) <==> gateway != map[] && ("gateway" !in gateway || "monitor" !in gateway))
  {
  }

  // ---- the two sagas -----------------------------------------------------------------------

  /** What the forward stages leave behind, for the rollback and the result. */
  datatype Progress = Progress(
    verified: bool, configurationChanged: bool, changedGateway: bool,
    before: Option<Record>, gatewayBefore: Option<Record>)

  ghost predicate SawHandshake(calls: seq<Attempt>, since: int) {
    exists i :: 0 <= i < |calls| && calls[i].call == ReadStatus && calls[i].ok
                && calls[i].handshake.Some? && calls[i].handshake.value != 0 && calls[i].handshake.value >= since
  }

  /** Some call other than a handshake read failed. */
  ghost predicate SomeFailed(calls: seq<Attempt>) {
    exists i :: 0 <= i < |calls| && !calls[i].ok && calls[i].call != ReadStatus
  }

  ghost predicate PeerSaved(calls: seq<Attempt>) {
    exists i :: 0 <= i < |calls| && calls[i].ok && calls[i].call == SavePeer
  }

  lemma OneMore(calls: seq<Attempt>, n: nat, a: Attempt)
    requires n <= |calls|
    ensures SomeFailed((calls + [a])[n..]) <==> SomeFailed(calls[n..]) || (!a.ok && a.call != ReadStatus)
    ensures PeerSaved((calls + [a])[n..]) <==> PeerSaved(calls[n..]) || (a.ok && a.call == SavePeer)
  {
    var before, after := calls[n..], (calls + [a])[n..];
    assert after == before + [a];
    assert after[|before|] == a;
    assert forall i :: 0 <= i < |before| ==> after[i] == before[i];
  }

  /** Up to six status reads; a read that fails ends the wait. */
  method AwaitHandshake(fw: Firewall, start: int) returns (verified: bool)
    modifies fw`calls
    ensures verified ==> |fw.calls| > |old(fw.calls)| && SawHandshake(fw.calls[|old(fw.calls)|..], start)
    ensures old(fw.calls) <= fw.calls && |fw.calls| <= |old(fw.calls)| + HANDSHAKE_READS
    ensures forall i :: |old(fw.calls)| <= i < |fw.calls| ==> fw.calls[i].call == ReadStatus
    ensures !verified && (forall i :: |old(fw.calls)| <= i < |fw.calls| ==> fw.calls[i].ok)
            ==> |fw.calls| == |old(fw.calls)| + HANDSHAKE_READS
  {
    var n := 0;
    while n < HANDSHAKE_READS
      invariant 0 <= n <= HANDSHAKE_READS
      invariant old(fw.calls) <= fw.calls && |fw.calls| == |old(fw.calls)| + n
      invariant forall i :: |old(fw.calls)| <= i < |fw.calls| ==> fw.calls[i].call == ReadStatus && fw.calls[i].ok
    {
      var ok, handshake := fw.Status();
      if !ok {
        assert !fw.calls[|fw.calls| - 1].ok;
        return false;
      }
      if handshake.Some? && handshake.value != 0 && handshake.value >= start {
        var mine := fw.calls[|old(fw.calls)|..];
        assert mine[|mine| - 1] == Attempt(ReadStatus, true, handshake);
        return true;
      }
      n := n + 1;
    }
    verified := false;
  }

  /** Only the selected peer, gateway and instance can differ. */
  twostate predicate OnlySelectedChanged(fw: Firewall, p: Profile)
    reads fw
  {
    && fw.peers - {p.peerUuid} == old(fw.peers) - {p.peerUuid}
    && fw.gateways - {p.gatewayUuid} == old(fw.gateways) - {p.gatewayUuid}
    && fw.running - {p.instanceUuid} == old(fw.running) - {p.instanceUuid}
  }

  twostate predicate Untouched(fw: Firewall)
    reads fw
  {
    && fw.peers == old(fw.peers) && fw.gateways == old(fw.gateways)
    && fw.generated == old(fw.generated) && fw.running == old(fw.running)
  }

  /** The firewall runs the replacement, with the gateway as planned. */
  twostate predicate Switched(fw: Firewall, p: Profile, c: Candidate, digits: Digits, changedGateway: bool)
    reads fw
  {
    && p.peerUuid in old(fw.peers)
    && fw.peers == old(fw.peers)[p.peerUuid := Replacement(old(fw.peers)[p.peerUuid], c, digits)]
    && fw.generated == fw.peers && p.instanceUuid in fw.running && fw.running[p.instanceUuid] == fw.peers
    && (if changedGateway then
          && p.gatewayUuid in old(fw.gateways)
          && fw.gateways == old(fw.gateways)[p.gatewayUuid :=
               PlannedGateway(old(fw.gateways)[p.gatewayUuid], old(fw.peers)[p.peerUuid], c.endpointIp)]
        else fw.gateways == old(fw.gateways))
  }

  /** Everything saved is as it was, and has been generated and restarted. */
  twostate predicate Restored(fw: Firewall, p: Profile)
    reads fw
  {
    && fw.peers == old(fw.peers) && fw.gateways == old(fw.gateways)
    && fw.generated == fw.peers && p.instanceUuid in fw.running && fw.running[p.instanceUuid] == fw.peers
  }

  /** The gateway of the selected profile was going to follow the endpoint. */
  predicate PlansGateway(peers: map<string, Record>, gateways: map<string, Record>, p: Profile) {
    && p.gatewayUuid != "" && p.gatewayUuid in gateways && p.peerUuid in peers
    && GatewayFollows(gateways[p.gatewayUuid], peers[p.peerUuid])
  }

  /** The forward stages up to the plan: nothing is written yet. */
  method Prepare(fw: Firewall, p: Profile, c: Candidate) returns (r: Progress, gatewayAfter: Record, ready: bool)
    modifies fw`calls
    ensures old(fw.calls) <= fw.calls && !PeerSaved(fw.calls[|old(fw.calls)|..])
    ensures !r.verified && !r.configurationChanged
    ensures r.changedGateway ==> ready
    ensures ready ==>
              && p.peerUuid in fw.peers && r.before == Some(fw.peers[p.peerUuid])
              && r.changedGateway == PlansGateway(fw.peers, fw.gateways, p)
              && (r.changedGateway ==>
                    && r.gatewayBefore == Some(fw.gateways[p.gatewayUuid])
                    && gatewayAfter == PlannedGateway(fw.gateways[p.gatewayUuid], fw.peers[p.peerUuid], c.endpointIp))
    ensures ready || SomeFailed(fw.calls[|old(fw.calls)|..]) || p.peerUuid in fw.peers
    ensures ready <==> !SomeFailed(fw.calls[|old(fw.calls)|..])
                       && p.peerUuid in fw.peers && Associated(fw.peers[p.peerUuid], p.instanceUuid)
  {
    r, gatewayAfter, ready := Progress(false, false, false, None, None), map[], false;
    ghost var n := |fw.calls|;
    var connected := fw.Open();
    OneMore(old(fw.calls), n, Attempt(Connect, connected, None));
    if !connected {
      return;
    }
    label linked:
    var before := fw.Peer(p.peerUuid);
    OneMore(old@linked(fw.calls), n, Attempt(ReadPeer, before.Some?, None));
    if before.None? {
      return;
    }
    r := r.(before := before);
    if !Associated(before.value, p.instanceUuid) {
      return;
    }
    if p.gatewayUuid != "" {
      label associated:
      var gatewayBefore := fw.Gateway(p.gatewayUuid);
      OneMore(old@associated(fw.calls), n, Attempt(ReadGateway, gatewayBefore.Some?, None));
      if gatewayBefore.None? {
        return;
      }
      var changedGateway: bool;
      gatewayAfter, changedGateway := PlanGateway(gatewayBefore.value, before.value, c.endpointIp);
      r := r.(gatewayBefore := gatewayBefore, changedGateway := changedGateway);
    }
    ready := true;
  }

  /** The writing stages after the peer was saved: gateway, regeneration, restart, handshake. */
  method Activate(fw: Firewall, p: Profile, gatewayAfter: Record, changedGateway: bool,
                  start: int) returns (verified: bool)
    modifies fw
    ensures old(fw.calls) <= fw.calls && fw.peers == old(fw.peers)
    ensures fw.gateways - {p.gatewayUuid} == old(fw.gateways) - {p.gatewayUuid}
    ensures fw.running - {p.instanceUuid} == old(fw.running) - {p.instanceUuid}
    ensures !changedGateway ==> fw.gateways == old(fw.gateways)
    ensures verified ==>
              && (changedGateway ==> fw.gateways == old(fw.gateways)[p.gatewayUuid := gatewayAfter])
              && fw.generated == fw.peers && p.instanceUuid in fw.running && fw.running[p.instanceUuid] == fw.peers
              && SawHandshake(fw.calls[|old(fw.calls)|..], start)
  {
    verified := false;
    if changedGateway {
      var stored := fw.UpdateGateway(p.gatewayUuid, gatewayAfter);
      if !stored {
        return;
      }
    }
    var regenerated := fw.Reconfigure();
    if !regenerated {
      return;
    }
    var restarted := fw.RestartInstance(p.instanceUuid);
    if !restarted {
      return;
    }
    ghost var readsFrom := |fw.calls|;
    verified := AwaitHandshake(fw, start);
    if verified {
      LaterCalls(fw.calls, |old(fw.calls)|, readsFrom, start);
    }
  }

  method Forward(fw: Firewall, p: Profile, c: Candidate, digits: Digits, start: int) returns (r: Progress)
    modifies fw
    ensures old(fw.calls) <= fw.calls
    ensures OnlySelectedChanged(fw, p)
    ensures !r.configurationChanged ==>
              && !r.verified && Untouched(fw)
              && (SomeFailed(fw.calls[|old(fw.calls)|..])
                  || (p.peerUuid in fw.peers && !Associated(fw.peers[p.peerUuid], p.instanceUuid)))
    ensures r.configurationChanged ==>
              && p.peerUuid in old(fw.peers) && r.before == Some(old(fw.peers)[p.peerUuid])
              && fw.peers == old(fw.peers)[p.peerUuid := Replacement(r.before.value, c, digits)]
              && r.changedGateway == PlansGateway(old(fw.peers), old(fw.gateways), p)
    ensures r.configurationChanged <==> PeerSaved(fw.calls[|old(fw.calls)|..])
    ensures r.changedGateway ==> PlansGateway(old(fw.peers), old(fw.gateways), p)
                                 && r.gatewayBefore == Some(old(fw.gateways)[p.gatewayUuid])
    ensures !r.changedGateway ==> fw.gateways == old(fw.gateways)
    ensures r.verified ==>
              Switched(fw, p, c, digits, r.changedGateway) && SawHandshake(fw.calls[|old(fw.calls)|..], start)
  {
    ghost var n := |fw.calls|;
    var gatewayAfter: Record;
    var ready: bool;
    r, gatewayAfter, ready := Prepare(fw, p, c);
    if !ready {
      return;
    }
    ghost var planned := fw.calls;
    var saved := fw.UpdatePeer(p.peerUuid, Replacement(r.before.value, c, digits));
    OneMore(planned, n, Attempt(SavePeer, saved, None));
    if !saved {
      return;
    }
    r := r.(configurationChanged := true);
    ghost var written := fw.calls;
    var verified := Activate(fw, p, gatewayAfter, r.changedGateway, start);
    SavedStays(written, fw.calls, n);
    if verified {
      LaterCalls(fw.calls, n, |written|, start);
    }
    r := r.(verified := verified);
  }

  lemma SavedStays(calls: seq<Attempt>, more: seq<Attempt>, n: nat)
    requires calls <= more && n <= |calls| && PeerSaved(calls[n..])
    ensures PeerSaved(more[n..])
  {
    var i :| 0 <= i < |calls[n..]| && calls[n..][i].ok && calls[n..][i].call == SavePeer;
    assert more[n..][i] == calls[n..][i];
  }

  lemma LaterCalls(calls: seq<Attempt>, a: nat, b: nat, start: int)
    requires a <= b <= |calls| && SawHandshake(calls[b..], start)
    ensures SawHandshake(calls[a..], start)
  {
    var i :| 0 <= i < |calls[b..]| && calls[b..][i].call == ReadStatus && calls[b..][i].ok
             && calls[b..][i].handshake.Some? && calls[b..][i].handshake.value != 0
             && calls[b..][i].handshake.value >= start;
    assert calls[a..][i + b - a] == calls[b..][i];
  }

  /** Restoring the snapshot: saved, regenerated and restarted, or some call failed. */
  method RestoreSnapshot(fw: Firewall, p: Profile, progress: Progress) returns (ok: bool)
    requires progress.before.Some? && (progress.changedGateway ==> progress.gatewayBefore.Some?)
    modifies fw
    ensures old(fw.calls) <= fw.calls
    ensures OnlySelectedChanged(fw, p)
    ensures ok ==> SnapshotBack(fw, p, progress)
    ensures ok <==> !SomeFailed(fw.calls[|old(fw.calls)|..])
  {
    ok := false;
    ghost var n := |fw.calls|;
    var connected := fw.Open();
    OneMore(old(fw.calls), n, Attempt(Connect, connected, None));
    if !connected {
      return;
    }
    ghost var sofar := fw.calls;
    var peerBack := fw.UpdatePeer(p.peerUuid, progress.before.value);
    OneMore(sofar, n, Attempt(SavePeer, peerBack, None));
    if !peerBack {
      return;
    }
    if progress.changedGateway {
      sofar := fw.calls;
      var gatewayBack := fw.UpdateGateway(p.gatewayUuid, progress.gatewayBefore.value);
      OneMore(sofar, n, Attempt(SaveGateway, gatewayBack, None));
      if !gatewayBack {
        return;
      }
    }
    ok := Reapply(fw, p, n);
  }

  /** What is saved is generated and restarted; `n` calls had been made before the rollback. */
  method Reapply(fw: Firewall, p: Profile, ghost n: nat) returns (ok: bool)
    requires n <= |fw.calls| && !SomeFailed(fw.calls[n..])
    modifies fw
    ensures old(fw.calls) <= fw.calls && fw.peers == old(fw.peers) && fw.gateways == old(fw.gateways)
    ensures fw.running - {p.instanceUuid} == old(fw.running) - {p.instanceUuid}
    ensures ok ==> fw.generated == fw.peers && p.instanceUuid in fw.running && fw.running[p.instanceUuid] == fw.peers
    ensures ok <==> !SomeFailed(fw.calls[n..])
  {
    ghost var sofar := fw.calls;
    ok := fw.Reconfigure();
    OneMore(sofar, n, Attempt(Regenerate, ok, None));
    if !ok {
      return;
    }
    sofar := fw.calls;
    ok := fw.RestartInstance(p.instanceUuid);
    OneMore(sofar, n, Attempt(Restart, ok, None));
  }

  twostate predicate SnapshotBack(fw: Firewall, p: Profile, progress: Progress)
    requires progress.before.Some? && (progress.changedGateway ==> progress.gatewayBefore.Some?)
    reads fw
  {
    && fw.peers == old(fw.peers)[p.peerUuid := progress.before.value]
    && (progress.changedGateway ==> fw.gateways == old(fw.gateways)[p.gatewayUuid := progress.gatewayBefore.value])
    && (!progress.changedGateway ==> fw.gateways == old(fw.gateways))
    && fw.generated == fw.peers && p.instanceUuid in fw.running && fw.running[p.instanceUuid] == fw.peers
  }

  /** The rollback's result is the restored configuration; the handshake read afterwards is
      only an observation and cannot spoil it. */
  method RollBack(fw: Firewall, p: Profile, progress: Progress) returns (ok: bool, handshake: Option<bool>)
    requires progress.before.Some? && (progress.changedGateway ==> progress.gatewayBefore.Some?)
    modifies fw
    ensures old(fw.calls) <= fw.calls
    ensures OnlySelectedChanged(fw, p)
    ensures ok ==> SnapshotBack(fw, p, progress)
    ensures ok <==> !SomeFailed(fw.calls[|old(fw.calls)|..])
    ensures handshake.Some? ==> ok
  {
    handshake := None;
    ok := RestoreSnapshot(fw, p, progress);
    if ok {
      ghost var sofar := fw.calls;
      var read, latest := fw.Status();
      OneMore(sofar, |old(fw.calls)|, Attempt(ReadStatus, read, latest));
      if read {
        handshake := Some(latest.Some? && latest.value != 0);
      }
    }
  }

  // ---- the audit trail -------------------------------------------------------------------------

  datatype SavedCandidate = SavedCandidate(
    profileId: string, candidateId: string, lastVerification: Option<bool>, lastVerifiedAt: Option<int>)

  datatype Event = Event(profileId: string, at: int, candidateId: string, success: bool, rollback: Option<bool>)

  /** The first saved candidate of the profile with this id is marked. */
  function Marked(saved: seq<SavedCandidate>, profileId: string, candidateId: string, ok: bool,
                  at: int): seq<SavedCandidate> {
    if saved == [] then []
    else if IsCandidate(saved[0], profileId, candidateId) then
      [saved[0].(lastVerification := Some(ok), lastVerifiedAt := Some(at))] + saved[1..]
    else [saved[0]] + Marked(saved[1..], profileId, candidateId, ok, at)
  }

  class EndpointHistory {
    var candidates: seq<SavedCandidate>
    var events: seq<Event>

    method Audit(profileId: string, candidateId: string, ok: bool, rollback: Option<bool>, at: int)
      modifies this
      ensures candidates == Marked(old(candidates), profileId, candidateId, ok, at)
      ensures events == Suffix(old(events) + [Event(profileId, at, candidateId, ok, rollback)], MAX_HISTORY)
    {
      candidates := MarkFirst(candidates, profileId, candidateId, ok, at);
      events := Suffix(events + [Event(profileId, at, candidateId, ok, rollback)], MAX_HISTORY);
    }
  }

  predicate IsCandidate(saved: SavedCandidate, profileId: string, candidateId: string) {
    saved.profileId == profileId && saved.candidateId == candidateId
  }

  method MarkFirst(saved: seq<SavedCandidate>, profileId: string, candidateId: string, ok: bool, at: int)
    returns (r: seq<SavedCandidate>)
    ensures r == Marked(saved, profileId, candidateId, ok, at)
  {
    var i := 0;
    while i < |saved| && !IsCandidate(saved[i], profileId, candidateId)
      invariant 0 <= i <= |saved|
      invariant forall k :: 0 <= k < i ==> !IsCandidate(saved[k], profileId, candidateId)
    {
      i := i + 1;
    }
    MarkedAt(saved, profileId, candidateId, ok, at, i);
    r := if i < |saved| then saved[i := saved[i].(lastVerification := Some(ok), lastVerifiedAt := Some(at))] else saved;
  }

  /** Only the first candidate of that profile and id changes. */
  lemma {:induction false} MarkedAt(saved: seq<SavedCandidate>, profileId: string, candidateId: string, ok: bool,
                                    at: int, i: nat)
    requires i <= |saved| && forall k :: 0 <= k < i ==> !IsCandidate(saved[k], profileId, candidateId)
    requires i < |saved| ==> IsCandidate(saved[i], profileId, candidateId)
    ensures Marked(saved, profileId, candidateId, ok, at) ==
            if i < |saved| then saved[i := saved[i].(lastVerification := Some(ok), lastVerifiedAt := Some(at))]
            else saved
  {
    if saved != [] && i > 0 {
      MarkedAt(saved[1..], profileId, candidateId, ok, at, i - 1);
      assert saved == [saved[0]] + saved[1..];
    }
  }

  function AuditAll(events: seq<Event>, added: seq<Event>): seq<Event> {
    if added == [] then events
    else Suffix(AuditAll(events, added[..|added| - 1]) + [added[|added| - 1]], MAX_HISTORY)
  }

  /** Over any number of switches the trail is exactly the latest hundred events, in order. */
  lemma {:induction false} AuditKeepsLatest(events: seq<Event>, added: seq<Event>)
    requires |events| <= MAX_HISTORY
    ensures AuditAll(events, added) == Suffix(events + added, MAX_HISTORY)
  {
    if added == [] {
      assert events + added == events;
    } else {
      var init, last := added[..|added| - 1], added[|added| - 1];
      AuditKeepsLatest(events, init);
      SuffixAppend(events + init, last, MAX_HISTORY);
      assert events + added == events + init + [last];
    }
  }

  // ---- the whole switch --------------------------------------------------------------------------

  datatype Outcome = Outcome(ok: bool, rollback: Option<bool>, changedGateway: bool, rollbackHandshake: Option<bool>)

  /** What the outcome says about the firewall.  `forwardEnd` is the number of driver calls
      made when the forward stages ended. */
  twostate predicate Truthful(fw: Firewall, p: Profile, c: Candidate, digits: Digits, start: int, out: Outcome,
                              forwardEnd: nat)
    reads fw
  {
    && OnlySelectedChanged(fw, p)
    && |old(fw.calls)| <= forwardEnd <= |fw.calls|
    && (out.ok ==> out.rollback == None && Switched(fw, p, c, digits, out.changedGateway)
                   && SawHandshake(fw.calls[|old(fw.calls)|..], start))
    && (!out.ok && out.rollback == None ==>
          && Untouched(fw)
          && (SomeFailed(fw.calls[|old(fw.calls)|..])
              || (p.peerUuid in fw.peers && !Associated(fw.peers[p.peerUuid], p.instanceUuid))))
    && (out.rollback == Some(true) ==> Restored(fw, p) && !SomeFailed(fw.calls[forwardEnd..]))
    && (out.rollback == Some(false) ==> SomeFailed(fw.calls[forwardEnd..]))
    && (!out.ok ==> (out.rollback.Some? <==> PeerSaved(fw.calls[|old(fw.calls)|..forwardEnd])))
    && (out.changedGateway ==> PlansGateway(old(fw.peers), old(fw.gateways), p))
    && (out.ok || out.rollback.Some? ==> out.changedGateway == PlansGateway(old(fw.peers), old(fw.gateways), p))
  }

  /** The forward stages and, if the peer was saved but no handshake verified, the rollback. */
  method SwitchOrRestore(fw: Firewall, p: Profile, c: Candidate, digits: Digits, start: int)
    returns (out: Outcome, ghost forwardEnd: nat)
    modifies fw
    ensures Truthful(fw, p, c, digits, start, out, forwardEnd)
  {
    var progress := Forward(fw, p, c, digits, start);
    forwardEnd := |fw.calls|;
    if progress.verified || !progress.configurationChanged {
      out := Outcome(progress.verified, None, progress.changedGateway, None);
      assert fw.calls[|old(fw.calls)|..forwardEnd] == fw.calls[|old(fw.calls)|..];
      return;
    }
    label forwarded:
    var restored, seen := RollBack(fw, p, progress);
    out := Outcome(false, Some(restored), progress.changedGateway, seen);
    assert fw.calls[|old(fw.calls)|..forwardEnd] == old@forwarded(fw.calls)[|old(fw.calls)|..];
    if restored {
      UndoPeer(old(fw.peers), p.peerUuid, Replacement(progress.before.value, c, digits));
      if progress.changedGateway {
        UndoGateway(old(fw.gateways), old@forwarded(fw.gateways), p.gatewayUuid);
      }
    }
  }

  /** `switch`, for every pattern of driver failures: a refused request touches nothing, and
      every admitted one ends in a truthful outcome and exactly one audit event. */
  method Switch(fw: Firewall, history: EndpointHistory, confirmed: bool, device: Option<ManagedDevice>,
                ownerId: string, profileId: Option<string>, candidateId: string,
                validIp: string -> bool, digits: Digits, start: int, auditAt: int)
    returns (r: Result<Outcome, SwitchError>, ghost forwardEnd: nat)
    modifies fw, history
    ensures var admitted := Admit(confirmed, device, ownerId, profileId, candidateId, validIp);
            if admitted.Err? then r == Err(admitted.error) && unchanged(fw) && unchanged(history)
            else
              && r.Ok?
              && Truthful(fw, admitted.value.0, admitted.value.1, digits, start, r.value, forwardEnd)
              && var id := admitted.value.0.id;
                 var event := Event(id, auditAt, candidateId, r.value.ok, r.value.rollback);
                 && history.events == Suffix(old(history.events) + [event], MAX_HISTORY)
                 && history.candidates == Marked(old(history.candidates), id, candidateId, r.value.ok, auditAt)
  {
    forwardEnd := |fw.calls|;
    var admitted := Admit(confirmed, device, ownerId, profileId, candidateId, validIp);
    if admitted.Err? {
      return Err(admitted.error), forwardEnd;
    }
    var (p, c) := admitted.value;
    var out: Outcome;
    out, forwardEnd := SwitchOrRestore(fw, p, c, digits, start);
    history.Audit(p.id, candidateId, out.ok, out.rollback, auditAt);
    r := Ok(out);
  }

  lemma UndoPeer(peers: map<string, Record>, uuid: string, other: Record)
    requires uuid in peers
    ensures peers[uuid := other][uuid := peers[uuid]] == peers
  {
  }

  lemma UndoGateway(was: map<string, Record>, now: map<string, Record>, uuid: string)
    requires uuid in was && now - {uuid} == was - {uuid}
    ensures now[uuid := was[uuid]] == was
  {
    assert forall k :: k in now && k != uuid ==> k in now - {uuid} && (now - {uuid})[k] == now[k];
    assert forall k :: k in was && k != uuid ==> k in was - {uuid} && (was - {uuid})[k] == was[k];
  }
}
