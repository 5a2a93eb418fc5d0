/** Closure of an Ansible inventory's group graph, and the capability checks built on it.

    `_inventory_records` walks the groups depth first with a set of groups
    currently being visited, and every completed visit overwrites the group's
    record.  The graph may be cyclic. */
module InventoryGroups {
  import opened Common

  const META := "_meta"

  datatype Group = Group(hosts: seq<string>, children: seq<string>)

  /** The decoded inventory: its keys in iteration order and the group each names. */
  datatype Inventory = Inventory(names: seq<string>, groups: map<string, Group>) {
    ghost predicate Listed() {
      forall n :: n in names <==> n in groups
    }

    function Children(g: string): seq<string> {
      if g in groups then groups[g].children else []
    }

    function Direct(g: string): set<string> {
      if g in groups then set h | h in groups[g].hosts else {}
    }

    /** Every group name that can be visited. */
    function Universe(): set<string> {
      groups.Keys + set g, c | g in groups && c in groups[g].children :: c
    }
  }

  // ---- what a visit computes ----------------------------------------------

  /** Hosts returned by visiting `g` while the groups in `visiting` are open. */
  function Collected(inv: Inventory, g: string, visiting: set<string>): set<string>
    requires g in inv.Universe()
    decreases inv.Universe() - visiting, 0
  {
    if g in visiting then {}
    else inv.Direct(g) + CollectedAll(inv, inv.Children(g), visiting + {g})
  }

  function CollectedAll(inv: Inventory, cs: seq<string>, visiting: set<string>): set<string>
    requires forall c :: c in cs ==> c in inv.Universe()
    decreases inv.Universe() - visiting, |cs|
  {
    if cs == [] then {}
    else CollectedAll(inv, cs[..|cs| - 1], visiting) + Collected(inv, cs[|cs| - 1], visiting)
  }

  /** The group records after visiting `g`: nested visits overwrite earlier ones. */
  function Recorded(inv: Inventory, g: string, visiting: set<string>, records: map<string, set<string>>)
    : map<string, set<string>>
    requires g in inv.Universe()
    decreases inv.Universe() - visiting, 0
  {
    if g in visiting then records
    else
      var inner := RecordedAll(inv, inv.Children(g), visiting + {g}, records);
      if g == META then inner else inner[g := Collected(inv, g, visiting)]
  }

  function RecordedAll(inv: Inventory, cs: seq<string>, visiting: set<string>, records: map<string, set<string>>)
    : map<string, set<string>>
    requires forall c :: c in cs ==> c in inv.Universe()
    decreases inv.Universe() - visiting, |cs|
  {
    if cs == [] then records
    else Recorded(inv, cs[|cs| - 1], visiting, RecordedAll(inv, cs[..|cs| - 1], visiting, records))
  }

  /** The records after visiting the first names of the inventory from the top. */
  function TopLevel(inv: Inventory, names: seq<string>): map<string, set<string>>
    requires forall n :: n in names ==> n in inv.Universe()
  {
    if names == [] then map[]
    else
      var earlier := TopLevel(inv, names[..|names| - 1]);
      var n := names[|names| - 1];
      if n == META then earlier else Recorded(inv, n, {}, earlier)
  }

  function GroupRecords(inv: Inventory): map<string, set<string>>
    requires forall n :: n in inv.names ==> n in inv.groups
  {
    TopLevel(inv, inv.names)
  }

  /** The nested `visit` closure with its two shared variables. */
  class InventoryWalk {
    const inv: Inventory
    var groups: map<string, set<string>>
    var visiting: set<string>

    constructor (inv: Inventory)
      ensures this.inv == inv && groups == map[] && visiting == {}
    {
      this.inv := inv;
      groups := map[];
      visiting := {};
    }

    method Visit(g: string) returns (direct: set<string>)
      requires g in inv.Universe()
      modifies this
      ensures visiting == old(visiting)
      ensures direct == Collected(inv, g, visiting)
      ensures groups == Recorded(inv, g, visiting, old(groups))
      decreases inv.Universe() - visiting
    {
      if g in visiting {
        return {};
      }
      ghost var outer := visiting;
      visiting := visiting + {g};
      direct := inv.Direct(g);
      var children := inv.Children(g);
      assert forall c :: c in children ==> c in inv.Universe();
      var i := 0;
      while i < |children|
        invariant 0 <= i <= |children|
        invariant visiting == outer + {g}
        invariant direct == inv.Direct(g) + CollectedAll(inv, children[..i], visiting)
        invariant groups == RecordedAll(inv, children[..i], visiting, old(groups))
      {
        assert children[..i + 1][..i] == children[..i];
        var below := Visit(children[i]);
        direct := direct + below;
        i := i + 1;
      }
      assert children[..i] == children;
      visiting := visiting - {g};
      assert visiting == outer;
      if g != META {
        groups := groups[g := direct];
      }
    }
  }

  /** Host records invert the group records and cover every known host name. */
  ghost predicate AreRecords(inv: Inventory, hostvars: set<string>,
                             hosts: map<string, set<string>>, groups: map<string, set<string>>)
    requires inv.Listed()
  {
    && groups == GroupRecords(inv)
    && (forall h :: h in hosts <==> h in hostvars || exists g :: g in groups && h in groups[g])
    && (forall h, g :: h in hosts && g in hosts[h] <==> g in groups && h in groups[g])
  }

  /** `_inventory_records`: the group records, and each host's groups as their inverse. */
  method InventoryRecords(inv: Inventory, hostvars: set<string>)
    returns (hosts: map<string, set<string>>, groups: map<string, set<string>>)
    requires inv.Listed()
    ensures AreRecords(inv, hostvars, hosts, groups)
  {
    var walk := new InventoryWalk(inv);
    var i := 0;
    while i < |inv.names|
      invariant 0 <= i <= |inv.names|
      invariant walk.inv == inv && walk.visiting == {}
      invariant walk.groups == TopLevel(inv, inv.names[..i])
    {
      assert inv.names[..i + 1][..i] == inv.names[..i];
      if inv.names[i] != META {
        var _ := walk.Visit(inv.names[i]);
      }
      i := i + 1;
    }
    assert inv.names[..i] == inv.names;
    groups := walk.groups;
    var allNames := hostvars;
    var pending := groups.Keys;
    while pending != {}
      invariant pending <= groups.Keys
      invariant forall h :: h in allNames <==>
                  h in hostvars || exists g :: g in groups && g !in pending && h in groups[g]
      decreases pending
    {
      var g :| g in pending;
      allNames := allNames + groups[g];
      pending := pending - {g};
    }
    hosts := map h | h in allNames :: set g | g in groups && h in groups[g];
  }

  // ---- reachability ---------------------------------------------------------

  /** A walk along child links that never enters a group of `avoid`. */
  ghost predicate Walk(inv: Inventory, p: seq<string>, avoid: set<string>) {
    && p != []
    && (forall i :: 0 <= i < |p| ==> p[i] !in avoid)
    && (forall i :: 0 < i < |p| ==> p[i] in inv.Children(p[i - 1]))
  }

  ghost predicate ReachesAvoiding(inv: Inventory, a: string, b: string, avoid: set<string>) {
    exists p: seq<string> :: Walk(inv, p, avoid) && p[0] == a && p[|p| - 1] == b
  }

  ghost predicate Reaches(inv: Inventory, a: string, b: string) {
    ReachesAvoiding(inv, a, b, {})
  }

  /** `h` is a direct host of some group reachable from `g`. */
  ghost predicate Holds(inv: Inventory, g: string, h: string, avoid: set<string>) {
    exists b :: ReachesAvoiding(inv, g, b, avoid) && h in inv.Direct(b)
  }

  lemma ReachesSelf(inv: Inventory, a: string, avoid: set<string>)
    requires a !in avoid
    ensures ReachesAvoiding(inv, a, a, avoid)
  {
    assert Walk(inv, [a], avoid);
  }

  lemma ReachesStep(inv: Inventory, a: string, c: string, b: string, avoid: set<string>)
    requires a !in avoid && c in inv.Children(a) && ReachesAvoiding(inv, c, b, avoid)
    ensures ReachesAvoiding(inv, a, b, avoid)
  {
    var p :| Walk(inv, p, avoid) && p[0] == c && p[|p| - 1] == b;
    assert Walk(inv, [a] + p, avoid);
  }

  lemma ReachesTransitive(inv: Inventory, a: string, b: string, c: string)
    requires Reaches(inv, a, b) && Reaches(inv, b, c)
    ensures Reaches(inv, a, c)
  {
    var p :| Walk(inv, p, {}) && p[0] == a && p[|p| - 1] == b;
    var q :| Walk(inv, q, {}) && q[0] == b && q[|q| - 1] == c;
    var r := p + q[1..];
    forall i | 0 < i < |r|
      ensures r[i] in inv.Children(r[i - 1])
    {
      if i == |p| {
        assert r[i] == q[1] && r[i - 1] == q[0];
      }
    }
    assert Walk(inv, r, {});
  }

  lemma ReachesMore(inv: Inventory, a: string, b: string, avoid: set<string>, fewer: set<string>)
    requires fewer <= avoid && ReachesAvoiding(inv, a, b, avoid)
    ensures ReachesAvoiding(inv, a, b, fewer)
  {
    var p :| Walk(inv, p, avoid) && p[0] == a && p[|p| - 1] == b;
    assert Walk(inv, p, fewer);
  }

  /** A walk to another group leaves its start for good at some child. */
  lemma {:induction false} LeaveForGood(inv: Inventory, p: seq<string>, avoid: set<string>) returns (c: string)
    requires Walk(inv, p, avoid) && p[0] != p[|p| - 1]
    ensures c in inv.Children(p[0]) && c != p[0]
    ensures ReachesAvoiding(inv, c, p[|p| - 1], avoid + {p[0]})
    decreases |p|
  {
    if i :| 0 < i < |p| && p[i] == p[0] {
      c := LeaveForGood(inv, p[i..], avoid);
    } else {
      c := p[1];
      assert Walk(inv, p[1..], avoid + {p[0]});
    }
  }

  /** A visit returns exactly the hosts of the groups reachable without passing an open group. */
  lemma {:induction false} CollectedIsReachable(inv: Inventory, g: string, visiting: set<string>, h: string)
    requires g in inv.Universe()
    ensures h in Collected(inv, g, visiting) <==> Holds(inv, g, h, visiting)
    decreases inv.Universe() - visiting, 0
  {
    if g !in visiting {
      var deeper := visiting + {g};
      CollectedAllIsReachable(inv, inv.Children(g), deeper, h);
      if h in inv.Direct(g) {
        ReachesSelf(inv, g, visiting);
      }
      if c :| c in inv.Children(g) && Holds(inv, c, h, deeper) {
        var b :| ReachesAvoiding(inv, c, b, deeper) && h in inv.Direct(b);
        ReachesMore(inv, c, b, deeper, visiting);
        ReachesStep(inv, g, c, b, visiting);
      }
      if Holds(inv, g, h, visiting) {
        var b :| ReachesAvoiding(inv, g, b, visiting) && h in inv.Direct(b);
        if b != g {
          var p :| Walk(inv, p, visiting) && p[0] == g && p[|p| - 1] == b;
          var c := LeaveForGood(inv, p, visiting);
          assert Holds(inv, c, h, deeper);
        }
      }
    }
  }

  lemma {:induction false} CollectedAllIsReachable(inv: Inventory, cs: seq<string>, visiting: set<string>, h: string)
    requires forall c :: c in cs ==> c in inv.Universe()
    ensures h in CollectedAll(inv, cs, visiting) <==> exists c :: c in cs && Holds(inv, c, h, visiting)
    decreases inv.Universe() - visiting, |cs|
  {
    if cs != [] {
      var init, last := cs[..|cs| - 1], cs[|cs| - 1];
      assert cs == init + [last];
      CollectedAllIsReachable(inv, init, visiting, h);
      CollectedIsReachable(inv, last, visiting, h);
    }
  }

  // ---- soundness on every graph ----------------------------------------------

  ghost predicate Sound(inv: Inventory, records: map<string, set<string>>) {
    forall g, h :: g in records && h in records[g] ==> Holds(inv, g, h, {})
  }

  lemma {:induction false} RecordedSound(inv: Inventory, g: string, visiting: set<string>,
                                         records: map<string, set<string>>)
    requires g in inv.Universe() && Sound(inv, records)
    ensures Sound(inv, Recorded(inv, g, visiting, records))
    decreases inv.Universe() - visiting, 0
  {
    if g !in visiting {
      RecordedAllSound(inv, inv.Children(g), visiting + {g}, records);
      forall h | h in Collected(inv, g, visiting)
        ensures Holds(inv, g, h, {})
      {
        CollectedIsReachable(inv, g, visiting, h);
        var b :| ReachesAvoiding(inv, g, b, visiting) && h in inv.Direct(b);
        ReachesMore(inv, g, b, visiting, {});
      }
    }
  }

  lemma {:induction false} RecordedAllSound(inv: Inventory, cs: seq<string>, visiting: set<string>,
                                            records: map<string, set<string>>)
    requires (forall c :: c in cs ==> c in inv.Universe()) && Sound(inv, records)
    ensures Sound(inv, RecordedAll(inv, cs, visiting, records))
    decreases inv.Universe() - visiting, |cs|
  {
    if cs != [] {
      RecordedAllSound(inv, cs[..|cs| - 1], visiting, records);
      RecordedSound(inv, cs[|cs| - 1], visiting, RecordedAll(inv, cs[..|cs| - 1], visiting, records));
    }
  }

  lemma {:induction false} TopLevelSound(inv: Inventory, names: seq<string>)
    requires forall n :: n in names ==> n in inv.Universe()
    ensures Sound(inv, TopLevel(inv, names))
  {
    if names != [] {
      TopLevelSound(inv, names[..|names| - 1]);
      RecordedSound(inv, names[|names| - 1], {}, TopLevel(inv, names[..|names| - 1]));
    }
  }

  /** On every graph, cyclic ones included, a group only claims hosts it reaches. */
  lemma RecordsAreSound(inv: Inventory)
    requires inv.Listed()
    ensures forall g, h :: g in GroupRecords(inv) && h in GroupRecords(inv)[g] ==> Holds(inv, g, h, {})
  {
    TopLevelSound(inv, inv.names);
  }

  // ---- completeness, exactly when no two groups contain each other -----------

  ghost predicate LoopFree(inv: Inventory) {
    forall a, b :: Reaches(inv, a, b) && Reaches(inv, b, a) ==> a == b
  }

  ghost predicate Complete(inv: Inventory, records: map<string, set<string>>) {
    forall g, h :: g in records && Holds(inv, g, h, {}) ==> h in records[g]
  }

  /** Every open group is an ancestor of the group being visited. */
  ghost predicate Ancestors(inv: Inventory, visiting: set<string>, g: string) {
    forall v :: v in visiting ==> Reaches(inv, v, g)
  }

  lemma LoopFreeVisitIsComplete(inv: Inventory, g: string, visiting: set<string>, h: string)
    requires LoopFree(inv) && g in inv.Universe() && g !in visiting && Ancestors(inv, visiting, g)
    ensures Holds(inv, g, h, {}) ==> h in Collected(inv, g, visiting)
  {
    if Holds(inv, g, h, {}) {
      var b :| ReachesAvoiding(inv, g, b, {}) && h in inv.Direct(b);
      var p :| Walk(inv, p, {}) && p[0] == g && p[|p| - 1] == b;
      forall i | 0 <= i < |p|
        ensures p[i] !in visiting
      {
        WalkAvoidsAncestors(inv, p, visiting, i);
      }
      assert Walk(inv, p, visiting);
      assert ReachesAvoiding(inv, g, b, visiting);
      CollectedIsReachable(inv, g, visiting, h);
    }
  }

  lemma WalkAvoidsAncestors(inv: Inventory, p: seq<string>, visiting: set<string>, i: nat)
    requires LoopFree(inv) && Walk(inv, p, {}) && i < |p|
    requires p[0] !in visiting && Ancestors(inv, visiting, p[0])
    ensures p[i] !in visiting
  {
    assert Walk(inv, p[..i + 1], {});
    assert Reaches(inv, p[0], p[i]);
  }

  lemma {:induction false} RecordedComplete(inv: Inventory, g: string, visiting: set<string>,
                                            records: map<string, set<string>>)
    requires LoopFree(inv) && g in inv.Universe() && Ancestors(inv, visiting, g) && Complete(inv, records)
    ensures Complete(inv, Recorded(inv, g, visiting, records))
    decreases inv.Universe() - visiting, 0
  {
    if g !in visiting {
      forall c, v | c in inv.Children(g) && v in visiting + {g}
        ensures Reaches(inv, v, c)
      {
        ReachesSelf(inv, c, {});
        ReachesStep(inv, g, c, c, {});
        if v != g {
          ReachesTransitive(inv, v, g, c);
        }
      }
      RecordedAllComplete(inv, inv.Children(g), visiting + {g}, records);
      forall h | Holds(inv, g, h, {})
        ensures h in Collected(inv, g, visiting)
      {
        LoopFreeVisitIsComplete(inv, g, visiting, h);
      }
    }
  }

  lemma {:induction false} RecordedAllComplete(inv: Inventory, cs: seq<string>, visiting: set<string>,
                                               records: map<string, set<string>>)
    requires LoopFree(inv) && Complete(inv, records)
    requires forall c :: c in cs ==> c in inv.Universe() && Ancestors(inv, visiting, c)
    ensures Complete(inv, RecordedAll(inv, cs, visiting, records))
    decreases inv.Universe() - visiting, |cs|
  {
    if cs != [] {
      RecordedAllComplete(inv, cs[..|cs| - 1], visiting, records);
      RecordedComplete(inv, cs[|cs| - 1], visiting, RecordedAll(inv, cs[..|cs| - 1], visiting, records));
    }
  }

  lemma {:induction false} TopLevelComplete(inv: Inventory, names: seq<string>)
    requires LoopFree(inv) && forall n :: n in names ==> n in inv.Universe()
    ensures Complete(inv, TopLevel(inv, names))
  {
    if names != [] {
      TopLevelComplete(inv, names[..|names| - 1]);
      RecordedComplete(inv, names[|names| - 1], {}, TopLevel(inv, names[..|names| - 1]));
    }
  }

  // Records only grow, and every listed group gets one.

  lemma {:induction false} RecordedKeeps(inv: Inventory, g: string, visiting: set<string>,
                                         records: map<string, set<string>>)
    requires g in inv.Universe()
    ensures records.Keys <= Recorded(inv, g, visiting, records).Keys
    ensures g !in visiting && g != META ==> g in Recorded(inv, g, visiting, records)
    decreases inv.Universe() - visiting, 0
  {
    if g !in visiting {
      RecordedAllKeeps(inv, inv.Children(g), visiting + {g}, records);
    }
  }

  lemma {:induction false} RecordedAllKeeps(inv: Inventory, cs: seq<string>, visiting: set<string>,
                                            records: map<string, set<string>>)
    requires forall c :: c in cs ==> c in inv.Universe()
    ensures records.Keys <= RecordedAll(inv, cs, visiting, records).Keys
    decreases inv.Universe() - visiting, |cs|
  {
    if cs != [] {
      RecordedAllKeeps(inv, cs[..|cs| - 1], visiting, records);
      RecordedKeeps(inv, cs[|cs| - 1], visiting, RecordedAll(inv, cs[..|cs| - 1], visiting, records));
    }
  }

  lemma {:induction false} TopLevelKeeps(inv: Inventory, names: seq<string>)
    requires forall n :: n in names ==> n in inv.Universe()
    ensures forall n :: n in names && n != META ==> n in TopLevel(inv, names)
  {
    if names != [] {
      TopLevelKeeps(inv, names[..|names| - 1]);
      RecordedKeeps(inv, names[|names| - 1], {}, TopLevel(inv, names[..|names| - 1]));
    }
  }

  /** Without mutual containment every group's record is exactly the hosts it reaches. */
  lemma LoopFreeRecordsAreExact(inv: Inventory)
    requires inv.Listed() && LoopFree(inv)
    ensures forall g :: g in inv.groups && g != META ==> g in GroupRecords(inv)
    ensures forall g, h :: g in GroupRecords(inv) ==> (h in GroupRecords(inv)[g] <==> Holds(inv, g, h, {}))
  {
    TopLevelSound(inv, inv.names);
    TopLevelComplete(inv, inv.names);
    TopLevelKeeps(inv, inv.names);
  }

  // The converse: give every group one host of its own, named after it.

  function OwnHosts(inv: Inventory): Inventory {
    inv.(groups := map g | g in inv.groups :: Group([g], inv.groups[g].children))
  }

  /** Groups that contain each other with `u`. */
  ghost predicate Mutual(inv: Inventory, u: string, y: string) {
    Reaches(inv, u, y) && Reaches(inv, y, u)
  }

  /** Some record of a group in the loop misses another group of the loop. */
  ghost predicate Misses(inv: Inventory, u: string, records: map<string, set<string>>) {
    exists m, e :: Mutual(inv, u, m) && Mutual(inv, u, e) && m in records && e in inv.groups && e !in records[m]
  }

  ghost predicate SameOnLoop(inv: Inventory, u: string, r: map<string, set<string>>, s: map<string, set<string>>) {
    forall m :: Mutual(inv, u, m) ==> (m in r <==> m in s) && (m in r ==> r[m] == s[m])
  }

  lemma ReachesInOwn(inv: Inventory, a: string, b: string)
    ensures Reaches(inv, a, b) <==> Reaches(OwnHosts(inv), a, b)
  {
    var own := OwnHosts(inv);
    forall g
      ensures own.Children(g) == inv.Children(g)
    {
    }
    forall p: seq<string>
      ensures Walk(inv, p, {}) <==> Walk(own, p, {})
    {
    }
  }

  ghost predicate IsOwn(inv: Inventory) {
    forall g :: g in inv.groups ==> inv.groups[g].hosts == [g]
  }

  lemma {:induction false} CollectedAvoids(inv: Inventory, g: string, visiting: set<string>)
    requires IsOwn(inv) && g in inv.Universe()
    ensures Collected(inv, g, visiting) !! visiting
    decreases inv.Universe() - visiting, 0
  {
    if g !in visiting {
      CollectedAllAvoids(inv, inv.Children(g), visiting + {g});
    }
  }

  lemma {:induction false} CollectedAllAvoids(inv: Inventory, cs: seq<string>, visiting: set<string>)
    requires IsOwn(inv) && forall c :: c in cs ==> c in inv.Universe()
    ensures CollectedAll(inv, cs, visiting) !! visiting
    decreases inv.Universe() - visiting, |cs|
  {
    if cs != [] {
      CollectedAllAvoids(inv, cs[..|cs| - 1], visiting);
      CollectedAvoids(inv, cs[|cs| - 1], visiting);
    }
  }

  /** A record is either untouched or misses every group that was open. */
  ghost predicate OldOrAvoids(r: map<string, set<string>>, s: map<string, set<string>>, visiting: set<string>) {
    forall m :: m in s ==> (m in r && s[m] == r[m]) || s[m] !! visiting
  }

  lemma {:induction false} RecordedAvoids(inv: Inventory, g: string, visiting: set<string>,
                                          records: map<string, set<string>>)
    requires IsOwn(inv) && g in inv.Universe()
    ensures OldOrAvoids(records, Recorded(inv, g, visiting, records), visiting)
    decreases inv.Universe() - visiting, 0
  {
    if g !in visiting {
      RecordedAllAvoids(inv, inv.Children(g), visiting + {g}, records);
      CollectedAvoids(inv, g, visiting);
    }
  }

  lemma {:induction false} RecordedAllAvoids(inv: Inventory, cs: seq<string>, visiting: set<string>,
                                             records: map<string, set<string>>)
    requires IsOwn(inv) && forall c :: c in cs ==> c in inv.Universe()
    ensures OldOrAvoids(records, RecordedAll(inv, cs, visiting, records), visiting)
    ensures forall c :: c in cs && c !in visiting && c != META ==>
              c in RecordedAll(inv, cs, visiting, records) && RecordedAll(inv, cs, visiting, records)[c] !! visiting
    ensures META in cs && META !in visiting ==>
              forall c :: c in inv.Children(META) && c !in visiting && c != META ==>
                c in RecordedAll(inv, cs, visiting, records) && RecordedAll(inv, cs, visiting, records)[c] !! visiting
    decreases inv.Universe() - visiting, |cs|
  {
    if cs != [] {
      var init, last := cs[..|cs| - 1], cs[|cs| - 1];
      var before := RecordedAll(inv, init, visiting, records);
      RecordedAllAvoids(inv, init, visiting, records);
      if last == META && META !in visiting {
        RecordedAllAvoids(inv, inv.Children(META), visiting + {META}, before);
      }
      RecordedAvoids(inv, last, visiting, before);
      RecordedKeeps(inv, last, visiting, before);
      CollectedAvoids(inv, last, visiting);
    }
  }

  /** Inside a loop of two groups or more, each group has another one of the loop as a child. */
  lemma NextInLoop(inv: Inventory, u: string, x: string, other: string) returns (c: string)
    requires Mutual(inv, u, x) && Mutual(inv, u, other) && x != other
    ensures c in inv.Children(x) && c != x && Mutual(inv, u, c)
  {
    ReachesTransitive(inv, x, u, other);
    var p :| Walk(inv, p, {}) && p[0] == x && p[|p| - 1] == other;
    c := LeaveForGood(inv, p, {});
    ReachesMore(inv, c, other, {x}, {});
    ReachesTransitive(inv, c, other, u);
    ReachesSelf(inv, c, {});
    ReachesStep(inv, x, c, c, {});
    ReachesTransitive(inv, u, x, c);
  }

  /** In a loop with another group than the metadata key, a group has a different one of the
      loop as a child, or as a child of the metadata key. */
  lemma NextPastMeta(inv: Inventory, u: string, x: string, other: string) returns (c: string)
    requires Mutual(inv, u, x) && Mutual(inv, u, other) && x != other && x != META && other != META
    ensures c in inv.Children(x) || (META in inv.Children(x) && c in inv.Children(META) && Mutual(inv, u, META))
    ensures c != x && c != META && Mutual(inv, u, c)
  {
    ReachesTransitive(inv, x, u, other);
    var p :| Walk(inv, p, {}) && p[0] == x && p[|p| - 1] == other;
    c := LeaveForGood(inv, p, {});
    ReachesSelf(inv, c, {});
    ReachesStep(inv, x, c, c, {});
    ReachesMore(inv, c, other, {x}, {});
    if c == META {
      var q :| Walk(inv, q, {x}) && q[0] == META && q[|q| - 1] == other;
      var d := LeaveForGood(inv, q, {x});
      var r :| Walk(inv, r, {x, META}) && r[0] == d && r[|r| - 1] == other;
      ReachesSelf(inv, d, {});
      ReachesStep(inv, META, d, d, {});
      ReachesTransitive(inv, x, META, d);
      ReachesMore(inv, d, other, {x, META}, {});
      ReachesTransitive(inv, META, other, u);
      ReachesTransitive(inv, u, x, META);
      c := d;
    }
    ReachesTransitive(inv, c, other, u);
    ReachesTransitive(inv, u, x, c);
  }

  lemma {:induction false} VisitLeavesMiss(
      inv: Inventory, u: string, v: string, g: string, visiting: set<string>, records: map<string, set<string>>)
    requires IsOwn(inv) && g in inv.Universe() && Mutual(inv, u, v) && u != v && u != META && v != META
    requires forall w :: w in visiting ==> !Mutual(inv, u, w)
    ensures || SameOnLoop(inv, u, records, Recorded(inv, g, visiting, records))
            || Misses(inv, u, Recorded(inv, g, visiting, records))
    ensures Mutual(inv, u, g) ==> Misses(inv, u, Recorded(inv, g, visiting, records))
    decreases inv.Universe() - visiting, 0
  {
    ReachesSelf(inv, u, {});
    if g !in visiting {
      var inner := RecordedAll(inv, inv.Children(g), visiting + {g}, records);
      if Mutual(inv, u, g) {
        var c;
        if g == META {
          c := NextInLoop(inv, u, g, u);
        } else {
          c := NextPastMeta(inv, u, g, if g == u then v else u);
        }
        RecordedAllAvoids(inv, inv.Children(g), visiting + {g}, records);
        assert c in inner && g !in inner[c];
        var after := Recorded(inv, g, visiting, records);
        assert c in after && g !in after[c];
      } else {
        VisitsLeaveMiss(inv, u, v, inv.Children(g), visiting + {g}, records);
        if Misses(inv, u, inner) {
          var m, e :| Mutual(inv, u, m) && Mutual(inv, u, e) && m in inner && e in inv.groups && e !in inner[m];
          var after := Recorded(inv, g, visiting, records);
          assert m in after && e !in after[m];
        }
      }
    }
  }

  lemma {:induction false} VisitsLeaveMiss(
      inv: Inventory, u: string, v: string, cs: seq<string>, visiting: set<string>, records: map<string, set<string>>)
    requires IsOwn(inv) && Mutual(inv, u, v) && u != v && u != META && v != META
    requires forall c :: c in cs ==> c in inv.Universe()
    requires forall w :: w in visiting ==> !Mutual(inv, u, w)
    ensures || SameOnLoop(inv, u, records, RecordedAll(inv, cs, visiting, records))
            || Misses(inv, u, RecordedAll(inv, cs, visiting, records))
    decreases inv.Universe() - visiting, |cs|
  {
    if cs != [] {
      var before := RecordedAll(inv, cs[..|cs| - 1], visiting, records);
      VisitsLeaveMiss(inv, u, v, cs[..|cs| - 1], visiting, records);
      VisitLeavesMiss(inv, u, v, cs[|cs| - 1], visiting, before);
      MissPersists(inv, u, before, RecordedAll(inv, cs, visiting, records));
    }
  }

  lemma MissPersists(inv: Inventory, u: string, r: map<string, set<string>>, s: map<string, set<string>>)
    ensures SameOnLoop(inv, u, r, s) && Misses(inv, u, r) ==> Misses(inv, u, s)
  {
    if SameOnLoop(inv, u, r, s) && Misses(inv, u, r) {
      var m, e :| Mutual(inv, u, m) && Mutual(inv, u, e) && m in r && e in inv.groups && e !in r[m];
      assert m in s && e !in s[m];
    }
  }

  lemma {:induction false} TopLevelMisses(inv: Inventory, u: string, v: string, names: seq<string>)
    requires IsOwn(inv) && Mutual(inv, u, v) && u != v && u != META && v != META
    requires forall n :: n in names ==> n in inv.Universe()
    ensures u in names ==> Misses(inv, u, TopLevel(inv, names))
  {
    if names != [] {
      var init, n := names[..|names| - 1], names[|names| - 1];
      TopLevelMisses(inv, u, v, init);
      VisitLeavesMiss(inv, u, v, n, {}, TopLevel(inv, init));
      ReachesSelf(inv, u, {});
      MissPersists(inv, u, TopLevel(inv, init), TopLevel(inv, names));
    }
  }

  lemma LoopMemberIsGroup(inv: Inventory, u: string, v: string)
    requires Reaches(inv, u, v) && u != v
    ensures u in inv.groups
  {
    var p :| Walk(inv, p, {}) && p[0] == u && p[|p| - 1] == v;
    assert p[1] in inv.Children(p[0]);
  }

  /** Two groups that contain each other leave some group without a host it reaches. */
  lemma LoopBreaksCompleteness(inv: Inventory, u: string, v: string)
    requires inv.Listed() && Mutual(inv, u, v) && u != v && u != META && v != META
    ensures !Complete(OwnHosts(inv), GroupRecords(OwnHosts(inv)))
  {
    var own := OwnHosts(inv);
    ReachesInOwn(inv, u, v);
    ReachesInOwn(inv, v, u);
    LoopMemberIsGroup(own, u, v);
    TopLevelMisses(own, u, v, own.names);
    var records := GroupRecords(own);
    var m, e :| Mutual(own, u, m) && Mutual(own, u, e) && m in records && e in own.groups && e !in records[m];
    ReachesTransitive(own, m, u, e);
    assert e in own.Direct(e);
    assert Holds(own, m, e, {});
  }

  /** The same group graph, whatever hosts the groups list. */
  ghost predicate SameGraph(inv: Inventory, other: Inventory) {
    && other.names == inv.names && other.groups.Keys == inv.groups.Keys
    && (forall g :: g in inv.groups ==> other.groups[g].children == inv.groups[g].children)
  }

  lemma ReachesInSameGraph(inv: Inventory, other: Inventory, a: string, b: string)
    requires SameGraph(inv, other)
    ensures Reaches(inv, a, b) <==> Reaches(other, a, b)
  {
    forall g
      ensures other.Children(g) == inv.Children(g)
    {
    }
    forall p: seq<string>
      ensures Walk(inv, p, {}) <==> Walk(other, p, {})
    {
    }
  }

  /** The metadata key, should a group name it as a child, is not in a loop with one group only. */
  ghost predicate MetaInNoPair(inv: Inventory) {
    forall u :: Mutual(inv, u, META) && u != META ==> exists v :: Mutual(inv, u, v) && v != u && v != META
  }

  lemma SomeLoop(inv: Inventory) returns (u: string, v: string)
    requires !LoopFree(inv) && MetaInNoPair(inv)
    ensures Mutual(inv, u, v) && u != v && u != META && v != META
  {
    u, v :| Reaches(inv, u, v) && Reaches(inv, v, u) && u != v;
    if u == META {
      u, v := v, u;
    }
    if v == META {
      assert Mutual(inv, u, META);
      v :| Mutual(inv, u, v) && v != u && v != META;
    }
  }

  /** For which graphs the records are complete whatever hosts the groups list: those in which
      no two different groups contain each other. */
  lemma CompleteIffLoopFree(inv: Inventory)
    requires inv.Listed() && MetaInNoPair(inv)
    ensures LoopFree(inv) <==>
            forall other :: SameGraph(inv, other) ==> Complete(other, GroupRecords(other))
  {
    if LoopFree(inv) {
      forall other | SameGraph(inv, other)
        ensures Complete(other, GroupRecords(other))
      {
        forall a, b | Reaches(other, a, b) && Reaches(other, b, a)
          ensures a == b
        {
          ReachesInSameGraph(inv, other, a, b);
          ReachesInSameGraph(inv, other, b, a);
        }
        LoopFreeRecordsAreExact(other);
      }
    } else {
      var u, v := SomeLoop(inv);
      LoopBreaksCompleteness(inv, u, v);
      assert SameGraph(inv, OwnHosts(inv));
    }
  }

  // ---- capability checks -------------------------------------------------------

  const REQUIRED_INVENTORY_GROUPS := map[
    "os_check" := "debian_hosts",
    "os_update" := "debian_hosts",
    "docker_discovery" := "docker_hosts",
    "docker_check" := "docker_hosts",
    "docker_update" := "docker_hosts",
    "docker_update_pull" := "docker_hosts",
    "docker_update_local_build" := "docker_hosts",
    "docker_project_update" := "docker_hosts",
    "appliance_health" := "appliances"
  ]

  function RequiredGroup(operation: string): Option<string> {
    if operation in REQUIRED_INVENTORY_GROUPS then Some(REQUIRED_INVENTORY_GROUPS[operation]) else None
  }

  /** `operation_supported_by_host`, over the discovered host records. */
  predicate Supported(hosts: Option<map<string, set<string>>>, operation: string, target: string) {
    && hosts.Some?
    && target in hosts.value
    && (RequiredGroup(operation).None? || RequiredGroup(operation).value in hosts.value[target])
  }

  datatype CapabilityError = UnknownTarget | MissingGroup(group: string)

  /** `require_operation_capability`. */
  function RequireCapability(hosts: map<string, set<string>>, operation: string, target: string)
    : (r: Result<set<string>, CapabilityError>)
    ensures r.Ok? <==> Supported(Some(hosts), operation, target)
  {
    if target !in hosts then Err(UnknownTarget)
    else
      var required := RequiredGroup(operation);
      if required.Some? && required.value !in hosts[target] then Err(MissingGroup(required.value))
      else Ok(hosts[target])
  }

  lemma RequiredIsGroup(operation: string)
    requires RequiredGroup(operation).Some?
    ensures RequiredGroup(operation).value != META
  {
  }

  lemma HoldersAreListed(inv: Inventory, g: string, h: string)
    requires Holds(inv, g, h, {})
    ensures g in inv.groups
  {
    var b :| ReachesAvoiding(inv, g, b, {}) && h in inv.Direct(b);
    var p :| Walk(inv, p, {}) && p[0] == g && p[|p| - 1] == b;
    if |p| > 1 {
      assert p[1] in inv.Children(p[0]);
    }
  }

  /** A recorded group of a host reaches it, and without loops the converse holds too. */
  lemma MembershipIsReachability(inv: Inventory, hostvars: set<string>, hosts: map<string, set<string>>,
                                 groups: map<string, set<string>>, g: string, target: string)
    requires inv.Listed() && AreRecords(inv, hostvars, hosts, groups)
    ensures target in hosts && g in hosts[target] ==> Holds(inv, g, target, {})
    ensures LoopFree(inv) && g != META && Holds(inv, g, target, {}) ==> target in hosts && g in hosts[target]
  {
    RecordsAreSound(inv);
    if LoopFree(inv) && g != META && Holds(inv, g, target, {}) {
      LoopFreeRecordsAreExact(inv);
      HoldersAreListed(inv, g, target);
      assert g in groups && target in groups[g];
    }
  }

  /** What discovery grants: a host may run a restricted operation only if the group it
      needs reaches it, and, when no two groups contain each other, whenever it does. */
  lemma CapabilityIsReachability(inv: Inventory, hostvars: set<string>, hosts: map<string, set<string>>,
                                 groups: map<string, set<string>>, operation: string, target: string)
    requires inv.Listed() && AreRecords(inv, hostvars, hosts, groups)
    requires RequiredGroup(operation).Some?
    ensures Supported(Some(hosts), operation, target) ==> Holds(inv, RequiredGroup(operation).value, target, {})
    ensures LoopFree(inv) ==>
              (Supported(Some(hosts), operation, target) <==> Holds(inv, RequiredGroup(operation).value, target, {}))
  {
    RequiredIsGroup(operation);
    MembershipIsReachability(inv, hostvars, hosts, groups, RequiredGroup(operation).value, target);
  }
}
