/** Compaction of superseded Docker discovery details in the job history. */
module HistoryCompaction {
  import opened Common
  import JobQueue

  /** A stored timestamp: a number (possibly not a number), a legacy string, or neither. */
  datatype Stamp = Finite(value: real) | PosInfinity | NegInfinity | NaN | Text(text: string) | Neither

  /** The record of one job; `other` stands for the fields compaction neither reads nor writes. */
  datatype Job = Job(
    discovery: bool, state: JobQueue.JobState, instance: string, id: Option<string>,
    finishedAt: Stamp, createdAt: Stamp,
    stdout: string, stderr: string, structuredResult: Option<string>, detailsRetained: bool,
    other: map<string, string>)

  type Jobs = map<string, Job>

  // ---- the mixed order ------------------------------------------------------------

  function Rank(s: Stamp): int {
    match s
    case Neither => 0
    case Text(_) => 1
    case NaN => 2
    case NegInfinity => 2
    case Finite(_) => 3
    case PosInfinity => 4
  }

  /** `_history_timestamp_key`: absent before strings before numbers, NaN as minus infinity. */
  predicate StampBefore(a: Stamp, b: Stamp) {
    || Rank(a) < Rank(b)
    || (a.Text? && b.Text? && Before(a.text, b.text))
    || (a.Finite? && b.Finite? && a.value < b.value)
  }

  predicate SameKey(a: Stamp, b: Stamp) {
    Rank(a) == Rank(b) && (a.Text? ==> a == b) && (a.Finite? ==> a == b)
  }

  function IdText(job: Job, key: string): string {
    if job.id.Some? then job.id.value else key
  }

  /** Tuples compare at their first unequal component; the record key comes last. */
  predicate OlderRecord(a: Job, aKey: string, b: Job, bKey: string) {
    if !SameKey(a.finishedAt, b.finishedAt) then StampBefore(a.finishedAt, b.finishedAt)
    else if !SameKey(a.createdAt, b.createdAt) then StampBefore(a.createdAt, b.createdAt)
    else if IdText(a, aKey) != IdText(b, bKey) then Before(IdText(a, aKey), IdText(b, bKey))
    else Before(aKey, bKey)
  }

  lemma StampTotal(a: Stamp, b: Stamp)
    ensures SameKey(a, b) || StampBefore(a, b) || StampBefore(b, a)
    ensures SameKey(a, b) <==> SameKey(b, a)
    ensures SameKey(a, b) ==> !StampBefore(a, b)
    ensures !(StampBefore(a, b) && StampBefore(b, a))
  {
    if a.Text? && b.Text? {
      BeforeTotal(a.text, b.text);
      BeforeIrreflexive(a.text);
      if Before(a.text, b.text) && Before(b.text, a.text) {
        BeforeTransitive(a.text, b.text, a.text);
      }
    }
  }

  lemma StampTransitive(a: Stamp, b: Stamp, c: Stamp)
    ensures StampBefore(a, b) && StampBefore(b, c) ==> StampBefore(a, c)
    ensures SameKey(a, b) && SameKey(b, c) ==> SameKey(a, c)
    ensures SameKey(a, b) && StampBefore(b, c) ==> StampBefore(a, c)
    ensures StampBefore(a, b) && SameKey(b, c) ==> StampBefore(a, c)
  {
    if a.Text? && b.Text? && c.Text? && Before(a.text, b.text) && Before(b.text, c.text) {
      BeforeTransitive(a.text, b.text, c.text);
    }
  }

  lemma OlderTotal(a: Job, aKey: string, b: Job, bKey: string)
    requires aKey != bKey
    ensures OlderRecord(a, aKey, b, bKey) != OlderRecord(b, bKey, a, aKey)
  {
    StampTotal(a.finishedAt, b.finishedAt);
    StampTotal(a.createdAt, b.createdAt);
    StringsTotal(IdText(a, aKey), IdText(b, bKey));
    StringsTotal(aKey, bKey);
  }

  lemma StringsTotal(a: string, b: string)
    ensures a != b ==> Before(a, b) != Before(b, a)
    ensures !Before(a, a)
  {
    BeforeTotal(a, b);
    BeforeIrreflexive(a);
    if Before(a, b) && Before(b, a) {
      BeforeTransitive(a, b, a);
    }
  }

  lemma OlderTransitive(a: Job, aKey: string, b: Job, bKey: string, c: Job, cKey: string)
    requires OlderRecord(a, aKey, b, bKey) && OlderRecord(b, bKey, c, cKey)
    ensures OlderRecord(a, aKey, c, cKey)
  {
    StampTotal(a.finishedAt, b.finishedAt);
    StampTotal(b.finishedAt, c.finishedAt);
    StampTotal(a.finishedAt, c.finishedAt);
    StampTransitive(a.finishedAt, b.finishedAt, c.finishedAt);
    StampTotal(a.createdAt, b.createdAt);
    StampTotal(b.createdAt, c.createdAt);
    StampTotal(a.createdAt, c.createdAt);
    StampTransitive(a.createdAt, b.createdAt, c.createdAt);
    IdsTransitive(IdText(a, aKey), IdText(b, bKey), IdText(c, cKey));
    IdsTransitive(aKey, bKey, cKey);
  }

  lemma IdsTransitive(a: string, b: string, c: string)
    ensures Before(a, b) && Before(b, c) ==> Before(a, c) && a != c
  {
    if Before(a, b) && Before(b, c) {
      BeforeTransitive(a, b, c);
      BeforeIrreflexive(a);
    }
  }

  // ---- compaction -----------------------------------------------------------------

  predicate Successful(job: Job) {
    job.state == JobQueue.Successful
  }

  /** A successful discovery of a named instance. */
  predicate Qualifies(job: Job) {
    job.discovery && Successful(job) && job.instance != ""
  }

  predicate Newer(jobs: Jobs, k: string, than: string) {
    && k in jobs && than in jobs && Qualifies(jobs[k]) && jobs[k].instance == jobs[than].instance
    && OlderRecord(jobs[than], than, jobs[k], k)
  }

  /** A newer successful discovery of the same instance exists. */
  predicate Superseded(jobs: Jobs, k: string) {
    k in jobs && Qualifies(jobs[k]) && exists j :: j in jobs && Newer(jobs, j, k)
  }

  function Stripped(job: Job): Job {
    job.(stdout := "", stderr := "", structuredResult := None, detailsRetained := false)
  }

  function Compact(jobs: Jobs): Jobs {
    map k | k in jobs :: if Superseded(jobs, k) then Stripped(jobs[k]) else jobs[k]
  }

  /** The jobs a compaction changes. */
  function Changed(jobs: Jobs): set<string> {
    set k | k in jobs && Superseded(jobs, k) && jobs[k] != Stripped(jobs[k])
  }

  /** No record is newer than itself, and no two are newer than each other. */
  lemma NewerAsymmetric(jobs: Jobs, a: string, b: string)
    ensures !(Newer(jobs, a, b) && Newer(jobs, b, a))
  {
    if a in jobs && b in jobs {
      if a == b {
        OlderIrreflexive(jobs[a], a);
      } else {
        OlderTotal(jobs[a], a, jobs[b], b);
      }
    }
  }

  lemma OlderIrreflexive(job: Job, key: string)
    ensures !OlderRecord(job, key, job, key)
  {
    StampTotal(job.finishedAt, job.finishedAt);
    BeforeIrreflexive(key);
  }

  /** `newest` names, for every instance among the keys, its newest successful discovery. */
  ghost predicate NewestOf(jobs: Jobs, keys: set<string>, newest: map<string, string>) {
    && (forall inst :: inst in newest ==>
          && newest[inst] in keys && newest[inst] in jobs
          && Qualifies(jobs[newest[inst]]) && jobs[newest[inst]].instance == inst)
    && (forall k :: k in keys && k in jobs && Qualifies(jobs[k]) ==>
          && jobs[k].instance in newest
          && (k == newest[jobs[k].instance] || Newer(jobs, newest[jobs[k].instance], k)))
  }

  function Keys(order: seq<string>): set<string> {
    set k | k in order
  }

  lemma NewestReplaced(jobs: Jobs, keys: set<string>, newest: map<string, string>, k: string)
    requires NewestOf(jobs, keys, newest) && k in jobs && Qualifies(jobs[k]) && jobs[k].instance in newest
    requires Newer(jobs, k, newest[jobs[k].instance])
    ensures NewestOf(jobs, keys + {k}, newest[jobs[k].instance := k])
  {
    var top := newest[jobs[k].instance];
    forall n | n in keys && n in jobs && Newer(jobs, top, n)
      ensures Newer(jobs, k, n)
    {
      OlderTransitive(jobs[n], n, jobs[top], top, jobs[k], k);
    }
  }

  /** The first loop: the newest successful discovery of every instance. */
  method FindNewest(jobs: Jobs, order: seq<string>) returns (newest: map<string, string>)
    requires forall k :: k in order ==> k in jobs
    requires forall i, j :: 0 <= i < j < |order| ==> order[i] != order[j]
    ensures NewestOf(jobs, Keys(order), newest)
  {
    newest := map[];
    for i := 0 to |order|
      invariant NewestOf(jobs, Keys(order[..i]), newest)
    {
      var k := order[i];
      var job := jobs[k];
      assert Keys(order[..i + 1]) == Keys(order[..i]) + {k};
      assert k !in order[..i];
      if Qualifies(job) {
        if job.instance !in newest {
          newest := newest[job.instance := k];
        } else {
          var current := newest[job.instance];
          OlderTotal(jobs[current], current, job, k);
          if OlderRecord(jobs[current], current, job, k) {
            NewestReplaced(jobs, Keys(order[..i]), newest, k);
            newest := newest[job.instance := k];
          }
        }
      }
    }
    assert order[..|order|] == order;
  }

  lemma NewestIsMaximal(jobs: Jobs, newest: map<string, string>, k: string)
    requires NewestOf(jobs, jobs.Keys, newest) && k in jobs && Qualifies(jobs[k])
    ensures Superseded(jobs, k) <==> newest[jobs[k].instance] != k
  {
    var top := newest[jobs[k].instance];
    forall j | j in jobs && Newer(jobs, j, k)
      ensures top != k
    {
      NewerAsymmetric(jobs, j, k);
      NewerAsymmetric(jobs, k, k);
    }
  }

  /** Compaction carried out on the records in `keys` only. */
  function Partly(jobs: Jobs, due: set<string>, keys: set<string>): Jobs {
    map k | k in jobs :: if k in keys && k in due then Stripped(jobs[k]) else jobs[k]
  }

  function ChangedIn(jobs: Jobs, due: set<string>, keys: set<string>): set<string> {
    set k | k in jobs && k in due && k in keys && jobs[k] != Stripped(jobs[k])
  }

  lemma OneMoreKey(order: seq<string>, i: nat)
    requires i < |order| && forall a, b :: 0 <= a < b < |order| ==> order[a] != order[b]
    ensures Keys(order[..i + 1]) == Keys(order[..i]) + {order[i]} && order[i] !in Keys(order[..i])
  {
    assert order[..i + 1] == order[..i] + [order[i]];
  }

  lemma OneMoreStripped(jobs: Jobs, due: set<string>, keys: set<string>, k: string)
    requires k in jobs && k !in keys
    ensures Partly(jobs, due, keys)[k] == jobs[k]
    ensures Partly(jobs, due, keys + {k}) ==
            if k in due && jobs[k] != Stripped(jobs[k]) then Partly(jobs, due, keys)[k := Stripped(jobs[k])]
            else Partly(jobs, due, keys)
  {
    var before, after := Partly(jobs, due, keys), Partly(jobs, due, keys + {k});
    var expected := if k in due && jobs[k] != Stripped(jobs[k]) then before[k := Stripped(jobs[k])] else before;
    assert after.Keys == jobs.Keys == expected.Keys;
    forall x | x in jobs
      ensures after[x] == expected[x]
    {
      assert x in keys + {k} <==> x in keys || x == k;
    }
  }

  lemma OneMoreChanged(jobs: Jobs, due: set<string>, keys: set<string>, k: string)
    requires k in jobs && k !in keys
    ensures |ChangedIn(jobs, due, keys + {k})| ==
            |ChangedIn(jobs, due, keys)| + if k in due && jobs[k] != Stripped(jobs[k]) then 1 else 0
  {
    var before, after := ChangedIn(jobs, due, keys), ChangedIn(jobs, due, keys + {k});
    assert k !in before;
    if k in due && jobs[k] != Stripped(jobs[k]) {
      assert after == before + {k};
    } else {
      assert after == before;
    }
  }

  /** The second loop: every other qualifying record (those of `due`) is stripped, and the
      records that really change are counted. */
  method StripOthers(jobs: Jobs, order: seq<string>, newest: map<string, string>, ghost due: set<string>)
    returns (result: Jobs, compacted: nat)
    requires forall k :: k in order ==> k in jobs
    requires forall i, j :: 0 <= i < j < |order| ==> order[i] != order[j]
    requires forall k :: k in jobs && Qualifies(jobs[k]) ==> jobs[k].instance in newest
    requires forall k :: k in jobs ==> (k in due <==> Qualifies(jobs[k]) && newest[jobs[k].instance] != k)
    ensures result == Partly(jobs, due, Keys(order))
    ensures compacted == |ChangedIn(jobs, due, Keys(order))|
  {
    result, compacted := jobs, 0;
    assert Partly(jobs, due, {}) == jobs && ChangedIn(jobs, due, {}) == {};
    for i := 0 to |order|
      invariant result == Partly(jobs, due, Keys(order[..i]))
      invariant compacted == |ChangedIn(jobs, due, Keys(order[..i]))|
    {
      var k := order[i];
      ghost var done := Keys(order[..i]);
      OneMoreKey(order, i);
      OneMoreStripped(jobs, due, done, k);
      OneMoreChanged(jobs, due, done, k);
      assert k in jobs && result[k] == jobs[k];
      var job := result[k];
      if Qualifies(job) && newest[job.instance] != k && job != Stripped(job) {
        result := result[k := Stripped(job)];
        compacted := compacted + 1;
      }
    }
    assert order[..|order|] == order;
  }

  ghost function Due(jobs: Jobs): set<string> {
    set k | k in jobs && Superseded(jobs, k)
  }

  lemma AllDueIsCompact(jobs: Jobs)
    ensures Partly(jobs, Due(jobs), jobs.Keys) == Compact(jobs)
    ensures ChangedIn(jobs, Due(jobs), jobs.Keys) == Changed(jobs)
  {
  }

  /** `compact_compute_discovery_history`, visiting the records in whatever order they come. */
  method CompactHistory(jobs: Jobs, order: seq<string>) returns (result: Jobs, compacted: nat)
    requires Keys(order) == jobs.Keys
    requires forall i, j :: 0 <= i < j < |order| ==> order[i] != order[j]
    ensures result == Compact(jobs)
    ensures compacted == |Changed(jobs)|
  {
    assert forall k :: k in order ==> k in Keys(order);
    var newest := FindNewest(jobs, order);
    NewestSplits(jobs, newest);
    result, compacted := StripOthers(jobs, order, newest, Due(jobs));
    AllDueIsCompact(jobs);
  }

  lemma NewestSplits(jobs: Jobs, newest: map<string, string>)
    requires NewestOf(jobs, jobs.Keys, newest)
    ensures forall k :: k in jobs && Qualifies(jobs[k]) ==> jobs[k].instance in newest
    ensures forall k :: k in jobs ==> (k in Due(jobs) <==> Qualifies(jobs[k]) && newest[jobs[k].instance] != k)
  {
    forall k | k in jobs
      ensures k in Due(jobs) <==> Qualifies(jobs[k]) && newest[jobs[k].instance] != k
    {
      if Qualifies(jobs[k]) {
        NewestIsMaximal(jobs, newest, k);
      }
    }
  }

  // ---- one run ----------------------------------------------------------------------

  /** The two collections rank their records alike. */
  ghost predicate RankedAlike(a: Jobs, b: Jobs) {
    && a.Keys == b.Keys
    && (forall k :: k in a ==> SameRank(a[k], b[k]))
  }

  predicate SameRank(a: Job, b: Job) {
    && a.discovery == b.discovery && a.state == b.state && a.instance == b.instance
    && a.id == b.id && a.finishedAt == b.finishedAt && a.createdAt == b.createdAt
  }

  lemma AlikeSuperseded(a: Jobs, b: Jobs, k: string)
    requires RankedAlike(a, b)
    ensures Superseded(a, k) <==> Superseded(b, k)
  {
    forall j
      ensures Newer(a, j, k) <==> Newer(b, j, k)
    {
      if j in a && k in a {
        assert SameRank(a[j], b[j]) && SameRank(a[k], b[k]);
      }
    }
  }

  lemma CompactRanksAlike(jobs: Jobs)
    ensures RankedAlike(jobs, Compact(jobs))
  {
  }

  /** A second run changes nothing. */
  lemma CompactIsIdempotent(jobs: Jobs)
    ensures Compact(Compact(jobs)) == Compact(jobs)
    ensures Changed(Compact(jobs)) == {}
  {
    CompactRanksAlike(jobs);
    forall k | k in jobs
      ensures Superseded(Compact(jobs), k) <==> Superseded(jobs, k)
    {
      AlikeSuperseded(jobs, Compact(jobs), k);
    }
  }

  /** Among some successful discoveries of one instance there is a newest. */
  lemma {:induction false} NewestExists(jobs: Jobs, keys: set<string>, instance: string) returns (top: string)
    requires keys != {} && keys <= jobs.Keys
    requires forall k :: k in keys ==> Qualifies(jobs[k]) && jobs[k].instance == instance
    ensures top in keys && forall k :: k in keys && k != top ==> Newer(jobs, top, k)
    decreases keys
  {
    top :| top in keys;
    if keys != {top} {
      var other := NewestExists(jobs, keys - {top}, instance);
      OlderTotal(jobs[top], top, jobs[other], other);
      if Newer(jobs, other, top) {
        top := other;
      } else {
        forall k | k in keys && k != top && k != other
          ensures Newer(jobs, top, k)
        {
          assert k in keys - {top};
          assert Newer(jobs, other, k);
          OlderTransitive(jobs[k], k, jobs[other], other, jobs[top], top);
        }
      }
    }
  }

  function Discoveries(jobs: Jobs, instance: string): set<string> {
    set k | k in jobs && Qualifies(jobs[k]) && jobs[k].instance == instance
  }

  /** Of an instance's successful discoveries exactly one, the newest, keeps its details. */
  lemma OnlyTheNewestKeepsDetails(jobs: Jobs, instance: string) returns (top: string)
    requires Discoveries(jobs, instance) != {}
    ensures top in Discoveries(jobs, instance) && Compact(jobs)[top] == jobs[top]
    ensures forall k :: k in Discoveries(jobs, instance) && k != top ==>
              Newer(jobs, top, k) && Compact(jobs)[k] == Stripped(jobs[k])
  {
    top := NewestExists(jobs, Discoveries(jobs, instance), instance);
    forall k | k in Discoveries(jobs, instance) && k != top
      ensures Superseded(jobs, k)
    {
      assert Newer(jobs, top, k);
    }
    forall j | j in jobs && Newer(jobs, j, top)
      ensures false
    {
      assert j in Discoveries(jobs, instance);
      NewerAsymmetric(jobs, j, top);
    }
  }
}
