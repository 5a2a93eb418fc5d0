/** The bounded job history: compaction at every success, retention at every admission. */
module HistoryRetention {
  import opened Common
  import opened HistoryCompaction
  import opened Retention
  import JobQueue

  predicate Terminal(job: Job) {
    !JobQueue.Active(job.state)
  }

  /** `finishedAt or createdAt`, for times that are finite numbers. */
  function Age(job: Job): real {
    if job.finishedAt.Finite? && job.finishedAt.value != 0.0 then job.finishedAt.value
    else if job.createdAt.Finite? then job.createdAt.value
    else 0.0
  }

  /** As every write leaves them: a terminal job is stored under its id and has a finite end. */
  ghost predicate Timed(jobs: Jobs) {
    forall k :: k in jobs && Terminal(jobs[k]) ==>
      && jobs[k].id == Some(k) && jobs[k].finishedAt.Finite?
      && (jobs[k].finishedAt.value == 0.0 ==> jobs[k].createdAt.Finite?)
  }

  function Ages(jobs: Jobs): map<string, real> {
    map k | k in jobs && Terminal(jobs[k]) :: Age(jobs[k])
  }

  /** The `n` oldest terminal records, by (time, id), leave the history. */
  function Cut(jobs: Jobs, n: nat): Jobs {
    jobs - Oldest(Ages(jobs), n)
  }

  predicate CutCommutes(jobs: Jobs, n: nat) {
    Compact(jobs) - Oldest(Ages(jobs), n) == Compact(Cut(jobs, n))
  }

  // ---- retention and compaction ------------------------------------------------------------

  lemma PruneCommutesIff(jobs: Jobs, gone: set<string>)
    ensures Compact(jobs) - gone == Compact(jobs - gone) <==>
            forall k :: k in jobs && k !in gone && Superseded(jobs, k) && !Superseded(jobs - gone, k)
                        ==> jobs[k] == Stripped(jobs[k])
  {
    var kept := jobs - gone;
    forall k | k in kept && Superseded(kept, k)
      ensures Superseded(jobs, k)
    {
      var j :| j in kept && Newer(kept, j, k);
      assert Newer(jobs, j, k);
    }
    forall k | k in kept
      ensures k in Compact(jobs) - gone && (Compact(jobs) - gone)[k] == Compact(jobs)[k]
    {
    }
    if Compact(jobs) - gone == Compact(kept) {
      forall k | k in jobs && k !in gone && Superseded(jobs, k) && !Superseded(kept, k)
        ensures jobs[k] == Stripped(jobs[k])
      {
        assert k in kept;
        assert Compact(kept)[k] == jobs[k] && Compact(jobs)[k] == Stripped(jobs[k]);
      }
    }
  }

  predicate Detailed(jobs: Jobs, k: string) {
    k in jobs && jobs[k] != Stripped(jobs[k])
  }

  /** A superseded discovery with details that outlives, in the retention order, everything
      that supersedes it. */
  predicate Exposed(jobs: Jobs, k: string) {
    Detailed(jobs, k) && Superseded(jobs, k) && forall j :: j in jobs && Newer(jobs, j, k) ==> Older(Ages(jobs), j, k)
  }

  /** Retention commutes with compaction at every cut if and only if nothing is exposed. */
  lemma RetentionCommutesIff(jobs: Jobs)
    requires Timed(jobs)
    ensures (forall n: nat :: CutCommutes(jobs, n)) <==> (forall k :: k in jobs ==> !Exposed(jobs, k))
  {
    forall k | k in jobs && Exposed(jobs, k)
      ensures exists n: nat :: !CutCommutes(jobs, n)
    {
      ExposedAtItsOwnCut(jobs, k);
    }
    forall n: nat | !CutCommutes(jobs, n)
      ensures exists k :: k in jobs && Exposed(jobs, k)
    {
      var k := FailedCutExposes(jobs, n);
    }
  }

  /** The cut that ends just before an exposed discovery removes all that superseded it. */
  lemma ExposedAtItsOwnCut(jobs: Jobs, k: string)
    requires Exposed(jobs, k)
    ensures !CutCommutes(jobs, |Elders(Ages(jobs), k)|)
  {
    var ages := Ages(jobs);
    var n := |Elders(ages, k)|;
    var gone := Oldest(ages, n);
    forall j | j in jobs - gone && Newer(jobs - gone, j, k)
      ensures false
    {
      assert Newer(jobs, j, k);
      EldersGrow(ages, j, k);
    }
    assert k in ages && k !in gone;
    PruneCommutesIff(jobs, gone);
  }

  lemma FailedCutExposes(jobs: Jobs, n: nat) returns (k: string)
    requires !CutCommutes(jobs, n)
    ensures k in jobs && Exposed(jobs, k)
  {
    var ages := Ages(jobs);
    var gone := Oldest(ages, n);
    PruneCommutesIff(jobs, gone);
    k :| k in jobs && k !in gone && Superseded(jobs, k) && !Superseded(jobs - gone, k) && jobs[k] != Stripped(jobs[k]);
    OldestAreOldest(ages, n);
    forall j | j in jobs && Newer(jobs, j, k)
      ensures Older(ages, j, k)
    {
      if j !in gone {
        assert Newer(jobs - gone, j, k);
      }
    }
  }

  lemma EldersGrow(ages: map<string, real>, a: string, b: string)
    requires Older(ages, a, b)
    ensures |Elders(ages, a)| < |Elders(ages, b)|
  {
    EldersNest(ages, a, b);
    AgeOrderIsStrictTotal(ages);
    assert a in Elders(ages, b) && !AgeOrder(ages)(a, a);
    forall j | j in Elders(ages, a)
      ensures j in Elders(ages, b)
    {
      assert AgeOrder(ages)(j, a) && AgeOrder(ages)(a, b);
      assert AgeOrder(ages)(j, b);
    }
    SubsetSize(Elders(ages, a), Elders(ages, b));
  }

  /** Beside that, no successful discovery ended at time zero. */
  ghost predicate Recorded(jobs: Jobs) {
    Timed(jobs) && forall k :: k in jobs && Qualifies(jobs[k]) ==> jobs[k].finishedAt.value != 0.0
  }

  /** The two orders disagree on a pair only when both finished at the same time, and the one
      created later has the smaller id. */
  predicate Tied(jobs: Jobs, j: string, k: string) {
    && j in jobs && k in jobs && jobs[j].finishedAt == jobs[k].finishedAt
    && StampBefore(jobs[k].createdAt, jobs[j].createdAt) && Before(j, k)
  }

  lemma DisagreementIsTie(jobs: Jobs, j: string, k: string)
    requires Recorded(jobs) && Newer(jobs, j, k) && Qualifies(jobs[k])
    ensures Older(Ages(jobs), j, k) <==> Tied(jobs, j, k)
  {
    StampTotal(jobs[k].createdAt, jobs[j].createdAt);
    StringsTotal(j, k);
  }

  /** A detailed discovery that is superseded only by such ties. */
  ghost predicate OnlyTied(jobs: Jobs, k: string) {
    Detailed(jobs, k) && Superseded(jobs, k) && forall j :: j in jobs && Newer(jobs, j, k) ==> Tied(jobs, j, k)
  }

  lemma ExposedIffTied(jobs: Jobs, k: string)
    requires Recorded(jobs)
    ensures Exposed(jobs, k) <==> OnlyTied(jobs, k)
  {
    if Superseded(jobs, k) {
      forall j | j in jobs && Newer(jobs, j, k)
        ensures Older(Ages(jobs), j, k) <==> Tied(jobs, j, k)
      {
        DisagreementIsTie(jobs, j, k);
      }
    }
  }

  /** The histories that every cut leaves as a later compaction would: those in which each
      detailed, superseded discovery has a newer one that is not tied with it. */
  lemma RetentionCommutesUnlessTied(jobs: Jobs)
    requires Recorded(jobs)
    ensures (forall n: nat :: CutCommutes(jobs, n)) <==> (forall k :: k in jobs ==> !OnlyTied(jobs, k))
  {
    RetentionCommutesIff(jobs);
    forall k | k in jobs
      ensures Exposed(jobs, k) <==> OnlyTied(jobs, k)
    {
      ExposedIffTied(jobs, k);
    }
  }

  ghost predicate DistinctTimes(jobs: Jobs) {
    forall j, k ::
      && j in jobs && k in jobs && j != k && Qualifies(jobs[j]) && Qualifies(jobs[k])
      && jobs[j].instance == jobs[k].instance
      ==> jobs[j].finishedAt != jobs[k].finishedAt
  }

  /** Without two discoveries of an instance that finish at the same time, every cut commutes. */
  lemma DistinctTimesCommute(jobs: Jobs, n: nat)
    requires Recorded(jobs) && DistinctTimes(jobs)
    ensures CutCommutes(jobs, n)
  {
    forall k | k in jobs
      ensures !OnlyTied(jobs, k)
    {
      if Superseded(jobs, k) {
        var j :| j in jobs && Newer(jobs, j, k);
        NewerAsymmetric(jobs, j, k);
        assert !Tied(jobs, j, k);
      }
    }
    RetentionCommutesUnlessTied(jobs);
  }

  /** Two discoveries that end in the same second. */
  function Twins(): Jobs {
    var z := Job(true, JobQueue.Successful, "vm", Some("z"), Finite(5.0), Finite(1.0), "log", "", None, true, map[]);
    map["z" := z, "a" := z.(id := Some("a"), createdAt := Finite(2.0))]
  }

  lemma TwinsAreTied()
    ensures Recorded(Twins()) && OnlyTied(Twins(), "z")
    ensures Older(Ages(Twins()), "a", "z") && !Older(Ages(Twins()), "z", "a")
  {
    var jobs := Twins();
    assert Before("a", "z");
    StringsTotal("a", "z");
    assert Newer(jobs, "a", "z") && Tied(jobs, "a", "z");
    NewerAsymmetric(jobs, "z", "z");
    assert Superseded(jobs, "z") && Detailed(jobs, "z");
  }

  /** The later created "a" is the newer one for compaction and the older one for retention,
      which drops it and leaves "z" without the details a compaction after it would have kept. */
  lemma TieLosesDetails()
    ensures Recorded(Twins()) && Oldest(Ages(Twins()), 1) == {"a"} && !CutCommutes(Twins(), 1)
  {
    var ages := Ages(Twins());
    TwinsAreTied();
    AgeOrderIsStrictTotal(ages);
    assert !AgeOrder(ages)("a", "a") && !AgeOrder(ages)("z", "z");
    assert Elders(ages, "z") == {"a"} && Elders(ages, "a") == {};
    ExposedIffTied(Twins(), "z");
    ExposedAtItsOwnCut(Twins(), "z");
  }

  // ---- compacting on every success equals compacting once ---------------------------------

  /** A record is created or rewritten, an admission drops the `n` oldest terminal ones, or a
      deleted device takes all records of its instances along. */
  datatype Change = Put(key: string, job: Job) | Drop(n: nat) | Delete(instances: set<string>)

  function Without(jobs: Jobs, instances: set<string>): Jobs {
    map k | k in jobs && jobs[k].instance !in instances :: jobs[k]
  }

  /** `_set_job` compacts when a write turns a discovery successful. */
  function Incremental(jobs: Jobs, changes: seq<Change>): Jobs {
    if changes == [] then jobs
    else
      var before := Incremental(jobs, changes[..|changes| - 1]);
      match changes[|changes| - 1]
      case Put(key, job) =>
        var after := before[key := job];
        if job.discovery && Successful(job) && key in before && !Successful(before[key]) then Compact(after) else after
      case Drop(n) => Cut(before, n)
      case Delete(instances) => Without(before, instances)
  }

  function Plain(jobs: Jobs, changes: seq<Change>): Jobs {
    if changes == [] then jobs
    else
      var before := Plain(jobs, changes[..|changes| - 1]);
      match changes[|changes| - 1]
      case Put(key, job) => before[key := job]
      case Drop(n) => Cut(before, n)
      case Delete(instances) => Without(before, instances)
  }

  /** Jobs are created unfinished, nothing rewrites one that had succeeded, and nothing is
      exposed when records drop. */
  ghost predicate Harmless(jobs: Jobs, change: Change) {
    match change
    case Put(key, job) => if key in jobs then !Successful(jobs[key]) else !Successful(job)
    case Drop(_) => Timed(jobs) && forall k :: k in jobs ==> !Exposed(jobs, k)
    case Delete(_) => true
  }

  ghost predicate AllHarmless(jobs: Jobs, changes: seq<Change>) {
    forall n :: 0 <= n < |changes| ==> Harmless(Plain(jobs, changes[..n]), changes[n])
  }

  lemma SupersededAfterWrite(jobs: Jobs, key: string, job: Job, k: string)
    requires (key in jobs ==> !Successful(jobs[key])) && k != key
    ensures Superseded(jobs, k) ==> Superseded(jobs[key := job], k)
    ensures !Qualifies(job) && Superseded(jobs[key := job], k) ==> Superseded(jobs, k)
  {
    var once := jobs[key := job];
    if Superseded(jobs, k) {
      var j :| j in jobs && Newer(jobs, j, k);
      assert Newer(once, j, k);
    }
    if !Qualifies(job) && Superseded(once, k) {
      var j :| j in once && Newer(once, j, k);
      assert Newer(jobs, j, k);
    }
  }

  lemma CompactCommutes(jobs: Jobs, key: string, job: Job)
    requires key in jobs ==> !Successful(jobs[key])
    ensures Compact(Compact(jobs)[key := job]) == Compact(jobs[key := job])
    ensures !Qualifies(job) ==> Compact(jobs)[key := job] == Compact(jobs[key := job])
  {
    var once, twice := jobs[key := job], Compact(jobs)[key := job];
    CompactRanksAlike(jobs);
    assert RankedAlike(once, twice);
    forall k | k in once
      ensures Compact(twice)[k] == Compact(once)[k]
      ensures !Qualifies(job) ==> twice[k] == Compact(once)[k]
    {
      AlikeSuperseded(once, twice, k);
      if k != key {
        SupersededAfterWrite(jobs, key, job, k);
      }
    }
  }

  lemma DeletionCommutes(jobs: Jobs, instances: set<string>)
    ensures Without(Compact(jobs), instances) == Compact(Without(jobs, instances))
  {
    var left := Without(jobs, instances);
    forall k | k in left
      ensures Superseded(left, k) <==> Superseded(jobs, k)
    {
      forall j
        ensures Newer(left, j, k) <==> Newer(jobs, j, k)
      {
      }
      if Superseded(jobs, k) {
        var j :| j in jobs && Newer(jobs, j, k);
        assert Newer(left, j, k);
      }
    }
  }

  lemma CompactKeepsAges(jobs: Jobs)
    ensures Ages(Compact(jobs)) == Ages(jobs)
  {
    CompactRanksAlike(jobs);
  }

  /** Running the compaction at every success, between admissions that drop the oldest
      records, leaves the same history as running it once at the end. */
  lemma {:induction false} IncrementalEqualsBatch(jobs: Jobs, changes: seq<Change>)
    requires Compact(jobs) == jobs && AllHarmless(jobs, changes)
    ensures Incremental(jobs, changes) == Compact(Plain(jobs, changes))
  {
    if changes != [] {
      var init, last := changes[..|changes| - 1], changes[|changes| - 1];
      assert forall n :: 0 <= n < |init| ==> init[..n] == changes[..n] && init[n] == changes[n];
      IncrementalEqualsBatch(jobs, init);
      var plain := Plain(jobs, init);
      assert changes[..|init|] == init;
      assert Harmless(plain, last);
      match last
      case Put(key, job) => CompactCommutes(plain, key, job);
      case Drop(n) =>
        CompactKeepsAges(plain);
        RetentionCommutesIff(plain);
        assert CutCommutes(plain, n);
      case Delete(instances) => DeletionCommutes(plain, instances);
    }
  }

  // ---- a success that is taken back ----------------------------------------------------------

  /** The newest of an instance's discoveries beside `key`. */
  predicate Second(jobs: Jobs, key: string, k: string)
    requires key in jobs
  {
    && k in Discoveries(jobs, jobs[key].instance) && k != key
    && forall j :: j in Discoveries(jobs, jobs[key].instance) && j != key && j != k ==> Newer(jobs, k, j)
  }

  /** A worker may mark a job failed after it had succeeded and been compacted around.  What
      is lost is exactly the details of the discovery before it, if it was the newest. */
  lemma DemotionLosesTheSecond(jobs: Jobs, key: string, job: Job)
    requires key in jobs && Qualifies(jobs[key]) && !Qualifies(job)
    ensures var (kept, batch) := (Compact(jobs)[key := job], Compact(jobs[key := job]));
            && kept.Keys == batch.Keys
            && (forall k :: k in kept ==>
                  (kept[k] != batch[k] <==> Detailed(jobs, k) && !Superseded(jobs, key) && Second(jobs, key, k)))
            && (forall j, k :: j in kept && k in kept && kept[j] != batch[j] && kept[k] != batch[k] ==> j == k)
  {
    var after := jobs[key := job];
    forall k | k in jobs && k != key && Qualifies(jobs[k])
      ensures Superseded(jobs, k) && !Superseded(after, k) <==> !Superseded(jobs, key) && Second(jobs, key, k)
    {
      OnlyKeySuperseded(jobs, key, job, k);
    }
    forall j, k | Second(jobs, key, j) && Second(jobs, key, k)
      ensures j == k
    {
      NewerAsymmetric(jobs, j, k);
    }
    forall k | k in jobs && k != key
      ensures Superseded(after, k) ==> Superseded(jobs, k)
    {
      if Superseded(after, k) {
        var j :| j in after && Newer(after, j, k);
        assert Newer(jobs, j, k);
      }
    }
  }

  /** Removing `key` from the successes uncovers `k` exactly if `key` alone superseded it. */
  lemma OnlyKeySuperseded(jobs: Jobs, key: string, job: Job, k: string)
    requires key in jobs && Qualifies(jobs[key]) && !Qualifies(job) && k in jobs && k != key && Qualifies(jobs[k])
    ensures Superseded(jobs, k) && !Superseded(jobs[key := job], k) <==> !Superseded(jobs, key) && Second(jobs, key, k)
  {
    var after := jobs[key := job];
    forall j
      ensures j in after && Newer(after, j, k) <==> j in jobs && j != key && Newer(jobs, j, k)
    {
    }
    if Superseded(jobs, k) && !Superseded(after, k) {
      AloneIsSecond(jobs, key, k);
    }
    if !Superseded(jobs, key) && Second(jobs, key, k) {
      OlderTotal(jobs[k], k, jobs[key], key);
      assert Newer(jobs, key, k);
      forall j | j in jobs && j != key
        ensures !Newer(jobs, j, k)
      {
        NewerAsymmetric(jobs, j, k);
      }
    }
  }

  lemma AloneIsSecond(jobs: Jobs, key: string, k: string)
    requires key in jobs && k in jobs && k != key && Qualifies(jobs[k]) && Superseded(jobs, k)
    requires forall j :: j in jobs && Newer(jobs, j, k) ==> j == key
    ensures !Superseded(jobs, key) && Second(jobs, key, k)
  {
    assert Newer(jobs, key, k);
    forall j | j in Discoveries(jobs, jobs[key].instance) && j != key && j != k
      ensures Newer(jobs, k, j)
    {
      OlderTotal(jobs[j], j, jobs[k], k);
      assert !Newer(jobs, j, k);
    }
    forall j | j in jobs
      ensures !Newer(jobs, j, key)
    {
      if Newer(jobs, j, key) {
        OlderTransitive(jobs[k], k, jobs[key], key, jobs[j], j);
        assert Newer(jobs, j, k);
        NewerAsymmetric(jobs, key, key);
      }
    }
  }
}
