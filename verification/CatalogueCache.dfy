/** The shared, resumable page cache over one provider's server catalogue. */
module CatalogueCache {
  import opened Common

  const PAGE := 100
  const MAX_PAGES := 50

  datatype Candidate = Candidate(serverId: Option<int>, hostname: string, ip: string, key: string)

  /** A catalogue row: the candidate its fields describe, if they are usable. */
  type Row = Option<Candidate>

  // ---- one page ---------------------------------------------------------------------

  /** The candidates kept so far, with their addresses and keys. */
  datatype Kept = Kept(list: seq<Candidate>, ips: set<string>, keys: set<string>)

  function Keep(k: Kept, row: Row): Kept {
    if row.None? || row.value.ip in k.ips || row.value.key in k.keys then k
    else Kept(k.list + [row.value], k.ips + {row.value.ip}, k.keys + {row.value.key})
  }

  /** After the first `n` rows. */
  function Within(rows: seq<Row>, n: nat): Kept
    requires n <= |rows|
  {
    if n == 0 then Kept([], {}, {}) else Keep(Within(rows, n - 1), rows[n - 1])
  }

  function Parsed(rows: seq<Row>): seq<Candidate> {
    Within(rows, |rows|).list
  }

  predicate Clashes(kept: seq<Candidate>, c: Candidate) {
    exists i :: 0 <= i < |kept| && (kept[i].ip == c.ip || kept[i].key == c.key)
  }

  /** Kept candidates are distinct in address and key, and every usable row left out shares
      one of the two with a kept candidate. */
  lemma ParsedIsMaximal(rows: seq<Row>)
    ensures var kept := Parsed(rows);
            && (forall i, j :: 0 <= i < j < |kept| ==> kept[i].ip != kept[j].ip && kept[i].key != kept[j].key)
            && (forall c :: c in kept ==> Some(c) in rows)
            && (forall c :: Some(c) in rows ==> Clashes(kept, c))
  {
    KeptIsMaximal(rows, |rows|);
  }

  /** The sets list exactly the addresses and keys of the kept candidates. */
  ghost predicate Mirrored(k: Kept) {
    k.ips == (set c | c in k.list :: c.ip) && k.keys == (set c | c in k.list :: c.key)
  }

  ghost predicate AllDistinct(list: seq<Candidate>) {
    forall i, j :: 0 <= i < j < |list| ==> list[i].ip != list[j].ip && list[i].key != list[j].key
  }

  lemma MemberClashes(list: seq<Candidate>, x: Candidate, c: Candidate)
    requires x in list && (x.ip == c.ip || x.key == c.key)
    ensures Clashes(list, c)
  {
  }

  lemma KeepMirrors(k: Kept, row: Row)
    requires Mirrored(k) && AllDistinct(k.list)
    ensures Mirrored(Keep(k, row)) && AllDistinct(Keep(k, row).list) && k.list <= Keep(k, row).list
    ensures row.Some? ==> Clashes(Keep(k, row).list, row.value)
  {
    if row.Some? {
      var c := row.value;
      if c.ip in k.ips {
        var x :| x in k.list && x.ip == c.ip;
        MemberClashes(k.list, x, c);
      } else if c.key in k.keys {
        var x :| x in k.list && x.key == c.key;
        MemberClashes(k.list, x, c);
      } else {
        forall i | 0 <= i < |k.list|
          ensures k.list[i].ip != c.ip && k.list[i].key != c.key
        {
          assert k.list[i] in k.list;
        }
        MemberClashes(Keep(k, row).list, c, c);
      }
    }
  }

  lemma {:induction false} KeptIsMaximal(rows: seq<Row>, n: nat)
    requires n <= |rows|
    ensures Mirrored(Within(rows, n)) && AllDistinct(Within(rows, n).list)
    ensures forall c :: c in Within(rows, n).list ==> Some(c) in rows
    ensures forall i :: 0 <= i < n && rows[i].Some? ==> Clashes(Within(rows, n).list, rows[i].value)
  {
    if n > 0 {
      KeptIsMaximal(rows, n - 1);
      var before := Within(rows, n - 1);
      KeepMirrors(before, rows[n - 1]);
      forall i | 0 <= i < n - 1 && rows[i].Some?
        ensures Clashes(Keep(before, rows[n - 1]).list, rows[i].value)
      {
        assert Clashes(before.list, rows[i].value);
      }
    }
  }

  method ParseCandidates(rows: seq<Row>) returns (candidates: seq<Candidate>)
    ensures candidates == Parsed(rows)
  {
    candidates := [];
    var ips: set<string>, keys: set<string> := {}, {};
    for i := 0 to |rows|
      invariant Kept(candidates, ips, keys) == Within(rows, i)
    {
      if rows[i].None? || rows[i].value.ip in ips || rows[i].value.key in keys {
        continue;
      }
      candidates := candidates + [rows[i].value];
      ips := ips + {rows[i].value.ip};
      keys := keys + {rows[i].value.key};
    }
  }

  // ---- searching page by page -----------------------------------------------------------

  function First(candidates: seq<Candidate>, want: Candidate -> bool): Option<Candidate> {
    if candidates == [] then None
    else if want(candidates[0]) then Some(candidates[0])
    else First(candidates[1..], want)
  }

  ghost predicate IsFirst(candidates: seq<Candidate>, want: Candidate -> bool, c: Candidate) {
    exists i ::
      && 0 <= i < |candidates| && candidates[i] == c && want(c)
      && forall k :: 0 <= k < i ==> !want(candidates[k])
  }

  lemma {:induction false} FirstIsFirst(candidates: seq<Candidate>, want: Candidate -> bool)
    ensures match First(candidates, want)
            case Some(c) => IsFirst(candidates, want, c)
            case None => forall k :: 0 <= k < |candidates| ==> !want(candidates[k])
  {
    if candidates != [] && !want(candidates[0]) {
      var rest := candidates[1..];
      FirstIsFirst(rest, want);
      assert forall k :: 1 <= k < |candidates| ==> candidates[k] == rest[k - 1];
      if First(rest, want).Some? {
        var c := First(rest, want).value;
        var i :| 0 <= i < |rest| && rest[i] == c && want(c) && forall k :: 0 <= k < i ==> !want(rest[k]);
        assert candidates[i + 1] == c;
      }
    }
  }

  lemma {:induction false} FirstOfJoin(a: seq<Candidate>, b: seq<Candidate>, want: Candidate -> bool)
    ensures First(a + b, want) == if First(a, want).Some? then First(a, want) else First(b, want)
  {
    if a == [] {
      assert a + b == b;
    } else {
      FirstOfJoin(a[1..], b, want);
      assert (a + b)[1..] == a[1..] + b;
    }
  }

  /** A country's catalogue as a search meets it: the candidates of the pages within the
      limit, and whether those are all there are. */
  datatype Catalogue = Catalogue(pages: seq<seq<Candidate>>, whole: bool)

  /** Candidates of the first `n` pages, in order. */
  function Joined(c: Catalogue, n: nat): seq<Candidate>
    requires n <= |c.pages|
  {
    if n == 0 then [] else Joined(c, n - 1) + c.pages[n - 1]
  }

  /** The first match in the first `n` pages. */
  function Match(c: Catalogue, n: nat, want: Candidate -> bool): Option<Candidate>
    requires n <= |c.pages|
  {
    First(Joined(c, n), want)
  }

  datatype LookupError = UnknownCountry | Unavailable | NotFound | SafetyLimit

  /** The answer of an uncached scan: the first match of all pages within the limit. */
  function Cold(c: Catalogue, want: Candidate -> bool): Result<Candidate, LookupError> {
    match Match(c, |c.pages|, want)
    case Some(x) => Ok(x)
    case None => if c.whole then Err(NotFound) else Err(SafetyLimit)
  }

  /** The first of pages `n`, `n + 1`, ... to have a hit before it, or `limit`. */
  function Stop(hit: nat -> bool, n: nat, limit: nat): (r: nat)
    requires n <= limit
    ensures n <= r <= limit && (r < limit ==> hit(r))
    ensures forall k :: n <= k < r ==> !hit(k)
    decreases limit - n
  {
    if n == limit || hit(n) then n else Stop(hit, n + 1, limit)
  }

  function HitBy(c: Catalogue, want: Candidate -> bool): nat -> bool {
    (n: nat) => n <= |c.pages| && Match(c, n, want).Some?
  }

  /** The number of pages an uncached scan has to read. */
  function Need(c: Catalogue, want: Candidate -> bool): (r: nat)
    ensures r <= |c.pages|
  {
    Stop(HitBy(c, want), 0, |c.pages|)
  }

  lemma NeedIsLeast(c: Catalogue, want: Candidate -> bool)
    ensures forall k: nat :: k < Need(c, want) ==> Match(c, k, want).None?
    ensures Need(c, want) < |c.pages| ==> Match(c, Need(c, want), want).Some?
  {
    var hit := HitBy(c, want);
    forall k: nat | k < Need(c, want)
      ensures Match(c, k, want).None?
    {
      assert !hit(k);
    }
  }

  lemma {:induction false} JoinedSplit(c: Catalogue, n: nat, m: nat) returns (rest: seq<Candidate>)
    requires n <= m <= |c.pages|
    ensures Joined(c, m) == Joined(c, n) + rest
    decreases m
  {
    if n == m {
      rest := [];
    } else {
      rest := JoinedSplit(c, n, m - 1);
      rest := rest + c.pages[m - 1];
    }
  }

  /** Further pages do not change the first match. */
  lemma PagesExtend(c: Catalogue, n: nat, m: nat, want: Candidate -> bool)
    requires n <= m <= |c.pages| && Match(c, n, want).Some?
    ensures Match(c, m, want) == Match(c, n, want)
  {
    var rest := JoinedSplit(c, n, m);
    FirstOfJoin(Joined(c, n), rest, want);
  }

  /** With `n` pages read, a match is at hand exactly when a scan needs no more pages and
      would succeed; it is then the scan's own answer. */
  lemma AtHand(c: Catalogue, n: nat, want: Candidate -> bool)
    requires n <= |c.pages|
    ensures Match(c, n, want).Some? ==>
              n >= Need(c, want) && Cold(c, want) == Ok(Match(c, n, want).value)
    ensures Match(c, n, want).None? ==>
              n <= Need(c, want) && (n == Need(c, want) ==> n == |c.pages| && Cold(c, want).Err?)
  {
    NeedIsLeast(c, want);
    if Match(c, n, want).Some? {
      PagesExtend(c, n, |c.pages|, want);
    } else if Need(c, want) < n {
      PagesExtend(c, Need(c, want), n, want);
    }
  }

  /** Pages read after a lookup that starts from `n`, when the provider answers `supply` requests. */
  function PagesAfter(c: Catalogue, n: nat, want: Candidate -> bool, supply: nat): (r: nat)
    requires n <= |c.pages|
    ensures n <= r <= |c.pages|
  {
    if n >= Need(c, want) then n else if Need(c, want) < n + supply then Need(c, want) else n + supply
  }

  function Answer(c: Catalogue, n: nat, want: Candidate -> bool, supply: nat): Result<Candidate, LookupError>
    requires n <= |c.pages|
  {
    if PagesAfter(c, n, want, supply) < Need(c, want) then Err(Unavailable) else Cold(c, want)
  }

  /** Page counts at which the search can end: with a match, ... */
  lemma EndsFound(c: Catalogue, start: nat, n: nat, want: Candidate -> bool, supply: nat)
    requires start <= n <= |c.pages| && n <= start + supply && Match(c, n, want).Some?
    requires n == start || Match(c, n - 1, want).None?
    ensures PagesAfter(c, start, want, supply) == n
    ensures Answer(c, start, want, supply) == Ok(Match(c, n, want).value)
  {
    AtHand(c, n, want);
    if start < n {
      AtHand(c, n - 1, want);
    }
  }

  /** ... with a request that fails, ... */
  lemma EndsUnavailable(c: Catalogue, start: nat, want: Candidate -> bool, supply: nat)
    requires start + supply < |c.pages| && Match(c, start + supply, want).None?
    ensures PagesAfter(c, start, want, supply) == start + supply
    ensures Answer(c, start, want, supply) == Err(Unavailable)
  {
    AtHand(c, start + supply, want);
  }

  /** ... or with all pages read in vain. */
  lemma EndsEmpty(c: Catalogue, start: nat, want: Candidate -> bool, supply: nat)
    requires start <= |c.pages| <= start + supply && Match(c, |c.pages|, want).None?
    ensures PagesAfter(c, start, want, supply) == |c.pages|
    ensures Answer(c, start, want, supply) == Err(if c.whole then NotFound else SafetyLimit)
  {
    AtHand(c, |c.pages|, want);
  }

  // ---- offsets --------------------------------------------------------------------------

  /** The offset of page `i`. */
  function Start(i: nat): nat {
    if i == 0 then 0 else Start(i - 1) + PAGE
  }

  lemma {:induction false} StartIsMultiple(i: nat)
    ensures Start(i) == PAGE * i
  {
    if i > 0 {
      StartIsMultiple(i - 1);
    }
  }

  /** The provider's reply to every page offset is that page of the catalogue: full, except
      the last page of all. */
  ghost predicate Serves(reply: nat -> seq<Row>, c: Catalogue) {
    && 0 < |c.pages| <= MAX_PAGES && (!c.whole ==> |c.pages| == MAX_PAGES)
    && forall i :: 0 <= i < |c.pages| ==>
         && Parsed(reply(Start(i))) == c.pages[i]
         && |reply(Start(i))| <= PAGE
         && (|reply(Start(i))| < PAGE <==> c.whole && i == |c.pages| - 1)
  }

  method FirstMatch(candidates: seq<Candidate>, want: Candidate -> bool) returns (found: Option<Candidate>)
    ensures found == First(candidates, want)
  {
    for i := 0 to |candidates|
      invariant First(candidates, want) == First(candidates[i..], want)
    {
      if want(candidates[i]) {
        return Some(candidates[i]);
      }
    }
    return None;
  }

  /** Endpoint first, then server id, then host name; `fold` is case folding. */
  predicate Matches(fold: string -> string, endpoint: string, serverId: Option<int>, hostname: string, c: Candidate) {
    if endpoint != "" then endpoint == fold(c.ip) || endpoint == fold(c.hostname)
    else if serverId.Some? && serverId.value > 0 then c.serverId == serverId
    else hostname != "" && fold(c.hostname) == hostname
  }

  /** The state cached for one country. */
  class CountryState {
    const id: int
    var candidates: seq<Candidate>
    var offset: nat
    var complete: bool
    /** The country's catalogue, fixed while the cache lives. */
    ghost const c: Catalogue
    /** Successful page requests. */
    ghost var read: nat

    ghost predicate Valid()
      reads this
    {
      && read <= |c.pages| && candidates == Joined(c, read)
      && (complete <==> c.whole && read == |c.pages|)
      && (!complete ==> offset == Start(read))
    }

    constructor (id: int, ghost c: Catalogue)
      requires |c.pages| > 0
      ensures Valid() && read == 0 && this.c == c && this.id == id
    {
      this.id, this.c := id, c;
      candidates, offset, complete, read := [], 0, false, 0;
    }

    /** One successful page request and the search of that page. */
    method FetchPage(want: Candidate -> bool, reply: nat -> seq<Row>) returns (found: Option<Candidate>)
      requires Valid() && Serves(reply, c) && read < |c.pages| && Match(c, read, want).None?
      modifies this
      ensures Valid() && read == old(read) + 1 && found == Match(c, read, want)
    {
      FirstOfJoin(candidates, c.pages[read], want);
      var payload := reply(offset);
      var page := ParseCandidates(payload);
      candidates := candidates + page;
      offset := offset + |payload|;
      complete := |payload| < PAGE;
      read := read + 1;
      found := FirstMatch(page, want);
    }

    method PagesSoFar() returns (pages: nat)
      requires Valid()
      ensures !complete ==> pages == read
    {
      StartIsMultiple(read);
      pages := offset / PAGE;
    }

    /** The search, from the cached candidates on; `reply` is what the provider returns for an
        offset, and `supply` the number of requests it answers. */
    method Search(want: Candidate -> bool, reply: nat -> seq<Row>, supply: nat)
      returns (r: Result<Candidate, LookupError>)
      requires Valid() && Serves(reply, c)
      modifies this
      ensures Valid()
      ensures r == Answer(c, old(read), want, supply)
      ensures read == PagesAfter(c, old(read), want, supply)
    {
      var found := FirstMatch(candidates, want);
      if found.Some? {
        EndsFound(c, read, read, want, supply);
        return Ok(found.value);
      }
      ghost var start := read;
      var pages := PagesSoFar();
      var answered := 0;
      while !complete && pages < MAX_PAGES
        invariant Valid() && read == start + answered && answered <= supply
        invariant Match(c, read, want).None?
        invariant !complete ==> pages == read
        decreases |c.pages| - read
      {
        if answered == supply {
          EndsUnavailable(c, start, want, supply);
          return Err(Unavailable);
        }
        found := FetchPage(want, reply);
        pages := pages + 1;
        answered := answered + 1;
        if found.Some? {
          EndsFound(c, start, read, want, supply);
          return Ok(found.value);
        }
      }
      EndsEmpty(c, start, want, supply);
      if !complete {
        return Err(SafetyLimit);
      }
      r := Err(NotFound);
    }
  }

  class Client {
    var shared: map<string, CountryState>
    const ids: map<string, int>
    /** Case folding. */
    const fold: string -> string
    /** The provider's catalogue of each country, fixed while the cache lives. */
    ghost const catalogue: string -> Catalogue

    function States(): set<CountryState>
      reads this
    {
      set k | k in shared :: shared[k]
    }

    ghost predicate Valid()
      reads this, States()
    {
      && (forall k :: k in shared ==> shared[k].Valid() && shared[k].c == catalogue(k))
      && (forall k, l :: k in shared && l in shared && k != l ==> shared[k] != shared[l])
    }

    /** One lookup; `located` tells whether the country request succeeds, `reply` what the
        provider returns for an offset, and `supply` how many of the page requests it answers. */
    method ConnectedServer(country: string, endpoint: string, serverId: Option<int>, hostname: string,
                           located: bool, reply: nat -> seq<Row>, supply: nat)
      returns (r: Result<Candidate, LookupError>)
      requires Valid() && Serves(reply, catalogue(country))
      modifies this, States()
      ensures Valid()
      ensures country !in shared ==>
                && shared == old(shared) && !(located && country in ids)
                && r == Err(if located then UnknownCountry else Unavailable)
      ensures country in shared ==>
                var n := if country in old(shared) then old(shared[country].read) else 0;
                var want := x => Matches(fold, endpoint, serverId, hostname, x);
                && (country in old(shared) || (located && country in ids))
                && r == Answer(catalogue(country), n, want, supply)
                && shared[country].read == PagesAfter(catalogue(country), n, want, supply)
      ensures forall k :: k in old(shared) ==> k in shared && shared[k] == old(shared)[k]
      ensures forall k :: k in old(shared) && k != country ==> shared[k].read == old(shared[k].read)
    {
      var state: CountryState;
      if country in shared {
        state := shared[country];
      } else {
        if !located {
          return Err(Unavailable);
        }
        if country !in ids {
          return Err(UnknownCountry);
        }
        state := new CountryState(ids[country], catalogue(country));
        shared := shared[country := state];
      }
      r := state.Search(x => Matches(fold, endpoint, serverId, hostname, x), reply, supply);
    }
  }

  // ---- a fixed catalogue of rows ------------------------------------------------------------

  /** What the provider answers for an offset. */
  function Page(rows: seq<Row>, offset: nat): seq<Row> {
    if offset >= |rows| then [] else rows[offset..Min(offset + PAGE, |rows|)]
  }

  function Served(rows: seq<Row>): nat -> seq<Row> {
    (offset: nat) => Page(rows, offset)
  }

  /** Pages up to and including the first short one. */
  function Count(rows: seq<Row>): nat {
    |rows| / PAGE + 1
  }

  function Of(rows: seq<Row>): Catalogue {
    Catalogue(seq(Min(Count(rows), MAX_PAGES), i requires 0 <= i => Parsed(Page(rows, Start(i)))),
              Count(rows) <= MAX_PAGES)
  }

  lemma FixedCatalogueServes(rows: seq<Row>)
    ensures Serves(Served(rows), Of(rows))
  {
    var c := Of(rows);
    forall i | 0 <= i < |c.pages|
      ensures |Page(rows, Start(i))| <= PAGE
      ensures |Page(rows, Start(i))| < PAGE <==> c.whole && i == |c.pages| - 1
    {
      StartIsMultiple(i);
    }
  }

  /** A search without a match ends in the safety-limit error exactly from fifty full pages on,
      even when those are the whole catalogue and the scan has read all of it. */
  lemma SafetyLimitIff(rows: seq<Row>, want: Candidate -> bool)
    requires Match(Of(rows), |Of(rows).pages|, want).None?
    ensures Cold(Of(rows), want) == Err(if |rows| >= PAGE * MAX_PAGES then SafetyLimit else NotFound)
    ensures |rows| == PAGE * MAX_PAGES ==>
              Start(|Of(rows).pages|) == |rows| && Cold(Of(rows), want) == Err(SafetyLimit)
  {
    StartIsMultiple(|Of(rows).pages|);
  }

  // ---- any sequence of lookups ------------------------------------------------------------

  datatype Lookup = Lookup(want: Candidate -> bool, supply: nat)

  function PagesAfterAll(c: Catalogue, lookups: seq<Lookup>): (n: nat)
    ensures n <= |c.pages|
  {
    if lookups == [] then 0
    else
      var last := lookups[|lookups| - 1];
      PagesAfter(c, PagesAfterAll(c, lookups[..|lookups| - 1]), last.want, last.supply)
  }

  /** Whatever lookups came before and wherever they were cut off: an answer is the first
      match in the concatenation of all parsed pages within the limit, a refusal means there
      is none, and only a provider that supplies fewer pages than an uncached scan would
      read leaves a lookup unanswered. */
  lemma WarmAnswersAsCold(c: Catalogue, before: seq<Lookup>, x: Lookup)
    ensures var n := PagesAfterAll(c, before);
            var all := Joined(c, |c.pages|);
            match Answer(c, n, x.want, x.supply)
            case Ok(found) => IsFirst(all, x.want, found)
            case Err(Unavailable) => n + x.supply < Need(c, x.want)
            case Err(e) =>
              && (forall k :: 0 <= k < |all| ==> !x.want(all[k]))
              && e == (if c.whole then NotFound else SafetyLimit)
  {
    FirstIsFirst(Joined(c, |c.pages|), x.want);
  }

  /** Failed lookups lose nothing: what one read, the next need not read again. */
  lemma InterruptedScanResumes(c: Catalogue, n: nat, want: Candidate -> bool, first: nat, second: nat)
    requires n <= |c.pages|
    ensures var m := PagesAfter(c, n, want, first);
            && PagesAfter(c, m, want, second) == PagesAfter(c, n, want, first + second)
            && Answer(c, m, want, second) == Answer(c, n, want, first + second)
  {
  }

  /** A lookup once answered is answered for good without another request. */
  lemma {:induction false} AnswersStay(c: Catalogue, before: seq<Lookup>, after: seq<Lookup>, x: Lookup)
    requires PagesAfterAll(c, before) >= Need(c, x.want)
    ensures var n := PagesAfterAll(c, before + after);
            && n >= Need(c, x.want) && PagesAfter(c, n, x.want, x.supply) == n
            && Answer(c, n, x.want, 0) == Cold(c, x.want)
  {
    if after == [] {
      assert before + after == before;
    } else {
      AnswersStay(c, before, after[..|after| - 1], x);
      assert (before + after)[..|before + after| - 1] == before + after[..|after| - 1];
    }
  }
}
