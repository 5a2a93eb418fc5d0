/** One device's history file: capped series and a thinned long-range series per entity. */
module HistoryThinning {
  import opened Common

  const HISTORY_MAX := 120
  const LONG_MAX := 2016
  const ONLINE_MAX := 1440
  const LONG_INTERVAL := 300

  datatype Point = Point(ts: int, value: real)

  type Series = map<string, seq<Point>>

  datatype Doc = Doc(online: seq<Point>, history: Series, long: Series)

  /** One polling cycle: its time, the numeric samples and whether the device answered. */
  datatype Cycle = Cycle(ts: int, samples: map<string, real>, online: bool)

  function Of(series: Series, k: string): seq<Point> {
    if k in series then series[k] else []
  }

  // ---- one cycle ----------------------------------------------------------------------------

  /** A point is kept when it is the first or far enough from the last one kept. */
  function Thin(kept: seq<Point>, p: Point): seq<Point> {
    if kept == [] || p.ts - kept[|kept| - 1].ts >= LONG_INTERVAL then kept + [p] else kept
  }

  function OnlinePoint(c: Cycle): Point {
    Point(c.ts, if c.online then 1.0 else 0.0)
  }

  /** Every sampled entity's series with its new point appended by `add`. */
  function AppendedBy(series: Series, c: Cycle, add: (seq<Point>, Point) -> seq<Point>): Series {
    map k | k in series.Keys + c.samples.Keys ::
      if k in c.samples then add(Of(series, k), Point(c.ts, c.samples[k])) else series[k]
  }

  function HistoryOf(arr: seq<Point>, p: Point): seq<Point> {
    Suffix(arr + [p], HISTORY_MAX)
  }

  function LongOf(arr: seq<Point>, p: Point): seq<Point> {
    if Thin(arr, p) == arr then arr else Suffix(Thin(arr, p), LONG_MAX)
  }

  function Appended(d: Doc, c: Cycle): Doc {
    Doc(Suffix(d.online + [OnlinePoint(c)], ONLINE_MAX),
        AppendedBy(d.history, c, HistoryOf), AppendedBy(d.long, c, LongOf))
  }

  class HistoryFile {
    var online: seq<Point>
    var history: Series
    var long: Series

    /** Appends one sample to both series of an entity. */
    method AppendSample(k: string, p: Point)
      modifies this
      ensures online == old(online)
      ensures history == old(history)[k := HistoryOf(Of(old(history), k), p)]
      ensures long == old(long)[k := LongOf(Of(old(long), k), p)]
    {
      var arr := Of(history, k) + [p];
      if |arr| > HISTORY_MAX {
        arr := arr[|arr| - HISTORY_MAX..];
      }
      history := history[k := arr];
      var larr := Of(long, k);
      if larr == [] || p.ts - larr[|larr| - 1].ts >= LONG_INTERVAL {
        larr := larr + [p];
        if |larr| > LONG_MAX {
          larr := larr[|larr| - LONG_MAX..];
        }
      }
      long := long[k := larr];
    }

    method Append(c: Cycle)
      modifies this
      ensures Doc(online, history, long) == Appended(old(Doc(online, history, long)), c)
    {
      AppendSamples(c);
      online := online + [OnlinePoint(c)];
      if |online| > ONLINE_MAX {
        online := online[|online| - ONLINE_MAX..];
      }
    }

    method AppendSamples(c: Cycle)
      modifies this
      ensures online == old(online)
      ensures history == AppendedBy(old(history), c, HistoryOf) && long == AppendedBy(old(long), c, LongOf)
    {
      var pending := c.samples.Keys;
      while pending != {}
        invariant pending <= c.samples.Keys && online == old(online)
        invariant PartlyAppended(history, old(history), c, pending, HistoryOf)
        invariant PartlyAppended(long, old(long), c, pending, LongOf)
        decreases pending
      {
        var k :| k in pending;
        OneMore(history, old(history), c, pending, HistoryOf, k);
        OneMore(long, old(long), c, pending, LongOf, k);
        pending := pending - {k};
        AppendSample(k, Point(c.ts, c.samples[k]));
      }
      AllAppended(history, old(history), c, HistoryOf);
      AllAppended(long, old(long), c, LongOf);
    }
  }

  /** The samples not pending have been appended by `add`. */
  ghost predicate PartlyAppended(now: Series, was: Series, c: Cycle, pending: set<string>,
                                 add: (seq<Point>, Point) -> seq<Point>) {
    && now.Keys == was.Keys + (c.samples.Keys - pending)
    && forall k :: k in now ==>
         now[k] == if k in c.samples && k !in pending then add(Of(was, k), Point(c.ts, c.samples[k])) else was[k]
  }

  lemma OneMore(now: Series, was: Series, c: Cycle, pending: set<string>, add: (seq<Point>, Point) -> seq<Point>,
                k: string)
    requires PartlyAppended(now, was, c, pending, add) && k in pending && pending <= c.samples.Keys
    ensures (k in now <==> k in was) && (k in now ==> now[k] == was[k])
    ensures PartlyAppended(now[k := add(Of(now, k), Point(c.ts, c.samples[k]))], was, c, pending - {k}, add)
  {
  }

  lemma AllAppended(now: Series, was: Series, c: Cycle, add: (seq<Point>, Point) -> seq<Point>)
    requires PartlyAppended(now, was, c, {}, add)
    ensures now == AppendedBy(was, c, add)
  {
  }

  // ---- any sequence of cycles -----------------------------------------------------------------

  function Run(cycles: seq<Cycle>): Doc {
    if cycles == [] then Doc([], map[], map[])
    else Appended(Run(cycles[..|cycles| - 1]), cycles[|cycles| - 1])
  }

  /** All samples of one entity. */
  function Stream(cycles: seq<Cycle>, k: string): seq<Point> {
    if cycles == [] then []
    else
      var before, c := Stream(cycles[..|cycles| - 1], k), cycles[|cycles| - 1];
      if k in c.samples then before + [Point(c.ts, c.samples[k])] else before
  }

  function OnlineStream(cycles: seq<Cycle>): seq<Point> {
    if cycles == [] then [] else OnlineStream(cycles[..|cycles| - 1]) + [OnlinePoint(cycles[|cycles| - 1])]
  }

  /** Greedy thinning of a whole stream, with no limit on its length. */
  function Greedy(stream: seq<Point>): seq<Point> {
    if stream == [] then [] else Thin(Greedy(stream[..|stream| - 1]), stream[|stream| - 1])
  }

  lemma ThinCommutesWithSuffix(kept: seq<Point>, p: Point, n: nat)
    requires n > 0
    ensures Suffix(Thin(Suffix(kept, n), p), n) == Suffix(Thin(kept, p), n)
  {
    SuffixAppend(kept, p, n);
    assert |Suffix(Suffix(kept, n), n)| <= n;
    if |kept| > 0 {
      assert Suffix(kept, n)[|Suffix(kept, n)| - 1] == kept[|kept| - 1];
    }
  }

  /** The stored series are what one would cut from the untrimmed streams at the end: the
      last points of all samples, of their greedy thinning, and of all reachability points. */
  lemma {:induction false} TrimmedIsSuffix(cycles: seq<Cycle>, k: string)
    ensures var d := Run(cycles);
            && Of(d.history, k) == Suffix(Stream(cycles, k), HISTORY_MAX)
            && Of(d.long, k) == Suffix(Greedy(Stream(cycles, k)), LONG_MAX)
            && d.online == Suffix(OnlineStream(cycles), ONLINE_MAX)
            && (k in d.history <==> Stream(cycles, k) != []) && (k in d.long <==> Stream(cycles, k) != [])
  {
    if cycles != [] {
      var init, c := cycles[..|cycles| - 1], cycles[|cycles| - 1];
      TrimmedIsSuffix(init, k);
      SuffixAppend(OnlineStream(init), OnlinePoint(c), ONLINE_MAX);
      if k in c.samples {
        var p := Point(c.ts, c.samples[k]);
        SuffixAppend(Stream(init, k), p, HISTORY_MAX);
        ThinCommutesWithSuffix(Greedy(Stream(init, k)), p, LONG_MAX);
        assert Stream(cycles, k)[..|Stream(cycles, k)| - 1] == Stream(init, k);
      }
    }
  }

  ghost predicate Spaced(s: seq<Point>) {
    forall i :: 1 <= i < |s| ==> s[i].ts - s[i - 1].ts >= LONG_INTERVAL
  }

  /** Thinning keeps sampled points only, the first one among them, spaced by the interval. */
  lemma {:induction false} GreedyIsSpaced(stream: seq<Point>)
    ensures var kept := Greedy(stream);
            && Spaced(kept)
            && (forall p :: p in kept ==> p in stream)
            && (stream != [] ==> kept != [] && kept[0] == stream[0])
  {
    if stream != [] {
      GreedyIsSpaced(stream[..|stream| - 1]);
    }
  }

  lemma {:induction false} GreedyGrows(stream: seq<Point>, i: nat)
    requires i <= |stream|
    ensures Greedy(stream[..i]) <= Greedy(stream)
  {
    if i < |stream| {
      var init := stream[..|stream| - 1];
      GreedyGrows(init, i);
      assert init[..i] == stream[..i];
    } else {
      assert stream[..i] == stream;
    }
  }

  /** A point is kept if and only if it comes the interval or more after the last one kept
      before it. */
  lemma GreedyKeeps(stream: seq<Point>, i: nat)
    requires i < |stream|
    ensures Greedy(stream[..i]) <= Greedy(stream)
    ensures !Covered(Greedy(stream[..i]), stream[i]) <==> Greedy(stream[..i]) + [stream[i]] <= Greedy(stream)
                                                          && Greedy(stream[..i + 1]) != Greedy(stream[..i])
  {
    GreedyGrows(stream, i);
    GreedyGrows(stream, i + 1);
    assert stream[..i + 1][..i] == stream[..i];
  }

  /** Every sample comes less than the interval after some point that is kept. */
  lemma GreedyCovers(stream: seq<Point>, i: nat)
    requires i < |stream|
    ensures exists p :: p in Greedy(stream) && stream[i].ts - p.ts < LONG_INTERVAL
  {
    var before := Greedy(stream[..i]);
    GreedyKeeps(stream, i);
    if Covered(before, stream[i]) {
      assert before[|before| - 1] in Greedy(stream);
    } else {
      assert (before + [stream[i]])[|before|] in Greedy(stream);
    }
  }

  /** `p` is less than the interval after the last point kept. */
  predicate Covered(kept: seq<Point>, p: Point) {
    kept != [] && p.ts - kept[|kept| - 1].ts < LONG_INTERVAL
  }

  lemma {:induction false} SpacedSpan(s: seq<Point>, i: nat, j: nat)
    requires Spaced(s) && i <= j < |s|
    ensures s[j].ts - s[i].ts >= LONG_INTERVAL * (j - i)
    decreases j
  {
    if i < j {
      SpacedSpan(s, i, j - 1);
    }
  }

  lemma SuffixSpaced(s: seq<Point>, n: nat)
    requires Spaced(s)
    ensures Spaced(Suffix(s, n))
  {
    var last := Suffix(s, n);
    var d := |s| - |last|;
    forall i | 1 <= i < |last|
      ensures last[i].ts - last[i - 1].ts >= LONG_INTERVAL
    {
      assert last[i] == s[d + i] && last[i - 1] == s[d + i - 1];
    }
  }

  /** A full long-range series reaches back seven days less one interval. */
  lemma FullSeriesSpansAWeek(cycles: seq<Cycle>, k: string)
    requires |Of(Run(cycles).long, k)| == LONG_MAX
    ensures var long := Of(Run(cycles).long, k);
            Spaced(long) && long[LONG_MAX - 1].ts - long[0].ts >= 7 * 86400 - LONG_INTERVAL
  {
    var long := Of(Run(cycles).long, k);
    TrimmedIsSuffix(cycles, k);
    GreedyIsSpaced(Stream(cycles, k));
    SuffixSpaced(Greedy(Stream(cycles, k)), LONG_MAX);
    SpacedSpan(long, 0, LONG_MAX - 1);
  }
}
