/** Gap detection, series validation and backfill planning (aura/data/gap_detector.py, aura/data/validation.py). */
module Gaps {
  import opened Wrappers
  import opened Indicators

  /** First and last missing timestamp; also the first and last bar of a request. */
  datatype Span = Span(start: int, end: int)

  // ---------- gaps ----------

  /** The gaps between neighbours that are more than one interval apart. */
  function GapsOf(times: seq<int>, interval: int): seq<Span> {
    if |times| < 2 then []
    else GapsOf(Front(times), interval) + GapBetween(times[|times| - 2], Last(times), interval)
  }

  function GapBetween(prev: int, next: int, interval: int): seq<Span> {
    if next - prev > interval then [Span(prev + interval, next - interval)] else []
  }

  lemma GapsGrow(times: seq<int>, interval: int, i: nat)
    requires i < |times|
    ensures GapsOf(times[..i + 1], interval)
            == GapsOf(times[..i], interval) + if i > 0 then GapBetween(times[i - 1], times[i], interval) else []
  {
    Grow(times, i);
    assert i > 0 ==> times[..i + 1][i - 1] == times[i - 1];
  }

  method DetectGaps(times: seq<int>, interval: int) returns (gaps: seq<Span>)
    ensures gaps == GapsOf(times, interval)
  {
    gaps := [];
    if |times| < 2 {
      return;
    }
    for i := 1 to |times|
      invariant gaps == GapsOf(times[..i], interval)
    {
      GapsGrow(times, interval, i);
      var prev, curr := times[i - 1], times[i];
      if curr - prev > interval {
        gaps := gaps + [Span(prev + interval, curr - interval)];
      }
    }
    assert times[..|times|] == times;
  }

  // ---------- the series validator ----------

  /** A bar's timestamp, and whether the bar by itself is valid. */
  datatype Bar = Bar(time: int, sound: bool)

  datatype SeriesError = BadBar(i: nat) | DuplicateTime(i: nat) | NotIncreasing(i: nat)

  datatype Report = Report(isValid: bool, errors: seq<SeriesError>, duplicates: seq<int>, gaps: seq<Span>)

  function TimesOf(bars: seq<Bar>): seq<int> {
    seq(|bars|, i requires 0 <= i < |bars| => bars[i].time)
  }

  predicate Increasing(times: seq<int>) {
    forall i, j :: 0 <= i < j < |times| ==> times[i] < times[j]
  }

  predicate AllSound(bars: seq<Bar>) {
    forall i :: 0 <= i < |bars| ==> bars[i].sound
  }

  /** The report is valid exactly for sound bars with strictly increasing times; its gaps are the gap detector's. */
  method ValidateSeries(bars: seq<Bar>, interval: int) returns (report: Report)
    requires interval > 0
    ensures report.isValid <==> AllSound(bars) && Increasing(TimesOf(bars))
    ensures report.gaps == GapsOf(TimesOf(bars), interval)
    ensures report.isValid ==> report.errors == [] && report.duplicates == []
    ensures !report.isValid ==> report.errors != []
  {
    var errors: seq<SeriesError>, duplicates: seq<int>, gaps: seq<Span> := [], [], [];
    var seen: set<int> := {};
    ghost var times := TimesOf(bars);
    NothingYet(bars, times);
    hide Increasing, AllSound, GapsOf;
    for i := 0 to |bars|
      invariant forall t :: t in seen ==> exists k :: 0 <= k < i && times[k] == t
      invariant gaps == GapsOf(times[..i], interval)
      invariant errors == [] <==> AllSound(bars[..i]) && Increasing(times[..i])
      invariant errors == [] ==> duplicates == []
    {
      GapsGrow(times, interval, i);
      SeriesGrows(bars, times, i);
      if !bars[i].sound {
        errors := errors + [BadBar(i)];
      }
      var t := bars[i].time;
      if t in seen {
        RepeatBreaks(times, i);
        duplicates := duplicates + [t];
        errors := errors + [DuplicateTime(i)];
      }
      seen := seen + {t};
      if i > 0 {
        var prev := bars[i - 1].time;
        if t <= prev {
          errors := errors + [NotIncreasing(i)];
        } else if t - prev > interval {
          gaps := gaps + [Span(prev + interval, t - interval)];
        }
      }
    }
    assert times[..|bars|] == times && bars[..|bars|] == bars;
    report := Report(errors == [] && duplicates == [], errors, duplicates, gaps);
  }

  lemma NothingYet(bars: seq<Bar>, times: seq<int>)
    ensures AllSound(bars[..0]) && Increasing(times[..0])
    ensures forall interval :: GapsOf(times[..0], interval) == []
  {
  }

  lemma RepeatBreaks(times: seq<int>, i: nat)
    requires i < |times| && exists k :: 0 <= k < i && times[k] == times[i]
    ensures !Increasing(times[..i + 1])
  {
    var k :| 0 <= k < i && times[k] == times[i];
    assert times[..i + 1][k] == times[..i + 1][i];
  }

  lemma SeriesGrows(bars: seq<Bar>, times: seq<int>, i: nat)
    requires i < |bars| == |times|
    ensures AllSound(bars[..i + 1]) <==> AllSound(bars[..i]) && bars[i].sound
    ensures Increasing(times[..i + 1]) <==> Increasing(times[..i]) && (i > 0 ==> times[i - 1] < times[i])
  {
    Grow(bars, i);
    Grow(times, i);
    var all, before := times[..i + 1], times[..i];
    assert forall k :: 0 <= k < i ==> all[k] == before[k] == times[k];
    if Increasing(before) && (i > 0 ==> times[i - 1] < times[i]) {
      forall k, l | 0 <= k < l < |all|
        ensures all[k] < all[l]
      {
        if l == i && k < i - 1 { assert before[k] < before[i - 1]; }
      }
    }
    if Increasing(all) {
      assert i > 0 ==> all[i - 1] < all[i];
      assert forall k, l :: 0 <= k < l < i ==> all[k] < all[l];
    }
  }

  // ---------- backfill chunks ----------

  lemma ChunkReaches(interval: int, size: int)
    requires interval > 0 && size >= 1
    ensures size * interval >= interval
  {
    assert (size - 1) * interval >= 0;
  }

  function ChunkEnd(start: int, end: int, interval: int, size: int): int {
    MinInt(end, start + size * interval - interval)
  }

  /** The requests for one gap, none longer than `size` bars. */
  function ChunksOf(start: int, end: int, interval: int, size: int): seq<Span>
    requires interval > 0 && size >= 1
    decreases end - start + interval
  {
    ChunkReaches(interval, size);
    if start > end then []
    else
      var last := ChunkEnd(start, end, interval, size);
      [Span(start, last)] + ChunksOf(last + interval, end, interval, size)
  }

  method PlanBackfillChunks(gapStart: int, gapEnd: int, interval: int, size: int) returns (chunks: seq<Span>)
    requires interval > 0 && size >= 1
    ensures chunks == ChunksOf(gapStart, gapEnd, interval, size)
  {
    chunks := [];
    if gapStart > gapEnd {
      return;
    }
    var duration := size * interval;
    ChunkReaches(interval, size);
    var current := gapStart;
    while current <= gapEnd
      invariant chunks + ChunksOf(current, gapEnd, interval, size) == ChunksOf(gapStart, gapEnd, interval, size)
      decreases gapEnd - current
    {
      var end := MinInt(gapEnd, current + duration - interval);
      chunks := chunks + [Span(current, end)];
      current := end + interval;
    }
  }

  // ---------- the plan covers exactly the missing bars ----------

  /** The k-th bar of the grid. */
  function At(base: int, interval: int, k: int): int {
    base + k * interval
  }

  lemma AtOrder(base: int, interval: int, a: int, b: int)
    requires interval > 0
    ensures a <= b <==> At(base, interval, a) <= At(base, interval, b)
    ensures a < b <==> At(base, interval, a) < At(base, interval, b)
  {
    if a <= b { assert (b - a) * interval >= 0; }
    if a < b { assert (b - a) * interval > 0; }
    if b < a { assert (a - b) * interval > 0; }
  }

  lemma AtShift(base: int, interval: int, a: int, n: int)
    ensures At(base, interval, a) + n * interval == At(base, interval, a + n)
    ensures At(base, interval, a) + interval == At(base, interval, a + 1)
    ensures At(base, interval, a) - interval == At(base, interval, a - 1)
  {
    assert (a + n) * interval == a * interval + n * interval;
  }

  predicate InSpan(s: Span, t: int) {
    s.start <= t <= s.end
  }

  predicate Covered(spans: seq<Span>, t: int) {
    exists i :: 0 <= i < |spans| && InSpan(spans[i], t)
  }

  /** The spans follow each other without touching. */
  predicate Apart(spans: seq<Span>) {
    forall i, j :: 0 <= i < j < |spans| ==> spans[i].end < spans[j].start
  }

  /** From grid bar to grid bar, at most `size` bars. */
  ghost predicate GridSpan(s: Span, base: int, interval: int, size: int) {
    exists a, b :: a <= b < a + size && s == Span(At(base, interval, a), At(base, interval, b))
  }

  ghost predicate GridSpans(spans: seq<Span>, base: int, interval: int, size: int) {
    forall i :: 0 <= i < |spans| ==> GridSpan(spans[i], base, interval, size)
  }

  predicate SpansWithin(spans: seq<Span>, lo: int, hi: int) {
    forall i :: 0 <= i < |spans| ==> lo <= spans[i].start && spans[i].end <= hi
  }

  lemma CoveredJoin(a: seq<Span>, b: seq<Span>, t: int)
    ensures Covered(a + b, t) <==> Covered(a, t) || Covered(b, t)
  {
    var all := a + b;
    if Covered(all, t) {
      var i :| 0 <= i < |all| && InSpan(all[i], t);
      if i < |a| { assert InSpan(a[i], t); } else { assert InSpan(b[i - |a|], t); }
    }
    if Covered(a, t) {
      var i :| 0 <= i < |a| && InSpan(a[i], t);
      assert InSpan(all[i], t);
    }
    if Covered(b, t) {
      var i :| 0 <= i < |b| && InSpan(b[i], t);
      assert InSpan(all[|a| + i], t);
    }
  }

  lemma ApartJoin(a: seq<Span>, b: seq<Span>, lo: int, mid: int, mid': int, hi: int)
    requires Apart(a) && Apart(b) && SpansWithin(a, lo, mid) && SpansWithin(b, mid', hi) && mid < mid' && lo <= mid'
    requires mid <= hi
    ensures Apart(a + b) && SpansWithin(a + b, lo, hi)
  {
  }

  /** The first chunk of a grid gap, in grid terms. */
  lemma FirstChunk(base: int, interval: int, size: int, a: int, b: int)
    requires interval > 0 && size >= 1 && a <= b
    ensures ChunkEnd(At(base, interval, a), At(base, interval, b), interval, size) ==
            At(base, interval, MinInt(b, a + size - 1))
    ensures At(base, interval, a) <= At(base, interval, b)
  {
    AtShift(base, interval, a, size);
    AtShift(base, interval, a + size, 0);
    AtOrder(base, interval, b, a + size - 1);
    AtOrder(base, interval, a, b);
    hide At;
  }

  lemma ChunksStep(base: int, interval: int, size: int, a: int, b: int, c: int)
    requires interval > 0 && size >= 1 && a <= b && c == MinInt(b, a + size - 1)
    ensures ChunksOf(At(base, interval, a), At(base, interval, b), interval, size)
            == [Span(At(base, interval, a), At(base, interval, c))]
              + ChunksOf(At(base, interval, c + 1), At(base, interval, b), interval, size)
  {
    FirstChunk(base, interval, size, a, b);
    AtShift(base, interval, c, 0);
    hide At, ChunkEnd;
  }

  /** Exactly the grid bars a..b, span after span, none longer than `size` bars. */
  ghost predicate CoversGrid(spans: seq<Span>, base: int, interval: int, size: int, a: int, b: int) {
    && (forall x :: Covered(spans, At(base, interval, x)) <==> a <= x <= b)
    && Apart(spans) && SpansWithin(spans, At(base, interval, a), At(base, interval, b))
    && GridSpans(spans, base, interval, size)
  }

  /** The chunks of a grid gap cover its bars and nothing else, one after the other, none longer than the limit. */
  lemma {:induction false} ChunksCover(base: int, interval: int, size: int, a: int, b: int)
    requires interval > 0 && size >= 1
    ensures CoversGrid(
              ChunksOf(At(base, interval, a), At(base, interval, b), interval, size), base, interval, size, a, b)
    decreases b - a + 1
  {
    hide CoversGrid;
    if a <= b {
      var c := MinInt(b, a + size - 1);
      ChunksStep(base, interval, size, a, b, c);
      ChunksCover(base, interval, size, c + 1, b);
      OneThenRest(base, interval, size, a, b, c,
                  ChunksOf(At(base, interval, c + 1), At(base, interval, b), interval, size));
    } else {
      AtOrder(base, interval, b, a);
      NoChunks(base, interval, size, a, b);
    }
  }

  lemma NoChunks(base: int, interval: int, size: int, a: int, b: int)
    requires b < a
    ensures CoversGrid([], base, interval, size, a, b)
  {
  }

  lemma OneThenRest(base: int, interval: int, size: int, a: int, b: int, c: int, rest: seq<Span>)
    requires interval > 0 && a <= c <= b && c < a + size && CoversGrid(rest, base, interval, size, c + 1, b)
    ensures CoversGrid([Span(At(base, interval, a), At(base, interval, c))] + rest, base, interval, size, a, b)
  {
    hide GridSpans;
    var one := [Span(At(base, interval, a), At(base, interval, c))];
    forall x
      ensures Covered(one + rest, At(base, interval, x)) <==> a <= x <= b
    {
      CoveredJoin(one, rest, At(base, interval, x));
      AtOrder(base, interval, a, x);
      AtOrder(base, interval, x, c);
      assert Covered(one, At(base, interval, x)) <==> InSpan(one[0], At(base, interval, x));
    }
    AtOrder(base, interval, a, c);
    AtOrder(base, interval, c, c + 1);
    AtOrder(base, interval, c, b);
    hide At, Covered;
    ApartJoin(one, rest, At(base, interval, a), At(base, interval, c), At(base, interval, c + 1),
              At(base, interval, b));
    GridSpansJoin(one, rest, base, interval, size, a, c);
  }

  lemma GridSpansJoin(one: seq<Span>, rest: seq<Span>, base: int, interval: int, size: int, a: int, c: int)
    requires one == [Span(At(base, interval, a), At(base, interval, c))] && a <= c < a + size
    requires GridSpans(rest, base, interval, size)
    ensures GridSpans(one + rest, base, interval, size)
  {
    assert GridSpan(one[0], base, interval, size);
    hide GridSpan;
    forall i | 0 <= i < |one + rest|
      ensures GridSpan((one + rest)[i], base, interval, size)
    {
      assert (one + rest)[i] == if i == 0 then one[0] else rest[i - 1];
    }
  }

  /** The chunks of all gaps of a series. */
  function PlanOf(gaps: seq<Span>, interval: int, size: int): seq<Span>
    requires interval > 0 && size >= 1
  {
    if gaps == [] then []
    else PlanOf(Front(gaps), interval, size) + ChunksOf(Last(gaps).start, Last(gaps).end, interval, size)
  }

  /** The times are the grid bars g, in increasing order. */
  predicate OnGrid(times: seq<int>, g: seq<int>, base: int, interval: int) {
    |times| == |g| && Increasing(g) && forall i :: 0 <= i < |g| ==> times[i] == At(base, interval, g[i])
  }

  lemma PlanOfOne(gaps: seq<Span>, gap: Span, interval: int, size: int)
    requires interval > 0 && size >= 1
    ensures PlanOf(gaps + [gap], interval, size) ==
            PlanOf(gaps, interval, size) + ChunksOf(gap.start, gap.end, interval, size)
  {
    assert Front(gaps + [gap]) == gaps;
  }

  /** Missing: inside the series, but not one of its bars. */
  predicate Missing(g: seq<int>, x: int) {
    g != [] && g[0] < x < Last(g) && x !in g
  }

  lemma MissingGrows(g: seq<int>, x: int)
    requires Increasing(g) && |g| >= 2
    ensures Missing(g, x) <==> Missing(Front(g), x) || g[|g| - 2] < x < Last(g)
  {
    var front, prev := Front(g), g[|g| - 2];
    assert g == front + [Last(g)] && Last(front) == prev && front[0] == g[0];
    if x in front {
      var i :| 0 <= i < |front| && front[i] == x;
      assert g[i] <= prev;
    }
  }

  /** The gap between two neighbours on the grid, in grid terms. */
  lemma GridGap(base: int, interval: int, p: int, n: int)
    requires interval > 0 && p < n
    ensures GapBetween(At(base, interval, p), At(base, interval, n), interval)
            == if p + 1 < n then [Span(At(base, interval, p + 1), At(base, interval, n - 1))] else []
  {
    AtShift(base, interval, p, 0);
    AtShift(base, interval, n, 0);
    AtOrder(base, interval, p + 1, n);
  }

  /** The plan for a series covers what is missing from it. */
  ghost predicate CoversMissing(plan: seq<Span>, g: seq<int>, base: int, interval: int, size: int) {
    && (forall x :: Covered(plan, At(base, interval, x)) <==> Missing(g, x))
    && Apart(plan) && GridSpans(plan, base, interval, size)
    && (g != [] ==> SpansWithin(plan, At(base, interval, g[0]), At(base, interval, Last(g))))
  }

  lemma {:induction false} PlanCovers(times: seq<int>, g: seq<int>, base: int, interval: int, size: int)
    requires interval > 0 && size >= 1 && OnGrid(times, g, base, interval)
    ensures CoversMissing(PlanOf(GapsOf(times, interval), interval, size), g, base, interval, size)
  {
    hide CoversMissing, CoversGrid, GapBetween, ChunksOf, PlanOf, At;
    if |g| < 2 {
      NothingMissing(g, base, interval, size);
      assert PlanOf([], interval, size) == [] by { NoPlan(interval, size); }
    } else {
      var p, n := g[|g| - 2], Last(g);
      FrontOnGrid(times, g, base, interval);
      PlanCovers(Front(times), Front(g), base, interval, size);
      var gaps, before := GapsOf(Front(times), interval), PlanOf(GapsOf(Front(times), interval), interval, size);
      GridGap(base, interval, p, n);
      hide OnGrid;
      if p + 1 < n {
        var gap := Span(At(base, interval, p + 1), At(base, interval, n - 1));
        assert GapsOf(times, interval) == gaps + [gap];
        PlanOfOne(gaps, gap, interval, size);
        ChunksCover(base, interval, size, p + 1, n - 1);
        GapAdded(g, base, interval, size, before, ChunksOf(gap.start, gap.end, interval, size));
      } else {
        assert GapsOf(times, interval) == gaps;
        NoGapAdded(g, base, interval, size, before);
      }
    }
  }

  lemma NoPlan(interval: int, size: int)
    requires interval > 0 && size >= 1
    ensures PlanOf([], interval, size) == []
  {
  }

  lemma NothingMissing(g: seq<int>, base: int, interval: int, size: int)
    requires |g| < 2
    ensures CoversMissing([], g, base, interval, size)
  {
  }

  lemma FrontOnGrid(times: seq<int>, g: seq<int>, base: int, interval: int)
    requires OnGrid(times, g, base, interval) && |g| >= 2
    ensures OnGrid(Front(times), Front(g), base, interval) && Increasing(g) && g[|g| - 2] < Last(g) && |times| == |g|
    ensures times[|g| - 2] == At(base, interval, g[|g| - 2]) && Last(times) == At(base, interval, Last(g))
  {
    hide At;
  }

  lemma NoGapAdded(g: seq<int>, base: int, interval: int, size: int, plan: seq<Span>)
    requires interval > 0 && Increasing(g) && |g| >= 2 && g[|g| - 2] + 1 >= Last(g)
    requires CoversMissing(plan, Front(g), base, interval, size)
    ensures CoversMissing(plan, g, base, interval, size)
  {
    hide Missing, At, Covered, GridSpans;
    forall x
      ensures Missing(g, x) <==> Missing(Front(g), x)
    {
      MissingGrows(g, x);
    }
    AtOrder(base, interval, g[|g| - 2], Last(g));
  }

  lemma GapAdded(g: seq<int>, base: int, interval: int, size: int, plan: seq<Span>, chunks: seq<Span>)
    requires interval > 0 && Increasing(g) && |g| >= 2 && g[|g| - 2] + 1 < Last(g)
    requires CoversMissing(plan, Front(g), base, interval, size)
    requires CoversGrid(chunks, base, interval, size, g[|g| - 2] + 1, Last(g) - 1)
    ensures CoversMissing(plan + chunks, g, base, interval, size)
  {
    hide Missing, At, Covered, GridSpan;
    var p, n := g[|g| - 2], Last(g);
    forall x
      ensures Covered(plan + chunks, At(base, interval, x)) <==> Missing(g, x)
    {
      MissingGrows(g, x);
      CoveredJoin(plan, chunks, At(base, interval, x));
    }
    AtOrder(base, interval, p, p + 1);
    AtOrder(base, interval, p + 1, n);
    AtOrder(base, interval, n - 1, n);
    AtOrder(base, interval, g[0], p);
    assert SpansWithin(chunks, At(base, interval, p + 1), At(base, interval, n));
    ApartJoin(plan, chunks, At(base, interval, g[0]), At(base, interval, p), At(base, interval, p + 1),
              At(base, interval, n));
  }

  /** Spans that follow each other share no timestamp. */
  lemma InOneSpan(spans: seq<Span>, t: int, i: int, j: int)
    requires Apart(spans) && 0 <= i < |spans| && 0 <= j < |spans| && InSpan(spans[i], t) && InSpan(spans[j], t)
    ensures i == j
  {
  }

  /** One span holds the timestamp, and no other does. */
  predicate InExactlyOne(spans: seq<Span>, t: int) {
    exists i ::
      0 <= i < |spans| && InSpan(spans[i], t) && forall j :: 0 <= j < |spans| && InSpan(spans[j], t) ==> j == i
  }

  lemma CoveredOnce(spans: seq<Span>, t: int)
    requires Apart(spans)
    ensures InExactlyOne(spans, t) <==> Covered(spans, t)
  {
    if Covered(spans, t) {
      var i :| 0 <= i < |spans| && InSpan(spans[i], t);
      forall j | 0 <= j < |spans| && InSpan(spans[j], t)
        ensures j == i
      {
        InOneSpan(spans, t, i, j);
      }
    }
  }

  /** Gap detection and chunk planning together: for a series on the grid, the missing bars are exactly those that lie
      in exactly one request, no request holds any other bar, and no request is longer than the limit. */
  lemma PlanCoversMissing(times: seq<int>, g: seq<int>, base: int, interval: int, size: int)
    requires interval > 0 && size >= 1 && OnGrid(times, g, base, interval)
    ensures var plan := PlanOf(GapsOf(times, interval), interval, size);
            && (forall x :: InExactlyOne(plan, At(base, interval, x)) <==> Missing(g, x))
            && (forall x :: Covered(plan, At(base, interval, x)) ==> Missing(g, x))
            && GridSpans(plan, base, interval, size)
  {
    hide Missing, OnGrid, GridSpans, PlanOf, GapsOf, At;
    var plan := PlanOf(GapsOf(times, interval), interval, size);
    PlanCovers(times, g, base, interval, size);
    forall x
      ensures InExactlyOne(plan, At(base, interval, x)) <==> Missing(g, x)
    {
      CoveredOnce(plan, At(base, interval, x));
    }
  }
}
