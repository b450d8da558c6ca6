/**
 The series algorithms of the browser client (static/script.js): the
 hourly window, the grouping of an hourly series into calendar days and
 the per-day figures, the 12-hour clock label, and the condition text and
 icon chosen by temperature.

 Timestamps are integers (instants), comparable with "now"; the calendar
 day of a timestamp, which the client takes from `toDateString`, is given
 by a function `dayOf` from timestamp to day number.
 */
module Series {
  import opened Common

  /** The `hourly` object as the client reads it; an absent column is None. */
  datatype HourlyData = HourlyData(
    time: Option<seq<int>>,
    temperature: Option<seq<real>>,
    humidity: Option<seq<real>>,
    wind: Option<seq<real>>)

  /** `column[i]`: None where JavaScript reads `undefined` (no column, or an
      index past its end). */
  function Cell(column: Option<seq<real>>, i: int): Option<real>
  {
    if column.Some? && 0 <= i < |column.value| then Some(column.value[i]) else None
  }

  // ---------------------------------------------------------------------------
  // Hourly window (displayHourlyForecast)

  /** `start` is the first index whose time is at or after `now`, or 0 when
      every time is earlier. */
  predicate IsStartIndex(times: seq<int>, now: int, start: nat)
  {
    || (start < |times| && times[start] >= now && forall j :: 0 <= j < start ==> times[j] < now)
    || (start == 0 && forall j :: 0 <= j < |times| ==> times[j] < now)
  }

  /** The characterisation picks one index only. */
  lemma StartIndexUnique(times: seq<int>, now: int, s1: nat, s2: nat)
    requires IsStartIndex(times, now, s1) && IsStartIndex(times, now, s2)
    ensures s1 == s2
  {
  }

  /** The scan of lines 398-407, stopping at the first match. */
  method FindStartIndex(times: seq<int>, now: int) returns (start: nat)
    ensures IsStartIndex(times, now, start)
  {
    start := 0;
    for i := 0 to |times|
      invariant forall j :: 0 <= j < i ==> times[j] < now
    {
      if times[i] >= now {
        start := i;
        break;
      }
    }
  }

  /** One rendered hour; a missing temperature, humidity or wind shows 0. */
  datatype HourRow = HourRow(time: int, temperature: int, humidity: int, wind: real)

  /** `x || 0` on a sample: undefined becomes 0. */
  function OrZero(x: Option<real>): real
  {
    x.GetOr(0.0)
  }

  function HourAt(h: HourlyData, times: seq<int>, i: int): HourRow
    requires 0 <= i < |times|
  {
    HourRow(times[i],
            RoundHalfUp(OrZero(Cell(h.temperature, i))),
            RoundHalfUp(OrZero(Cell(h.humidity, i))),
            OrZero(Cell(h.wind, i)))
  }

  /** A column that is absent, or shorter than the time column, shows 0
      from where it runs out. */
  lemma HourAtMissingIsZero(h: HourlyData, times: seq<int>, i: int)
    requires 0 <= i < |times|
    ensures (h.temperature.None? || i >= |h.temperature.value|) ==> HourAt(h, times, i).temperature == 0
    ensures (h.humidity.None? || i >= |h.humidity.value|) ==> HourAt(h, times, i).humidity == 0
    ensures (h.wind.None? || i >= |h.wind.value|) ==> HourAt(h, times, i).wind == 0.0
    ensures h.temperature.Some? && i < |h.temperature.value| ==>
      HourAt(h, times, i).temperature == RoundHalfUp(h.temperature.value[i])
  {
  }

  /** Lines 391-414: the rows are those of the indices start, start + 1, ...
      up to but excluding min(start + 24, length of time). */
  method HourlyForecast(h: HourlyData, now: int) returns (start: nat, rows: seq<HourRow>)
    ensures IsStartIndex(h.time.GetOr([]), now, start)
    ensures |rows| == Min(start + 24, |h.time.GetOr([])|) - start
    ensures |rows| <= 24
    ensures forall k :: 0 <= k < |rows| ==>
      start + k < |h.time.GetOr([])| && rows[k] == HourAt(h, h.time.GetOr([]), start + k)
  {
    var times := h.time.GetOr([]);
    start := FindStartIndex(times, now);
    assert start <= |times|;
    rows := [];
    var i := start;
    while i < Min(start + 24, |times|)
      invariant start <= i <= Min(start + 24, |times|)
      invariant |rows| == i - start
      invariant forall k :: 0 <= k < |rows| ==> start + k < |times| && rows[k] == HourAt(h, times, start + k)
      decreases Min(start + 24, |times|) - i
    {
      rows := rows + [HourAt(h, times, i)];
      i := i + 1;
    }
  }

  /** The rows of the indices start, start + 1, ... up to but excluding
      min(start + 24, length of time). */
  predicate WindowFrom(h: HourlyData, start: nat, rows: seq<HourRow>)
  {
    var times := h.time.GetOr([]);
    && |rows| == Min(start + 24, |times|) - start
    && forall k :: 0 <= k < |rows| ==> rows[k] == HourAt(h, times, start + k)
  }

  /** `rows` is the strip lines 391-414 draw at `now`. */
  ghost predicate IsHourlyWindow(h: HourlyData, now: int, rows: seq<HourRow>)
  {
    exists start: nat :: IsStartIndex(h.time.GetOr([]), now, start) && WindowFrom(h, start, rows)
  }

  /** The strip drawn at `now` is determined by the data, and has at most
      24 rows. */
  lemma HourlyWindowUnique(h: HourlyData, now: int, r1: seq<HourRow>, r2: seq<HourRow>)
    requires IsHourlyWindow(h, now, r1) && IsHourlyWindow(h, now, r2)
    ensures r1 == r2 && |r1| <= 24
  {
    var s1: nat :| IsStartIndex(h.time.GetOr([]), now, s1) && WindowFrom(h, s1, r1);
    var s2: nat :| IsStartIndex(h.time.GetOr([]), now, s2) && WindowFrom(h, s2, r2);
    StartIndexUnique(h.time.GetOr([]), now, s1, s2);
  }

  // ---------------------------------------------------------------------------
  // Grouping by calendar day (displayPastDays, displayHistoricalData)

  /** The samples of the indices whose day is `d`, in index order. */
  function Select<T>(days: seq<int>, samples: seq<T>, d: int): seq<T>
    requires |days| == |samples|
  {
    if days == [] then []
    else
      var n := |days| - 1;
      Select(days[..n], samples[..n], d) + (if days[n] == d then [samples[n]] else [])
  }

  /** The number of indices whose day is `d`. */
  function Count(days: seq<int>, d: int): nat
  {
    if days == [] then 0
    else Count(days[..|days| - 1], d) + (if days[|days| - 1] == d then 1 else 0)
  }

  lemma {:induction false} SelectLength<T>(days: seq<int>, samples: seq<T>, d: int)
    requires |days| == |samples|
    ensures |Select(days, samples, d)| == Count(days, d)
  {
    if days != [] {
      var n := |days| - 1;
      SelectLength(days[..n], samples[..n], d);
    }
  }

  lemma {:induction false} SelectAbsent<T>(days: seq<int>, samples: seq<T>, d: int)
    requires |days| == |samples| && d !in days
    ensures Select(days, samples, d) == []
  {
    if days != [] {
      var n := |days| - 1;
      assert forall x :: x in days[..n] ==> x in days;
      SelectAbsent(days[..n], samples[..n], d);
    }
  }

  /** A day that occurs has at least one sample: no group is empty. */
  lemma {:induction false} CountPresent(days: seq<int>, d: int)
    requires d in days
    ensures Count(days, d) > 0
  {
    var n := |days| - 1;
    if days[n] != d {
      assert d in days[..n] by {
        var i :| 0 <= i < |days| && days[i] == d;
        assert i < n && days[..n][i] == d;
      }
      CountPresent(days[..n], d);
    }
  }

  function Range(n: nat): (r: seq<nat>)
    ensures |r| == n && forall i :: 0 <= i < n ==> r[i] == i
  {
    seq(n, i requires 0 <= i < n => i)
  }

  /** Grouping indices instead of samples: index i lies in the group of day
      `d` exactly when its own day is `d`, so in exactly one group. */
  lemma {:induction false} IndexInOwnGroupOnly(days: seq<int>, d: int, i: int)
    requires 0 <= i < |days|
    ensures i in Select(days, Range(|days|), d) <==> days[i] == d
  {
    var n := |days| - 1;
    assert Range(|days|)[..n] == Range(n);
    var below := Select(days[..n], Range(n), d);
    var last: seq<nat> := if days[n] == d then [n] else [];
    assert Select(days, Range(|days|), d) == below + last;
    if i < n {
      IndexInOwnGroupOnly(days[..n], d, i);
      assert i !in last;
    } else {
      SelectBelow(days[..n], d, i);
      assert i !in below;
    }
  }

  lemma {:induction false} SelectBelow(days: seq<int>, d: int, i: int)
    requires i >= |days|
    ensures i !in Select(days, Range(|days|), d)
  {
    if days != [] {
      var n := |days| - 1;
      assert Range(|days|)[..n] == Range(n);
      SelectBelow(days[..n], d, i);
    }
  }

  /** The sum of the group sizes over a list of days. */
  function TotalCount(days: seq<int>, keys: seq<int>): nat
  {
    if keys == [] then 0 else Count(days, keys[0]) + TotalCount(days, keys[1..])
  }

  /** How often `x` occurs in `keys`. */
  function Occurrences(keys: seq<int>, x: int): nat
  {
    if keys == [] then 0 else (if keys[0] == x then 1 else 0) + Occurrences(keys[1..], x)
  }

  predicate Distinct(keys: seq<int>)
  {
    forall i, j :: 0 <= i < j < |keys| ==> keys[i] != keys[j]
  }

  lemma {:induction false} OccursOnce(keys: seq<int>, x: int)
    requires Distinct(keys) && x in keys
    ensures Occurrences(keys, x) == 1
  {
    if keys[0] == x {
      OccursNever(keys[1..], x);
    } else {
      OccursOnce(keys[1..], x);
    }
  }

  lemma {:induction false} OccursNever(keys: seq<int>, x: int)
    requires x !in keys
    ensures Occurrences(keys, x) == 0
  {
    if keys != [] {
      OccursNever(keys[1..], x);
    }
  }

  lemma {:induction false} TotalCountSnoc(days: seq<int>, x: int, keys: seq<int>)
    ensures TotalCount(days + [x], keys) == TotalCount(days, keys) + Occurrences(keys, x)
  {
    if keys != [] {
      assert (days + [x])[..|days|] == days;
      TotalCountSnoc(days, x, keys[1..]);
    }
  }

  /** The groups partition the indices: over distinct days that cover every
      index's day, the group sizes add up to the number of timestamps. */
  lemma {:induction false} GroupsPartition(days: seq<int>, keys: seq<int>)
    requires Distinct(keys)
    requires forall x :: x in days ==> x in keys
    ensures TotalCount(days, keys) == |days|
  {
    if days == [] {
      ZeroCounts(keys);
    } else {
      var n := |days| - 1;
      var pre := days[..n];
      assert days == pre + [days[n]];
      assert forall x :: x in pre ==> x in days;
      GroupsPartition(pre, keys);
      TotalCountSnoc(pre, days[n], keys);
      OccursOnce(keys, days[n]);
    }
  }

  lemma {:induction false} ZeroCounts(keys: seq<int>)
    ensures TotalCount([], keys) == 0
  {
    if keys != [] {
      ZeroCounts(keys[1..]);
    }
  }

  /** The distinct days of `days`, each where it first occurs: a day is
      appended when it is met and was not met before. */
  function FirstSeen(days: seq<int>): seq<int>
  {
    if days == [] then []
    else
      var n := |days| - 1;
      FirstSeen(days[..n]) + (if days[n] in days[..n] then [] else [days[n]])
  }

  /** The first-seen days are distinct, and they are exactly the days. */
  lemma {:induction false} FirstSeenDistinct(days: seq<int>)
    ensures Distinct(FirstSeen(days))
    ensures forall d :: d in FirstSeen(days) <==> d in days
  {
    if days != [] {
      var n := |days| - 1;
      var pre := days[..n];
      FirstSeenDistinct(pre);
      assert days == pre + [days[n]];
    }
  }

  lemma FirstSeenStep(days: seq<int>, i: int)
    requires 0 <= i < |days|
    ensures FirstSeen(days[..i + 1]) == FirstSeen(days[..i]) + (if days[i] in days[..i] then [] else [days[i]])
  {
    assert days[..i + 1][..i] == days[..i];
  }

  /** The loop of lines 443-459 (and 627-640): a JavaScript `Map` keeps its
      keys in first-insertion order, kept here as `order`; each sample is
      pushed onto the list of its day. */
  method GroupByDay<T>(days: seq<int>, samples: seq<T>) returns (order: seq<int>, groups: map<int, seq<T>>)
    requires |days| == |samples|
    ensures order == FirstSeen(days)
    ensures Distinct(order)
    ensures forall d :: d in order <==> d in days
    ensures groups.Keys == set d | d in days
    ensures forall d :: d in groups ==> groups[d] == Select(days, samples, d)
  {
    order := [];
    groups := map[];
    for i := 0 to |days|
      invariant order == FirstSeen(days[..i])
      invariant groups.Keys == set d | d in days[..i]
      invariant forall d :: d in groups ==> groups[d] == Select(days[..i], samples[..i], d)
    {
      var d := days[i];
      assert days[..i + 1][..i] == days[..i] && samples[..i + 1][..i] == samples[..i];
      assert days[..i + 1] == days[..i] + [d];
      FirstSeenStep(days, i);
      if d !in groups {
        SelectAbsent(days[..i], samples[..i], d);
        order := order + [d];
        groups := groups[d := []];
      }
      groups := groups[d := groups[d] + [samples[i]]];
    }
    assert days[..|days|] == days && samples[..|samples|] == samples;
    FirstSeenDistinct(days);
  }

  // ---------------------------------------------------------------------------
  // Sorting the days (Array.prototype.sort with a date comparator)

  function Insert(x: int, xs: seq<int>): (r: seq<int>)
    ensures multiset(r) == multiset(xs) + multiset{x}
  {
    if xs == [] then [x]
    else if x <= xs[0] then [x] + xs
    else
      assert xs == [xs[0]] + xs[1..];
      [xs[0]] + Insert(x, xs[1..])
  }

  lemma {:induction false} InsertAscending(x: int, xs: seq<int>)
    requires Ascending(xs)
    ensures Ascending(Insert(x, xs))
  {
    if xs != [] && x > xs[0] {
      InsertAscending(x, xs[1..]);
      InsertAbove(x, xs[1..], xs[0]);
      ConsAscending(xs[0], Insert(x, xs[1..]));
    } else if xs != [] {
      ConsAscending(x, xs);
    }
  }

  /** Inserting a value at least `lo` among values at least `lo` keeps
      every value at least `lo`. */
  lemma {:induction false} InsertAbove(x: int, xs: seq<int>, lo: int)
    requires lo <= x && forall k :: 0 <= k < |xs| ==> lo <= xs[k]
    ensures forall k :: 0 <= k < |Insert(x, xs)| ==> lo <= Insert(x, xs)[k]
  {
    if xs != [] && x > xs[0] {
      InsertAbove(x, xs[1..], lo);
    }
  }

  lemma ConsAscending(a: int, rest: seq<int>)
    requires Ascending(rest) && forall k :: 0 <= k < |rest| ==> a <= rest[k]
    ensures Ascending([a] + rest)
  {
    var r := [a] + rest;
    forall i, j | 0 <= i < j < |r| ensures r[i] <= r[j] {
      assert r[j] == rest[j - 1];
      if i > 0 {
        assert r[i] == rest[i - 1];
      }
    }
  }

  predicate Ascending(xs: seq<int>)
  {
    forall i, j :: 0 <= i < j < |xs| ==> xs[i] <= xs[j]
  }

  /** The days in ascending order. */
  function SortDays(xs: seq<int>): (r: seq<int>)
    ensures Ascending(r) && multiset(r) == multiset(xs)
  {
    if xs == [] then []
    else
      assert xs == [xs[0]] + xs[1..];
      var rest := SortDays(xs[1..]);
      InsertAscending(xs[0], rest);
      Insert(xs[0], rest)
  }

  /** Sorting distinct days gives strictly increasing days, the same ones. */
  lemma SortDistinct(xs: seq<int>)
    requires Distinct(xs)
    ensures var r := SortDays(xs);
      |r| == |xs| && Distinct(r) && (forall d :: d in r <==> d in xs) &&
      forall i, j :: 0 <= i < j < |r| ==> r[i] < r[j]
  {
    var r := SortDays(xs);
    assert |r| == |multiset(r)| == |multiset(xs)| == |xs|;
    forall d ensures d in r <==> d in xs {
      assert d in r <==> d in multiset(r);
      assert d in xs <==> d in multiset(xs);
    }
    forall i, j | 0 <= i < j < |r| ensures r[i] < r[j] {
      DistinctMultiplicity(xs, r[i]);
      TwoPositions(r, i, j);
    }
  }

  lemma {:induction false} DistinctMultiplicity(xs: seq<int>, x: int)
    requires Distinct(xs)
    ensures multiset(xs)[x] <= 1
  {
    if xs != [] {
      assert xs == [xs[0]] + xs[1..];
      assert x == xs[0] ==> x !in xs[1..];
      DistinctMultiplicity(xs[1..], x);
    }
  }

  /** A value at two positions occurs at least twice. */
  lemma TwoPositions(r: seq<int>, i: int, j: int)
    requires 0 <= i < j < |r|
    ensures r[i] == r[j] ==> multiset(r)[r[i]] >= 2
  {
    assert r == r[..i] + [r[i]] + r[i + 1..j] + [r[j]] + r[j + 1..];
  }

  // ---------------------------------------------------------------------------
  // Per-day figures

  /** `reduce((a, b) => a + b, 0)`. */
  function Sum(xs: seq<real>): real
  {
    if xs == [] then 0.0 else Sum(xs[..|xs| - 1]) + xs[|xs| - 1]
  }

  function Smallest(xs: seq<real>): real
    requires |xs| > 0
  {
    if |xs| == 1 then xs[0]
    else
      var m := Smallest(xs[..|xs| - 1]);
      if xs[|xs| - 1] < m then xs[|xs| - 1] else m
  }

  function Largest(xs: seq<real>): real
    requires |xs| > 0
  {
    if |xs| == 1 then xs[0]
    else
      var m := Largest(xs[..|xs| - 1]);
      if xs[|xs| - 1] > m then xs[|xs| - 1] else m
  }

  lemma {:induction false} SmallestIsLeast(xs: seq<real>, i: int)
    requires 0 <= i < |xs|
    ensures Smallest(xs) <= xs[i]
  {
    if |xs| > 1 && i < |xs| - 1 {
      SmallestIsLeast(xs[..|xs| - 1], i);
    }
  }

  lemma {:induction false} LargestIsGreatest(xs: seq<real>, i: int)
    requires 0 <= i < |xs|
    ensures xs[i] <= Largest(xs)
  {
    if |xs| > 1 && i < |xs| - 1 {
      LargestIsGreatest(xs[..|xs| - 1], i);
    }
  }

  /** n * min <= sum <= n * max, by induction on the samples. */
  lemma {:induction false} SumBounds(xs: seq<real>, lo: real, hi: real)
    requires forall i :: 0 <= i < |xs| ==> lo <= xs[i] <= hi
    ensures |xs| as real * lo <= Sum(xs) <= |xs| as real * hi
  {
    if xs != [] {
      var n := |xs| - 1;
      SumBounds(xs[..n], lo, hi);
      assert lo <= xs[n] <= hi;
    }
  }

  function Mean(xs: seq<real>): real
    requires |xs| > 0
  {
    Sum(xs) / |xs| as real
  }

  /** The average lies between the smallest and the largest sample, because
      it divides by the group's own count. */
  lemma MeanBetween(xs: seq<real>)
    requires |xs| > 0
    ensures Smallest(xs) <= Mean(xs) <= Largest(xs)
  {
    forall i | 0 <= i < |xs| ensures Smallest(xs) <= xs[i] <= Largest(xs) {
      SmallestIsLeast(xs, i);
      LargestIsGreatest(xs, i);
    }
    SumBounds(xs, Smallest(xs), Largest(xs));
    DivideBounds(|xs| as real, Smallest(xs), Sum(xs), Largest(xs));
  }

  lemma DivideBounds(n: real, lo: real, s: real, hi: real)
    requires n > 0.0 && n * lo <= s <= n * hi
    ensures lo <= s / n <= hi
  {
    assert s / n * n == s;
  }

  predicate AllPresent(vals: seq<Option<real>>)
  {
    forall i :: 0 <= i < |vals| ==> vals[i].Some?
  }

  function Values(vals: seq<Option<real>>): (xs: seq<real>)
    requires AllPresent(vals)
    ensures |xs| == |vals| && forall i :: 0 <= i < |vals| ==> xs[i] == vals[i].value
  {
    seq(|vals|, i requires 0 <= i < |vals| => vals[i].value)
  }

  /** The figures of one day's temperatures; None stands for NaN, which a
      single undefined sample makes of all three. */
  datatype TempFigures = TempFigures(average: Option<int>, minimum: Option<int>, maximum: Option<int>)

  function Figures(vals: seq<Option<real>>): TempFigures
    requires |vals| > 0
  {
    if AllPresent(vals) then
      var xs := Values(vals);
      TempFigures(Some(RoundHalfUp(Mean(xs))), Some(RoundHalfUp(Smallest(xs))), Some(RoundHalfUp(Largest(xs))))
    else
      TempFigures(None, None, None)
  }

  /** Rounded minimum <= rounded average <= rounded maximum. */
  lemma FiguresOrdered(vals: seq<Option<real>>)
    requires |vals| > 0
    ensures var f := Figures(vals);
      (f.average.Some? <==> AllPresent(vals)) &&
      (f.average.Some? ==>
        (f.minimum.Some? && f.maximum.Some? && f.minimum.value <= f.average.value <= f.maximum.value))
  {
    if AllPresent(vals) {
      var xs := Values(vals);
      MeanBetween(xs);
      RoundHalfUpMonotone(Smallest(xs), Mean(xs));
      RoundHalfUpMonotone(Mean(xs), Largest(xs));
    }
  }

  /** The average of humidity or wind; None for NaN. */
  function MeanOf(vals: seq<Option<real>>): Option<real>
    requires |vals| > 0
  {
    if AllPresent(vals) then Some(Mean(Values(vals))) else None
  }

  // ---------------------------------------------------------------------------
  // displayPastDays

  /** What one hour contributes to its day (lines 456-458). */
  datatype Sample = Sample(temperature: Option<real>, humidity: Option<real>, wind: Option<real>)

  function DaysOf(times: seq<int>, dayOf: int -> int): (days: seq<int>)
    ensures |days| == |times| && forall i :: 0 <= i < |times| ==> days[i] == dayOf(times[i])
  {
    seq(|times|, i requires 0 <= i < |times| => dayOf(times[i]))
  }

  function SamplesOf(h: HourlyData): (s: seq<Sample>)
    ensures |s| == |h.time.GetOr([])|
  {
    var n := |h.time.GetOr([])|;
    seq(n, i requires 0 <= i < n => Sample(Cell(h.temperature, i), Cell(h.humidity, i), Cell(h.wind, i)))
  }

  function Temperatures(samples: seq<Sample>): (r: seq<Option<real>>)
    ensures |r| == |samples|
  {
    seq(|samples|, i requires 0 <= i < |samples| => samples[i].temperature)
  }

  function Humidities(samples: seq<Sample>): (r: seq<Option<real>>)
    ensures |r| == |samples|
  {
    seq(|samples|, i requires 0 <= i < |samples| => samples[i].humidity)
  }

  function Winds(samples: seq<Sample>): (r: seq<Option<real>>)
    ensures |r| == |samples|
  {
    seq(|samples|, i requires 0 <= i < |samples| => samples[i].wind)
  }

  /** One rendered past day (lines 467-472). */
  datatype DaySummary = DaySummary(day: int, temperature: TempFigures, humidity: Option<int>, wind: Option<real>)

  function Summarize(day: int, group: seq<Sample>): DaySummary
    requires |group| > 0
  {
    var hum := MeanOf(Humidities(group));
    DaySummary(day, Figures(Temperatures(group)),
               if hum.Some? then Some(RoundHalfUp(hum.value)) else None,
               MeanOf(Winds(group)))
  }

  /** Lines 433-488: one summary per distinct day of the time column, in
      ascending day order, each made from that day's samples only. */
  method PastDays(h: HourlyData, dayOf: int -> int) returns (rows: seq<DaySummary>)
    ensures IsPastDaysView(h, dayOf, rows)
  {
    var days := DaysOf(h.time.GetOr([]), dayOf);
    var samples := SamplesOf(h);
    var order, groups := GroupByDay(days, samples);
    var sorted := SortDays(order);
    SortDistinct(order);
    rows := [];
    for k := 0 to |sorted|
      invariant |rows| == k
      invariant forall j :: 0 <= j < k ==>
        var group := Select(days, samples, sorted[j]);
        rows[j].day == sorted[j] && |group| > 0 && rows[j] == Summarize(sorted[j], group)
    {
      var d := sorted[k];
      CountPresent(days, d);
      SelectLength(days, samples, d);
      rows := rows + [Summarize(d, groups[d])];
    }
    assert RowDays(rows) == sorted;
  }

  /** One summary per distinct day of the time column, in ascending day
      order, each made from that day's samples only. */
  ghost predicate IsPastDaysView(h: HourlyData, dayOf: int -> int, rows: seq<DaySummary>)
  {
    var days := DaysOf(h.time.GetOr([]), dayOf);
    && (forall d :: d in RowDays(rows) <==> d in days)
    && (forall k, l :: 0 <= k < l < |rows| ==> rows[k].day < rows[l].day)
    && (forall k :: 0 <= k < |rows| ==>
          var group := Select(days, SamplesOf(h), rows[k].day);
          |group| > 0 && rows[k] == Summarize(rows[k].day, group))
  }

  /** Every day's summary comes from a group of Count(days, d) samples, and
      these counts add up to the length of the time column. */
  lemma PastDaysPartition(h: HourlyData, dayOf: int -> int, rows: seq<DaySummary>)
    requires forall d :: d in RowDays(rows) <==> d in DaysOf(h.time.GetOr([]), dayOf)
    requires forall k, l :: 0 <= k < l < |rows| ==> rows[k].day < rows[l].day
    ensures TotalCount(DaysOf(h.time.GetOr([]), dayOf), RowDays(rows)) == |h.time.GetOr([])|
  {
    GroupsPartition(DaysOf(h.time.GetOr([]), dayOf), RowDays(rows));
  }

  /** The day of each past-days summary row. `DayNumbers` is the same
      projection for the historical table's rows, a different datatype. */
  function RowDays(rows: seq<DaySummary>): (r: seq<int>)
    ensures |r| == |rows| && forall k :: 0 <= k < |rows| ==> r[k] == rows[k].day
  {
    seq(|rows|, k requires 0 <= k < |rows| => rows[k].day)
  }

  // ---------------------------------------------------------------------------
  // displayHistoricalData

  /** One rendered historical day (lines 653-655). */
  datatype HistoricalDay = HistoricalDay(day: int, temperature: TempFigures)

  /** The three outcomes of lines 614-670. */
  datatype HistoricalView =
    | NoHistoricalData   // "No historical data available for the selected date range."
    | NoDataForRange     // "No data available for the selected date range."
    | Days(days: seq<HistoricalDay>)

  function TemperatureCells(h: HourlyData): (r: seq<Option<real>>)
    ensures |r| == |h.time.GetOr([])|
  {
    Temperatures(SamplesOf(h))
  }

  /** Lines 625-670: one row per distinct day, ascending, each with the
      figures of that day's temperatures only. */
  method HistoricalRows(h: HourlyData, dayOf: int -> int) returns (rows: seq<HistoricalDay>)
    ensures |rows| == 0 <==> |h.time.GetOr([])| == 0
    ensures var days := DaysOf(h.time.GetOr([]), dayOf);
      && (forall d :: d in DayNumbers(rows) <==> d in days)
      && (forall k, l :: 0 <= k < l < |rows| ==> rows[k].day < rows[l].day)
      && (forall k :: 0 <= k < |rows| ==>
            var group := Select(days, TemperatureCells(h), rows[k].day);
            |group| > 0 && rows[k].temperature == Figures(group))
  {
    var days := DaysOf(h.time.GetOr([]), dayOf);
    var temps := TemperatureCells(h);
    var order, groups := GroupByDay(days, temps);
    var sorted := SortDays(order);
    SortDistinct(order);
    NoDaysNoGroups(days, order);
    rows := FiguresPerDay(days, temps, sorted, groups);
  }

  /** Lines 652-670: the figures of each day of `sorted`, in that order. */
  method FiguresPerDay(days: seq<int>, temps: seq<Option<real>>, sorted: seq<int>, groups: map<int, seq<Option<real>>>)
      returns (rows: seq<HistoricalDay>)
    requires |days| == |temps|
    requires forall d :: d in sorted ==> d in days && d in groups && groups[d] == Select(days, temps, d)
    ensures DayNumbers(rows) == sorted
    ensures forall k :: 0 <= k < |rows| ==>
      var group := Select(days, temps, rows[k].day);
      |group| > 0 && rows[k].temperature == Figures(group)
  {
    rows := [];
    for k := 0 to |sorted|
      invariant |rows| == k
      invariant forall j :: 0 <= j < k ==>
        var group := Select(days, temps, sorted[j]);
        rows[j].day == sorted[j] && |group| > 0 && rows[j].temperature == Figures(group)
    {
      var d := sorted[k];
      CountPresent(days, d);
      SelectLength(days, temps, d);
      rows := rows + [HistoricalDay(d, Figures(groups[d]))];
    }
    assert DayNumbers(rows) == sorted;
  }

  /** There is a group exactly when there is a timestamp. */
  lemma NoDaysNoGroups(days: seq<int>, order: seq<int>)
    requires forall d :: d in order <==> d in days
    ensures |order| == 0 <==> |days| == 0
  {
    if |days| > 0 {
      var d := days[0];
      assert d in days;
      assert d in order;
    }
    if |order| > 0 {
      var d := order[0];
      assert d in order;
      assert d in days;
    }
  }

  /** `hourly` is the answer's `hourly` object, None when the answer has
      none: a placeholder without rows when `time` or `temperature_2m` is
      absent, another one when there is no day, the day rows otherwise. */
  method DisplayHistorical(hourly: Option<HourlyData>, dayOf: int -> int) returns (view: HistoricalView)
    ensures IsHistoricalView(hourly, dayOf, view)
  {
    if hourly.None? || hourly.value.time.None? || hourly.value.temperature.None? {
      return NoHistoricalData;
    }
    var rows := HistoricalRows(hourly.value, dayOf);
    if |rows| == 0 {
      return NoDataForRange;
    }
    view := Days(rows);
  }

  /** What lines 614-670 draw for the answer's `hourly` object. */
  ghost predicate IsHistoricalView(hourly: Option<HourlyData>, dayOf: int -> int, view: HistoricalView)
  {
    && ((hourly.None? || hourly.value.time.None? || hourly.value.temperature.None?) <==> view == NoHistoricalData)
    && (view == NoDataForRange <==> hourly.Some? && hourly.value.time == Some([]) && hourly.value.temperature.Some?)
    && (view.Days? ==>
          && hourly.Some? && hourly.value.time.Some?
          && var h := hourly.value;
          var days := DaysOf(h.time.value, dayOf);
          && |view.days| > 0
          && (forall d :: d in DayNumbers(view.days) <==> d in days)
          && (forall k, l :: 0 <= k < l < |view.days| ==> view.days[k].day < view.days[l].day)
          && (forall k :: 0 <= k < |view.days| ==>
                var group := Select(days, TemperatureCells(h), view.days[k].day);
                |group| > 0 && view.days[k].temperature == Figures(group)))
  }

  /** The day of each historical table row. `RowDays` is the same projection
      for the past-days summaries, a different datatype. */
  function DayNumbers(rows: seq<HistoricalDay>): (r: seq<int>)
    ensures |r| == |rows| && forall k :: 0 <= k < |rows| ==> r[k] == rows[k].day
  {
    seq(|rows|, k requires 0 <= k < |rows| => rows[k].day)
  }

  // ---------------------------------------------------------------------------
  // formatTime

  function DigitChar(d: int): char
    requires 0 <= d < 10
  {
    "0123456789"[d]
  }

  function DigitValue(c: char): int
  {
    c as int - '0' as int
  }

  /** `n.toString()` for 1 <= n <= 12. */
  function HourText(n: int): string
    requires 1 <= n <= 12
  {
    if n < 10 then [DigitChar(n)] else [DigitChar(n / 10), DigitChar(n % 10)]
  }

  /** `m.toString().padStart(2, '0')` for 0 <= m < 60. */
  function TwoDigits(m: int): string
    requires 0 <= m < 60
  {
    [DigitChar(m / 10), DigitChar(m % 10)]
  }

  /** Lines 492-498: "h:mm AM" on the 12-hour clock; hour 0 shows as 12. */
  function FormatTime(hours: int, minutes: int): string
    requires 0 <= hours < 24 && 0 <= minutes < 60
  {
    var shown := if hours % 12 == 0 then 12 else hours % 12;
    HourText(shown) + ":" + TwoDigits(minutes) + " " + (if hours >= 12 then "PM" else "AM")
  }

  /** Reads a label back into the hour of the day and the minutes. */
  function ParseTime(s: string): Option<(int, int)>
  {
    var colon := if |s| > 1 && s[1] == ':' then 1 else 2;
    if |s| != colon + 6 || s[colon] != ':' || s[colon + 3] != ' ' || s[colon + 5] != 'M' then None
    else
      var shown := if colon == 1 then DigitValue(s[0]) else 10 * DigitValue(s[0]) + DigitValue(s[1]);
      var minutes := 10 * DigitValue(s[colon + 1]) + DigitValue(s[colon + 2]);
      var base := if shown == 12 then 0 else shown;
      if s[colon + 4] == 'P' then Some((base + 12, minutes))
      else if s[colon + 4] == 'A' then Some((base, minutes))
      else None
  }

  /** The label loses nothing: the hour of the day and the minutes can be
      read back from it, so distinct times get distinct labels. */
  lemma FormatTimeRoundTrip(hours: int, minutes: int)
    requires 0 <= hours < 24 && 0 <= minutes < 60
    ensures ParseTime(FormatTime(hours, minutes)) == Some((hours, minutes))
  {
    var shown := if hours % 12 == 0 then 12 else hours % 12;
    var suffix := if hours >= 12 then "PM" else "AM";
    assert FormatTime(hours, minutes) == HourText(shown) + ":" + TwoDigits(minutes) + " " + suffix;
    if shown < 10 {
      ParseOneDigitHour(shown, minutes, suffix);
    } else {
      ParseTwoDigitHour(shown, minutes, suffix);
    }
  }

  /** The label of an hour shown with one digit, read back. */
  lemma ParseOneDigitHour(shown: int, minutes: int, suffix: string)
    requires 1 <= shown < 10 && 0 <= minutes < 60 && suffix in {"AM", "PM"}
    ensures ParseTime(HourText(shown) + ":" + TwoDigits(minutes) + " " + suffix) ==
      Some((if suffix == "PM" then shown + 12 else shown, minutes))
  {
    var s := HourText(shown) + ":" + TwoDigits(minutes) + " " + suffix;
    assert s == [DigitChar(shown), ':', DigitChar(minutes / 10), DigitChar(minutes % 10), ' ', suffix[0], 'M'];
    DigitRoundTrip(shown);
    DigitRoundTrip(minutes / 10);
    DigitRoundTrip(minutes % 10);
  }

  /** The label of an hour shown with two digits (10, 11 or 12), read back;
      12 stands for hour 0 or hour 12. */
  lemma ParseTwoDigitHour(shown: int, minutes: int, suffix: string)
    requires 10 <= shown <= 12 && 0 <= minutes < 60 && suffix in {"AM", "PM"}
    ensures ParseTime(HourText(shown) + ":" + TwoDigits(minutes) + " " + suffix) ==
      Some(((if shown == 12 then 0 else shown) + (if suffix == "PM" then 12 else 0), minutes))
  {
    var s := HourText(shown) + ":" + TwoDigits(minutes) + " " + suffix;
    assert s == [DigitChar(shown / 10), DigitChar(shown % 10), ':', DigitChar(minutes / 10), DigitChar(minutes % 10), ' ', suffix[0], 'M'];
    DigitRoundTrip(shown / 10);
    DigitRoundTrip(shown % 10);
    DigitRoundTrip(minutes / 10);
    DigitRoundTrip(minutes % 10);
  }

  lemma DigitRoundTrip(d: int)
    requires 0 <= d < 10
    ensures DigitValue(DigitChar(d)) == d && DigitChar(d) != ':'
  {
  }

  // ---------------------------------------------------------------------------
  // getWeatherCondition and getWeatherIcon

  datatype Condition = Clear | PartlyCloudy | Cloudy | Snow

  function ConditionText(c: Condition): string
  {
    match c
    case Clear => "Clear"
    case PartlyCloudy => "Partly Cloudy"
    case Cloudy => "Cloudy"
    case Snow => "Snow"
  }

  /** Lines 528-534, the two "Clear" bands kept apart as in the source. */
  function WeatherCondition(temp: int): Condition
  {
    if temp >= 30 then Clear
    else if temp >= 20 then Clear
    else if temp >= 10 then PartlyCloudy
    else if temp >= 0 then Cloudy
    else Snow
  }

  /** How warm a condition is: Snow < Cloudy < Partly Cloudy < Clear. */
  function Warmth(c: Condition): int
  {
    match c
    case Snow => 0
    case Cloudy => 1
    case PartlyCloudy => 2
    case Clear => 3
  }

  /** A warmer temperature never gives a colder condition. */
  lemma ConditionMonotone(t1: int, t2: int)
    requires t1 <= t2
    ensures Warmth(WeatherCondition(t1)) <= Warmth(WeatherCondition(t2))
  {
  }

  datatype Icon = Sun | Moon | MoonStars | Cloud | CloudSnow | Snowflake

  function IconClass(i: Icon): string
  {
    match i
    case Sun => "ti-sun"
    case Moon => "ti-moon"
    case MoonStars => "ti-moon-stars"
    case Cloud => "ti-cloud"
    case CloudSnow => "ti-cloud-snow"
    case Snowflake => "ti-snowflake"
  }

  predicate IsNight(hour: int)
  {
    hour >= 18 || hour < 6
  }

  /** Lines 516-525; `hour` is the local hour `new Date().getHours()`. */
  function WeatherIcon(temp: int, hour: int): Icon
    requires 0 <= hour < 24
  {
    var night := IsNight(hour);
    if temp >= 30 then (if night then Moon else Sun)
    else if temp >= 20 then (if night then Moon else Sun)
    else if temp >= 10 then (if night then MoonStars else Cloud)
    else if temp >= 0 then (if night then MoonStars else CloudSnow)
    else Snowflake
  }

  /** The icon follows the condition text: by day one icon per condition,
      at night the moon for Clear and the starry moon for both cloudy
      conditions; Snow is a snowflake at any hour. */
  lemma IconFollowsCondition(temp: int, hour: int)
    requires 0 <= hour < 24
    ensures var c := WeatherCondition(temp); var i := WeatherIcon(temp, hour);
      && (c == Snow <==> i == Snowflake)
      && (!IsNight(hour) ==> (c == Clear <==> i == Sun) && (c == PartlyCloudy <==> i == Cloud) && (c == Cloudy <==> i == CloudSnow))
      && (IsNight(hour) ==> (c == Clear <==> i == Moon) && (c in {PartlyCloudy, Cloudy} <==> i == MoonStars))
  {
  }
}
