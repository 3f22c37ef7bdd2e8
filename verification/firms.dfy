/** The FIRMS downloader: the year 2020 is cut into windows of at most ten
    days, and each window is fetched and saved on its own. Dates are day
    numbers (proleptic Gregorian ordinals, as Python's `date.toordinal`);
    the HTTP fetch and the CSV write are one oracle per window. */
module Firms {
  import opened Wrappers
  import opened Text

  const Source: string := "MODIS_SP"
  const WindowDays: nat := 10

  /** `date(2020, 1, 1)` and `date(2020, 12, 31)` as day numbers; 2020 is a
      leap year, so they are 365 days apart. */
  const Start2020: int := 737425
  const End2020: int := 737790

  /** `window_starts`: start, start + step, start + 2·step, … while not past
      the end. */
  function WindowStarts(start: int, end: int, step: nat): (r: seq<int>)
    requires step > 0
    ensures forall i :: 0 <= i < |r| ==> r[i] == start + i * step && r[i] <= end
    ensures start > end ==> r == []
    ensures start <= end ==> |r| > 0 && end < r[|r| - 1] + step
    decreases if start > end then 0 else end - start + 1
  {
    if start > end then []
    else
      var rest := WindowStarts(start + step, end, step);
      var r := [start] + rest;
      forall i | 1 <= i < |r|
        ensures r[i] == start + i * step
      {
        assert r[i] == rest[i - 1];
        ShiftedMultiple(i, step);
      }
      r
  }

  lemma ShiftedMultiple(i: int, step: int)
    ensures step + (i - 1) * step == i * step
  {
  }

  lemma MulAtLeast(a: int, d: int)
    requires d > 0 && a >= 1
    ensures a * d >= d
  {
    var k := a - 1;
    assert a * d == k * d + d;
    assert k * d >= 0;
  }

  /** Euclidean division is determined by quotient and remainder. */
  lemma DivUnique(x: int, d: int, q: int, r: int)
    requires d > 0 && 0 <= r < d && x == q * d + r
    ensures x / d == q
  {
    var q0, r0 := x / d, x % d;
    assert x == q0 * d + r0 && 0 <= r0 < d;
    if q0 > q {
      MulAtLeast(q0 - q, d);
    } else if q0 < q {
      MulAtLeast(q - q0, d);
    }
  }

  /** Removing one step removes one from the quotient. */
  lemma DivMinusStep(x: int, step: int)
    requires step > 0 && x >= step
    ensures (x - step) / step == x / step - 1
  {
    var q, r := x / step, x % step;
    assert x == q * step + r && 0 <= r < step;
    assert x - step == (q - 1) * step + r;
    DivUnique(x - step, step, q - 1, r);
  }

  /** The generator yields `(end - start) / step + 1` dates. */
  lemma {:induction false} WindowCount(start: int, end: int, step: nat)
    requires step > 0 && start <= end
    ensures |WindowStarts(start, end, step)| == (end - start) / step + 1
    decreases end - start + 1
  {
    if start + step <= end {
      WindowCount(start + step, end, step);
      DivMinusStep(end - start, step);
    } else {
      assert 0 <= end - start < step;
    }
  }

  /** `min(WINDOW_DAYS, max(1, remaining))` with `remaining = end - d + 1`. */
  function DaysFor(d: int, end: int): (days: int)
    ensures 1 <= days <= WindowDays
    ensures d <= end && end - d + 1 <= WindowDays ==> days == end - d + 1
    ensures end - d + 1 >= WindowDays ==> days == WindowDays
  {
    var remaining := end - d + 1;
    var atLeastOne := if remaining > 1 then remaining else 1;
    if WindowDays < atLeastOne then WindowDays else atLeastOne
  }

  /** A request window: first day and number of days. */
  datatype Window = Window(first: int, days: int)

  function Windows(start: int, end: int): (r: seq<Window>)
    ensures var starts := WindowStarts(start, end, WindowDays);
            |r| == |starts| && forall i :: 0 <= i < |r| ==> r[i] == Window(starts[i], DaysFor(starts[i], end))
  {
    var starts := WindowStarts(start, end, WindowDays);
    seq(|starts|, i requires 0 <= i < |starts| => Window(starts[i], DaysFor(starts[i], end)))
  }

  /** The windows start on `start`, follow each other without gap or
      overlap, and the last one ends on `end`. */
  lemma WindowsTile(start: int, end: int)
    requires start <= end
    ensures var w := Windows(start, end);
            && |w| > 0
            && w[0].first == start
            && (forall i :: 0 <= i < |w| - 1 ==> w[i].first + w[i].days == w[i + 1].first)
            && w[|w| - 1].first + w[|w| - 1].days - 1 == end
  {
    var w := Windows(start, end);
    var starts := WindowStarts(start, end, WindowDays);
    forall i | 0 <= i < |w| - 1
      ensures w[i].first + w[i].days == w[i + 1].first
    {
      assert starts[i + 1] == starts[i] + WindowDays;
    }
  }

  /** Every day of `[start, end]` falls in exactly one window, the one with
      index `(day - start) / 10`, and no window reaches outside the range. */
  lemma WindowsCover(start: int, end: int, day: int)
    requires start <= day <= end
    ensures var w := Windows(start, end);
            var k := (day - start) / WindowDays;
            && 0 <= k < |w|
            && w[k].first <= day < w[k].first + w[k].days
            && (forall i :: 0 <= i < |w| && i != k ==> !(w[i].first <= day < w[i].first + w[i].days))
  {
    var w := Windows(start, end);
    var k := (day - start) / WindowDays;
    WindowCount(start, end, WindowDays);
    assert k * WindowDays <= day - start < k * WindowDays + WindowDays;
    assert k <= (end - start) / WindowDays;
    forall i | 0 <= i < |w| && i != k
      ensures !(w[i].first <= day < w[i].first + w[i].days)
    {
      if i < k {
        assert i * WindowDays + WindowDays <= k * WindowDays;
      } else {
        assert k * WindowDays + WindowDays <= i * WindowDays;
      }
    }
  }

  /** A 366-day year makes 37 requests; the last covers its final six
      days. */
  lemma LeapYearWindows(start: int, end: int)
    requires end - start == 365
    ensures |Windows(start, end)| == 37
    ensures Windows(start, end)[36] == Window(end - 5, 6)
  {
    WindowCount(start, end, WindowDays);
    DivUnique(end - start, WindowDays, 36, 5);
  }

  /** The 2020 run makes 37 requests; the last covers December 26 to 31. */
  lemma Windows2020()
    ensures |Windows(Start2020, End2020)| == 37
    ensures Windows(Start2020, End2020)[36] == Window(End2020 - 5, 6)
  {
    LeapYearWindows(Start2020, End2020);
  }

  /** `firms_CA_<SOURCE>_<start>.csv`, `date` being the start's
      `strftime("%Y-%m-%d")`. */
  function OutputName(date: string): (r: string)
    ensures |r| == |date| + 22
    ensures r[..9] == "firms_CA_" && r[|r| - 4..] == ".csv"
    ensures r[9..9 + |Source|] == Source
    ensures r[9 + |Source| + 1..|r| - 4] == date
  {
    "firms_CA_" + Source + "_" + date + ".csv"
  }

  /** Different dates never overwrite each other's file. */
  lemma OutputNameInjective(a: string, b: string)
    requires OutputName(a) == OutputName(b)
    ensures a == b
  {
    assert a == OutputName(a)[9 + |Source| + 1..|OutputName(a)| - 4];
  }

  /** One iteration of `main`: the request made, the file named, and whether
      the fetch and save succeeded. */
  datatype Attempt = Attempt(window: Window, outName: string, saved: bool)

  datatype FirmsRun = MissingKey | Ran(attempts: seq<Attempt>)

  /** One attempt per window, in order, each saving under the window's
      start date. */
  predicate AttemptedInOrder(attempts: seq<Attempt>, w: seq<Window>, format: int -> string, succeeds: Window -> bool) {
    && |attempts| == |w|
    && forall i :: 0 <= i < |w| ==>
         attempts[i] == Attempt(w[i], OutputName(format(w[i].first)), succeeds(w[i]))
  }

  /** The window loop of `main` over `[start, end]`: every window is
      attempted in order, a failure being reported and skipped over.
      `format` is `strftime("%Y-%m-%d")` and `succeeds` the outcome of
      `download_chunk` for a window. */
  method AttemptWindows(start: int, end: int, format: int -> string, succeeds: Window -> bool)
    returns (attempts: seq<Attempt>)
    ensures AttemptedInOrder(attempts, Windows(start, end), format, succeeds)
  {
    var starts := WindowStarts(start, end, WindowDays);
    ghost var w := Windows(start, end);
    attempts := [];
    var i := 0;
    while i < |starts|
      invariant 0 <= i <= |starts|
      invariant |attempts| == i
      invariant forall k :: 0 <= k < i ==> attempts[k] == Attempt(w[k], OutputName(format(w[k].first)), succeeds(w[k]))
    {
      var d := starts[i];
      var window := Window(d, DaysFor(d, end));
      attempts := attempts + [Attempt(window, OutputName(format(d)), succeeds(window))];
      i := i + 1;
    }
  }

  /** `main`: a missing key stops before any request; otherwise every window
      of 2020 is attempted. */
  method DownloadYear(apiKey: Option<string>, format: int -> string, succeeds: Window -> bool)
    returns (run: FirmsRun)
    ensures !Truthy(apiKey) <==> run.MissingKey?
    ensures run.Ran? ==> AttemptedInOrder(run.attempts, Windows(Start2020, End2020), format, succeeds)
  {
    if !Truthy(apiKey) {
      return MissingKey;
    }
    var attempts := AttemptWindows(Start2020, End2020, format, succeeds);
    return Ran(attempts);
  }
}
