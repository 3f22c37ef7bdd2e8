/** The NOAA downloader: one period is fetched page by page with a 1-based
    offset, 1000 rows at a time, and the pages are saved together as one
    file. The HTTP responses are an oracle sequence: the k-th element
    answers the k-th request. */
module Noaa {
  import opened Wrappers
  import opened Text
  import opened Seqs

  const PageSize: nat := 1000

  /** A result row, kept opaque. */
  datatype Row = Row(record: string)

  /** What one request produced: an HTTP error status, or a JSON body whose
      `results` list and `metadata.resultset.count` may each be absent. */
  datatype Response = HttpError | Json(results: Option<seq<Row>>, count: Option<int>)

  /** `download_chunk`'s outcome: an exception, the `(None, 0)` of an empty
      page, or a page of rows with the reported total. */
  datatype Chunk = Raised | NoResults | Page(rows: seq<Row>, total: int)

  /** `download_chunk`: an error status raises; absent or empty results give
      no page; otherwise the rows and the reported count, whose absence
      raises a lookup error. */
  function ClassifyChunk(resp: Response): (c: Chunk)
    ensures c == NoResults <==> resp.Json? && (resp.results.None? || |resp.results.value| == 0)
    ensures c.Page? <==> resp.Json? && resp.results.Some? && |resp.results.value| > 0 && resp.count.Some?
    ensures c.Page? ==> c.rows == resp.results.value && |c.rows| > 0 && c.total == resp.count.value
    ensures c == Raised <==> resp.HttpError? || (resp.results.Some? && |resp.results.value| > 0 && resp.count.None?)
  {
    match resp
    case HttpError => Raised
    case Json(results, count) =>
      if results.None? || |results.value| == 0 then NoResults
      else if count.None? then Raised
      else Page(results.value, count.value)
  }

  /** The offset of the k-th request. */
  function Offset(k: nat): int {
    1 + PageSize * k
  }

  /** A page that asks for another: it has rows and ends before the total. */
  predicate Continues(resp: Response, offset: int) {
    var c := ClassifyChunk(resp);
    c.Page? && offset + |c.rows| - 1 < c.total
  }

  /** How `download_full_period` ends: an exception, a normal stop (with the
      rows saved, if any), or more requests than the oracle answers. */
  datatype Period =
    | Aborted(offsets: seq<int>)
    | Finished(offsets: seq<int>, chunks: seq<seq<Row>>, saved: Option<seq<Row>>)
    | Unanswered(offsets: seq<int>)

  /** What `download_full_period` promises for a sequence of responses. The
      k-th request uses offset 1 + 1000·k; the loop goes on while each page
      ends before the reported total, stops on an empty page or after the
      page that reaches the total, and an exception ends it with nothing
      saved. The saved rows are the pages concatenated in request order, and
      a file is written iff there was at least one page. */
  predicate PeriodOf(responses: seq<Response>, out: Period) {
    && (forall k :: 0 <= k < |out.offsets| ==> out.offsets[k] == Offset(k))
    && (|out.offsets| <= |responses|)
    && (out.Unanswered? ==> |out.offsets| == |responses|)
    && (forall k :: 0 <= k < |out.offsets| - 1 ==> Continues(responses[k], Offset(k)))
    && (out.Unanswered? ==> forall k :: 0 <= k < |responses| ==> Continues(responses[k], Offset(k)))
    && (out.Aborted? ==>
          |out.offsets| > 0 && ClassifyChunk(responses[|out.offsets| - 1]) == Raised)
    && (out.Finished? ==> 0 < |out.offsets| && |out.chunks| <= |out.offsets|)
    && (out.Finished? ==>
          var n := |out.offsets|;
          var last := ClassifyChunk(responses[n - 1]);
          && (forall k :: 0 <= k < |out.chunks| ==>
                ClassifyChunk(responses[k]).Page? && out.chunks[k] == ClassifyChunk(responses[k]).rows
                && |out.chunks[k]| > 0)
          && ((last == NoResults && |out.chunks| == n - 1)
              || (last.Page? && Offset(n - 1) + |last.rows| - 1 >= last.total && |out.chunks| == n))
          && (out.saved.Some? <==> |out.chunks| > 0)
          && (out.saved.Some? ==> out.saved.value == Flatten(out.chunks))
          && (out.saved.Some? ==> |out.saved.value| == TotalLength(out.chunks)))
  }

  /** `download_full_period`. */
  method DownloadFullPeriod(responses: seq<Response>) returns (out: Period)
    ensures PeriodOf(responses, out)
  {
    var offsets: seq<int> := [];
    var chunks: seq<seq<Row>> := [];
    var offset := 1;
    var k := 0;
    while k < |responses|
      invariant 0 <= k <= |responses|
      invariant offset == Offset(k)
      invariant |offsets| == k && |chunks| == k
      invariant forall j :: 0 <= j < k ==> offsets[j] == Offset(j)
      invariant forall j :: 0 <= j < k ==> Continues(responses[j], Offset(j))
      invariant forall j :: 0 <= j < k ==>
                  ClassifyChunk(responses[j]).Page? && chunks[j] == ClassifyChunk(responses[j]).rows
                  && |chunks[j]| > 0
    {
      var c := ClassifyChunk(responses[k]);
      offsets := offsets + [offset];
      if c == Raised {
        return Aborted(offsets);
      }
      if c == NoResults {
        FlattenLength(chunks);
        var saved := if |chunks| > 0 then Some(Flatten(chunks)) else None;
        return Finished(offsets, chunks, saved);
      }
      chunks := chunks + [c.rows];
      if offset + |c.rows| - 1 >= c.total {
        FlattenLength(chunks);
        return Finished(offsets, chunks, Some(Flatten(chunks)));
      }
      offset := offset + PageSize;
      k := k + 1;
    }
    return Unanswered(offsets);
  }

  /** When some response does not ask for another page, the number of
      requests is one past the first such response. */
  lemma RequestCount(responses: seq<Response>, out: Period, k: nat)
    requires PeriodOf(responses, out)
    requires k < |responses| && !Continues(responses[k], Offset(k))
    requires forall j :: 0 <= j < k ==> Continues(responses[j], Offset(j))
    ensures |out.offsets| == k + 1
  {
  }

  /** The contract determines the outcome: two periods meeting it for the
      same responses are equal. */
  lemma PeriodDetermined(responses: seq<Response>, a: Period, b: Period)
    requires PeriodOf(responses, a) && PeriodOf(responses, b)
    ensures a == b
  {
    if exists k :: 0 <= k < |responses| && !Continues(responses[k], Offset(k)) {
      var k := FirstStop(responses);
      RequestCount(responses, a, k);
      RequestCount(responses, b, k);
      assert a.offsets == b.offsets;
      if a.Finished? && b.Finished? {
        assert |a.chunks| == |b.chunks|;
        assert a.chunks == b.chunks;
      }
    } else {
      assert !a.Aborted? && !a.Finished?;
      assert !b.Aborted? && !b.Finished?;
      assert a.offsets == b.offsets;
    }
  }

  /** The first response that does not ask for another page. */
  function FirstStop(responses: seq<Response>): (k: nat)
    requires exists k :: 0 <= k < |responses| && !Continues(responses[k], Offset(k))
    ensures k < |responses| && !Continues(responses[k], Offset(k))
    ensures forall j :: 0 <= j < k ==> Continues(responses[j], Offset(j))
  {
    FirstStopFrom(responses, 0)
  }

  function FirstStopFrom(responses: seq<Response>, i: nat): (k: nat)
    requires i <= |responses|
    requires exists k :: i <= k < |responses| && !Continues(responses[k], Offset(k))
    ensures i <= k < |responses| && !Continues(responses[k], Offset(k))
    ensures forall j :: i <= j < k ==> Continues(responses[j], Offset(j))
    decreases |responses| - i
  {
    if !Continues(responses[i], Offset(i)) then i else FirstStopFrom(responses, i + 1)
  }

  /** A total of at most one page ends the loop after the first request. */
  lemma SinglePage(rows: seq<Row>, total: int)
    requires |rows| > 0 && total <= |rows|
    ensures !Continues(Json(Some(rows), Some(total)), Offset(0))
  {
  }

  datatype NoaaRun = MissingKey | Ran(period: Period)

  /** `main`: a missing key stops before any request; otherwise the period
      is downloaded, an exception being reported and swallowed. */
  method NoaaMain(apiKey: Option<string>, responses: seq<Response>) returns (run: NoaaRun)
    ensures !Truthy(apiKey) <==> run.MissingKey?
    ensures run.Ran? ==> PeriodOf(responses, run.period)
    ensures run.Ran? ==> |run.period.offsets| > 0 || |responses| == 0
  {
    if !Truthy(apiKey) {
      return MissingKey;
    }
    var period := DownloadFullPeriod(responses);
    return Ran(period);
  }
}
