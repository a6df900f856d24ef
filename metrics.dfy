/** The observability store of the sample service: request counters by path and status, a
    bounded log of request durations, a bounded list of trace spans, per-operation performance
    statistics with bounded logs of slow and failed operations, the Prometheus text exposition
    (format 0.0.4) built from them, and the trace query.

    Durations are `real` numbers; instants are integers supplied by the caller in place of
    `datetime.utcnow()`. */
module Metrics {
  import opened Wrappers
  import opened Text
  import opened Seqs
  import opened Dict

  const MaxDurations: nat := 100
  const MaxTraces: nat := 100
  const MaxSlowOps: nat := 50
  const MaxErrorOps: nat := 50
  const SlowThresholdMs: real := 1000.0
  const RecentShown: nat := 10

  // ---------------------------------------------------------------------------------------
  // Records
  // ---------------------------------------------------------------------------------------

  datatype DurationRecord = DurationRecord(path: string, httpMethod: string, duration: real, status: int, timestamp: int)

  datatype SpanAttributes = SpanAttributes(httpMethod: string, httpPath: string, httpStatusCode: int,
                                           userAgent: string, user: Option<string>)

  datatype Span = Span(traceId: string, spanId: string, parentSpanId: Option<string>, operationName: string,
                       serviceName: string, startTime: int, durationMs: real, statusCode: int,
                       attributes: SpanAttributes)

  /** A float that may be `float('inf')`. */
  datatype Bound = Finite(value: real) | Infinity

  datatype OpStats = OpStats(count: nat, totalMs: real, minMs: Bound, maxMs: real, errors: nat,
                             lastExecuted: Option<int>)

  /** The entry a `defaultdict` creates for an operation seen for the first time. */
  const FreshStats: OpStats := OpStats(0, 0.0, Infinity, 0.0, 0, None)

  datatype SlowRecord = SlowRecord(operation: string, timestamp: int, durationMs: real)

  datatype ErrorRecord = ErrorRecord(operation: string, timestamp: int, error: string, durationMs: real)

  /** `_metrics['http_requests_total']`: path -> status -> count, in insertion order. */
  type Counters = Dict<string, Dict<int, nat>>

  // ---------------------------------------------------------------------------------------
  // Request counters
  // ---------------------------------------------------------------------------------------

  /** The count read back for `(path, status)`; 0 where `defaultdict` would create it. */
  function RequestCount(t: Counters, path: string, status: int): nat {
    GetOr(GetOr(t, path, []), status, 0)
  }

  /** `_metrics['http_requests_total'][path][status] += 1`: counting a request adds exactly
      one to its own `(path, status)` counter and leaves every other counter as it was. */
  function CountRequest(t: Counters, path: string, status: int): (r: Counters)
    ensures forall p, s ::
              RequestCount(r, p, s) == RequestCount(t, p, s) + (if p == path && s == status then 1 else 0)
  {
    var byStatus := GetOr(t, path, []);
    var n := GetOr(byStatus, status, 0) + 1;
    var byStatus' := Put(byStatus, status, n);
    assert forall p, s ::
             RequestCount(Put(t, path, byStatus'), p, s) ==
             RequestCount(t, p, s) + (if p == path && s == status then 1 else 0) by {
      forall p, s ensures RequestCount(Put(t, path, byStatus'), p, s) ==
        RequestCount(t, p, s) + (if p == path && s == status then 1 else 0)
      {
        GetPut(t, path, byStatus', p);
        GetPut(byStatus, status, n, s);
      }
    }
    Put(t, path, byStatus')
  }

  /** Every level of the counters keeps its keys distinct. */
  predicate CountersDistinct(t: Counters) {
    DistinctKeys(t) && forall e :: e in t ==> DistinctKeys(e.1)
  }

  lemma CountRequestKeepsDistinct(t: Counters, path: string, status: int)
    requires CountersDistinct(t)
    ensures CountersDistinct(CountRequest(t, path, status))
  {
    var byStatus := GetOr(t, path, []);
    var byStatus' := Put(byStatus, status, GetOr(byStatus, status, 0) + 1);
    GetFound(t, path);
    PutKeepsKeysDistinct(byStatus, status, GetOr(byStatus, status, 0) + 1);
    PutKeepsKeysDistinct(t, path, byStatus');
    PutEntries(t, path, byStatus');
  }

  // ---------------------------------------------------------------------------------------
  // Trace spans
  // ---------------------------------------------------------------------------------------

  /** The span `create_trace_span` builds. `userAgent` and `user` are `None` for Python's
      `None`; the empty string is falsy as well. */
  function NewSpan(traceId: string, spanId: string, operationName: string, durationMs: real,
                   statusCode: int, httpMethod: string, path: string, userAgent: Option<string>,
                   serviceName: string, user: Option<string>, startTime: int): (span: Span)
    ensures span.parentSpanId.None?
    ensures span.attributes.user.Some? <==> user.Some? && user.value != []
    ensures span.attributes.user.Some? ==> span.attributes.user == user
    ensures span.attributes.userAgent == if userAgent.Some? && userAgent.value != [] then userAgent.value else "unknown"
  {
    var agent := if userAgent.Some? && userAgent.value != [] then userAgent.value else "unknown";
    var attrs := SpanAttributes(httpMethod, path, statusCode, agent,
                                if user.Some? && user.value != [] then user else None);
    Span(traceId, spanId, None, operationName, serviceName, startTime, durationMs, statusCode, attrs)
  }

  /** `[t for t in traces if t.get('trace_id') == trace_id]` */
  function SpansOfTrace(traces: seq<Span>, traceId: string): (r: seq<Span>)
    ensures |r| <= |traces|
    ensures forall s :: s in r <==> s in traces && s.traceId == traceId
  {
    if traces == [] then []
    else SpansOfTrace(traces[..|traces| - 1], traceId) +
         (if traces[|traces| - 1].traceId == traceId then [traces[|traces| - 1]] else [])
  }

  /** Filtering piecewise: the spans of a trace in two stretches of the store, in their
      order, are the spans of that trace in the whole store. */
  lemma {:induction false} SpansOfTraceConcat(a: seq<Span>, b: seq<Span>, traceId: string)
    ensures SpansOfTrace(a + b, traceId) == SpansOfTrace(a, traceId) + SpansOfTrace(b, traceId)
    decreases |b|
  {
    if b == [] {
      assert a + b == a;
    } else {
      assert (a + b)[..|a + b| - 1] == a + b[..|b| - 1];
      SpansOfTraceConcat(a, b[..|b| - 1], traceId);
    }
  }

  /** `get_traces(limit, trace_id)` over the stored spans. A `limit` of 0 and an empty
      `traceId` stand for Python's falsy `None`, 0 and `''`. The query returns the selected
      spans newest first: with a positive `limit` the `limit` newest of them, with a negative
      one all but the `-limit` oldest, with 0 all of them. */
  function GetTraces(traces: seq<Span>, limit: int, traceId: string): (r: seq<Span>)
    ensures var m := Selected(traces, traceId);
      |r| == (if limit > 0 then (if limit < |m| then limit else |m|)
              else if limit == 0 then |m|
              else if -limit < |m| then |m| + limit else 0) &&
      forall i :: 0 <= i < |r| ==> r[i] == m[|m| - 1 - i]
  {
    var selected := Selected(traces, traceId);
    var limited := if limit != 0 then PyTail(selected, limit) else selected;
    Reverse(limited)
  }

  /** The spans `get_traces` starts from: those of the requested trace, or all of them. */
  function Selected(traces: seq<Span>, traceId: string): seq<Span> {
    if traceId != [] then SpansOfTrace(traces, traceId) else traces
  }

  /** Given a trace id, the query returns only spans of that trace, all taken from the store. */
  lemma GetTracesOfTrace(traces: seq<Span>, limit: int, traceId: string)
    requires traceId != []
    ensures var r := GetTraces(traces, limit, traceId);
      forall i :: 0 <= i < |r| ==> r[i] in traces && r[i].traceId == traceId
  {
    var m := SpansOfTrace(traces, traceId);
    assert forall i :: 0 <= i < |m| ==> m[i] in traces && m[i].traceId == traceId;
  }

  // ---------------------------------------------------------------------------------------
  // Operation statistics
  // ---------------------------------------------------------------------------------------

  /** `min(bound, d)` */
  function MinWith(b: Bound, d: real): real {
    if b.Finite? && b.value <= d then b.value else d
  }

  /** The statistics keep their meaning: no more errors than calls, and once an operation
      has been seen its minimum is a finite value not above its maximum. */
  predicate StatsConsistent(s: OpStats) {
    s.errors <= s.count &&
    (s.count == 0 ==> s.minMs == Infinity) &&
    (s.count > 0 ==> s.minMs.Finite? && s.minMs.value <= s.maxMs)
  }

  /** The update `record_apm_operation` makes to one operation's statistics. */
  function RecordStats(s: OpStats, durationMs: real, success: bool, at: int): (r: OpStats)
    ensures r.count == s.count + 1
    ensures r.errors == s.errors + (if success then 0 else 1)
    ensures r.totalMs == s.totalMs + durationMs && r.lastExecuted == Some(at)
    ensures r.minMs.Finite? && r.minMs.value <= durationMs <= r.maxMs
    ensures s.minMs.Finite? ==> r.minMs.value <= s.minMs.value
    ensures r.minMs.value == durationMs || (s.minMs.Finite? && r.minMs.value == s.minMs.value)
    ensures s.maxMs <= r.maxMs && (r.maxMs == durationMs || r.maxMs == s.maxMs)
    ensures StatsConsistent(s) ==> StatsConsistent(r)
  {
    OpStats(s.count + 1, s.totalMs + durationMs, Finite(MinWith(s.minMs, durationMs)),
            if s.maxMs >= durationMs then s.maxMs else durationMs,
            if success then s.errors else s.errors + 1, Some(at))
  }

  /** `sum(s['count'] for s in operation_stats.values())` */
  function TotalOperations(ops: Dict<string, OpStats>): nat {
    if ops == [] then 0 else ops[0].1.count + TotalOperations(ops[1..])
  }

  /** `sum(s['errors'] for s in operation_stats.values())` */
  function TotalErrors(ops: Dict<string, OpStats>): nat {
    if ops == [] then 0 else ops[0].1.errors + TotalErrors(ops[1..])
  }

  /** Replacing one operation's statistics changes the totals by the difference. */
  lemma {:induction false} TotalsAfterPut(ops: Dict<string, OpStats>, k: string, v: OpStats)
    ensures TotalOperations(Put(ops, k, v)) + GetOr(ops, k, FreshStats).count == TotalOperations(ops) + v.count
    ensures TotalErrors(Put(ops, k, v)) + GetOr(ops, k, FreshStats).errors == TotalErrors(ops) + v.errors
  {
    if ops != [] && ops[0].0 != k {
      TotalsAfterPut(ops[1..], k, v);
    }
  }

  predicate AllConsistent(ops: Dict<string, OpStats>) {
    forall e :: e in ops ==> StatsConsistent(e.1)
  }

  lemma PutKeepsConsistent(ops: Dict<string, OpStats>, k: string, v: OpStats)
    requires AllConsistent(ops) && StatsConsistent(v)
    ensures AllConsistent(Put(ops, k, v))
  {
    PutEntries(ops, k, v);
  }

  /** One row of `get_apm_stats()['operation_stats']`, before rounding. */
  datatype OpSummary = OpSummary(operation: string, count: nat, minMs: real, maxMs: real, totalMs: real,
                                 errors: nat, lastExecuted: Option<int>)

  datatype ApmReport = ApmReport(operations: seq<OpSummary>, slowOperations: seq<SlowRecord>,
                                 recentErrors: seq<ErrorRecord>, totalOperations: nat, totalErrors: nat,
                                 totalSlowOperations: nat)

  function SummaryRow(entry: (string, OpStats)): OpSummary {
    var s := entry.1;
    OpSummary(entry.0, s.count, if s.minMs.Finite? then s.minMs.value else 0.0, s.maxMs, s.totalMs,
              s.errors, s.lastExecuted)
  }

  function SumRowCounts(rows: seq<OpSummary>): nat {
    if rows == [] then 0 else rows[0].count + SumRowCounts(rows[1..])
  }

  function SumRowErrors(rows: seq<OpSummary>): nat {
    if rows == [] then 0 else rows[0].errors + SumRowErrors(rows[1..])
  }

  lemma {:induction false} RowSums(ops: Dict<string, OpStats>)
    ensures var rows := seq(|ops|, i requires 0 <= i < |ops| => SummaryRow(ops[i]));
      SumRowCounts(rows) == TotalOperations(ops) && SumRowErrors(rows) == TotalErrors(ops)
  {
    var rows := seq(|ops|, i requires 0 <= i < |ops| => SummaryRow(ops[i]));
    if ops != [] {
      RowSums(ops[1..]);
      assert rows[1..] == seq(|ops[1..]|, i requires 0 <= i < |ops[1..]| => SummaryRow(ops[1..][i]));
    }
  }

  /** `get_apm_stats()` without the rounded averages and rates. The summary totals are the
      sums over the per-operation rows, and the recent lists are the ten newest records. */
  function ApmStats(ops: Dict<string, OpStats>, slow: seq<SlowRecord>, errs: seq<ErrorRecord>): (r: ApmReport)
    ensures |r.operations| == |ops| && forall i :: 0 <= i < |ops| ==> r.operations[i].operation == ops[i].0
    ensures r.totalOperations == SumRowCounts(r.operations) && r.totalErrors == SumRowErrors(r.operations)
    ensures forall i :: 0 <= i < |ops| ==>
      var (row, stats) := (r.operations[i], ops[i].1);
      row.count == stats.count && row.errors == stats.errors && row.totalMs == stats.totalMs &&
      row.maxMs == stats.maxMs && row.lastExecuted == stats.lastExecuted &&
      row.minMs == (if stats.minMs.Finite? then stats.minMs.value else 0.0)
    ensures r.totalSlowOperations == |slow|
    ensures r.slowOperations == KeepLast(slow, RecentShown) && r.recentErrors == KeepLast(errs, RecentShown)
  {
    var rows := seq(|ops|, i requires 0 <= i < |ops| => SummaryRow(ops[i]));
    RowSums(ops);
    ApmReport(rows, KeepLast(slow, RecentShown), KeepLast(errs, RecentShown),
              TotalOperations(ops), TotalErrors(ops), |slow|)
  }

  // ---------------------------------------------------------------------------------------
  // Histogram buckets
  // ---------------------------------------------------------------------------------------

  /** Bucket bounds in seconds: 0.1, 0.5, 1.0, 2.0, 5.0, +Inf, and their `le` labels. */
  const BucketBounds: seq<Bound> := [Finite(0.1), Finite(0.5), Finite(1.0), Finite(2.0), Finite(5.0), Infinity]
  const BucketLabels: seq<string> := ["0.1", "0.5", "1.0", "2.0", "5.0", "+Inf"]

  predicate Covers(b: Bound, d: real) {
    b.Infinity? || d <= b.value
  }

  /** The bucket a duration is counted in: the first bound not below it. */
  function BucketOf(d: real): (i: nat)
    ensures i < |BucketBounds| && Covers(BucketBounds[i], d)
    ensures forall j :: 0 <= j < i ==> !Covers(BucketBounds[j], d)
  {
    if d <= 0.1 then 0 else if d <= 0.5 then 1 else if d <= 1.0 then 2
    else if d <= 2.0 then 3 else if d <= 5.0 then 4 else 5
  }

  /** How many of the durations fall in bucket `i`. */
  function BucketCount(ds: seq<real>, i: nat): nat {
    if ds == [] then 0
    else BucketCount(ds[..|ds| - 1], i) + (if BucketOf(ds[|ds| - 1]) == i then 1 else 0)
  }

  function Total(xs: seq<nat>): nat {
    if xs == [] then 0 else xs[0] + Total(xs[1..])
  }

  /** The buckets are not cumulative: each duration is counted once, so the six counts add up
      to the number of durations. */
  lemma {:induction false} BucketsPartition(ds: seq<real>)
    ensures BucketCount(ds, 0) + BucketCount(ds, 1) + BucketCount(ds, 2) + BucketCount(ds, 3) +
            BucketCount(ds, 4) + BucketCount(ds, 5) == |ds|
  {
    if ds != [] {
      BucketsPartition(ds[..|ds| - 1]);
    }
  }

  lemma TotalOfSix(xs: seq<nat>)
    requires |xs| == 6
    ensures Total(xs) == xs[0] + xs[1] + xs[2] + xs[3] + xs[4] + xs[5]
  {
    assert Total(xs[5..]) == xs[5] by { assert xs[5..][1..] == []; }
    assert Total(xs[4..]) == xs[4] + Total(xs[5..]) by { assert xs[4..][1..] == xs[5..]; }
    assert Total(xs[3..]) == xs[3] + Total(xs[4..]) by { assert xs[3..][1..] == xs[4..]; }
    assert Total(xs[2..]) == xs[2] + Total(xs[3..]) by { assert xs[2..][1..] == xs[3..]; }
    assert Total(xs[1..]) == xs[1] + Total(xs[2..]) by { assert xs[1..][1..] == xs[2..]; }
  }

  /** The bucket-filling loops of `get_prometheus_metrics`. */
  method BucketCounts(ds: seq<real>) returns (counts: seq<nat>)
    ensures |counts| == |BucketBounds|
    ensures forall i :: 0 <= i < |counts| ==> counts[i] == BucketCount(ds, i)
    ensures Total(counts) == |ds|
  {
    var a := new nat[|BucketBounds|](_ => 0);
    var k := 0;
    while k < |ds|
      invariant 0 <= k <= |ds|
      invariant forall i :: 0 <= i < a.Length ==> a[i] == BucketCount(ds[..k], i)
    {
      var d := ds[k];
      var i := 0;
      while !Covers(BucketBounds[i], d)
        invariant 0 <= i < |BucketBounds|
        invariant forall j :: 0 <= j < i ==> !Covers(BucketBounds[j], d)
        decreases |BucketBounds| - i
      {
        i := i + 1;
      }
      assert i == BucketOf(d);
      a[i] := a[i] + 1;
      assert ds[..k + 1][..k] == ds[..k];
      k := k + 1;
    }
    assert ds[..k] == ds;
    counts := a[..];
    BucketsPartition(ds);
    TotalOfSix(counts);
  }

  // ---------------------------------------------------------------------------------------
  // Prometheus text exposition
  // ---------------------------------------------------------------------------------------

  function RequestLine(path: string, status: int, count: nat, app: string): string {
    "http_requests_total{path=\"" + path + "\",status=\"" + IntToString(status) +
    "\",service=\"" + app + "\"} " + NatToString(count)
  }

  function BucketLine(le: string, count: nat, app: string): string {
    "http_request_duration_seconds_bucket{le=\"" + le + "\",service=\"" + app + "\"} " + NatToString(count)
  }

  function AverageLine(avg: string, app: string): string {
    "http_request_duration_seconds_avg{service=\"" + app + "\"} " + avg
  }

  function CountLine(n: nat, app: string): string {
    "http_request_duration_seconds_count{service=\"" + app + "\"} " + NatToString(n)
  }

  function DatabaseErrorsLine(n: nat, app: string): string {
    "app_database_connection_errors_total{service=\"" + app + "\"} " + NatToString(n)
  }

  function RedisErrorsLine(n: nat, app: string): string {
    "app_redis_connection_errors_total{service=\"" + app + "\"} " + NatToString(n)
  }

  /** One counter line per status recorded for `path`, in insertion order. */
  function StatusLines(path: string, byStatus: Dict<int, nat>, app: string): (lines: seq<string>)
    ensures |lines| == |byStatus|
  {
    if byStatus == [] then []
    else
      var last := byStatus[|byStatus| - 1];
      StatusLines(path, byStatus[..|byStatus| - 1], app) + [RequestLine(path, last.0, last.1, app)]
  }

  /** Number of `(path, status)` counters. */
  function CounterCount(t: Counters): nat {
    if t == [] then 0 else CounterCount(t[..|t| - 1]) + |t[|t| - 1].1|
  }

  /** One counter line per `(path, status)` pair, paths and statuses in insertion order. */
  function RequestLines(t: Counters, app: string): (lines: seq<string>)
    ensures |lines| == CounterCount(t)
  {
    if t == [] then []
    else
      var last := t[|t| - 1];
      RequestLines(t[..|t| - 1], app) + StatusLines(last.0, last.1, app)
  }

  lemma {:induction false} StatusLineListed(path: string, byStatus: Dict<int, nat>, app: string, status: int, n: nat)
    requires (status, n) in byStatus
    ensures RequestLine(path, status, n, app) in StatusLines(path, byStatus, app)
  {
    var last := byStatus[|byStatus| - 1];
    if last != (status, n) {
      assert (status, n) in byStatus[..|byStatus| - 1] by {
        var i :| 0 <= i < |byStatus| && byStatus[i] == (status, n);
        assert byStatus[..|byStatus| - 1][i] == byStatus[i];
      }
      StatusLineListed(path, byStatus[..|byStatus| - 1], app, status, n);
    }
  }

  /** Every counter of the table is exposed: a status counted under a path has its line. */
  lemma {:induction false} CounterLineListed(t: Counters, app: string, path: string, byStatus: Dict<int, nat>,
                                             status: int, n: nat)
    requires (path, byStatus) in t && (status, n) in byStatus
    ensures RequestLine(path, status, n, app) in RequestLines(t, app)
  {
    var last := t[|t| - 1];
    if last == (path, byStatus) {
      StatusLineListed(path, byStatus, app, status, n);
    } else {
      assert (path, byStatus) in t[..|t| - 1] by {
        var i :| 0 <= i < |t| && t[i] == (path, byStatus);
        assert t[..|t| - 1][i] == t[i];
      }
      CounterLineListed(t[..|t| - 1], app, path, byStatus, status, n);
    }
  }

  function SumReals(ds: seq<real>): real {
    if ds == [] then 0.0 else SumReals(ds[..|ds| - 1]) + ds[|ds| - 1]
  }

  function BucketLines(counts: seq<nat>, app: string): seq<string>
    requires |counts| <= |BucketLabels|
  {
    seq(|counts|, i requires 0 <= i < |counts| => BucketLine(BucketLabels[i], counts[i], app))
  }

  /** The histogram section: present only when durations were recorded. `showFloat` is
      Python's `str` of a float. */
  function HistogramLines(ds: seq<real>, app: string, showFloat: real -> string): seq<string> {
    if ds == [] then []
    else
      BucketLines(seq(|BucketBounds|, i requires 0 <= i < |BucketBounds| => BucketCount(ds, i)), app) +
      [AverageLine(showFloat(SumReals(ds) / |ds| as real), app), CountLine(|ds|, app)]
  }

  /** The lines of `get_prometheus_metrics`: one line per request counter, then, when
      durations exist, six bucket lines and the average and count, and always closing with
      the two connection-error counters. */
  function ExpositionLines(t: Counters, ds: seq<real>, databaseErrors: nat, redisErrors: nat,
                           app: string, showFloat: real -> string): (lines: seq<string>)
    ensures |lines| == CounterCount(t) + (if ds == [] then 0 else |BucketBounds| + 2) + 2
    ensures lines[|lines| - 2] == DatabaseErrorsLine(databaseErrors, app)
    ensures lines[|lines| - 1] == RedisErrorsLine(redisErrors, app)
  {
    RequestLines(t, app) + HistogramLines(ds, app, showFloat) +
    [DatabaseErrorsLine(databaseErrors, app), RedisErrorsLine(redisErrors, app)]
  }

  /** `'\n'.join(output) + '\n'` */
  function Exposition(lines: seq<string>): string {
    JoinWith(lines, "\n") + "\n"
  }

  /** The inner loop over one path's statuses. */
  method StatusLinesOf(path: string, byStatus: Dict<int, nat>, app: string) returns (output: seq<string>)
    ensures output == StatusLines(path, byStatus, app)
  {
    output := [];
    var j := 0;
    while j < |byStatus|
      invariant 0 <= j <= |byStatus|
      invariant output == StatusLines(path, byStatus[..j], app)
    {
      assert byStatus[..j + 1][..j] == byStatus[..j];
      output := output + [RequestLine(path, byStatus[j].0, byStatus[j].1, app)];
      j := j + 1;
    }
    assert byStatus[..j] == byStatus;
  }

  /** The loop over `http_requests_total` that emits one counter line per `(path, status)`. */
  method CounterLines(t: Counters, app: string) returns (output: seq<string>)
    ensures output == RequestLines(t, app)
  {
    output := [];
    var i := 0;
    while i < |t|
      invariant 0 <= i <= |t|
      invariant output == RequestLines(t[..i], app)
    {
      var path := t[i].0;
      var byStatus := t[i].1;
      var lines := StatusLinesOf(path, byStatus, app);
      output := output + lines;
      assert t[..i + 1][..i] == t[..i];
      i := i + 1;
    }
    assert t[..i] == t;
  }

  /** The histogram part of `get_prometheus_metrics`: bucket lines, average and count. */
  method HistogramSection(ds: seq<real>, app: string, showFloat: real -> string) returns (output: seq<string>)
    ensures output == HistogramLines(ds, app, showFloat)
  {
    output := [];
    if |ds| > 0 {
      var counts := BucketCounts(ds);
      var b := 0;
      while b < |BucketBounds|
        invariant 0 <= b <= |BucketBounds|
        invariant output == BucketLines(counts[..b], app)
      {
        assert counts[..b + 1][..b] == counts[..b];
        output := output + [BucketLine(BucketLabels[b], counts[b], app)];
        b := b + 1;
      }
      assert counts[..b] == seq(|BucketBounds|, i requires 0 <= i < |BucketBounds| => BucketCount(ds, i));
      output := output + [AverageLine(showFloat(SumReals(ds) / |ds| as real), app), CountLine(|ds|, app)];
    }
  }

  function DurationValues(log: seq<DurationRecord>): (ds: seq<real>)
    ensures |ds| == |log| && forall i :: 0 <= i < |log| ==> ds[i] == log[i].duration
  {
    seq(|log|, i requires 0 <= i < |log| => log[i].duration)
  }

  // ---------------------------------------------------------------------------------------
  // The store
  // ---------------------------------------------------------------------------------------

  /** The module-level `_metrics`, `_traces` and `_apm_data`. */
  class MetricsStore {
    var requests: Counters
    var durations: seq<DurationRecord>
    var databaseErrors: nat
    var redisErrors: nat
    var traces: seq<Span>
    var operations: Dict<string, OpStats>
    var slowOperations: seq<SlowRecord>
    var errorOperations: seq<ErrorRecord>

    ghost predicate Valid()
      reads this
    {
      |durations| <= MaxDurations && |traces| <= MaxTraces &&
      |slowOperations| <= MaxSlowOps && |errorOperations| <= MaxErrorOps &&
      CountersDistinct(requests) && DistinctKeys(operations) && AllConsistent(operations)
    }

    constructor ()
      ensures Valid()
      ensures requests == [] && durations == [] && databaseErrors == 0 && redisErrors == 0
      ensures traces == [] && operations == [] && slowOperations == [] && errorOperations == []
    {
      requests, durations, databaseErrors, redisErrors := [], [], 0, 0;
      traces, operations, slowOperations, errorOperations := [], [], [], [];
    }

    /** `record_http_request(path, method, status, duration)` at instant `at`. */
    method RecordHttpRequest(path: string, httpMethod: string, status: int, duration: real, at: int)
      requires Valid()
      modifies this
      ensures Valid()
      ensures requests == CountRequest(old(requests), path, status)
      ensures durations == KeepLast(old(durations) + [DurationRecord(path, httpMethod, duration, status, at)], MaxDurations)
      ensures databaseErrors == old(databaseErrors) && redisErrors == old(redisErrors)
      ensures traces == old(traces) && operations == old(operations)
      ensures slowOperations == old(slowOperations) && errorOperations == old(errorOperations)
    {
      CountRequestKeepsDistinct(requests, path, status);
      requests := CountRequest(requests, path, status);
      durations := KeepLast(durations + [DurationRecord(path, httpMethod, duration, status, at)], MaxDurations);
    }

    /** `create_trace_span(...)` with `start_time` = `at`. */
    method CreateTraceSpan(traceId: string, spanId: string, operationName: string, durationMs: real,
                           statusCode: int, httpMethod: string, path: string, userAgent: Option<string>,
                           serviceName: string, user: Option<string>, at: int) returns (span: Span)
      requires Valid()
      modifies this
      ensures Valid()
      ensures span == NewSpan(traceId, spanId, operationName, durationMs, statusCode, httpMethod, path,
                              userAgent, serviceName, user, at)
      ensures traces == KeepLast(old(traces) + [span], MaxTraces)
      ensures |traces| > 0 && traces[|traces| - 1] == span
      ensures requests == old(requests) && durations == old(durations)
      ensures databaseErrors == old(databaseErrors) && redisErrors == old(redisErrors)
      ensures operations == old(operations)
      ensures slowOperations == old(slowOperations) && errorOperations == old(errorOperations)
    {
      span := NewSpan(traceId, spanId, operationName, durationMs, statusCode, httpMethod, path,
                      userAgent, serviceName, user, at);
      traces := KeepLast(traces + [span], MaxTraces);
    }

    /** `record_apm_operation(operation, duration_ms, success, error)` at instant `at`. */
    method RecordApmOperation(operation: string, durationMs: real, success: bool, error: Option<string>, at: int)
      requires Valid()
      modifies this
      ensures Valid()
      ensures var before := GetOr(old(operations), operation, FreshStats);
        operations == Put(old(operations), operation, RecordStats(before, durationMs, success, at))
      ensures Get(operations, operation).Some? && StatsConsistent(Get(operations, operation).value)
      ensures TotalOperations(operations) == old(TotalOperations(operations)) + 1
      ensures TotalErrors(operations) == old(TotalErrors(operations)) + (if success then 0 else 1)
      ensures errorOperations == if success then old(errorOperations) else
        KeepLast(old(errorOperations) + [ErrorRecord(operation, at,
          if error.Some? && error.value != [] then error.value else "Unknown error", durationMs)], MaxErrorOps)
      ensures slowOperations == if durationMs > SlowThresholdMs then
        KeepLast(old(slowOperations) + [SlowRecord(operation, at, durationMs)], MaxSlowOps)
        else old(slowOperations)
      ensures requests == old(requests) && durations == old(durations) && traces == old(traces)
      ensures databaseErrors == old(databaseErrors) && redisErrors == old(redisErrors)
    {
      var stats := GetOr(operations, operation, FreshStats);
      assert StatsConsistent(stats) by {
        GetFound(operations, operation);
      }
      var updated := RecordStats(stats, durationMs, success, at);
      TotalsAfterPut(operations, operation, updated);
      GetPut(operations, operation, updated, operation);
      PutKeepsConsistent(operations, operation, updated);
      PutKeepsKeysDistinct(operations, operation, updated);
      operations := Put(operations, operation, updated);
      if !success {
        var message := if error.Some? && error.value != [] then error.value else "Unknown error";
        errorOperations := KeepLast(errorOperations + [ErrorRecord(operation, at, message, durationMs)], MaxErrorOps);
      }
      if durationMs > SlowThresholdMs {
        slowOperations := KeepLast(slowOperations + [SlowRecord(operation, at, durationMs)], MaxSlowOps);
      }
    }

    /** `increment_database_errors()` */
    method IncrementDatabaseErrors()
      modifies this`databaseErrors
      ensures databaseErrors == old(databaseErrors) + 1
    {
      databaseErrors := databaseErrors + 1;
    }

    /** `increment_redis_errors()` */
    method IncrementRedisErrors()
      modifies this`redisErrors
      ensures redisErrors == old(redisErrors) + 1
    {
      redisErrors := redisErrors + 1;
    }

    /** `get_prometheus_metrics(app_name)` */
    method PrometheusMetrics(app: string, showFloat: real -> string) returns (text: string)
      ensures text == Exposition(ExpositionLines(requests, DurationValues(durations), databaseErrors,
                                                 redisErrors, app, showFloat))
      ensures |text| > 0 && text[|text| - 1] == '\n'
    {
      var counters := CounterLines(requests, app);
      var histogram := HistogramSection(DurationValues(durations), app, showFloat);
      var output := counters + histogram + [DatabaseErrorsLine(databaseErrors, app), RedisErrorsLine(redisErrors, app)];
      text := JoinWith(output, "\n") + "\n";
    }
  }
}
