/** The stand-alone echo "LLM" service: its module-level `metrics` (requests per path, the last
    hundred request durations, tokens generated, errors) and `traces` list, updated by the
    request hooks and the tracing decorator; the echo rule of `/chat`; the `/metrics` text and
    the `/traces` page.

    Clock readings and identifiers are parameters; durations are `real` seconds, trace
    durations `real` milliseconds, instants integers. */
module LlmApp {
  import opened Wrappers
  import opened Text
  import opened Seqs
  import opened Dict

  const MaxDurations: nat := 100
  const TracesShown: nat := 50
  const EchoPrefix: string := "Echo: "

  datatype DurationEntry = DurationEntry(path: string, httpMethod: string, duration: real, statusCode: int, timestamp: int)

  /** `'status': 'success'`, or `'status': 'error'` with the exception text. */
  datatype TraceStatus = Success | Failed(error: string)

  datatype TraceRecord = TraceRecord(traceId: string, spanId: string, operation: string, durationMs: real,
                                     status: TraceStatus, timestamp: int)

  /** The JSON body of a `/chat` request: not a JSON object at all (so that `data.get`
      raises), or an object that may or may not hold `message`. */
  datatype ChatBody = NotAnObject | Object(message: Option<string>)

  /** A `/chat` response: the reply with its token count, the 400 for an empty message, or the
      500 the handler's own `except` produces. */
  datatype ChatResponse = Reply(message: string, tokens: nat) | BadRequest | ServerError

  /** The number of tokens the echo reply to `message` counts, `len(reply.split())`: the
      prefix adds exactly one word to those of the message. */
  function ReplyTokens(message: string): (n: nat)
    ensures n == 1 + |Words(message)|
  {
    assert Words(EchoPrefix + message) == ["Echo:"] + Words(message) by {
      assert EchoPrefix + message == "Echo:" + ([' '] + message);
      WordsAfterWord("Echo:", [' '] + message);
      WordsAfterSpace(' ', message);
    }
    |Words(EchoPrefix + message)|
  }

  /** `traces[-50:]` and `len(traces)`, the `/traces` response. */
  function TracesPage(traces: seq<TraceRecord>): (page: (seq<TraceRecord>, nat))
    ensures page.1 == |traces|
    ensures |page.0| == if |traces| <= TracesShown then |traces| else TracesShown
    ensures forall i :: 0 <= i < |page.0| ==> page.0[i] == traces[|traces| - |page.0| + i]
  {
    (KeepLast(traces, TracesShown), |traces|)
  }

  function RequestsLine(path: string, count: nat, app: string): string {
    "llm_requests_total{path=\"" + path + "\",service=\"" + app + "\"} " + NatToString(count)
  }

  function AverageLine(avg: string, app: string): string {
    "llm_request_duration_seconds_avg{service=\"" + app + "\"} " + avg
  }

  function TokensLine(n: nat, app: string): string {
    "llm_tokens_generated_total{service=\"" + app + "\"} " + NatToString(n)
  }

  function ErrorsLine(n: nat, app: string): string {
    "llm_errors_total{service=\"" + app + "\"} " + NatToString(n)
  }

  /** One line per path, in first-request order. */
  function RequestsLines(counts: Dict<string, nat>, app: string): (lines: seq<string>)
    ensures |lines| == |counts|
    ensures forall i :: 0 <= i < |counts| ==> lines[i] == RequestsLine(counts[i].0, counts[i].1, app)
  {
    seq(|counts|, i requires 0 <= i < |counts| => RequestsLine(counts[i].0, counts[i].1, app))
  }

  function SumDurations(log: seq<DurationEntry>): real {
    if log == [] then 0.0 else SumDurations(log[..|log| - 1]) + log[|log| - 1].duration
  }

  /** The lines of `/metrics`; `showFloat` is Python's `str` of a float. One requests line
      per path first, the average only when durations exist, and the tokens and errors
      counters always last. */
  function MetricsLines(counts: Dict<string, nat>, log: seq<DurationEntry>, tokens: nat, errors: nat,
                        app: string, showFloat: real -> string): (lines: seq<string>)
    ensures |lines| == |counts| + (if log != [] then 1 else 0) + 2
    ensures forall i :: 0 <= i < |counts| ==> lines[i] == RequestsLine(counts[i].0, counts[i].1, app)
    ensures log != [] ==> lines[|counts|] == AverageLine(showFloat(SumDurations(log) / |log| as real), app)
    ensures lines[|lines| - 2] == TokensLine(tokens, app) && lines[|lines| - 1] == ErrorsLine(errors, app)
  {
    RequestsLines(counts, app) +
    (if log != [] then [AverageLine(showFloat(SumDurations(log) / |log| as real), app)] else []) +
    [TokensLine(tokens, app), ErrorsLine(errors, app)]
  }

  /** Whether a line is the average-duration line. */
  predicate IsAverageLine(line: string) {
    StartsWith(line, "llm_request_duration_seconds_avg{")
  }

  lemma AverageLineIsAverage(avg: string, app: string)
    ensures IsAverageLine(AverageLine(avg, app))
  {
    assert AverageLine(avg, app)[..|"llm_request_duration_seconds_avg{"|] == "llm_request_duration_seconds_avg{";
  }

  lemma RequestsLineIsNotAverage(path: string, count: nat, app: string)
    ensures !IsAverageLine(RequestsLine(path, count, app))
  {
    assert RequestsLine(path, count, app)[11] == 's';
  }

  lemma CounterLinesAreNotAverage(n: nat, app: string)
    ensures !IsAverageLine(TokensLine(n, app)) && !IsAverageLine(ErrorsLine(n, app))
  {
    assert TokensLine(n, app)[4] != 'r';
    assert ErrorsLine(n, app)[4] != 'r';
  }

  /** The average line is there exactly when durations were recorded. */
  lemma AverageOnlyWithDurations(counts: Dict<string, nat>, log: seq<DurationEntry>, tokens: nat, errors: nat,
                                 app: string, showFloat: real -> string)
    ensures var lines := MetricsLines(counts, log, tokens, errors, app, showFloat);
      (exists i :: 0 <= i < |lines| && IsAverageLine(lines[i])) <==> log != []
  {
    var lines := MetricsLines(counts, log, tokens, errors, app, showFloat);
    if log != [] {
      AverageLineIsAverage(showFloat(SumDurations(log) / |log| as real), app);
      assert IsAverageLine(lines[|counts|]);
    } else {
      forall i | 0 <= i < |lines| ensures !IsAverageLine(lines[i]) {
        if i < |counts| {
          RequestsLineIsNotAverage(counts[i].0, counts[i].1, app);
        } else {
          CounterLinesAreNotAverage(tokens, app);
          CounterLinesAreNotAverage(errors, app);
        }
      }
    }
  }

  /** The module-level `metrics` dictionary and `traces` list. */
  class LlmService {
    var requestsTotal: Dict<string, nat>
    var durations: seq<DurationEntry>
    var tokensGenerated: nat
    var errorsTotal: nat
    var traces: seq<TraceRecord>

    ghost predicate Valid()
      reads this
    {
      |durations| <= MaxDurations && DistinctKeys(requestsTotal)
    }

    constructor ()
      ensures Valid()
      ensures requestsTotal == [] && durations == [] && tokensGenerated == 0 && errorsTotal == 0 && traces == []
    {
      requestsTotal, durations, tokensGenerated, errorsTotal, traces := [], [], 0, 0, [];
    }

    /** `before_request`: one more request on `path`. */
    method BeforeRequest(path: string)
      requires Valid()
      modifies this`requestsTotal
      ensures Valid()
      ensures requestsTotal == Put(old(requestsTotal), path, GetOr(old(requestsTotal), path, 0) + 1)
      ensures forall p :: GetOr(requestsTotal, p, 0) == GetOr(old(requestsTotal), p, 0) + (if p == path then 1 else 0)
    {
      var n := GetOr(requestsTotal, path, 0) + 1;
      forall p ensures GetOr(Put(requestsTotal, path, n), p, 0) == GetOr(requestsTotal, p, 0) + (if p == path then 1 else 0) {
        GetPut(requestsTotal, path, n, p);
      }
      PutKeepsKeysDistinct(requestsTotal, path, n);
      requestsTotal := Put(requestsTotal, path, n);
    }

    /** `after_request`: log the duration, keeping the newest hundred. */
    method AfterRequest(path: string, httpMethod: string, statusCode: int, duration: real, at: int)
      requires Valid()
      modifies this`durations
      ensures Valid()
      ensures durations == KeepLast(old(durations) + [DurationEntry(path, httpMethod, duration, statusCode, at)], MaxDurations)
      ensures durations[|durations| - 1] == DurationEntry(path, httpMethod, duration, statusCode, at)
    {
      durations := durations + [DurationEntry(path, httpMethod, duration, statusCode, at)];
      if |durations| > MaxDurations {
        durations := durations[|durations| - MaxDurations..];
      }
    }

    /** The `trace_span` wrapper once the wrapped call has finished: `failure` is `None` when it
        returned and the exception text when it raised. A failure is counted, traced as an
        error, and raised again (`reraise`). */
    method FinishSpan(traceId: string, spanId: string, operation: string, durationMs: real, at: int,
                      failure: Option<string>) returns (reraise: bool)
      modifies this`traces, this`errorsTotal
      ensures reraise <==> failure.Some?
      ensures traces == old(traces) + [TraceRecord(traceId, spanId, operation, durationMs,
                                                   if failure.Some? then Failed(failure.value) else Success, at)]
      ensures errorsTotal == old(errorsTotal) + (if failure.Some? then 1 else 0)
    {
      if failure.Some? {
        errorsTotal := errorsTotal + 1;
        traces := traces + [TraceRecord(traceId, spanId, operation, durationMs, Failed(failure.value), at)];
        reraise := true;
      } else {
        traces := traces + [TraceRecord(traceId, spanId, operation, durationMs, Success, at)];
        reraise := false;
      }
    }

    /** The body of `chat`. */
    method Chat(body: ChatBody) returns (response: ChatResponse)
      modifies this`tokensGenerated
      ensures body.NotAnObject? ==> response == ServerError
      ensures body.Object? && (body.message.None? || body.message.value == []) ==> response == BadRequest
      ensures body.Object? && body.message.Some? && body.message.value != [] ==>
        response == Reply(EchoPrefix + body.message.value, 1 + |Words(body.message.value)|)
      ensures tokensGenerated == old(tokensGenerated) + (if response.Reply? then response.tokens else 0)
    {
      if body.NotAnObject? {
        return ServerError;
      }
      var message := body.message.GetOr("");
      if message == [] {
        return BadRequest;
      }
      var reply := EchoPrefix + message;
      var tokens := |Words(reply)|;
      assert tokens == ReplyTokens(message);
      tokensGenerated := tokensGenerated + tokens;
      response := Reply(reply, tokens);
    }

    /** `POST /chat` through `trace_span('chat_completion')`. The handler catches its own
        exceptions, so the wrapper always records one successful trace. */
    method ChatCompletion(body: ChatBody, traceId: string, spanId: string, durationMs: real, at: int)
      returns (response: ChatResponse)
      modifies this`tokensGenerated, this`traces, this`errorsTotal
      ensures traces == old(traces) + [TraceRecord(traceId, spanId, "chat_completion", durationMs, Success, at)]
      ensures errorsTotal == old(errorsTotal)
      ensures body.Object? && body.message.Some? && body.message.value != [] ==>
        response == Reply(EchoPrefix + body.message.value, 1 + |Words(body.message.value)|)
      ensures !(body.Object? && body.message.Some? && body.message.value != []) ==> !response.Reply?
      ensures tokensGenerated == old(tokensGenerated) + (if response.Reply? then response.tokens else 0)
    {
      response := Chat(body);
      var reraise := FinishSpan(traceId, spanId, "chat_completion", durationMs, at, None);
    }

    /** `prometheus_metrics()`: the `/metrics` text. */
    method MetricsText(app: string, showFloat: real -> string) returns (text: string)
      ensures text == JoinWith(MetricsLines(requestsTotal, durations, tokensGenerated, errorsTotal, app, showFloat), "\n") + "\n"
    {
      var output: seq<string> := [];
      var i := 0;
      while i < |requestsTotal|
        invariant 0 <= i <= |requestsTotal|
        invariant output == RequestsLines(requestsTotal[..i], app)
      {
        output := output + [RequestsLine(requestsTotal[i].0, requestsTotal[i].1, app)];
        i := i + 1;
      }
      assert requestsTotal[..i] == requestsTotal;
      var average: seq<string> := [];
      if |durations| > 0 {
        average := [AverageLine(showFloat(SumDurations(durations) / |durations| as real), app)];
      }
      output := output + average + [TokensLine(tokensGenerated, app), ErrorsLine(errorsTotal, app)];
      text := JoinWith(output, "\n") + "\n";
    }
  }
}
