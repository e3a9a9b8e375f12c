/** The job-polling loop that ScrapeGoogleSearch and ScrapeGoogleUrl each run
    in a goroutine after submitting a job (serp/google_async.go:172-263 and
    339-430, identical). The network, the clock and JSON decoding are
    replaced by a sequence of observations, one per loop iteration; the loop
    is described by what it does: the HTTP requests it issues, what it sends
    on or closes of its two channels, and how it stops. */
module Poller {
  import opened Wrappers
  import Json

  /** The job record that each status poll is decoded into. */
  datatype Job = Job(id: string, status: string)

  /** What `json.Unmarshal` does to the job record: a malformed body leaves
      it unchanged; otherwise each field present in the body overwrites the
      stored one and an absent field is kept. */
  datatype JobDecode = Malformed | Fields(id: Option<string>, status: Option<string>)

  function Merge(job: Job, d: JobDecode): Job
  {
    match d
    case Malformed => job
    case Fields(id, status) =>
      Job(if id.Some? then id.value else job.id,
          if status.Some? then status.value else job.status)
  }

  /** The decoded result set delivered to the caller. `statusCode` and
      `status` are overwritten from the HTTP response that carried it. */
  datatype Response = Response(statusCode: int, status: string, results: seq<Json.Value>)

  /** One status poll: the request failed, its body could not be read, or
      the body was read and decoded into the job record. Its HTTP status
      code is never looked at, so it is not part of the observation. */
  datatype PollObs =
    | PollTransportError(cause: string)
    | PollReadError(cause: string)
    | PollNullBody                 // the JSON literal `null`: the job pointer becomes nil
    | PollBody(decoded: JobDecode)

  /** The results fetch that a "done" status triggers. */
  datatype FetchObs =
    | FetchTransportError(cause: string)
    | FetchReadError(cause: string)
    | FetchBody(statusCode: int, status: string, body: string, decoded: Result<Response, string>)

  /** What the world answers in one iteration: the status poll, the results
      fetch (consulted only after "done"), and the time elapsed since the
      loop started, as read by the timeout check. */
  datatype Observation = Observation(poll: PollObs, fetch: FetchObs, elapsed: int)

  /** The errors the loop sends on its error channel. */
  datatype PollError =
    | Transport(cause: string)                // the HTTP client's own error, unwrapped
    | ReadBody(cause: string)                 // "error reading response body: ..."
    | HttpStatus(status: string, body: string) // "error with status code <status>: <body>"
    | Decode(cause: string)                   // "failed to parse JSON object: ..."
    | Remote(message: string)                 // the job was reported "faulted"
    | Timeout(limit: int)                     // "timeout exceeded: <limit>"

  const FaultedMessage: string := "There was an error processing your query"

  /** Everything the loop does that is visible outside it. */
  datatype Event =
    | SubmitJob(payload: Json.Map)   // POST of the job (issued before the loop)
    | StatusRequest(jobId: string)   // GET .../v1/queries/<id>
    | ResultsRequest(jobId: string)  // GET .../v1/queries/<id>/results
    | SendError(err: PollError)      // errChan <- err
    | CloseErrors                    // close(errChan)
    | CloseResponses                 // close(responseChan)
    | SendResponse(resp: Response)   // responseChan <- resp
    | Sleep                          // time.Sleep(DefaultWaitTime)

  /** The Go runtime panics on a send to, or a close of, a closed channel,
      and on reading a field through a nil pointer. */
  datatype PanicReason = SendOnClosedChannel | CloseOfClosedChannel | NilDereference

  // ---------------------------------------------------------------------
  // Request URLs

  /** The requests of an iteration are built with `http.NewRequest`, whose
      error the source discards; when the URL does not parse the request is
      nil and the `request.Header.Add` that follows panics. */
  const QueriesUrl: string := "https://" + "data.oxylabs.io" + "/v1/queries/"

  function StatusUrl(id: string): string
  {
    QueriesUrl + id
  }

  function ResultsUrl(id: string): string
  {
    QueriesUrl + id + "/results"
  }

  predicate IsControl(c: char)
  {
    c < ' ' || c == '\U{7F}'
  }

  predicate IsHex(c: char)
  {
    ('0' <= c <= '9') || ('a' <= c <= 'f') || ('A' <= c <= 'F')
  }

  /** The part of a URL a character belongs to: the path (up to the first
      "?" or "#"), the query, or the fragment (after the first "#"). */
  datatype Part = InPath | InQuery | InFragment

  /** `url.Parse` on the rest of `url` from position `i`: the fragment is
      cut off at the first "#" and only percent-decoded; before it no ASCII
      control character may appear; the path must percent-decode, every "%"
      being followed by two hex digits; the query is not decoded. */
  predicate ParsesFrom(url: string, i: nat, part: Part)
    decreases |url| - i
  {
    if i >= |url| then true
    else
      var c := url[i];
      var escapeOk := c != '%' || (i + 2 < |url| && IsHex(url[i + 1]) && IsHex(url[i + 2]));
      match part
      case InFragment => escapeOk && ParsesFrom(url, i + 1, InFragment)
      case _ =>
        if c == '#' then ParsesFrom(url, i + 1, InFragment)
        else if IsControl(c) then false
        else if part == InQuery || c == '?' then ParsesFrom(url, i + 1, InQuery)
        else escapeOk && ParsesFrom(url, i + 1, InPath)
  }

  /** Whether `url.Parse` accepts a URL whose scheme and host are well formed
      and hold none of "#", "?", "%" (both request URLs start with
      `QueriesUrl`). */
  predicate UrlParses(url: string)
  {
    ParsesFrom(url, 0, InPath)
  }

  /** No control character and no "%" from position `i` on: the rest
      parses, whatever part it starts in. */
  lemma {:induction false} PlainParses(url: string, i: nat, part: Part)
    requires forall j :: i <= j < |url| ==> !IsControl(url[j]) && url[j] != '%'
    ensures ParsesFrom(url, i, part)
    decreases |url| - i
  {
    if i < |url| {
      PlainParses(url, i + 1, InPath);
      PlainParses(url, i + 1, InQuery);
      PlainParses(url, i + 1, InFragment);
    }
  }

  /** Ordinary path characters are skipped one by one. */
  lemma {:induction false} PathSkips(url: string, i: nat, k: nat)
    requires i <= k <= |url|
    requires forall j :: i <= j < k ==> !IsControl(url[j]) && url[j] !in "#?%"
    ensures ParsesFrom(url, i, InPath) == ParsesFrom(url, k, InPath)
    decreases k - i
  {
    if i < k {
      PathSkips(url, i + 1, k);
    }
  }

  /** No control character and none of "#", "?", "%". */
  predicate PlainPath(s: string)
  {
    forall i :: 0 <= i < |s| ==> !IsControl(s[i]) && s[i] !in "#?%"
  }

  lemma PlainLiteral(s: string)
    requires forall c :: c in s ==> !IsControl(c) && c !in "#?%"
    ensures PlainPath(s)
  {
  }

  lemma QueriesUrlPlain()
    ensures PlainPath(QueriesUrl)
  {
    PlainLiteral("https://");
    PlainLiteral("data.oxylabs.io");
    PlainLiteral("/v1/queries/");
  }

  /** Every job id without control characters or "%", the empty id
      included, gives two request URLs that parse. */
  lemma PlainIdParses(id: string)
    requires forall i :: 0 <= i < |id| ==> !IsControl(id[i]) && id[i] != '%'
    ensures UrlParses(StatusUrl(id)) && UrlParses(ResultsUrl(id))
  {
    QueriesUrlPlain();
    assert forall c :: c in "/results" ==> !IsControl(c) && c != '%';
    PlainParses(StatusUrl(id), 0, InPath);
    PlainParses(ResultsUrl(id), 0, InPath);
  }

  /** An id holding a malformed escape makes the status URL unparsable. */
  lemma BadEscapeRefused()
    ensures !UrlParses(StatusUrl("%zz"))
  {
    var url := StatusUrl("%zz");
    var k := |QueriesUrl|;
    QueriesUrlPlain();
    PathSkips(url, 0, k);
    assert url[k] == '%' && url[k + 1] == 'z';
  }

  /** `AsWritten` is the loop in the source; `ReturnAfterSuccess` adds the
      `return` that the success branch lacks. */
  datatype Variant = AsWritten | ReturnAfterSuccess

  /** How one iteration ends: go round again with the updated job record and
      error-channel state, return from the goroutine, or panic. */
  datatype Next = Continue(job: Job, errorsClosed: bool) | Return | Panic(reason: PanicReason)

  datatype StepResult = StepResult(events: seq<Event>, next: Next)

  /** The error path: send the error, close the response channel, return. */
  function Fail(events: seq<Event>, errorsClosed: bool, e: PollError): StepResult
  {
    if errorsClosed then StepResult(events, Panic(SendOnClosedChannel))
    else StepResult(events + [SendError(e), CloseResponses], Return)
  }

  /** The timeout check and the sleep that end every iteration that has not
      returned. */
  function CheckTimeout(events: seq<Event>, job: Job, errorsClosed: bool, elapsed: int, timeout: int): StepResult
  {
    if elapsed > timeout then Fail(events, errorsClosed, Timeout(timeout))
    else StepResult(events + [Sleep], Continue(job, errorsClosed))
  }

  /** One iteration of the loop body. A request whose URL does not parse is
      nil, and the goroutine panics before sending it. */
  function Step(variant: Variant, job: Job, errorsClosed: bool, o: Observation, timeout: int): StepResult
  {
    if !UrlParses(StatusUrl(job.id)) then StepResult([], Panic(NilDereference))
    else
    var polled := [StatusRequest(job.id)];
    match o.poll
    case PollTransportError(cause) => Fail(polled, errorsClosed, Transport(cause))
    case PollReadError(cause) => Fail(polled, errorsClosed, ReadBody(cause))
    case PollNullBody => StepResult(polled, Panic(NilDereference))
    case PollBody(d) =>
      var job' := Merge(job, d);
      if job'.status == "done" then
        if !UrlParses(ResultsUrl(job'.id)) then StepResult(polled, Panic(NilDereference))
        else
        var fetched := polled + [ResultsRequest(job'.id)];
        match o.fetch
        case FetchTransportError(cause) => Fail(fetched, errorsClosed, Transport(cause))
        case FetchReadError(cause) => Fail(fetched, errorsClosed, ReadBody(cause))
        case FetchBody(code, status, body, decoded) =>
          if code != 200 then Fail(fetched, errorsClosed, HttpStatus(status, body))
          else if decoded.Failure? then Fail(fetched, errorsClosed, Decode(decoded.error))
          else if errorsClosed then StepResult(fetched, Panic(CloseOfClosedChannel))
          else
            var resp := decoded.value.(statusCode := code, status := status);
            var delivered := fetched + [CloseErrors, SendResponse(resp)];
            if variant == ReturnAfterSuccess then StepResult(delivered, Return)
            else CheckTimeout(delivered, job', true, o.elapsed, timeout)
      else if job'.status == "faulted" then Fail(polled, errorsClosed, Remote(FaultedMessage))
      else CheckTimeout(polled, job', errorsClosed, o.elapsed, timeout)
  }

  /** How a run over a finite sequence of observations ends. `Exhausted`
      means every observation was used and the loop would poll again. */
  datatype Stop = Returned | Panicked(reason: PanicReason) | Exhausted(job: Job, errorsClosed: bool)

  datatype Trace = Trace(events: seq<Event>, stop: Stop)

  /** The loop, iteration by iteration, until it returns, panics or runs out
      of observations. */
  function Run(variant: Variant, job: Job, errorsClosed: bool, obs: seq<Observation>, timeout: int): Trace
    decreases |obs|
  {
    if obs == [] then Trace([], Exhausted(job, errorsClosed))
    else
      var s := Step(variant, job, errorsClosed, obs[0], timeout);
      match s.next
      case Continue(job', closed') =>
        var rest := Run(variant, job', closed', obs[1..], timeout);
        Trace(s.events + rest.events, rest.stop)
      case Return => Trace(s.events, Returned)
      case Panic(reason) => Trace(s.events, Panicked(reason))
  }

  /** A trace preceded by the events that happened before it. */
  function After(events: seq<Event>, t: Trace): Trace
  {
    Trace(events + t.events, t.stop)
  }

  lemma AfterAfter(a: seq<Event>, b: seq<Event>, t: Trace)
    ensures After(a, After(b, t)) == After(a + b, t)
  {
    assert a + (b + t.events) == (a + b) + t.events;
  }

  /** `Run` on a non-empty sequence, one iteration at a time. */
  lemma RunUnfold(variant: Variant, job: Job, errorsClosed: bool, obs: seq<Observation>, timeout: int)
    requires obs != []
    ensures var s := Step(variant, job, errorsClosed, obs[0], timeout);
            Run(variant, job, errorsClosed, obs, timeout)
            == match s.next
               case Continue(job', closed') => After(s.events, Run(variant, job', closed', obs[1..], timeout))
               case Return => Trace(s.events, Returned)
               case Panic(reason) => Trace(s.events, Panicked(reason))
  {
  }

  /** One pass through the loop body as the goroutine runs it: poll the job
      status; after "done" fetch the results; after neither "done" nor
      "faulted", or after a delivered success, check the clock and sleep. */
  method PollOnce(variant: Variant, job: Job, errorsClosed: bool, o: Observation, timeout: int)
    returns (events: seq<Event>, next: Next)
    ensures StepResult(events, next) == Step(variant, job, errorsClosed, o, timeout)
  {
    if !UrlParses(StatusUrl(job.id)) {
      return [], Panic(NilDereference);
    }
    var current := job;
    var closed := errorsClosed;
    events := [StatusRequest(job.id)];
    var failure: Option<PollError> := None;
    match o.poll {
      case PollTransportError(cause) =>
        failure := Some(Transport(cause));
      case PollReadError(cause) =>
        failure := Some(ReadBody(cause));
      case PollNullBody =>
        return events, Panic(NilDereference);
      case PollBody(d) =>
        current := Merge(current, d);
        if current.status == "done" {
          if !UrlParses(ResultsUrl(current.id)) {
            return events, Panic(NilDereference);
          }
          events := events + [ResultsRequest(current.id)];
          match o.fetch {
            case FetchTransportError(cause) =>
              failure := Some(Transport(cause));
            case FetchReadError(cause) =>
              failure := Some(ReadBody(cause));
            case FetchBody(code, status, body, decoded) =>
              if code != 200 {
                failure := Some(HttpStatus(status, body));
              } else if decoded.Failure? {
                failure := Some(Decode(decoded.error));
              } else {
                if closed {
                  return events, Panic(CloseOfClosedChannel);
                }
                closed := true;
                events := events + [CloseErrors, SendResponse(decoded.value.(statusCode := code, status := status))];
                if variant == ReturnAfterSuccess {
                  return events, Return;
                }
              }
          }
        } else if current.status == "faulted" {
          failure := Some(Remote(FaultedMessage));
        }
    }
    if failure.None? && o.elapsed > timeout {
      failure := Some(Timeout(timeout));
    }
    if failure.Some? {
      if closed {
        return events, Panic(SendOnClosedChannel);
      }
      return events + [SendError(failure.value), CloseResponses], Return;
    }
    return events + [Sleep], Continue(current, closed);
  }

  /** The goroutine's `for` loop over the observations. It ends through one
      of the iteration's returns or panics; when the observations run out it
      stops where the next poll would be. */
  method PollLoop(variant: Variant, start: Job, obs: seq<Observation>, timeout: int)
    returns (events: seq<Event>, stop: Stop)
    ensures Trace(events, stop) == Run(variant, start, false, obs, timeout)
  {
    var job := start;
    var errorsClosed := false;
    events := [];
    var i := 0;
    while i < |obs|
      invariant 0 <= i <= |obs|
      invariant Run(variant, start, false, obs, timeout)
             == After(events, Run(variant, job, errorsClosed, obs[i..], timeout))
    {
      var stepEvents, next := PollOnce(variant, job, errorsClosed, obs[i], timeout);
      RunUnfold(variant, job, errorsClosed, obs[i..], timeout);
      assert obs[i..][0] == obs[i] && obs[i..][1..] == obs[i + 1..];
      match next {
        case Return =>
          return events + stepEvents, Returned;
        case Panic(reason) =>
          return events + stepEvents, Panicked(reason);
        case Continue(job', closed') =>
          AfterAfter(events, stepEvents, Run(variant, job', closed', obs[i + 1..], timeout));
          events, job, errorsClosed := events + stepEvents, job', closed';
      }
      i := i + 1;
    }
    stop := Exhausted(job, errorsClosed);
  }

  // ---------------------------------------------------------------------
  // Counting what a trace contains

  /** The kinds of event the properties below count. */
  datatype Kind = PollKind | FetchKind | ErrorKind | ResponseKind

  predicate IsKind(e: Event, k: Kind)
  {
    match k
    case PollKind => e.StatusRequest?
    case FetchKind => e.ResultsRequest?
    case ErrorKind => e.SendError?
    case ResponseKind => e.SendResponse?
  }

  function Count(events: seq<Event>, k: Kind): nat
  {
    if events == [] then 0
    else (if IsKind(events[0], k) then 1 else 0) + Count(events[1..], k)
  }

  /** Outcomes delivered to the caller: errors sent plus responses sent. */
  function Deliveries(events: seq<Event>): nat
  {
    Count(events, ErrorKind) + Count(events, ResponseKind)
  }

  lemma {:induction false} CountConcat(a: seq<Event>, b: seq<Event>, k: Kind)
    ensures Count(a + b, k) == Count(a, k) + Count(b, k)
  {
    if a != [] {
      assert (a + b)[0] == a[0];
      assert (a + b)[1..] == a[1..] + b;
      CountConcat(a[1..], b, k);
    } else {
      assert a + b == b;
    }
  }

  lemma CountSingle(e: Event, k: Kind)
    ensures Count([e], k) == if IsKind(e, k) then 1 else 0
  {
    assert [e][1..] == [];
  }

  /** A block of events with no HTTP request in it. */
  predicate NoRequests(events: seq<Event>)
  {
    forall i :: 0 <= i < |events| ==> !events[i].StatusRequest? && !events[i].ResultsRequest?
  }

  lemma {:induction false} NoRequestsCount(events: seq<Event>)
    requires NoRequests(events)
    ensures Count(events, PollKind) == 0 && Count(events, FetchKind) == 0
  {
    if events != [] {
      assert NoRequests(events[1..]) by {
        forall i | 0 <= i < |events[1..]| ensures !events[1..][i].StatusRequest? && !events[1..][i].ResultsRequest? {
          assert events[1..][i] == events[i + 1];
        }
      }
      NoRequestsCount(events[1..]);
    }
  }

  /** The requests an iteration issues: the status poll when its URL
      parses, and the results fetch when the decoded status is "done" and
      that URL parses too. */
  function Requests(job: Job, o: Observation): seq<Event>
  {
    if !UrlParses(StatusUrl(job.id)) then []
    else if Addressable(job, o) && PolledStatus(job, o, "done")
    then [StatusRequest(job.id), ResultsRequest(Merge(job, o.poll.decoded).id)]
    else [StatusRequest(job.id)]
  }

  /** Every iteration issues its requests first; nothing it does afterwards
      is an HTTP request. */
  lemma StepShape(variant: Variant, job: Job, errorsClosed: bool, o: Observation, timeout: int)
    ensures var s := Step(variant, job, errorsClosed, o, timeout);
            var r := Requests(job, o);
            |r| <= |s.events| && s.events[..|r|] == r && NoRequests(s.events[|r|..])
  {
    var s := Step(variant, job, errorsClosed, o, timeout);
    var r := Requests(job, o);
    if !UrlParses(StatusUrl(job.id)) {
      assert r == [];
    } else if Addressable(job, o) && PolledStatus(job, o, "done") {
      assert |r| == 2;
      match o.fetch
      case FetchBody(code, status, body, decoded) =>
        if code == 200 && decoded.Success? && !errorsClosed {
          assert s.events[2] == CloseErrors && s.events[3].SendResponse?;
          assert |s.events| <= 6;
        }
      case _ =>
    } else {
      assert |r| == 1;
    }
  }

  // ---------------------------------------------------------------------
  // Properties of one iteration

  /** A status poll that fails at the transport layer, or whose body cannot
      be read, ends the goroutine: the error is sent, the response channel is
      closed, and no later observation is consulted. */
  lemma PollFailureIsTerminal(variant: Variant, job: Job, o: Observation, rest: seq<Observation>, timeout: int)
    requires Addressable(job, o)
    requires o.poll.PollTransportError? || o.poll.PollReadError?
    ensures var e := if o.poll.PollTransportError? then Transport(o.poll.cause) else ReadBody(o.poll.cause);
            Run(variant, job, false, [o] + rest, timeout)
            == Trace([StatusRequest(job.id), SendError(e), CloseResponses], Returned)
  {
    RunUnfold(variant, job, false, [o] + rest, timeout);
  }

  /** An iteration polls the status once when the status URL parses, and
      fetches the results exactly once when moreover the decoded status is
      "done" and the results URL (from the id the job record has after the
      poll) parses, and never otherwise. */
  lemma OneFetchExactlyWhenDone(variant: Variant, job: Job, errorsClosed: bool, o: Observation, timeout: int)
    ensures var done := o.poll.PollBody? && Merge(job, o.poll.decoded).status == "done";
            var s := Step(variant, job, errorsClosed, o, timeout);
            && Count(s.events, PollKind) == (if UrlParses(StatusUrl(job.id)) then 1 else 0)
            && Count(s.events, FetchKind) == (if done && Addressable(job, o) then 1 else 0)
            && (done && Addressable(job, o) ==>
                  |s.events| >= 2 && s.events[1] == ResultsRequest(Merge(job, o.poll.decoded).id))
  {
    var s := Step(variant, job, errorsClosed, o, timeout);
    var r := Requests(job, o);
    StepShape(variant, job, errorsClosed, o, timeout);
    assert s.events == r + s.events[|r|..];
    CountConcat(r, s.events[|r|..], PollKind);
    CountConcat(r, s.events[|r|..], FetchKind);
    NoRequestsCount(s.events[|r|..]);
    CountSingle(StatusRequest(job.id), PollKind);
    CountSingle(StatusRequest(job.id), FetchKind);
    if r == [] {
      assert Count(r, PollKind) == 0 && Count(r, FetchKind) == 0;
    } else if |r| == 2 {
      CountConcat([r[0]], [r[1]], PollKind);
      CountConcat([r[0]], [r[1]], FetchKind);
      CountSingle(r[1], PollKind);
      CountSingle(r[1], FetchKind);
      assert [r[0]] + [r[1]] == r;
    }
  }

  /** Observation shapes used below. */
  predicate PolledStatus(job: Job, o: Observation, status: string)
  {
    o.poll.PollBody? && Merge(job, o.poll.decoded).status == status
  }

  /** The iteration's requests have URLs that parse: the status poll's, and
      the results fetch's when the decoded status is "done". */
  predicate Addressable(job: Job, o: Observation)
  {
    UrlParses(StatusUrl(job.id))
    && (PolledStatus(job, o, "done") ==> UrlParses(ResultsUrl(Merge(job, o.poll.decoded).id)))
  }

  predicate FetchSucceeds(o: Observation)
  {
    o.fetch.FetchBody? && o.fetch.statusCode == 200 && o.fetch.decoded.Success?
  }

  /** The response delivered for a successful fetch: the decoded results with
      the status code and status line of the HTTP response. */
  function Delivered(o: Observation): Response
    requires FetchSucceeds(o)
  {
    o.fetch.decoded.value.(statusCode := o.fetch.statusCode, status := o.fetch.status)
  }

  /** "faulted" sends the fixed error message without fetching anything. */
  lemma FaultedIsTerminal(variant: Variant, job: Job, o: Observation, timeout: int)
    requires Addressable(job, o) && PolledStatus(job, o, "faulted")
    ensures Step(variant, job, false, o, timeout)
         == StepResult([StatusRequest(job.id), SendError(Remote(FaultedMessage)), CloseResponses], Return)
  {
  }

  /** A status body that is the JSON literal `null` makes the decoder set the
      job pointer to nil; the status test that follows dereferences it and
      the goroutine panics, whatever had happened before. */
  lemma NullStatusBodyPanics(variant: Variant, job: Job, errorsClosed: bool, o: Observation, timeout: int)
    requires o.poll.PollNullBody?
    ensures Step(variant, job, errorsClosed, o, timeout)
         == StepResult(PolledIfAddressed(job), Panic(NilDereference))
  {
  }

  /** The status poll, when its URL parses. */
  function PolledIfAddressed(job: Job): seq<Event>
  {
    if UrlParses(StatusUrl(job.id)) then [StatusRequest(job.id)] else []
  }

  /** A request URL that does not parse leaves the request nil, and the
      goroutine panics before sending it: the status poll is sent only when
      its own URL parsed, and nothing reaches either channel. */
  lemma NilRequestPanics(variant: Variant, job: Job, errorsClosed: bool, o: Observation, timeout: int)
    requires !Addressable(job, o)
    ensures Step(variant, job, errorsClosed, o, timeout)
         == StepResult(PolledIfAddressed(job), Panic(NilDereference))
  {
  }

  /** A job id the server chose, such as one holding a malformed escape,
      crashes the goroutine before its next poll is sent. */
  lemma BadIdPanics(variant: Variant, job: Job, errorsClosed: bool, o: Observation, timeout: int)
    requires job.id == "%zz"
    ensures Step(variant, job, errorsClosed, o, timeout) == StepResult([], Panic(NilDereference))
  {
    BadEscapeRefused();
  }

  /** After "done", a results response with a status code other than 200
      sends an error carrying its status line and raw body; nothing is sent
      on the response channel. */
  lemma FetchStatusErrorIsTerminal(variant: Variant, job: Job, o: Observation, timeout: int)
    requires Addressable(job, o) && PolledStatus(job, o, "done")
    requires o.fetch.FetchBody? && o.fetch.statusCode != 200
    ensures var s := Step(variant, job, false, o, timeout);
            && s == StepResult(
                 [StatusRequest(job.id), ResultsRequest(Merge(job, o.poll.decoded).id),
                  SendError(HttpStatus(o.fetch.status, o.fetch.body)), CloseResponses], Return)
            && Count(s.events, ResponseKind) == 0
  {
    var s := Step(variant, job, false, o, timeout);
    NoResponseIn(s.events);
  }

  /** After "done", a 200 response whose body does not decode sends the
      decoding error; nothing is sent on the response channel. */
  lemma FetchDecodeErrorIsTerminal(variant: Variant, job: Job, o: Observation, timeout: int)
    requires Addressable(job, o) && PolledStatus(job, o, "done")
    requires o.fetch.FetchBody? && o.fetch.statusCode == 200 && o.fetch.decoded.Failure?
    ensures var s := Step(variant, job, false, o, timeout);
            && s == StepResult(
                 [StatusRequest(job.id), ResultsRequest(Merge(job, o.poll.decoded).id),
                  SendError(Decode(o.fetch.decoded.error)), CloseResponses], Return)
            && Count(s.events, ResponseKind) == 0
  {
    var s := Step(variant, job, false, o, timeout);
    NoResponseIn(s.events);
  }

  lemma {:induction false} NoResponseIn(events: seq<Event>)
    requires forall i :: 0 <= i < |events| ==> !events[i].SendResponse?
    ensures Count(events, ResponseKind) == 0
  {
    if events != [] {
      assert forall i :: 0 <= i < |events[1..]| ==> events[1..][i] == events[i + 1];
      NoResponseIn(events[1..]);
    }
  }

  /** After "done", a fetch that fails at the transport layer or whose body
      cannot be read ends the goroutine with that error. */
  lemma FetchFailureIsTerminal(variant: Variant, job: Job, o: Observation, timeout: int)
    requires Addressable(job, o) && PolledStatus(job, o, "done")
    requires o.fetch.FetchTransportError? || o.fetch.FetchReadError?
    ensures var e := if o.fetch.FetchTransportError? then Transport(o.fetch.cause) else ReadBody(o.fetch.cause);
            Step(variant, job, false, o, timeout)
            == StepResult([StatusRequest(job.id), ResultsRequest(Merge(job, o.poll.decoded).id),
                           SendError(e), CloseResponses], Return)
  {
  }

  /** A successful fetch closes the error channel and delivers the decoded
      response with the fetch's status code (200) and status line copied in.
      It is honoured even when the time budget has already run out, because
      the clock is read only afterwards. */
  lemma SuccessDelivers(variant: Variant, job: Job, o: Observation, timeout: int)
    requires Addressable(job, o) && PolledStatus(job, o, "done") && FetchSucceeds(o)
    ensures var s := Step(variant, job, false, o, timeout);
            && |s.events| >= 4
            && s.events[..4] == [StatusRequest(job.id), ResultsRequest(Merge(job, o.poll.decoded).id),
                                 CloseErrors, SendResponse(Delivered(o))]
            && Delivered(o).statusCode == 200 && Delivered(o).status == o.fetch.status
            && Delivered(o).results == o.fetch.decoded.value.results
            && (variant == ReturnAfterSuccess ==> s.next == Return && |s.events| == 4)
  {
  }

  /** In the source the success branch does not return: the loop falls
      through to the timeout check. Within the budget it sleeps and goes
      round again, now with the error channel closed; past the budget it
      sends the timeout error on the closed error channel and panics. */
  lemma SuccessFallsThrough(job: Job, o: Observation, timeout: int)
    requires Addressable(job, o) && PolledStatus(job, o, "done") && FetchSucceeds(o)
    ensures var s := Step(AsWritten, job, false, o, timeout);
            var delivered := [StatusRequest(job.id), ResultsRequest(Merge(job, o.poll.decoded).id),
                              CloseErrors, SendResponse(Delivered(o))];
            && (o.elapsed <= timeout ==>
                  s == StepResult(delivered + [Sleep], Continue(Merge(job, o.poll.decoded), true)))
            && (o.elapsed > timeout ==>
                  s == StepResult(delivered, Panic(SendOnClosedChannel)))
  {
  }

  /** The clock is consulted only for a status that is neither "done" nor
      "faulted": within the budget the loop sleeps and polls again, past it
      the loop ends with the timeout error. */
  lemma TimeoutCheckedLast(variant: Variant, job: Job, o: Observation, timeout: int)
    requires Addressable(job, o) && o.poll.PollBody?
    requires !PolledStatus(job, o, "done") && !PolledStatus(job, o, "faulted")
    ensures Step(variant, job, false, o, timeout)
         == if o.elapsed > timeout
            then StepResult([StatusRequest(job.id), SendError(Timeout(timeout)), CloseResponses], Return)
            else StepResult([StatusRequest(job.id), Sleep], Continue(Merge(job, o.poll.decoded), false))
  {
  }

  // ---------------------------------------------------------------------
  // Outcomes delivered over a whole run

  /** 1 when position `i` of `t` holds an event of kind `k`. */
  function At(t: seq<Event>, i: nat, k: Kind): nat
  {
    if i < |t| && IsKind(t[i], k) then 1 else 0
  }

  /** An iteration appends at most six events; they can be counted one by
      one. */
  lemma {:induction false} CountShort(t: seq<Event>, k: Kind)
    requires |t| <= 6
    ensures Count(t, k) == At(t, 0, k) + At(t, 1, k) + At(t, 2, k) + At(t, 3, k) + At(t, 4, k) + At(t, 5, k)
  {
    if t != [] {
      CountShort(t[1..], k);
      assert forall i: nat :: At(t[1..], i, k) == At(t, i + 1, k);
    }
  }

  /** Whether the outcome has been delivered once the iteration is over,
      given whether it had been before: after a return or a channel panic it
      has; after a nil dereference, exactly when it had been before; when the
      loop goes on, exactly when the error channel is closed (closing it is
      part of every success). */
  function SettledAfter(next: Next, errorsClosed: bool): nat
  {
    match next
    case Continue(_, closed) => if closed then 1 else 0
    case Return => 1
    case Panic(reason) => if reason == NilDereference && !errorsClosed then 0 else 1
  }

  /** An iteration delivers an outcome only if none had been delivered
      before it, and then it has delivered one exactly when it returns,
      panics, or goes on with the error channel closed. */
  lemma StepDeliveries(variant: Variant, job: Job, errorsClosed: bool, o: Observation, timeout: int)
    ensures var s := Step(variant, job, errorsClosed, o, timeout);
            (if errorsClosed then 1 else 0) + Deliveries(s.events) == SettledAfter(s.next, errorsClosed)
  {
    if errorsClosed {
      ClosedStepDeliversNothing(variant, job, o, timeout);
    } else if Addressable(job, o) && PolledStatus(job, o, "done") && FetchSucceeds(o) {
      SuccessStepDeliversResponse(variant, job, o, timeout);
    } else {
      OtherStepDeliversOnReturn(variant, job, o, timeout);
    }
  }

  lemma SuccessStepDeliversResponse(variant: Variant, job: Job, o: Observation, timeout: int)
    requires Addressable(job, o) && PolledStatus(job, o, "done") && FetchSucceeds(o)
    ensures var s := Step(variant, job, false, o, timeout);
            Deliveries(s.events) == 1 && SettledAfter(s.next, false) == 1
  {
    var s := Step(variant, job, false, o, timeout);
    CountShort(s.events, ErrorKind);
    CountShort(s.events, ResponseKind);
  }

  lemma OtherStepDeliversOnReturn(variant: Variant, job: Job, o: Observation, timeout: int)
    requires !(Addressable(job, o) && PolledStatus(job, o, "done") && FetchSucceeds(o))
    ensures var s := Step(variant, job, false, o, timeout);
            && (s.next.Return?
                || ((o.poll.PollNullBody? || !Addressable(job, o)) && s.next == Panic(NilDereference))
                || (o.poll.PollBody? && s.next == Continue(Merge(job, o.poll.decoded), false)))
            && Deliveries(s.events) == if s.next.Return? then 1 else 0
  {
    var s := Step(variant, job, false, o, timeout);
    CountShort(s.events, ErrorKind);
    CountShort(s.events, ResponseKind);
  }

  /** With the error channel already closed an iteration delivers nothing:
      every path that would deliver panics first. */
  lemma ClosedStepDeliversNothing(variant: Variant, job: Job, o: Observation, timeout: int)
    ensures var s := Step(variant, job, true, o, timeout);
            Deliveries(s.events) == 0 && (s.next.Panic? || s.next == Continue(Merge(job, o.poll.decoded), true))
  {
    var s := Step(variant, job, true, o, timeout);
    CountShort(s.events, ErrorKind);
    CountShort(s.events, ResponseKind);
  }

  lemma DeliveriesConcat(a: seq<Event>, b: seq<Event>)
    ensures Deliveries(a + b) == Deliveries(a) + Deliveries(b)
  {
    CountConcat(a, b, ErrorKind);
    CountConcat(a, b, ResponseKind);
  }

  /** In either variant a run delivers at most one outcome (an error sent or
      a response sent), counting one already delivered before it; a run that
      returns or panics on a channel has delivered it, and a run that is still
      polling has delivered it exactly when its error channel is closed. */
  lemma {:induction false} AtMostOneDelivery(variant: Variant, job: Job, errorsClosed: bool, obs: seq<Observation>, timeout: int)
    ensures var t := Run(variant, job, errorsClosed, obs, timeout);
            var already := if errorsClosed then 1 else 0;
            && already + Deliveries(t.events) <= 1
            && (t.stop.Returned? || (t.stop.Panicked? && t.stop.reason != NilDereference) ==>
                  already + Deliveries(t.events) == 1)
            && (t.stop.Exhausted? ==> already + Deliveries(t.events) == if t.stop.errorsClosed then 1 else 0)
    decreases |obs|
  {
    if obs != [] {
      var s := Step(variant, job, errorsClosed, obs[0], timeout);
      StepDeliveries(variant, job, errorsClosed, obs[0], timeout);
      match s.next
      case Continue(job', closed') =>
        var rest := Run(variant, job', closed', obs[1..], timeout);
        AtMostOneDelivery(variant, job', closed', obs[1..], timeout);
        DeliveriesConcat(s.events, rest.events);
      case Return =>
      case Panic(_) =>
    } else {
      assert Deliveries([]) == 0;
    }
  }

  /** A run that has returned ended with its delivery: the response, or the
      error followed by the closing of the response channel. */
  predicate EndsWithDelivery(events: seq<Event>)
  {
    |events| >= 2
    && (events[|events| - 1].SendResponse?
        || (events[|events| - 2].SendError? && events[|events| - 1] == CloseResponses))
  }

  /** One iteration of the corrected loop, started with the error channel
      open: it panics only on a `null` status body or a request URL that
      does not parse, goes on only with the channel still open, and when it
      returns its delivery is its last act. */
  lemma FixedStep(job: Job, o: Observation, timeout: int)
    ensures var s := Step(ReturnAfterSuccess, job, false, o, timeout);
            && (s.next.Panic? ==>
                  && (o.poll.PollNullBody? || !Addressable(job, o))
                  && s == StepResult(PolledIfAddressed(job), Panic(NilDereference)))
            && (s.next.Continue? ==> !s.next.errorsClosed)
            && (s.next.Return? ==> EndsWithDelivery(s.events))
  {
  }

  /** Once the `return` is added after a success, a run never panics on a
      channel and settles at most once: a run that returns has delivered
      exactly one outcome and that delivery is its last act (only the closing
      of the response channel may follow an error), while a run still polling,
      or one stopped by a `null` status body, has delivered nothing. */
  lemma {:induction false} FixedRunSettlesOnce(job: Job, obs: seq<Observation>, timeout: int)
    ensures var t := Run(ReturnAfterSuccess, job, false, obs, timeout);
            && (t.stop.Panicked? ==> t.stop.reason == NilDereference && Deliveries(t.events) == 0)
            && (t.stop.Returned? ==> Deliveries(t.events) == 1 && EndsWithDelivery(t.events))
            && (t.stop.Exhausted? ==> Deliveries(t.events) == 0 && !t.stop.errorsClosed)
    decreases |obs|
  {
    AtMostOneDelivery(ReturnAfterSuccess, job, false, obs, timeout);
    if obs != [] {
      var s := Step(ReturnAfterSuccess, job, false, obs[0], timeout);
      RunUnfold(ReturnAfterSuccess, job, false, obs, timeout);
      FixedStep(job, obs[0], timeout);
      StepDeliveries(ReturnAfterSuccess, job, false, obs[0], timeout);
      if s.next.Continue? {
        var rest := Run(ReturnAfterSuccess, s.next.job, false, obs[1..], timeout);
        FixedRunSettlesOnce(s.next.job, obs[1..], timeout);
        DeliveriesConcat(s.events, rest.events);
        if rest.stop.Returned? {
          var all := s.events + rest.events;
          assert all[|all| - 1] == rest.events[|rest.events| - 1];
          assert all[|all| - 2] == rest.events[|rest.events| - 2];
        }
      }
    }
  }

  /** The finding, as written: after a successful delivery the loop polls
      again, and a second "done" closes the already closed error channel, so
      the goroutine panics after issuing a second status poll and a second
      results fetch. */
  lemma SecondDoneAfterSuccessPanics(job: Job, o1: Observation, o2: Observation, rest: seq<Observation>, timeout: int)
    requires PolledStatus(job, o1, "done") && FetchSucceeds(o1) && o1.elapsed <= timeout
    requires PolledStatus(Merge(job, o1.poll.decoded), o2, "done") && FetchSucceeds(o2)
    requires Addressable(job, o1) && Addressable(Merge(job, o1.poll.decoded), o2)
    ensures var t := Run(AsWritten, job, false, [o1, o2] + rest, timeout);
            && t.stop == Panicked(CloseOfClosedChannel)
            && Count(t.events, PollKind) == 2
            && Count(t.events, FetchKind) == 2
            && Count(t.events, ResponseKind) == 1
  {
    var job1 := Merge(job, o1.poll.decoded);
    var obs := [o1, o2] + rest;
    RunUnfold(AsWritten, job, false, obs, timeout);
    assert obs[0] == o1 && obs[1..] == [o2] + rest;
    RunUnfold(AsWritten, job1, true, [o2] + rest, timeout);
    var s1 := Step(AsWritten, job, false, o1, timeout);
    var s2 := Step(AsWritten, job1, true, o2, timeout);
    assert s2.next == Panic(CloseOfClosedChannel);
    var t := Run(AsWritten, job, false, obs, timeout);
    assert t.events == s1.events + s2.events;
    OneFetchExactlyWhenDone(AsWritten, job, false, o1, timeout);
    OneFetchExactlyWhenDone(AsWritten, job1, true, o2, timeout);
    CountConcat(s1.events, s2.events, PollKind);
    CountConcat(s1.events, s2.events, FetchKind);
    CountConcat(s1.events, s2.events, ResponseKind);
    CountShort(s1.events, ResponseKind);
    CountShort(s2.events, ResponseKind);
  }

  /** The finding, as written: a success delivered after the time budget has
      run out is followed by a send of the timeout error on the closed error
      channel, a panic. */
  lemma LateSuccessPanics(job: Job, o: Observation, rest: seq<Observation>, timeout: int)
    requires Addressable(job, o)
    requires PolledStatus(job, o, "done") && FetchSucceeds(o) && o.elapsed > timeout
    ensures Run(AsWritten, job, false, [o] + rest, timeout).stop == Panicked(SendOnClosedChannel)
    ensures Run(ReturnAfterSuccess, job, false, [o] + rest, timeout).stop == Returned
  {
    RunUnfold(AsWritten, job, false, [o] + rest, timeout);
    RunUnfold(ReturnAfterSuccess, job, false, [o] + rest, timeout);
  }

  /** A "pending" poll within the budget: one status request and a sleep. */
  lemma PendingStep(variant: Variant, job: Job, o: Observation, timeout: int)
    requires UrlParses(StatusUrl(job.id))
    requires o.poll == PollBody(Fields(None, Some("pending"))) && o.elapsed <= timeout
    ensures var s := Step(variant, job, false, o, timeout);
            && s == StepResult([StatusRequest(job.id), Sleep], Continue(Merge(job, o.poll.decoded), false))
            && forall k :: Count(s.events, k) == if k == PollKind then 1 else 0
  {
    var s := Step(variant, job, false, o, timeout);
    forall k ensures Count(s.events, k) == if k == PollKind then 1 else 0 {
      CountShort(s.events, k);
    }
  }

  /** A "done" poll with a good fetch: one status request, one results
      request, one response, no error. */
  lemma DoneStep(variant: Variant, job: Job, o: Observation, timeout: int)
    requires UrlParses(StatusUrl(job.id)) && UrlParses(ResultsUrl(job.id))
    requires o.poll == PollBody(Fields(None, Some("done"))) && FetchSucceeds(o)
    ensures var s := Step(variant, job, false, o, timeout);
            && (forall k :: Count(s.events, k) == if k == ErrorKind then 0 else 1)
            && |s.events| >= 4 && s.events[3] == SendResponse(Delivered(o))
            && (variant == ReturnAfterSuccess ==> s.next == Return)
            && (variant == AsWritten && o.elapsed <= timeout ==> s.next.Continue?)
            && (variant == AsWritten && o.elapsed > timeout ==> s.next == Panic(SendOnClosedChannel))
  {
    var s := Step(variant, job, false, o, timeout);
    SuccessDelivers(variant, job, o, timeout);
    if variant == AsWritten {
      SuccessFallsThrough(job, o, timeout);
    }
    forall k ensures Count(s.events, k) == if k == ErrorKind then 0 else 1 {
      CountShort(s.events, k);
    }
  }

  /** How a run ends after its last observation's iteration. */
  function FinalStop(next: Next): Stop
  {
    match next
    case Continue(job, closed) => Exhausted(job, closed)
    case Return => Returned
    case Panic(reason) => Panicked(reason)
  }

  /** A run over three observations whose first two iterations go on. */
  lemma RunOfThree(variant: Variant, job: Job, o1: Observation, o2: Observation, o3: Observation, timeout: int)
    requires Step(variant, job, false, o1, timeout).next.Continue?
    requires var n1 := Step(variant, job, false, o1, timeout).next;
             Step(variant, n1.job, n1.errorsClosed, o2, timeout).next.Continue?
    ensures var s1 := Step(variant, job, false, o1, timeout);
            var s2 := Step(variant, s1.next.job, s1.next.errorsClosed, o2, timeout);
            var s3 := Step(variant, s2.next.job, s2.next.errorsClosed, o3, timeout);
            Run(variant, job, false, [o1, o2, o3], timeout)
            == Trace(s1.events + s2.events + s3.events, FinalStop(s3.next))
  {
    var s1 := Step(variant, job, false, o1, timeout);
    var s2 := Step(variant, s1.next.job, s1.next.errorsClosed, o2, timeout);
    var s3 := Step(variant, s2.next.job, s2.next.errorsClosed, o3, timeout);
    assert [o1, o2, o3][0] == o1 && [o1, o2, o3][1..] == [o2, o3];
    assert [o2, o3][0] == o2 && [o2, o3][1..] == [o3];
    assert [o3][0] == o3 && [o3][1..] == [];
    RunUnfold(variant, job, false, [o1, o2, o3], timeout);
    RunUnfold(variant, s1.next.job, s1.next.errorsClosed, [o2, o3], timeout);
    RunUnfold(variant, s2.next.job, s2.next.errorsClosed, [o3], timeout);
    assert s1.events + (s2.events + s3.events) == s1.events + s2.events + s3.events;
  }

  lemma CountThree(a: seq<Event>, b: seq<Event>, c: seq<Event>, k: Kind)
    ensures Count(a + b + c, k) == Count(a, k) + Count(b, k) + Count(c, k)
  {
    CountConcat(a + b, c, k);
    CountConcat(a, b, k);
  }

  /** Two "pending" polls within the budget and then "done" with a good
      fetch: three status polls, one results fetch, one response delivered
      and no error. The corrected loop returns there; the loop as written
      goes on polling (within the budget) or panics (past it). */
  lemma PendingPendingDone(variant: Variant, job: Job, o1: Observation, o2: Observation, o3: Observation, timeout: int)
    requires UrlParses(StatusUrl(job.id)) && UrlParses(ResultsUrl(job.id))
    requires o1.poll == PollBody(Fields(None, Some("pending"))) && o1.elapsed <= timeout
    requires o2.poll == PollBody(Fields(None, Some("pending"))) && o2.elapsed <= timeout
    requires o3.poll == PollBody(Fields(None, Some("done"))) && FetchSucceeds(o3)
    ensures var t := Run(variant, job, false, [o1, o2, o3], timeout);
            && Count(t.events, PollKind) == 3
            && Count(t.events, FetchKind) == 1
            && Count(t.events, ResponseKind) == 1
            && Count(t.events, ErrorKind) == 0
            && SendResponse(Delivered(o3)) in t.events
            && (variant == ReturnAfterSuccess ==> t.stop == Returned)
            && (variant == AsWritten && o3.elapsed <= timeout ==> t.stop.Exhausted?)
            && (variant == AsWritten && o3.elapsed > timeout ==> t.stop == Panicked(SendOnClosedChannel))
  {
    var j1 := Merge(job, o1.poll.decoded);
    var j2 := Merge(j1, o2.poll.decoded);
    var s1 := Step(variant, job, false, o1, timeout);
    var s2 := Step(variant, j1, false, o2, timeout);
    var s3 := Step(variant, j2, false, o3, timeout);
    PendingStep(variant, job, o1, timeout);
    PendingStep(variant, j1, o2, timeout);
    DoneStep(variant, j2, o3, timeout);
    RunOfThree(variant, job, o1, o2, o3, timeout);
    var events := s1.events + s2.events + s3.events;
    CountThree(s1.events, s2.events, s3.events, PollKind);
    CountThree(s1.events, s2.events, s3.events, FetchKind);
    CountThree(s1.events, s2.events, s3.events, ResponseKind);
    CountThree(s1.events, s2.events, s3.events, ErrorKind);
    assert events[|s1.events| + |s2.events| + 3] == SendResponse(Delivered(o3));
  }
}
