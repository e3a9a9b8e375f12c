# oxylabs-sdk-go: asynchronous Google scraping, modelled in Dafny

This project models the asynchronous Google entry points of the Oxylabs Go
SDK and proves properties of the model. `ScrapeGoogleSearch` and
`ScrapeGoogleUrl` in `serp/google_async.go` each do the following:

- choose the caller's options;
- check them;
- write defaults into the options;
- build a JSON job payload and POST it;
- start a goroutine that polls the job status, fetching and delivering the
  results when the job is "done", and ending on an error, "faulted" or the
  time budget; it polls until it returns or panics (see Findings).

The caller blocks on an error channel until the goroutine either sends an
error or closes that channel, in which case the caller gets the response
channel. Also modelled are the helpers these calls rely on:

- the membership test and the URL check of `internal/utils.go`;
- the "fill if unset" setters of `ecommerce/defaults.go`.

Modules:

- `Wrappers`: `Option`, `Result`, and `Outcome` (a Go `error` return).
- `Json`: JSON values, as stored in Go's `map[string]interface{}`. A missing
  key reads as `Null`, as a Go map gives `nil`. The context maps, whose type
  is declared outside these files, are assumed to hold the same values.
- `Validators`: `InList`; `strings.Contains`; `ValidateURL`, with the URL
  parser as a function parameter.
- `Defaults`: the six setters as methods that write through to an options
  object or a context map, each specified by a pure "fill" function.
- `Poller`: the poll loop. The network and the clock are replaced by one
  observation per iteration. `Step` is one iteration, `Run` the whole loop,
  and `PollOnce`/`PollLoop` the imperative loop, proved equal to them. The
  outside effects of the loop (HTTP requests, channel sends and closes,
  sleeps) are recorded as a sequence of events. The Go runtime's panic on a
  send to, or a close of, a closed channel, and on a nil job pointer or a
  nil request (one whose URL did not parse), is an explicit way to stop.
  `Variant` selects the loop as written (`AsWritten`) or with the missing
  `return` added (`ReturnAfterSuccess`); see Findings.
- `GoogleAsync`: the two entry points as classes and methods, each proved
  equal to a pure description of the call (`SearchCall`, `UrlCall`), and
  properties of those descriptions.

## Model

| member | source | states |
|---|---|---|
| Validators.InList | internal/utils.go:10-17 | true exactly when some element of the list equals the value; false on the empty list |
| Validators.Contains | internal/utils.go:46 | `strings.Contains`: true exactly when the substring occurs at some index of the string |
| Validators.ValidateURL | internal/utils.go:20-51 | guards in order, the first failing one deciding the error: empty URL, parse failure (with the parser's error), missing scheme, missing host, and a host not containing the name (the foreign-host error for that name); success exactly when every guard passes |
| Validators.EmptyUrlNeverParsed | internal/utils.go:25-27 | the empty URL gets the empty-URL error whatever the parser would answer |
| Validators.HostContainingNameAccepted | internal/utils.go:46-48 | any host with the name anywhere inside it passes: containment, not equality |
| Validators.NotGoogleHostAccepted | internal/utils.go:46-48 | "notgoogle.example" passes the check for "google" |
| Validators.EvilHostRefused | internal/utils.go:46-48 | "evil.com" (scheme and host present) fails with the foreign-host error for "google" |
| Defaults.Options.constructor | ecommerce/defaults.go:15-47 | the option fields the setters write through |
| Defaults.Context.constructor | ecommerce/defaults.go:8-12 | a context map held by reference |
| Defaults.SetDefaultSortBy | ecommerce/defaults.go:8-12 | the context becomes `FillSortBy` of the old context; every other key is unchanged |
| Defaults.SetDefaultDomain | ecommerce/defaults.go:15-19 | the domain becomes "com" if it was empty, else is kept; only that field is written |
| Defaults.SetDefaultStartPage | ecommerce/defaults.go:22-26 | start page becomes 1 if it was 0, else kept |
| Defaults.SetDefaultPages | ecommerce/defaults.go:29-33 | pages becomes 1 if it was 0, else kept |
| Defaults.SetDefaultLimit | ecommerce/defaults.go:36-40 | limit becomes 48 if it was 0, else kept |
| Defaults.SetDefaultUserAgent | ecommerce/defaults.go:43-47 | user agent becomes "desktop" if it was empty, else kept |
| Defaults.FillIntSpec | ecommerce/defaults.go:22-40 | a numeric setter writes its default exactly over 0, keeps any other value, and leaves a non-zero value |
| Defaults.FillStringSpec | ecommerce/defaults.go:15-19 | a string setter writes its default exactly over "", keeps any other value, and leaves a non-empty value |
| Defaults.FillIdempotent | ecommerce/defaults.go:8-47 | running any setter twice is the same as running it once |
| Defaults.NumericDefaultsNonZero | ecommerce/defaults.go:22-40 | after the numeric setters no value is 0; a non-negative input ends at least 1; a negative start page, page count or limit is kept as it is |
| Defaults.FillSortBySpec | ecommerce/defaults.go:8-12 | only "sort_by" may change; it becomes "r" only when it held the empty string; a missing key is left missing |
| Poller.PollOnce | serp/google_async.go:174-262 | the imperative loop body equals `Step`: the requests, channel operations and next state of one iteration |
| Poller.UrlParses | serp/google_async.go:176-180 | defines `url.Parse` on the request URLs: the fragment after the first "#" is only percent-decoded; before it no control character; the path before the first "?" must percent-decode |
| Poller.PlainIdParses | serp/google_async.go:176-180 | every id without control characters and "%", the empty id included, gives a status URL and a results URL that parse |
| Poller.BadEscapeRefused | serp/google_async.go:176-180 | the status URL of the id "%zz" does not parse |
| Poller.PollLoop | serp/google_async.go:172-263 | the imperative loop equals `Run` from the submitted job with the error channel open |
| Poller.Merge | serp/google_async.go:169-170 | defines the lenient decode into the job record (also line 199): a malformed body leaves the record, each field present in the body overwrites the stored one, an absent field is kept |
| Poller.Step | serp/google_async.go:174-262 | defines one iteration in the source's branch order: the status request (a nil request when its URL does not parse), poll errors, "done" (the results request, likewise, then fetch errors, non-200, decode error, success falling through), "faulted", then the timeout check and the sleep |
| Poller.Run | serp/google_async.go:172-263 | defines the loop as iterations until one returns or panics, or the observations run out |
| Poller.StepShape | serp/google_async.go:176-260 | an iteration issues its HTTP requests first (the status poll when its URL parses, then the results fetch after "done" when that URL parses) and no request after them |
| Poller.PollFailureIsTerminal | serp/google_async.go:176-196 | a failed or unreadable status poll sends that error, closes the response channel and returns, with no later observation used |
| Poller.OneFetchExactlyWhenDone | serp/google_async.go:176-206 | one status poll exactly when its URL parses; one results fetch exactly when moreover the merged status is "done" and the results URL for the merged job id parses |
| Poller.FaultedIsTerminal | serp/google_async.go:247-252 | "faulted" sends the fixed error message, closes the response channel and returns without fetching |
| Poller.NullStatusBodyPanics | serp/google_async.go:199-201 | a status body that is `null` sets the job pointer to nil, and the status test that follows panics, in either variant and whatever was delivered before, after the status poll (sent when its URL parses) |
| Poller.NilRequestPanics | serp/google_async.go:176-181 | when the status URL, or after "done" the results URL (lines 203-208), does not parse, `http.NewRequest`'s discarded error leaves the request nil and adding its header panics before it is sent; the status poll is sent only when its own URL parsed |
| Poller.BadIdPanics | serp/google_async.go:176-181 | the job id "%zz" (a malformed escape), as the server may set it, crashes the goroutine before any request of the iteration |
| Poller.FetchStatusErrorIsTerminal | serp/google_async.go:228-233 | a non-200 results response sends an error with its status line and body, and delivers no response |
| Poller.FetchDecodeErrorIsTerminal | serp/google_async.go:235-242 | an undecodable 200 body sends the decoding error, and delivers no response |
| Poller.FetchFailureIsTerminal | serp/google_async.go:210-224 | a failed or unreadable results fetch sends that error and returns |
| Poller.SuccessDelivers | serp/google_async.go:235-246 | a good fetch closes the error channel, then sends the decoded response with status code 200 and the status line copied in, even past the time budget |
| Poller.SuccessFallsThrough | serp/google_async.go:243-261 | as written, a success goes on to the timeout check: within budget it sleeps and continues with the error channel closed; past budget it panics sending the timeout error |
| Poller.TimeoutCheckedLast | serp/google_async.go:254-261 | a status other than "done"/"faulted" sends the timeout error past the budget, otherwise sleeps and polls again |
| Poller.StepDeliveries | serp/google_async.go:185-258 | an iteration delivers an outcome only if none was delivered before, and has delivered one exactly when it returns, panics on a channel, or goes on with the error channel closed; a nil-dereference panic leaves the count as it was |
| Poller.SuccessStepDeliversResponse | serp/google_async.go:243-246 | a successful iteration delivers exactly one outcome |
| Poller.OtherStepDeliversOnReturn | serp/google_async.go:176-258 | any other iteration returns having delivered one error, panics on a `null` status body or a nil request having delivered nothing, or goes on with nothing delivered and the channel open |
| Poller.ClosedStepDeliversNothing | serp/google_async.go:185-258 | with the error channel already closed, an iteration delivers nothing: it panics or goes on |
| Poller.AtMostOneDelivery | serp/google_async.go:172-263 | in both variants a run delivers at most one outcome; exactly one when it returns or panics on a channel; while polling, one exactly when the error channel is closed |
| Poller.FixedStep | serp/google_async.go:176-246 | with the return added, an iteration panics only on a `null` status body or a request URL that does not parse (with at most its status poll sent), goes on only with the error channel open, and returning ends with its delivery |
| Poller.FixedRunSettlesOnce | serp/google_async.go:172-263 | with the return added, a run never panics on a channel; a returned run delivered exactly one outcome as its last act; a run still polling, or stopped by a nil dereference, delivered nothing |
| Poller.SecondDoneAfterSuccessPanics | serp/google_async.go:245-246 | as written, a second "done" after a delivered success polls and fetches again, then panics closing the closed error channel |
| Poller.LateSuccessPanics | serp/google_async.go:245-258 | as written, a success past the budget panics sending the timeout error; with the return added it returns |
| Poller.PendingStep | serp/google_async.go:176-261 | a "pending" poll within the budget issues one status request and sleeps |
| Poller.DoneStep | serp/google_async.go:201-246 | a "done" poll with a good fetch issues one poll and one fetch, and delivers one response and no error |
| Poller.RunOfThree | serp/google_async.go:174-262 | three iterations, the first two going on, concatenate their events |
| Poller.PendingPendingDone | serp/google_async.go:172-263 | pending, pending, done: three polls, one fetch, one response, no error; the corrected loop returns, the loop as written keeps polling or panics |
| GoogleAsync.GoogleSearchOpts.constructor | serp/google_async.go:23 | the zero options `&GoogleSearchOpts{}` |
| GoogleAsync.GoogleUrlOpts.constructor | serp/google_async.go:288 | the zero options `&GoogleUrlOpts{}` |
| GoogleAsync.OnlyLastOptionsCount | serp/google_async.go:23-26 | the last element of `opts` is used, whatever precedes it; no options means fresh zero options |
| GoogleAsync.ChooseSearchOpts | serp/google_async.go:23-26 | defines the options used: the last element when it is not nil, otherwise fresh zero options |
| GoogleAsync.ChooseUrlOpts | serp/google_async.go:288-291 | the same choice for the URL call |
| GoogleAsync.BuildContext | serp/google_async.go:29-32 | defines the context map: the modifiers applied in order to an empty map |
| GoogleAsync.PaginationConflict | serp/google_async.go:35-37 | defines the conflict: a non-zero limit, start page or page count with a non-nil limit_per_page |
| GoogleAsync.WithSearchDefaults | serp/google_async.go:40-44 | defines the options after the five setters: each zero field filled with its default |
| GoogleAsync.WithUrlDefaults | serp/google_async.go:294 | defines the URL options after the user-agent setter |
| GoogleAsync.ConflictIgnoresDefaults | serp/google_async.go:35-44 | pagination left at zero is never flagged, though after any non-zero defaults it would be exactly when limit_per_page is set |
| GoogleAsync.SearchDefaultsFill | serp/google_async.go:40-44 | for any non-zero default values, after the five setters no filled field is zero; a field already set is kept; other fields are untouched; defaulting again changes nothing |
| GoogleAsync.ApplySearchDefaults | serp/google_async.go:40-44 | the options object becomes the defaulted options |
| GoogleAsync.SearchPayloadShape | serp/google_async.go:53-143 | with limit_per_page: no pagination keys, and a context list in the order that includes limit_per_page; without it: the three pagination keys with the option values, and the list without it; each entry carries the context's value for its key |
| GoogleAsync.PerPageListAddsLimitPerPage | serp/google_async.go:65-98 | the context list sent with limit_per_page is the other list with limit_per_page inserted third |
| GoogleAsync.ContextEntriesKeyed | serp/google_async.go:112-141 | each context entry is named by its key, in order, and holds the context's value (null when unset) |
| GoogleAsync.SearchPayload | serp/google_async.go:53-143 | defines the google_search payload, one shape with limit_per_page and one without |
| GoogleAsync.UrlPayload | serp/google_async.go:302-311 | defines the google payload: source, url, user agent, render, callback URL, geolocation and parse |
| GoogleAsync.Submission | serp/google_async.go:145-170 | defines a submission: the POST, its two errors, the `null` body, and otherwise the poll loop from the decoded job together with the caller's answer |
| GoogleAsync.AwaitErrors | serp/google_async.go:265-270 | defines the caller's answer: the first error sent, or the response channel once the error channel is closed, or none while neither has happened |
| GoogleAsync.SearchCall | serp/google_async.go:15-271 | defines a search call: the conflict check, the defaults, the validity check, then the submission of the search payload |
| GoogleAsync.UrlCall | serp/google_async.go:274-438 | defines a URL call: the URL check, the user-agent default, the validity check, then the submission of the URL payload |
| GoogleAsync.SubmitAndPoll | serp/google_async.go:145-270 | equals `Submission`: one POST of the payload; a failed or unreadable POST is returned; a `null` body crashes the goroutine; otherwise the loop runs from the leniently decoded job and the caller gets the first error or, on close, the response channel |
| GoogleAsync.ScrapeGoogleSearch | serp/google_async.go:15-271 | the call equals `SearchCall` on the options as they were; the chosen options object is left defaulted unless the call stopped at the conflict check |
| GoogleAsync.ScrapeGoogleUrl | serp/google_async.go:274-438 | the call equals `UrlCall` on the options as they were; the chosen options object is untouched when the URL is rejected, else gets the user-agent default |
| GoogleAsync.StepNeverSubmits | serp/google_async.go:174-262 | no iteration submits a job |
| GoogleAsync.LoopNeverResubmits | serp/google_async.go:172-263 | the poll loop never submits the job again |
| GoogleAsync.SearchChecksBeforeSubmit | serp/google_async.go:29-160 | a conflict is returned with no request sent; a request is sent exactly when both checks pass on the defaulted options; that request is the POST of the payload, and only the first event is a submission |
| GoogleAsync.UrlCheckedFirst | serp/google_async.go:281-312 | a rejected URL is returned with no request sent; a request is sent exactly when URL and options pass; it is the POST of the URL payload with the defaulted user agent |
| GoogleAsync.GoogleUrlSubmittedOnlyForGoogleHost | serp/google_async.go:282-285 | using the URL check of internal/utils.go, any URL that gets sent is non-empty and parses, with a scheme and a host containing "google" |
| GoogleAsync.SubmissionErrorsStopEarly | serp/google_async.go:156-165 | a failed or unreadable submission is the error returned; the POST is the only request and no loop starts |
| GoogleAsync.NullSubmissionCrashes | serp/google_async.go:169-178 | a `null` submission body leaves the job pointer nil: the goroutine panics on its first request, no poll is sent, and the caller has no answer |
| GoogleAsync.MalformedSubmissionPollsEmptyId | serp/google_async.go:168-180 | an undecodable submission body still starts the loop, which polls job id "" |
| GoogleAsync.AwaitErrorReply | serp/google_async.go:265-268 | an error sent before the error channel is closed is what the caller returns |
| GoogleAsync.AwaitResponseReply | serp/google_async.go:245-246 | closing the error channel hands the caller the response channel, carrying the response sent next |
| GoogleAsync.FixedStepAnswer | serp/google_async.go:174-262 | with the return added, an iteration that goes on or panics on a nil dereference has told the caller nothing, and one that returns has answered exactly once |
| GoogleAsync.FixedLoopAnswersOnce | serp/google_async.go:172-270 | with the return added, a loop panics only on a nil dereference; once returned, the caller has exactly one answer (the loop's error, or one response); while polling or after such a panic, the caller has no answer |
| GoogleAsync.FixedSubmissionAnswersOnce | serp/google_async.go:145-270 | the same for a whole call whose submission was read as a job record |

## Left out

- HTTP, basic authentication and headers: each request is an event, and
  each answer is an observation given as a parameter. Of `http.NewRequest`
  only the URL parse is modelled (`Poller.UrlParses`); it compares
  characters where Go compares bytes, which agree since every character it
  tests for is ASCII.
- GoogleAsync.Submission: takes the client's `BaseUrl` to parse. Were it not
  to, the discarded error of `http.NewRequest` would leave the POST request
  nil, and serp/google_async.go:155 (and 321) would panic before sending it.
- `json.Marshal` of the payload and its error branch
  (serp/google_async.go:145-148, 312-315): the payload is kept as a JSON map,
  and `Json.Value` cannot express a value Marshal rejects (a function, a
  channel or a NaN that a caller's context modifier might store), so that
  error is not modelled.
- The response decoder (`Response.UnmarshalJSON`): it is not part of this
  model. A results body comes with its decoded value or error already
  attached.
- Partial decoding: a job body that is not valid JSON leaves the job record
  unchanged (`Poller.Malformed`); the body `null` makes the job pointer nil
  (`PollNullBody`, `SubmitNullBody`). Otherwise each field present overwrites
  the stored one. A body that json.Unmarshal fails on half way is not
  modelled.
- The status code and status line of a status poll: the source never reads
  them, so they are not part of the observation.
- Time: `time.Since` is the observation's `elapsed`, and the time budget
  (`oxylabs.DefaultTimeout`) is the parameter `timeout`. The sleep is an
  event with no duration.
- Goroutine scheduling and channel blocking: one interleaving is modelled.
  The goroutine's events are in program order, and the caller reads the error
  channel from them. Every send is assumed to be received: the caller reads
  the error channel, and after a success it reads the response sent at
  serp/google_async.go:246. A caller that never does leaves the goroutine
  blocked there, which the model does not represent. A panic is a way for
  `Run` to stop; that it crashes the whole process is not modelled.
- `checkParameterValidity` of both option types: it is not part of this
  model, so the methods take it as a function parameter.
- `oxylabs.ValidateURL`: it is not part of this model, so
  `ScrapeGoogleUrl` takes the URL check as a parameter.
  `GoogleUrlSubmittedOnlyForGoogleHost` instantiates it with the check of
  internal/utils.go.
- `url.ParseRequestURI`: abstract (`Validators.Parser`).
- The serp package's own setters (serp/defaults.go): they are not part of this
  model. The calls fill in a zero field the way ecommerce/defaults.go does,
  with the default values given as a parameter (`GoogleAsync.SerpDefaults`);
  the properties proved hold for any non-zero values.
- `oxylabs.DOMAIN_COM` and `oxylabs.UA_DESKTOP` are taken as "com" and
  "desktop" in `Defaults`.
- Geolocation and render options: their Go types are declared outside these
  files. They are carried as the JSON values they are sent as, and their zero
  value is assumed to be `Null` (a pointer or interface). Were `Render` a
  string type like `Domain`, zero options would send `"render": ""` instead.
- `Parse` (of both option types) and `CallbackUrl`: their Go types are also
  declared outside these files; they are taken to be `bool` and `string`,
  as the values the payload sends.
- Defaults.NumericDefaultsNonZero: states "at least 1" only for a
  non-negative input. The code keeps a negative page count or limit as it is
  (a Go `int` can be negative), so "at least 1" does not hold for every input.
- Defaults.SetDefaultSortBy: the context's value type is declared outside
  these files and is taken to be `interface{}`. Then only a stored empty
  string is replaced and a missing key is left missing, since `nil` is not
  equal to "". Were the values `string`, a missing "sort_by" would read as ""
  and get the default (ecommerce/defaults.go:9).
- Validators.Contains: compares characters, where Go's `strings.Contains`
  compares bytes; the two agree on valid UTF-8 strings.
- Integer width: Go `int` values are copied unchanged and never computed with,
  so no wrap-around arises.

## Findings

| source | as written | input that shows it | evidently intended | confidence | as-written member | corrected member |
|---|---|---|---|---|---|---|
| serp/google_async.go:245-246 (and the same loop at 412-413) | after delivering a response the loop has no `return`. It falls through to the timeout check and the sleep, and polls the job again with the error channel closed | a job that reports "done" with a good results fetch, and then "done" again on the next poll. Or a "done" whose fetch succeeds after the time budget has run out. In both, the caller receives the response | return after the response is sent, as every error branch does, so that the goroutine answers once and ends | not executed | Poller.SecondDoneAfterSuccessPanics, Poller.LateSuccessPanics | Poller.FixedRunSettlesOnce, GoogleAsync.FixedLoopAnswersOnce |

How the findings play out:

- The second "done" re-fetches the results. It then closes the already closed
  error channel, and the goroutine panics.
- A late success sends the timeout error on the closed error channel and
  panics.
- Until then, the loop keeps issuing requests after the caller has been
  answered, and a response nobody receives blocks the goroutine.
- The corrected loop (`Variant.ReturnAfterSuccess`) never panics on a
  channel; only a nil dereference (a `null` status body, or a job id that
  makes a request URL unparsable) still crashes it. A returned loop has
  answered the caller exactly once.
