/** The two asynchronous entry points of serp/google_async.go,
    ScrapeGoogleSearch and ScrapeGoogleUrl: choosing the options, the checks
    made before anything is sent, defaulting the options in place, shaping
    the job payload, and then submitting the job and running the poll loop
    of module Poller. Network answers and the clock are given as a `World`;
    the parameter validity checks, whose code is not part of this model, are
    given as functions. */
module GoogleAsync {
  import opened Wrappers
  import opened Json
  import Defaults
  import Validators
  import Poller

  /** A context modifier: Go's `func(ContextOption)` that sets keys of the
      context map, seen as a function from the map before to the map after. */
  type ContextModifier = Json.Map -> Json.Map

  // -----------------------------------------------------------------------
  // Options

  /** The values of a `GoogleSearchOpts` that the call reads. Geolocation and
      render, whose Go types are declared elsewhere, are carried as the JSON
      values they are sent as; their zero value is taken to be `Null`.
      `Parse`, also declared elsewhere, is taken to be a `bool`. */
  datatype SearchParams = SearchParams(
    domain: string,
    startPage: int,
    pages: int,
    limit: int,
    geolocation: Value,
    userAgent: string,
    parse: bool,
    render: Value,
    context: seq<ContextModifier>)

  const ZeroSearchParams: SearchParams := SearchParams("", 0, 0, 0, Null, "", false, Null, [])

  /** `GoogleSearchOpts`, passed by pointer: the defaults are written into
      the caller's own struct. */
  class GoogleSearchOpts {
    var Domain: string
    var StartPage: int
    var Pages: int
    var Limit: int
    var Geolocation: Value
    var UserAgent: string
    var Parse: bool
    var Render: Value
    var Context: seq<ContextModifier>

    /** `&GoogleSearchOpts{}`: every field at its zero value. */
    constructor ()
      ensures Params() == ZeroSearchParams
    {
      Domain, StartPage, Pages, Limit := "", 0, 0, 0;
      Geolocation, UserAgent, Parse, Render, Context := Null, "", false, Null, [];
    }

    function Params(): SearchParams
      reads this
    {
      SearchParams(Domain, StartPage, Pages, Limit, Geolocation, UserAgent, Parse, Render, Context)
    }
  }

  /** The values of a `GoogleUrlOpts` that the call reads, with the same
      assumptions; `CallbackUrl` is taken to be a `string`. */
  datatype UrlParams = UrlParams(
    userAgent: string,
    render: Value,
    callbackUrl: string,
    geoLocation: Value,
    parse: bool)

  const ZeroUrlParams: UrlParams := UrlParams("", Null, "", Null, false)

  class GoogleUrlOpts {
    var UserAgent: string
    var Render: Value
    var CallbackUrl: string
    var GeoLocation: Value
    var Parse: bool

    constructor ()
      ensures Params() == ZeroUrlParams
    {
      UserAgent, Render, CallbackUrl, GeoLocation, Parse := "", Null, "", Null, false;
    }

    function Params(): UrlParams
      reads this
    {
      UrlParams(UserAgent, Render, CallbackUrl, GeoLocation, Parse)
    }
  }

  /** The options a call uses: the last element of the variadic `opts` when
      it is not nil, otherwise (`null` here) a fresh zero value. Earlier
      elements are never looked at. */
  function ChooseSearchOpts(opts: seq<GoogleSearchOpts?>): GoogleSearchOpts?
  {
    if |opts| > 0 && opts[|opts| - 1] != null then opts[|opts| - 1] else null
  }

  function ChooseUrlOpts(opts: seq<GoogleUrlOpts?>): GoogleUrlOpts?
  {
    if |opts| > 0 && opts[|opts| - 1] != null then opts[|opts| - 1] else null
  }

  /** The options object the caller passed last, the only one a call may
      write to. */
  function LastSearchOpts(opts: seq<GoogleSearchOpts?>): set<GoogleSearchOpts>
  {
    if ChooseSearchOpts(opts) == null then {} else {ChooseSearchOpts(opts)}
  }

  function LastUrlOpts(opts: seq<GoogleUrlOpts?>): set<GoogleUrlOpts>
  {
    if ChooseUrlOpts(opts) == null then {} else {ChooseUrlOpts(opts)}
  }

  lemma OnlyLastOptionsCount(earlier: seq<GoogleSearchOpts?>, last: GoogleSearchOpts?)
    ensures ChooseSearchOpts(earlier + [last]) == last
    ensures ChooseSearchOpts([]) == null
  {
  }

  /** The context map: each modifier applied in turn to an empty map. */
  function BuildContext(mods: seq<ContextModifier>): Json.Map
  {
    if mods == [] then map[] else mods[|mods| - 1](BuildContext(mods[..|mods| - 1]))
  }

  // -----------------------------------------------------------------------
  // Checks and defaults

  /** limit, start_page or pages given together with the limit_per_page
      context parameter. The caller's own values are tested, before any
      default is applied. */
  predicate PaginationConflict(p: SearchParams, ctx: Json.Map)
  {
    (p.limit != 0 || p.startPage != 0 || p.pages != 0) && Get(ctx, "limit_per_page") != Null
  }

  /** The values the serp package's own setters write. Those setters are not
      part of this model; they fill in a zero field the way the ecommerce
      setters do, with these values. */
  datatype SerpDefaults = SerpDefaults(domain: string, startPage: int, limit: int, pages: int, userAgent: string)
  {
    predicate NonZero()
    {
      domain != "" && startPage != 0 && limit != 0 && pages != 0 && userAgent != ""
    }
  }

  /** The search options after the five setters have run. */
  function WithSearchDefaults(p: SearchParams, defs: SerpDefaults): SearchParams
  {
    p.(domain := Defaults.FillString(p.domain, defs.domain),
       startPage := Defaults.FillInt(p.startPage, defs.startPage),
       limit := Defaults.FillInt(p.limit, defs.limit),
       pages := Defaults.FillInt(p.pages, defs.pages),
       userAgent := Defaults.FillString(p.userAgent, defs.userAgent))
  }

  function WithUrlDefaults(p: UrlParams, defs: SerpDefaults): UrlParams
  {
    p.(userAgent := Defaults.FillString(p.userAgent, defs.userAgent))
  }

  /** The conflict test reads the raw values: pagination left at zero is never
      flagged, although the defaults would make it non-zero, and a conflict
      is reported only alongside a limit_per_page value. */
  lemma ConflictIgnoresDefaults(p: SearchParams, ctx: Json.Map, defs: SerpDefaults)
    requires p.startPage == 0 && p.pages == 0 && p.limit == 0
    requires defs.NonZero()
    ensures !PaginationConflict(p, ctx)
    ensures PaginationConflict(WithSearchDefaults(p, defs), ctx) <==> Get(ctx, "limit_per_page") != Null
  {
  }

  /** The setters only fill in what is zero, and fill every such field. */
  lemma SearchDefaultsFill(p: SearchParams, defs: SerpDefaults)
    requires defs.NonZero()
    ensures var d := WithSearchDefaults(p, defs);
            && d.domain != "" && d.userAgent != ""
            && d.startPage != 0 && d.pages != 0 && d.limit != 0
            && (p.domain != "" ==> d.domain == p.domain)
            && (p.startPage != 0 ==> d.startPage == p.startPage)
            && (p.pages != 0 ==> d.pages == p.pages)
            && (p.limit != 0 ==> d.limit == p.limit)
            && (p.userAgent != "" ==> d.userAgent == p.userAgent)
            && d.geolocation == p.geolocation && d.parse == p.parse
            && d.render == p.render && d.context == p.context
            && WithSearchDefaults(d, defs) == d
  {
  }

  /** The five default setters, in the order the call runs them, writing into
      the options object. */
  method ApplySearchDefaults(opt: GoogleSearchOpts, defs: SerpDefaults)
    modifies opt
    ensures opt.Params() == WithSearchDefaults(old(opt.Params()), defs)
  {
    opt.Domain := Defaults.FillString(opt.Domain, defs.domain);
    opt.StartPage := Defaults.FillInt(opt.StartPage, defs.startPage);
    opt.Limit := Defaults.FillInt(opt.Limit, defs.limit);
    opt.Pages := Defaults.FillInt(opt.Pages, defs.pages);
    opt.UserAgent := Defaults.FillString(opt.UserAgent, defs.userAgent);
  }

  // -----------------------------------------------------------------------
  // Payloads

  /** The context keys sent without limit_per_page, in order. */
  const SearchContextKeys: seq<string> :=
    ["results_language", "filter", "nfpr", "safe_search", "fpstate", "tbm", "tbs"]

  /** The context keys sent with limit_per_page, in order. */
  const PerPageContextKeys: seq<string> :=
    ["results_language", "filter", "limit_per_page", "nfpr", "safe_search", "fpstate", "tbm", "tbs"]

  /** The payload keys both search shapes have. */
  const CommonSearchKeys: set<string> :=
    {"source", "domain", "query", "geo_location", "user_agent_type", "parse", "render", "context"}

  const PaginationKeys: set<string> := {"start_page", "pages", "limit"}

  /** One `{"key": k, "value": context[k]}` entry per key, in order. */
  function ContextEntries(ctx: Json.Map, keys: seq<string>): seq<Value>
  {
    seq(|keys|, i requires 0 <= i < |keys| => Object(map["key" := Str(keys[i]), "value" := Get(ctx, keys[i])]))
  }

  /** The keys of a context list, read back out of its entries. */
  function EntryKeys(entries: seq<Value>): seq<string>
  {
    seq(|entries|, i requires 0 <= i < |entries| =>
      if entries[i].Object? && "key" in entries[i].fields && entries[i].fields["key"].Str?
      then entries[i].fields["key"].s else "")
  }

  /** The google_search payload: with limit_per_page in the context the
      pagination fields are left out and the context list includes
      limit_per_page; otherwise the pagination fields are sent and it does
      not. */
  function SearchPayload(query: string, p: SearchParams, ctx: Json.Map): Json.Map
  {
    if Get(ctx, "limit_per_page") != Null then
      map[
        "source" := Str("google_search"),
        "domain" := Str(p.domain),
        "query" := Str(query),
        "geo_location" := p.geolocation,
        "user_agent_type" := Str(p.userAgent),
        "parse" := Bool(p.parse),
        "render" := p.render,
        "context" := List(ContextEntries(ctx, PerPageContextKeys))]
    else
      map[
        "source" := Str("google_search"),
        "domain" := Str(p.domain),
        "query" := Str(query),
        "start_page" := Int(p.startPage),
        "pages" := Int(p.pages),
        "limit" := Int(p.limit),
        "geo_location" := p.geolocation,
        "user_agent_type" := Str(p.userAgent),
        "parse" := Bool(p.parse),
        "render" := p.render,
        "context" := List(ContextEntries(ctx, SearchContextKeys))]
  }

  /** The two payload shapes: which keys each has, the order of its context
      keys, and that every context entry carries the context's value for its
      key (`Null` when unset). */
  lemma SearchPayloadShape(query: string, p: SearchParams, ctx: Json.Map)
    ensures var payload := SearchPayload(query, p, ctx);
            var perPage := Get(ctx, "limit_per_page") != Null;
            var keys := if perPage then PerPageContextKeys else SearchContextKeys;
            && payload.Keys == (if perPage then CommonSearchKeys else CommonSearchKeys + PaginationKeys)
            && payload["source"] == Str("google_search") && payload["query"] == Str(query)
            && (!perPage ==> payload["start_page"] == Int(p.startPage) && payload["pages"] == Int(p.pages)
                             && payload["limit"] == Int(p.limit))
            && payload["context"].List?
            && EntryKeys(payload["context"].items) == keys
            && (forall i :: 0 <= i < |keys| ==> payload["context"].items[i].fields["value"] == Get(ctx, keys[i]))
  {
    var payload := SearchPayload(query, p, ctx);
    if Get(ctx, "limit_per_page") != Null {
      ContextEntriesKeyed(ctx, PerPageContextKeys);
      assert payload.Keys == CommonSearchKeys;
    } else {
      ContextEntriesKeyed(ctx, SearchContextKeys);
      assert payload.Keys == CommonSearchKeys + PaginationKeys;
    }
  }

  /** The per-page context list is the other one with limit_per_page
      inserted third. */
  lemma PerPageListAddsLimitPerPage()
    ensures PerPageContextKeys == SearchContextKeys[..2] + ["limit_per_page"] + SearchContextKeys[2..]
    ensures "limit_per_page" !in SearchContextKeys
  {
  }

  /** Each context entry names its key, in order, and holds the context's
      value for it. */
  lemma ContextEntriesKeyed(ctx: Json.Map, keys: seq<string>)
    ensures var entries := ContextEntries(ctx, keys);
            && EntryKeys(entries) == keys
            && forall i :: 0 <= i < |keys| ==> entries[i].fields["value"] == Get(ctx, keys[i])
  {
  }

  /** The google payload for a URL scrape. */
  function UrlPayload(url: string, p: UrlParams): Json.Map
  {
    map[
      "source" := Str("google"),
      "url" := Str(url),
      "user_agent_type" := Str(p.userAgent),
      "render" := p.render,
      "callback_url" := Str(p.callbackUrl),
      "geo_location" := p.geoLocation,
      "parse" := Bool(p.parse)]
  }

  // -----------------------------------------------------------------------
  // Submission and the caller's view

  /** The POST that submits the job: the client's error, a body that cannot
      be read, or a body decoded (leniently) into an empty job record. */
  datatype SubmitObs =
    | SubmitTransportError(cause: string)
    | SubmitReadError(cause: string)
    | SubmitNullBody                         // the JSON literal `null`: the job pointer becomes nil
    | SubmitBody(decoded: Poller.JobDecode)

  /** Everything the network and the clock answer during one call. */
  datatype World = World(submit: SubmitObs, polls: seq<Poller.Observation>)

  /** The errors a call returns. */
  datatype ScrapeError =
    | InvalidUrl(reason: Validators.UrlError)  // the URL check failed
    | PaginationWithLimitPerPage               // limit/start_page/pages with limit_per_page
    | InvalidParameter(message: string)        // the options' own validity check failed
    | SubmitTransport(cause: string)           // the POST failed
    | SubmitRead(cause: string)                // "error reading response body: ..."
    | PollFailed(err: Poller.PollError)        // the first error the poll loop sent

  /** What the call returns to its caller: an error, the response channel
      (with the responses that will be sent on it), or nothing yet, while the
      caller is still blocked on the error channel. */
  datatype Answer = Failed(error: ScrapeError) | Channel(responses: seq<Poller.Response>) | Blocked

  /** A call: its answer, every request and channel operation in order, and
      how the poll loop stopped if it was started. */
  datatype Call = Call(answer: Answer, events: seq<Poller.Event>, loop: Option<Poller.Stop>)

  /** The responses sent on the response channel. */
  function ResponsesIn(events: seq<Poller.Event>): seq<Poller.Response>
  {
    if events == [] then []
    else (if events[0].SendResponse? then [events[0].resp] else []) + ResponsesIn(events[1..])
  }

  /** The caller waits on the error channel: the first error sent is
      returned; if the channel is closed first, the response channel is
      returned. */
  function AwaitErrors(events: seq<Poller.Event>): Answer
  {
    if events == [] then Blocked
    else match events[0]
      case SendError(e) => Failed(PollFailed(e))
      case CloseErrors => Channel(ResponsesIn(events[1..]))
      case _ => AwaitErrors(events[1..])
  }

  /** Submitting the payload, then (once the submission was read) running
      the poll loop from the decoded job and waiting on the error channel. A
      `null` body leaves the job pointer nil: the goroutine's first request
      reads its id and panics before sending anything, while the caller is
      still waiting. */
  function Submission(payload: Json.Map, world: World, variant: Poller.Variant, timeout: int): Call
  {
    var posted := [Poller.SubmitJob(payload)];
    match world.submit
    case SubmitTransportError(cause) => Call(Failed(SubmitTransport(cause)), posted, None)
    case SubmitReadError(cause) => Call(Failed(SubmitRead(cause)), posted, None)
    case SubmitNullBody => Call(Blocked, posted, Some(Poller.Panicked(Poller.NilDereference)))
    case SubmitBody(d) =>
      var t := Poller.Run(variant, Poller.Merge(Poller.Job("", ""), d), false, world.polls, timeout);
      Call(AwaitErrors(t.events), posted + t.events, Some(t.stop))
  }

  method SubmitAndPoll(payload: Json.Map, world: World, variant: Poller.Variant, timeout: int)
    returns (call: Call)
    ensures call == Submission(payload, world, variant, timeout)
  {
    var posted := [Poller.SubmitJob(payload)];
    match world.submit {
      case SubmitTransportError(cause) =>
        call := Call(Failed(SubmitTransport(cause)), posted, None);
      case SubmitReadError(cause) =>
        call := Call(Failed(SubmitRead(cause)), posted, None);
      case SubmitNullBody =>
        call := Call(Blocked, posted, Some(Poller.Panicked(Poller.NilDereference)));
      case SubmitBody(d) =>
        var job := Poller.Merge(Poller.Job("", ""), d);
        var events, stop := Poller.PollLoop(variant, job, world.polls, timeout);
        call := Call(AwaitErrors(events), posted + events, Some(stop));
    }
  }

  // -----------------------------------------------------------------------
  // The entry points

  /** The options as the search call leaves them: defaulted, unless the call
      stopped at the pagination check. */
  function SearchOptsAfter(p: SearchParams, defs: SerpDefaults): SearchParams
  {
    if PaginationConflict(p, BuildContext(p.context)) then p else WithSearchDefaults(p, defs)
  }

  /** ScrapeGoogleSearch on the chosen options `p`. */
  function SearchCall(query: string, p: SearchParams, defs: SerpDefaults,
                      check: (SearchParams, Json.Map) -> Option<string>,
                      world: World, variant: Poller.Variant, timeout: int): Call
  {
    var ctx := BuildContext(p.context);
    if PaginationConflict(p, ctx) then Call(Failed(PaginationWithLimitPerPage), [], None)
    else
      var d := WithSearchDefaults(p, defs);
      match check(d, ctx)
      case Some(message) => Call(Failed(InvalidParameter(message)), [], None)
      case None => Submission(SearchPayload(query, d, ctx), world, variant, timeout)
  }

  method ScrapeGoogleSearch(query: string, opts: seq<GoogleSearchOpts?>, defs: SerpDefaults,
                            check: (SearchParams, Json.Map) -> Option<string>,
                            world: World, variant: Poller.Variant, timeout: int)
    returns (call: Call)
    modifies LastSearchOpts(opts)
    ensures var chosen := ChooseSearchOpts(opts);
            call == SearchCall(query, if chosen == null then ZeroSearchParams else old(chosen.Params()),
                               defs, check, world, variant, timeout)
    ensures var chosen := ChooseSearchOpts(opts);
            chosen != null ==> chosen.Params() == SearchOptsAfter(old(chosen.Params()), defs)
  {
    var opt := ChooseSearchOpts(opts);
    if opt == null {
      opt := new GoogleSearchOpts();
    }
    var ctx: Json.Map := map[];
    for i := 0 to |opt.Context|
      invariant ctx == BuildContext(opt.Context[..i])
    {
      assert opt.Context[..i + 1][..i] == opt.Context[..i];
      ctx := opt.Context[i](ctx);
    }
    assert opt.Context[..|opt.Context|] == opt.Context;
    if (opt.Limit != 0 || opt.StartPage != 0 || opt.Pages != 0) && Get(ctx, "limit_per_page") != Null {
      return Call(Failed(PaginationWithLimitPerPage), [], None);
    }
    ApplySearchDefaults(opt, defs);
    var invalid := check(opt.Params(), ctx);
    if invalid.Some? {
      return Call(Failed(InvalidParameter(invalid.value)), [], None);
    }
    call := SubmitAndPoll(SearchPayload(query, opt.Params(), ctx), world, variant, timeout);
  }

  /** A URL check: the URL and the host name it must mention. */
  type UrlCheck = (string, string) -> Outcome<Validators.UrlError>

  /** ScrapeGoogleUrl on the chosen options `p`: the URL is checked before
      anything else. */
  function UrlCall(url: string, p: UrlParams, defs: SerpDefaults, validate: UrlCheck,
                   check: UrlParams -> Option<string>,
                   world: World, variant: Poller.Variant, timeout: int): Call
  {
    match validate(url, "google")
    case Fail(e) => Call(Failed(InvalidUrl(e)), [], None)
    case Pass =>
      var d := WithUrlDefaults(p, defs);
      match check(d)
      case Some(message) => Call(Failed(InvalidParameter(message)), [], None)
      case None => Submission(UrlPayload(url, d), world, variant, timeout)
  }

  method ScrapeGoogleUrl(url: string, opts: seq<GoogleUrlOpts?>, defs: SerpDefaults, validate: UrlCheck,
                         check: UrlParams -> Option<string>,
                         world: World, variant: Poller.Variant, timeout: int)
    returns (call: Call)
    modifies LastUrlOpts(opts)
    ensures var chosen := ChooseUrlOpts(opts);
            call == UrlCall(url, if chosen == null then ZeroUrlParams else old(chosen.Params()),
                            defs, validate, check, world, variant, timeout)
    ensures var chosen := ChooseUrlOpts(opts);
            chosen != null ==> chosen.Params() == if validate(url, "google").Fail? then old(chosen.Params())
                                                 else WithUrlDefaults(old(chosen.Params()), defs)
  {
    var valid := validate(url, "google");
    if valid.Fail? {
      return Call(Failed(InvalidUrl(valid.error)), [], None);
    }
    var opt := ChooseUrlOpts(opts);
    if opt == null {
      opt := new GoogleUrlOpts();
    }
    opt.UserAgent := Defaults.FillString(opt.UserAgent, defs.userAgent);
    var invalid := check(opt.Params());
    if invalid.Some? {
      return Call(Failed(InvalidParameter(invalid.value)), [], None);
    }
    call := SubmitAndPoll(UrlPayload(url, opt.Params()), world, variant, timeout);
  }

  // -----------------------------------------------------------------------
  // Properties of a call

  /** No event of the poll loop is a submission. */
  predicate NoSubmit(events: seq<Poller.Event>)
  {
    forall i :: 0 <= i < |events| ==> !events[i].SubmitJob?
  }

  lemma NoSubmitConcat(a: seq<Poller.Event>, b: seq<Poller.Event>)
    requires NoSubmit(a) && NoSubmit(b)
    ensures NoSubmit(a + b)
  {
    forall i | 0 <= i < |a + b|
      ensures !(a + b)[i].SubmitJob?
    {
      if i >= |a| {
        assert (a + b)[i] == b[i - |a|];
      }
    }
  }

  lemma StepNeverSubmits(variant: Poller.Variant, job: Poller.Job, errorsClosed: bool,
                         o: Poller.Observation, timeout: int)
    ensures NoSubmit(Poller.Step(variant, job, errorsClosed, o, timeout).events)
  {
    var s := Poller.Step(variant, job, errorsClosed, o, timeout);
    if Poller.Addressable(job, o) && Poller.PolledStatus(job, o, "done") {
      match o.fetch
      case FetchBody(code, status, body, decoded) =>
        if code == 200 && decoded.Success? && !errorsClosed {
          assert s.events[2] == Poller.CloseErrors && s.events[3].SendResponse?;
          assert |s.events| <= 5;
        }
      case _ =>
    }
  }

  /** The poll loop never submits the job again. */
  lemma {:induction false} LoopNeverResubmits(variant: Poller.Variant, job: Poller.Job, errorsClosed: bool,
                                              obs: seq<Poller.Observation>, timeout: int)
    ensures NoSubmit(Poller.Run(variant, job, errorsClosed, obs, timeout).events)
    decreases |obs|
  {
    if obs != [] {
      var s := Poller.Step(variant, job, errorsClosed, obs[0], timeout);
      Poller.RunUnfold(variant, job, errorsClosed, obs, timeout);
      StepNeverSubmits(variant, job, errorsClosed, obs[0], timeout);
      if s.next.Continue? {
        LoopNeverResubmits(variant, s.next.job, s.next.errorsClosed, obs[1..], timeout);
        NoSubmitConcat(s.events, Poller.Run(variant, s.next.job, s.next.errorsClosed, obs[1..], timeout).events);
      }
    }
  }

  /** A search call sends its request only after both checks have passed,
      on the defaulted options, and submits the job exactly once; a
      pagination conflict is reported before the validity check runs. */
  lemma SearchChecksBeforeSubmit(query: string, p: SearchParams, defs: SerpDefaults,
                                 check: (SearchParams, Json.Map) -> Option<string>,
                                 world: World, variant: Poller.Variant, timeout: int)
    ensures var c := SearchCall(query, p, defs, check, world, variant, timeout);
            var ctx := BuildContext(p.context);
            && (PaginationConflict(p, ctx) ==> c == Call(Failed(PaginationWithLimitPerPage), [], None))
            && (c.events != [] <==> !PaginationConflict(p, ctx) && check(WithSearchDefaults(p, defs), ctx).None?)
            && (c.events != [] ==> c.events[0] == Poller.SubmitJob(SearchPayload(query, WithSearchDefaults(p, defs), ctx))
                                   && NoSubmit(c.events[1..]))
  {
    var c := SearchCall(query, p, defs, check, world, variant, timeout);
    if c.events != [] && world.submit.SubmitBody? {
      var t := Poller.Run(variant, Poller.Merge(Poller.Job("", ""), world.submit.decoded), false, world.polls, timeout);
      LoopNeverResubmits(variant, Poller.Merge(Poller.Job("", ""), world.submit.decoded), false, world.polls, timeout);
      assert c.events[1..] == t.events;
    }
  }

  /** A URL call checks the URL before anything else: a rejected URL is
      returned as the error, with no request sent, whatever the options. */
  lemma UrlCheckedFirst(url: string, p: UrlParams, defs: SerpDefaults, validate: UrlCheck,
                        check: UrlParams -> Option<string>,
                        world: World, variant: Poller.Variant, timeout: int)
    ensures var c := UrlCall(url, p, defs, validate, check, world, variant, timeout);
            && (validate(url, "google").Fail? ==> c == Call(Failed(InvalidUrl(validate(url, "google").error)), [], None))
            && (c.events != [] <==> validate(url, "google").Pass? && check(WithUrlDefaults(p, defs)).None?)
            && (c.events != [] ==> c.events[0] == Poller.SubmitJob(UrlPayload(url, WithUrlDefaults(p, defs))))
  {
  }

  /** With the URL check of Validators, a URL call that sends anything was
      given a non-empty URL that parses, has a scheme, and has a host
      containing "google". */
  lemma GoogleUrlSubmittedOnlyForGoogleHost(url: string, p: UrlParams, defs: SerpDefaults, parse: Validators.Parser,
                                            check: UrlParams -> Option<string>,
                                            world: World, variant: Poller.Variant, timeout: int)
    ensures var validate := (u: string, h: string) => Validators.ValidateURL(u, h, parse);
            var c := UrlCall(url, p, defs, validate, check, world, variant, timeout);
            c.events != [] ==>
              && url != ""
              && parse(url).Success?
              && parse(url).value.scheme != ""
              && exists i :: Validators.OccursAt(parse(url).value.host, "google", i)
  {
    var validate := (u: string, h: string) => Validators.ValidateURL(u, h, parse);
    assert validate(url, "google") == Validators.ValidateURL(url, "google", parse);
  }

  /** A failed or unreadable submission is returned at once: the only
      request is the submission and no poll loop is started. */
  lemma SubmissionErrorsStopEarly(payload: Json.Map, world: World, variant: Poller.Variant, timeout: int)
    requires world.submit.SubmitTransportError? || world.submit.SubmitReadError?
    ensures var c := Submission(payload, world, variant, timeout);
            && c.answer.Failed?
            && (c.answer.error.SubmitTransport? || c.answer.error.SubmitRead?)
            && c.events == [Poller.SubmitJob(payload)]
            && c.loop == None
  {
  }

  /** A submission body that is `null` leaves the job pointer nil: the poll
      goroutine panics on its first request, and the caller never gets an
      answer. */
  lemma NullSubmissionCrashes(payload: Json.Map, world: World, variant: Poller.Variant, timeout: int)
    requires world.submit == SubmitNullBody
    ensures var c := Submission(payload, world, variant, timeout);
            && c.events == [Poller.SubmitJob(payload)]
            && c.loop == Some(Poller.Panicked(Poller.NilDereference))
            && c.answer == Blocked
  {
  }

  /** The submission body is decoded without checking for an error: when it
      is not a job record at all, the loop still starts and polls the job
      id "". */
  lemma MalformedSubmissionPollsEmptyId(payload: Json.Map, world: World, variant: Poller.Variant, timeout: int)
    requires world.submit == SubmitBody(Poller.Malformed) && world.polls != []
    ensures var c := Submission(payload, world, variant, timeout);
            |c.events| >= 2 && c.events[1] == Poller.StatusRequest("")
  {
    var job := Poller.Merge(Poller.Job("", ""), Poller.Malformed);
    Poller.PlainIdParses("");
    Poller.RunUnfold(variant, job, false, world.polls, timeout);
    Poller.StepShape(variant, job, false, world.polls[0], timeout);
  }

  /** No error sent and the error channel not closed. */
  predicate Quiet(events: seq<Poller.Event>)
  {
    forall i :: 0 <= i < |events| ==> !events[i].SendError? && !events[i].CloseErrors?
  }

  lemma {:induction false} AwaitSkipsQuiet(a: seq<Poller.Event>, b: seq<Poller.Event>)
    requires Quiet(a)
    ensures AwaitErrors(a + b) == AwaitErrors(b)
    decreases |a|
  {
    if a != [] {
      assert (a + b)[0] == a[0];
      assert !a[0].SendError? && !a[0].CloseErrors?;
      assert (a + b)[1..] == a[1..] + b;
      assert Quiet(a[1..]) by {
        forall i | 0 <= i < |a[1..]|
          ensures !a[1..][i].SendError? && !a[1..][i].CloseErrors?
        {
          assert a[1..][i] == a[i + 1];
        }
      }
      AwaitSkipsQuiet(a[1..], b);
      assert AwaitErrors(a + b) == AwaitErrors((a + b)[1..]);
    } else {
      assert a + b == b;
    }
  }

  /** An error sent after a quiet prefix is what the caller gets. */
  lemma AwaitErrorReply(pre: seq<Poller.Event>, e: Poller.PollError)
    requires Quiet(pre)
    ensures AwaitErrors(pre + [Poller.SendError(e), Poller.CloseResponses]) == Failed(PollFailed(e))
  {
    AwaitSkipsQuiet(pre, [Poller.SendError(e), Poller.CloseResponses]);
  }

  /** A closed error channel after a quiet prefix hands the caller the
      response channel, with the response sent next on it. */
  lemma AwaitResponseReply(pre: seq<Poller.Event>, r: Poller.Response)
    requires Quiet(pre)
    ensures AwaitErrors(pre + [Poller.CloseErrors, Poller.SendResponse(r)]) == Channel([r])
  {
    var tail := [Poller.CloseErrors, Poller.SendResponse(r)];
    AwaitSkipsQuiet(pre, tail);
    assert tail[1..] == [Poller.SendResponse(r)];
    assert ResponsesIn([Poller.SendResponse(r)]) == [r] by {
      assert [Poller.SendResponse(r)][1..] == [];
    }
    assert AwaitErrors(tail) == Channel(ResponsesIn(tail[1..]));
  }

  /** The caller has been answered exactly once: with the loop's error, or
      with the response channel carrying a single response. */
  predicate AnsweredOnce(a: Answer)
  {
    (a.Failed? && a.error.PollFailed?) || (a.Channel? && |a.responses| == 1)
  }

  /** One iteration of the corrected loop: going on, or stopped by a `null`
      status body or a request URL that does not parse, it has told the
      caller nothing; returning, it has answered the caller exactly once. */
  lemma FixedStepAnswer(job: Poller.Job, o: Poller.Observation, timeout: int)
    ensures var s := Poller.Step(Poller.ReturnAfterSuccess, job, false, o, timeout);
            && (s.next.Continue? ==> Quiet(s.events) && !s.next.errorsClosed)
            && (s.next.Return? ==> AnsweredOnce(AwaitErrors(s.events)))
            && (s.next.Panic? ==> Quiet(s.events) && s.next.reason == Poller.NilDereference)
  {
    var polled := [Poller.StatusRequest(job.id)];
    match o.poll
    case PollTransportError(cause) => AwaitErrorReply(polled, Poller.Transport(cause));
    case PollReadError(cause) => AwaitErrorReply(polled, Poller.ReadBody(cause));
    case PollNullBody =>
    case PollBody(d) =>
      var job' := Poller.Merge(job, d);
      if job'.status == "done" {
        var fetched := polled + [Poller.ResultsRequest(job'.id)];
        match o.fetch
        case FetchTransportError(cause) => AwaitErrorReply(fetched, Poller.Transport(cause));
        case FetchReadError(cause) => AwaitErrorReply(fetched, Poller.ReadBody(cause));
        case FetchBody(code, status, body, decoded) =>
          if code != 200 {
            AwaitErrorReply(fetched, Poller.HttpStatus(status, body));
          } else if decoded.Failure? {
            AwaitErrorReply(fetched, Poller.Decode(decoded.error));
          } else {
            AwaitResponseReply(fetched, decoded.value.(statusCode := code, status := status));
          }
      } else if job'.status == "faulted" {
        AwaitErrorReply(polled, Poller.Remote(Poller.FaultedMessage));
      } else if o.elapsed > timeout {
        AwaitErrorReply(polled, Poller.Timeout(timeout));
      }
  }

  /** The corrected loop answers the caller at most once and, once it has
      returned, exactly once; while it is still polling, or after a `null`
      status body or a nil request crashed it, the caller has had no answer. */
  lemma {:induction false} FixedLoopAnswersOnce(job: Poller.Job, obs: seq<Poller.Observation>, timeout: int)
    ensures var t := Poller.Run(Poller.ReturnAfterSuccess, job, false, obs, timeout);
            && (t.stop.Panicked? ==> t.stop.reason == Poller.NilDereference)
            && (t.stop.Returned? ==> AnsweredOnce(AwaitErrors(t.events)))
            && (t.stop.Exhausted? || t.stop.Panicked? ==> Quiet(t.events) && AwaitErrors(t.events) == Blocked)
    decreases |obs|
  {
    if obs != [] {
      var s := Poller.Step(Poller.ReturnAfterSuccess, job, false, obs[0], timeout);
      Poller.RunUnfold(Poller.ReturnAfterSuccess, job, false, obs, timeout);
      FixedStepAnswer(job, obs[0], timeout);
      if s.next.Continue? {
        var rest := Poller.Run(Poller.ReturnAfterSuccess, s.next.job, false, obs[1..], timeout);
        FixedLoopAnswersOnce(s.next.job, obs[1..], timeout);
        AwaitSkipsQuiet(s.events, rest.events);
        if rest.stop.Exhausted? || rest.stop.Panicked? {
          assert Quiet(s.events + rest.events) by {
            forall i | 0 <= i < |s.events + rest.events|
              ensures !(s.events + rest.events)[i].SendError? && !(s.events + rest.events)[i].CloseErrors?
            {
              if i >= |s.events| {
                assert (s.events + rest.events)[i] == rest.events[i - |s.events|];
              }
            }
          }
        }
      }
    }
  }

  /** A corrected call whose submission was read crashes only on a nil
      dereference (a `null` status body or a request URL that does not
      parse); it has answered exactly once when the loop has returned,
      and has not answered while the loop is still polling or after a crash. */
  lemma FixedSubmissionAnswersOnce(payload: Json.Map, world: World, timeout: int)
    requires world.submit.SubmitBody?
    ensures var c := Submission(payload, world, Poller.ReturnAfterSuccess, timeout);
            && c.loop.Some?
            && (c.loop.value.Panicked? ==> c.loop.value.reason == Poller.NilDereference)
            && (c.loop.value.Returned? ==> AnsweredOnce(c.answer))
            && (c.loop.value.Exhausted? || c.loop.value.Panicked? ==> c.answer == Blocked)
  {
    FixedLoopAnswersOnce(Poller.Merge(Poller.Job("", ""), world.submit.decoded), world.polls, timeout);
  }
}
