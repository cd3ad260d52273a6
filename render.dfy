/** render.js: the single-browser render server. Each `POST /render`
    launches its own browser, prepares the page against bot detection,
    applies the custom headers, watches the network (recording the main
    document's response headers), navigates with the requested timeout,
    optionally runs the form flow (skipping fields it cannot fill),
    answers with the page, and closes the browser. */
module Render {
  import opened Js
  import opened Driver
  import Observer
  import opened Form
  import opened Response

  const DefaultTimeoutMs: int := 60000
  const ViewportWidth: int := 1366
  const ViewportHeight: int := 768
  const FailurePrefix: string := "An error occurred: "

  /** The headers every page is given before the custom ones. */
  const DefaultHeaders: Headers := map[
    "Accept" := "text/html,application/xhtml+xml,application/xml;q=0.9,image/webp,*/*;q=0.8",
    "Accept-Language" := "en-US,en;q=0.5",
    "Accept-Encoding" := "gzip, deflate, br",
    "DNT" := "1",
    "Connection" := "keep-alive",
    "Upgrade-Insecure-Requests" := "1"]

  // ---------------------------------------------------------------------
  // The navigation timeout.

  /** `options.timeout`: missing, `null`, or a number of milliseconds. */
  datatype TimeoutField = Undefined | Null | Number(n: int)

  datatype Options = Options(timeout: TimeoutField)

  /** `options && options.timeout !== undefined ? options.timeout : 60000`. */
  function TimeoutValue(options: Option<Options>): (t: Timeout)
    ensures t == Ms(DefaultTimeoutMs) <==>
      options.None? || options.value.timeout.Undefined? || options.value.timeout == Number(DefaultTimeoutMs)
    ensures t.NullTimeout? <==> options.Some? && options.value.timeout.Null?
    ensures options.Some? && options.value.timeout.Number? ==> t == Ms(options.value.timeout.n)
  {
    if options.Some? && !options.value.timeout.Undefined? then
      match options.value.timeout
      case Null => NullTimeout
      case Number(n) => Ms(n)
    else Ms(DefaultTimeoutMs)
  }

  /** `Math.floor(timeoutValue / 2)`: the delay of the slow-navigation
      warning; `null / 2` is 0. */
  function WarningDelay(t: Timeout): (d: int)
    ensures t.NullTimeout? ==> d == 0
    ensures t.Ms? ==> 2 * d <= t.ms < 2 * d + 2
  {
    match t
    case NullTimeout => 0
    case Ms(ms) => ms / 2
  }

  /** A zero timeout is not replaced by the default: only a missing
      property is. */
  lemma ZeroTimeoutKept()
    ensures TimeoutValue(Some(Options(Number(0)))) == Ms(0)
    ensures WarningDelay(TimeoutValue(Some(Options(Number(0))))) == 0
    ensures TimeoutValue(Some(Options(Undefined))) == TimeoutValue(None) == Ms(DefaultTimeoutMs)
  {
  }

  // ---------------------------------------------------------------------
  // The handler as a function of the browser.

  /** The body of `POST /render`; absent properties are `None`. */
  datatype RenderRequest = RenderRequest(
    url: Option<string>,
    headers: Option<Entries>,
    options: Option<Options>,
    formData: Option<Entries>,
    formSelector: Option<string>,
    submitSelector: Option<string>)

  /** A request whose URL was found present. */
  datatype Job = Job(
    url: string,
    headers: Option<Entries>,
    options: Option<Options>,
    formData: Option<Entries>,
    formSelector: Option<string>,
    submitSelector: Option<string>)

  function JobOf(req: RenderRequest): Job
    requires req.url.Some?
  {
    Job(req.url.value, req.headers, req.options, req.formData, req.formSelector, req.submitSelector)
  }

  /** Launch, a new page, the user agent, the viewport, the
      anti-detection script and the default headers. */
  function BrowserPrep(): seq<Call> {
    [Launch, NewPage] + PagePrep()
  }

  /** The new page's user agent, viewport, script and default headers. */
  function PagePrep(): seq<Call> {
    [SetUserAgent(UserAgent), SetViewport(ViewportWidth, ViewportHeight),
     EvaluateOnNewDocument, SetExtraHTTPHeaders(DefaultHeaders)]
  }

  function SetupPlan(job: Job): seq<Call> {
    BrowserPrep() + NavigationPlan(job.headers, Goto(job.url, TimeoutValue(job.options)))
  }

  function SetupRun(job: Job, failing: map<Call, Thrown>): Run {
    RunAll(SetupPlan(job), failing)
  }

  /** The setup is the browser preparation followed, when that completes,
      by the navigation step. */
  lemma SetupRunSplit(job: Job, nav: Call, failing: map<Call, Thrown>)
    requires nav == Goto(job.url, TimeoutValue(job.options))
    ensures var prep := RunAll(BrowserPrep(), failing);
      && (prep.thrown.Some? ==> SetupRun(job, failing) == prep)
      && (prep.thrown.None? ==> prep.attempted == BrowserPrep())
      && (prep.thrown.None? ==>
            SetupRun(job, failing) ==
              Run(BrowserPrep() + RunAll(NavigationPlan(job.headers, nav), failing).attempted,
                  RunAll(NavigationPlan(job.headers, nav), failing).thrown))
  {
    RunAllAppend(BrowserPrep(), NavigationPlan(job.headers, nav), failing);
    RunAllStopsAtFirstThrow(BrowserPrep(), failing);
  }

  /** The form flow's calls, when the request asks for one. */
  function FormCalls(job: Job, failing: map<Call, Thrown>): seq<Call> {
    if FormRequested(job.formData, job.formSelector) then
      SkippingFlow(job.formSelector.value, job.formData.value, job.submitSelector, failing).attempted
    else []
  }

  /** The handler's `try` block up to the response: setup, the status of
      the navigation response, the form flow whose error is swallowed,
      the page content. `href` is `new URL(url).href`. */
  function JobSpec(job: Job, href: string, o: Oracle): TaskRun {
    var setup := SetupRun(job, o.failing);
    if setup.thrown.Some? then TaskRun(setup.attempted, Failed(setup.thrown.value))
    else if o.navResponse.None? then TaskRun(setup.attempted, Failed(NullResponseError))
    else
      var calls := setup.attempted + FormCalls(job, o.failing) + [Content];
      match Outcome(o.failing, Content)
      case Some(e) => TaskRun(calls, Failed(e))
      case None =>
        var watched := Observer.Replay(o.events, Some(href));
        TaskRun(calls, Rendered(RenderResult(o.html, o.navResponse.value.status, watched.responseHeaders,
                                             o.finalUrl, watched.calls)))
  }

  /** The whole handler: a 400 without a URL; a 500 with the exception's
      message when the job throws; otherwise a 200, then the browser is
      closed. A failure to close counts as an error although the 200 has
      already been sent; the `catch` then tries to send a 500 over the
      finished response, which throws in turn, so the handler's promise
      ends rejected. */
  function RenderSpec(req: RenderRequest, href: string, o: Oracle): Exchange {
    if !OptTruthy(req.url) then Exchange(HttpResponse(400, ErrorBody(UrlRequired)), [], 0, 0, false)
    else
      var t := JobSpec(JobOf(req), href, o);
      match t.completion
      case Failed(e) => Exchange(HttpResponse(500, ErrorBody(FailurePrefix + e.message)), t.calls, 0, 1, false)
      case Rendered(r) =>
        var closeFails := CloseBrowser in o.failing;
        Exchange(HttpResponse(200, ResultJson(r)), t.calls + [CloseBrowser], 1, if closeFails then 1 else 0, closeFails)
  }

  // ---------------------------------------------------------------------
  // Properties of the handler.

  /** Only the form flow's own kinds of call appear in it. */
  lemma SkippingFlowCalls(formSelector: string, fields: Entries, submitSelector: Option<string>, failing: map<Call, Thrown>)
    ensures forall c :: c in SkippingFlow(formSelector, fields, submitSelector, failing).attempted ==>
      c.WaitForSelector? || c.Type? || IsSubmission(c) || c.WaitForNavigation?
  {
    var submit := SubmitCall(formSelector, submitSelector);
    var navWait := WaitForNavigation(NavigationWaitMs);
    RunAllStopsAtFirstThrow([WaitForSelector(formSelector, FormWaitMs)], failing);
    RunAllStopsAtFirstThrow([submit, navWait], failing);
    FieldAttemptsShape(formSelector, fields, failing);
  }

  /** No call before the response closes the browser. */
  lemma NoCloseBeforeResponse(job: Job, href: string, o: Oracle)
    ensures CloseBrowser !in JobSpec(job, href, o).calls
  {
    var plan := SetupPlan(job);
    var headers := HeaderPlan(job.headers);
    var setup := SetupRun(job, o.failing);
    var form := FormCalls(job, o.failing);
    assert CloseBrowser !in plan by {
      assert forall c :: c in headers ==> c.SetExtraHTTPHeaders?;
      assert plan == BrowserPrep() + headers + [SetRequestInterception(true), Goto(job.url, TimeoutValue(job.options))];
    }
    assert CloseBrowser !in setup.attempted by {
      RunAllStopsAtFirstThrow(plan, o.failing);
      assert setup.attempted == plan[..|setup.attempted|];
    }
    assert CloseBrowser !in form by {
      if FormRequested(job.formData, job.formSelector) {
        SkippingFlowCalls(job.formSelector.value, job.formData.value, job.submitSelector, o.failing);
      }
    }
    assert CloseBrowser !in setup.attempted + form + [Content];
  }

  /** The job renders exactly when every setup call completes,
      navigation yields a response and reading the content completes; the
      form flow plays no part. */
  lemma JobRendersIff(job: Job, href: string, o: Oracle)
    ensures JobSpec(job, href, o).completion.Rendered? <==>
      && (forall c :: c in SetupPlan(job) ==> c !in o.failing)
      && o.navResponse.Some?
      && Content !in o.failing
  {
    var plan := SetupPlan(job);
    RunAllStopsAtFirstThrow(plan, o.failing);
    if SetupRun(job, o.failing).thrown.Some? {
      var a := SetupRun(job, o.failing).attempted;
      assert a[|a| - 1] == plan[|a| - 1];
    }
  }

  /** A request without a URL launches no browser and moves no counter. */
  lemma MissingUrlLaunchesNothing(req: RenderRequest, href: string, o: Oracle)
    requires !OptTruthy(req.url)
    ensures RenderSpec(req, href, o) == Exchange(HttpResponse(400, ErrorBody(UrlRequired)), [], 0, 0, false)
  {
  }

  /** With a URL, the browser is launched first. */
  lemma LaunchComesFirst(req: RenderRequest, href: string, o: Oracle)
    requires OptTruthy(req.url)
    ensures var x := RenderSpec(req, href, o); |x.calls| > 0 && x.calls[0] == Launch
  {
    var job := JobOf(req);
    var setup := SetupRun(job, o.failing);
    RunAllCons(Launch, SetupPlan(job)[1..], o.failing);
    assert SetupPlan(job) == [Launch] + SetupPlan(job)[1..];
    assert setup.attempted[0] == Launch;
  }

  /** The browser is closed exactly when the page was sent with a 200:
      a failed job leaves its browser open. */
  lemma ClosedOnlyAfterSuccess(req: RenderRequest, href: string, o: Oracle)
    ensures var x := RenderSpec(req, href, o);
      && (CloseBrowser in x.calls <==> x.response.status == 200)
      && (x.served == 1 <==> x.response.status == 200)
  {
    if OptTruthy(req.url) {
      NoCloseBeforeResponse(JobOf(req), href, o);
    }
  }

  /** Every request with a URL counts as served, as an error, or — when
      closing the browser fails after the 200 — as both. */
  lemma CountersOfOneRequest(req: RenderRequest, href: string, o: Oracle)
    requires OptTruthy(req.url)
    ensures var x := RenderSpec(req, href, o);
      && x.served + x.errors >= 1
      && (x.served == 1 && x.errors == 1 <==>
            JobSpec(JobOf(req), href, o).completion.Rendered? && CloseBrowser in o.failing)
      && (x.errors == 1 && x.served == 0 <==> x.response.status == 500)
      && (x.rejected <==> x.served == 1 && x.errors == 1)
  {
  }

  /** A 500 carries the message of the exception that ended the job. */
  lemma FailureCarriesMessage(req: RenderRequest, href: string, o: Oracle)
    requires RenderSpec(req, href, o).response.status == 500
    ensures OptTruthy(req.url)
    ensures var c := JobSpec(JobOf(req), href, o).completion;
      c.Failed? && RenderSpec(req, href, o).response.body == ErrorBody(FailurePrefix + c.error.message)
  {
  }

  /** A 200 carries a result the client reads back whole: its headers
      are those of the last response for the page's own URL (`{}` when
      none came) and its calls are the backend calls of the trace. */
  lemma SuccessBody(req: RenderRequest, href: string, o: Oracle)
    requires RenderSpec(req, href, o).response.status == 200
    ensures OptTruthy(req.url)
    ensures var r := ReadResult(RenderSpec(req, href, o).response.body);
      && r.Some?
      && r.value.headers == (match Observer.LastDocumentHeaders(o.events, href) case Some(h) => h case None => map[])
      && r.value.supabaseCalls == Observer.Captures(o.events)
      && r.value.page == o.html && r.value.finalUrl == o.finalUrl
      && o.navResponse.Some? && r.value.status == o.navResponse.value.status
  {
    var c := JobSpec(JobOf(req), href, o).completion;
    ReadResultJson(c.result);
    Observer.ReplayDocumentHeaders(o.events, href);
    Observer.ReplayCaptures(o.events, Some(href));
  }

  /** The form flow's failures are swallowed: whatever the form's calls
      do, a job renders or fails, and fails with the same error, exactly as
      the same job without a form does under any browser whose setup
      calls, navigation and content read behave alike. */
  lemma FormErrorsSwallowed(job: Job, href: string, o1: Oracle, o2: Oracle)
    requires forall k :: 0 <= k < |SetupPlan(job)| ==>
      Outcome(o1.failing, SetupPlan(job)[k]) == Outcome(o2.failing, SetupPlan(job)[k])
    requires Outcome(o1.failing, Content) == Outcome(o2.failing, Content)
    requires o1.navResponse.None? <==> o2.navResponse.None?
    ensures var c1 := JobSpec(job, href, o1).completion;
      var c2 := JobSpec(job.(formData := None), href, o2).completion;
      && (c1.Rendered? <==> c2.Rendered?)
      && (c1.Failed? ==> c1.error == c2.error)
  {
    assert SetupPlan(job) == SetupPlan(job.(formData := None));
    RunAllAgrees(SetupPlan(job), o1.failing, o2.failing);
  }

  // ---------------------------------------------------------------------
  // The handler.

  /** The server's state: the two counters the stats line prints. */
  class App {
    var servedRequests: nat
    var errorCount: nat

    constructor ()
      ensures servedRequests == 0 && errorCount == 0
    {
      servedRequests := 0;
      errorCount := 0;
    }

    /** Launch, new page, user agent, viewport, script, default headers. */
    /** The calls of `PagePrep`, awaited in order. */
    static method Configure(session: Session) returns (err: Option<Thrown>)
      modifies session
      ensures session.log == old(session.log) + RunAll(PagePrep(), session.oracle.failing).attempted
      ensures err == RunAll(PagePrep(), session.oracle.failing).thrown
    {
      ghost var failing := session.oracle.failing;
      var agent := SetUserAgent(UserAgent);
      var viewport := SetViewport(ViewportWidth, ViewportHeight);
      var defaults := SetExtraHTTPHeaders(DefaultHeaders);
      err := PerformPair(session, agent, viewport);
      ghost var log1 := session.log;
      if err.None? {
        err := PerformPair(session, EvaluateOnNewDocument, defaults);
        assert session.log == log1 + RunAll([EvaluateOnNewDocument, defaults], failing).attempted;
      }
      assert PagePrep() == [agent, viewport] + [EvaluateOnNewDocument, defaults];
      RunAllAppend([agent, viewport], [EvaluateOnNewDocument, defaults], failing);
      RunAllTwo(agent, viewport, failing);
    }

    static method Prepare(session: Session) returns (err: Option<Thrown>)
      modifies session
      ensures session.log == old(session.log) + RunAll(BrowserPrep(), session.oracle.failing).attempted
      ensures err == RunAll(BrowserPrep(), session.oracle.failing).thrown
    {
      ghost var failing := session.oracle.failing;
      ghost var page := PagePrep();
      err := PerformPair(session, Launch, NewPage);
      ghost var log1 := session.log;
      if err.None? {
        err := Configure(session);
        assert session.log == log1 + RunAll(page, failing).attempted;
      }
      RunAllAppend([Launch, NewPage], page, failing);
      RunAllTwo(Launch, NewPage, failing);
    }

    /** Everything up to and including the navigation. */
    static method Setup(session: Session, job: Job) returns (err: Option<Thrown>)
      modifies session
      ensures session.log == old(session.log) + SetupRun(job, session.oracle.failing).attempted
      ensures err == SetupRun(job, session.oracle.failing).thrown
    {
      ghost var failing := session.oracle.failing;
      var nav := Goto(job.url, TimeoutValue(job.options));
      ghost var second := RunAll(NavigationPlan(job.headers, nav), failing);
      err := Prepare(session);
      ghost var log1 := session.log;
      if err.None? {
        err := Navigate(session, job.headers, nav);
        assert session.log == log1 + second.attempted;
      }
      SetupRunSplit(job, nav, failing);
    }

    /** The form flow when the request asks for one; its error is dropped. */
    static method FillForm(session: Session, job: Job)
      modifies session
      ensures session.log == old(session.log) + FormCalls(job, session.oracle.failing)
    {
      if FormRequested(job.formData, job.formSelector) {
        var _ := FillSkipping(session, job.formSelector.value, job.formData.value, job.submitSelector);
      }
    }

    /** The handler's `try` block up to the response. */
    static method RenderPage(session: Session, job: Job, href: string) returns (completion: Completion)
      modifies session
      ensures session.log == old(session.log) + JobSpec(job, href, session.oracle).calls
      ensures completion == JobSpec(job, href, session.oracle).completion
    {
      var observer := new Observer.NetworkObserver(Some(href));
      var err := Setup(session, job);
      if err.Some? {
        return Failed(err.value);
      }
      if session.oracle.navResponse.None? {
        return Failed(NullResponseError);
      }
      var status := session.oracle.navResponse.value.status;
      FillForm(session, job);
      observer.Deliver(session.oracle.events);
      var finalUrl := session.oracle.finalUrl;
      err := session.Perform(Content);
      if err.Some? {
        return Failed(err.value);
      }
      var page := session.oracle.html;
      completion := Rendered(RenderResult(page, status, observer.responseHeaders, finalUrl, observer.supabaseCalls));
    }

    /** `POST /render`; `href` is `new URL(url).href`. */
    method PostRender(req: RenderRequest, href: string, session: Session) returns (response: HttpResponse, rejected: bool)
      modifies this, session
      ensures var x := RenderSpec(req, href, session.oracle);
        && response == x.response && rejected == x.rejected
        && session.log == old(session.log) + x.calls
        && servedRequests == old(servedRequests) + x.served
        && errorCount == old(errorCount) + x.errors
    {
      rejected := false;
      if !OptTruthy(req.url) {
        return HttpResponse(400, ErrorBody(UrlRequired)), false;
      }
      var completion := RenderPage(session, JobOf(req), href);
      match completion {
        case Failed(e) =>
          errorCount := errorCount + 1;
          response := HttpResponse(500, ErrorBody(FailurePrefix + e.message));
        case Rendered(r) =>
          servedRequests := servedRequests + 1;
          response := HttpResponse(200, ResultJson(r));
          var err := session.Perform(CloseBrowser);
          if err.Some? {
            errorCount := errorCount + 1;
            // The 500 the `catch` writes cannot follow the 200 already sent.
            rejected := true;
          }
      }
    }
  }
}
