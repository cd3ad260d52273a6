/** cluster.js: the pooled render server. A bearer-token check guards
    `POST /render`; the route hands the job to the pool and answers with
    the task's result or a 500 carrying the error; the task sets the user
    agent and the custom headers, watches the network for backend calls,
    navigates, optionally runs the form flow (abandoning it at its first
    failure) and returns the rendered page. */
module Cluster {
  import opened Js
  import opened Driver
  import Observer
  import opened Form
  import opened Response

  const NavigationTimeoutMs: int := 60000
  const MisconfiguredMessage: string := "Server misconfiguration: CRAWLY_BEARER_TOKEN not set"
  const UnauthorizedMessage: string := "Unauthorized"
  const ProcessingFailed: string := "An error occurred while processing the URL."

  // ---------------------------------------------------------------------
  // Bearer-token authentication.

  datatype AuthDecision = Allow | Deny(status: int, error: string)

  /** `authHeader && authHeader.split(' ')[1]`: an absent header stays
      absent, the empty header stays the empty string, and otherwise the
      second space-separated word, absent when there is none. */
  function Token(authHeader: Option<string>): (t: Option<string>)
    ensures authHeader.None? ==> t.None?
    ensures t.Some? ==> ' ' !in t.value
    ensures authHeader == Some("") ==> t == Some("")
  {
    match authHeader
    case None => None
    case Some(h) =>
      if h == "" then Some("")
      else
        var parts := Split(h);
        if |parts| > 1 then Some(parts[1]) else None
  }

  /** The middleware: a missing or empty expected token is a server
      misconfiguration (500); otherwise the token must equal it (401). */
  function Authenticate(authHeader: Option<string>, expected: Option<string>): (d: AuthDecision)
    ensures !OptTruthy(expected) ==> d == Deny(500, MisconfiguredMessage)
    ensures OptTruthy(expected) ==> d == Allow || d == Deny(401, UnauthorizedMessage)
    ensures d == Allow ==> authHeader.Some? && Token(authHeader) == expected
  {
    if !OptTruthy(expected) then Deny(500, MisconfiguredMessage)
    else if Token(authHeader) != Some(expected.value) then Deny(401, UnauthorizedMessage)
    else Allow
  }

  /** Joining two words and the split of a tail keeps the words in front. */
  lemma SplitTwoWords(scheme: string, token: string, rest: string)
    requires ' ' !in scheme && ' ' !in token
    ensures Split(scheme + " " + token + " " + rest) == [scheme, token] + Split(rest)
  {
    var p := Split(rest);
    var parts := [scheme, token] + p;
    assert parts[1..] == [token] + p;
    assert ([token] + p)[1..] == p;
    assert Join(parts) == scheme + " " + (token + " " + Join(p));
    assert scheme + " " + (token + " " + rest) == scheme + " " + token + " " + rest;
    SplitJoin(parts);
  }

  /** The token is the second space-separated word, whatever follows it. */
  lemma TokenIsSecondWord(scheme: string, token: string, rest: string)
    requires ' ' !in scheme && ' ' !in token
    ensures Token(Some(scheme + " " + token)) == Some(token)
    ensures Token(Some(scheme + " " + token + " " + rest)) == Some(token)
  {
    SplitJoin([scheme, token]);
    assert [scheme, token][1..] == [token];
    SplitTwoWords(scheme, token, rest);
  }

  /** Whatever scheme word precedes it, the right token is accepted. */
  lemma AuthAcceptsAnyScheme(scheme: string, token: string)
    requires ' ' !in scheme && ' ' !in token && Truthy(token)
    ensures Authenticate(Some(scheme + " " + token), Some(token)) == Allow
  {
    SplitJoin([scheme, token]);
    assert [scheme, token][1..] == [token];
  }

  /** Words after the token are ignored. */
  lemma AuthIgnoresTrailingWords(scheme: string, token: string, rest: string)
    requires ' ' !in scheme && ' ' !in token && Truthy(token)
    ensures Authenticate(Some(scheme + " " + token + " " + rest), Some(token)) == Allow
  {
    SplitTwoWords(scheme, token, rest);
  }

  /** A header with no space carries no token: with a valid expected token
      it is always refused, even when it equals that token. */
  lemma AuthRefusesHeaderWithoutSpace(h: string, expected: string)
    requires ' ' !in h && Truthy(expected)
    ensures Authenticate(Some(h), Some(expected)) == Deny(401, UnauthorizedMessage)
  {
    SplitJoin([h]);
  }

  /** An expected token containing a space can never be matched. */
  lemma AuthNeverMatchesSpacedToken(authHeader: Option<string>, expected: string)
    requires ' ' in expected
    ensures Authenticate(authHeader, Some(expected)) == Deny(401, UnauthorizedMessage)
  {
  }

  // ---------------------------------------------------------------------
  // The pool's task.

  /** The body of `POST /render`; absent properties are `None`. */
  datatype RenderRequest = RenderRequest(
    url: Option<string>,
    headers: Option<Entries>,
    formData: Option<Entries>,
    formSelector: Option<string>,
    submitSelector: Option<string>)

  /** The job the route queues: the request with its URL checked present. */
  datatype Job = Job(
    url: string,
    headers: Option<Entries>,
    formData: Option<Entries>,
    formSelector: Option<string>,
    submitSelector: Option<string>)

  function JobOf(req: RenderRequest): Job
    requires req.url.Some?
  {
    Job(req.url.value, req.headers, req.formData, req.formSelector, req.submitSelector)
  }

  /** User agent, one header call per entry, interception, navigation. */
  function SetupPlan(job: Job): seq<Call> {
    [SetUserAgent(UserAgent)] + NavigationPlan(job.headers, Goto(job.url, Ms(NavigationTimeoutMs)))
  }

  /** The setup run: its calls awaited in order, the first throw ending it. */
  function SetupRun(job: Job, failing: map<Call, Thrown>): Run {
    RunAll(SetupPlan(job), failing)
  }

  /** The form flow's calls, when the job asks for one. */
  function FormCalls(job: Job, failing: map<Call, Thrown>): seq<Call> {
    if FormRequested(job.formData, job.formSelector) then
      AbortingFlow(job.formSelector.value, job.formData.value, job.submitSelector, failing).attempted
    else []
  }

  /** The task under the browser `o`: setup, the status of the navigation
      response, the form flow whose error is swallowed, the page content. */
  function TaskSpec(job: Job, o: Oracle): TaskRun {
    var setup := SetupRun(job, o.failing);
    if setup.thrown.Some? then TaskRun(setup.attempted, Failed(setup.thrown.value))
    else if o.navResponse.None? then TaskRun(setup.attempted, Failed(NullResponseError))
    else
      var calls := setup.attempted + FormCalls(job, o.failing) + [Content];
      match Outcome(o.failing, Content)
      case Some(e) => TaskRun(calls, Failed(e))
      case None =>
        TaskRun(calls, Rendered(RenderResult(o.html, o.navResponse.value.status, o.navResponse.value.headers,
                                             o.finalUrl, Observer.Replay(o.events, None).calls)))
  }

  /** A job renders exactly when every setup call completes, navigation
      yields a response and reading the content completes; whatever the
      form flow does plays no part. */
  lemma TaskRendersIff(job: Job, o: Oracle)
    ensures TaskSpec(job, o).completion.Rendered? <==>
      && (forall c :: c in SetupPlan(job) ==> c !in o.failing)
      && o.navResponse.Some?
      && Content !in o.failing
  {
    var plan := SetupPlan(job);
    RunAllStopsAtFirstThrow(plan, o.failing);
    if RunAll(plan, o.failing).thrown.Some? {
      var a := RunAll(plan, o.failing).attempted;
      assert a[|a| - 1] == plan[|a| - 1];
    }
  }

  /** A failed job fails with the exception of the last call it made, or
      with the TypeError of reading the status of a null response after
      every setup call completed. */
  lemma TaskFailureIsLastCall(job: Job, o: Oracle)
    ensures var t := TaskSpec(job, o);
      t.completion.Failed? ==>
        || (|t.calls| > 0 && t.calls[|t.calls| - 1] in o.failing && t.completion.error == o.failing[t.calls[|t.calls| - 1]])
        || (t.calls == SetupPlan(job) && o.navResponse.None? && t.completion.error == NullResponseError)
  {
    RunAllStopsAtFirstThrow(SetupPlan(job), o.failing);
  }

  /** A rendered job made every setup call, the form flow's calls and
      one content read, in that order; its result carries the navigation
      response and exactly the backend calls of the trace. */
  lemma TaskRenderedResult(job: Job, o: Oracle)
    requires TaskSpec(job, o).completion.Rendered?
    ensures TaskSpec(job, o).calls == SetupPlan(job) + FormCalls(job, o.failing) + [Content]
    ensures var r := TaskSpec(job, o).completion.result;
      && o.navResponse == Some(NavResponse(r.status, r.headers))
      && r.page == o.html && r.finalUrl == o.finalUrl
      && r.supabaseCalls == Observer.Captures(o.events)
  {
    RunAllStopsAtFirstThrow(SetupPlan(job), o.failing);
    Observer.ReplayCaptures(o.events, None);
  }

  /** The form flow's failures are swallowed: whatever the form's calls
      do, a job renders or fails, and fails with the same error, exactly as
      the same job without a form does under any browser whose setup
      calls, navigation and content read behave alike. */
  lemma FormErrorsSwallowed(job: Job, o1: Oracle, o2: Oracle)
    requires forall k :: 0 <= k < |SetupPlan(job)| ==>
      Outcome(o1.failing, SetupPlan(job)[k]) == Outcome(o2.failing, SetupPlan(job)[k])
    requires Outcome(o1.failing, Content) == Outcome(o2.failing, Content)
    requires o1.navResponse.None? <==> o2.navResponse.None?
    ensures var c1 := TaskSpec(job, o1).completion;
      var c2 := TaskSpec(job.(formData := None), o2).completion;
      && (c1.Rendered? <==> c2.Rendered?)
      && (c1.Failed? ==> c1.error == c2.error)
  {
    assert SetupPlan(job) == SetupPlan(job.(formData := None));
    RunAllAgrees(SetupPlan(job), o1.failing, o2.failing);
  }

  // ---------------------------------------------------------------------
  // The route.

  function RouteSpec(authHeader: Option<string>, expected: Option<string>, req: RenderRequest, o: Oracle): Exchange {
    match Authenticate(authHeader, expected)
    case Deny(status, error) => Exchange(HttpResponse(status, ErrorBody(error)), [], 0, 0, false)
    case Allow =>
      if !OptTruthy(req.url) then Exchange(HttpResponse(400, ErrorBody(UrlRequired)), [], 0, 0, false)
      else
        var t := TaskSpec(JobOf(req), o);
        match t.completion
        case Rendered(r) => Exchange(HttpResponse(200, ResultJson(r)), t.calls, 1, 0, false)
        case Failed(e) => Exchange(HttpResponse(500, ErrorBody(ProcessingFailed + ErrorString(e))), t.calls, 0, 1, false)
  }

  /** A refused or URL-less request never reaches the browser and moves
      no counter. */
  lemma RouteRejectsBeforeBrowser(authHeader: Option<string>, expected: Option<string>, req: RenderRequest, o: Oracle)
    requires Authenticate(authHeader, expected) != Allow || !OptTruthy(req.url)
    ensures var x := RouteSpec(authHeader, expected, req, o);
      && x.calls == [] && x.served == 0 && x.errors == 0
      && x.response.status in {400, 401, 500}
      && (Authenticate(authHeader, expected) == Allow ==> x.response == HttpResponse(400, ErrorBody(UrlRequired)))
  {
  }

  /** Every request that reaches the pool moves exactly one counter:
      `servedRequests` with a 200, `errorCount` with a 500. */
  lemma RouteCountsEachJobOnce(authHeader: Option<string>, expected: Option<string>, req: RenderRequest, o: Oracle)
    requires Authenticate(authHeader, expected) == Allow && OptTruthy(req.url)
    ensures var x := RouteSpec(authHeader, expected, req, o);
      && x.served + x.errors == 1
      && (x.served == 1 <==> x.response.status == 200)
      && (x.errors == 1 <==> x.response.status == 500)
  {
  }

  /** A 200 carries the job's result, which the client reads back whole,
      with the backend calls of the trace. */
  lemma RouteSuccessBody(authHeader: Option<string>, expected: Option<string>, req: RenderRequest, o: Oracle)
    requires RouteSpec(authHeader, expected, req, o).response.status == 200
    ensures Authenticate(authHeader, expected) == Allow && req.url.Some?
    ensures var r := ReadResult(RouteSpec(authHeader, expected, req, o).response.body);
      && r.Some?
      && Some(r.value) == (var c := TaskSpec(JobOf(req), o).completion; if c.Rendered? then Some(c.result) else None)
      && r.value.supabaseCalls == Observer.Captures(o.events)
  {
    var c := TaskSpec(JobOf(req), o).completion;
    ReadResultJson(c.result);
    TaskRenderedResult(JobOf(req), o);
  }

  /** The server's state: the two counters the stats line prints. */
  class App {
    var servedRequests: nat
    var errorCount: nat

    constructor ()
      ensures servedRequests == 0 && errorCount == 0
    {
      servedRequests := 0;
      errorCount := 0;
    }

    /** The awaited setup calls; the first that throws ends the job. */
    static method Setup(session: Session, job: Job) returns (err: Option<Thrown>)
      modifies session
      ensures session.log == old(session.log) + SetupRun(job, session.oracle.failing).attempted
      ensures err == SetupRun(job, session.oracle.failing).thrown
    {
      ghost var failing := session.oracle.failing;
      var agent := SetUserAgent(UserAgent);
      var nav := Goto(job.url, Ms(NavigationTimeoutMs));
      ghost var rest := NavigationPlan(job.headers, nav);
      RunAllCons(agent, rest, failing);
      err := session.Perform(agent);
      if err.None? {
        ghost var log1 := session.log;
        err := Navigate(session, job.headers, nav);
        assert session.log == log1 + RunAll(rest, failing).attempted;
      }
    }

    /** The form flow when the job asks for one; its error is dropped. */
    static method FillForm(session: Session, job: Job)
      modifies session
      ensures session.log == old(session.log) + FormCalls(job, session.oracle.failing)
    {
      if FormRequested(job.formData, job.formSelector) {
        var _ := FillAborting(session, job.formSelector.value, job.formData.value, job.submitSelector);
      }
    }

    /** The pool's task for one job. */
    method Task(session: Session, job: Job) returns (completion: Completion)
      modifies this, session
      ensures session.log == old(session.log) + TaskSpec(job, session.oracle).calls
      ensures completion == TaskSpec(job, session.oracle).completion
      ensures servedRequests == old(servedRequests) + (if completion.Rendered? then 1 else 0)
      ensures errorCount == old(errorCount)
    {
      var observer := new Observer.NetworkObserver(None);
      var err := Setup(session, job);
      if err.Some? {
        return Failed(err.value);
      }
      if session.oracle.navResponse.None? {
        return Failed(NullResponseError);
      }
      var response := session.oracle.navResponse.value;
      FillForm(session, job);
      observer.Deliver(session.oracle.events);
      var finalUrl := session.oracle.finalUrl;
      err := session.Perform(Content);
      if err.Some? {
        return Failed(err.value);
      }
      var page := session.oracle.html;
      servedRequests := servedRequests + 1;
      completion := Rendered(RenderResult(page, response.status, response.headers, finalUrl, observer.supabaseCalls));
    }

    /** `POST /render` behind the authentication middleware. */
    method PostRender(authHeader: Option<string>, expected: Option<string>, req: RenderRequest, session: Session)
      returns (response: HttpResponse)
      modifies this, session
      ensures var x := RouteSpec(authHeader, expected, req, session.oracle);
        && response == x.response
        && session.log == old(session.log) + x.calls
        && servedRequests == old(servedRequests) + x.served
        && errorCount == old(errorCount) + x.errors
    {
      var decision := Authenticate(authHeader, expected);
      if decision.Deny? {
        return HttpResponse(decision.status, ErrorBody(decision.error));
      }
      if !OptTruthy(req.url) {
        return HttpResponse(400, ErrorBody(UrlRequired));
      }
      var completion := Task(session, JobOf(req));
      match completion {
        case Rendered(r) =>
          response := HttpResponse(200, ResultJson(r));
        case Failed(e) =>
          errorCount := errorCount + 1;
          response := HttpResponse(500, ErrorBody(ProcessingFailed + ErrorString(e)));
      }
    }
  }
}
