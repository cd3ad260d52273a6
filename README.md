# Render server model

A Dafny model of the two headless-browser render servers of this
repository. `cluster.js` serves `POST /render` from a pool of browser
contexts behind a bearer-token check. `render.js` launches one browser
per request. Both task bodies do the same things in order:

1. set a user agent and the caller's custom headers;
2. attach a network observer that times every request, captures backend
   (Supabase) API calls and lets every request continue;
3. navigate;
4. optionally fill and submit a form;
5. answer with the page, its status, headers, final URL and the
   captured calls.

The browser is not modelled. It is an oracle (`Driver.Oracle`) that says
which awaited page call throws, what `page.goto` resolves to (a response
or `null`), the final URL, the page HTML and the network events the page
emits. A `Driver.Session` logs every call the code awaits. Each
operation is proved against a pure specification of the calls it makes
and of how it ends.

Modules:

- `Js` (js.dfy): the JavaScript built-ins the code relies on. These are
  truthiness, `includes`, `split(' ')` with its inverse, `String(err)`
  and the JSON values sent back.
- `Observer` (observer.dfy): the `request` and `response` listeners.
  - They are pure steps over the listeners' state, and a class
    `NetworkObserver` with `OnRequest`, `OnResponse` and `Deliver`.
  - Replaying a trace is checked against reference definitions stated
    over the whole trace: captured calls and continued URLs in trace
    order, and the last event per URL and the last main-document response
    found from its end.
- `Driver` (driver.dfy): the calls a task body awaits, the oracle, the
  logging session, and `RunAll`, which awaits straight-line calls until
  the first throw. It also holds the header loop and the shared
  interception-plus-navigation step.
- `Form` (form.dfy): the form flow with two failure policies.
  - cluster.js abandons the flow at its first failing step
    (`AbortingFlow`).
  - render.js skips a field it cannot fill and still submits
    (`SkippingFlow`).
- `Response` (response.dfy): the result object, its JSON form with a
  reader that recovers it, the error bodies and the log line's URL label.
- `Cluster` (cluster.dfy, modelling cluster.js): `authenticateToken`, the pool task and the
  `/render` route, with the `servedRequests`/`errorCount` counters.
- `Render` (render.dfy, modelling render.js): the timeout rules and the `/render` handler, with
  its counters and the browser close.

A `browser.close()` that throws after the 200 has been sent is modelled
as written. `errorCount` grows as well as `servedRequests`, and the
response stays the 200 already sent. The `res.status(500).json(...)` in
the `catch` then throws, because the headers have gone out, so the
handler's promise ends rejected; `Response.Exchange` records this in its
`rejected` field.

## Model

| member | source | states |
|---|---|---|
| Js.ErrorString | cluster.js:269 | `String(err)` of an Error starts with the name and ends with the message; when both are non-empty exactly `": "` lies between them, otherwise nothing does |
| Js.Includes | cluster.js:115 | `includes` is true iff the substring occurs at some index |
| Js.Split | cluster.js:235 | `split(' ')` returns at least one part, no part holds a space, and joining the parts with spaces gives back the string |
| Js.SplitJoin | cluster.js:235 | splitting undoes joining when no part holds a space |
| Js.SplitWordPrefix | cluster.js:235 | a space-free word in front of a string only lengthens the first part of its split |
| Observer.RequestStep | cluster.js:106-128 | the request's URL gets a fresh `{startTime, method}` entry, overwriting any earlier one, and no other entry changes; a record of url, method, full headers and postData is appended iff the URL contains `supabase` and `apikey`, `Authorization` or `authorization` is truthy; the URL is always continued |
| Observer.ResponseStep | render.js:158-177 | a response with an entry deletes exactly that entry and is flagged slow iff its duration exceeds 5000 ms (strictly); without an entry the map is unchanged; `responseHeaders` is replaced iff the URL equals the job's normalised URL |
| Observer.ReplayCaptures | cluster.js:75-124 | after a trace, `supabaseCalls` is exactly the trace's backend calls in request order |
| Observer.CapturesOnlyGrow | cluster.js:119-124 | later events only append to `supabaseCalls`; earlier records never change |
| Observer.ReplayContinues | cluster.js:127 | every request of the trace is continued, in order, captured or not |
| Observer.ReplayTimings | cluster.js:109-112 | a URL has a timing entry iff the last event about it is a request, and the entry is that request's time and method |
| Observer.ReplayDocumentHeaders | render.js:155-176 | `responseHeaders` is the headers of the last response for the normalised URL, or `{}` if there was none |
| Observer.ReplayKeepsNoHeaders | cluster.js:130-141 | cluster.js's listener never records headers |
| Observer.NetworkObserver.OnRequest | cluster.js:106-128 | the listener's new state is the request step of its old state |
| Observer.NetworkObserver.OnResponse | cluster.js:130-141 | the listener's new state is the response step of its old state; it reports slow iff an entry existed and the duration exceeds 5000 ms |
| Observer.NetworkObserver.Deliver | render.js:128-177 | delivering events in order leaves the state of replaying them |
| Driver.HeaderCallsAppend | cluster.js:69-71 | the header calls of joined entry lists are those of each list, in order |
| Driver.RunAllStopsAtFirstThrow | cluster.js:65-151 | straight-line awaits run a prefix of their plan; the run completes iff no call of the plan throws; otherwise it ends at the first call that throws and rethrows that call's exception |
| Driver.RunAllAppend | cluster.js:65-151 | the second half of a plan starts only when every call of the first half completed |
| Driver.RunAllFirstThrow | cluster.js:65-151 | a run reaching a throwing call attempts exactly the calls up to it |
| Driver.RunAllAround | cluster.js:65-151 | three pieces run in order, each only if all before completed |
| Driver.RunAllReaches | cluster.js:65-151 | a strict run reaches a call that does not occur earlier in its plan iff every call before it completes |
| Driver.RunAllAgrees | cluster.js:65-151 | a strict run depends only on how the calls of its own plan behave |
| Driver.Session.Perform | cluster.js:151 | the call is logged and its outcome is the oracle's |
| Driver.ApplyHeaders | cluster.js:69-71 | the header loop logs and throws exactly as the strict run of its header calls |
| Driver.ApplyHeaderPlan | cluster.js:67-72 | `if (headers)` around the loop: the strict run of the header plan |
| Driver.PerformPair | render.js:58-60 | two awaits in a row are the strict run of the pair |
| Driver.Navigate | cluster.js:67-151 | headers, interception and navigation are the strict run of that plan |
| Form.FieldSelectorInjective | cluster.js:170 | different field names give different field selectors |
| Form.FieldSelectorIsNotForm | cluster.js:170 | a field's selector is never the form's own selector |
| Form.FieldCalls | cluster.js:169-174 | two steps per field, each a wait or a type |
| Form.FieldCallsShape | cluster.js:169-174 | fields are handled in entry order: step `2i` waits 5000 ms for field `i`'s selector `formSelector [name="<name>"]`, step `2i+1` types field `i`'s value into it |
| Form.FieldCallsAppend | cluster.js:169-174 | the field steps of two field lists are those of each, in order |
| Form.AbortFieldsIsRun | cluster.js:169-174 | the strict field loop is the strict run of the field steps |
| Form.FillFieldsAborting | cluster.js:169-174 | the field loop logs and throws exactly as the strict run of the field steps |
| Form.AbortingFlowSteps | cluster.js:159-204 | cluster.js's flow runs the form wait, the fields, the submission and the navigation wait, each only if all before completed |
| Form.SubmitAndWait | cluster.js:176-197 | the click or programmatic submit, then the navigation wait, log and throw exactly as their strict run |
| Form.FillAborting | cluster.js:159-204 | the flow logs and throws exactly as its strict run |
| Form.FillFieldsSkipping | render.js:206-215 | each field is attempted, a failure skipping only the rest of that field |
| Form.FillSkipping | render.js:196-246 | render.js's flow logs and throws exactly as its skipping run |
| Form.AbortingStopsAtFirstFailure | cluster.js:159-204 | the first failing step is the last one taken and its exception is what the catch receives |
| Form.SubmissionExactlyOnce | cluster.js:178-186 | the plan holds exactly one submission: a click on a truthy `submitSelector`, otherwise the form's `submit()` |
| Form.FieldAttemptsShape | render.js:206-215 | render.js's field loop only waits and types |
| Form.AbortingSubmitsIffFilled | cluster.js:159-204 | cluster.js submits iff the form wait and every field step completed |
| Form.SkippingSubmitsIffFormFound | render.js:196-246 | render.js submits whenever the form wait completed, whatever the fields did |
| Form.SkippingVisitsEveryField | render.js:206-215 | after a found form, every field's selector is waited for |
| Form.FieldAttemptsWithoutFailures | render.js:206-215 | with no failing field step the two field loops make the same calls |
| Form.PoliciesAgreeWithoutFieldFailures | render.js:196-246 | with no failing field step the two flows coincide |
| Form.EmptyFormStillSubmits | cluster.js:159-204 | an empty `formData` still waits for the form, submits and waits for navigation |
| Response.ErrorBodyDistinct | render.js:32 | an error body reads back as its message and never as a result, and a success body has no `error` property |
| Response.CallJson | cluster.js:119-124 | a captured call serialises with `url`, `method`, `headers`, and `postData` only when present |
| Response.ResultJson | render.js:269-275 | the result object has exactly the fields `page`, `status`, `headers`, `finalUrl`, `supabaseCalls` |
| Response.ReadCallJson | cluster.js:119-124 | reading a serialised captured call gives it back |
| Response.ReadCallsJson | cluster.js:119-124 | reading the serialised calls gives them back |
| Response.ReadResultJson | render.js:269-277 | a client reads back the very result the job assembled |
| Response.UrlLabel | render.js:257-260 | the label is the quoted URL alone iff the final URL equals it; otherwise it is the quoted URL, then ` -> `, then the quoted final URL |
| Cluster.Token | cluster.js:235 | an absent header gives no token, an empty header gives the empty string, and a token never holds a space |
| Cluster.TokenIsSecondWord | cluster.js:235 | the token is the second space-separated word of the header, whatever follows it |
| Cluster.Authenticate | cluster.js:233-247 | an unset or empty expected token gives 500; otherwise the request passes or gets 401; passing needs a header whose token equals the expected one |
| Cluster.AuthAcceptsAnyScheme | cluster.js:235-244 | the first word is never checked: any scheme followed by the right token passes |
| Cluster.AuthIgnoresTrailingWords | cluster.js:235-244 | words after the token are ignored |
| Cluster.AuthRefusesHeaderWithoutSpace | cluster.js:235-244 | a header without a space gets 401, even when it equals the token |
| Cluster.AuthNeverMatchesSpacedToken | cluster.js:235-244 | an expected token containing a space can never be matched |
| Cluster.TaskRendersIff | cluster.js:59-229 | a job renders iff every setup call completes, navigation yields a response and the content read completes |
| Cluster.TaskFailureIsLastCall | cluster.js:59-229 | a failed job fails with the exception of its last call, or with the TypeError of `null.status()` after a complete setup |
| Cluster.TaskRenderedResult | cluster.js:205-229 | a rendered job made the setup, the form calls and one content read, in order; its result carries the navigation status and headers, the HTML, the final URL and the trace's backend calls |
| Cluster.FormErrorsSwallowed | cluster.js:159-204 | whatever the form's calls do, a job renders, or fails with the same error, exactly as the job without a form does under a browser whose setup calls, navigation and content read behave alike |
| Cluster.RouteRejectsBeforeBrowser | cluster.js:250-256 | a refused or URL-less request makes no browser call and moves no counter; with auth passed it is the 400 `URL parameter is required.` |
| Cluster.RouteCountsEachJobOnce | cluster.js:221-270 | a queued job moves exactly one counter: `servedRequests` with a 200, `errorCount` with a 500 |
| Cluster.RouteSuccessBody | cluster.js:258-265 | a 200's body reads back as the job's result, with the trace's backend calls |
| Cluster.App.Setup | cluster.js:65-151 | the setup logs and throws exactly as its strict run |
| Cluster.App.FillForm | cluster.js:159-204 | the form flow runs iff `formData && formSelector`, and its calls are logged while its error is dropped |
| Cluster.App.Task | cluster.js:59-229 | the task logs the calls of its specification, ends as specified, and grows `servedRequests` by one iff it renders |
| Cluster.App.PostRender | cluster.js:233-270 | the route answers, logs and counts as its specification says |
| Render.TimeoutValue | render.js:179 | the default 60000 applies iff `options` or `options.timeout` is missing (or the value given is 60000); `null` passes through; a number, 0 included, is used as given |
| Render.WarningDelay | render.js:185-186 | the warning delay is `floor(timeout / 2)`, and 0 for `null` |
| Render.ZeroTimeoutKept | render.js:179 | a zero timeout is kept and a missing one defaults |
| Render.NoCloseBeforeResponse | render.js:35-277 | no call before the response closes the browser |
| Render.JobRendersIff | render.js:35-277 | a request renders iff every setup call completes, navigation yields a response and the content read completes |
| Render.MissingUrlLaunchesNothing | render.js:31-33 | a falsy `url` gives the 400 before any browser call, and no counter moves |
| Render.LaunchComesFirst | render.js:58 | with a URL, the browser launch is the first call |
| Render.ClosedOnlyAfterSuccess | render.js:265-285 | the browser is closed iff a 200 was sent, iff `servedRequests` grew |
| Render.CountersOfOneRequest | render.js:265-285 | a request with a URL counts as served, as an error, or as both exactly when the close fails after the 200, which is also exactly when the handler's promise rejects |
| Render.FailureCarriesMessage | render.js:281-285 | a 500 carries `An error occurred: ` and the message of the exception that ended the job |
| Render.SuccessBody | render.js:264-277 | a 200 reads back whole; its headers are those of the last main-document response, its calls the trace's backend calls |
| Render.FormErrorsSwallowed | render.js:196-246 | whatever the form's calls do, a job renders, or fails with the same error, exactly as the job without a form does under a browser whose setup calls, navigation and content read behave alike |
| Render.App.Configure | render.js:64-90 | user agent, viewport, script and default headers are a strict run |
| Render.App.Prepare | render.js:58-90 | launch, page, user agent, viewport, script and default headers are a strict run |
| Render.App.Setup | render.js:58-188 | the setup logs and throws exactly as its strict run |
| Render.App.FillForm | render.js:196-246 | the form flow runs iff `formData && formSelector`, and its calls are logged while its error is dropped |
| Render.App.RenderPage | render.js:35-275 | the handler's `try` logs the calls of its specification and ends as specified |
| Render.App.PostRender | render.js:21-286 | the handler answers, logs, counts and rejects as its specification says |

## Left out

- The route takes `cluster.execute` (cluster.js:258) to settle exactly
  as the task body does. A rejection by the pool itself, such as a
  per-task timeout, is not modelled, and `Cluster.RouteCountsEachJobOnce`,
  `Cluster.RouteSuccessBody` and the 500 text of `Cluster.RouteSpec`
  rely on this.
- Pool admission, queueing, context reuse and shutdown of the cluster
  are not modelled. They belong to the pool library, whose code is not
  part of this model.
- The browser's behaviour is an oracle. This covers navigation, waits,
  typing, clicks, `evaluate`, `content` and `url`, and whether a call
  throws depends only on the call.
- Whether successive `setExtraHTTPHeaders` calls merge or replace is
  browser behaviour and is not claimed.
- `new URL(url).href` is given as an input string. If `url` does not
  parse, the response listener throws, and that is not modelled.
- Network events are delivered as one ordered trace after navigation and
  the form flow. The interleaving of events with page calls does not
  change any value the model returns. The `load`, `domcontentloaded`,
  `requestfailed`, `console` and `pageerror` listeners only log.
- Clocks are not modelled: times are integer inputs on the events. So
  are logging, the timeout-warning timers and the one-minute stats line.
- Express routing, JSON parsing, environment variables, launch options
  and `MAX_CONCURRENCY` are configuration, not logic.
- Request properties are strings or string entries. Non-string `url`
  values, a non-object `headers` or `formData`, and fractional timeouts
  are not modelled.
- `Object.entries` order is taken as the order of the given entry
  sequence. JavaScript's integer-key-first ordering is not modelled.
- What Express and Node do with the rejected promise of a render.js
  handler whose close failed is outside the handler and is not modelled.
- The label `Response.UrlLabel` feeds only a log line. Both files build
  it the same way, with `!=` and `!==` respectively, which agree on
  strings.
