/** The per-job network observer both task bodies attach before navigating:
    a `request` listener that times every request, captures backend API
    calls and lets the request continue, and a `response` listener that
    closes the timing entry and flags slow requests. The `/render` handler
    of render.js also keeps the main document's response headers. */
module Observer {
  import opened Js

  /** The domain marker a captured call's URL must contain. */
  const BackendMarker: string := "supabase"

  /** A response slower than this many milliseconds is flagged. */
  const SlowThresholdMs: int := 5000

  /** One event the page emits while the job runs, with the clock reading
      (`Date.now()`) at which the listener ran. */
  datatype NetEvent =
    | Request(url: string, httpMethod: string, headers: Headers, postData: Option<string>, time: int)
    | Response(url: string, headers: Headers, time: int)

  /** A captured backend API call: the request's own url, httpMethod, full
      header map and body (absent when the request has none). */
  datatype CapturedCall = CapturedCall(url: string, httpMethod: string, headers: Headers, postData: Option<string>)

  /** The `networkRequests` entry for one URL. */
  datatype Timing = Timing(startTime: int, httpMethod: string)

  /** Everything the listeners update: `networkRequests`, `supabaseCalls`,
      the URLs passed to `request.continue()` in order, the URLs flagged
      as slow in order, and render.js's `responseHeaders`. */
  datatype ObserverState = ObserverState(
    timings: map<string, Timing>,
    calls: seq<CapturedCall>,
    continued: seq<string>,
    slow: seq<string>,
    responseHeaders: Headers)

  /** The state right after the listeners are attached. */
  const Fresh := ObserverState(map[], [], [], [], map[])

  /** The classification of a backend API call: the URL contains the
      marker and one of the three key headers has a truthy value. */
  predicate IsBackendCall(url: string, headers: Headers) {
    && Includes(url, BackendMarker)
    && (HeaderTruthy(headers, "apikey")
        || HeaderTruthy(headers, "Authorization")
        || HeaderTruthy(headers, "authorization"))
  }

  /** The `request` listener. */
  function RequestStep(s: ObserverState, url: string, httpMethod: string, headers: Headers,
                       postData: Option<string>, now: int): (t: ObserverState)
    ensures url in t.timings && t.timings[url] == Timing(now, httpMethod)
    ensures forall k :: k != url ==> (k in t.timings <==> k in s.timings)
    ensures forall k :: k != url && k in s.timings ==> t.timings[k] == s.timings[k]
    ensures IsBackendCall(url, headers) ==> t.calls == s.calls + [CapturedCall(url, httpMethod, headers, postData)]
    ensures !IsBackendCall(url, headers) ==> t.calls == s.calls
    ensures t.continued == s.continued + [url]
    ensures t.slow == s.slow && t.responseHeaders == s.responseHeaders
  {
    var timings := s.timings[url := Timing(now, httpMethod)];
    var calls := if IsBackendCall(url, headers)
                 then s.calls + [CapturedCall(url, httpMethod, headers, postData)]
                 else s.calls;
    s.(timings := timings, calls := calls, continued := s.continued + [url])
  }

  /** The `response` listener. `mainHref` is `new URL(url).href` of the
      job's URL in render.js, and absent for cluster.js, whose listener
      does not look at headers. */
  function ResponseStep(s: ObserverState, url: string, headers: Headers, now: int,
                        mainHref: Option<string>): (t: ObserverState)
    ensures url !in s.timings ==> t.timings == s.timings && t.slow == s.slow
    ensures url in s.timings ==> t.timings.Keys == s.timings.Keys - {url}
    ensures forall k :: k in t.timings ==> k in s.timings && t.timings[k] == s.timings[k]
    ensures url in s.timings && now - s.timings[url].startTime > SlowThresholdMs ==> t.slow == s.slow + [url]
    ensures url in s.timings && now - s.timings[url].startTime <= SlowThresholdMs ==> t.slow == s.slow
    ensures mainHref == Some(url) ==> t.responseHeaders == headers
    ensures mainHref != Some(url) ==> t.responseHeaders == s.responseHeaders
    ensures t.calls == s.calls && t.continued == s.continued
  {
    var s1 :=
      if url in s.timings then
        var duration := now - s.timings[url].startTime;
        s.(timings := s.timings - {url},
           slow := if duration > SlowThresholdMs then s.slow + [url] else s.slow)
      else s;
    if mainHref == Some(url) then s1.(responseHeaders := headers) else s1
  }

  /** Delivers one event to the listener it is for. */
  function Apply(s: ObserverState, e: NetEvent, mainHref: Option<string>): ObserverState {
    match e
    case Request(url, httpMethod, headers, postData, time) => RequestStep(s, url, httpMethod, headers, postData, time)
    case Response(url, headers, time) => ResponseStep(s, url, headers, time, mainHref)
  }

  /** The state after delivering `evs` in order, starting from `s`. */
  function ReplayFrom(s: ObserverState, evs: seq<NetEvent>, mainHref: Option<string>): ObserverState
    decreases |evs|
  {
    if evs == [] then s
    else Apply(ReplayFrom(s, evs[..|evs| - 1], mainHref), evs[|evs| - 1], mainHref)
  }

  /** The state of a job's observer once the page has emitted `evs`. */
  function Replay(evs: seq<NetEvent>, mainHref: Option<string>): ObserverState {
    ReplayFrom(Fresh, evs, mainHref)
  }

  // ---------------------------------------------------------------------
  // Reference definitions, stated over the whole trace rather than step by step.

  /** The capture record an event contributes, if any. */
  function CaptureOf(e: NetEvent): seq<CapturedCall> {
    if e.Request? && IsBackendCall(e.url, e.headers)
    then [CapturedCall(e.url, e.httpMethod, e.headers, e.postData)]
    else []
  }

  /** The backend API calls among `evs`, in request order. */
  function Captures(evs: seq<NetEvent>): seq<CapturedCall> {
    if evs == [] then [] else CaptureOf(evs[0]) + Captures(evs[1..])
  }

  /** The URLs of all requests among `evs`, in order. */
  function RequestUrls(evs: seq<NetEvent>): seq<string> {
    if evs == [] then []
    else (if evs[0].Request? then [evs[0].url] else []) + RequestUrls(evs[1..])
  }

  /** The last event of `evs` about URL `k`. */
  function LastFor(evs: seq<NetEvent>, k: string): Option<NetEvent>
    decreases |evs|
  {
    if evs == [] then None
    else if evs[|evs| - 1].url == k then Some(evs[|evs| - 1])
    else LastFor(evs[..|evs| - 1], k)
  }

  /** The headers of the last response for `href` among `evs`. */
  function LastDocumentHeaders(evs: seq<NetEvent>, href: string): Option<Headers>
    decreases |evs|
  {
    if evs == [] then None
    else if evs[|evs| - 1].Response? && evs[|evs| - 1].url == href then Some(evs[|evs| - 1].headers)
    else LastDocumentHeaders(evs[..|evs| - 1], href)
  }

  // ---------------------------------------------------------------------
  // Trace lemmas.

  lemma {:induction false} CapturesAppend(a: seq<NetEvent>, b: seq<NetEvent>)
    ensures Captures(a + b) == Captures(a) + Captures(b)
    decreases |a|
  {
    if a == [] {
      assert a + b == b;
    } else {
      assert (a + b)[0] == a[0] && (a + b)[1..] == a[1..] + b;
      CapturesAppend(a[1..], b);
    }
  }

  lemma {:induction false} RequestUrlsAppend(a: seq<NetEvent>, b: seq<NetEvent>)
    ensures RequestUrls(a + b) == RequestUrls(a) + RequestUrls(b)
    decreases |a|
  {
    if a == [] {
      assert a + b == b;
    } else {
      assert (a + b)[0] == a[0] && (a + b)[1..] == a[1..] + b;
      RequestUrlsAppend(a[1..], b);
    }
  }

  /** `supabaseCalls` holds exactly the backend API calls, in request order. */
  lemma {:induction false} ReplayCaptures(evs: seq<NetEvent>, mainHref: Option<string>)
    ensures Replay(evs, mainHref).calls == Captures(evs)
    decreases |evs|
  {
    if evs != [] {
      var init := evs[..|evs| - 1];
      var e := evs[|evs| - 1];
      ReplayCaptures(init, mainHref);
      assert evs == init + [e];
      CapturesAppend(init, [e]);
      assert Captures([e]) == CaptureOf(e) by {
        assert [e][1..] == [];
      }
    }
  }

  /** Later events only append to `supabaseCalls`: earlier records never change. */
  lemma CapturesOnlyGrow(evs: seq<NetEvent>, more: seq<NetEvent>, mainHref: Option<string>)
    ensures Replay(evs, mainHref).calls <= Replay(evs + more, mainHref).calls
  {
    ReplayCaptures(evs, mainHref);
    ReplayCaptures(evs + more, mainHref);
    CapturesAppend(evs, more);
  }

  /** Every request, captured or not, is continued, in request order. */
  lemma {:induction false} ReplayContinues(evs: seq<NetEvent>, mainHref: Option<string>)
    ensures Replay(evs, mainHref).continued == RequestUrls(evs)
    decreases |evs|
  {
    if evs != [] {
      var init := evs[..|evs| - 1];
      var e := evs[|evs| - 1];
      ReplayContinues(init, mainHref);
      assert evs == init + [e];
      RequestUrlsAppend(init, [e]);
      assert RequestUrls([e]) == (if e.Request? then [e.url] else []) by {
        assert [e][1..] == [];
      }
    }
  }

  /** A URL has a timing entry exactly when the last event about it was a
      request, and the entry is that request's start time and method: a
      repeated request overwrites, a response deletes. */
  lemma {:induction false} ReplayTimings(evs: seq<NetEvent>, mainHref: Option<string>, k: string)
    ensures k in Replay(evs, mainHref).timings <==> LastFor(evs, k).Some? && LastFor(evs, k).value.Request?
    ensures k in Replay(evs, mainHref).timings ==>
      Replay(evs, mainHref).timings[k] == Timing(LastFor(evs, k).value.time, LastFor(evs, k).value.httpMethod)
    decreases |evs|
  {
    if evs != [] {
      ReplayTimings(evs[..|evs| - 1], mainHref, k);
    }
  }

  /** render.js's `responseHeaders` is the header map of the last response
      for the job's normalised URL, and `{}` when there was none. */
  lemma {:induction false} ReplayDocumentHeaders(evs: seq<NetEvent>, href: string)
    ensures Replay(evs, Some(href)).responseHeaders ==
      (match LastDocumentHeaders(evs, href) case Some(h) => h case None => map[])
    decreases |evs|
  {
    if evs != [] {
      ReplayDocumentHeaders(evs[..|evs| - 1], href);
    }
  }

  /** Without a main document to watch, `responseHeaders` stays `{}`. */
  lemma {:induction false} ReplayKeepsNoHeaders(evs: seq<NetEvent>)
    ensures Replay(evs, None).responseHeaders == map[]
    decreases |evs|
  {
    if evs != [] {
      ReplayKeepsNoHeaders(evs[..|evs| - 1]);
    }
  }

  /** The listeners' variables of one job. */
  class NetworkObserver {
    const mainHref: Option<string>
    var networkRequests: map<string, Timing>
    var supabaseCalls: seq<CapturedCall>
    var continued: seq<string>
    var slowRequests: seq<string>
    var responseHeaders: Headers

    function State(): ObserverState
      reads this
    {
      ObserverState(networkRequests, supabaseCalls, continued, slowRequests, responseHeaders)
    }

    constructor (mainHref: Option<string>)
      ensures this.mainHref == mainHref && State() == Fresh
    {
      this.mainHref := mainHref;
      networkRequests := map[];
      supabaseCalls := [];
      continued := [];
      slowRequests := [];
      responseHeaders := map[];
    }

    /** The `request` listener: time the request, capture it if it is a
        backend API call, and let it continue. */
    method OnRequest(url: string, httpMethod: string, headers: Headers, postData: Option<string>, now: int)
      modifies this
      ensures State() == RequestStep(old(State()), url, httpMethod, headers, postData, now)
    {
      networkRequests := networkRequests[url := Timing(now, httpMethod)];
      if IsBackendCall(url, headers) {
        supabaseCalls := supabaseCalls + [CapturedCall(url, httpMethod, headers, postData)];
      }
      continued := continued + [url];
    }

    /** The `response` listener; `slow` is whether it flagged the request. */
    method OnResponse(url: string, now: int, headers: Headers) returns (slow: bool)
      modifies this
      ensures State() == ResponseStep(old(State()), url, headers, now, mainHref)
      ensures slow <==> url in old(networkRequests) && now - old(networkRequests)[url].startTime > SlowThresholdMs
    {
      slow := false;
      if url in networkRequests {
        var duration := now - networkRequests[url].startTime;
        if duration > SlowThresholdMs {
          slow := true;
          slowRequests := slowRequests + [url];
        }
        networkRequests := networkRequests - {url};
      }
      if mainHref == Some(url) {
        responseHeaders := headers;
      }
    }

    /** The page's event emitter delivering `evs`, in order, to the two
        listeners. */
    method Deliver(evs: seq<NetEvent>)
      modifies this
      ensures State() == ReplayFrom(old(State()), evs, mainHref)
    {
      var i := 0;
      while i < |evs|
        invariant 0 <= i <= |evs|
        invariant State() == ReplayFrom(old(State()), evs[..i], mainHref)
      {
        assert evs[..i + 1][..i] == evs[..i];
        match evs[i] {
          case Request(url, httpMethod, headers, postData, time) =>
            OnRequest(url, httpMethod, headers, postData, time);
          case Response(url, headers, time) =>
            var _ := OnResponse(url, time, headers);
        }
        i := i + 1;
      }
      assert evs[..i] == evs;
    }
  }
}
