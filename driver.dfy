/** The browser as the task bodies see it: every awaited call on the page
    (or, in render.js, on the browser) either completes or throws. A fixed
    oracle decides which calls throw and what the page reports; a session
    logs the calls a job makes, in order. */
module Driver {
  import opened Js
  import Observer

  /** The `timeout` option passed to `page.goto`: a number of milliseconds,
      or `null` when the caller sent `"timeout": null`. */
  datatype Timeout = NullTimeout | Ms(ms: int)

  /** One awaited call on the browser or the page. */
  datatype Call =
    | Launch
    | NewPage
    | SetUserAgent(agent: string)
    | SetViewport(width: int, height: int)
    | EvaluateOnNewDocument
    | SetExtraHTTPHeaders(headers: Headers)
    | SetRequestInterception(enabled: bool)
    | Goto(url: string, timeout: Timeout)
    | WaitForSelector(selector: string, timeoutMs: int)
    | Type(selector: string, text: string)
    | Click(selector: string)
    | SubmitForm(formSelector: string)
    | WaitForNavigation(timeoutMs: int)
    | Content
    | CloseBrowser

  /** What `page.goto` resolves to when it does not throw. */
  datatype NavResponse = NavResponse(status: int, headers: Headers)

  /** The browser's behaviour during one job: the calls that throw (and
      what), the main response (`null` is possible), `page.url()` and
      `page.content()` at the end, and the network events the page emits. */
  datatype Oracle = Oracle(
    failing: map<Call, Thrown>,
    navResponse: Option<NavResponse>,
    finalUrl: string,
    html: string,
    events: seq<Observer.NetEvent>)

  /** The outcome of one call under `failing`. */
  function Outcome(failing: map<Call, Thrown>, c: Call): (r: Option<Thrown>)
    ensures r.Some? <==> c in failing
    ensures r.Some? ==> r.value == failing[c]
  {
    if c in failing then Some(failing[c]) else None
  }

  /** `page.setExtraHTTPHeaders({[name]: value})` once per entry, in order. */
  function HeaderCalls(entries: Entries): (calls: seq<Call>)
    ensures |calls| == |entries|
    ensures forall k :: 0 <= k < |entries| ==> calls[k] == SetExtraHTTPHeaders(map[entries[k].0 := entries[k].1])
  {
    seq(|entries|, k requires 0 <= k < |entries| => SetExtraHTTPHeaders(map[entries[k].0 := entries[k].1]))
  }

  /** The header calls of joined entry lists are those of each, in order:
      entry `k` always yields the `k`-th call. */
  lemma HeaderCallsAppend(a: Entries, b: Entries)
    ensures HeaderCalls(a + b) == HeaderCalls(a) + HeaderCalls(b)
  {
  }

  /** The header calls of a job: none when its `headers` are absent. */
  function HeaderPlan(headers: Option<Entries>): (calls: seq<Call>)
    ensures headers.None? ==> calls == []
    ensures headers.Some? ==> calls == HeaderCalls(headers.value)
  {
    if headers.Some? then HeaderCalls(headers.value) else []
  }

  /** The user agent both servers present, to avoid bot detection. */
  const UserAgent: string :=
    "Mozilla/5.0 (Windows NT 10.0; Win64; x64) AppleWebKit/537.36 (KHTML, like Gecko) Chrome/120.0.0.0 Safari/537.36"

  /** The end of both setups: the header calls, request interception and
      the navigation `nav`. */
  function NavigationPlan(headers: Option<Entries>, nav: Call): seq<Call> {
    HeaderPlan(headers) + [SetRequestInterception(true), nav]
  }

  /** The calls a run of straight-line awaits made, and the exception that
      ended it early, if any. */
  datatype Run = Run(attempted: seq<Call>, thrown: Option<Thrown>)

  /** Awaiting the calls of `plan` one after the other, without a catch:
      the first call that throws ends the run. */
  function RunAll(plan: seq<Call>, failing: map<Call, Thrown>): Run
    decreases |plan|
  {
    if plan == [] then Run([], None)
    else if plan[0] in failing then Run([plan[0]], Some(failing[plan[0]]))
    else
      var rest := RunAll(plan[1..], failing);
      Run([plan[0]] + rest.attempted, rest.thrown)
  }

  /** A run attempts a prefix of its plan; it completes exactly when no
      call of the plan throws, and otherwise it ends with the first call
      that throws, rethrowing that call's exception. */
  lemma {:induction false} RunAllStopsAtFirstThrow(plan: seq<Call>, failing: map<Call, Thrown>)
    ensures RunAll(plan, failing).attempted <= plan
    ensures RunAll(plan, failing).thrown.None? <==> forall k :: 0 <= k < |plan| ==> plan[k] !in failing
    ensures RunAll(plan, failing).thrown.None? ==> RunAll(plan, failing).attempted == plan
    ensures var r := RunAll(plan, failing);
      r.thrown.Some? ==>
        && |r.attempted| > 0
        && r.attempted[|r.attempted| - 1] in failing
        && r.thrown.value == failing[r.attempted[|r.attempted| - 1]]
        && forall k :: 0 <= k < |r.attempted| - 1 ==> r.attempted[k] !in failing
    decreases |plan|
  {
    if plan == [] {
    } else if plan[0] in failing {
      assert RunAll(plan, failing) == Run([plan[0]], Some(failing[plan[0]]));
      assert [plan[0]] == plan[..1];
    } else {
      var rest := RunAll(plan[1..], failing);
      var r := Run([plan[0]] + rest.attempted, rest.thrown);
      assert RunAll(plan, failing) == r;
      RunAllStopsAtFirstThrow(plan[1..], failing);
      assert plan == [plan[0]] + plan[1..];
      assert forall k :: 1 <= k < |plan| ==> plan[k] == plan[1..][k - 1];
      if r.thrown.Some? {
        assert forall k :: 1 <= k < |r.attempted| ==> r.attempted[k] == rest.attempted[k - 1];
      }
    }
  }

  /** Running `a` and then `b` is running `a + b`: `b` starts only when
      every call of `a` completed. */
  lemma {:induction false} RunAllAppend(a: seq<Call>, b: seq<Call>, failing: map<Call, Thrown>)
    ensures RunAll(a + b, failing) ==
      if RunAll(a, failing).thrown.Some? then RunAll(a, failing)
      else Run(a + RunAll(b, failing).attempted, RunAll(b, failing).thrown)
    decreases |a|
  {
    if a == [] {
      assert a + b == b;
    } else {
      var ab := a + b;
      assert ab[0] == a[0] && ab[1..] == a[1..] + b;
      if a[0] in failing {
        assert RunAll(ab, failing) == Run([a[0]], Some(failing[a[0]]));
        assert RunAll(a, failing) == Run([a[0]], Some(failing[a[0]]));
      } else {
        var ra := RunAll(a[1..], failing);
        var rb := RunAll(b, failing);
        assert RunAll(a, failing) == Run([a[0]] + ra.attempted, ra.thrown);
        assert RunAll(ab, failing) == Run([a[0]] + RunAll(a[1..] + b, failing).attempted, RunAll(a[1..] + b, failing).thrown);
        RunAllAppend(a[1..], b, failing);
        if ra.thrown.None? {
          assert [a[0]] + (a[1..] + rb.attempted) == a + rb.attempted;
        }
      }
    }
  }

  /** A run that reaches a throwing call `plan[k]` ends there, with that
      call's exception, having attempted exactly `plan[..k + 1]`. */
  lemma RunAllFirstThrow(plan: seq<Call>, failing: map<Call, Thrown>, k: int)
    requires 0 <= k < |plan| && plan[k] in failing
    requires forall j :: 0 <= j < k ==> plan[j] !in failing
    ensures RunAll(plan, failing) == Run(plan[..k + 1], Some(failing[plan[k]]))
  {
    RunAllStopsAtFirstThrow(plan, failing);
  }

  /** The first call of a run either throws, ending it, or completes and
      the rest of the plan runs. */
  lemma RunAllCons(c: Call, rest: seq<Call>, failing: map<Call, Thrown>)
    ensures RunAll([c] + rest, failing) ==
      if c in failing then Run([c], Some(failing[c]))
      else Run([c] + RunAll(rest, failing).attempted, RunAll(rest, failing).thrown)
  {
    assert ([c] + rest)[0] == c && ([c] + rest)[1..] == rest;
  }

  /** A run of a single call. */
  lemma RunAllOne(c: Call, failing: map<Call, Thrown>)
    ensures RunAll([c], failing) == Run([c], Outcome(failing, c))
  {
    RunAllCons(c, [], failing);
    assert [c] + [] == [c];
  }

  /** A run reaches a call that does not occur before it exactly when
      every call before it completes. */
  lemma RunAllReaches(pre: seq<Call>, c: Call, post: seq<Call>, failing: map<Call, Thrown>)
    requires c !in pre
    ensures c in RunAll(pre + [c] + post, failing).attempted <==> forall k :: 0 <= k < |pre| ==> pre[k] !in failing
  {
    var r := RunAll(pre, failing);
    assert pre + [c] + post == pre + ([c] + post);
    RunAllAppend(pre, [c] + post, failing);
    RunAllStopsAtFirstThrow(pre, failing);
    if r.thrown.None? {
      RunAllCons(c, post, failing);
      assert RunAll(pre + [c] + post, failing).attempted[|pre|] == c;
    } else {
      assert c !in r.attempted by {
        assert forall k :: 0 <= k < |r.attempted| ==> r.attempted[k] == pre[k];
      }
    }
  }

  /** A run depends only on how the calls of its own plan behave. */
  lemma {:induction false} RunAllAgrees(plan: seq<Call>, f: map<Call, Thrown>, g: map<Call, Thrown>)
    requires forall k :: 0 <= k < |plan| ==> Outcome(f, plan[k]) == Outcome(g, plan[k])
    ensures RunAll(plan, f) == RunAll(plan, g)
    decreases |plan|
  {
    if plan != [] {
      assert Outcome(f, plan[0]) == Outcome(g, plan[0]);
      assert forall k :: 0 <= k < |plan[1..]| ==> plan[1..][k] == plan[k + 1];
      RunAllAgrees(plan[1..], f, g);
    }
  }

  /** Running three pieces one after the other: each piece starts only
      when every call before it completed. */
  lemma RunAllAround(pre: seq<Call>, mid: seq<Call>, post: seq<Call>, failing: map<Call, Thrown>)
    ensures RunAll(pre + mid + post, failing) ==
      var p := RunAll(pre, failing);
      var m := RunAll(mid, failing);
      var q := RunAll(post, failing);
      if p.thrown.Some? then p
      else if m.thrown.Some? then Run(pre + m.attempted, m.thrown)
      else Run(pre + mid + q.attempted, q.thrown)
  {
    var p := RunAll(pre, failing);
    var m := RunAll(mid, failing);
    var q := RunAll(post, failing);
    assert pre + mid + post == pre + (mid + post);
    RunAllAppend(pre, mid + post, failing);
    if p.thrown.None? {
      RunAllAppend(mid, post, failing);
      if m.thrown.None? {
        assert pre + (mid + q.attempted) == pre + mid + q.attempted;
      }
    }
  }

  /** A run of two calls. */
  lemma RunAllTwo(c: Call, d: Call, failing: map<Call, Thrown>)
    ensures RunAll([c, d], failing) ==
      if c in failing then Run([c], Some(failing[c])) else Run([c, d], Outcome(failing, d))
  {
    assert [c, d] == [c] + [d];
    RunAllCons(c, [d], failing);
    RunAllOne(d, failing);
  }

  /** What `response.status()` throws when `page.goto` resolved to `null`. */
  const NullResponseError := Thrown("TypeError", "Cannot read properties of null (reading 'status')")

  /** The browser seen by one job: the oracle answers, `log` records every
      call made so far. */
  class Session {
    const oracle: Oracle
    var log: seq<Call>

    constructor (oracle: Oracle)
      ensures this.oracle == oracle && log == []
    {
      this.oracle := oracle;
      log := [];
    }

    /** Awaits `c`; `err` is what it threw, if anything. */
    method Perform(c: Call) returns (err: Option<Thrown>)
      modifies this
      ensures log == old(log) + [c]
      ensures err == Outcome(oracle.failing, c)
    {
      log := log + [c];
      err := Outcome(oracle.failing, c);
    }
  }

  /** The task bodies' header loop: one `setExtraHTTPHeaders` per entry,
      awaited in order; the first that throws ends the loop and the job. */
  method ApplyHeaders(session: Session, entries: Entries) returns (err: Option<Thrown>)
    modifies session
    ensures session.log == old(session.log) + RunAll(HeaderCalls(entries), session.oracle.failing).attempted
    ensures err == RunAll(HeaderCalls(entries), session.oracle.failing).thrown
  {
    ghost var failing := session.oracle.failing;
    ghost var plan := HeaderCalls(entries);
    err := None;
    var i := 0;
    while i < |entries| && err.None?
      invariant 0 <= i <= |entries|
      invariant session.log == old(session.log) + RunAll(plan[..i], failing).attempted
      invariant err == RunAll(plan[..i], failing).thrown
    {
      var (name, value) := entries[i];
      err := session.Perform(SetExtraHTTPHeaders(map[name := value]));
      assert plan[..i + 1] == plan[..i] + [plan[i]];
      RunAllStopsAtFirstThrow(plan[..i], failing);
      RunAllAppend(plan[..i], [plan[i]], failing);
      RunAllOne(plan[i], failing);
      i := i + 1;
    }
    assert plan == plan[..i] + plan[i..];
    RunAllAppend(plan[..i], plan[i..], failing);
    if err.None? {
      assert plan[..i] == plan;
    }
  }

  /** `if (headers)` around the header loop. */
  method ApplyHeaderPlan(session: Session, headers: Option<Entries>) returns (err: Option<Thrown>)
    modifies session
    ensures session.log == old(session.log) + RunAll(HeaderPlan(headers), session.oracle.failing).attempted
    ensures err == RunAll(HeaderPlan(headers), session.oracle.failing).thrown
  {
    if headers.Some? {
      err := ApplyHeaders(session, headers.value);
    } else {
      err := None;
      assert session.log == old(session.log) + [];
    }
  }

  /** Two awaits in a row. */
  method PerformPair(session: Session, c: Call, d: Call) returns (err: Option<Thrown>)
    modifies session
    ensures session.log == old(session.log) + RunAll([c, d], session.oracle.failing).attempted
    ensures err == RunAll([c, d], session.oracle.failing).thrown
  {
    RunAllTwo(c, d, session.oracle.failing);
    err := session.Perform(c);
    if err.None? {
      err := session.Perform(d);
    }
  }

  /** The header calls, interception and the navigation `nav`. */
  method Navigate(session: Session, headers: Option<Entries>, nav: Call) returns (err: Option<Thrown>)
    modifies session
    ensures session.log == old(session.log) + RunAll(NavigationPlan(headers, nav), session.oracle.failing).attempted
    ensures err == RunAll(NavigationPlan(headers, nav), session.oracle.failing).thrown
  {
    ghost var failing := session.oracle.failing;
    var intercept := SetRequestInterception(true);
    RunAllAppend(HeaderPlan(headers), [intercept, nav], failing);
    RunAllStopsAtFirstThrow(HeaderPlan(headers), failing);
    err := ApplyHeaderPlan(session, headers);
    if err.None? {
      ghost var log1 := session.log;
      err := PerformPair(session, intercept, nav);
      assert session.log == log1 + RunAll([intercept, nav], failing).attempted;
    }
  }
}
