/** What a successful job hands back and how the server writes it: the
    result object with its five fields, its JSON form, the error bodies,
    and the label the log line uses for the URL. */
module Response {
  import opened Js
  import Observer
  import opened Driver

  /** The result object of a successful render. */
  datatype RenderResult = RenderResult(
    page: string,
    status: int,
    headers: Headers,
    finalUrl: string,
    supabaseCalls: seq<Observer.CapturedCall>)

  /** How a job ends: with a result, or with the exception it threw. */
  datatype Completion = Rendered(result: RenderResult) | Failed(error: Thrown)

  /** The calls a job makes and how it ends. */
  datatype TaskRun = TaskRun(calls: seq<Call>, completion: Completion)

  /** An HTTP response: its status code and JSON body. */
  datatype HttpResponse = HttpResponse(status: int, body: Json)

  /** What one `POST /render` produces: the response, the browser calls,
      how much each counter grew, and whether the handler's own promise
      ended rejected (an exception escaped its `catch`). */
  datatype Exchange = Exchange(response: HttpResponse, calls: seq<Call>, served: nat, errors: nat, rejected: bool)

  const UrlRequired: string := "URL parameter is required."

  /** The body of every error response: an object with one `error` property. */
  function ErrorBody(message: string): (j: Json)
    ensures j.JObject? && Keys(j.fields) == ["error"] && j.fields[0].1 == JString(message)
  {
    JObject([("error", JString(message))])
  }

  /** A captured call as `JSON.stringify` writes it: a missing body
      (`undefined`) leaves the `postData` property out. */
  function CallJson(c: Observer.CapturedCall): (j: Json)
    ensures j.JObject?
    ensures c.postData.None? ==> Keys(j.fields) == ["url", "method", "headers"]
    ensures c.postData.Some? ==> Keys(j.fields) == ["url", "method", "headers", "postData"]
  {
    JObject([("url", JString(c.url)), ("method", JString(c.httpMethod)), ("headers", JHeaders(c.headers))]
            + match c.postData case Some(body) => [("postData", JString(body))] case None => [])
  }

  function CallsJson(calls: seq<Observer.CapturedCall>): (j: seq<Json>)
    ensures |j| == |calls|
    ensures forall k :: 0 <= k < |calls| ==> j[k] == CallJson(calls[k])
  {
    seq(|calls|, k requires 0 <= k < |calls| => CallJson(calls[k]))
  }

  /** The success body: exactly the properties `page`, `status`,
      `headers`, `finalUrl` and `supabaseCalls`, in that order. */
  function ResultJson(r: RenderResult): (j: Json)
    ensures j.JObject? && Keys(j.fields) == ["page", "status", "headers", "finalUrl", "supabaseCalls"]
  {
    JObject([("page", JString(r.page)),
             ("status", JNumber(r.status)),
             ("headers", JHeaders(r.headers)),
             ("finalUrl", JString(r.finalUrl)),
             ("supabaseCalls", JArray(CallsJson(r.supabaseCalls)))])
  }

  // ---------------------------------------------------------------------
  // Reading a body back, as a client of the service would.

  /** The value of the first property called `name`. */
  function Lookup(fields: seq<(string, Json)>, name: string): Option<Json> {
    if fields == [] then None
    else if fields[0].0 == name then Some(fields[0].1)
    else Lookup(fields[1..], name)
  }

  function AsString(j: Option<Json>): Option<string> {
    if j.Some? && j.value.JString? then Some(j.value.s) else None
  }

  function ReadCall(j: Json): Option<Observer.CapturedCall> {
    if !j.JObject? then None
    else
      var url := AsString(Lookup(j.fields, "url"));
      var verb := AsString(Lookup(j.fields, "method"));
      var headers := Lookup(j.fields, "headers");
      var body := Lookup(j.fields, "postData");
      if url.None? || verb.None? || headers.None? || !headers.value.JHeaders? then None
      else if body.Some? && !body.value.JString? then None
      else Some(Observer.CapturedCall(url.value, verb.value, headers.value.headers,
                                      if body.Some? then Some(body.value.s) else None))
  }

  function ReadCalls(items: seq<Json>): Option<seq<Observer.CapturedCall>> {
    if items == [] then Some([])
    else
      var first := ReadCall(items[0]);
      var rest := ReadCalls(items[1..]);
      if first.None? || rest.None? then None else Some([first.value] + rest.value)
  }

  function ReadResult(j: Json): Option<RenderResult> {
    if !j.JObject? then None
    else
      var page := AsString(Lookup(j.fields, "page"));
      var status := Lookup(j.fields, "status");
      var headers := Lookup(j.fields, "headers");
      var finalUrl := AsString(Lookup(j.fields, "finalUrl"));
      var calls := Lookup(j.fields, "supabaseCalls");
      if page.None? || status.None? || !status.value.JNumber? || headers.None? || !headers.value.JHeaders?
         || finalUrl.None? || calls.None? || !calls.value.JArray? then None
      else
        var read := ReadCalls(calls.value.items);
        if read.None? then None
        else Some(RenderResult(page.value, status.value.n, headers.value.headers, finalUrl.value, read.value))
  }

  function ReadError(j: Json): Option<string> {
    if j.JObject? then AsString(Lookup(j.fields, "error")) else None
  }

  /** Lookup finds the first property with the name, and nothing when
      no property has it. */
  lemma {:induction false} LookupFirst(fields: seq<(string, Json)>, name: string, k: int)
    requires 0 <= k <= |fields|
    requires forall j :: 0 <= j < k ==> fields[j].0 != name
    ensures k < |fields| && fields[k].0 == name ==> Lookup(fields, name) == Some(fields[k].1)
    ensures k == |fields| ==> Lookup(fields, name) == None
    decreases k
  {
    if k > 0 {
      LookupFirst(fields[1..], name, k - 1);
    }
  }

  lemma ReadCallJson(c: Observer.CapturedCall)
    ensures ReadCall(CallJson(c)) == Some(c)
  {
    var fields := CallJson(c).fields;
    LookupFirst(fields, "url", 0);
    LookupFirst(fields, "method", 1);
    LookupFirst(fields, "headers", 2);
    LookupFirst(fields, "postData", 3);
  }

  lemma {:induction false} ReadCallsJson(calls: seq<Observer.CapturedCall>)
    ensures ReadCalls(CallsJson(calls)) == Some(calls)
    decreases |calls|
  {
    if calls != [] {
      ReadCallJson(calls[0]);
      assert CallsJson(calls)[1..] == CallsJson(calls[1..]);
      ReadCallsJson(calls[1..]);
      assert [calls[0]] + calls[1..] == calls;
    }
  }

  /** The success body loses nothing: a client reads back the very result
      the job assembled, captured calls and their bodies included. */
  lemma ReadResultJson(r: RenderResult)
    ensures ReadResult(ResultJson(r)) == Some(r)
  {
    var fields := ResultJson(r).fields;
    LookupFirst(fields, "page", 0);
    LookupFirst(fields, "status", 1);
    LookupFirst(fields, "headers", 2);
    LookupFirst(fields, "finalUrl", 3);
    LookupFirst(fields, "supabaseCalls", 4);
    ReadCallsJson(r.supabaseCalls);
  }

  /** A client tells the two kinds of body apart: an error body reads
      back as its message and never as a result, and a success body
      carries no `error` property. */
  lemma ErrorBodyDistinct(message: string, r: RenderResult)
    ensures ReadError(ErrorBody(message)) == Some(message)
    ensures ReadResult(ErrorBody(message)) == None
    ensures ReadError(ResultJson(r)) == None
  {
    LookupFirst(ErrorBody(message).fields, "page", 1);
    LookupFirst(ResultJson(r).fields, "error", 5);
  }

  // ---------------------------------------------------------------------
  // The log line's URL label.

  function Quote(s: string): string {
    "'" + s + "'"
  }

  /** The quoted URL, followed by ` -> ` and the quoted final URL when the
      page ended up somewhere else. */
  function UrlLabel(url: string, finalUrl: string): (text: string)
    ensures text == Quote(url) <==> finalUrl == url
    ensures Quote(url) <= text
    ensures |Quote(finalUrl)| <= |text| && text[|text| - |Quote(finalUrl)|..] == Quote(finalUrl)
    ensures finalUrl != url ==>
      && |text| == |Quote(url)| + 4 + |Quote(finalUrl)|
      && text[|Quote(url)|..|Quote(url)| + 4] == " -> "
  {
    if finalUrl != url then
      var text := Quote(url) + " -> " + Quote(finalUrl);
      assert |text| > |Quote(url)|;
      assert text[..|Quote(url)|] == Quote(url);
      text
    else Quote(url)
  }
}
