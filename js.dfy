/** JavaScript values and built-ins that the render server's code leans on:
    optional (undefined) values, truthiness, `String.prototype.includes`,
    `String.prototype.split(' ')`, `Error.prototype.toString` and the JSON
    shapes that `res.json` sends. */
module Js {

  /** `undefined` (or `null`) versus a present value. */
  datatype Option<+T> = None | Some(value: T)

  /** A JSON object's entries in `Object.entries` order. */
  type Entries = seq<(string, string)>

  /** A header object: header name to header value. */
  type Headers = map<string, string>

  /** A string is truthy exactly when it is not empty. */
  predicate Truthy(s: string) {
    s != ""
  }

  /** An optional string is truthy when it is present and not empty. */
  predicate OptTruthy(o: Option<string>) {
    o.Some? && Truthy(o.value)
  }

  /** `headers[name]` is truthy: the key is present with a non-empty value. */
  predicate HeaderTruthy(headers: Headers, name: string) {
    name in headers && Truthy(headers[name])
  }

  /** An exception as thrown by the browser driver or the runtime. */
  datatype Thrown = Thrown(name: string, message: string)

  /** `String(err)` for an Error object (`Error.prototype.toString`). */
  function ErrorString(e: Thrown): (r: string)
    ensures |r| == |e.name| + |e.message| + (if e.name != "" && e.message != "" then 2 else 0)
    ensures e.name <= r
    ensures r[|r| - |e.message|..] == e.message
    ensures e.name != "" && e.message != "" ==> r[|e.name|..|e.name| + 2] == ": "
  {
    if e.name == "" then e.message
    else if e.message == "" then e.name
    else
      var r := e.name + ": " + e.message;
      assert r[..|e.name|] == e.name;
      r
  }

  /** `sub` occurs in `s` starting at index `i`. */
  predicate OccursAt(s: string, sub: string, i: int) {
    0 <= i && i + |sub| <= |s| && s[i..i + |sub|] == sub
  }

  /** `s.includes(sub)`: a case-sensitive substring test. */
  function Includes(s: string, sub: string): (r: bool)
    ensures r <==> exists i :: OccursAt(s, sub, i)
    decreases |s|
  {
    if |sub| <= |s| && s[..|sub|] == sub then
      assert OccursAt(s, sub, 0);
      true
    else if s == [] then
      assert forall i :: !OccursAt(s, sub, i);
      false
    else
      var r := Includes(s[1..], sub);
      assert forall i :: OccursAt(s[1..], sub, i) ==> OccursAt(s, sub, i + 1);
      assert forall i :: OccursAt(s, sub, i) && i > 0 ==> OccursAt(s[1..], sub, i - 1);
      r
  }

  /** The inverse of `Split`: the parts joined by single spaces. */
  function Join(parts: seq<string>): string
    requires |parts| >= 1
  {
    if |parts| == 1 then parts[0] else parts[0] + " " + Join(parts[1..])
  }

  /** `s.split(' ')`: the maximal space-free runs between single spaces,
      empty runs included, so the result is never empty. */
  function Split(s: string): (parts: seq<string>)
    ensures |parts| >= 1
    ensures forall k :: 0 <= k < |parts| ==> ' ' !in parts[k]
    ensures Join(parts) == s
    decreases |s|
  {
    if s == [] then [""]
    else
      var rest := Split(s[1..]);
      if s[0] == ' ' then
        assert Join([""] + rest) == " " + Join(rest) by {
          assert ([""] + rest)[1..] == rest;
        }
        [""] + rest
      else
        var parts := [[s[0]] + rest[0]] + rest[1..];
        assert Join(parts) == [s[0]] + Join(rest) by {
          if |rest| > 1 {
            assert parts[1..] == rest[1..];
          }
        }
        parts
  }

  /** A space-free word in front of `t` only lengthens the first part of `t`'s split. */
  lemma {:induction false} SplitWordPrefix(w: string, t: string)
    requires ' ' !in w
    ensures Split(w + t) == [w + Split(t)[0]] + Split(t)[1..]
    decreases |w|
  {
    if w == [] {
      assert w + t == t;
      var p := Split(t);
      assert w + p[0] == p[0];
      assert [p[0]] + p[1..] == p;
    } else {
      assert (w + t)[0] == w[0] && (w + t)[1..] == w[1..] + t;
      SplitWordPrefix(w[1..], t);
      assert [w[0]] + (w[1..] + Split(t)[0]) == w + Split(t)[0];
    }
  }

  /** Splitting undoes joining whenever no part contains a space. */
  lemma {:induction false} SplitJoin(parts: seq<string>)
    requires |parts| >= 1
    requires forall k :: 0 <= k < |parts| ==> ' ' !in parts[k]
    ensures Split(Join(parts)) == parts
    decreases |parts|
  {
    if |parts| == 1 {
      SplitWordPrefix(parts[0], "");
      assert parts[0] + "" == parts[0];
    } else {
      var tail := Join(parts[1..]);
      SplitJoin(parts[1..]);
      assert parts[0] + " " + tail == parts[0] + (" " + tail);
      SplitWordPrefix(parts[0], " " + tail);
      assert (" " + tail)[1..] == tail;
      assert Split(" " + tail) == [""] + parts[1..];
      assert parts[0] + "" == parts[0];
    }
  }

  /** The JSON values the server sends back. */
  datatype Json =
    | JString(s: string)
    | JNumber(n: int)
    | JHeaders(headers: Headers)
    | JArray(items: seq<Json>)
    | JObject(fields: seq<(string, Json)>)

  /** The property names of a JSON object, in serialisation order. */
  function Keys(fields: seq<(string, Json)>): (names: seq<string>)
    ensures |names| == |fields|
    ensures forall k :: 0 <= k < |fields| ==> names[k] == fields[k].0
  {
    seq(|fields|, k requires 0 <= k < |fields| => fields[k].0)
  }
}
