/**
 * How `sendRequest` (app.js) builds the initiating request from an operation
 * form, and how it decides that the response names a long-running job.
 * Percent-encoding (`encodeURIComponent`) and the JSON codec
 * (`JSON.parse`, `JSON.stringify`) are parameters.
 */
module Request {
  import opened Wrappers
  import opened Text
  import opened Json
  import opened OpenApi

  /** An input element of the form: its `name` attribute and the text typed into it. */
  datatype Input = Input(name: string, value: string)

  /** What is handed to `fetch`: the URL and the `{method, headers, body}` options. */
  datatype HttpRequest = HttpRequest(verb: string, url: string, headers: map<string, string>, body: Option<string>)

  /** The local failure that stops a submission before anything is sent. */
  datatype SubmitError = InvalidJsonBody

  /** The names of the parameters declared `in` the given location, in declaration order. */
  function Names(params: seq<Parameter>, location: Location): (r: seq<string>)
    ensures |r| <= |params|
    ensures forall k :: 0 <= k < |params| && params[k].location == location ==> params[k].name in r
    ensures forall x :: x in r ==> exists k :: 0 <= k < |params| && params[k].location == location && params[k].name == x
  {
    if params == [] then []
    else
      var n := |params| - 1;
      var r := Names(params[..n], location) + (if params[n].location == location then [params[n].name] else []);
      assert forall k :: 0 <= k < n ==> params[..n][k] == params[k];
      r
  }

  /** The names of a single parameter: its own name when it is declared in the location, else none. */
  lemma NamesOne(p: Parameter, location: Location)
    ensures Names([p], location) == if p.location == location then [p.name] else []
  {
    assert [p][..0] == [];
  }

  /** Names appended after a parameter are the names before it, then that parameter's own. */
  lemma NamesSnoc(params: seq<Parameter>, p: Parameter, location: Location)
    ensures Names(params + [p], location) == Names(params, location) + (if p.location == location then [p.name] else [])
  {
    var whole := params + [p];
    assert whole[..|whole| - 1] == params;
  }

  /**
   * `filter` keeps declaration order and one name per parameter: the names
   * of two runs of parameters are the names of each run in turn.
   */
  lemma {:induction false} NamesConcat(first: seq<Parameter>, second: seq<Parameter>, location: Location)
    ensures Names(first + second, location) == Names(first, location) + Names(second, location)
    decreases |second|
  {
    if second == [] {
      assert first + second == first;
    } else {
      var n := |second| - 1;
      var init, p := second[..n], second[n];
      assert second == init + [p];
      assert first + second == (first + init) + [p];
      NamesSnoc(first + init, p, location);
      NamesSnoc(init, p, location);
      NamesConcat(first, init, location);
    }
  }

  function PathNames(op: Operation): seq<string>
  {
    Names(op.parameters, InPath)
  }

  function QueryNames(op: Operation): seq<string>
  {
    Names(op.parameters, InQuery)
  }

  /** The form's inputs in document order: one per path parameter, then one per query parameter. */
  function FormInputs(op: Operation, entered: seq<string>): (fields: seq<Input>)
    requires |entered| == |PathNames(op)| + |QueryNames(op)|
    ensures |fields| == |entered|
    ensures forall k :: 0 <= k < |fields| ==>
              fields[k].name == (PathNames(op) + QueryNames(op))[k] && fields[k].value == entered[k]
  {
    var names := PathNames(op) + QueryNames(op);
    seq(|names|, k requires 0 <= k < |names| => Input(names[k], entered[k]))
  }

  /**
   * `form.querySelector('[name="…"]').value`: the value of the first input
   * with that name. Every parameter has an input, so the empty answer for a
   * missing name is never used by `sendRequest`.
   */
  function InputValue(fields: seq<Input>, name: string): (r: string)
    ensures (forall k :: 0 <= k < |fields| ==> fields[k].name != name) ==> r == ""
  {
    if fields == [] then ""
    else if fields[0].name == name then fields[0].value
    else InputValue(fields[1..], name)
  }

  /** The value read for a name is the one typed into the first input carrying that name. */
  lemma {:induction false} InputValueFirstMatch(fields: seq<Input>, k: nat)
    requires k < |fields|
    requires forall j :: 0 <= j < k ==> fields[j].name != fields[k].name
    ensures InputValue(fields, fields[k].name) == fields[k].value
  {
    if k > 0 {
      assert fields[1..][k - 1] == fields[k];
      InputValueFirstMatch(fields[1..], k - 1);
    }
  }

  /** With distinct parameter names, each placeholder and each query pair uses what was typed for that parameter. */
  lemma FormInputValue(op: Operation, entered: seq<string>, k: nat)
    requires |entered| == |PathNames(op)| + |QueryNames(op)|
    requires k < |entered|
    requires var names := PathNames(op) + QueryNames(op);
             forall j :: 0 <= j < k ==> names[j] != names[k]
    ensures InputValue(FormInputs(op, entered), (PathNames(op) + QueryNames(op))[k]) == entered[k]
  {
    InputValueFirstMatch(FormInputs(op, entered), k);
  }

  /**
   * Every name `sendRequest` looks up, a path or query parameter's, is carried
   * by an input of the form, so `querySelector` never answers null for it.
   */
  lemma LookupsFindAnInput(op: Operation, entered: seq<string>, name: string)
    requires |entered| == |PathNames(op)| + |QueryNames(op)|
    requires name in PathNames(op) + QueryNames(op)
    ensures exists k :: 0 <= k < |FormInputs(op, entered)| && FormInputs(op, entered)[k].name == name
  {
    var names := PathNames(op) + QueryNames(op);
    var k :| 0 <= k < |names| && names[k] == name;
    assert FormInputs(op, entered)[k].name == name;
  }

  function Placeholder(name: string): string
  {
    "{" + name + "}"
  }

  /** The URL after the `pathParams.forEach` loop has replaced the placeholders of `names`, in order. */
  function Substituted(url: string, names: seq<string>, fields: seq<Input>, encode: string -> string): string
  {
    if names == [] then url
    else
      var name := names[|names| - 1];
      ReplaceFirst(Substituted(url, names[..|names| - 1], fields, encode),
                   Placeholder(name), encode(InputValue(fields, name)))
  }

  /** The `qs` array after the `queryParams.forEach` loop: `name=encoded` for each non-empty value, in order. */
  function QueryPairs(names: seq<string>, fields: seq<Input>, encode: string -> string): seq<string>
  {
    if names == [] then []
    else
      var name := names[|names| - 1];
      var value := InputValue(fields, name);
      QueryPairs(names[..|names| - 1], fields, encode)
        + (if value != "" then [name + "=" + encode(value)] else [])
  }

  /** What is appended to the URL: nothing, or `?` and the pairs joined by `&`. */
  function QuerySuffix(pairs: seq<string>): (r: string)
    ensures r == "" <==> pairs == []
    ensures r != "" ==> r[0] == '?' && r[1..] == Join(pairs, "&")
  {
    if |pairs| == 0 then "" else "?" + Join(pairs, "&")
  }

  /** The URL `sendRequest` fetches. Placeholders are replaced in `baseUrl + path` before the query is added. */
  function RequestUrl(baseUrl: string, path: string, op: Operation, fields: seq<Input>, encode: string -> string): string
  {
    Substituted(baseUrl + path, PathNames(op), fields, encode)
      + QuerySuffix(QueryPairs(QueryNames(op), fields, encode))
  }

  /** The two `forEach` loops of `sendRequest` that build the URL. */
  method BuildUrl(baseUrl: string, path: string, op: Operation, fields: seq<Input>, encode: string -> string)
    returns (url: string)
    ensures url == RequestUrl(baseUrl, path, op, fields, encode)
  {
    url := baseUrl + path;
    var pathNames := PathNames(op);
    var i := 0;
    while i < |pathNames|
      invariant 0 <= i <= |pathNames|
      invariant url == Substituted(baseUrl + path, pathNames[..i], fields, encode)
    {
      var value := InputValue(fields, pathNames[i]);
      url := ReplaceFirst(url, Placeholder(pathNames[i]), encode(value));
      assert pathNames[..i + 1][..i] == pathNames[..i];
      i := i + 1;
    }
    assert pathNames[..i] == pathNames;
    var queryNames := QueryNames(op);
    var qs: seq<string> := [];
    var j := 0;
    while j < |queryNames|
      invariant 0 <= j <= |queryNames|
      invariant qs == QueryPairs(queryNames[..j], fields, encode)
    {
      var value := InputValue(fields, queryNames[j]);
      if value != "" {
        qs := qs + [queryNames[j] + "=" + encode(value)];
      }
      assert queryNames[..j + 1][..j] == queryNames[..j];
      j := j + 1;
    }
    assert queryNames[..j] == queryNames;
    if |qs| > 0 {
      url := url + "?" + Join(qs, "&");
    }
  }

  /** No query pair is produced exactly when every query input is empty. */
  lemma {:induction false} QueryPairsEmptyIff(names: seq<string>, fields: seq<Input>, encode: string -> string)
    ensures QueryPairs(names, fields, encode) == [] <==>
            forall k :: 0 <= k < |names| ==> InputValue(fields, names[k]) == ""
  {
    if names != [] {
      var n := |names| - 1;
      QueryPairsEmptyIff(names[..n], fields, encode);
      assert forall k :: 0 <= k < n ==> names[..n][k] == names[k];
    }
  }

  /** The query pairs of consecutive parameter lists follow one another: pairs keep declaration order. */
  lemma {:induction false} QueryPairsConcat(first: seq<string>, second: seq<string>, fields: seq<Input>,
                                            encode: string -> string)
    ensures QueryPairs(first + second, fields, encode) == QueryPairs(first, fields, encode) + QueryPairs(second, fields, encode)
    decreases |second|
  {
    if second == [] {
      assert first + second == first;
    } else {
      var n := |second| - 1;
      var whole := first + second;
      assert whole[..|whole| - 1] == first + second[..n];
      assert whole[|whole| - 1] == second[n];
      var value := InputValue(fields, second[n]);
      var last := if value != "" then [second[n] + "=" + encode(value)] else [];
      assert QueryPairs(whole, fields, encode) == QueryPairs(first + second[..n], fields, encode) + last;
      assert QueryPairs(second, fields, encode) == QueryPairs(second[..n], fields, encode) + last;
      QueryPairsConcat(first, second[..n], fields, encode);
      var a, b := QueryPairs(first, fields, encode), QueryPairs(second[..n], fields, encode);
      assert (a + b) + last == a + (b + last);
    }
  }

  /** Every query parameter whose input is not empty contributes its `name=encoded value` pair. */
  lemma {:induction false} QueryPairsComplete(names: seq<string>, fields: seq<Input>, encode: string -> string, k: nat)
    requires k < |names| && InputValue(fields, names[k]) != ""
    ensures names[k] + "=" + encode(InputValue(fields, names[k])) in QueryPairs(names, fields, encode)
  {
    var n := |names| - 1;
    if k < n {
      assert names[..n][k] == names[k];
      QueryPairsComplete(names[..n], fields, encode, k);
    }
  }

  /** `?` is appended, and the URL gets a query, exactly when some query input is non-empty. */
  lemma QuerySuffixPresentIff(names: seq<string>, fields: seq<Input>, encode: string -> string)
    ensures var suffix := QuerySuffix(QueryPairs(names, fields, encode));
            (suffix == "" <==> forall k :: 0 <= k < |names| ==> InputValue(fields, names[k]) == "") &&
            (suffix != "" ==> suffix[0] == '?')
  {
    QueryPairsEmptyIff(names, fields, encode);
  }

  /** Every query pair is `name=encoded value` for a query parameter whose input is not empty. */
  lemma {:induction false} QueryPairsWellFormed(names: seq<string>, fields: seq<Input>, encode: string -> string)
    ensures |QueryPairs(names, fields, encode)| <= |names|
    ensures forall x :: x in QueryPairs(names, fields, encode) ==>
              exists k :: 0 <= k < |names| && InputValue(fields, names[k]) != "" &&
                          x == names[k] + "=" + encode(InputValue(fields, names[k]))
  {
    if names != [] {
      var n := |names| - 1;
      QueryPairsWellFormed(names[..n], fields, encode);
      forall x | x in QueryPairs(names, fields, encode)
        ensures exists k :: 0 <= k < |names| && InputValue(fields, names[k]) != "" &&
                            x == names[k] + "=" + encode(InputValue(fields, names[k]))
      {
        if x in QueryPairs(names[..n], fields, encode) {
          var k :| 0 <= k < n && InputValue(fields, names[..n][k]) != "" &&
                   x == names[..n][k] + "=" + encode(InputValue(fields, names[..n][k]));
          assert names[..n][k] == names[k];
        } else {
          assert x == names[n] + "=" + encode(InputValue(fields, names[n]));
        }
      }
    }
  }

  /** The initiating request's headers: the raw key (no `Bearer` prefix) and the JSON content type. */
  function RequestHeaders(apiKey: string): (h: map<string, string>)
    ensures h.Keys == {"Authorization", "Content-Type"}
    ensures h["Authorization"] == apiKey && h["Content-Type"] == "application/json"
  {
    map["Authorization" := apiKey, "Content-Type" := "application/json"]
  }

  /** `JSON.stringify(JSON.parse(text))` for an operation with a body; no body otherwise. */
  function RequestBody(op: Operation, text: string, parse: string -> Option<Value>, stringify: Value -> string)
    : (r: Result<Option<string>, SubmitError>)
    ensures r.Err? <==> op.hasRequestBody && parse(text).None?
    ensures r.Ok? ==> (r.value.Some? <==> op.hasRequestBody)
    ensures r.Ok? && op.hasRequestBody ==> r.value == Some(stringify(parse(text).value))
  {
    if !op.hasRequestBody then Ok(None)
    else match parse(text)
      case None => Err(InvalidJsonBody)
      case Some(v) => Ok(Some(stringify(v)))
  }

  /**
   * The request `sendRequest` hands to `fetch`, or the invalid-body failure
   * that ends the submission before anything is sent.
   */
  function PrepareRequest(baseUrl: string, e: Endpoint, fields: seq<Input>, bodyText: string, apiKey: string,
                          encode: string -> string, parse: string -> Option<Value>, stringify: Value -> string)
    : (r: Result<HttpRequest, SubmitError>)
    ensures r.Err? <==> e.op.hasRequestBody && parse(bodyText).None?
    ensures r.Ok? ==> r.value.verb == e.verb && r.value.url == RequestUrl(baseUrl, e.path, e.op, fields, encode)
    ensures r.Ok? ==> r.value.headers == RequestHeaders(apiKey)
    ensures r.Ok? ==> r.value.body == RequestBody(e.op, bodyText, parse, stringify).value
  {
    match RequestBody(e.op, bodyText, parse, stringify)
    case Err(err) => Err(err)
    case Ok(body) => Ok(HttpRequest(e.verb, RequestUrl(baseUrl, e.path, e.op, fields, encode), RequestHeaders(apiKey), body))
  }

  /** The fixed list of job-producing endpoints: the path ends with `crawl`, `batch-scrape` or `extract`. */
  predicate IsJobPath(path: string)
  {
    EndsWith(path, "crawl") || EndsWith(path, "batch-scrape") || EndsWith(path, "extract")
  }

  /**
   * `data.id && (path.endsWith(…) || …)`: the job id to poll, or None when the
   * response is not a job. Reading `id` of a null response throws.
   */
  function JobToPoll(data: Value, path: string): (r: Result<Option<Value>, Failure>)
    ensures r.Err? <==> data.Null?
    ensures r.Err? ==> r.error == TypeError
    ensures r.Ok? ==> (r.value.Some? <==> TruthyField(Field(data, "id")) && IsJobPath(path))
    ensures r.Ok? && r.value.Some? ==> Field(data, "id") == r.value
  {
    if data.Null? then Err(TypeError)
    else
      var id := Field(data, "id");
      if TruthyField(id) && IsJobPath(path) then Ok(id) else Ok(None)
  }

  lemma EndsWithAt(s: string, suffix: string, k: nat)
    requires EndsWith(s, suffix) && k < |suffix|
    ensures s[|s| - |suffix| + k] == suffix[k]
  {
    assert s[|s| - |suffix|..][k] == suffix[k];
  }

  /** A `/scrape` endpoint is not on the job list, so its responses are never polled. */
  lemma ScrapeIsNotJob(path: string, data: Value)
    requires EndsWith(path, "/scrape")
    ensures !IsJobPath(path)
    ensures forall id :: JobToPoll(data, path) != Ok(Some(id))
  {
    EndsWithAt(path, "/scrape", 6);
    EndsWithAt(path, "/scrape", 0);
  }

  /** A response `{id: "abc"}` from a `/crawl` endpoint starts polling of job "abc". */
  lemma CrawlResponseIsJob(path: string, id: string)
    requires EndsWith(path, "/crawl") && id != ""
    ensures JobToPoll(Obj(map["id" := Str(id)]), path) == Ok(Some(Str(id)))
  {
    var p := path[|path| - 5..];
    assert p == path[|path| - 6..][1..];
  }
}
