/**
 * One operation form of app.js (`createOperationForm`) as far as its
 * behaviour goes: `sendRequest`, which submits the initiating request and
 * handles its response, and `pollJob`, whose interval callback polls a job
 * until a terminal status or an error. The form's `<progress>` element and
 * response `<pre>` are the state shared by both; local storage holds the log.
 *
 * Time is not modelled: each firing of the interval is a `Tick` carrying the
 * API key read at that moment, the timestamp, and how the fetch settled.
 */
module Forms {
  import opened Wrappers
  import opened Text
  import opened Json
  import opened OpenApi
  import opened Request
  import opened HistoryLog
  import opened Seqs

  /** The `<progress>` element: whether it is hidden, its `max`, and its `value` (None while unset). */
  datatype Progress = Progress(hidden: bool, max: Option<Value>, value: Option<Value>)

  /** What the response `<pre>` shows: nothing yet, a JSON value, or an error's text. */
  datatype Display = Blank | ShowsJson(data: Value) | ShowsError(failure: Failure)

  datatype View = View(progress: Progress, display: Display)

  /** How `fetch(…).then(r => r.json())` settled: a parsed body, or a rejection with its text. */
  datatype Outcome = Response(data: Value) | Failed(message: string)

  /** One firing of the interval: the key in the key input, the current time, and the poll's outcome. */
  datatype Tick = Tick(apiKey: string, time: string, outcome: Outcome)

  function Hide(p: Progress): Progress
  {
    p.(hidden := true)
  }

  /** `path + '/' + id`, with the id converted to a string as `+` does. */
  function StatusPath(path: string, id: Value): (r: string)
    ensures |r| > |path| && r[..|path| + 1] == path + "/"
    ensures id.Str? ==> r == path + "/" + id.s
    ensures id.Num? ==> r[|path| + 1..] == IntToDecimal(id.n)
  {
    path + "/" + ToJsString(id)
  }

  /** The poll request: a GET of `baseUrl + statusPath` carrying only the Authorization header, no body. */
  function PollRequest(baseUrl: string, statusPath: string, apiKey: string): (r: HttpRequest)
    ensures r.verb == "GET" && r.url == baseUrl + statusPath && r.body.None?
    ensures r.headers.Keys == {"Authorization"} && r.headers["Authorization"] == apiKey
  {
    HttpRequest("GET", baseUrl + statusPath, map["Authorization" := apiKey], None)
  }

  /** `data.status && /(completed|failed)/.test(data.status)`: containment, not equality. */
  predicate IsTerminal(data: Value)
  {
    var status := Field(data, "status");
    TruthyField(status) &&
    (Contains(ToJsString(status.value), "completed") || Contains(ToJsString(status.value), "failed"))
  }

  /** The progress rule: `max` and `value` take `total` and `processed` when `total` is truthy and `processed` is defined. */
  function ProgressAfter(p: Progress, data: Value): (r: Progress)
    ensures r.hidden == p.hidden
    ensures TruthyField(Field(data, "total")) && Field(data, "processed").Some? ==>
              r.max == Field(data, "total") && r.value == Field(data, "processed")
    ensures !(TruthyField(Field(data, "total")) && Field(data, "processed").Some?) ==> r == p
  {
    var total, processed := Field(data, "total"), Field(data, "processed");
    if TruthyField(total) && processed.Some? then p.(max := total, value := processed) else p
  }

  /** The outcomes that end polling when the log can be read: an error, a null body, a terminal status. */
  predicate StopsOn(o: Outcome)
  {
    o.Failed? || o.data.Null? || IsTerminal(o.data)
  }

  datatype TickResult = TickResult(active: bool, view: View, slots: map<string, Blob>)

  /**
   * One run of the interval callback. On a response: show it, `saveHistory(null,
   * data)`, update the progress, and clear the interval on a terminal status.
   * Anything thrown on the way (the log cannot be read or re-read, `data` is
   * null) lands in `.catch`, as a failed fetch does: show the error, clear the
   * interval, hide the progress.
   */
  function PollTick(view: View, slots: map<string, Blob>, operationId: string, tick: Tick,
                    parse: string -> Option<Value>): TickResult
  {
    match tick.outcome
    case Failed(message) =>
      TickResult(false, View(Hide(view.progress), ShowsError(NetworkError(message))), slots)
    case Response(data) =>
      var save := SaveHistoryEffect(slots, HistoryKey(operationId), tick.time, Some(Null), data, parse);
      if save.thrown.Some? then TickResult(false, View(Hide(view.progress), ShowsError(save.thrown.value)), save.slots)
      else if data.Null? then TickResult(false, View(Hide(view.progress), ShowsError(TypeError)), save.slots)
      else
        var p := ProgressAfter(view.progress, data);
        if IsTerminal(data) then TickResult(false, View(Hide(p), ShowsJson(data)), save.slots)
        else TickResult(true, View(p, ShowsJson(data)), save.slots)
  }

  /**
   * A tick clears the interval exactly on an error, a null body, a terminal
   * status, or a response whose `saveHistory` throws. A readable log stays
   * readable, and a log that saves cleanly still does after a clean save.
   */
  lemma TickStopsIff(view: View, slots: map<string, Blob>, operationId: string, tick: Tick, parse: string -> Option<Value>)
    ensures var t := PollTick(view, slots, operationId, tick, parse);
            var key := HistoryKey(operationId);
            (!t.active <==> StopsOn(tick.outcome) || (tick.outcome.Response? && !SaveSucceeds(slots, key, parse))) &&
            (Readable(slots, key, parse) ==> Readable(t.slots, key, parse)) &&
            (SaveSucceeds(slots, key, parse) && t.active ==> SaveSucceeds(t.slots, key, parse))
  {
  }

  /**
   * A successful poll response is logged with `request = null` in front of the
   * log; a failed poll leaves storage as it was and shows the error.
   */
  lemma TickRecordsResponse(view: View, slots: map<string, Blob>, operationId: string, tick: Tick,
                            parse: string -> Option<Value>)
    requires Readable(slots, HistoryKey(operationId), parse)
    ensures var t := PollTick(view, slots, operationId, tick, parse);
            var key := HistoryKey(operationId);
            var before := StoredArray(Slot(slots, key), parse).value;
            (tick.outcome.Response? ==>
               StoredArray(Slot(t.slots, key), parse)
                 == Ok(Recorded(before, Entry(tick.time, Some(Null), tick.outcome.data)))) &&
            (tick.outcome.Failed? ==>
               t.slots == slots && t.view.display == ShowsError(NetworkError(tick.outcome.message)))
  {
  }

  /**
   * A response that is not null and is logged without a throw is shown, moves
   * the progress bar only when `total` is truthy and `processed` is defined,
   * and hides it exactly when polling ends. When `saveHistory` throws, the
   * progress keeps its max and value, is hidden, and the error is shown.
   */
  lemma TickProgress(view: View, slots: map<string, Blob>, operationId: string, tick: Tick,
                     parse: string -> Option<Value>)
    requires tick.outcome.Response? && !tick.outcome.data.Null?
    ensures var t := PollTick(view, slots, operationId, tick, parse);
            var data := tick.outcome.data;
            var moves := TruthyField(Field(data, "total")) && Field(data, "processed").Some?;
            SaveSucceeds(slots, HistoryKey(operationId), parse) ==>
              (moves ==> t.view.progress.max == Field(data, "total") && t.view.progress.value == Field(data, "processed")) &&
              (!moves ==> t.view.progress.max == view.progress.max && t.view.progress.value == view.progress.value) &&
              (t.view.progress.hidden <==> view.progress.hidden || IsTerminal(data)) &&
              t.view.display == ShowsJson(data)
    ensures var t := PollTick(view, slots, operationId, tick, parse);
            !SaveSucceeds(slots, HistoryKey(operationId), parse) ==>
              t.view.progress.max == view.progress.max && t.view.progress.value == view.progress.value &&
              t.view.progress.hidden && t.view.display.ShowsError?
  {
  }

  /**
   * A log on which `saveHistory` throws stops polling at the next tick, with
   * the progress hidden and an error shown. An unreadable log is left as it
   * was; a readable one with a kept null entry still gets the response
   * written, and the re-read throws a TypeError.
   */
  lemma CorruptLogStopsPolling(view: View, slots: map<string, Blob>, operationId: string, tick: Tick,
                               parse: string -> Option<Value>)
    requires !SaveSucceeds(slots, HistoryKey(operationId), parse)
    ensures var t := PollTick(view, slots, operationId, tick, parse);
            var key := HistoryKey(operationId);
            !t.active && t.view.progress.hidden && t.view.display.ShowsError? &&
            (!Readable(slots, key, parse) ==> t.slots == slots) &&
            (Readable(slots, key, parse) && tick.outcome.Response? ==>
               t.slots == RecordHistory(slots, key, tick.time, Some(Null), tick.outcome.data, parse).value &&
               t.view.display == ShowsError(TypeError))
  {
  }

  /**
   * A log holding `[null]`: the next poll response, even one that is not
   * terminal, is written in front of the null entry, the re-read throws, and
   * polling stops with the TypeError shown.
   */
  lemma NullEntryStopsPolling(view: View, operationId: string, apiKey: string, time: string,
                              parse: string -> Option<Value>)
    ensures var key := HistoryKey(operationId);
            var data := Obj(map["status" := Str("scraping")]);
            var t := PollTick(view, map[key := Written(Arr([Null]))], operationId, Tick(apiKey, time, Response(data)), parse);
            !t.active && t.view.display == ShowsError(TypeError) && t.view.progress.hidden &&
            key in t.slots && t.slots[key] == Written(Arr([Entry(time, Some(Null), data), Null]))
  {
    var key := HistoryKey(operationId);
    var slots := map[key := Written(Arr([Null]))];
    assert Slot(slots, key) == Some(Written(Arr([Null])));
    assert StoredArray(Slot(slots, key), parse) == Ok([Null]);
    assert [Null][..Min(Limit - 1, 1)] == [Null];
    assert !NoNullItem([Null]) by { assert [Null][0].Null?; }
    assert !SaveSucceeds(slots, key, parse);
  }

  /** A numeric status never ends polling: its decimal text contains neither word. */
  lemma NumericStatusNeverTerminal(fields: map<string, Value>, n: int)
    ensures !IsTerminal(Obj(fields["status" := Num(n)]))
  {
    var text := ToJsString(Num(n));
    assert DrawnFrom(text, Digits + {'-'});
    NoOccurrenceWithoutFirstChar(text, "completed", Digits + {'-'});
    NoOccurrenceWithoutFirstChar(text, "failed", Digits + {'-'});
  }

  datatype RunResult = RunResult(consumed: nat, active: bool, view: View, slots: map<string, Blob>)

  /** The interval firing once per tick until its callback clears it: how many ticks ran, and the state after. */
  function PollRun(view: View, slots: map<string, Blob>, operationId: string, ticks: seq<Tick>,
                   parse: string -> Option<Value>): (r: RunResult)
    ensures r.consumed <= |ticks|
    decreases |ticks|
  {
    if ticks == [] then RunResult(0, true, view, slots)
    else
      var t := PollTick(view, slots, operationId, ticks[0], parse);
      if !t.active then RunResult(1, false, t.view, t.slots)
      else
        var rest := PollRun(t.view, t.slots, operationId, ticks[1..], parse);
        rest.(consumed := rest.consumed + 1)
  }

  /** The result of a whole run, seen from tick `i` on, where the run is still going. */
  function RunFrom(view: View, slots: map<string, Blob>, operationId: string, ticks: seq<Tick>, i: nat,
                   parse: string -> Option<Value>): RunResult
    requires i <= |ticks|
  {
    var rest := PollRun(view, slots, operationId, ticks[i..], parse);
    rest.(consumed := rest.consumed + i)
  }

  /** One firing of the interval in the middle of a run: the run's result seen from the next tick. */
  lemma PollRunStep(view: View, slots: map<string, Blob>, operationId: string, ticks: seq<Tick>,
                    i: nat, parse: string -> Option<Value>, t: TickResult)
    requires i < |ticks| && t == PollTick(view, slots, operationId, ticks[i], parse)
    ensures RunFrom(view, slots, operationId, ticks, i, parse)
            == if t.active then RunFrom(t.view, t.slots, operationId, ticks, i + 1, parse)
               else RunResult(i + 1, false, t.view, t.slots)
  {
    assert ticks[i..][0] == ticks[i] && ticks[i..][1..] == ticks[i + 1..];
  }

  /**
   * On a log that saves cleanly, polling stops at the first error, null body
   * or terminal status and at no other tick; if none comes, every tick runs
   * and the interval stays set. On a log where `saveHistory` throws, the
   * first tick, whatever it brings, stops polling.
   */
  lemma {:induction false} RunStopsAtFirstStop(view: View, slots: map<string, Blob>, operationId: string,
                                               ticks: seq<Tick>, parse: string -> Option<Value>)
    ensures var r := PollRun(view, slots, operationId, ticks, parse);
            SaveSucceeds(slots, HistoryKey(operationId), parse) ==>
              (forall k :: 0 <= k < r.consumed - 1 ==> !StopsOn(ticks[k].outcome)) &&
              (r.active <==> r.consumed == |ticks| && forall k :: 0 <= k < |ticks| ==> !StopsOn(ticks[k].outcome)) &&
              (!r.active ==> 0 < r.consumed && StopsOn(ticks[r.consumed - 1].outcome))
    ensures var r := PollRun(view, slots, operationId, ticks, parse);
            !SaveSucceeds(slots, HistoryKey(operationId), parse) ==>
              r.consumed == Min(1, |ticks|) && (r.active <==> ticks == [])
    decreases |ticks|
  {
    if ticks != [] {
      var t := PollTick(view, slots, operationId, ticks[0], parse);
      TickStopsIff(view, slots, operationId, ticks[0], parse);
      if t.active {
        RunStopsAtFirstStop(t.view, t.slots, operationId, ticks[1..], parse);
        var rest := PollRun(t.view, t.slots, operationId, ticks[1..], parse);
        assert forall k :: 1 <= k < |ticks| ==> ticks[k] == ticks[1..][k - 1];
      }
    }
  }

  /** The log entry one tick produces: its response with `request = null`, or none for a failed poll. */
  function TickEntries(tick: Tick): (r: seq<Value>)
    ensures |r| <= 1
    ensures r != [] <==> tick.outcome.Response?
  {
    if tick.outcome.Response? then [Entry(tick.time, Some(Null), tick.outcome.data)] else []
  }

  /** The log entries the responses among `ticks` produce, oldest first. */
  function PolledEntries(ticks: seq<Tick>): seq<Value>
    decreases |ticks|
  {
    if ticks == [] then [] else TickEntries(ticks[0]) + PolledEntries(ticks[1..])
  }

  /** One tick on a readable log records its entries, if any, in front of the log. */
  lemma TickLogs(view: View, slots: map<string, Blob>, operationId: string, tick: Tick, parse: string -> Option<Value>)
    requires Readable(slots, HistoryKey(operationId), parse)
    ensures var t := PollTick(view, slots, operationId, tick, parse);
            var key := HistoryKey(operationId);
            StoredArray(Slot(t.slots, key), parse)
              == Ok(RecordMany(StoredArray(Slot(slots, key), parse).value, TickEntries(tick)))
  {
    TickRecordsResponse(view, slots, operationId, tick, parse);
    var before := StoredArray(Slot(slots, HistoryKey(operationId)), parse).value;
    if tick.outcome.Response? {
      var e := TickEntries(tick);
      assert e[1..] == [];
      assert RecordMany(before, e) == RecordMany(Recorded(before, e[0]), []);
    }
  }

  /** After polling, the log holds every polled response recorded in turn (so at most five, newest first). */
  lemma {:induction false} RunRecordsResponses(view: View, slots: map<string, Blob>, operationId: string,
                                               ticks: seq<Tick>, parse: string -> Option<Value>)
    requires Readable(slots, HistoryKey(operationId), parse)
    ensures var r := PollRun(view, slots, operationId, ticks, parse);
            var key := HistoryKey(operationId);
            StoredArray(Slot(r.slots, key), parse)
              == Ok(RecordMany(StoredArray(Slot(slots, key), parse).value, PolledEntries(ticks[..r.consumed])))
    decreases |ticks|
  {
    var key := HistoryKey(operationId);
    var r := PollRun(view, slots, operationId, ticks, parse);
    var before := StoredArray(Slot(slots, key), parse).value;
    if ticks == [] {
      assert ticks[..r.consumed] == [];
    } else {
      var t := PollTick(view, slots, operationId, ticks[0], parse);
      TickStopsIff(view, slots, operationId, ticks[0], parse);
      TickLogs(view, slots, operationId, ticks[0], parse);
      var first := TickEntries(ticks[0]);
      if t.active {
        var rest := PollRun(t.view, t.slots, operationId, ticks[1..], parse);
        assert r == rest.(consumed := rest.consumed + 1);
        RunRecordsResponses(t.view, t.slots, operationId, ticks[1..], parse);
        PolledEntriesStep(ticks, rest.consumed);
        RecordsInTurn(key, parse, before, first, PolledEntries(ticks[1..][..rest.consumed]), t.slots, r.slots);
      } else {
        assert r == RunResult(1, false, t.view, t.slots);
        StoppedRunRecords(ticks, first);
      }
    }
  }

  /** A log that one step recorded `first` in, and the next steps `later`, holds both batches recorded in turn. */
  lemma RecordsInTurn(key: string, parse: string -> Option<Value>, before: seq<Value>, first: seq<Value>,
                      later: seq<Value>, middle: map<string, Blob>, after: map<string, Blob>)
    requires StoredArray(Slot(middle, key), parse) == Ok(RecordMany(before, first))
    requires StoredArray(Slot(after, key), parse) == Ok(RecordMany(StoredArray(Slot(middle, key), parse).value, later))
    ensures StoredArray(Slot(after, key), parse) == Ok(RecordMany(before, first + later))
  {
    RecordManyAppend(before, first, later);
  }

  /** The entries of the first `n + 1` ticks: the first tick's, then those of the `n` after it. */
  lemma PolledEntriesStep(ticks: seq<Tick>, n: nat)
    requires n < |ticks|
    ensures PolledEntries(ticks[..n + 1]) == TickEntries(ticks[0]) + PolledEntries(ticks[1..][..n])
  {
    var prefix := ticks[..n + 1];
    assert prefix[0] == ticks[0];
    assert prefix[1..] == ticks[1..][..n];
  }

  /** A run that stops at its first tick has polled exactly that tick's entries. */
  lemma StoppedRunRecords(ticks: seq<Tick>, first: seq<Value>)
    requires ticks != [] && first == TickEntries(ticks[0])
    ensures PolledEntries(ticks[..1]) == first
  {
    assert ticks[..1] == [ticks[0]];
    assert PolledEntries([ticks[0]]) == first + PolledEntries([]);
    assert first + [] == first;
  }

  /** Recording two batches in turn is recording them together. */
  lemma {:induction false} RecordManyAppend(items: seq<Value>, first: seq<Value>, second: seq<Value>)
    ensures RecordMany(items, first + second) == RecordMany(RecordMany(items, first), second)
    decreases |first|
  {
    if first != [] {
      assert (first + second)[0] == first[0];
      assert (first + second)[1..] == first[1..] + second;
      RecordManyAppend(Recorded(items, first[0]), first[1..], second);
    } else {
      assert first + second == second;
    }
  }

  datatype ReceiveResult = ReceiveResult(view: View, slots: map<string, Blob>, poll: Option<Value>)

  /**
   * The `.then`/`.catch` of `sendRequest`'s fetch: show the response, log it
   * with the request body, then start polling its `id` if it names a job, or
   * hide the progress. A rejection, or anything thrown on the way, shows the
   * error and hides the progress.
   */
  function AfterResponse(view: View, slots: map<string, Blob>, e: Endpoint, time: string,
                         body: Option<string>, outcome: Outcome, parse: string -> Option<Value>)
    : ReceiveResult
  {
    match outcome
    case Failed(message) =>
      ReceiveResult(View(Hide(view.progress), ShowsError(NetworkError(message))), slots, None)
    case Response(data) =>
      var request := if body.Some? then Some(Str(body.value)) else None;
      var save := SaveHistoryEffect(slots, HistoryKey(e.op.operationId), time, request, data, parse);
      if save.thrown.Some? then ReceiveResult(View(Hide(view.progress), ShowsError(save.thrown.value)), save.slots, None)
      else
        match JobToPoll(data, e.path)
        case Err(err) => ReceiveResult(View(Hide(view.progress), ShowsError(err)), save.slots, None)
        case Ok(None) => ReceiveResult(View(Hide(view.progress), ShowsJson(data)), save.slots, None)
        case Ok(Some(id)) => ReceiveResult(View(view.progress, ShowsJson(data)), save.slots, Some(id))
  }

  /**
   * Polling starts exactly when the response is logged without a throw, has
   * a truthy `id` and comes from a job endpoint, and it polls that id. While
   * the log can be read, the response is always logged first, with the
   * submitted body as its request.
   */
  lemma ReceiveStartsPollingIff(view: View, slots: map<string, Blob>, e: Endpoint, time: string,
                                body: Option<string>, outcome: Outcome, parse: string -> Option<Value>)
    ensures var r := AfterResponse(view, slots, e, time, body, outcome, parse);
            (r.poll.Some? <==> outcome.Response? && SaveSucceeds(slots, HistoryKey(e.op.operationId), parse) &&
                               TruthyField(Field(outcome.data, "id")) && IsJobPath(e.path)) &&
            (r.poll.Some? ==> r.poll == Field(outcome.data, "id") && r.view.progress == view.progress) &&
            (r.poll.None? ==> r.view.progress.hidden)
    ensures var r := AfterResponse(view, slots, e, time, body, outcome, parse);
            var key := HistoryKey(e.op.operationId);
            Readable(slots, key, parse) && outcome.Response? ==>
              StoredArray(Slot(r.slots, key), parse)
                == Ok(Recorded(StoredArray(Slot(slots, key), parse).value,
                               Entry(time, if body.Some? then Some(Str(body.value)) else None, outcome.data)))
  {
  }

  /** The three example statuses: "scraping" keeps polling, "completed" and "job-failed" stop it. */
  lemma TerminalExamples()
    ensures !IsTerminal(Obj(map["status" := Str("scraping")]))
    ensures IsTerminal(Obj(map["status" := Str("completed")]))
    ensures IsTerminal(Obj(map["status" := Str("job-failed")]))
  {
    assert OccursAt("completed", "completed", 0);
    assert OccursAt("job-failed", "failed", 4);
    assert !Contains("scraping", "completed");
    NoOccurrenceWithoutFirstChar("scraping", "failed", {'s', 'c', 'r', 'a', 'p', 'i', 'n', 'g'});
  }

  /** An operation form: its endpoint, its progress bar and response area, and the storage it logs to. */
  class OperationForm {
    const baseUrl: string
    const endpoint: Endpoint
    const storage: LocalStorage
    var progress: Progress
    var display: Display

    constructor(baseUrl: string, endpoint: Endpoint, storage: LocalStorage)
      ensures this.baseUrl == baseUrl && this.endpoint == endpoint && this.storage == storage
      ensures progress == Progress(true, None, None) && display == Blank
    {
      this.baseUrl := baseUrl;
      this.endpoint := endpoint;
      this.storage := storage;
      progress := Progress(true, None, None);
      display := Blank;
    }

    function CurrentView(): View
      reads this
    {
      View(progress, display)
    }

    /**
     * The synchronous half of `sendRequest`: build the URL and headers, parse
     * the body; on an invalid body stop before anything changes, otherwise
     * show the progress bar at 0 with no max and hand the request to fetch.
     */
    method Submit(entered: seq<string>, bodyText: string, apiKey: string, encode: string -> string,
                  parse: string -> Option<Value>, stringify: Value -> string)
      returns (r: Result<HttpRequest, SubmitError>)
      requires |entered| == |PathNames(endpoint.op)| + |QueryNames(endpoint.op)|
      modifies this
      ensures r == PrepareRequest(baseUrl, endpoint, FormInputs(endpoint.op, entered), bodyText, apiKey,
                                  encode, parse, stringify)
      ensures display == old(display)
      ensures progress == if r.Ok? then Progress(false, None, Some(Num(0))) else old(progress)
    {
      var fields := FormInputs(endpoint.op, entered);
      var url := BuildUrl(baseUrl, endpoint.path, endpoint.op, fields, encode);
      var headers := RequestHeaders(apiKey);
      var body: Option<string> := None;
      if endpoint.op.hasRequestBody {
        var parsed := parse(bodyText);
        if parsed.None? {
          return Err(InvalidJsonBody);
        }
        body := Some(stringify(parsed.value));
      }
      progress := Progress(false, None, Some(Num(0)));
      r := Ok(HttpRequest(endpoint.verb, url, headers, body));
    }

    /** The asynchronous half of `sendRequest`: handle how the fetch settled; answer the job id to poll, if any. */
    method Receive(outcome: Outcome, body: Option<string>, time: string, parse: string -> Option<Value>)
      returns (poll: Option<Value>)
      modifies this, storage
      ensures var expected := AfterResponse(old(CurrentView()), old(storage.slots), endpoint, time, body, outcome, parse);
              CurrentView() == expected.view && storage.slots == expected.slots && poll == expected.poll
    {
      poll := None;
      match outcome {
        case Failed(message) =>
          display := ShowsError(NetworkError(message));
          progress := Hide(progress);
        case Response(data) =>
          display := ShowsJson(data);
          var request := if body.Some? then Some(Str(body.value)) else None;
          var saved := storage.SaveHistory(endpoint.op.operationId, time, request, data, parse);
          if saved.Err? {
            display := ShowsError(saved.error);
            progress := Hide(progress);
            return;
          }
          if data.Null? {
            display := ShowsError(TypeError);
            progress := Hide(progress);
            return;
          }
          var id := Field(data, "id");
          if TruthyField(id) && IsJobPath(endpoint.path) {
            poll := id;
          } else {
            progress := Hide(progress);
          }
      }
    }
  }

  /** The interval `pollJob(id)` sets up for a form; `active` is false once `clearInterval` has run. */
  class JobPoll {
    const form: OperationForm
    const statusPath: string
    var active: bool

    constructor(form: OperationForm, id: Value)
      ensures this.form == form && statusPath == StatusPath(form.endpoint.path, id) && active
    {
      this.form := form;
      statusPath := form.endpoint.path + "/" + ToJsString(id);
      active := true;
    }

    /**
     * One firing of the interval: fetch `baseUrl + statusPath` with the key
     * as it is now, then run the callback on how the fetch settled.
     */
    method Tick(tick: Tick, parse: string -> Option<Value>) returns (request: HttpRequest)
      requires active
      modifies this, form, form.storage
      ensures request == PollRequest(form.baseUrl, statusPath, tick.apiKey)
      ensures var t := PollTick(old(form.CurrentView()), old(form.storage.slots), form.endpoint.op.operationId, tick, parse);
              active == t.active && form.CurrentView() == t.view && form.storage.slots == t.slots
    {
      request := PollRequest(form.baseUrl, statusPath, tick.apiKey);
      match tick.outcome {
        case Failed(message) =>
          form.display := ShowsError(NetworkError(message));
          active := false;
          form.progress := Hide(form.progress);
        case Response(data) =>
          form.display := ShowsJson(data);
          var saved := form.storage.SaveHistory(form.endpoint.op.operationId, tick.time, Some(Null), data, parse);
          if saved.Err? || data.Null? {
            form.display := ShowsError(if saved.Err? then saved.error else TypeError);
            active := false;
            form.progress := Hide(form.progress);
            return;
          }
          var total, processed := Field(data, "total"), Field(data, "processed");
          if TruthyField(total) && processed.Some? {
            form.progress := form.progress.(max := total, value := processed);
          }
          var status := Field(data, "status");
          if TruthyField(status) &&
             (Contains(ToJsString(status.value), "completed") || Contains(ToJsString(status.value), "failed")) {
            active := false;
            form.progress := Hide(form.progress);
          }
      }
    }

    /** The interval firing once per tick while it is set; answers the requests it sent. */
    method Run(ticks: seq<Tick>, parse: string -> Option<Value>) returns (requests: seq<HttpRequest>)
      requires active
      modifies this, form, form.storage
      ensures var r := PollRun(old(form.CurrentView()), old(form.storage.slots), form.endpoint.op.operationId, ticks, parse);
              |requests| == r.consumed && active == r.active &&
              form.CurrentView() == r.view && form.storage.slots == r.slots
      ensures forall k :: 0 <= k < |requests| ==> requests[k] == PollRequest(form.baseUrl, statusPath, ticks[k].apiKey)
    {
      var operationId := form.endpoint.op.operationId;
      ghost var total := RunFrom(form.CurrentView(), form.storage.slots, operationId, ticks, 0, parse);
      assert ticks[0..] == ticks;
      ghost var view, slots := form.CurrentView(), form.storage.slots;
      requests := [];
      var i := 0;
      while i < |ticks| && active
        invariant 0 <= i <= |ticks| && |requests| == i
        invariant view == form.CurrentView() && slots == form.storage.slots
        invariant forall k :: 0 <= k < i ==> requests[k] == PollRequest(form.baseUrl, statusPath, ticks[k].apiKey)
        invariant active ==> total == RunFrom(view, slots, operationId, ticks, i, parse)
        invariant !active ==> total == RunResult(i, false, view, slots)
      {
        ghost var t := PollTick(view, slots, operationId, ticks[i], parse);
        PollRunStep(view, slots, operationId, ticks, i, parse, t);
        var request := Tick(ticks[i], parse);
        view, slots := t.view, t.slots;
        requests := requests + [request];
        i := i + 1;
      }
    }
  }
}
