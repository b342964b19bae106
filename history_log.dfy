/**
 * The bounded, newest-first request/response log of app.js: `saveHistory`
 * and the read half of `loadHistory`, over the browser's local storage.
 *
 * A stored blob is either text put there by someone else, whose meaning is
 * given by the `parse` parameter (JSON.parse, None where it throws), or text
 * this program wrote with JSON.stringify, which parses back to the value it
 * was written from.
 */
module HistoryLog {
  import opened Wrappers
  import opened Seqs
  import opened Json

  /** At most this many entries are kept per operation (`arr.slice(0,5)`). */
  const Limit: nat := 5

  datatype Blob = Raw(text: string) | Written(value: Value)

  /** The storage key of an operation's log. */
  function HistoryKey(operationId: string): string
  {
    "hist_" + operationId
  }

  function Slot(slots: map<string, Blob>, key: string): Option<Blob>
  {
    if key in slots then Some(slots[key]) else None
  }

  /**
   * `JSON.parse(localStorage.getItem(key) || '[]')`, as the array that
   * `unshift` and `forEach` are then called on: a missing or empty blob is
   * `[]`; text that is not JSON throws a SyntaxError; JSON that is not an
   * array has no `unshift`, a TypeError.
   */
  function StoredArray(slot: Option<Blob>, parse: string -> Option<Value>): (r: Result<seq<Value>, Failure>)
    ensures slot.None? || slot == Some(Raw("")) ==> r == Ok([])
    ensures slot.Some? && slot.value.Raw? && slot.value.text != "" ==>
              (r == Err(SyntaxError) <==> parse(slot.value.text).None?) &&
              (r.Ok? <==> parse(slot.value.text).Some? && parse(slot.value.text).value.Arr?) &&
              (r.Ok? ==> r.value == parse(slot.value.text).value.items) &&
              (r == Err(TypeError) <==> parse(slot.value.text).Some? && !parse(slot.value.text).value.Arr?)
    ensures slot.Some? && slot.value.Written? ==> (r.Ok? <==> slot.value.value.Arr?)
    ensures slot.Some? && slot.value.Written? && r.Ok? ==> r.value == slot.value.value.items
    ensures slot.Some? && slot.value.Written? && r.Err? ==> r.error == TypeError
  {
    match slot
    case None => Ok([])
    case Some(Raw(text)) =>
      if text == "" then Ok([])
      else
        (match parse(text)
         case None => Err(SyntaxError)
         case Some(v) => if v.Arr? then Ok(v.items) else Err(TypeError))
    case Some(Written(v)) => if v.Arr? then Ok(v.items) else Err(TypeError)
  }

  /** The log under `key` can be read, so `saveHistory` does not throw. */
  predicate Readable(slots: map<string, Blob>, key: string, parse: string -> Option<Value>)
  {
    StoredArray(Slot(slots, key), parse).Ok?
  }

  /** No entry is null. */
  predicate NoNullItem(items: seq<Value>)
  {
    forall i :: 0 <= i < |items| ==> !items[i].Null?
  }

  /**
   * `loadHistory()`: the list it renders, or what it throws. Besides the
   * read's own errors, its `forEach` reads `item.time` of every entry, which
   * throws a TypeError on a null entry.
   */
  function ShownHistory(slot: Option<Blob>, parse: string -> Option<Value>): (r: Result<seq<Value>, Failure>)
    ensures StoredArray(slot, parse).Err? ==> r == StoredArray(slot, parse)
    ensures StoredArray(slot, parse).Ok? ==> (r.Ok? <==> NoNullItem(StoredArray(slot, parse).value))
    ensures r.Ok? ==> r == StoredArray(slot, parse)
    ensures StoredArray(slot, parse).Ok? && r.Err? ==> r.error == TypeError
  {
    match StoredArray(slot, parse)
    case Err(e) => Err(e)
    case Ok(items) => if NoNullItem(items) then Ok(items) else Err(TypeError)
  }

  /**
   * `{time, request, response}` as it is stored: JSON.stringify drops an
   * undefined `request` (None), and keeps a null one.
   */
  function Entry(time: string, request: Option<Value>, response: Value): (r: Value)
    ensures r.Obj? && Field(r, "time") == Some(Str(time)) && Field(r, "response") == Some(response)
    ensures Field(r, "request") == request
    ensures r.fields.Keys == {"time", "response"} + (if request.Some? then {"request"} else {})
  {
    var fields := map["time" := Str(time), "response" := response];
    Obj(if request.Some? then fields["request" := request.value] else fields)
  }

  /** `unshift` then `slice(0,5)`: the new entry first, then the first four previous ones, in order. */
  function Recorded(items: seq<Value>, entry: Value): (r: seq<Value>)
    ensures |r| == Min(Limit, |items| + 1)
    ensures r[0] == entry
    ensures r[1..] == items[..Min(Limit - 1, |items|)]
  {
    var arr := [entry] + items;
    arr[..Min(Limit, |arr|)]
  }

  /**
   * The storage after `saveHistory(request, response)` for the log under
   * `key`, or what it throws. Only that key is overwritten, and reading it
   * back gives the freshly truncated list.
   */
  function RecordHistory(slots: map<string, Blob>, key: string, time: string, request: Option<Value>,
                         response: Value, parse: string -> Option<Value>)
    : (r: Result<map<string, Blob>, Failure>)
    ensures r.Err? <==> !Readable(slots, key, parse)
    ensures r.Err? ==> r.error == StoredArray(Slot(slots, key), parse).error
    ensures r.Ok? ==> r.value.Keys == slots.Keys + {key}
    ensures r.Ok? ==> forall k :: k in slots && k != key ==> r.value[k] == slots[k]
    ensures r.Ok? ==> StoredArray(Slot(r.value, key), parse)
                      == Ok(Recorded(StoredArray(Slot(slots, key), parse).value, Entry(time, request, response)))
  {
    match StoredArray(Slot(slots, key), parse)
    case Err(e) => Err(e)
    case Ok(items) => Ok(slots[key := Written(Arr(Recorded(items, Entry(time, request, response))))])
  }

  /**
   * The next `saveHistory` for `key` returns normally: the log reads as an
   * array, and the entries it keeps, its first four, are not null.
   */
  predicate SaveSucceeds(slots: map<string, Blob>, key: string, parse: string -> Option<Value>)
  {
    var read := StoredArray(Slot(slots, key), parse);
    read.Ok? && NoNullItem(read.value[..Min(Limit - 1, |read.value|)])
  }

  /** The storage `saveHistory` leaves behind, and what it throws, if anything. */
  datatype SaveOutcome = SaveOutcome(slots: map<string, Blob>, thrown: Option<Failure>)

  /**
   * `saveHistory(request, response)` as a whole: the write of `RecordHistory`,
   * then the `loadHistory()` re-read. An unreadable log throws before
   * anything is written; a kept null entry makes the re-read throw after the
   * write.
   */
  function SaveHistoryEffect(slots: map<string, Blob>, key: string, time: string, request: Option<Value>,
                             response: Value, parse: string -> Option<Value>): (r: SaveOutcome)
    ensures !Readable(slots, key, parse) ==> r == SaveOutcome(slots, Some(StoredArray(Slot(slots, key), parse).error))
    ensures Readable(slots, key, parse) ==> r.slots == RecordHistory(slots, key, time, request, response, parse).value
    ensures r.thrown.None? <==> SaveSucceeds(slots, key, parse)
    ensures Readable(slots, key, parse) && r.thrown.Some? ==> r.thrown == Some(TypeError)
    ensures r.thrown.None? ==> SaveSucceeds(r.slots, key, parse)
  {
    match RecordHistory(slots, key, time, request, response, parse)
    case Err(e) => SaveOutcome(slots, Some(e))
    case Ok(written) =>
      var items := StoredArray(Slot(slots, key), parse).value;
      var kept := Recorded(items, Entry(time, request, response));
      assert kept == [kept[0]] + kept[1..];
      assert NoNullItem(kept) <==> NoNullItem(kept[1..]);
      match ShownHistory(Slot(written, key), parse)
      case Err(e) => SaveOutcome(written, Some(e))
      case Ok(_) => SaveOutcome(written, None)
  }

  /** The log after recording `entries`, oldest first, starting from `items`. */
  function RecordMany(items: seq<Value>, entries: seq<Value>): seq<Value>
    decreases |entries|
  {
    if entries == [] then items else RecordMany(Recorded(items, entries[0]), entries[1..])
  }

  /**
   * However many entries are recorded, the log holds the most recent ones,
   * newest first, followed by what was there before, cut to five.
   */
  lemma {:induction false} RecordManyNewestFirst(items: seq<Value>, entries: seq<Value>)
    requires entries != []
    ensures RecordMany(items, entries) == (Reverse(entries) + items)[..Min(Limit, |entries| + |items|)]
    decreases |entries|
  {
    var e0, rest := entries[0], entries[1..];
    var m := Min(Limit, |items| + 1);
    var once := Recorded(items, e0);
    assert once == ([e0] + items)[..m];
    assert Reverse(entries) == Reverse(rest) + [e0];
    if rest == [] {
      assert Reverse(entries) == [e0];
    } else {
      RecordManyNewestFirst(once, rest);
      var n := Min(Limit, |rest| + m);
      assert n == Min(Limit, |entries| + |items|);
      PrefixOfTruncated(Reverse(rest), [e0] + items, m, n);
      assert Reverse(rest) + ([e0] + items) == Reverse(entries) + items;
    }
  }

  /** Once five entries have been recorded, nothing older is left. */
  lemma FiveRecordsForgetTheRest(items: seq<Value>, entries: seq<Value>)
    requires |entries| >= Limit
    ensures RecordMany(items, entries) == Reverse(entries)[..Limit]
  {
    RecordManyNewestFirst(items, entries);
    assert (Reverse(entries) + items)[..Limit] == Reverse(entries)[..Limit];
  }

  /** The browser's local storage, keyed by string. */
  class LocalStorage {
    var slots: map<string, Blob>

    constructor(initial: map<string, Blob>)
      ensures slots == initial
    {
      slots := initial;
    }

    /** The list `loadHistory` renders for an operation, or what it throws. */
    function LoadHistory(operationId: string, parse: string -> Option<Value>): (r: Result<seq<Value>, Failure>)
      reads this
      ensures r.Ok? <==> Readable(slots, HistoryKey(operationId), parse) &&
                         NoNullItem(StoredArray(Slot(slots, HistoryKey(operationId)), parse).value)
      ensures r.Ok? ==> r == StoredArray(Slot(slots, HistoryKey(operationId)), parse)
    {
      ShownHistory(Slot(slots, HistoryKey(operationId)), parse)
    }

    /**
     * `saveHistory(request, response)`: read the log, `unshift` the new
     * entry, keep the first five, overwrite the blob; then `loadHistory`
     * reads back what was written. When the read throws, nothing is written;
     * when the re-read throws, the write has already happened.
     */
    method SaveHistory(operationId: string, time: string, request: Option<Value>, response: Value,
                       parse: string -> Option<Value>)
      returns (r: Result<seq<Value>, Failure>)
      modifies this
      ensures var expected := SaveHistoryEffect(old(slots), HistoryKey(operationId), time, request, response, parse);
              slots == expected.slots &&
              (expected.thrown.Some? ==> r == Err(expected.thrown.value)) &&
              (expected.thrown.None? ==> r.Ok? && r == LoadHistory(operationId, parse))
    {
      var key := HistoryKey(operationId);
      var read := StoredArray(Slot(slots, key), parse);
      if read.Err? {
        return Err(read.error);
      }
      var arr := read.value;
      arr := [Entry(time, request, response)] + arr;
      var kept := arr[..Min(Limit, |arr|)];
      slots := slots[key := Written(Arr(kept))];
      r := LoadHistory(operationId, parse);
    }
  }
}
