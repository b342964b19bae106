# Firecrawl API playground: request, polling, history and configuration logic

This project models the logic layer of a small browser front end for the
Firecrawl web-scraping API and proves properties of it in Dafny. Three parts
are covered.

- **The static playground (`app.js`).**
  - `operationsByTag` lists the OpenAPI operations that carry a tag.
  - `sendRequest` builds a request from an operation form. It substitutes
    the path placeholders, adds a query string of the non-empty query inputs,
    re-serialises the JSON body, and sends the raw API key as `Authorization`.
  - When the response names a long-running job (`crawl`, `batch-scrape`,
    `extract`), `pollJob` polls that job on an interval. Each poll updates
    the progress bar and logs the response. Polling stops at a terminal
    status or at any error the model covers, including one thrown while
    logging (the progress setters' own errors are not covered; see
    "Left out").
  - `saveHistory` keeps a newest-first log of at most five entries per
    operation in local storage, then re-reads it through `loadHistory`. That
    re-read throws on a null entry, which the callers' `catch` branches
    then show.
- **The Vue history composable (`useHistory`).** It holds an in-memory list of
  history items mirrored to the one storage key `firecrawl_history`, which
  every instance of the hook shares. `add` prepends and `update` merges by
  id. A filtered view by type changes only on `refresh`. `load` turns missing
  storage and text that is not JSON into `[]`, but returns any other JSON
  unchecked. So a stored `null`, `{}` or `[null]` makes the `refresh` that
  runs when the hook is opened throw a TypeError.
- **The Vue API configuration.** The base URL and the API key each fall back
  from local storage to the build environment to a default. An
  `Authorization: Bearer <key>` header is merged into the shared request
  options only when a key exists.

Modules, one file each unless noted:

- `seqs.dfy` holds `Wrappers` (Option, Result) and `Seqs` (Min, Reverse).
- `text.dfy` holds `Text`: substring occurrence, first-occurrence replacement and join.
- `json.dfy` holds `Json`: an abstract JSON value, JavaScript truthiness, property reads and `String(v)`.
- `openapi.dfy` holds `OpenApi`: operations and `operationsByTag`.
- `request.dfy` holds `Request`: the initiating request and the job classification.
- `history_log.dfy` holds `HistoryLog`: local storage and the bounded log.
- `forms.dfy` holds `Forms`: an operation form and its job poller.
- `use_history.dfy` holds `UseHistory`.
- `api_config.dfy` holds `ApiConfig`.

Where the source changes state, the model does too:

- Local storage is the class `HistoryLog.LocalStorage` with a map field.
- An operation form's progress bar and response area are the fields of the class `Forms.OperationForm`.
- The interval is the class `Forms.JobPoll` with an `active` flag.
- The composable is the class `UseHistory.HistoryStore`. Every instance holds a
  reference to the same `HistoryLog.LocalStorage` object and writes its list
  under `UseHistory.StorageKey`, so one hook's `add` overwrites what another
  hook saved, and the next hook opened loads it.
- Opening a hook is the method `UseHistory.OpenHistory`. It answers the new
  hook or the TypeError that its first `refresh` throws.
- The configuration object is the class `ApiConfig.ApiConfiguration`.

Each loop and state change is proved against a pure function:

- the `forEach` loops against `Request.RequestUrl`;
- the nested loops against `OpenApi.Tagged`;
- one interval firing against `Forms.PollTick`;
- a whole run of firings against `Forms.PollRun`.

The properties are then proved about those functions.

Time, the network and library code are parameters:

- Each firing of the interval is a `Tick`. It carries the key in the key input, the timestamp and how that poll's fetch settled.
- `JSON.parse` is a function returning None where it throws.
- `encodeURIComponent` and `JSON.stringify` are functions.
- A storage blob this program wrote is tagged `Written`, so reading it back gives the value written. Text from elsewhere is `Raw` and is read through the parse parameter.

## Model

| member | source | states |
|---|---|---|
| OpenApi.OperationsByTag | app.js:41-51 | the nested loops collect exactly the `{path, method, op}` triples whose operation has a `tags` list that includes the tag, path by path and method by method in declaration order |
| OpenApi.TaggedInMembership | app.js:44-48 | within one path item, an endpoint is collected iff it is one of the path's methods and its operation carries the tag |
| OpenApi.TaggedMembership | app.js:43-49 | an endpoint is in the result iff some path item declares it and it carries the tag; operations without `tags` are never listed |
| OpenApi.TaggedSound | app.js:43-48 | every listed endpoint carries the tag and is an operation of some path item under that method |
| OpenApi.TaggedComplete | app.js:43-48 | every operation of a path item that carries the tag is listed |
| OpenApi.TaggedConcat | app.js:43-49 | listing the operations of two groups of paths is listing each group in turn, so the result keeps document order |
| Json.FalsyValues | app.js:170 | the values a `&&` test treats as false are exactly `null`, `false`, `0` and `""`; arrays and objects, even empty ones, are true |
| Json.ToJsString | app.js:180 | `String(v)` of a string is the string itself, of an integer below 10^21 in magnitude its decimal numeral (digits and a minus sign only), and of an object `[object Object]` |
| Text.IndexOf | app.js:141 | the first position at which a string pattern occurs, or none when it does not occur |
| Text.ReplaceFirst | app.js:141 | `String.replace` with a string pattern: only the first occurrence is replaced, and a string without the pattern is unchanged |
| Request.Names | app.js:77-78 | the names of the parameters declared in a location: every such parameter's name appears, and nothing else does |
| Request.NamesOne | app.js:77-78 | one parameter contributes its own name exactly when it is declared in the location, and nothing otherwise |
| Request.NamesSnoc | app.js:77-78 | a parameter added after a list contributes its name, if declared in the location, after the names of the list |
| Request.NamesConcat | app.js:77-78 | `filter` then `map` keeps declaration order with one entry per matching parameter: the names of two runs of parameters are the names of the first run followed by those of the second |
| Request.FormInputs | app.js:80-98 | the form has one input per path parameter, then one per query parameter, each holding what was typed for it |
| Request.InputValue | app.js:140 | the lookup by `name`, whose first-match answer `Request.InputValueFirstMatch` states. A name no input carries, where `querySelector` answers null and the source throws, reads as `""` here. That case never arises, because every parameter has an input (`Request.LookupsFindAnInput`) |
| Request.InputValueFirstMatch | app.js:140 | looking up an input by `name` reads the value of the first input with that name |
| Request.LookupsFindAnInput | app.js:80-146 | every path or query parameter that `sendRequest` looks up is the name of some input of the form |
| Request.FormInputValue | app.js:140-145 | with distinct parameter names, the value read for a parameter is the one typed into its own input |
| Request.BuildUrl | app.js:138-148 | the two `forEach` loops produce `baseUrl + path` with each path placeholder replaced, in order, by the encoded input, followed by the query suffix |
| Request.QueryPairsEmptyIff | app.js:143-147 | no query pair is produced iff every query input is empty |
| Request.QueryPairsConcat | app.js:143-147 | the pairs of two runs of query parameters are the pairs of each run in turn, so the query keeps declaration order |
| Request.QueryPairsComplete | app.js:144-146 | every query parameter with a non-empty input contributes its `name=encoded value` pair |
| Request.QueryPairsWellFormed | app.js:144-147 | every query pair is `name=encoded value` for a query parameter with a non-empty input, and there are at most as many pairs as query parameters |
| Request.QuerySuffix | app.js:148 | nothing is appended iff there is no pair; otherwise `?` and the pairs joined by `&` |
| Request.QuerySuffixPresentIff | app.js:148 | `?` is appended iff at least one query input is non-empty, and the suffix then starts with `?` |
| Request.RequestHeaders | app.js:150 | the request carries exactly `Authorization` (the raw key) and `Content-Type: application/json` |
| Request.RequestBody | app.js:151-155 | an operation with a body fails iff the body text is not JSON; otherwise the body is the re-serialised parse. An operation without a body sends none |
| Request.PrepareRequest | app.js:137-161 | the request handed to `fetch` has the endpoint's method, the built URL, the headers and the body; the only failure is an invalid JSON body |
| Request.JobToPoll | app.js:170-174 | a null response throws a TypeError; otherwise a job id is polled iff `data.id` is truthy and the path ends with `crawl`, `batch-scrape` or `extract`, and the id polled is `data.id` |
| Request.ScrapeIsNotJob | app.js:170 | a path ending in `/scrape` is not a job path, so no response to it is polled |
| Request.CrawlResponseIsJob | app.js:170-171 | a response `{id}` with a non-empty string id from a `/crawl` path starts polling of that id |
| HistoryLog.StoredArray | app.js:217 | a missing or empty blob reads as `[]`; other text throws a SyntaxError iff it is not JSON and a TypeError iff its JSON is not an array, and otherwise reads as the array's items; a written value reads as its items iff it is an array |
| HistoryLog.ShownHistory | app.js:200-212 | `loadHistory` throws what the read throws, and otherwise throws a TypeError iff some entry is null (reading `item.time`); when it does not throw it shows the stored items |
| HistoryLog.LocalStorage.LoadHistory | app.js:200-212 | the list shown for an operation is its stored log, and the call succeeds iff that log reads as an array with no null entry |
| HistoryLog.Entry | app.js:218 | an entry is an object with `time` and `response`, and with `request` exactly when the request is not undefined |
| HistoryLog.Recorded | app.js:218-219 | the new log has `min(5, old + 1)` entries: the new entry first, then the first at most four previous entries in their original order |
| HistoryLog.RecordHistory | app.js:215-219 | the read-modify-write of `saveHistory` fails iff the stored log cannot be read, with that error; otherwise only the operation's key is overwritten and reading it back gives the truncated list |
| HistoryLog.SaveHistoryEffect | app.js:215-220 | an unreadable log throws its read error and writes nothing; a readable one is always rewritten, and the `loadHistory` re-read then throws a TypeError iff one of the four kept entries is null; after a clean save the next save is clean too |
| HistoryLog.RecordManyNewestFirst | app.js:215-219 | after any number of `saveHistory` calls the log is the recorded entries newest first, followed by the earlier log, cut to five |
| HistoryLog.FiveRecordsForgetTheRest | app.js:219 | after five or more records, only the five newest entries are left |
| HistoryLog.LocalStorage.SaveHistory | app.js:215-221 | the storage becomes what `SaveHistoryEffect` gives; the call throws what it says is thrown, and otherwise returns the list `loadHistory` shows |
| Forms.StatusPath | app.js:180 | the status path is `path + '/'` followed by the id as `+` converts it: a string id as is, a numeric id as its decimal numeral |
| Forms.PollRequest | app.js:182 | a poll is a GET of `baseUrl + statusPath` carrying only the `Authorization` header and no body |
| Forms.ProgressAfter | app.js:187-190 | `max` and `value` become `total` and `processed` iff `total` is truthy and `processed` is defined; otherwise the progress is unchanged |
| Forms.TickStopsIff | app.js:184-196 | a firing clears the interval iff the fetch failed, `saveHistory` throws, the body is null, or the status is truthy and contains `completed` or `failed` (the progress setters' TypeError is left out); a readable log stays readable and a cleanly saving log keeps saving cleanly while polling goes on |
| Forms.TickRecordsResponse | app.js:184-196 | on a readable log each poll response is logged in front with `request = null`; a failed poll writes nothing and shows the error |
| Forms.TickLogs | app.js:184-196 | on a readable log one firing records exactly its response, if it had one, in front of the log |
| Forms.TickProgress | app.js:185-196 | when `saveHistory` returns normally, a non-null response is shown and moves the progress only under the `total`/`processed` rule, and the bar is hidden iff it was hidden or the status is terminal; when it throws, the bar keeps its max and value, is hidden, and the error is shown |
| Forms.CorruptLogStopsPolling | app.js:184-196 | when `saveHistory` throws, the firing stops polling, hides the progress and shows an error; an unreadable log is left as it was, a readable one is rewritten and the error is the re-read's TypeError |
| Forms.NullEntryStopsPolling | app.js:186-196 | with `[null]` stored, a `{status: "scraping"}` poll is written in front of the null entry, then polling stops with a TypeError shown and the bar hidden |
| Forms.NumericStatusNeverTerminal | app.js:191 | a numeric `status` never stops polling |
| Forms.TerminalExamples | app.js:191 | `scraping` keeps polling; `completed` and `job-failed` stop it (containment, not equality) |
| Forms.PollRun | app.js:181-197 | a run of firings consumes no more ticks than it is given |
| Forms.RunStopsAtFirstStop | app.js:181-197 | on a cleanly saving log, polling stops at the first error, null body or terminal status and at no earlier firing, and with none every tick runs and the interval stays set; on a log whose save throws, the first firing stops it |
| Forms.TickEntries | app.js:186 | a firing contributes one log entry iff its fetch gave a response |
| Forms.RunRecordsResponses | app.js:184-186 | after polling a readable log, the log is every polled response up to the stop, recorded in turn |
| Forms.RecordManyAppend | app.js:215-219 | recording two batches in turn is recording them together |
| Forms.ReceiveStartsPollingIff | app.js:163-176 | polling starts iff the response is logged without a throw, has a truthy `id` and comes from a job path, and it polls that id with the progress kept; otherwise the progress is hidden. On a readable log the response is logged with the submitted body as its request |
| Forms.OperationForm.constructor | app.js:114-119 | a new form has a hidden progress bar with no max or value and an empty response area |
| Forms.OperationForm.Submit | app.js:137-160 | the returned request is `PrepareRequest` of the form's inputs; on success the progress is shown at 0 with no max, and on an invalid body nothing changes |
| Forms.OperationForm.Receive | app.js:161-176 | the form and storage change as `AfterResponse` says, and the job id to poll is returned |
| Forms.JobPoll.constructor | app.js:179-181 | the status path is `StatusPath(path, id)` and the interval is set |
| Forms.JobPoll.Tick | app.js:181-196 | one firing sends `PollRequest` with the key as it is now and updates the form, storage and interval as `PollTick` |
| Forms.JobPoll.Run | app.js:181-197 | firing once per tick while the interval is set ends in the state `PollRun` gives; one poll request is sent per firing, each with that firing's key |
| UseHistory.ItemValue | src/composables/useHistory.ts:3-9 | a history item is stored as an object with `id`, `type`, `status` and `createdAt`, and with `result` only when present; its keys are exactly these |
| UseHistory.Load | src/composables/useHistory.ts:16-23 | nothing stored, an empty blob, or text that does not parse gives `[]`; any other text gives its parse unchecked, and a written value is read back as it was |
| UseHistory.Filtered | src/composables/useHistory.ts:44-46 | `refresh` succeeds iff the list is an array with no null entry, and then keeps its items of the hook's type; otherwise it throws a TypeError |
| UseHistory.UnparsableStorageOpensEmpty | src/composables/useHistory.ts:16-23 | storage holding "" or text that is not JSON opens an empty history |
| UseHistory.ParsedNonListThrows | src/composables/useHistory.ts:14-48 | storage holding `null`, `{}` or `[null]` makes opening the hook throw a TypeError |
| UseHistory.ReloadAfterSave | src/composables/useHistory.ts:16-27 | after `save`, the next `load` on the same storage gives back the saved list |
| UseHistory.PatchFields | src/composables/useHistory.ts:34 | the patch's own keys that hold values are exactly the fields the caller supplied a value for, and each holds that value (`kind` under `type`, strings as strings, `createdAt` as a number, `result` as given) |
| UseHistory.ClearedKeys | src/composables/useHistory.ts:34 | the patch's own keys that hold `undefined` are exactly the fields the caller set to `undefined`, and none of them holds a value |
| UseHistory.Merge | src/composables/useHistory.ts:37 | each key of the patch that holds a value overrides the item's; each key it sets to `undefined` is gone, as it reads as undefined and is not saved; every other key of the item is kept |
| UseHistory.MergeLaws | src/composables/useHistory.ts:37 | merging the same patch twice equals merging it once, and an empty patch is the identity |
| UseHistory.FindIndex | src/composables/useHistory.ts:35 | the first index whose entry has that id as a string, or none when no entry has it |
| UseHistory.Updated | src/composables/useHistory.ts:34-40 | with no entry of that id the list is unchanged; otherwise only the first entry with the id is merged and every other entry is untouched |
| UseHistory.OfType | src/composables/useHistory.ts:45 | an entry is in the filtered list iff it is in the list and has the hook's type |
| UseHistory.OfTypeConcat | src/composables/useHistory.ts:45 | filtering keeps list order: filtering a concatenation filters each part in turn |
| UseHistory.UndefinedTypeLeavesView | src/composables/useHistory.ts:34-45 | an item whose `type` is updated to `undefined` is left out of the view by the next `refresh`, whatever the hook's type |
| UseHistory.RefreshAfterAdd | src/composables/useHistory.ts:29-46 | after `add` and `refresh`, the view starts with the new item iff it has the hook's type; the rest is the old view |
| UseHistory.OpenHistory | src/composables/useHistory.ts:13-50 | opening the hook on the shared storage throws a TypeError iff the loaded value is not an array or holds a null entry; otherwise the hook holds the loaded list and returns its filtered view as `history` |
| UseHistory.HistoryStore.constructor | src/composables/useHistory.ts:42-50 | a new hook over a list without null entries holds that list, and the `history` it returns is the list's filtered view |
| UseHistory.HistoryStore.Save | src/composables/useHistory.ts:25-27 | the shared key now holds the whole list; every other key is kept |
| UseHistory.HistoryStore.Add | src/composables/useHistory.ts:29-32 | the list becomes `[item] + old`, with no length bound, and is persisted under the shared key; the view is unchanged |
| UseHistory.HistoryStore.Update | src/composables/useHistory.ts:34-40 | the list becomes `Updated`; storage is rewritten iff the id was present; the view is unchanged |
| UseHistory.HistoryStore.Refresh | src/composables/useHistory.ts:44-46 | the view becomes exactly the list's entries of the hook's type in list order, as `Filtered` gives; the list is unchanged |
| ApiConfig.FirstNonEmpty | src/config/api.ts:8-12 | the fallback chain of `or` operators gives the first non-empty candidate, or the fallback when every candidate is empty |
| ApiConfig.GetBaseUrl | src/config/api.ts:7-13 | the stored URL if non-empty, else the environment's if non-empty, else `https://api.firecrawl.dev/v1`; never empty |
| ApiConfig.GetApiKey | src/config/api.ts:19-26 | the stored key if non-empty, else the environment's; `""` iff both are empty or absent |
| ApiConfig.WithAuthorization | src/config/api.ts:39-49 | with an empty key the options are unchanged; otherwise `Authorization` becomes `Bearer <key>` and every other header is kept |
| ApiConfig.ConfiguredHeaders | src/config/api.ts:28-49 | the configured headers always include `Content-Type: application/json`, and include a bearer `Authorization` iff a key is set |
| ApiConfig.ApiConfiguration.constructor | src/config/api.ts:29-49 | the base path is `GetBaseUrl`, and the base options are the JSON content-type header with the authorization merge applied |

## Left out

- DOM construction and rendering (`buildNav`, `showTag`, the element building of `createOperationForm`, the HTML output of `loadHistory`, the download buttons, the `alert` messages for a saved API key and for a request body that is not valid JSON): user interface, not logic. The form's visible state is summarised as its progress bar and what its response area shows.
- `loadSpec`, the fetching of `openapi.yaml` and YAML parsing: I/O. The OpenAPI document is an input, assumed well formed: every path item is an object of operations, and `tags`, when present, is a list of strings. A null path item, on which `Object.entries` throws, is not modelled. Nor is a string `tags`, for which `includes` would test for a substring. Its `paths` and methods are sequences in document order, which is the order `Object.entries` follows for such keys.
- `fetch`, `r.json()` and the 2000 ms `setInterval` timing: network and timers. Each fetch is an `Outcome` parameter. Firings are taken one at a time. A poll response still in flight when the interval is cleared is not modelled.
- `encodeURIComponent`, `JSON.parse`, `JSON.stringify` and `new Date().toISOString()`: library code, passed in as parameters. The model assumes that text this program wrote with `JSON.stringify` parses back to the same value.
- JavaScript numbers are modelled as unbounded integers. Fractions and `NaN` are not modelled. Integers past 2^53, which JavaScript does not hold exactly, are not modelled either, nor is `String` of a number of magnitude 10^21 or more, which JavaScript writes in exponent form (`1e+21`).
- `Forms.PollTick`, `Forms.JobPoll.Tick`: the `<progress>` element's `max` and `value` are `double` attributes. Assigning a value that does not convert to a finite number, such as `total: "abc"` or `processed: {}`, throws a TypeError. The poll's `catch` would then show it, clear the interval and hide the bar. This throw is not modelled: the progress fields hold the JSON values assigned to them, and such a poll keeps polling in the model. Nor is the coercion of the values that are accepted modelled.
- `Text.ReplaceFirst`: the `$` replacement patterns of `String.replace` are not modelled. Percent-encoded text never contains `$`.
- `Request.InputValue`: the model looks an input up by plain name equality. `querySelector`'s behaviour for a name containing quote or bracket characters, which would break the selector, is not modelled.
- `Request.PrepareRequest`: the model keeps a body on GET requests as written. Whether the browser then rejects that request is left to the fetch outcome.
- The call to `loadHistory` while the form is being built, and its rendering: only the read it performs and what it throws are modelled (`HistoryLog.ShownHistory`). Where that first call throws, form construction itself is not modelled.
- `localStorage.setItem` can throw when the storage quota is exceeded (app.js:219, src/composables/useHistory.ts:26). The model treats every write as succeeding. A `saveHistory` whose write throws would leave the old log in place and skip the re-read, and an `add` or `update` whose save throws would keep the changed in-memory list unsaved.
- `encodeURIComponent` throws a URIError on a string holding a lone surrogate (app.js:141, 146). It is modelled as a total function, so a `sendRequest` that throws there is not modelled.
- `getExample`, `downloadJSON`, `downloadZIP`: formatting and Blob or ZIP downloads.
- The playground sends the raw key as `Authorization` (app.js:150, 182), while the Vue configuration sends `Bearer <key>` (src/config/api.ts:46). Both are modelled as written.
- `ApiConfig.ApiConfiguration.constructor`: the generated client also receives `getApiKey` itself as a callback and may call it again per request. That client code is not part of this model, so only the key read at load time is modelled.
- The generated API client (`src/api-client`), the application bootstrap, plugins, router and type declarations, and the build configuration are not part of this model.
- `UseHistory.HistoryStore`: Vue's `ref` wrappers and re-rendering are not modelled, nor callers that mutate the returned `history` array. The list holds JSON values. What `add` puts there is the item's JSON form, which is what a later `load` would read back.
