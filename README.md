# logger.go in Dafny

A model of the core of `logger.go`, a small structured-logging library for Go
services. The library has five parts, and the model covers all of them:

- **Log entries carried in a request context.** `FromContext` returns the
  bound entry, or a fresh one when none is bound. It adds `trace = <id>` when a
  trace id is bound too. `WithEntry` binds an entry and replaces nil with a
  fresh one.
- **Trace propagation.** `WithTrace` and `GetTrace` bind and read the trace id.
  The inbound middleware takes the id from the `X-Trace-ID` header or generates
  one. The outbound `Outerware` adds the id as a header.
- **Two formatters:**
  - The multi-line formatter ranks fields by a priority list and then by key.
    It writes a banner and one line per field, stopping at the first failed
    write.
  - The JSON formatter builds one flat record holding the reserved keys
    `level`, `message` and `time`.
- **The event-bus hook** (`tracker.LogWriter.Write`). It gates events by level,
  splits `_id` fields into `keys` and the rest into `data`, and splits a
  `component.name` message.
- **The HTTP server middleware.** It covers:
  - client-address selection;
  - the `serving` description;
  - the status recorder;
  - the `/up` exemption;
  - the summary event;
  - `statusCodeFamily`.

Each source component has its own module.

| Module | File | What it holds |
|---|---|---|
| `Wrappers`, `Values` | `wrappers.dfy`, `values.dfy` | `Option` and the field values |
| `Text` | `text.dfy` | the Go string operations used: `<` on strings, `HasSuffix`, `Split`, `%d` |
| `Levels` | `levels.dfy` | the level table and `levelColors` |
| `Entries` | `entry.dfy` | immutable entries |
| `GoContext` | `goctx.dfy` | contexts as an immutable chain of bindings |
| `Http` | `http.dfy` | header maps and requests |
| `Trace` | `trace.dfy` | trace propagation |
| `LogContext` | `logcontext.dfy` | the context carrier |
| `Multiline` | `multiline.dfy` | the multi-line formatter |
| `JsonFormatter` | `jsonformat.dfy` | the JSON formatter |
| `Tracker` | `tracker.dfy` | the event-bus hook |
| `Middleware` | `middleware.dfy` | the HTTP middleware |

The model takes the source's own form in each place:

- Pure lookups and builders are functions.
- The loops are methods with invariants: `getOrder`, field collection,
  sorting, line writing, the map copies of the JSON formatter and the
  keys/data partition.
- State changed in place is a class:
  - the caller's field map that the JSON formatter writes into;
  - the outbound request's header;
  - the recorded `Doer`;
  - the `responseRecorder`.
- `sort.Sort` is modelled as an in-place insertion sort on an array. It is
  proved sorted and a permutation. Because keys are unique, a lemma shows that
  the sorted listing is unique.

The model takes these as parameters:

- Level constants and level names: a `LevelTable`.
- `LevelTable.track` stands for the tracker's `logger.TrackLevel` and
  `LevelTable.info` for the Info level of the middleware's summary event.
- The logger's root fields (`DefaultFields`).
- The JSON encoding of a value (`encode`).
- The sink's failure point (`Writer`).
- Every timestamp and duration.
- The generated uuid.
- `net.SplitHostPort`, as a function `hostOf` from an address to its host part.
- The publisher's and the doer's answers.
- The statuses the wrapped handler writes.

Where the library's stated design and its code differ, the model follows the
code:

- The JSON formatter's renamed `fields.<key>` copy goes into the caller's map,
  not into the record. See Findings.
- The served-request event's message is `"HTTP Served Request"`.

## Model

| member | source | states |
|---|---|---|
| Text.StrLessIrreflexive | logger.go:95 | no key is less than itself under Go's string `<` |
| Text.StrLessTransitive | logger.go:95 | string `<` is transitive |
| Text.StrLessAsymmetric | logger.go:95 | string `<` is asymmetric |
| Text.StrLessTotal | logger.go:95 | any two different keys are ordered one way or the other |
| Text.Split | tracker/tracker.go:75 | `strings.Split` on one character gives one more part than there are separators; no part contains the separator; joining the parts gives the input back |
| Text.SplitTwo | tracker/tracker.go:75-78 | a name with exactly one '.' splits into two dot-free parts around it |
| Text.NatToDecimal | middleware.go:68 | `%d` of a natural number is a non-empty string of digits |
| Text.IntToDecimal | middleware.go:68 | `%d` is non-empty and starts with '-' exactly for negative numbers |
| Text.DecimalRoundTrip | middleware.go:68 | reading the decimal form back gives the number |
| Text.LeadingDigit | middleware.go:68 | the first character of the decimal form of a (k+1)-digit number is its leading digit |
| Levels.LevelColor | formatter.go:100-105 | Debug gives green, Error red, Info blue and Warn yellow; any other level, Track included, gives 0 (no colour); same table in logger.go:140-146 |
| Entries.Entry.WithField | logger_test.go:44-45 | the new entry has the old keys plus `key`, holds `value` under it, and keeps every other value; the old entry is a value and is not changed |
| Entries.Entry.WithFields | middleware.go:40 | the new entry holds the union of keys; the given fields override and the others are kept |
| Entries.SiblingIsolation | logger_test.go:39-77 | after `e1 = e0.WithField(key)` and `e2 = e1.WithField(other)`, `e1` lacks `other`, while `e2` holds both with their values |
| Http.Add | trace/trace.go:54 | `Header.Add` appends the value under the canonical key and leaves other keys alone; `Get` then reads the first value |
| Trace.WithTrace | trace/trace.go:18-20 | `GetTrace` of the result is `(id, true)`; every other key reads as before |
| Trace.GetTrace | trace/trace.go:22-28 | found exactly when the newest trace binding is a string, which is then returned; otherwise `("", false)` |
| Trace.TraceShadowing | trace/trace.go:18-20 | a later `WithTrace` hides an earlier one, and the context it was added to still gives the earlier id |
| Trace.Inbound | trace/trace.go:30-39 | the next handler's request has trace = the X-Trace-ID header when non-empty, else the generated id; nothing but its context changes |
| Trace.TracedHeader | trace/trace.go:53-55 | with a trace bound, the header gains `X-Trace-ID: id` appended under its canonical key and nothing else changes; without one, the header is unchanged |
| Trace.Doer.Do | trace/trace.go:41-49 | the doer records the request's header and returns its answer |
| Trace.Outerware | trace/trace.go:51-58 | the request header becomes the traced header; the next doer is called exactly once, with that header; its result is returned |
| LogContext.FromContext | context.go:11-20 | with a trace bound, the result is the stored entry (or `New()`) plus `trace = id`; without one, it is exactly the stored entry; other fields are kept; same logic in logger.go:20-29 |
| LogContext.WithEntry | context.go:22-27 | the stored entry becomes the given entry, or `New()` for nil; all other bindings, the trace included, read as before; same in logger.go:31-36 |
| LogContext.FromEmptyContext | context.go:12-15 | with no entry and no trace bound, `FromContext` returns `New()` |
| LogContext.TraceLeavesEntry | context.go:9 | binding a trace never changes which entry is stored |
| LogContext.FusionEitherOrder | context.go:16-18 | binding an entry and a trace in either order gives the entry plus `trace = id` |
| Multiline.OrderOf | logger.go:77-85 | the rank is the index of the first occurrence of the key in the priority list, or 99999 when it is absent |
| Multiline.GetOrder | formatter.go:34-42 | the search loop with early return computes that rank |
| Multiline.LessIrreflexive | logger.go:91-96 | `Less` is irreflexive |
| Multiline.LessAsymmetric | logger.go:91-96 | `Less` is asymmetric |
| Multiline.LessTransitive | logger.go:91-96 | `Less` is transitive |
| Multiline.LessTotal | formatter.go:48-53 | any two fields with different keys are ordered by `Less`, so on unique keys it is a strict total order |
| Multiline.CollectFields | formatter.go:63-72 | the collected slice has one field per key of `data`, each with its rank, key and encoded value |
| Multiline.Swap | formatter.go:47 | the two elements are exchanged; the multiset is unchanged |
| Multiline.SortFields | formatter.go:74 | after the sort, no element is out of `Less` order and the multiset of fields is unchanged |
| Multiline.SortedIsListing | logger.go:108-117 | a sorted permutation of the collected fields is the strictly sorted listing of `data` |
| Multiline.ListingUnique | logger.go:117 | there is exactly one sorted listing, so the output does not depend on map iteration order |
| Multiline.ListingLength | logger.go:123-125 | the listing has as many fields as `data` has entries |
| Multiline.ListedBeforeUnlisted | logger.go:104-117 | each field named in the priority list comes before each field that is not |
| Multiline.ListedInPriorityOrder | formatter.go:65-74 | named fields appear in priority-list order |
| Multiline.UnlistedInKeyOrder | logger.go:84-95 | fields missing from the priority list appear in key order |
| Multiline.LinesOf | formatter.go:81-86 | one `key: value` line per field, in order |
| Multiline.Deliver | formatter.go:78-88 | the writer receives a prefix of the lines; it receives all of them, with nil error, exactly when every write succeeds; otherwise the error is the first failure, and no later line is written |
| Multiline.WriteLines | formatter.go:78-86 | the write loop with early return delivers exactly that |
| Multiline.Format | formatter.go:61-89 | the output is the banner followed by the unique sorted listing, as delivered; nil error exactly when banner and every field are written, with then 1 + \|data\| lines; a writer that never fails (logger.go:119-127) always gives nil |
| JsonFormatter.ReservedCopies | formatter.go:19-23 | there is a `fields.<k>` copy exactly for each reserved key the input holds, with its value, and nothing else |
| JsonFormatter.Record | formatter.go:15-26 | the record's keys are the input's plus `level`, `message` and `time`; these three hold the level name, the message and the time; every other key keeps its input value |
| JsonFormatter.Format | formatter.go:13-28 | the encoded record is that record; the caller's map gains the renamed copies; the encoder's error is returned |
| JsonFormatter.CollisionCopyLost | formatter.go:21 | for input `message = "X"` the caller's map holds `fields.message = "X"`, but the record has no `fields.message` and its `message` is the log message |
| JsonFormatter.IntendedRecordKeepsCollision | formatter.go:19-26 | when the record is built after the copies are added, each colliding reserved key keeps its value under `fields.<k>` |
| Tracker.Partition | tracker/tracker.go:63-71 | `keys` and `data` are disjoint; together they are the input, values unchanged; `keys` holds exactly the keys ending in `_id` |
| Tracker.SplitName | tracker/tracker.go:73-78 | version, type and system are carried over; a name with exactly one '.' becomes component + "." + name, with no dot in either; any other name and the header pass through unchanged |
| Tracker.EventFor | tracker/tracker.go:80-86 | the published event partitions the input into its keys and data, carries the split header and name, and carries the emit timestamp |
| Tracker.DefaultHeaderEvent | tracker/tracker.go:16-20 | a writer with the default header publishes a `component.name` event with version "1.1", type "system", an empty system, and the message's component and name |
| Tracker.Write | tracker/tracker.go:58-90 | past the Track level nothing is published and nil is returned; otherwise exactly that one event is published and the publisher's error is returned |
| Middleware.ClientAddress | middleware.go:14-17 | the address is X-Forwarded-For when that is non-empty, else the host part of RemoteAddr (`hostOf(remoteAddr)`); it is one of the two, and differs from the host part only when non-empty |
| Middleware.Serving | middleware.go:20-26 | the `serving` map has exactly the keys path, method, query, host and remote, taken from the request |
| Middleware.BaseEntry | middleware.go:19-26 | the request's entry is the context's entry plus `serving`, with all other fields kept |
| Middleware.Handled | middleware.go:33 | the handler's request differs only in its context; that context stores the base entry and keeps the trace |
| Middleware.HandlerSeesBaseEntry | middleware.go:19-34 | inside the handler, `FromContext` yields exactly the base entry |
| Middleware.SummaryFields | middleware.go:40-46 | the summary fields are exactly statusCode, durationSeconds, begin, agent and referer, with their values |
| Middleware.SummaryEvent | middleware.go:36-46 | for `/up` there is no event; otherwise there is one Info event "HTTP Served Request" carrying the entry's fields (`serving` unchanged) plus the summary fields, each summary key holding its `SummaryFields` value (status, duration, begin, agent, referer) |
| Middleware.LastStatus | middleware.go:28-31 | the recorded status is 200 or one of the written statuses |
| Middleware.LastStatusAfterWrite | middleware.go:55-58 | after `WriteHeader(s)` the recorded status is `s`, whatever came before |
| Middleware.ResponseRecorder.constructor | middleware.go:28-31 | a new recorder holds status 200 and has forwarded nothing |
| Middleware.ResponseRecorder.WriteHeader | middleware.go:55-58 | the recorder stores the status and forwards it to the wrapped writer |
| Middleware.Prepare | middleware.go:13-33 | computes the base entry and the rebound request |
| Middleware.RunHandler | middleware.go:34 | the handler's `WriteHeader` calls are all forwarded, in order; the last one wins |
| Middleware.Summarize | middleware.go:36-46 | the step after the handler returns yields the summary event |
| Middleware.Serve | middleware.go:11-48 | the whole handler body: the handler's request, the recorder holding the last status written (200 if none), and the summary event for that status |
| Middleware.StatusCodeFamily | middleware.go:67-69 | three characters: the first character of `%d` of the status, then "XX"; "-XX" for negative statuses |
| Middleware.StatusFamilyLeadingDigit | middleware.go:67-69 | for a (k+1)-digit status the family is its leading digit followed by "XX" |
| Middleware.StatusFamilyHundreds | middleware.go:67-69 | for a three-digit status the family is its hundreds digit (404 gives "4XX") |
| Middleware.ScenarioHeaders | middleware_test.go:25-28 | for a GET of `/` with no entry or trace bound and the agent, referer and forwarded headers set (other headers free), the three are read back as set |
| Middleware.ScenarioServingOf | middleware_test.go:42-48 | the test request's `serving` map is the expected one |
| Middleware.ScenarioBase | middleware_test.go:40-49 | under the test logger's root `{"test": "test"}` (logger_test.go:28-30), the test request's base entry holds exactly `test` and the expected `serving` map |
| Middleware.ScenarioHandlerEntry | middleware_test.go:40-49 | under the test root, the handler's entry plus `key = value` holds exactly `test`, `key` and the expected `serving` map |
| Middleware.ServingEntryWithKey | middleware_test.go:17 | an entry holding only `test` and `serving`, extended with `key = value`, holds exactly those three fields |
| Middleware.SummaryOfServingEntry | middleware.go:40-46 | off `/up`, the summary for an entry holding only `test` and `serving` has exactly those plus the summary keys, with `test`, `serving`, the status, agent and referer |
| Middleware.ScenarioSummary | middleware_test.go:51-67 | for the test request under the test root, the summary is Info "HTTP Served Request" with keys `test`, `serving` and the summary keys, statusCode 200, the agent, the referer and the same `serving` map |

## Left out

- logrus: its `Logger`, `Entry`, hooks and formatters (logger.go:11, 17, 39) are a foreign library. An entry is an immutable field map, and `New()` is an entry holding the root fields given as a parameter.
- The logger implementation behind `Logger`, `logger`, `Entry.Debug` and `Info` is not part of this model. Its dispatch to writers, level filtering and error handling are out. The middleware's summary is the event it asks to log.
- The level constants and `LevelNames` are not part of this model. Their values and names are the `LevelTable` parameter.
- logger.go's copy of `levelColors` also lists `logrus.PanicLevel` as red. logrus's own levels are outside the model, so `Levels.LevelColor` models the table of formatter.go.
- `FromEnvironment` and `init` (logger.go:42-71): they read environment variables and set the global `DefaultLogger`.
- `RegisterLogHook` (tracker/tracker.go:37-49): it registers a hook with the global logger. `Tracker.LogWriter` holds the header it builds.
- Time: `time.Now`, RFC 3339 formatting and the float `durationSeconds` are opaque parameters.
- JSON and printf byte layout: `json.Marshal`, `Encode`, ANSI escapes and `%-44s` padding. The multi-line output is a sequence of `Line` values, and a field value's encoding is the `encode` parameter.
- `uuid.New` is `Trace.Inbound`'s `generated` parameter.
- `net.SplitHostPort` is the `hostOf` parameter of `Middleware.ClientAddress`: the host part of an address, "" when it cannot be split.
- `responseRecorder.Hijack` (middleware.go:60-65) is a pass-through to a foreign interface.
- The HTTP server and client, and `Publisher.Publish`: the publisher is the recorded list of published events plus its error, and the doer is a recording class.
- The goroutines and channels of the tests are not modelled. The tests' assertions are stated as lemmas.
- Go's randomised map iteration order: the loops take keys in any order (`:|`), and every result is proved independent of it.
- `Http.Canonical`: `textproto.CanonicalMIMEHeaderKey` is modelled for ASCII letters. Its bail-out for keys holding invalid bytes is left out.
- `Multiline.ListedBeforeUnlisted` requires at most 99999 priority names. The source gives both absent keys and the key at index 99999 the rank 99999, so for longer lists the property fails.
- `Tracker.Write` does not return the string that `Publish` returns alongside its error. The source discards it too.
- Middleware.Serve: the wrapped handler is assumed not to modify the request. In the source it receives the same `req`, whose `URL.Path` (the `/up` test) and shared `Header` map (agent, referer) the middleware reads after the handler returns. A handler editing them would change the exemption or the summary; the model fixes both at their values before the handler runs, and reduces the handler to the statuses it writes.
- `Multiline.SortFields`: Go's `sort.Sort` algorithm is a library routine. An insertion sort with the same contract (sorted, permutation) stands in for it.

## Findings

| source | as written | input that shows it | evidently intended | confidence | as-written member | corrected member |
|---|---|---|---|---|---|---|
| formatter.go:21 | the `fields.<key>` copy of a colliding reserved key is written into the caller's `data` map, not into `dataOut`, so the encoded record loses the caller's value | fields `{"message": "X"}`: the record has `message` = the log message and no `fields.message` | the record carries `fields.message = "X"` beside the overwritten `message` | not executed | JsonFormatter.CollisionCopyLost | JsonFormatter.IntendedRecordKeepsCollision |

`JsonFormatter.Format` models the code as written. `JsonFormatter.IntendedRecord` is the record the formatter evidently means to emit.
