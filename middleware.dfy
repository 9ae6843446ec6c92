/** The HTTP server middleware (middleware.go): it binds an entry carrying
    the request's `serving` description into the request context, records
    the status the handler writes, and logs one summary event per request
    except for the `/up` probe. */
module Middleware {
  import opened Wrappers
  import opened Values
  import opened Text
  import opened Levels
  import opened Entries
  import opened GoContext
  import opened Http
  import opened LogContext
  import Trace

  const ProbePath := "/up"
  const ServedMessage := "HTTP Served Request"
  const ForwardedHeader := "X-Forwarded-For"
  const ServingField := "serving"
  const DefaultStatus := 200

  /** The address the request is attributed to: the X-Forwarded-For header
      when it is non-empty, else the host part of `RemoteAddr`. `hostOf` is
      what `net.SplitHostPort` gives as the host of an address ("" when it
      fails). */
  function ClientAddress(req: Request, hostOf: string -> string): (ip: string)
    ensures ip == hostOf(req.remoteAddr) || ip == Get(req.header, ForwardedHeader)
    ensures ip != hostOf(req.remoteAddr) ==> ip != ""
    ensures Get(req.header, ForwardedHeader) != "" ==> ip == Get(req.header, ForwardedHeader)
  {
    var requestIP := hostOf(req.remoteAddr);
    var forwarded := Get(req.header, ForwardedHeader);
    if forwarded != "" then forwarded else requestIP
  }

  /** The `serving` description: exactly the path, method, query, host and
      remote address of the request. */
  function Serving(req: Request, ip: string): (v: Value)
    ensures v.Obj? && v.fields.Keys == {"path", "method", "query", "host", "remote"}
    ensures v.fields["path"] == Str(req.path) && v.fields["method"] == Str(req.verb) &&
            v.fields["query"] == Query(req.query) && v.fields["host"] == Str(req.host) &&
            v.fields["remote"] == Str(ip)
  {
    Obj(map["path" := Str(req.path), "method" := Str(req.verb), "query" := Query(req.query),
            "host" := Str(req.host), "remote" := Str(ip)])
  }

  /** The entry for the request: what the incoming context yields, with the
      `serving` description added and every other field kept. */
  function BaseEntry(req: Request, root: Fields, hostOf: string -> string): (e: Entry)
    ensures var from := FromContext(req.ctx, root);
            e.data.Keys == from.data.Keys + {ServingField} &&
            e.data[ServingField] == Serving(req, ClientAddress(req, hostOf)) &&
            forall k :: k in from.data && k != ServingField ==> e.data[k] == from.data[k]
  {
    FromContext(req.ctx, root).WithField(ServingField, Serving(req, ClientAddress(req, hostOf)))
  }

  /** The request handed to the next handler: the same request whose context
      now stores the base entry; the trace binding is as before. */
  function Handled(req: Request, root: Fields, hostOf: string -> string): (handled: Request)
    ensures handled == req.(ctx := handled.ctx)
    ensures StoredEntry(handled.ctx, root) == BaseEntry(req, root, hostOf)
    ensures Trace.GetTrace(handled.ctx) == Trace.GetTrace(req.ctx)
  {
    req.(ctx := WithEntry(req.ctx, Some(BaseEntry(req, root, hostOf)), root))
  }

  /** Inside the handler, `FromContext` yields the base entry itself: its
      trace field, if any, is already the bound trace id. */
  lemma HandlerSeesBaseEntry(req: Request, root: Fields, hostOf: string -> string)
    ensures FromContext(Handled(req, root, hostOf).ctx, root) == BaseEntry(req, root, hostOf)
  {
    var base := BaseEntry(req, root, hostOf);
    var ctx := Handled(req, root, hostOf).ctx;
    var (id, ok) := Trace.GetTrace(req.ctx);
    if ok {
      assert base.data[TraceField] == Str(id);
      assert base.data[TraceField := Str(id)] == base.data;
    }
  }

  /** The fields the summary event adds. */
  const SummaryKeys: set<string> := {"statusCode", "durationSeconds", "begin", "agent", "referer"}

  /** The summary fields; `begin` is the RFC 3339 start time and `duration`
      the elapsed seconds, both taken from the clock outside this model. */
  function SummaryFields(req: Request, status: int, begin: string, duration: Value): (f: Fields)
    ensures f.Keys == SummaryKeys
    ensures f["statusCode"] == Int(status) && f["durationSeconds"] == duration && f["begin"] == Str(begin)
    ensures f["agent"] == Str(UserAgent(req)) && f["referer"] == Str(Referer(req))
  {
    map["statusCode" := Int(status), "durationSeconds" := duration, "begin" := Str(begin),
        "agent" := Str(UserAgent(req)), "referer" := Str(Referer(req))]
  }

  /** The event logged after the handler returns: none for the `/up` probe;
      otherwise one Info event "HTTP Served Request" with the entry's fields,
      the `serving` description among them, and the summary fields. */
  function SummaryEvent(levels: LevelTable, req: Request, base: Entry, status: int, begin: string, duration: Value)
    : (r: Option<Event>)
    ensures r.None? <==> req.path == ProbePath
    ensures r.Some? ==>
      r.value.level == levels.info && r.value.message == ServedMessage &&
      r.value.fields.Keys == base.data.Keys + SummaryKeys &&
      r.value.fields["statusCode"] == Int(status) &&
      r.value.fields["agent"] == Str(UserAgent(req)) &&
      r.value.fields["referer"] == Str(Referer(req)) &&
      (forall k :: k in SummaryKeys ==> r.value.fields[k] == SummaryFields(req, status, begin, duration)[k]) &&
      forall k :: k in base.data && k !in SummaryKeys ==> r.value.fields[k] == base.data[k]
  {
    if req.path == ProbePath then None
    else Some(Emit(base.WithFields(SummaryFields(req, status, begin, duration)), levels.info, ServedMessage))
  }

  /** The status a recorder holds after the handler wrote `writes`: the last
      one written, or 200 when the handler wrote none. */
  function LastStatus(writes: seq<int>): (s: int)
    ensures s == DefaultStatus || s in writes
  {
    if |writes| == 0 then DefaultStatus else writes[|writes| - 1]
  }

  /** Writing `x` makes `x` the recorded status, whatever was written before. */
  lemma LastStatusAfterWrite(writes: seq<int>, x: int)
    ensures LastStatus(writes + [x]) == x
  {
  }

  /** `responseRecorder`: the status last written, and the statuses passed
      on to the wrapped `http.ResponseWriter`. */
  class ResponseRecorder {
    var status: int
    var forwarded: seq<int>

    constructor ()
      ensures status == DefaultStatus && forwarded == []
    {
      status := DefaultStatus;
      forwarded := [];
    }

    /** `WriteHeader`: records the status and forwards it. */
    method WriteHeader(s: int)
      modifies this
      ensures status == s && forwarded == old(forwarded) + [s]
    {
      status := s;
      forwarded := forwarded + [s];
    }
  }

  /** The steps before the handler runs: the client address, the base entry
      and the request rebound to a context that stores it. */
  method Prepare(req: Request, root: Fields, hostOf: string -> string) returns (entry: Entry, handled: Request)
    ensures entry == BaseEntry(req, root, hostOf)
    ensures handled == Handled(req, root, hostOf)
  {
    var ip := hostOf(req.remoteAddr);
    var forwardedFor := Get(req.header, ForwardedHeader);
    if forwardedFor != "" {
      ip := forwardedFor;
    }
    entry := FromContext(req.ctx, root).WithField(ServingField, Serving(req, ip));
    handled := req.(ctx := WithEntry(req.ctx, Some(entry), root));
  }

  /** The wrapped handler's effect on the recorder: its `WriteHeader` calls,
      one per status in `writes`, in order. */
  method RunHandler(recorder: ResponseRecorder, writes: seq<int>)
    modifies recorder
    ensures recorder.forwarded == old(recorder.forwarded) + writes
    ensures recorder.status == if |writes| == 0 then old(recorder.status) else LastStatus(writes)
  {
    for i := 0 to |writes|
      invariant recorder.forwarded == old(recorder.forwarded) + writes[..i]
      invariant recorder.status == if i == 0 then old(recorder.status) else LastStatus(writes[..i])
    {
      recorder.WriteHeader(writes[i]);
    }
    assert writes[..|writes|] == writes;
  }

  /** The step after the handler returns: nothing for the probe path, else
      the summary event built from the entry and the recorded status. */
  method Summarize(levels: LevelTable, handled: Request, entry: Entry, status: int, begin: string, duration: Value)
    returns (summary: Option<Event>)
    ensures summary == SummaryEvent(levels, handled, entry, status, begin, duration)
  {
    if handled.path == ProbePath {
      return None;
    }
    var fields := SummaryFields(handled, status, begin, duration);
    summary := Some(Emit(entry.WithFields(fields), levels.info, ServedMessage));
  }

  /** The middleware's handler body. The wrapped handler is represented by
      the statuses it writes (`handlerWrites`); it runs on `handled`. */
  method Serve(levels: LevelTable, req: Request, root: Fields, hostOf: string -> string, begin: string, duration: Value,
               handlerWrites: seq<int>)
    returns (handled: Request, recorder: ResponseRecorder, summary: Option<Event>)
    ensures handled == Handled(req, root, hostOf)
    ensures recorder.forwarded == handlerWrites && recorder.status == LastStatus(handlerWrites)
    ensures summary == SummaryEvent(levels, handled, BaseEntry(req, root, hostOf), LastStatus(handlerWrites), begin, duration)
  {
    var entry;
    entry, handled := Prepare(req, root, hostOf);
    recorder := new ResponseRecorder();
    RunHandler(recorder, handlerWrites);
    summary := Summarize(levels, handled, entry, recorder.status, begin, duration);
  }

  /** `statusCodeFamily`: the first character of the decimal status
      followed by "XX". */
  function StatusCodeFamily(status: int): (f: string)
    ensures |f| == 3 && f[1..] == "XX"
    ensures status < 0 ==> f == "-XX"
    ensures status >= 0 ==> '0' <= f[0] <= '9'
  {
    [IntToDecimal(status)[0]] + "XX"
  }

  /** For a status with k + 1 digits, the family is its leading digit. */
  lemma StatusFamilyLeadingDigit(status: int, k: nat)
    requires Pow10(k) <= status < Pow10(k + 1)
    ensures status / Pow10(k) < 10
    ensures StatusCodeFamily(status) == [DigitChar(status / Pow10(k))] + "XX"
  {
    LeadingDigit(status, k);
  }

  /** For a three-digit HTTP status the family is its hundreds digit
      (404 gives "4XX"). */
  lemma StatusFamilyHundreds(status: int)
    requires 100 <= status <= 999
    ensures StatusCodeFamily(status) == [DigitChar(status / 100)] + "XX"
  {
    assert Pow10(2) == 100 && Pow10(3) == 1000;
    StatusFamilyLeadingDigit(status, 2);
  }

  const TestReferer := "https://developer.mozilla.org/en-US/docs/Web/HTTP/Headers/Referer"

  /** The root fields of the logger the served-request scenario installs. */
  const TestRoot: Fields := map["test" := Str("test")]

  /** The request of the served-request scenario: a GET of "/" whose header
      holds one user agent, one referer and X-Forwarded-For 8.8.8.8 (among
      whatever else the client adds), with no trace or entry bound. */
  predicate ScenarioRequest(req: Request)
  {
    req.verb == "GET" && req.path == "/" && req.query == map[] &&
    Lookup(req.ctx, EntryKey) == None && Lookup(req.ctx, TraceKey) == None &&
    ValuesOf(req.header, Canonical("User-Agent")) == ["TESTAGENT"] &&
    ValuesOf(req.header, Canonical("Referer")) == [TestReferer] &&
    ValuesOf(req.header, Canonical(ForwardedHeader)) == ["8.8.8.8"]
  }

  /** The `serving` description the scenario expects. */
  function ScenarioServing(host: string): Value
  {
    Obj(map["path" := Str("/"), "method" := Str("GET"), "query" := Query(map[]),
            "host" := Str(host), "remote" := Str("8.8.8.8")])
  }

  /** The scenario's header reads: the agent, the referer and the forwarded address. */
  lemma ScenarioHeaders(req: Request, hostOf: string -> string)
    requires ScenarioRequest(req)
    ensures UserAgent(req) == "TESTAGENT" && Referer(req) == TestReferer
    ensures ClientAddress(req, hostOf) == "8.8.8.8"
  {
  }

  /** The scenario's base entry holds the root field and the `serving` description. */
  lemma ScenarioBase(req: Request, hostOf: string -> string)
    requires ScenarioRequest(req)
    ensures BaseEntry(req, TestRoot, hostOf).data == map["test" := Str("test"), ServingField := ScenarioServing(req.host)]
  {
    ScenarioHeaders(req, hostOf);
    FromEmptyContext(req.ctx, TestRoot);
    ScenarioServingOf(req);
    assert BaseEntry(req, TestRoot, hostOf) == New(TestRoot).WithField(ServingField, ScenarioServing(req.host));
  }

  /** The scenario request's `serving` description, attributed to 8.8.8.8. */
  lemma ScenarioServingOf(req: Request)
    requires req.verb == "GET" && req.path == "/" && req.query == map[]
    ensures Serving(req, "8.8.8.8") == ScenarioServing(req.host)
  {
  }

  /** In the scenario, the handler's entry with its own field added holds
      that field, the root field and the `serving` description. */
  lemma ScenarioHandlerEntry(req: Request, hostOf: string -> string)
    requires ScenarioRequest(req)
    ensures FromContext(Handled(req, TestRoot, hostOf).ctx, TestRoot).WithField("key", Str("value")).data ==
            map["test" := Str("test"), "key" := Str("value"), ServingField := ScenarioServing(req.host)]
  {
    ScenarioBase(req, hostOf);
    HandlerSeesBaseEntry(req, TestRoot, hostOf);
    ServingEntryWithKey(BaseEntry(req, TestRoot, hostOf), ScenarioServing(req.host));
  }

  /** An entry holding the root field and `serving`, extended with the handler's field. */
  lemma ServingEntryWithKey(e: Entry, serving: Value)
    requires e.data == map["test" := Str("test"), ServingField := serving]
    ensures e.WithField("key", Str("value")).data ==
            map["test" := Str("test"), "key" := Str("value"), ServingField := serving]
  {
  }

  /** In the scenario, with a handler that writes no status, the summary
      event is Info "HTTP Served Request" carrying status 200, the agent,
      the referer and the same `serving` description. */
  lemma ScenarioSummary(levels: LevelTable, req: Request, hostOf: string -> string, begin: string, duration: Value)
    requires ScenarioRequest(req)
    ensures var r := SummaryEvent(levels, Handled(req, TestRoot, hostOf), BaseEntry(req, TestRoot, hostOf),
                                  LastStatus([]), begin, duration);
            r.Some? && r.value.level == levels.info && r.value.message == ServedMessage &&
            r.value.fields.Keys == {"test", ServingField} + SummaryKeys &&
            r.value.fields["statusCode"] == Int(200) &&
            r.value.fields["agent"] == Str("TESTAGENT") &&
            r.value.fields["referer"] == Str(TestReferer) &&
            r.value.fields[ServingField] == ScenarioServing(req.host)
  {
    ScenarioHeaders(req, hostOf);
    ScenarioBase(req, hostOf);
    var handled := Handled(req, TestRoot, hostOf);
    assert handled.path == "/" && handled.header == req.header;
    SummaryOfServingEntry(levels, handled, BaseEntry(req, TestRoot, hostOf), ScenarioServing(req.host), 200, begin, duration);
  }

  /** The summary for an entry holding the root field and `serving`, off the probe path. */
  lemma SummaryOfServingEntry(levels: LevelTable, handled: Request, base: Entry, serving: Value, status: int,
                              begin: string, duration: Value)
    requires handled.path != ProbePath && base.data == map["test" := Str("test"), ServingField := serving]
    ensures var r := SummaryEvent(levels, handled, base, status, begin, duration);
            r.Some? && r.value.level == levels.info && r.value.message == ServedMessage &&
            r.value.fields.Keys == {"test", ServingField} + SummaryKeys &&
            r.value.fields["statusCode"] == Int(status) &&
            r.value.fields["agent"] == Str(UserAgent(handled)) &&
            r.value.fields["referer"] == Str(Referer(handled)) &&
            r.value.fields[ServingField] == serving
  {
    assert ServingField !in SummaryKeys && "test" !in SummaryKeys;
  }
}
