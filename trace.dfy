/** Trace propagation (trace/trace.go): a trace id carried in the context,
    read from or generated for inbound requests, and attached to outbound ones. */
module Trace {
  import opened Wrappers
  import opened GoContext
  import opened Http

  const TraceHeader := "X-Trace-ID"

  /** `WithTrace`: a child context whose trace is `id`; every other binding
      reads as in `ctx`, and `ctx` itself is a value that nothing changes. */
  function WithTrace(ctx: Context, id: string): (r: Context)
    ensures GetTrace(r) == (id, true)
    ensures forall k :: k != TraceKey ==> Lookup(r, k) == Lookup(ctx, k)
  {
    WithValue(ctx, TraceKey, TextBinding(id))
  }

  /** `GetTrace`: the bound trace id and true, or "" and false when the
      newest trace binding is missing or is not a string. */
  function GetTrace(ctx: Context): (r: (string, bool))
    ensures r.1 <==> Lookup(ctx, TraceKey).Some? && Lookup(ctx, TraceKey).value.TextBinding?
    ensures r.1 ==> Lookup(ctx, TraceKey) == Some(TextBinding(r.0))
    ensures !r.1 ==> r.0 == ""
  {
    match Lookup(ctx, TraceKey)
    case Some(TextBinding(v)) => (v, true)
    case _ => ("", false)
  }

  /** A later trace binding hides an earlier one, and the context the later
      one was added to still answers with the earlier id. */
  lemma TraceShadowing(ctx: Context, first: string, second: string)
    ensures GetTrace(WithTrace(WithTrace(ctx, first), second)) == (second, true)
    ensures GetTrace(WithTrace(ctx, first)) == (first, true)
  {
  }

  /** The inbound middleware: the request handed to the next handler. Its
      trace is the X-Trace-ID header when that is non-empty, else `generated`
      (the fresh uuid); nothing but the context changes. */
  function Inbound(req: Request, generated: string): (next: Request)
    ensures GetTrace(next.ctx) ==
      (if Get(req.header, TraceHeader) != "" then Get(req.header, TraceHeader) else generated, true)
    ensures next.ctx == WithTrace(req.ctx, GetTrace(next.ctx).0)
    ensures next == req.(ctx := next.ctx)
  {
    var tracingId := Get(req.header, TraceHeader);
    var id := if tracingId == "" then generated else tracingId;
    req.(ctx := WithTrace(req.ctx, id))
  }

  /** The header an outbound request carries when it reaches the next doer:
      the trace id appended under X-Trace-ID when one is bound, else the same header. */
  function TracedHeader(h: Header, ctx: Context): (r: Header)
    ensures var (id, ok) := GetTrace(ctx);
            var k := Canonical(TraceHeader);
            (ok ==> r.Keys == h.Keys + {k} && ValuesOf(r, k) == ValuesOf(h, k) + [id] &&
                    forall k' :: k' in h && k' != k ==> r[k'] == h[k']) &&
            (!ok ==> r == h)
  {
    var (id, ok) := GetTrace(ctx);
    if ok then Add(h, TraceHeader, id) else h
  }

  /** An outbound request: its header map is changed in place. */
  class OutboundRequest {
    var header: Header
    const ctx: Context

    constructor (header: Header, ctx: Context)
      ensures this.header == header && this.ctx == ctx
    {
      this.header := header;
      this.ctx := ctx;
    }
  }

  /** What an outbound call returns; the response itself is not modelled. */
  datatype Response = Response(id: nat)

  /** The wrapped `Doer`: it records the header of every request it is
      given and answers with a fixed result. */
  class Doer {
    var calls: seq<Header>
    const reply: Option<Response>
    const failure: Option<string>

    constructor (reply: Option<Response>, failure: Option<string>)
      ensures calls == [] && this.reply == reply && this.failure == failure
    {
      calls := [];
      this.reply := reply;
      this.failure := failure;
    }

    method Do(req: OutboundRequest) returns (resp: Option<Response>, err: Option<string>)
      modifies this
      ensures calls == old(calls) + [req.header]
      ensures resp == reply && err == failure
    {
      calls := calls + [req.header];
      resp, err := reply, failure;
    }
  }

  /** `Outerware`: adds the trace header when a trace is bound, then calls
      the next doer exactly once and returns what it returned. */
  method Outerware(next: Doer, req: OutboundRequest) returns (resp: Option<Response>, err: Option<string>)
    modifies req, next
    ensures req.header == TracedHeader(old(req.header), req.ctx)
    ensures next.calls == old(next.calls) + [req.header]
    ensures resp == next.reply && err == next.failure
  {
    var (id, ok) := GetTrace(req.ctx);
    if ok {
      req.header := Add(req.header, TraceHeader, id);
    }
    resp, err := next.Do(req);
  }
}
