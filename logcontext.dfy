/** The log entry carried in a context (context.go, and its earlier copy in
    logger.go): binding an entry, and retrieving it fused with the trace id. */
module LogContext {
  import opened Wrappers
  import opened Values
  import opened Entries
  import opened GoContext
  import Trace

  const TraceField := "trace"

  /** The entry bound in `ctx`, or `New()` when none is bound. */
  function StoredEntry(ctx: Context, root: Fields): Entry
  {
    match Lookup(ctx, EntryKey)
    case Some(EntryBinding(e)) => e
    case _ => New(root)
  }

  /** `FromContext`: the stored entry, extended with `trace = id` when a
      trace is bound. The fusion is done on every retrieval and the stored
      entry is left as it was. */
  function FromContext(ctx: Context, root: Fields): (e: Entry)
    ensures var (id, ok) := Trace.GetTrace(ctx);
            var stored := StoredEntry(ctx, root);
            (ok ==> e.data.Keys == stored.data.Keys + {TraceField} && e.data[TraceField] == Str(id)) &&
            (!ok ==> e == stored) &&
            forall k :: k in stored.data && k != TraceField ==> e.data[k] == stored.data[k]
  {
    var entry := StoredEntry(ctx, root);
    var (id, ok) := Trace.GetTrace(ctx);
    if ok then entry.WithField(TraceField, Str(id)) else entry
  }

  /** `WithEntry`: a child context holding `entry`, or `New()` for a nil
      entry. The trace binding and every other binding read as before. */
  function WithEntry(ctx: Context, entry: Option<Entry>, root: Fields): (r: Context)
    ensures StoredEntry(r, root) == if entry.Some? then entry.value else New(root)
    ensures forall k :: k != EntryKey ==> Lookup(r, k) == Lookup(ctx, k)
    ensures Trace.GetTrace(r) == Trace.GetTrace(ctx)
  {
    var e := if entry.None? then New(root) else entry.value;
    WithValue(ctx, EntryKey, EntryBinding(e))
  }

  /** With no entry and no trace bound, retrieval gives `New()`. */
  lemma FromEmptyContext(ctx: Context, root: Fields)
    requires Lookup(ctx, EntryKey) == None && Lookup(ctx, TraceKey) == None
    ensures FromContext(ctx, root) == New(root)
  {
  }

  /** Binding a trace id does not change which entry is stored. */
  lemma TraceLeavesEntry(ctx: Context, id: string, root: Fields)
    ensures StoredEntry(Trace.WithTrace(ctx, id), root) == StoredEntry(ctx, root)
  {
  }

  /** Trace fusion does not depend on the order of the two bindings: either
      way the retrieved entry is the bound entry with `trace = id`. */
  lemma FusionEitherOrder(ctx: Context, e: Entry, id: string, root: Fields)
    ensures FromContext(Trace.WithTrace(WithEntry(ctx, Some(e), root), id), root) ==
            e.WithField(TraceField, Str(id))
    ensures FromContext(WithEntry(Trace.WithTrace(ctx, id), Some(e), root), root) ==
            e.WithField(TraceField, Str(id))
  {
    TraceLeavesEntry(WithEntry(ctx, Some(e), root), id, root);
  }
}
