/** Go's `context.Context` as the logger uses it: an immutable chain of
    key/value bindings, looked up from the newest binding outwards. */
module GoContext {
  import opened Wrappers
  import opened Entries

  /** Context keys. The trace package keys its binding by a value of its
      own private type (`traceKey`), which no other code can build. The
      entry key `logContextKey` is the empty struct `struct{}{}`, which any
      code can build: a foreign binding under it is a `WithValue` with key
      `EntryKey` holding something other than an entry, and the type check
      that reads it back then fails. Distinct constructors never compare equal. */
  datatype Key = EntryKey | TraceKey | OtherKey(name: string)

  /** What a binding holds: a log entry or a string. */
  datatype Binding = EntryBinding(entry: Entry) | TextBinding(text: string)

  datatype Context = Background | WithValue(parent: Context, key: Key, val: Binding)

  /** `ctx.Value(key)`: the newest binding of `key`, or nil when there is none. */
  function Lookup(ctx: Context, key: Key): Option<Binding>
  {
    match ctx
    case Background => None
    case WithValue(parent, k, v) => if k == key then Some(v) else Lookup(parent, key)
  }
}
