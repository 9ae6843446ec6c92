/** Log entries: an immutable field set. Extending an entry builds a new one
    and never changes the entry it started from. */
module Entries {
  import opened Values

  datatype Entry = Entry(data: Fields)
  {
    /** `WithField`: the same fields with `key` set to `value`. */
    function WithField(key: string, value: Value): (e: Entry)
      ensures e.data.Keys == data.Keys + {key}
      ensures e.data[key] == value
      ensures forall k :: k in data && k != key ==> e.data[k] == data[k]
    {
      Entry(data[key := value])
    }

    /** `WithFields`: the same fields, overridden by `fields` where both have a key. */
    function WithFields(fields: Fields): (e: Entry)
      ensures e.data.Keys == data.Keys + fields.Keys
      ensures forall k :: k in fields ==> e.data[k] == fields[k]
      ensures forall k :: k in data && k !in fields ==> e.data[k] == data[k]
    {
      Entry(data + fields)
    }
  }

  /** `New()`: an entry holding the logger's root fields. */
  function New(root: Fields): Entry
  {
    Entry(root)
  }

  /** One emitted log event: the level, the message and a snapshot of the fields. */
  datatype Event = Event(level: int, message: string, fields: Fields)

  function Emit(e: Entry, level: int, message: string): Event
  {
    Event(level, message, e.data)
  }

  /** Sibling isolation: extending e1 into e2 leaves e1 without e2's field,
      and e2 holds both fields. */
  lemma SiblingIsolation(e0: Entry, k1: string, v1: Value, k2: string, v2: Value)
    requires k1 != k2 && k2 !in e0.data
    ensures var e1 := e0.WithField(k1, v1);
            var e2 := e1.WithField(k2, v2);
            k2 !in e1.data && e1.data[k1] == v1 &&
            e2.data[k1] == v1 && e2.data[k2] == v2 &&
            e2.data.Keys == e0.data.Keys + {k1, k2}
  {
  }
}
