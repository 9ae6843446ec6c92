/** The event-bus hook (tracker/tracker.go): republishes events at or below
    the Track level as a structured event, with `_id` fields split off into
    `keys` and a `component.name` message split into emitter and name. */
module Tracker {
  import opened Wrappers
  import opened Values
  import opened Text
  import opened Levels

  datatype EmitterDetails = EmitterDetails(system: string, component: string)

  datatype Header = Header(version: string, kind: string, emitter: EmitterDetails)

  const DefaultHeader := Header("1.1", "system", EmitterDetails("", ""))

  /** `postEvent`: what is handed to the publisher. */
  datatype PostEvent = PostEvent(header: Header, emitTimestamp: string, name: string, keys: Fields, data: Fields)

  /** `LogWriter`, a value: its header and nothing else (the publisher is
      the recorded call that `Write` returns). */
  datatype LogWriter = LogWriter(header: Header)

  const IdSuffix := "_id"

  /** The fields that go into `keys`: those whose key ends in `_id`. */
  function IdFields(input: Fields): Fields
  {
    map k | k in input && HasSuffix(k, IdSuffix) :: input[k]
  }

  /** The fields that go into `data`: all the others. */
  function DataFields(input: Fields): Fields
  {
    map k | k in input && !HasSuffix(k, IdSuffix) :: input[k]
  }

  /** `keys` and `data` partition the input: no key is in both, together
      they are the input with its values, and `keys` holds exactly the `_id` keys. */
  lemma Partition(input: Fields)
    ensures IdFields(input).Keys !! DataFields(input).Keys
    ensures IdFields(input) + DataFields(input) == input
    ensures forall k :: k in IdFields(input) <==> k in input && HasSuffix(k, IdSuffix)
  {
    var both := IdFields(input) + DataFields(input);
    assert both.Keys == input.Keys;
    assert forall k :: k in both ==> both[k] == input[k];
  }

  /** The header and name of the event: a name with exactly one '.' is split
      into the emitter's component and the bare name; any other name (no
      dot, or two or more) and the header pass through unchanged. */
  function SplitName(h: Header, name: string): (r: (Header, string))
    ensures r.0.version == h.version && r.0.kind == h.kind && r.0.emitter.system == h.emitter.system
    ensures Count(name, '.') == 1 ==>
      r.0.emitter.component + "." + r.1 == name && '.' !in r.0.emitter.component && '.' !in r.1
    ensures Count(name, '.') != 1 ==> r == (h, name)
  {
    var parts := Split(name, '.');
    if |parts| == 2 then
      SplitTwo(name, '.');
      (h.(emitter := h.emitter.(component := parts[0])), parts[1])
    else
      (h, name)
  }

  /** The event `Write` publishes for an input that passes the level gate:
      the `_id` fields and the others split between `keys` and `data`, the
      writer's header with the component taken from a `component.name`
      message, and the given emit timestamp. */
  function EventFor(lw: LogWriter, name: string, input: Fields, now: string): (ev: PostEvent)
    ensures ev.keys.Keys !! ev.data.Keys && ev.keys + ev.data == input
    ensures forall k :: k in ev.keys <==> k in input && HasSuffix(k, IdSuffix)
    ensures (ev.header, ev.name) == SplitName(lw.header, name)
    ensures ev.emitTimestamp == now
  {
    Partition(input);
    var (header, shortName) := SplitName(lw.header, name);
    PostEvent(header, now, shortName, IdFields(input), DataFields(input))
  }

  /** A writer with the default header publishes a `component.name` event
      under version "1.1" and type "system", with an empty system and the
      message's component. */
  lemma DefaultHeaderEvent(name: string, input: Fields, now: string)
    requires Count(name, '.') == 1
    ensures var ev := EventFor(LogWriter(DefaultHeader), name, input, now);
            ev.header.version == "1.1" && ev.header.kind == "system" && ev.header.emitter.system == "" &&
            ev.header.emitter.component + "." + ev.name == name
  {
    var ev := EventFor(LogWriter(DefaultHeader), name, input, now);
    assert (ev.header, ev.name) == SplitName(DefaultHeader, name);
  }

  /** `LogWriter.Write`: nothing past the Track level; otherwise exactly one
      publish call, whose error is returned. `now` is the emit timestamp and
      `publishErr` the publisher's answer. */
  method Write(lw: LogWriter, levels: LevelTable, level: int, name: string, input: Fields, now: string,
               publishErr: Option<string>)
    returns (published: seq<PostEvent>, err: Option<string>)
    ensures level > levels.track ==> published == [] && err == None
    ensures level <= levels.track ==> published == [EventFor(lw, name, input, now)] && err == publishErr
  {
    if level > levels.track {
      return [], None;
    }
    var keys: Fields := map[];
    var data: Fields := map[];
    var rest := input.Keys;
    while rest != {}
      invariant rest <= input.Keys
      invariant keys == map k | k in input && k !in rest && HasSuffix(k, IdSuffix) :: input[k]
      invariant data == map k | k in input && k !in rest && !HasSuffix(k, IdSuffix) :: input[k]
      decreases rest
    {
      var k :| k in rest;
      if HasSuffix(k, IdSuffix) {
        keys := keys[k := input[k]];
      } else {
        data := data[k := input[k]];
      }
      rest := rest - {k};
    }
    assert keys == IdFields(input) && data == DataFields(input);
    var header := lw.header;
    var shortName := name;
    var parts := Split(name, '.');
    if |parts| == 2 {
      header := header.(emitter := header.emitter.(component := parts[0]));
      shortName := parts[1];
    }
    published := [PostEvent(header, now, shortName, keys, data)];
    err := publishErr;
  }
}
