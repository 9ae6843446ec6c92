/** The machine-readable formatter (`JSONFormatter.Format`, formatter.go):
    one flat record per event, holding the caller's fields and the three
    reserved keys `level`, `message` and `time`. */
module JsonFormatter {
  import opened Wrappers
  import opened Values
  import opened Levels

  const Reserved: seq<string> := ["level", "message", "time"]

  /** The key under which a reserved key's original value is kept. */
  function Renamed(meta: string): string
  {
    "fields." + meta
  }

  /** The caller's field map. A Go map is a reference, so what the formatter
      writes into it is seen by the caller. */
  class FieldMap {
    var entries: Fields

    constructor (entries: Fields)
      ensures this.entries == entries
    {
      this.entries := entries;
    }
  }

  /** The `fields.<meta>` copies made for the first `n` reserved names. */
  function CopiesUpTo(data: Fields, n: nat): Fields
    requires n <= |Reserved|
  {
    if n == 0 then map[]
    else
      var c := CopiesUpTo(data, n - 1);
      var meta := Reserved[n - 1];
      if meta in data then c[Renamed(meta) := data[meta]] else c
  }

  /** A `fields.<meta>` copy of each reserved key that `data` holds, with
      that key's value, and nothing else. */
  function ReservedCopies(data: Fields): (c: Fields)
    ensures forall i :: 0 <= i < |Reserved| ==> (Renamed(Reserved[i]) in c <==> Reserved[i] in data)
    ensures forall i :: 0 <= i < |Reserved| && Reserved[i] in data ==> c[Renamed(Reserved[i])] == data[Reserved[i]]
    ensures c.Keys <= {"fields.level", "fields.message", "fields.time"}
  {
    assert Renamed("level") == "fields.level";
    assert Renamed("message") == "fields.message";
    assert Renamed("time") == "fields.time";
    assert Reserved[0] == "level" && Reserved[1] == "message" && Reserved[2] == "time";
    assert CopiesUpTo(data, 0) == map[];
    var c1 := CopiesUpTo(data, 1);
    var c2 := CopiesUpTo(data, 2);
    var c3 := CopiesUpTo(data, 3);
    assert c1 == if "level" in data then map["fields.level" := data["level"]] else map[];
    assert c2 == if "message" in data then c1["fields.message" := data["message"]] else c1;
    assert c3 == if "time" in data then c2["fields.time" := data["time"]] else c2;
    c3
  }

  /** The record handed to the JSON encoder: the caller's fields with the
      level name, the message and the timestamp written over the reserved keys. */
  function Record(data: Fields, levelName: string, name: string, now: string): (r: Fields)
    ensures r.Keys == data.Keys + {"level", "message", "time"}
    ensures r["level"] == Str(levelName) && r["message"] == Str(name) && r["time"] == Str(now)
    ensures forall k :: k in data && k !in Reserved ==> r[k] == data[k]
  {
    data["level" := Str(levelName)]["message" := Str(name)]["time" := Str(now)]
  }

  /** `JSONFormatter.Format`: copies the caller's map, writes the renamed
      copies of the reserved keys into the CALLER's map, overwrites the
      reserved keys of the copy and encodes the copy. `now` is the RFC 3339
      timestamp and `writeErr` what the encoder's write returns. */
  method Format(levels: LevelTable, level: int, name: string, data: FieldMap, now: string, writeErr: Option<string>)
    returns (record: Fields, err: Option<string>)
    modifies data
    ensures record == Record(old(data.entries), levels.name(level), name, now)
    ensures data.entries == old(data.entries) + ReservedCopies(old(data.entries))
    ensures err == writeErr
  {
    var dataOut: Fields := map[];
    var rest := data.entries.Keys;
    while rest != {}
      invariant rest <= data.entries.Keys
      invariant dataOut.Keys == data.entries.Keys - rest
      invariant forall k :: k in dataOut ==> dataOut[k] == data.entries[k]
      decreases rest
    {
      var k :| k in rest;
      dataOut := dataOut[k := data.entries[k]];
      rest := rest - {k};
    }
    assert dataOut == data.entries;
    ghost var original := data.entries;
    for i := 0 to |Reserved|
      invariant data.entries == original + CopiesUpTo(original, i)
    {
      var meta := Reserved[i];
      if meta in dataOut {
        data.entries := data.entries[Renamed(meta) := dataOut[meta]];
      }
    }
    dataOut := dataOut["level" := Str(levels.name(level))];
    dataOut := dataOut["message" := Str(name)];
    dataOut := dataOut["time" := Str(now)];
    record := dataOut;
    err := writeErr;
  }

  /** The copy of a colliding key never reaches the record: a caller field
      `message = "X"` is lost, and the record holds no `fields.message`. */
  lemma CollisionCopyLost(levelName: string, name: string, now: string)
    ensures var data := map["message" := Str("X")];
            var r := Record(data, levelName, name, now);
            Renamed("message") !in r && r["message"] == Str(name) &&
            (data + ReservedCopies(data))[Renamed("message")] == Str("X")
  {
    var data := map["message" := Str("X")];
    assert Reserved[1] in data;
  }

  /** The record the formatter evidently means to emit: built from the
      fields after the renamed copies are added. */
  function IntendedRecord(data: Fields, levelName: string, name: string, now: string): Fields
  {
    Record(data + ReservedCopies(data), levelName, name, now)
  }

  /** In the intended record every colliding reserved key keeps its original
      value under `fields.<key>`, while the reserved keys carry the event's
      own level, message and time. */
  lemma IntendedRecordKeepsCollision(data: Fields, levelName: string, name: string, now: string, i: int)
    requires 0 <= i < |Reserved| && Reserved[i] in data
    ensures var r := IntendedRecord(data, levelName, name, now);
            Renamed(Reserved[i]) in r && r[Renamed(Reserved[i])] == data[Reserved[i]] &&
            r["level"] == Str(levelName) && r["message"] == Str(name) && r["time"] == Str(now)
  {
    var copies := ReservedCopies(data);
    var meta := Reserved[i];
    assert Renamed(meta) in copies;
    assert Renamed(meta) !in Reserved by {
      assert Renamed(meta) in {"fields.level", "fields.message", "fields.time"};
    }
  }
}
