/** Severity levels. The files that declare the level constants and their
    names are not part of this model, so their numeric values and names are a
    parameter: a table naming the value of every level. */
module Levels {

  datatype LevelTable = LevelTable(
    track: int,
    error: int,
    warn: int,
    info: int,
    debug: int,
    name: int -> string)  // `LevelNames[level]`
  {
    /** The constants are distinct, as the colour table's map literal needs them to be. */
    predicate Distinct() {
      track != error && track != warn && track != info && track != debug &&
      error != warn && error != info && error != debug &&
      warn != info && warn != debug &&
      info != debug
    }
  }

  // ANSI colour codes of the multi-line banner (`blue` is the code 36).
  const NoColor := 0
  const Red := 31
  const Green := 32
  const Yellow := 33
  const Blue := 36

  /** `levelColors[level]`: the colour for a level, or Go's zero value 0
      (no colour) for a level the table does not list, such as Track. */
  function LevelColor(t: LevelTable, level: int): (c: int)
    ensures t.Distinct() ==>
      (level == t.debug ==> c == Green) &&
      (level == t.error ==> c == Red) &&
      (level == t.info ==> c == Blue) &&
      (level == t.warn ==> c == Yellow)
    ensures level != t.debug && level != t.error && level != t.info && level != t.warn ==> c == NoColor
    ensures c in {NoColor, Red, Green, Yellow, Blue}
  {
    var colors := map[t.debug := Green, t.error := Red, t.info := Blue, t.warn := Yellow];
    if level in colors then colors[level] else NoColor
  }
}
