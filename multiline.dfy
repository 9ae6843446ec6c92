/** The human-readable formatter (`MultilineFormatter`, defined twice in the
    source, identically in logger.go and formatter.go): fields are ranked by
    their position in a priority list, sorted by rank and then by key, and
    written one per line under a banner, stopping at the first failed write. */
module Multiline {
  import opened Wrappers
  import opened Values
  import opened Text
  import opened Levels

  /** The rank of a field missing from the priority list. */
  const Unlisted := 99999

  /** `logField`: a field's rank, key and encoded value. */
  datatype LogField = LogField(order: int, key: string, val: string)

  /** The rank `getOrder` gives a key: the index of its first occurrence in
      the priority list, or `Unlisted`. */
  function OrderOf(special: seq<string>, k: string): (r: int)
    ensures k in special ==> 0 <= r < |special| && special[r] == k &&
                             forall j :: 0 <= j < r ==> special[j] != k
    ensures k !in special ==> r == Unlisted
  {
    OrderFrom(special, k, 0)
  }

  function OrderFrom(special: seq<string>, k: string, i: nat): (r: int)
    requires i <= |special|
    requires forall j :: 0 <= j < i ==> special[j] != k
    ensures k in special ==> i <= r < |special| && special[r] == k &&
                             forall j :: 0 <= j < r ==> special[j] != k
    ensures k !in special ==> r == Unlisted
    decreases |special| - i
  {
    if i == |special| then Unlisted
    else if special[i] == k then i
    else OrderFrom(special, k, i + 1)
  }

  /** `getOrder`: the search loop with its early return. */
  method GetOrder(special: seq<string>, k: string) returns (order: int)
    ensures order == OrderOf(special, k)
  {
    for idx := 0 to |special|
      invariant forall j :: 0 <= j < idx ==> special[j] != k
    {
      if special[idx] == k {
        return idx;
      }
    }
    return Unlisted;
  }

  /** `sortedFields.Less`: by rank, ties broken by key. */
  predicate Less(a: LogField, b: LogField)
  {
    if a.order != b.order then a.order < b.order else StrLess(a.key, b.key)
  }

  lemma LessIrreflexive(a: LogField)
    ensures !Less(a, a)
  {
    StrLessIrreflexive(a.key);
  }

  lemma LessAsymmetric(a: LogField, b: LogField)
    requires Less(a, b)
    ensures !Less(b, a)
  {
    if a.order == b.order {
      StrLessAsymmetric(a.key, b.key);
    }
  }

  lemma LessTransitive(a: LogField, b: LogField, c: LogField)
    requires Less(a, b) && Less(b, c)
    ensures Less(a, c)
  {
    if a.order == b.order == c.order {
      StrLessTransitive(a.key, b.key, c.key);
    }
  }

  /** Fields with different keys are always ordered, so on fields with unique
      keys `Less` is a strict total order. */
  lemma LessTotal(a: LogField, b: LogField)
    requires a.key != b.key
    ensures Less(a, b) || Less(b, a)
  {
    if a.order == b.order {
      StrLessTotal(a.key, b.key);
    }
  }

  /** Not out of order: what a sort guarantees of neighbours. */
  predicate LessEq(a: LogField, b: LogField)
  {
    !Less(b, a)
  }

  lemma LessEqTransitive(a: LogField, b: LogField, c: LogField)
    requires LessEq(a, b) && LessEq(b, c)
    ensures LessEq(a, c)
  {
    if Less(c, a) {
      if a.key != b.key {
        LessTotal(a, b);
        LessTransitive(c, a, b);
      } else if b.key != c.key {
        LessTotal(b, c);
        LessTransitive(b, c, a);
      } else {
        LessIrreflexive(a);
      }
    }
  }

  /** The field that the collection loop builds for key `k`. */
  function FieldOf(special: seq<string>, data: Fields, encode: Value -> string, k: string): LogField
    requires k in data
  {
    LogField(OrderOf(special, k), k, encode(data[k]))
  }

  function KeysOf(fs: seq<LogField>): set<string>
  {
    set f | f in fs :: f.key
  }

  predicate StrictlySorted(fs: seq<LogField>)
  {
    forall i, j :: 0 <= i < j < |fs| ==> Less(fs[i], fs[j])
  }

  /** `fs` lists the fields of `data`, one per key, and is sorted by `Less`. */
  predicate SortedListing(fs: seq<LogField>, special: seq<string>, data: Fields, encode: Value -> string)
  {
    && KeysOf(fs) == data.Keys
    && (forall i :: 0 <= i < |fs| ==> fs[i].key in data && fs[i] == FieldOf(special, data, encode, fs[i].key))
    && StrictlySorted(fs)
  }

  lemma {:induction false} KeysOfSize(fs: seq<LogField>)
    requires forall i, j :: 0 <= i < j < |fs| ==> fs[i].key != fs[j].key
    ensures |KeysOf(fs)| == |fs|
  {
    if |fs| > 0 {
      assert KeysOf(fs) == {fs[0].key} + KeysOf(fs[1..]);
      assert fs[0].key !in KeysOf(fs[1..]);
      KeysOfSize(fs[1..]);
    }
  }

  /** A sorted listing has one field per key: as many fields as `data` has entries. */
  lemma ListingLength(fs: seq<LogField>, special: seq<string>, data: Fields, encode: Value -> string)
    requires SortedListing(fs, special, data, encode)
    ensures |fs| == |data|
  {
    forall i, j | 0 <= i < j < |fs|
      ensures fs[i].key != fs[j].key
    {
      if fs[i].key == fs[j].key {
        LessIrreflexive(fs[i]);
      }
    }
    KeysOfSize(fs);
  }

  lemma {:induction false} SortedSameElements(a: seq<LogField>, b: seq<LogField>)
    requires StrictlySorted(a) && StrictlySorted(b)
    requires forall x :: x in a <==> x in b
    ensures a == b
  {
    if |a| > 0 {
      assert a[0] in a;
    }
    if |b| > 0 {
      assert b[0] in b;
    }
    if |a| > 0 {
      var i :| 0 <= i < |a| && a[i] == b[0];
      var j :| 0 <= j < |b| && b[j] == a[0];
      if j > 0 {
        if i == 0 {
          LessIrreflexive(a[0]);
        } else {
          LessAsymmetric(a[0], a[i]);
        }
      }
      assert a[0] == b[0];
      forall x
        ensures x in a[1..] <==> x in b[1..]
      {
        if x in a[1..] {
          var p :| 1 <= p < |a| && a[p] == x;
          assert x in a;
          if x == a[0] {
            LessIrreflexive(a[0]);
          }
          var q :| 0 <= q < |b| && b[q] == x;
          assert q != 0;
        }
        if x in b[1..] {
          var q :| 1 <= q < |b| && b[q] == x;
          assert x in b;
          if x == b[0] {
            LessIrreflexive(b[0]);
          }
          var p :| 0 <= p < |a| && a[p] == x;
          assert p != 0;
        }
      }
      SortedSameElements(a[1..], b[1..]);
      assert a == [a[0]] + a[1..] && b == [b[0]] + b[1..];
    }
  }

  /** The sorted listing is unique: sort order is fully determined even
      though Go's map iteration order and `sort.Sort` are not stable. */
  lemma ListingUnique(a: seq<LogField>, b: seq<LogField>, special: seq<string>, data: Fields, encode: Value -> string)
    requires SortedListing(a, special, data, encode) && SortedListing(b, special, data, encode)
    ensures a == b
  {
    forall x | x in a
      ensures x in b
    {
      assert x.key in KeysOf(b);
      var y :| y in b && y.key == x.key;
    }
    forall x | x in b
      ensures x in a
    {
      assert x.key in KeysOf(a);
      var y :| y in a && y.key == x.key;
    }
    SortedSameElements(a, b);
  }

  /** Every field named in the priority list comes before every field that
      is not (for priority lists of at most `Unlisted` names). */
  lemma ListedBeforeUnlisted(fs: seq<LogField>, special: seq<string>, data: Fields, encode: Value -> string, i: int, j: int)
    requires SortedListing(fs, special, data, encode) && |special| <= Unlisted
    requires 0 <= i < |fs| && 0 <= j < |fs|
    requires fs[i].key in special && fs[j].key !in special
    ensures i < j
  {
  }

  /** Named fields appear in the order of the first occurrence of their
      names in the priority list. */
  lemma ListedInPriorityOrder(fs: seq<LogField>, special: seq<string>, data: Fields, encode: Value -> string, i: int, j: int)
    requires SortedListing(fs, special, data, encode)
    requires 0 <= i < j < |fs|
    requires fs[i].key in special && fs[j].key in special
    ensures OrderOf(special, fs[i].key) < OrderOf(special, fs[j].key)
  {
    assert Less(fs[i], fs[j]);
    if fs[i].order == fs[j].order {
      assert special[fs[i].order] == fs[i].key && special[fs[j].order] == fs[j].key;
      LessIrreflexive(fs[i]);
    }
  }

  /** Fields missing from the priority list all share one rank and so
      appear among themselves in key order. */
  lemma UnlistedInKeyOrder(fs: seq<LogField>, special: seq<string>, data: Fields, encode: Value -> string, i: int, j: int)
    requires SortedListing(fs, special, data, encode)
    requires 0 <= i < j < |fs|
    requires fs[i].key !in special && fs[j].key !in special
    ensures StrLess(fs[i].key, fs[j].key)
  {
    assert Less(fs[i], fs[j]);
  }

  /** The loop over `data` that builds the `fields` slice, in whatever order
      the map yields its keys. */
  method CollectFields(special: seq<string>, data: Fields, encode: Value -> string) returns (fields: seq<LogField>)
    ensures KeysOf(fields) == data.Keys
    ensures forall i :: 0 <= i < |fields| ==> fields[i].key in data && fields[i] == FieldOf(special, data, encode, fields[i].key)
    ensures forall i, j :: 0 <= i < j < |fields| ==> fields[i].key != fields[j].key
  {
    fields := [];
    var rest := data.Keys;
    while rest != {}
      invariant rest <= data.Keys
      invariant KeysOf(fields) == data.Keys - rest
      invariant forall i :: 0 <= i < |fields| ==> fields[i].key in data && fields[i] == FieldOf(special, data, encode, fields[i].key)
      invariant forall i, j :: 0 <= i < j < |fields| ==> fields[i].key != fields[j].key
      decreases rest
    {
      var key :| key in rest;
      var order := GetOrder(special, key);
      var field := LogField(order, key, encode(data[key]));
      assert key !in KeysOf(fields);
      assert forall i :: 0 <= i < |fields| ==> fields[i] in fields;
      assert KeysOf(fields + [field]) == KeysOf(fields) + {key} by {
        assert forall f :: f in fields + [field] <==> f in fields || f == field;
      }
      fields := fields + [field];
      rest := rest - {key};
    }
  }

  /** Exchanges two elements of the slice (`sortedFields.Swap`). */
  method Swap(a: array<LogField>, i: int, j: int)
    requires 0 <= i < a.Length && 0 <= j < a.Length
    modifies a
    ensures a[..] == old(a[..])[i := old(a[j])][j := old(a[i])]
    ensures multiset(a[..]) == multiset(old(a[..]))
  {
    a[i], a[j] := a[j], a[i];
  }

  /** Moves `a[i]` left past every larger neighbour, so that `a[..i+1]` is
      sorted when `a[..i]` was. */
  method InsertLast(a: array<LogField>, i: int)
    requires 0 <= i < a.Length
    requires forall p, q :: 0 <= p < q < i ==> LessEq(a[p], a[q])
    modifies a
    ensures forall p, q :: 0 <= p < q <= i ==> LessEq(a[p], a[q])
    ensures multiset(a[..]) == multiset(old(a[..]))
  {
    var j := i;
    while j > 0 && Less(a[j], a[j - 1])
      invariant 0 <= j <= i
      invariant forall p, q :: 0 <= p < q <= i && p != j && q != j ==> LessEq(a[p], a[q])
      invariant forall q :: j < q <= i ==> LessEq(a[j], a[q])
      invariant multiset(a[..]) == multiset(old(a[..]))
      decreases j
    {
      LessAsymmetric(a[j], a[j - 1]);
      Swap(a, j - 1, j);
      j := j - 1;
    }
    forall p | 0 <= p < j
      ensures LessEq(a[p], a[j])
    {
      if p < j - 1 {
        LessEqTransitive(a[p], a[j - 1], a[j]);
      }
    }
  }

  /** `sort.Sort(sortedFields(fields))`: sorts in place by `Less` and keeps
      the same elements. */
  method SortFields(a: array<LogField>)
    modifies a
    ensures forall p, q :: 0 <= p < q < a.Length ==> LessEq(a[p], a[q])
    ensures multiset(a[..]) == multiset(old(a[..]))
  {
    for i := 0 to a.Length
      invariant forall p, q :: 0 <= p < q < i ==> LessEq(a[p], a[q])
      invariant multiset(a[..]) == multiset(old(a[..]))
    {
      InsertLast(a, i);
    }
  }

  lemma {:induction false} DistinctCountOne(s: seq<LogField>, x: LogField)
    requires forall i, j :: 0 <= i < j < |s| ==> s[i] != s[j]
    ensures multiset(s)[x] <= 1
  {
    if |s| > 0 {
      assert s == [s[0]] + s[1..];
      DistinctCountOne(s[1..], x);
      if s[0] == x {
        assert x !in s[1..];
      }
    }
  }

  /** A permutation of a sequence without repeats has no repeats. */
  lemma DistinctPermutation(s: seq<LogField>, t: seq<LogField>)
    requires forall i, j :: 0 <= i < j < |s| ==> s[i] != s[j]
    requires multiset(s) == multiset(t)
    ensures forall i, j :: 0 <= i < j < |t| ==> t[i] != t[j]
  {
    forall i, j | 0 <= i < j < |t|
      ensures t[i] != t[j]
    {
      if t[i] == t[j] {
        assert t == t[..i] + [t[i]] + t[i + 1..j] + [t[j]] + t[j + 1..];
        assert multiset(t)[t[i]] >= 2;
        DistinctCountOne(s, t[i]);
      }
    }
  }

  /** One line of output: the banner (separator, coloured level name and
      message), or one indented `key: value` line. */
  datatype Line = Banner(color: int, level: string, message: string) | FieldLine(key: string, val: string)

  function LinesOf(fs: seq<LogField>): (ls: seq<Line>)
    ensures |ls| == |fs|
    ensures forall i :: 0 <= i < |fs| ==> ls[i] == FieldLine(fs[i].key, fs[i].val)
  {
    seq(|fs|, i requires 0 <= i < |fs| => FieldLine(fs[i].key, fs[i].val))
  }

  /** The output sink. Its first `accepts` writes succeed and the next one
      fails with `failure`; `accepts == None` is a sink that never fails,
      such as the `bytes.Buffer` of logger.go's copy of `Format`. */
  datatype Writer = Writer(accepts: Option<nat>, failure: string)

  predicate WriteOk(w: Writer, n: nat)
  {
    w.accepts.None? || n < w.accepts.value
  }

  /** What a writer receives when `lines` are written to it one by one,
      giving up at the first failing write, and the error returned. */
  function Deliver(w: Writer, lines: seq<Line>): (r: (seq<Line>, Option<string>))
    ensures |r.0| <= |lines| && r.0 == lines[..|r.0|]
    ensures r.1 == None <==> r.0 == lines
    ensures r.1 == None <==> forall n :: 0 <= n < |lines| ==> WriteOk(w, n)
    ensures r.1 != None ==> r.1 == Some(w.failure) && !WriteOk(w, |r.0|)
    ensures forall n :: 0 <= n < |r.0| ==> WriteOk(w, n)
  {
    if w.accepts.Some? && w.accepts.value < |lines| then
      assert !WriteOk(w, w.accepts.value);
      (lines[..w.accepts.value], Some(w.failure))
    else
      (lines, None)
  }

  /** The `Fprintf` calls, one per line, returning at the first error. */
  method WriteLines(w: Writer, lines: seq<Line>) returns (written: seq<Line>, err: Option<string>)
    ensures (written, err) == Deliver(w, lines)
  {
    written := [];
    for i := 0 to |lines|
      invariant written == lines[..i]
      invariant forall n :: 0 <= n < i ==> WriteOk(w, n)
    {
      if !WriteOk(w, i) {
        return written, Some(w.failure);
      }
      written := written + [lines[i]];
    }
    return written, None;
  }

  /** A sorted permutation of the collected fields is the sorted listing. */
  lemma SortedIsListing(fields: seq<LogField>, sorted: seq<LogField>, special: seq<string>, data: Fields, encode: Value -> string)
    requires KeysOf(fields) == data.Keys
    requires forall i :: 0 <= i < |fields| ==> fields[i].key in data && fields[i] == FieldOf(special, data, encode, fields[i].key)
    requires forall i, j :: 0 <= i < j < |fields| ==> fields[i].key != fields[j].key
    requires forall p, q :: 0 <= p < q < |sorted| ==> LessEq(sorted[p], sorted[q])
    requires multiset(sorted) == multiset(fields)
    ensures SortedListing(sorted, special, data, encode)
  {
    forall x
      ensures x in sorted <==> x in fields
    {
      assert x in sorted <==> x in multiset(sorted);
      assert x in fields <==> x in multiset(fields);
    }
    assert KeysOf(sorted) == KeysOf(fields);
    assert forall i, j :: 0 <= i < j < |fields| ==> fields[i] != fields[j];
    DistinctPermutation(fields, sorted);
    forall i | 0 <= i < |sorted|
      ensures sorted[i].key in data && sorted[i] == FieldOf(special, data, encode, sorted[i].key)
    {
      assert sorted[i] in fields;
    }
    forall i, j | 0 <= i < j < |sorted|
      ensures Less(sorted[i], sorted[j])
    {
      assert sorted[i] in fields && sorted[j] in fields;
      LessTotal(sorted[i], sorted[j]);
    }
  }

  /** `MultilineFormatter.Format`: collects the fields, sorts them, writes
      the banner and then one line per field in sorted order, returning the
      first write error. */
  method Format(special: seq<string>, levels: LevelTable, level: int, name: string, data: Fields,
                encode: Value -> string, w: Writer)
    returns (written: seq<Line>, err: Option<string>)
    ensures exists fs :: (SortedListing(fs, special, data, encode) &&
      (written, err) == Deliver(w, [Banner(LevelColor(levels, level), levels.name(level), name)] + LinesOf(fs)))
    ensures err == None <==> WriteOk(w, |data|)
    ensures err == None ==> |written| == 1 + |data|
    ensures w.accepts == None ==> err == None
  {
    var fields := CollectFields(special, data, encode);
    var a := new LogField[|fields|](i requires 0 <= i < |fields| => fields[i]);
    assert a[..] == fields;
    SortFields(a);
    var sorted := a[..];
    SortedIsListing(fields, sorted, special, data, encode);
    ListingLength(sorted, special, data, encode);
    var lines := [Banner(LevelColor(levels, level), levels.name(level), name)] + LinesOf(sorted);
    written, err := WriteLines(w, lines);
    assert err == None <==> WriteOk(w, |data|) by {
      assert |lines| == |data| + 1;
      if err != None {
        assert !WriteOk(w, |written|);
      } else {
        assert WriteOk(w, |lines| - 1);
      }
    }
  }
}
