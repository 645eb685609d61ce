/** Segments and the records built from them. A tokenized segment is the
    list of its (key, value) entries in the order `Object.entries` yields
    them; a record is an object whose keys are column names, kept in
    insertion order (no column name looks like an integer, so JavaScript
    keeps that order too). */
module Records {
  import opened Wrappers
  import opened Sink

  /** A segment (or a synthetic composite) as key/value entries. The
      tokenizer builds a segment as a JavaScript object, so its keys are
      distinct (`FieldsDistinct`); the type does not enforce it, and where
      a key repeats `Get` reads the first entry while `Project` lets the
      last one win. */
  type Fields = seq<(string, string)>

  /** A column-name-to-value record (`Record<string, unknown>`). */
  type Record = seq<(string, Value)>

  /** `data[key]`: the value of the first entry with that key. */
  function Get(data: Fields, key: string): (r: Option<string>)
    ensures r.Some? <==> exists i :: 0 <= i < |data| && data[i].0 == key
    decreases |data|
  {
    if data == [] then None
    else if data[0].0 == key then Some(data[0].1)
    else Get(data[1..], key)
  }

  /** No key occurs twice, as in an object's entries. */
  predicate FieldsDistinct(data: Fields) {
    forall i, j :: 0 <= i < j < |data| ==> data[i].0 != data[j].0
  }

  /** With distinct keys, `data[key]` is the value of the one entry with
      that key. */
  lemma {:induction false} GetDistinct(data: Fields, i: nat)
    requires FieldsDistinct(data) && i < |data|
    ensures Get(data, data[i].0) == Some(data[i].1)
    decreases |data|
  {
    if i > 0 {
      var tail := data[1..];
      assert data[0].0 != data[i].0;
      assert FieldsDistinct(tail) by {
        forall j, l | 0 <= j < l < |tail| ensures tail[j].0 != tail[l].0 {
          assert tail[j] == data[j + 1] && tail[l] == data[l + 1];
        }
      }
      assert tail[i - 1] == data[i];
      GetDistinct(tail, i - 1);
    }
  }

  /** JavaScript truthiness of a looked-up string: defined and non-empty. */
  predicate Truthy(v: Option<string>) {
    v.Some? && v.value != ""
  }

  /** The keys of a record, in order. */
  function Keys(r: Record): seq<string>
    decreases |r|
  {
    if r == [] then [] else [r[0].0] + Keys(r[1..])
  }

  /** Key `i` is the name of entry `i`. */
  lemma {:induction false} KeysAt(r: Record)
    ensures |Keys(r)| == |r|
    ensures forall i :: 0 <= i < |r| ==> Keys(r)[i] == r[i].0
    decreases |r|
  {
    if r != [] {
      KeysAt(r[1..]);
    }
  }

  /** The values of a record, in the same order as its keys. */
  function Values(r: Record): seq<Value>
    decreases |r|
  {
    if r == [] then [] else [r[0].1] + Values(r[1..])
  }

  /** Value `i` is the value of entry `i`. */
  lemma {:induction false} ValuesAt(r: Record)
    ensures |Values(r)| == |r|
    ensures forall i :: 0 <= i < |r| ==> Values(r)[i] == r[i].1
    decreases |r|
  {
    if r != [] {
      ValuesAt(r[1..]);
    }
  }

  predicate Distinct(s: seq<string>) {
    forall i, j :: 0 <= i < j < |s| ==> s[i] != s[j]
  }

  /** `r[key]`. */
  function Lookup(r: Record, key: string): (v: Option<Value>)
    ensures v.Some? <==> key in Keys(r)
    decreases |r|
  {
    if r == [] then None
    else if r[0].0 == key then Some(r[0].1)
    else Lookup(r[1..], key)
  }

  /** `r[key] = v`: an existing key keeps its place, a new key goes last. */
  function Put(r: Record, key: string, v: Value): Record
    decreases |r|
  {
    if r == [] then [(key, v)]
    else if r[0].0 == key then [(key, v)] + r[1..]
    else [r[0]] + Put(r[1..], key, v)
  }

  /** After a write, the key holds the new value and every other key is as
      before. */
  lemma {:induction false} PutLookup(r: Record, key: string, v: Value, c: string)
    ensures Lookup(Put(r, key, v), c) == if c == key then Some(v) else Lookup(r, c)
    decreases |r|
  {
    if r != [] && r[0].0 != key {
      PutLookup(r[1..], key, v, c);
    }
  }

  /** A key already present keeps its place; a new key goes last. */
  lemma {:induction false} PutKeys(r: Record, key: string, v: Value)
    ensures Keys(Put(r, key, v)) == if key in Keys(r) then Keys(r) else Keys(r) + [key]
    decreases |r|
  {
    if r != [] && r[0].0 != key {
      PutKeys(r[1..], key, v);
      assert Keys(r) == [r[0].0] + Keys(r[1..]);
    }
  }

  /** Writing a key keeps the keys of a record distinct. */
  lemma PutDistinct(r: Record, key: string, v: Value)
    requires Distinct(Keys(r))
    ensures Distinct(Keys(Put(r, key, v)))
  {
    PutKeys(r, key, v);
  }

  /** `const col = stMap[key]; if (col) ...`: the column of a segment key,
      when the column map names a non-empty one. */
  function Column(cols: map<string, string>, key: string): (c: Option<string>)
    ensures c.Some? <==> key in cols && cols[key] != ""
    ensures c.Some? ==> c.value == cols[key]
  {
    if key in cols && cols[key] != "" then Some(cols[key]) else None
  }

  /** The record `mapValues(data, cols, order)` builds: `segment_order` first,
      then each entry of `data` that has a column, in entry order. */
  function Project(data: Fields, cols: map<string, string>, order: nat): Record
    decreases |data|
  {
    if data == [] then [("segment_order", Num(order))]
    else
      var prev := Project(data[..|data| - 1], cols, order);
      var entry := data[|data| - 1];
      match Column(cols, entry.0)
      case Some(c) => Put(prev, c, Text(entry.1))
      case None => prev
  }

  /** The value of the last entry of `data` whose column is `c`. */
  function LastFor(data: Fields, cols: map<string, string>, c: string): (v: Option<string>)
    ensures v.Some? <==> exists j :: 0 <= j < |data| && Column(cols, data[j].0) == Some(c)
    decreases |data|
  {
    if data == [] then None
    else if Column(cols, data[|data| - 1].0) == Some(c) then Some(data[|data| - 1].1)
    else
      var v := LastFor(data[..|data| - 1], cols, c);
      assert forall j :: 0 <= j < |data| - 1 ==> data[..|data| - 1][j] == data[j];
      v
  }

  function AsText(v: Option<string>): Option<Value> {
    match v
    case Some(s) => Some(Text(s))
    case None => None
  }

  /** mapValues, dataInserter.ts:864-876. */
  method MapValues(data: Fields, cols: map<string, string>, order: nat) returns (mapped: Record)
    ensures mapped == Project(data, cols, order)
  {
    mapped := [("segment_order", Num(order))];
    var i := 0;
    while i < |data|
      invariant 0 <= i <= |data|
      invariant mapped == Project(data[..i], cols, order)
    {
      var (key, value) := data[i];
      var col := Column(cols, key);
      if col.Some? {
        mapped := Put(mapped, col.value, Text(value));
      }
      assert data[..i + 1][..i] == data[..i];
      i := i + 1;
    }
    assert data[..|data|] == data;
  }

  /** Every column other than `segment_order` holds the value of the last
      segment entry mapped to it, and a column no entry maps to is absent. */
  lemma {:induction false} ProjectLookup(data: Fields, cols: map<string, string>, order: nat, c: string)
    requires c != "segment_order"
    ensures Lookup(Project(data, cols, order), c) == AsText(LastFor(data, cols, c))
    decreases |data|
  {
    if data != [] {
      ProjectLookup(data[..|data| - 1], cols, order, c);
      var entry := data[|data| - 1];
      if Column(cols, entry.0).Some? {
        PutLookup(Project(data[..|data| - 1], cols, order), Column(cols, entry.0).value, Text(entry.1), c);
      }
    }
  }

  /** `segment_order` is always the first column, holding `order`, unless the
      column map itself names a `segment_order` column. */
  lemma {:induction false} ProjectHead(data: Fields, cols: map<string, string>, order: nat)
    requires "segment_order" !in cols.Values
    ensures |Project(data, cols, order)| >= 1
    ensures Project(data, cols, order)[0] == ("segment_order", Num(order))
    decreases |data|
  {
    if data != [] {
      var prev := Project(data[..|data| - 1], cols, order);
      ProjectHead(data[..|data| - 1], cols, order);
      var entry := data[|data| - 1];
      if Column(cols, entry.0).Some? {
        var c := Column(cols, entry.0).value;
        assert c in cols.Values;
        assert Put(prev, c, Text(entry.1))[0] == prev[0];
      }
    }
  }

  /** `segment_order` holds `order` whenever no column of the map is itself
      called `segment_order`. */
  lemma ProjectOrder(data: Fields, cols: map<string, string>, order: nat)
    requires "segment_order" !in cols.Values
    ensures Lookup(Project(data, cols, order), "segment_order") == Some(Num(order))
  {
    ProjectHead(data, cols, order);
  }

  /** The record has no repeated column. */
  lemma {:induction false} ProjectDistinct(data: Fields, cols: map<string, string>, order: nat)
    ensures Distinct(Keys(Project(data, cols, order)))
    decreases |data|
  {
    if data != [] {
      var prev := Project(data[..|data| - 1], cols, order);
      ProjectDistinct(data[..|data| - 1], cols, order);
      var entry := data[|data| - 1];
      if Column(cols, entry.0).Some? {
        PutDistinct(prev, Column(cols, entry.0).value, Text(entry.1));
      }
    }
  }

  /** The columns of the record are exactly `segment_order` and the columns
      of the entries that have one; every other key, `name` included, is
      dropped. */
  lemma ProjectColumns(data: Fields, cols: map<string, string>, order: nat, c: string)
    ensures c in Keys(Project(data, cols, order)) <==>
      c == "segment_order" || exists j :: 0 <= j < |data| && Column(cols, data[j].0) == Some(c)
  {
    if c != "segment_order" {
      ProjectLookup(data, cols, order, c);
    } else {
      SegmentOrderKept(data, cols, order);
    }
  }

  lemma {:induction false} SegmentOrderKept(data: Fields, cols: map<string, string>, order: nat)
    ensures "segment_order" in Keys(Project(data, cols, order))
    decreases |data|
  {
    if data != [] {
      SegmentOrderKept(data[..|data| - 1], cols, order);
      var entry := data[|data| - 1];
      if Column(cols, entry.0).Some? {
        PutKeys(Project(data[..|data| - 1], cols, order), Column(cols, entry.0).value, Text(entry.1));
      }
    }
  }

  /** `insertRow`'s statement: the columns are the record's keys, one `?` per
      column, and the bound values are the record's values in the same order. */
  function Statement(table: Table, mapped: Record): Row {
    Row(table, Keys(mapped), seq(|mapped|, _ => "?"), Values(mapped))
  }

  /** Column `i` of the statement is key `i` of the record and is bound to
      value `i` of the record. */
  lemma StatementShape(table: Table, mapped: Record)
    ensures var row := Statement(table, mapped);
      row.table == table &&
      |row.columns| == |row.placeholders| == |row.values| == |mapped| &&
      forall i :: 0 <= i < |mapped| ==>
        row.columns[i] == mapped[i].0 && row.placeholders[i] == "?" && row.values[i] == mapped[i].1
  {
    KeysAt(mapped);
    ValuesAt(mapped);
  }
}
