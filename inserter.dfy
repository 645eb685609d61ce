/** The data inserter: one method per loop table, one per segment type and
    one per composite type, each mapping a tokenized segment onto table
    columns and writing the row to the database. The segment inserts share
    one shape (map the columns, link the row to its parent, convert dates
    and times, write, then write the composites that point at the new row),
    so they are one operation parameterised by the segment kind. */
module Inserter {
  import opened Wrappers
  import opened Text
  import opened Sink
  import opened Records
  import opened Columns
  import opened Formats
  import opened Composites

  /** The segment types that have an insert method. */
  datatype Kind =
    | AMT | BPR | CAS | CLP | CUR | DTM | K3 | LQ | MIA | MOA | N1 | N2 | N3 | N4
    | NM1 | NTE | PER | QTY | RAS | RDM | REF | ST | TRN | TS2 | TS3

  function TableOf(k: Kind): Table {
    match k
    case AMT => AmtTable case BPR => BprTable case CAS => CasTable case CLP => ClpTable
    case CUR => CurTable case DTM => DtmTable case K3 => K3Table case LQ => LqTable
    case MIA => MiaTable case MOA => MoaTable case N1 => N1Table case N2 => N2Table
    case N3 => N3Table case N4 => N4Table case NM1 => Nm1Table case NTE => NteTable
    case PER => PerTable case QTY => QtyTable case RAS => RasTable case RDM => RdmTable
    case REF => RefTable case ST => StTable case TRN => TrnTable case TS2 => Ts2Table
    case TS3 => Ts3Table
  }

  /** The column map of each segment type; CLP uses the map keyed the way the
      tokenizer names elements. */
  function ColumnsOf(k: Kind): map<string, string> {
    match k
    case AMT => AmtColumns() case BPR => BprColumns() case CAS => CasColumns()
    case CLP => ClpColumns() case CUR => CurColumns() case DTM => DtmColumns()
    case K3 => K3Columns() case LQ => LqColumns() case MIA => MiaColumns()
    case MOA => MoaColumns() case N1 => N1Columns() case N2 => N2Columns()
    case N3 => N3Columns() case N4 => N4Columns() case NM1 => Nm1Columns()
    case NTE => NteColumns() case PER => PerColumns() case QTY => QtyColumns()
    case RAS => RasColumns() case RDM => RdmColumns() case REF => RefColumns()
    case ST => StColumns() case TRN => TrnColumns() case TS2 => Ts2Columns()
    case TS3 => Ts3Columns()
  }

  /** Whether the insert stores its `order` argument as `segment_order`; the
      others always store 0. */
  predicate TakesOrder(k: Kind) {
    k in {AMT, CAS, DTM, LQ, N2, N3, N4, NM1, NTE, PER, QTY, RAS, REF}
  }

  /** How a segment row points at its parent: a (`parent_type`, `parent_id`)
      pair, or one foreign-key column. */
  datatype Link = Typed | ForeignKey(name: string)

  function LinkOf(k: Kind): Link {
    match k
    case BPR | CUR | NTE | ST | TRN => ForeignKey("x12_header_id")
    case CLP | MIA | MOA => ForeignKey("x12_2100_id")
    case N2 | N3 | N4 => ForeignKey("x12_n1_id")
    case RDM => ForeignKey("x12_1000_id")
    case TS2 | TS3 => ForeignKey("x12_2000_id")
    case _ => Typed
  }

  /** A date or time column reformatted before the row is written. */
  datatype Conversion = Date(column: string) | Time(column: string)

  /** The conversions of each segment type, in the order the source applies
      them (CUR: date_i then time_i for i = 1..5). */
  function ConversionsOf(k: Kind): seq<Conversion> {
    match k
    case BPR => [Date("payment_effective_date")]
    case TS3 => [Date("fiscal_year_end_date")]
    case DTM => [Date("date"), Time("time")]
    case CUR => [Date("date_1"), Time("time_1"), Date("date_2"), Time("time_2"), Date("date_3"),
                 Time("time_3"), Date("date_4"), Time("time_4"), Date("date_5"), Time("time_5")]
    case _ => []
  }

  /** Writes the parent reference into a mapped record. */
  function Linked(link: Link, mapped: Record, parentType: Table, parentId: Value): Record {
    match link
    case Typed => Put(Put(mapped, "parent_type", TableName(parentType)), "parent_id", parentId)
    case ForeignKey(name) => Put(mapped, name, parentId)
  }

  /** The parent reference is in place and every other column is as mapped. */
  lemma LinkedLookup(link: Link, mapped: Record, parentType: Table, parentId: Value, c: string)
    ensures var r := Linked(link, mapped, parentType, parentId);
      Lookup(r, c) ==
        if link.Typed? && c == "parent_id" then Some(parentId)
        else if link.Typed? && c == "parent_type" then Some(TableName(parentType))
        else if link.ForeignKey? && c == link.name then Some(parentId)
        else Lookup(mapped, c)
  {
    match link
    case Typed =>
      var typed := Put(mapped, "parent_type", TableName(parentType));
      PutLookup(mapped, "parent_type", TableName(parentType), c);
      PutLookup(typed, "parent_id", parentId, c);
    case ForeignKey(name) =>
      PutLookup(mapped, name, parentId, c);
  }

  function Reformat(conv: Conversion, s: string): Result<string> {
    if conv.Date? then FormatEightDigitDate(s) else FormatTime(s)
  }

  /** The value a successful conversion leaves in its column. */
  function Converted(v: Option<Value>, conv: Conversion): Option<Value> {
    match v
    case Some(Text(s)) =>
      if s != "" && Reformat(conv, s).Ok? then Some(Text(Reformat(conv, s).value)) else v
    case _ => v
  }

  /** One conversion: a truthy text value in the column is reformatted, and a
      value the formatter refuses is an error; anything else stays. */
  function Convert(r: Record, conv: Conversion): Result<Record> {
    match Lookup(r, conv.column)
    case Some(Text(s)) =>
      if s == "" then Ok(r)
      else
        var f := Reformat(conv, s);
        if f.Err? then Err(f.message) else Ok(Put(r, conv.column, Text(f.value)))
    case _ => Ok(r)
  }

  /** A conversion fails exactly when its column holds a non-empty text the
      formatter refuses; otherwise it rewrites that column in place and leaves
      every other column as it was. */
  lemma ConvertFacts(r: Record, conv: Conversion)
    ensures Convert(r, conv).Err? <==>
      exists s :: Lookup(r, conv.column) == Some(Text(s)) && s != "" && Reformat(conv, s).Err?
    ensures Convert(r, conv).Ok? ==> Keys(Convert(r, conv).value) == Keys(r)
    ensures Convert(r, conv).Ok? ==>
      forall c :: Lookup(Convert(r, conv).value, c) ==
        if c == conv.column then Converted(Lookup(r, conv.column), conv) else Lookup(r, c)
  {
    match Lookup(r, conv.column)
    case Some(Text(s)) =>
      if s != "" && Reformat(conv, s).Ok? {
        var v := Text(Reformat(conv, s).value);
        PutKeys(r, conv.column, v);
        forall c ensures Lookup(Put(r, conv.column, v), c) == if c == conv.column then Some(v) else Lookup(r, c) {
          PutLookup(r, conv.column, v, c);
        }
      }
    case _ =>
  }

  /** The conversions applied in turn; the first failure aborts the insert. */
  function ConvertAll(r: Record, convs: seq<Conversion>): Result<Record>
    decreases |convs|
  {
    if convs == [] then Ok(r)
    else
      match Convert(r, convs[0])
      case Err(e) => Err(e)
      case Ok(r') => ConvertAll(r', convs[1..])
  }

  /** The composites a segment type writes after its own row. */
  datatype Composite = NoComposite | C001Composite | C058Composites | RdmComposites | RefComposite | ClpComposite

  function CompositeOf(k: Kind): Composite {
    match k
    case K3 | QTY => C001Composite
    case RAS => C058Composites
    case RDM => RdmComposites
    case REF => RefComposite
    case CLP => ClpComposite
    case _ => NoComposite
  }

  /** Everything that tells one segment insert from another. */
  datatype Plan = Plan(table: Table, cols: map<string, string>, takesOrder: bool, link: Link,
                       convs: seq<Conversion>, composite: Composite)

  function PlanOf(k: Kind): Plan {
    Plan(TableOf(k), ColumnsOf(k), TakesOrder(k), LinkOf(k), ConversionsOf(k), CompositeOf(k))
  }

  /** The record a segment insert writes, or the formatting error it throws. */
  function SegmentRecord(p: Plan, data: Fields, parentType: Table, parentId: Value, order: nat): Result<Record> {
    var mapped := Project(data, p.cols, if p.takesOrder then order else 0);
    ConvertAll(Linked(p.link, mapped, parentType, parentId), p.convs)
  }

  // ------------------------------------------------------------ composites

  function C001Record(sub: Fields, parentType: Table, parentId: Value): Record {
    Linked(Typed, Project(sub, C001Columns(), 0), parentType, parentId)
  }

  function C022Record(sub: Fields, clpId: Value): Record {
    Linked(ForeignKey("x12_clp_id"), Project(sub, C022Columns(), 0), ClpTable, clpId)
  }

  function C040Record(sub: Fields, parentType: Table, parentId: Value, order: nat): Record {
    Linked(Typed, Project(sub, C040Columns(), order), parentType, parentId)
  }

  function C058Record(sub: Fields, rasId: Value, order: nat): Record {
    Linked(ForeignKey("x12_ras_id"), Project(sub, C058Columns(), order), RasTable, rasId)
  }

  /** The C058 rows of a RAS row's composites, each ordered by its position. */
  function C058Rows(subs: seq<Fields>, rasId: Value): (rows: seq<Row>)
    ensures |rows| == |subs|
    decreases |subs|
  {
    if subs == [] then []
    else C058Rows(subs[..|subs| - 1], rasId) + [Statement(C058Table, C058Record(subs[|subs| - 1], rasId, |subs| - 1))]
  }

  function C040Rows(sub: Option<Fields>, parentType: Table, parentId: Value, order: nat): seq<Row> {
    match sub
    case Some(s) => [Statement(C040Table, C040Record(s, parentType, parentId, order))]
    case None => []
  }

  /** K3 and QTY: at most one C001 row, pointing at the segment's table. */
  function C001Rows(table: Table, data: Fields, id: RowId): seq<Row> {
    match C001Of(data)
    case Some(sub) => [Statement(C001Table, C001Record(sub, table, Num(id)))]
    case None => []
  }

  /** RAS: one C058 row per reason-code repeat. */
  function RasRows(data: Fields, id: RowId): seq<Row> {
    C058Rows(C058List(data, 0), Num(id))
  }

  /** RDM: the C040 rows of elements 4 and 5, ordered 0 and 1. */
  function RdmRows(data: Fields, id: RowId): seq<Row> {
    C040Rows(C040Of(data, "4"), RdmTable, Num(id), 0) + C040Rows(C040Of(data, "5"), RdmTable, Num(id), 1)
  }

  /** REF: the C040 row of element 4. */
  function RefRows(data: Fields, id: RowId): seq<Row> {
    C040Rows(C040Of(data, "4"), RefTable, Num(id), 0)
  }

  /** CLP: at most one C022 row. */
  function ClpRows(data: Fields, id: RowId): seq<Row> {
    match C022Of(data)
    case Some(sub) => [Statement(C022Table, C022Record(sub, Num(id)))]
    case None => []
  }

  /** The composite rows a segment insert writes after its own row, which is
      in `table` and has handle `id`. */
  function CompositeRows(c: Composite, table: Table, data: Fields, id: RowId): seq<Row> {
    match c
    case C001Composite => C001Rows(table, data, id)
    case C058Composites => RasRows(data, id)
    case RdmComposites => RdmRows(data, id)
    case RefComposite => RefRows(data, id)
    case ClpComposite => ClpRows(data, id)
    case NoComposite => []
  }

  // ------------------------------------------------------------ properties

  /** Whether one of the conversions rewrites column `c`. */
  predicate Converts(convs: seq<Conversion>, c: string) {
    exists i :: 0 <= i < |convs| && convs[i].column == c
  }

  predicate ColumnsDistinct(convs: seq<Conversion>) {
    forall i, j :: 0 <= i < j < |convs| ==> convs[i].column != convs[j].column
  }

  /** The conversions keep the record's columns, in order, and leave every
      column they do not name as it was. */
  lemma {:induction false} ConvertAllKeeps(r: Record, convs: seq<Conversion>, c: string)
    requires ConvertAll(r, convs).Ok?
    ensures Keys(ConvertAll(r, convs).value) == Keys(r)
    ensures !Converts(convs, c) ==> Lookup(ConvertAll(r, convs).value, c) == Lookup(r, c)
    decreases |convs|
  {
    if convs != [] {
      ConvertFacts(r, convs[0]);
      var r' := Convert(r, convs[0]).value;
      ConvertAllKeeps(r', convs[1..], c);
      if !Converts(convs, c) {
        assert convs[0].column != c;
        assert !Converts(convs[1..], c) by {
          forall i | 0 <= i < |convs[1..]| ensures convs[1..][i].column != c {
            assert convs[1..][i] == convs[i + 1];
          }
        }
      }
    }
  }

  /** With distinct columns, the conversions fail exactly when one of them
      alone would fail on the record as mapped. */
  lemma {:induction false} ConvertAllFails(r: Record, convs: seq<Conversion>)
    requires ColumnsDistinct(convs)
    ensures ConvertAll(r, convs).Err? <==> exists i :: 0 <= i < |convs| && Convert(r, convs[i]).Err?
    decreases |convs|
  {
    if convs != [] {
      ConvertFacts(r, convs[0]);
      var tail := convs[1..];
      assert ColumnsDistinct(tail) by {
        forall i, j | 0 <= i < j < |tail| ensures tail[i].column != tail[j].column {
          assert tail[i] == convs[i + 1] && tail[j] == convs[j + 1];
        }
      }
      if Convert(r, convs[0]).Ok? {
        var r' := Convert(r, convs[0]).value;
        ConvertAllFails(r', tail);
        forall i | 0 <= i < |tail| ensures Convert(r', tail[i]).Err? == Convert(r, convs[i + 1]).Err? {
          assert tail[i] == convs[i + 1];
          assert convs[i + 1].column != convs[0].column;
          ConvertFacts(r, convs[i + 1]);
          ConvertFacts(r', tail[i]);
        }
        if ConvertAll(r, convs).Err? {
          var i :| 0 <= i < |tail| && Convert(r', tail[i]).Err?;
          assert Convert(r, convs[i + 1]).Err?;
        }
        if exists i :: 0 <= i < |convs| && Convert(r, convs[i]).Err? {
          var i :| 0 <= i < |convs| && Convert(r, convs[i]).Err?;
          assert i > 0;
          assert Convert(r', tail[i - 1]).Err?;
        }
      }
    }
  }

  /** With distinct columns, the column of conversion `i` ends up holding
      that conversion applied to what the record held there: the conversions
      before and after it leave that column alone. */
  lemma {:induction false} ConvertAllAt(r: Record, convs: seq<Conversion>, i: nat)
    requires ColumnsDistinct(convs) && ConvertAll(r, convs).Ok? && i < |convs|
    ensures Lookup(ConvertAll(r, convs).value, convs[i].column) ==
      Converted(Lookup(r, convs[i].column), convs[i])
    decreases |convs|
  {
    var c := convs[i].column;
    var tail := convs[1..];
    ConvertFacts(r, convs[0]);
    var r' := Convert(r, convs[0]).value;
    assert ConvertAll(r, convs) == ConvertAll(r', tail);
    if i == 0 {
      assert !Converts(tail, c) by {
        forall j | 0 <= j < |tail| ensures tail[j].column != c {
          assert tail[j] == convs[j + 1];
        }
      }
      ConvertAllKeeps(r', tail, c);
    } else {
      assert ColumnsDistinct(tail) by {
        forall j, l | 0 <= j < l < |tail| ensures tail[j].column != tail[l].column {
          assert tail[j] == convs[j + 1] && tail[l] == convs[l + 1];
        }
      }
      assert tail[i - 1] == convs[i];
      ConvertAllAt(r', tail, i - 1);
    }
  }

  /** The columns a segment row is linked to its parent by. */
  function LinkColumns(link: Link): set<string> {
    match link
    case Typed => {"parent_type", "parent_id"}
    case ForeignKey(name) => {name}
  }

  /** A mapped and linked record holds the parent reference in its link
      columns, its order in `segment_order`, and in every other column the
      value of the last segment element mapped to it; a column no element
      maps to is absent. */
  lemma LinkedProjectLookup(link: Link, data: Fields, cols: map<string, string>, order: nat,
                            parentType: Table, parentId: Value, c: string)
    requires "segment_order" !in cols.Values
    ensures Lookup(Linked(link, Project(data, cols, order), parentType, parentId), c) ==
      if link.Typed? && c == "parent_id" then Some(parentId)
      else if link.Typed? && c == "parent_type" then Some(TableName(parentType))
      else if link.ForeignKey? && c == link.name then Some(parentId)
      else if c == "segment_order" then Some(Num(order))
      else AsText(LastFor(data, cols, c))
  {
    LinkedLookup(link, Project(data, cols, order), parentType, parentId, c);
    if c == "segment_order" {
      ProjectOrder(data, cols, order);
    } else {
      ProjectLookup(data, cols, order, c);
    }
  }

  /** A segment row that is written holds, in every column no conversion
      rewrites, what the mapped and linked record holds there. */
  lemma SegmentRecordLookup(p: Plan, data: Fields, parentType: Table, parentId: Value, order: nat, c: string)
    requires SegmentRecord(p, data, parentType, parentId, order).Ok?
    requires !Converts(p.convs, c)
    requires "segment_order" !in p.cols.Values
    ensures var rec := SegmentRecord(p, data, parentType, parentId, order).value;
      Lookup(rec, c) ==
        if p.link.Typed? && c == "parent_id" then Some(parentId)
        else if p.link.Typed? && c == "parent_type" then Some(TableName(parentType))
        else if p.link.ForeignKey? && c == p.link.name then Some(parentId)
        else if c == "segment_order" then Some(Num(if p.takesOrder then order else 0))
        else AsText(LastFor(data, p.cols, c))
  {
    var ord := if p.takesOrder then order else 0;
    ConvertAllKeeps(Linked(p.link, Project(data, p.cols, ord), parentType, parentId), p.convs, c);
    LinkedProjectLookup(p.link, data, p.cols, ord, parentType, parentId, c);
  }

  /** Row `i` of the C058 rows is composite `i`, written with order `i`. */
  lemma {:induction false} C058RowsAt(subs: seq<Fields>, rasId: Value, i: nat)
    requires i < |subs|
    ensures C058Rows(subs, rasId)[i] == Statement(C058Table, C058Record(subs[i], rasId, i))
    decreases |subs|
  {
    if i < |subs| - 1 {
      C058RowsAt(subs[..|subs| - 1], rasId, i);
    }
  }

  /** A C058 row points at its RAS row and holds its position as order. */
  lemma C058RecordLinks(sub: Fields, rasId: Value, order: nat)
    ensures Lookup(C058Record(sub, rasId, order), "x12_ras_id") == Some(rasId)
    ensures Lookup(C058Record(sub, rasId, order), "segment_order") == Some(Num(order))
  {
    LinkedProjectLookup(ForeignKey("x12_ras_id"), sub, C058Columns(), order, RasTable, rasId, "x12_ras_id");
    LinkedProjectLookup(ForeignKey("x12_ras_id"), sub, C058Columns(), order, RasTable, rasId, "segment_order");
  }

  /** RAS writes between 1 and 15 C058 rows, row `i` from composite `i`
      with order `i`. */
  lemma RasRowsShape(data: Fields, id: RowId)
    ensures 1 <= |RasRows(data, id)| <= 15
    ensures forall i :: 0 <= i < |RasRows(data, id)| ==>
      RasRows(data, id)[i] == Statement(C058Table, C058Record(C058List(data, 0)[i], Num(id), i))
  {
    C058Shape(data);
    forall i | 0 <= i < |RasRows(data, id)|
      ensures RasRows(data, id)[i] == Statement(C058Table, C058Record(C058List(data, 0)[i], Num(id), i))
    {
      C058RowsAt(C058List(data, 0), Num(id), i);
    }
  }

  /** A C040 row points at its segment row through `parent_type` and
      `parent_id` and holds the given order. */
  lemma C040RecordLinks(sub: Fields, parentType: Table, parentId: Value, order: nat)
    ensures Lookup(C040Record(sub, parentType, parentId, order), "parent_type") == Some(TableName(parentType))
    ensures Lookup(C040Record(sub, parentType, parentId, order), "parent_id") == Some(parentId)
    ensures Lookup(C040Record(sub, parentType, parentId, order), "segment_order") == Some(Num(order))
  {
    LinkedProjectLookup(Typed, sub, C040Columns(), order, parentType, parentId, "parent_type");
    LinkedProjectLookup(Typed, sub, C040Columns(), order, parentType, parentId, "parent_id");
    LinkedProjectLookup(Typed, sub, C040Columns(), order, parentType, parentId, "segment_order");
  }

  /** RDM writes a C040 row for element 4 with order 0 and one for element 5
      with order 1, each only when that element is present. */
  lemma RdmRowsShape(data: Fields, id: RowId)
    ensures RdmRows(data, id) ==
      (if Truthy(Get(data, "4")) then [Statement(C040Table, C040Record(C040Of(data, "4").value, RdmTable, Num(id), 0))] else []) +
      (if Truthy(Get(data, "5")) then [Statement(C040Table, C040Record(C040Of(data, "5").value, RdmTable, Num(id), 1))] else [])
  {
  }

  /** A C022 row points at its CLP row. */
  lemma C022RecordLinks(sub: Fields, clpId: Value)
    ensures Lookup(C022Record(sub, clpId), "x12_clp_id") == Some(clpId)
    ensures Lookup(C022Record(sub, clpId), "segment_order") == Some(Num(0))
  {
    LinkedProjectLookup(ForeignKey("x12_clp_id"), sub, C022Columns(), 0, ClpTable, clpId, "x12_clp_id");
    LinkedProjectLookup(ForeignKey("x12_clp_id"), sub, C022Columns(), 0, ClpTable, clpId, "segment_order");
  }

  /** CLP writes one C022 row exactly when element 11 is present. */
  lemma ClpRowsShape(data: Fields, id: RowId)
    ensures |ClpRows(data, id)| == if Truthy(Get(data, "11")) then 1 else 0
  {
  }

  /** K3 and QTY write one C001 row exactly when element 3 is present; it
      points at the segment row through `parent_type` and `parent_id`. */
  lemma C001RowsShape(table: Table, data: Fields, id: RowId)
    ensures |C001Rows(table, data, id)| == if Truthy(Get(data, "3")) then 1 else 0
    ensures Truthy(Get(data, "3")) ==>
      Lookup(C001Record(C001Of(data).value, table, Num(id)), "parent_type") == Some(TableName(table)) &&
      Lookup(C001Record(C001Of(data).value, table, Num(id)), "parent_id") == Some(Num(id))
  {
    if Truthy(Get(data, "3")) {
      LinkedProjectLookup(Typed, C001Of(data).value, C001Columns(), 0, table, Num(id), "parent_type");
      LinkedProjectLookup(Typed, C001Of(data).value, C001Columns(), 0, table, Num(id), "parent_id");
    }
  }

  /** Each segment type's conversions touch distinct columns, and none of
      them touches `segment_order` or a link column. */
  lemma ConversionsSound(k: Kind)
    ensures ColumnsDistinct(ConversionsOf(k))
    ensures !Converts(ConversionsOf(k), "segment_order")
    ensures forall c :: c in LinkColumns(LinkOf(k)) ==> !Converts(ConversionsOf(k), c)
    ensures ConversionsApart(ConversionsOf(k), LinkOf(k))
  {
  }

  /** The conversions name distinct columns, none of them `segment_order`
      or a column of the link. */
  predicate ConversionsApart(convs: seq<Conversion>, link: Link) {
    && ColumnsDistinct(convs)
    && !Converts(convs, "segment_order")
    && forall c :: c in LinkColumns(link) ==> !Converts(convs, c)
  }

  /** A segment row that is written holds, in the column of conversion `i`,
      the value of the last element mapped to that column, reformatted when
      it is a non-empty text the format accepts. */
  lemma ConvertedColumnLookup(p: Plan, data: Fields, parentType: Table, parentId: Value, order: nat, i: nat)
    requires SegmentRecord(p, data, parentType, parentId, order).Ok?
    requires ConversionsApart(p.convs, p.link) && i < |p.convs|
    ensures Lookup(SegmentRecord(p, data, parentType, parentId, order).value, p.convs[i].column) ==
      Converted(AsText(LastFor(data, p.cols, p.convs[i].column)), p.convs[i])
  {
    var c := p.convs[i].column;
    var ord := if p.takesOrder then order else 0;
    assert Converts(p.convs, c);
    ConvertAllAt(Linked(p.link, Project(data, p.cols, ord), parentType, parentId), p.convs, i);
    LinkedLookup(p.link, Project(data, p.cols, ord), parentType, parentId, c);
    ProjectLookup(data, p.cols, ord, c);
  }

  /** Every segment type meets those conditions: a written row holds in each
      of its date and time columns the converted value of the last element
      mapped there. */
  lemma SegmentConvertedLookup(k: Kind, data: Fields, parentType: Table, parentId: Value, order: nat, i: nat)
    requires SegmentRecord(PlanOf(k), data, parentType, parentId, order).Ok?
    requires i < |ConversionsOf(k)|
    ensures var conv := ConversionsOf(k)[i];
      Lookup(SegmentRecord(PlanOf(k), data, parentType, parentId, order).value, conv.column) ==
        Converted(AsText(LastFor(data, ColumnsOf(k), conv.column)), conv)
  {
    ConversionsSound(k);
    ConvertedColumnLookup(PlanOf(k), data, parentType, parentId, order, i);
  }

  // ------------------------------------------------------------ CLP and C001 keys

  /** As written, the CLP map has no column for the keys "1" to "9" the
      tokenizer gives elements 1 to 9, so a CLP row never stores them. */
  lemma ClpAsWrittenDropsLowElements(n: nat)
    requires 1 <= n <= 9
    ensures Column(ClpColumnsAsWritten(), NatStr(n)) == None
  {
    NatStrDigits(n);
  }

  /** The CLP map in use has a column for each of the keys "1" to "9". */
  lemma ClpColumnsCoverLowElements(n: nat)
    requires 1 <= n <= 9
    ensures Column(ClpColumns(), NatStr(n)).Some?
  {
    assert NatStr(n) == [Digit(n)];
  }

  /** As written, the C001 map has no column for components "1" to "9", so
      the first three unit/exponent/multiplier triples are never stored. */
  lemma C001AsWrittenDropsLowComponents(n: nat)
    requires 1 <= n <= 9
    ensures Column(C001ColumnsAsWritten(), NatStr(n)) == None
  {
    NatStrDigits(n);
  }

  /** The C001 map in use has a column for each of the components "1" to
      "9". */
  lemma C001ColumnsCoverLowComponents(n: nat)
    requires 1 <= n <= 9
    ensures Column(C001Columns(), NatStr(n)).Some?
  {
    assert NatStr(n) == [Digit(n)];
  }

  // ------------------------------------------------------------ loop tables

  datatype Loop = L1000 | L2000 | L2100 | L2105 | L2110

  function LoopTable(l: Loop): Table {
    match l
    case L1000 => Loop1000Table
    case L2000 => Loop2000Table
    case L2100 => Loop2100Table
    case L2105 => Loop2105Table
    case L2110 => Loop2110Table
  }

  /** The loop 1000 and 2000 rows point at the header, 2100 at its 2000
      loop, 2105 and 2110 at their 2100 loop. */
  function LoopParentColumn(l: Loop): string {
    match l
    case L1000 | L2000 => "x12_header_id"
    case L2100 => "x12_2000_id"
    case L2105 | L2110 => "x12_2100_id"
  }

  function LoopRecord(l: Loop, order: Value, parentId: Value): Record {
    [("segment_order", order), (LoopParentColumn(l), parentId)]
  }

  // ------------------------------------------------------------ the class

  class DataInserter {
    const db: Database

    constructor (db: Database)
      ensures this.db == db
    {
      this.db := db;
    }

    /** insertRow: one INSERT of the record's columns and values. */
    method InsertRow(table: Table, mapped: Record) returns (id: RowId)
      modifies db
      ensures db.log == old(db.log) + [Statement(table, mapped)]
      ensures id == |old(db.log)|
    {
      id := db.Run(Statement(table, mapped));
    }

    /** insertHeader: a header row with default values only. */
    method InsertHeader() returns (id: RowId)
      modifies db
      ensures db.log == old(db.log) + [Row(HeaderTable, [], [], [])]
      ensures id == |old(db.log)|
    {
      id := db.Run(Row(HeaderTable, [], [], []));
    }

    /** insert1000 … insert2110: the loop row with its order and parent. */
    method InsertLoop(l: Loop, order: Value, parentId: Value) returns (id: RowId)
      modifies db
      ensures db.log == old(db.log) + [Statement(LoopTable(l), LoopRecord(l, order, parentId))]
      ensures id == |old(db.log)|
    {
      id := InsertRow(LoopTable(l), LoopRecord(l, order, parentId));
    }

    method InsertC001(sub: Fields, parentType: Table, parentId: Value) returns (id: RowId)
      modifies db
      ensures db.log == old(db.log) + [Statement(C001Table, C001Record(sub, parentType, parentId))]
      ensures id == |old(db.log)|
    {
      var mapped := MapValues(sub, C001Columns(), 0);
      id := InsertRow(C001Table, Linked(Typed, mapped, parentType, parentId));
    }

    method InsertC022(sub: Fields, clpId: Value) returns (id: RowId)
      modifies db
      ensures db.log == old(db.log) + [Statement(C022Table, C022Record(sub, clpId))]
      ensures id == |old(db.log)|
    {
      var mapped := MapValues(sub, C022Columns(), 0);
      id := InsertRow(C022Table, Put(mapped, "x12_clp_id", clpId));
    }

    method InsertC040(sub: Fields, parentType: Table, parentId: Value, order: nat) returns (id: RowId)
      modifies db
      ensures db.log == old(db.log) + [Statement(C040Table, C040Record(sub, parentType, parentId, order))]
      ensures id == |old(db.log)|
    {
      var mapped := MapValues(sub, C040Columns(), order);
      id := InsertRow(C040Table, Linked(Typed, mapped, parentType, parentId));
    }

    method InsertC058(sub: Fields, rasId: Value, order: nat) returns (id: RowId)
      modifies db
      ensures db.log == old(db.log) + [Statement(C058Table, C058Record(sub, rasId, order))]
      ensures id == |old(db.log)|
    {
      var mapped := MapValues(sub, C058Columns(), order);
      id := InsertRow(C058Table, Put(mapped, "x12_ras_id", rasId));
    }

    /** The date and time conversions, one after the other. */
    method ConvertColumns(mapped: Record, convs: seq<Conversion>) returns (r: Result<Record>)
      ensures r == ConvertAll(mapped, convs)
    {
      var current := mapped;
      var i := 0;
      while i < |convs|
        invariant 0 <= i <= |convs|
        invariant ConvertAll(current, convs[i..]) == ConvertAll(mapped, convs)
      {
        assert convs[i..][1..] == convs[i + 1..];
        var next := Convert(current, convs[i]);
        if next.Err? {
          return Err(next.message);
        }
        current := next.value;
        i := i + 1;
      }
      r := Ok(current);
    }

    /** The C058 composites of a RAS row, each ordered by its position. */
    method InsertC058s(subs: seq<Fields>, rasId: Value)
      modifies db
      ensures db.log == old(db.log) + C058Rows(subs, rasId)
    {
      var i := 0;
      while i < |subs|
        invariant 0 <= i <= |subs|
        invariant db.log == old(db.log) + C058Rows(subs[..i], rasId)
      {
        var subId := InsertC058(subs[i], rasId, i);
        assert subs[..i + 1][..i] == subs[..i];
        i := i + 1;
      }
      assert subs[..|subs|] == subs;
    }

    method InsertC001s(table: Table, data: Fields, id: RowId)
      modifies db
      ensures db.log == old(db.log) + C001Rows(table, data, id)
    {
      var sub := BuildC001(data);
      if sub.Some? {
        var subId := InsertC001(sub.value, table, Num(id));
      }
    }

    method InsertRasComposites(data: Fields, id: RowId)
      modifies db
      ensures db.log == old(db.log) + RasRows(data, id)
    {
      var subs := BuildC058(data);
      InsertC058s(subs, Num(id));
    }

    /** The C040 row of one optional composite. */
    method InsertOptionalC040(sub: Option<Fields>, parentType: Table, parentId: Value, order: nat)
      modifies db
      ensures db.log == old(db.log) + C040Rows(sub, parentType, parentId, order)
    {
      if sub.Some? {
        var subId := InsertC040(sub.value, parentType, parentId, order);
      }
    }

    method InsertRdmComposites(data: Fields, id: RowId)
      modifies db
      ensures db.log == old(db.log) + RdmRows(data, id)
    {
      InsertOptionalC040(C040Of(data, "4"), RdmTable, Num(id), 0);
      InsertOptionalC040(C040Of(data, "5"), RdmTable, Num(id), 1);
    }

    method InsertRefComposites(data: Fields, id: RowId)
      modifies db
      ensures db.log == old(db.log) + RefRows(data, id)
    {
      InsertOptionalC040(C040Of(data, "4"), RefTable, Num(id), 0);
    }

    method InsertClpComposites(data: Fields, id: RowId)
      modifies db
      ensures db.log == old(db.log) + ClpRows(data, id)
    {
      var sub := C022Of(data);
      if sub.Some? {
        var subId := InsertC022(sub.value, Num(id));
      }
    }

    /** The composite rows that follow a row in `table` with handle `id`. */
    method InsertComposites(c: Composite, table: Table, data: Fields, id: RowId)
      modifies db
      ensures db.log == old(db.log) + CompositeRows(c, table, data, id)
    {
      match c
      case C001Composite => InsertC001s(table, data, id);
      case C058Composites => InsertRasComposites(data, id);
      case RdmComposites => InsertRdmComposites(data, id);
      case RefComposite => InsertRefComposites(data, id);
      case ClpComposite => InsertClpComposites(data, id);
      case NoComposite =>
    }

    /** The segment's own row: mapped, linked and converted, then written;
        a date or time the formatter refuses aborts before anything is
        written. */
    method InsertSegmentRow(p: Plan, data: Fields, parentType: Table, parentId: Value, order: nat)
      returns (r: Result<RowId>)
      modifies db
      ensures var rec := SegmentRecord(p, data, parentType, parentId, order);
        (rec.Ok? ==> r == Ok(|old(db.log)|) && db.log == old(db.log) + [Statement(p.table, rec.value)]) &&
        (rec.Err? ==> r == Err(rec.message) && db.log == old(db.log))
    {
      var mapped := MapValues(data, p.cols, if p.takesOrder then order else 0);
      var converted := ConvertColumns(Linked(p.link, mapped, parentType, parentId), p.convs);
      if converted.Err? {
        return Err(converted.message);
      }
      var id := InsertRow(p.table, converted.value);
      r := Ok(id);
    }

    /** insertAMT … insertTS3, each being this body run with its segment
        type's plan `PlanOf(k)`: the segment's row, then its composites,
        returning the row's handle; or the formatting error, with nothing
        written. */
    method InsertSegment(p: Plan, data: Fields, parentType: Table, parentId: Value, order: nat)
      returns (r: Result<RowId>)
      modifies db
      ensures var rec := SegmentRecord(p, data, parentType, parentId, order);
        (rec.Ok? ==>
          r == Ok(|old(db.log)|) &&
          db.log == old(db.log) + [Statement(p.table, rec.value)] + CompositeRows(p.composite, p.table, data, |old(db.log)|)) &&
        (rec.Err? ==> r == Err(rec.message) && db.log == old(db.log))
    {
      r := InsertSegmentRow(p, data, parentType, parentId, order);
      if r.Ok? {
        InsertComposites(p.composite, p.table, data, r.value);
      }
    }
  }
}
