/** The persistence sink behind the inserter. The source writes each row with
    an SQL INSERT and uses SQLite's `lastInsertRowid` as the row handle; here
    the database is a log of the rows written, and the handle of a row is its
    position in that log, so every handle handed out is fresh. */
module Sink {

  /** A row handle (`number | bigint` in the source). */
  type RowId = nat

  /** The tables the inserter writes to: the loop tables, one table per
      segment type, and one per composite element type. */
  datatype Table =
    | HeaderTable | Loop1000Table | Loop2000Table | Loop2100Table | Loop2105Table | Loop2110Table
    | AmtTable | BprTable | CasTable | ClpTable | CurTable | DtmTable | K3Table | LqTable
    | MiaTable | MoaTable | N1Table | N2Table | N3Table | N4Table | Nm1Table | NteTable
    | PerTable | QtyTable | RasTable | RdmTable | RefTable | StTable | TrnTable | Ts2Table | Ts3Table
    | C001Table | C022Table | C040Table | C058Table

  /** A bound parameter: an element's text, a number (segment order or row
      handle), a table name stored as `parent_type`, or a handle the source
      read while it was still undefined. */
  datatype Value = Text(text: string) | Num(n: nat) | TableName(table: Table) | Missing

  /** One INSERT: the table, its column list, one `?` placeholder per
      column and the bound values, in column order. The SQL text itself is
      not modelled. */
  datatype Row = Row(table: Table, columns: seq<string>, placeholders: seq<string>, values: seq<Value>)

  class Database {
    /** Every row written so far, oldest first. */
    var log: seq<Row>

    constructor ()
      ensures log == []
    {
      log := [];
    }

    /** Runs one INSERT and returns the new row's handle. */
    method Run(row: Row) returns (id: RowId)
      modifies this
      ensures log == old(log) + [row]
      ensures id == |old(log)|
    {
      id := |log|;
      log := log + [row];
    }
  }
}
