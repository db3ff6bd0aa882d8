/** The Supabase connector: a table of rows becomes a list of documents
    (id, text, everything else as metadata). The client library's
    `select ... limit ... execute` and `count` calls are opaque functions of
    the table name (and limit) that the connector is given. */
module Database {
  import opened Wrappers
  import opened Values
  import Config

  /** One row of the table, column name to value. */
  type Row = map<string, Value>

  /** A document as the connector hands it on. */
  datatype Document = Document(id: string, text: string, metadata: map<string, Value>)

  /** What the client library returns: the rows (`data`, possibly null) for
      a table and a row limit, and the exact row count (possibly null). */
  datatype SupabaseClient = SupabaseClient(
    select: (string, int) -> Option<seq<Row>>,
    count: string -> Option<int>)

  datatype ConnectorError = WrongDatabaseType(found: Config.DatabaseType)

  const DefaultTable: string := "documents"
  const DefaultTextColumn: string := "content"
  const DefaultIdColumn: string := "id"

  /** `value or default` for an optional string. */
  function OrDefault(value: Option<string>, default: string): (r: string)
    ensures value.Some? && value.value != "" ==> r == value.value
    ensures value.None? || value.value == "" ==> r == default
  {
    if value.Some? && value.value != "" then value.value else default
  }

  /** `row.get(column)`: a missing column reads as null. */
  function Get(row: Row, column: string): Value
  {
    if column in row then row[column] else Null
  }

  /** A row is used only when both its id and its text are truthy. */
  predicate Keeps(row: Row, idColumn: string, textColumn: string)
  {
    Truthy(Get(row, idColumn)) && Truthy(Get(row, textColumn))
  }

  /** The document made from one row: id and text through `str()`, every other
      column, unchanged, as metadata. */
  function ToDocument(row: Row, idColumn: string, textColumn: string): (d: Document)
    ensures d.id == ToStr(Get(row, idColumn)) && d.text == ToStr(Get(row, textColumn))
    ensures d.metadata.Keys == row.Keys - {idColumn, textColumn}
    ensures forall k :: k in d.metadata ==> d.metadata[k] == row[k]
  {
    Document(
      ToStr(Get(row, idColumn)),
      ToStr(Get(row, textColumn)),
      map k | k in row && k !in [idColumn, textColumn] :: row[k])
  }

  /** What one row contributes to the output: its document, or nothing. */
  function Emit(row: Row, idColumn: string, textColumn: string): seq<Document>
  {
    if Keeps(row, idColumn, textColumn) then [ToDocument(row, idColumn, textColumn)] else []
  }

  /** The documents a list of rows yields, in row order. */
  function Normalize(rows: seq<Row>, idColumn: string, textColumn: string): seq<Document>
    decreases |rows|
  {
    if rows == [] then []
    else Normalize(rows[..|rows| - 1], idColumn, textColumn) + Emit(rows[|rows| - 1], idColumn, textColumn)
  }

  /** Normalising is done row by row: the documents of two stretches of rows
      are the documents of the first followed by those of the second. */
  lemma {:induction false} NormalizeAppend(a: seq<Row>, b: seq<Row>, idColumn: string, textColumn: string)
    ensures Normalize(a + b, idColumn, textColumn)
         == Normalize(a, idColumn, textColumn) + Normalize(b, idColumn, textColumn)
    decreases |b|
  {
    if b == [] {
      assert a + b == a;
    } else {
      var b' := b[..|b| - 1];
      assert (a + b)[..|a + b| - 1] == a + b';
      NormalizeAppend(a, b', idColumn, textColumn);
    }
  }

  /** Never more documents than rows, and one per row when every row is kept. */
  lemma {:induction false} NormalizeLength(rows: seq<Row>, idColumn: string, textColumn: string)
    ensures |Normalize(rows, idColumn, textColumn)| <= |rows|
    ensures (forall i :: 0 <= i < |rows| ==> Keeps(rows[i], idColumn, textColumn))
      ==> |Normalize(rows, idColumn, textColumn)| == |rows|
    decreases |rows|
  {
    if rows != [] {
      var init := rows[..|rows| - 1];
      NormalizeLength(init, idColumn, textColumn);
      assert forall i :: 0 <= i < |init| ==> init[i] == rows[i];
    }
  }

  /** A document is in the output exactly when some kept row produces it. */
  lemma {:induction false} NormalizeMembers(rows: seq<Row>, idColumn: string, textColumn: string, d: Document)
    ensures d in Normalize(rows, idColumn, textColumn) <==>
      exists i :: 0 <= i < |rows| && Keeps(rows[i], idColumn, textColumn)
                  && d == ToDocument(rows[i], idColumn, textColumn)
    decreases |rows|
  {
    if rows != [] {
      var init := rows[..|rows| - 1];
      NormalizeMembers(init, idColumn, textColumn, d);
      assert forall i :: 0 <= i < |init| ==> init[i] == rows[i];
      if d in Normalize(rows, idColumn, textColumn) && d !in Normalize(init, idColumn, textColumn) {
        assert Keeps(rows[|rows| - 1], idColumn, textColumn) && d == ToDocument(rows[|rows| - 1], idColumn, textColumn);
      }
    }
  }

  /** Rows none of which is kept give no documents. */
  lemma {:induction false} NormalizeNoneKept(rows: seq<Row>, idColumn: string, textColumn: string)
    requires forall i :: 0 <= i < |rows| ==> !Keeps(rows[i], idColumn, textColumn)
    ensures Normalize(rows, idColumn, textColumn) == []
    decreases |rows|
  {
    if rows != [] {
      var init := rows[..|rows| - 1];
      assert forall i :: 0 <= i < |init| ==> init[i] == rows[i];
      NormalizeNoneKept(init, idColumn, textColumn);
    }
  }

  /** `result.count or 0`: a null count, like a zero one, reads as 0. */
  function CountOrZero(count: Option<int>): (n: int)
    ensures count.Some? ==> n == count.value
    ensures count.None? ==> n == 0
  {
    if count.Some? && count.value != 0 then count.value else 0
  }

  class SupabaseConnector {
    const config: Config.DatabaseConfig
    const client: SupabaseClient
    const tableName: string
    const textColumn: string
    const idColumn: string

    /** The fields: a table, text column or id column that is null or empty
        in the configuration falls back to its default. */
    constructor (config: Config.DatabaseConfig, client: SupabaseClient)
      requires config.dbType == Config.Supabase
      ensures this.config == config && this.client == client
      ensures tableName == OrDefault(config.table, DefaultTable)
      ensures textColumn == OrDefault(config.textColumn, DefaultTextColumn)
      ensures idColumn == OrDefault(config.idColumn, DefaultIdColumn)
    {
      this.config := config;
      this.client := client;
      tableName := OrDefault(config.table, DefaultTable);
      textColumn := OrDefault(config.textColumn, DefaultTextColumn);
      idColumn := OrDefault(config.idColumn, DefaultIdColumn);
    }

    /** Opening a connector: refused for any database type but supabase. */
    static method Connect(config: Config.DatabaseConfig, client: SupabaseClient)
      returns (r: Result<SupabaseConnector, ConnectorError>)
      ensures r.Failure? <==> config.dbType != Config.Supabase
      ensures r.Failure? ==> r.error == WrongDatabaseType(config.dbType)
      ensures r.Success? ==>
        && fresh(r.value)
        && r.value.config == config && r.value.client == client
        && r.value.tableName == OrDefault(config.table, DefaultTable)
        && r.value.textColumn == OrDefault(config.textColumn, DefaultTextColumn)
        && r.value.idColumn == OrDefault(config.idColumn, DefaultIdColumn)
    {
      if config.dbType != Config.Supabase {
        return Failure(WrongDatabaseType(config.dbType));
      }
      var c := new SupabaseConnector(config, client);
      r := Success(c);
    }

    /** Fetches up to `limit` rows and turns them into documents: rows whose id
        or text is falsy are skipped, the rest keep their order. */
    method FetchDocuments(limit: int := 100) returns (documents: seq<Document>)
      ensures var data := client.select(tableName, limit);
        documents == if data.None? then [] else Normalize(data.value, idColumn, textColumn)
    {
      var data := client.select(tableName, limit);
      if data.None? || data.value == [] {
        return [];
      }
      var rows := data.value;
      documents := [];
      for i := 0 to |rows|
        invariant documents == Normalize(rows[..i], idColumn, textColumn)
      {
        assert rows[..i + 1][..i] == rows[..i];
        var row := rows[i];
        var docId := Get(row, idColumn);
        var text := Get(row, textColumn);
        if !Truthy(docId) || !Truthy(text) {
          continue;
        }
        var metadata := map k | k in row && k !in [idColumn, textColumn] :: row[k];
        documents := documents + [Document(ToStr(docId), ToStr(text), metadata)];
      }
      assert rows[..|rows|] == rows;
    }

    /** The number of rows in the table, 0 when the count comes back null. */
    method CountDocuments() returns (n: int)
      ensures n == CountOrZero(client.count(tableName))
    {
      n := CountOrZero(client.count(tableName));
    }
  }
}
