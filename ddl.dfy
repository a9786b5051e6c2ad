/** The DDL text the engine issues: the `Column` record, the vector-store
    `CREATE TABLE` statement (built exactly as `init_vectorstore_table`
    writes it, including the missing space before a column's `NOT NULL`),
    the statements around it, and the chat-history table. Identifiers are
    placed between double quotes and are not escaped. */
module Ddl {
  import opened Text

  /** A caller-specified metadata column; `nullable` defaults to true in the source. */
  datatype Column = Column(name: string, dataType: string, nullable: bool)

  /** The arguments of `init_vectorstore_table` that shape the table. */
  datatype VectorStoreLayout = VectorStoreLayout(
    tableName: string,
    vectorSize: int,
    contentColumn: string,
    embeddingColumn: string,
    metadataColumns: seq<Column>,
    metadataJsonColumn: string,
    idColumn: string,
    storeMetadata: bool)

  /** The layout a caller gets by naming only the table and the vector size. */
  function DefaultLayout(tableName: string, vectorSize: int): VectorStoreLayout
  {
    VectorStoreLayout(tableName, vectorSize, "content", "embedding", [],
                      "langchain_metadata", "langchain_id", true)
  }

  const Indent := "\n            "
  const CreateTablePrefix := "CREATE TABLE \""
  const Terminator := "\n);"

  /** One of the three fixed column lines: indentation, quoted name, declaration. */
  function FixedColumn(name: string, declaration: string): string
  {
    Indent + "\"" + name + "\" " + declaration
  }

  /** The f-string the statement starts from: table name and the three fixed columns. */
  function TableHeader(l: VectorStoreLayout): string
  {
    CreateTablePrefix + l.tableName + "\"("
    + FixedColumn(l.idColumn, "UUID PRIMARY KEY") + ","
    + FixedColumn(l.contentColumn, "TEXT NOT NULL") + ","
    + FixedColumn(l.embeddingColumn, "vector(" + IntToString(l.vectorSize) + ") NOT NULL")
  }

  /** What one metadata column adds: `NOT NULL` follows the type with no space. */
  function ColumnFragment(c: Column): string
  {
    ",\n\"" + c.name + "\" " + c.dataType + (if c.nullable then "" else "NOT NULL")
  }

  /** The fragments of the metadata columns, appended in list order. */
  function ColumnsFragment(cols: seq<Column>): string
  {
    ConcatMap(cols, ColumnFragment)
  }

  function JsonFragment(jsonColumn: string): string
  {
    ",\n\"" + jsonColumn + "\" JSON"
  }

  /** What follows the metadata columns: the JSON column if stored, then the end. */
  function DdlTail(l: VectorStoreLayout): string
  {
    (if l.storeMetadata then JsonFragment(l.metadataJsonColumn) else "") + Terminator
  }

  /** The whole vector-store `CREATE TABLE` statement. */
  function VectorStoreTableDdl(l: VectorStoreLayout): string
  {
    TableHeader(l) + ColumnsFragment(l.metadataColumns) + DdlTail(l)
  }

  /** Builds the statement as the source does: start from the header, append
      one fragment per metadata column, then the JSON column, then the end. */
  method BuildVectorStoreTableQuery(l: VectorStoreLayout) returns (query: string)
    ensures query == VectorStoreTableDdl(l)
  {
    var cols := l.metadataColumns;
    query := TableHeader(l);
    for i := 0 to |cols|
      invariant query == TableHeader(l) + ColumnsFragment(cols[..i])
    {
      ConcatMapExtend(cols, i, ColumnFragment);
      query := query + ColumnFragment(cols[i]);
    }
    assert cols[..|cols|] == cols;
    if l.storeMetadata {
      query := query + JsonFragment(l.metadataJsonColumn);
    }
    query := query + Terminator;
  }

  // ---------------------------------------------------------------------
  // Properties of the statement
  // ---------------------------------------------------------------------

  /** Each metadata column contributes its own fragment, independently of the others. */
  lemma ColumnsFragmentAppend(a: seq<Column>, b: seq<Column>)
    ensures ColumnsFragment(a + b) == ColumnsFragment(a) + ColumnsFragment(b)
  {
    ConcatMapAppend(a, b, ColumnFragment);
  }

  /** The `k`-th metadata column's fragment stands in the statement right after
      the header and the fragments of the columns before it, and the next
      column's fragment starts where it ends. */
  lemma MetadataFragmentAt(l: VectorStoreLayout, k: nat)
    requires k < |l.metadataColumns|
    ensures var cols := l.metadataColumns;
            var off := |TableHeader(l)| + |ColumnsFragment(cols[..k])|;
            var frag := ColumnFragment(cols[k]);
            off + |frag| <= |VectorStoreTableDdl(l)|
            && VectorStoreTableDdl(l)[off..off + |frag|] == frag
            && |ColumnsFragment(cols[..k + 1])| == |ColumnsFragment(cols[..k])| + |frag|
  {
    var cols := l.metadataColumns;
    ConcatMapAt(cols, k, ColumnFragment);
    ConcatMapExtend(cols, k, ColumnFragment);
    SliceInside(VectorStoreTableDdl(l), TableHeader(l), ColumnsFragment(cols[..k]),
                ColumnFragment(cols[k]), ColumnsFragment(cols[k + 1..]), DdlTail(l));
  }

  /** `NOT NULL` is appended directly after the type exactly for non-nullable columns. */
  lemma ColumnNotNullIff(c: Column)
    ensures ColumnFragment(c) == ",\n\"" + c.name + "\" " + c.dataType + "NOT NULL" <==> !c.nullable
    ensures c.nullable ==> ColumnFragment(c) == ",\n\"" + c.name + "\" " + c.dataType
  {
  }

  /** For example, a required `TEXT` column is written `TEXTNOT NULL`. */
  lemma NotNullFollowsTypeWithoutSpace()
    ensures ColumnFragment(Column("page", "TEXT", false)) == ",\n\"page\" TEXTNOT NULL"
  {
  }

  /** The statement opens with the table name and the id, content and
      embedding columns, in that order, and closes with a newline and `);`. */
  lemma DdlShape(l: VectorStoreLayout)
    ensures var s := VectorStoreTableDdl(l);
            var h := CreateTablePrefix + l.tableName + "\"("
              + FixedColumn(l.idColumn, "UUID PRIMARY KEY") + ","
              + FixedColumn(l.contentColumn, "TEXT NOT NULL") + ","
              + FixedColumn(l.embeddingColumn, "vector(" + IntToString(l.vectorSize) + ") NOT NULL");
            |h| + |Terminator| <= |s| && s[..|h|] == h && s[|s| - |Terminator|..] == Terminator
  {
    var json := if l.storeMetadata then JsonFragment(l.metadataJsonColumn) else "";
    assert VectorStoreTableDdl(l) == TableHeader(l) + (ColumnsFragment(l.metadataColumns) + json) + Terminator;
    PrefixAndSuffix(VectorStoreTableDdl(l), TableHeader(l),
                    ColumnsFragment(l.metadataColumns) + json, Terminator);
  }

  /** Behind the metadata fragments comes the JSON column and the end exactly
      when `store_metadata` is set; otherwise only the end. */
  lemma JsonColumnIff(l: VectorStoreLayout)
    ensures var s := VectorStoreTableDdl(l);
            var cut := |TableHeader(l)| + |ColumnsFragment(l.metadataColumns)|;
            cut <= |s|
            && (s[cut..] == JsonFragment(l.metadataJsonColumn) + Terminator <==> l.storeMetadata)
            && (s[cut..] == Terminator <==> !l.storeMetadata)
  {
    var s := VectorStoreTableDdl(l);
    var head := TableHeader(l) + ColumnsFragment(l.metadataColumns);
    ConcatSlices(head, DdlTail(l));
  }

  /** The table name reads back from the statement when it holds no double quote. */
  lemma DdlTableNameReadBack(l: VectorStoreLayout)
    requires forall i :: 0 <= i < |l.tableName| ==> l.tableName[i] != '"'
    ensures UpToQuote(VectorStoreTableDdl(l)[|CreateTablePrefix|..]) == l.tableName
  {
    var s := VectorStoreTableDdl(l);
    var rest := s[|CreateTablePrefix| + |l.tableName| + 1..];
    assert s[|CreateTablePrefix|..] == l.tableName + "\"" + rest;
    UpToQuoteOfIdentifier(l.tableName, rest);
  }

  // ---------------------------------------------------------------------
  // The statements init_vectorstore_table issues
  // ---------------------------------------------------------------------

  const CreateExtensionStatement := "CREATE EXTENSION IF NOT EXISTS vector"

  function DropTableStatement(tableName: string): string
  {
    "DROP TABLE IF EXISTS \"" + tableName + "\""
  }

  /** The extension, the drop when asked to overwrite, then the table. */
  function VectorStoreInitStatements(l: VectorStoreLayout, overwriteExisting: bool): (r: seq<string>)
    ensures |r| == if overwriteExisting then 3 else 2
    ensures r[0] == CreateExtensionStatement
    ensures r[|r| - 1] == VectorStoreTableDdl(l)
    ensures overwriteExisting ==> r[1] == DropTableStatement(l.tableName)
    ensures (exists i :: 0 <= i < |r| && r[i] == DropTableStatement(l.tableName)) <==> overwriteExisting
  {
    var drop := DropTableStatement(l.tableName);
    assert drop[0] == 'D';
    assert VectorStoreTableDdl(l)[0] == 'C';
    assert CreateExtensionStatement[0] == 'C';
    [CreateExtensionStatement] + (if overwriteExisting then [drop] else []) + [VectorStoreTableDdl(l)]
  }

  // ---------------------------------------------------------------------
  // Chat history table
  // ---------------------------------------------------------------------

  const CreateTableIfNotExistsPrefix := "CREATE TABLE IF NOT EXISTS \""

  /** The fixed column list of the chat-history table. */
  const ChatHistoryColumns :=
    "(" + Indent + "id SERIAL PRIMARY KEY,"
    + Indent + "session_id TEXT NOT NULL,"
    + Indent + "data JSONB NOT NULL,"
    + Indent + "type TEXT NOT NULL"
    + "\n        );"

  /** `CREATE TABLE IF NOT EXISTS "<table>"(` followed by the four fixed columns. */
  function ChatHistoryTableDdl(tableName: string): (r: string)
    ensures |r| == |CreateTableIfNotExistsPrefix| + |tableName| + 1 + |ChatHistoryColumns|
    ensures r[..|CreateTableIfNotExistsPrefix|] == CreateTableIfNotExistsPrefix
    ensures r[|r| - |ChatHistoryColumns|..] == ChatHistoryColumns
    ensures (forall i :: 0 <= i < |tableName| ==> tableName[i] != '"') ==>
      UpToQuote(r[|CreateTableIfNotExistsPrefix|..]) == tableName
  {
    var p, c := CreateTableIfNotExistsPrefix, ChatHistoryColumns;
    var name := tableName + "\"";
    PrefixAndSuffix(p + name + c, p, name, c);
    ConcatSlices(p, name + c);
    assert p + name + c == p + (name + c);
    assert name + c == tableName + "\"" + c;
    if forall i :: 0 <= i < |tableName| ==> tableName[i] != '"' then
      UpToQuoteOfIdentifier(tableName, c);
      p + name + c
    else p + name + c
  }
}
