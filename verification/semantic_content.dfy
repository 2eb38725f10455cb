/** The content of a semantic layer: made from a schema and a generated draft, edited, validated. */
module SemanticContent {
  import opened Common
  import opened Text
  import SchemaNormalize

  datatype Column = Column(tableSchema: string, tableName: string, columnName: string, ordinalPosition: int, dataType: string,
                           columnType: string, isNullable: bool, columnComment: string, description: string)

  datatype Table = Table(tableSchema: string, tableName: string, tableType: string, tableComment: string, description: string,
                         columns: seq<Column>)

  /** An entity or a candidate metric. */
  datatype Note = Note(name: string, description: string, sourceTables: seq<string>)

  datatype Content = Content(tables: seq<Table>, entities: seq<Note>, candidateMetrics: seq<Note>)

  function FqTable(schema: string, table: string): string { schema + "." + table }

  function FqColumn(schema: string, table: string, column: string): string { schema + "." + table + "." + column }

  // ----- when full names coincide

  /** The name `c`, `d` moves a part `m` of `b` to the other side of a dot. */
  ghost predicate Shifts(a: string, b: string, c: string, d: string) { exists m :: c == a + "." + m && b == m + "." + d }

  lemma ShiftFound(a: string, b: string, c: string, d: string)
    requires |a| < |c| && FqTable(a, b) == FqTable(c, d)
    ensures Shifts(a, b, c, d)
  {
    var left, right := FqTable(a, b), FqTable(c, d);
    assert forall i | 0 <= i < |c| :: right[i] == c[i];
    assert left[|a|] == '.';
    var m := c[|a| + 1..];
    assert a == left[..|a|] == c[..|a|];
    assert c == a + "." + m;
    assert b == left[|a| + 1..] && m + "." + d == right[|a| + 1..];
  }

  lemma ShiftCoincides(a: string, b: string, c: string, d: string)
    requires Shifts(a, b, c, d)
    ensures FqTable(a, b) == FqTable(c, d) && |a| < |c|
  {
    var m :| c == a + "." + m && b == m + "." + d;
    assert a + "." + (m + "." + d) == a + "." + m + "." + d;
  }

  /** Two full names are the same exactly for the same two names, or if one moves a dotted part across. */
  lemma FqTableCoincides(a: string, b: string, c: string, d: string)
    ensures FqTable(a, b) == FqTable(c, d) <==> (a == c && b == d) || Shifts(a, b, c, d) || Shifts(c, d, a, b)
  {
    if FqTable(a, b) == FqTable(c, d) {
      if |a| < |c| {
        ShiftFound(a, b, c, d);
      } else if |c| < |a| {
        ShiftFound(c, d, a, b);
      } else {
        assert a == FqTable(a, b)[..|a|] && c == FqTable(c, d)[..|c|];
        assert b == FqTable(a, b)[|a| + 1..] && d == FqTable(c, d)[|c| + 1..];
      }
    }
    if Shifts(a, b, c, d) { ShiftCoincides(a, b, c, d); }
    if Shifts(c, d, a, b) { ShiftCoincides(c, d, a, b); }
  }

  lemma NoShiftOntoItself(a: string, b: string, d: string)
    ensures !Shifts(a, b, a, d)
  {
    if Shifts(a, b, a, d) {
      ShiftCoincides(a, b, a, d);
    }
  }

  /** Within one schema, dotted or not, tables are told apart by their full names. */
  lemma OneSchemaTellsTables(schema: string, table: string, table': string)
    ensures FqTable(schema, table) == FqTable(schema, table') <==> table == table'
  {
    FqTableCoincides(schema, table, schema, table');
    NoShiftOntoItself(schema, table, table');
    NoShiftOntoItself(schema, table', table);
  }

  lemma FqColumnNests(schema: string, table: string, column: string)
    ensures FqColumn(schema, table, column) == FqTable(schema, FqTable(table, column))
  {
  }

  /** Within one schema, columns share a full name exactly if a dotted part moves between table and column name. */
  lemma OneSchemaColumnsCoincide(schema: string, table: string, column: string, table': string, column': string)
    ensures FqColumn(schema, table, column) == FqColumn(schema, table', column') <==>
            (table == table' && column == column') || Shifts(table, column, table', column') || Shifts(table', column', table, column)
  {
    FqColumnNests(schema, table, column);
    FqColumnNests(schema, table', column');
    OneSchemaTellsTables(schema, FqTable(table, column), FqTable(table', column'));
    FqTableCoincides(table, column, table', column');
  }

  /** Over any schemas: full column names coincide as full table names do, with the table and column name for the second. */
  lemma FqColumnCoincides(schema: string, table: string, column: string, schema': string, table': string, column': string)
    ensures FqColumn(schema, table, column) == FqColumn(schema', table', column') <==>
            || (schema == schema' && FqTable(table, column) == FqTable(table', column'))
            || Shifts(schema, FqTable(table, column), schema', FqTable(table', column'))
            || Shifts(schema', FqTable(table', column'), schema, FqTable(table, column))
  {
    FqColumnNests(schema, table, column);
    FqColumnNests(schema', table', column');
    FqTableCoincides(schema, FqTable(table, column), schema', FqTable(table', column'));
  }

  predicate DotFree(s: string) { forall i | 0 <= i < |s| :: s[i] != '.' }

  lemma DotFreeNeverShifts(a: string, b: string, c: string, d: string)
    requires DotFree(c)
    ensures !Shifts(a, b, c, d)
  {
    if Shifts(a, b, c, d) {
      var m :| c == a + "." + m && b == m + "." + d;
      DotStands(a, m);
    }
  }

  lemma DotStands(a: string, m: string)
    ensures !DotFree(a + "." + m)
  {
    assert (a + "." + m)[|a|] == '.';
  }

  /** Where no schema name has a dot, full names tell tables apart; where no table name has one either, columns. */
  lemma DotFreeNamesAreTold(schema: string, table: string, column: string, schema': string, table': string, column': string)
    requires DotFree(schema) && DotFree(schema')
    ensures FqTable(schema, table) == FqTable(schema', table') <==> schema == schema' && table == table'
    ensures DotFree(table) && DotFree(table') ==>
              (FqColumn(schema, table, column) == FqColumn(schema', table', column') <==>
               schema == schema' && table == table' && column == column')
  {
    DotFreeNeverShifts(schema, table, schema', table');
    DotFreeNeverShifts(schema', table', schema, table);
    FqTableCoincides(schema, table, schema', table');
    if DotFree(table) && DotFree(table') {
      FqColumnCoincides(schema, table, column, schema', table', column');
      DotFreeNeverShifts(schema, FqTable(table, column), schema', FqTable(table', column'));
      DotFreeNeverShifts(schema', FqTable(table', column'), schema, FqTable(table, column));
      DotFreeNeverShifts(table, column, table', column');
      DotFreeNeverShifts(table', column', table, column);
      FqTableCoincides(table, column, table', column');
    }
  }

  // ----- the descriptions a content carries, by full name; a later one replaces an earlier one

  function Put(described: map<string, string>, c: Column, trim: bool): map<string, string> {
    described[FqColumn(c.tableSchema, c.tableName, c.columnName) := if trim then TrimSpace(c.description) else c.description]
  }

  function PutAll(described: map<string, string>, columns: seq<Column>, trim: bool): map<string, string> {
    if columns == [] then described
    else Put(PutAll(described, columns[..|columns| - 1], trim), columns[|columns| - 1], trim)
  }

  function TableDescriptions(tables: seq<Table>, trim: bool): map<string, string> {
    if tables == [] then map[]
    else
      var t := tables[|tables| - 1];
      TableDescriptions(tables[..|tables| - 1], trim)
        [FqTable(t.tableSchema, t.tableName) := if trim then TrimSpace(t.description) else t.description]
  }

  function ColumnDescriptions(tables: seq<Table>, trim: bool): map<string, string> {
    if tables == [] then map[]
    else PutAll(ColumnDescriptions(tables[..|tables| - 1], trim), tables[|tables| - 1].columns, trim)
  }

  method CollectColumns(before: map<string, string>, columns: seq<Column>, trim: bool) returns (described: map<string, string>)
    ensures described == PutAll(before, columns, trim)
  {
    hide TrimSpace, Put;
    described := before;
    var j := 0;
    while j < |columns|
      invariant 0 <= j <= |columns|
      invariant described == PutAll(before, columns[..j], trim)
    {
      assert columns[..j + 1][..j] == columns[..j];
      described := Put(described, columns[j], trim);
      j := j + 1;
    }
    assert columns[..j] == columns;
  }

  method CollectDescriptions(tables: seq<Table>, trim: bool)
    returns (tableDescriptions: map<string, string>, columnDescriptions: map<string, string>)
    ensures tableDescriptions == TableDescriptions(tables, trim)
    ensures columnDescriptions == ColumnDescriptions(tables, trim)
  {
    hide TrimSpace, FqTable, PutAll;
    tableDescriptions, columnDescriptions := map[], map[];
    var i := 0;
    while i < |tables|
      invariant 0 <= i <= |tables|
      invariant tableDescriptions == TableDescriptions(tables[..i], trim)
      invariant columnDescriptions == ColumnDescriptions(tables[..i], trim)
    {
      var t := tables[i];
      assert tables[..i + 1][..i] == tables[..i];
      tableDescriptions := tableDescriptions
        [FqTable(t.tableSchema, t.tableName) := if trim then TrimSpace(t.description) else t.description];
      columnDescriptions := CollectColumns(columnDescriptions, t.columns, trim);
      i := i + 1;
    }
    assert tables[..i] == tables;
  }

  function Lookup(descriptions: map<string, string>, key: string, otherwise: string): string {
    if key in descriptions then descriptions[key] else otherwise
  }

  // ----- editing

  function EditedColumn(c: Column, columns: map<string, string>): Column {
    c.(description := Lookup(columns, FqColumn(c.tableSchema, c.tableName, c.columnName), c.description))
  }

  function EditedColumns(cs: seq<Column>, columns: map<string, string>): (es: seq<Column>)
    ensures |es| == |cs| && forall i | 0 <= i < |cs| :: es[i] == EditedColumn(cs[i], columns)
  {
    seq(|cs|, i requires 0 <= i < |cs| => EditedColumn(cs[i], columns))
  }

  function EditedTable(t: Table, tables: map<string, string>, columns: map<string, string>): Table {
    t.(description := Lookup(tables, FqTable(t.tableSchema, t.tableName), t.description), columns := EditedColumns(t.columns, columns))
  }

  function EditedTables(ts: seq<Table>, tables: map<string, string>, columns: map<string, string>): (es: seq<Table>)
    ensures |es| == |ts| && forall i | 0 <= i < |ts| :: es[i] == EditedTable(ts[i], tables, columns)
  {
    seq(|ts|, i requires 0 <= i < |ts| => EditedTable(ts[i], tables, columns))
  }

  function Merged(base: Content, edited: Content): Content {
    base.(tables := EditedTables(base.tables, TableDescriptions(edited.tables, false), ColumnDescriptions(edited.tables, false)))
  }

  method MergeEditableDescriptions(base: Content, edited: Content) returns (out: Content)
    ensures out == Merged(base, edited)
  {
    var tableDescriptions, columnDescriptions := CollectDescriptions(edited.tables, false);
    out := Content([], base.entities, base.candidateMetrics);
    var i := 0;
    while i < |base.tables|
      invariant 0 <= i <= |base.tables|
      invariant out.entities == base.entities && out.candidateMetrics == base.candidateMetrics
      invariant out.tables == EditedTables(base.tables, tableDescriptions, columnDescriptions)[..i]
    {
      var table := base.tables[i];
      var nextTable := table;
      var key := FqTable(table.tableSchema, table.tableName);
      if key in tableDescriptions {
        nextTable := nextTable.(description := tableDescriptions[key]);
      }
      var columns := [];
      var j := 0;
      while j < |table.columns|
        invariant 0 <= j <= |table.columns|
        invariant columns == EditedColumns(table.columns, columnDescriptions)[..j]
      {
        var nextColumn := table.columns[j];
        var columnKey := FqColumn(nextColumn.tableSchema, nextColumn.tableName, nextColumn.columnName);
        if columnKey in columnDescriptions {
          nextColumn := nextColumn.(description := columnDescriptions[columnKey]);
        }
        columns := columns + [nextColumn];
        j := j + 1;
      }
      nextTable := nextTable.(columns := columns);
      assert columns == EditedColumns(table.columns, columnDescriptions);
      out := out.(tables := out.tables + [nextTable]);
      i := i + 1;
    }
    assert out.tables == EditedTables(base.tables, tableDescriptions, columnDescriptions);
  }

  /** The content without its descriptions. */
  function BareColumns(cs: seq<Column>): (bs: seq<Column>)
    ensures |bs| == |cs| && forall i | 0 <= i < |cs| :: bs[i] == cs[i].(description := "")
  {
    seq(|cs|, i requires 0 <= i < |cs| => cs[i].(description := ""))
  }

  function BareTables(ts: seq<Table>): (bs: seq<Table>)
    ensures |bs| == |ts| && forall i | 0 <= i < |ts| :: bs[i] == ts[i].(description := "", columns := BareColumns(ts[i].columns))
  {
    seq(|ts|, i requires 0 <= i < |ts| => ts[i].(description := "", columns := BareColumns(ts[i].columns)))
  }

  lemma EditedColumnsAreBare(cs: seq<Column>, columns: map<string, string>)
    ensures BareColumns(EditedColumns(cs, columns)) == BareColumns(cs)
  {
    var es := EditedColumns(cs, columns);
    forall i | 0 <= i < |cs|
      ensures BareColumns(es)[i] == BareColumns(cs)[i]
    {
      assert es[i] == EditedColumn(cs[i], columns);
    }
  }

  /** Editing changes descriptions and nothing else. */
  lemma MergeChangesDescriptionsOnly(base: Content, edited: Content)
    ensures Merged(base, edited).entities == base.entities && Merged(base, edited).candidateMetrics == base.candidateMetrics
    ensures BareTables(Merged(base, edited).tables) == BareTables(base.tables)
  {
    var tables, columns := TableDescriptions(edited.tables, false), ColumnDescriptions(edited.tables, false);
    var es := EditedTables(base.tables, tables, columns);
    forall i | 0 <= i < |base.tables|
      ensures BareTables(es)[i] == BareTables(base.tables)[i]
    {
      assert es[i] == EditedTable(base.tables[i], tables, columns);
      EditedColumnsAreBare(base.tables[i].columns, columns);
    }
  }

  lemma PutAllOver(before: map<string, string>, columns: seq<Column>, trim: bool)
    ensures PutAll(before, columns, trim) == before + PutAll(map[], columns, trim)
  {
    if columns != [] {
      PutAllOver(before, columns[..|columns| - 1], trim);
    }
  }

  function OwnDescription(t: Table, trim: bool): map<string, string> {
    map[FqTable(t.tableSchema, t.tableName) := if trim then TrimSpace(t.description) else t.description]
  }

  lemma {:induction false} TablesOfTwo(a: seq<Table>, b: seq<Table>, trim: bool)
    ensures TableDescriptions(a + b, trim) == TableDescriptions(a, trim) + TableDescriptions(b, trim)
    decreases |b|
  {
    if b == [] {
      assert a + b == a;
    } else {
      hide TrimSpace, FqTable, OwnDescription;
      var n := |b| - 1;
      assert (a + b)[..|a| + n] == a + b[..n] && (a + b)[|a| + n] == b[n];
      TablesOfTwo(a, b[..n], trim);
      OwnDescriptionLast(a + b, trim);
      OwnDescriptionLast(b, trim);
      MapsAssociate(TableDescriptions(a, trim), TableDescriptions(b[..n], trim), OwnDescription(b[n], trim));
    }
  }

  lemma OwnDescriptionLast(tables: seq<Table>, trim: bool)
    requires tables != []
    ensures TableDescriptions(tables, trim) ==
            TableDescriptions(tables[..|tables| - 1], trim) + OwnDescription(tables[|tables| - 1], trim)
  {
  }

  lemma {:induction false} ColumnsOfTwo(a: seq<Table>, b: seq<Table>, trim: bool)
    ensures ColumnDescriptions(a + b, trim) == ColumnDescriptions(a, trim) + ColumnDescriptions(b, trim)
    decreases |b|
  {
    if b == [] {
      assert a + b == a;
    } else {
      var n := |b| - 1;
      assert (a + b)[..|a| + n] == a + b[..n] && (a + b)[|a| + n] == b[n];
      ColumnsOfTwo(a, b[..n], trim);
      LastTable(a + b, trim);
      LastTable(b, trim);
      MapsAssociate(ColumnDescriptions(a, trim), ColumnDescriptions(b[..n], trim), PutAll(map[], b[n].columns, trim));
    }
  }

  lemma LastTable(tables: seq<Table>, trim: bool)
    requires tables != []
    ensures ColumnDescriptions(tables, trim) ==
            ColumnDescriptions(tables[..|tables| - 1], trim) + PutAll(map[], tables[|tables| - 1].columns, trim)
  {
    PutAllOver(ColumnDescriptions(tables[..|tables| - 1], trim), tables[|tables| - 1].columns, trim);
  }

  lemma DescriptionsOfTwo(a: seq<Table>, b: seq<Table>, trim: bool)
    ensures TableDescriptions(a + b, trim) == TableDescriptions(a, trim) + TableDescriptions(b, trim)
    ensures ColumnDescriptions(a + b, trim) == ColumnDescriptions(a, trim) + ColumnDescriptions(b, trim)
  {
    TablesOfTwo(a, b, trim);
    ColumnsOfTwo(a, b, trim);
  }

  lemma MapsAssociate(a: map<string, string>, b: map<string, string>, c: map<string, string>)
    ensures a + b + c == a + (b + c)
  {
  }

  lemma EditedColumnTwice(c: Column, first: map<string, string>, second: map<string, string>)
    ensures EditedColumn(EditedColumn(c, first), second) == EditedColumn(c, first + second)
  {
  }

  lemma EditedColumnsTwice(cs: seq<Column>, first: map<string, string>, second: map<string, string>)
    ensures EditedColumns(EditedColumns(cs, first), second) == EditedColumns(cs, first + second)
  {
    forall i | 0 <= i < |cs|
      ensures EditedColumns(EditedColumns(cs, first), second)[i] == EditedColumns(cs, first + second)[i]
    {
      EditedColumnTwice(cs[i], first, second);
    }
  }

  /** One edit after another is the edit of both together, in which the last description of a name wins. */
  lemma LastEditWins(base: Content, first: Content, second: Content)
    ensures Merged(Merged(base, first), second) == Merged(base, first.(tables := first.tables + second.tables))
  {
    DescriptionsOfTwo(first.tables, second.tables, false);
    var t1, c1 := TableDescriptions(first.tables, false), ColumnDescriptions(first.tables, false);
    var t2, c2 := TableDescriptions(second.tables, false), ColumnDescriptions(second.tables, false);
    var once := EditedTables(base.tables, t1, c1);
    forall i | 0 <= i < |base.tables|
      ensures EditedTables(once, t2, c2)[i] == EditedTables(base.tables, t1 + t2, c1 + c2)[i]
    {
      EditedColumnsTwice(base.tables[i].columns, c1, c2);
    }
    assert EditedTables(once, t2, c2) == EditedTables(base.tables, t1 + t2, c1 + c2);
  }

  lemma MapOverItself(m: map<string, string>)
    ensures m + m == m
  {
  }

  /** Making the same edit again changes nothing. */
  lemma MergeIsIdempotent(base: Content, edited: Content)
    ensures Merged(Merged(base, edited), edited) == Merged(base, edited)
  {
    LastEditWins(base, edited, edited);
    DescriptionsOfTwo(edited.tables, edited.tables, false);
    MapOverItself(TableDescriptions(edited.tables, false));
    MapOverItself(ColumnDescriptions(edited.tables, false));
  }

  // ----- validation

  predicate ValidTable(t: Table) {
    && TrimSpace(t.tableSchema) != "" && TrimSpace(t.tableName) != "" && t.columns != []
    && forall i | 0 <= i < |t.columns| :: TrimSpace(t.columns[i].columnName) != ""
  }

  predicate Valid(c: Content) { c.tables != [] && forall i | 0 <= i < |c.tables| :: ValidTable(c.tables[i]) }

  method ValidateSemanticLayerContent(c: Content) returns (ok: bool)
    ensures ok == Valid(c)
    ensures ok <==>
              && c.tables != []
              && forall i | 0 <= i < |c.tables| ::
                   && TrimSpace(c.tables[i].tableSchema) != "" && TrimSpace(c.tables[i].tableName) != "" && c.tables[i].columns != []
                   && forall j | 0 <= j < |c.tables[i].columns| :: TrimSpace(c.tables[i].columns[j].columnName) != ""
  {
    if c.tables == [] {
      return false;
    }
    var i := 0;
    while i < |c.tables|
      invariant 0 <= i <= |c.tables|
      invariant forall k | 0 <= k < i :: ValidTable(c.tables[k])
    {
      var table := c.tables[i];
      if TrimSpace(table.tableSchema) == "" || TrimSpace(table.tableName) == "" {
        return false;
      }
      if table.columns == [] {
        return false;
      }
      var j := 0;
      while j < |table.columns|
        invariant 0 <= j <= |table.columns|
        invariant forall k | 0 <= k < j :: TrimSpace(table.columns[k].columnName) != ""
      {
        if TrimSpace(table.columns[j].columnName) == "" {
          return false;
        }
        j := j + 1;
      }
      i := i + 1;
    }
    return true;
  }

  lemma BareTablesValidate(a: seq<Table>, b: seq<Table>)
    requires BareTables(a) == BareTables(b)
    ensures |a| == |b| && forall i | 0 <= i < |a| :: ValidTable(a[i]) == ValidTable(b[i])
  {
    assert |BareTables(a)| == |BareTables(b)|;
    forall i | 0 <= i < |a|
      ensures ValidTable(a[i]) == ValidTable(b[i])
    {
      assert BareTables(a)[i] == BareTables(b)[i];
      assert BareColumns(a[i].columns) == BareColumns(b[i].columns);
      forall j | 0 <= j < |a[i].columns|
        ensures j < |b[i].columns| && a[i].columns[j].columnName == b[i].columns[j].columnName
      {
        assert BareColumns(a[i].columns)[j] == BareColumns(b[i].columns)[j];
      }
      assert |BareColumns(a[i].columns)| == |BareColumns(b[i].columns)|;
    }
  }

  /** An edited content is valid exactly when the content it came from is. */
  lemma MergeKeepsValidity(base: Content, edited: Content)
    ensures Valid(Merged(base, edited)) <==> Valid(base)
  {
    MergeChangesDescriptionsOnly(base, edited);
    BareTablesValidate(Merged(base, edited).tables, base.tables);
  }

  datatype UpdateError = LayerNotFound | LayerArchived | InvalidContent | StoreFailed

  /**
   An update of a layer: found or not, archived or not, with its stored content; `up` says whether the new draft is
   written.  The check of the merged content never fails: the stored content passed the same check when it was read.
   */
  method Update(stored: Option<Content>, archived: bool, edited: Content, up: bool)
    returns (merged: Option<Content>, err: Option<UpdateError>)
    ensures err == if stored == None then Some(LayerNotFound) else if archived then Some(LayerArchived)
                   else if !Valid(stored.value) then Some(InvalidContent) else if !up then Some(StoreFailed) else None
    ensures merged == if err == None then Some(Merged(stored.value, edited)) else None
    ensures merged.Some? ==> Valid(merged.value)
  {
    if stored == None {
      return None, Some(LayerNotFound);
    }
    if archived {
      return None, Some(LayerArchived);
    }
    var readable := ValidateSemanticLayerContent(stored.value);
    if !readable {
      return None, Some(InvalidContent);
    }
    var next := MergeEditableDescriptions(stored.value, edited);
    MergeKeepsValidity(stored.value, edited);
    var ok := ValidateSemanticLayerContent(next);
    if !ok {
      assert false;
    }
    if !up {
      return None, Some(StoreFailed);
    }
    return Some(next), None;
  }

  // ----- drafting from a schema

  function FromSchema(c: SchemaNormalize.Column, columns: map<string, string>): Column {
    Column(c.tableSchema, c.tableName, c.columnName, c.ordinalPosition, c.dataType, c.columnType, c.isNullable, c.columnComment,
           Lookup(columns, FqColumn(c.tableSchema, c.tableName, c.columnName), ""))
  }

  /** The schema's columns with a full table name, in order, with their descriptions. */
  function ColumnsAt(cs: seq<SchemaNormalize.Column>, key: string, columns: map<string, string>): seq<Column> {
    if cs == [] then []
    else
      var c := cs[|cs| - 1];
      ColumnsAt(cs[..|cs| - 1], key, columns) + (if FqTable(c.tableSchema, c.tableName) == key then [FromSchema(c, columns)] else [])
  }

  function HydratedTable(t: SchemaNormalize.Table, cs: seq<SchemaNormalize.Column>, tables: map<string, string>,
                         columns: map<string, string>): Table
  {
    var key := FqTable(t.tableSchema, t.tableName);
    Table(t.tableSchema, t.tableName, t.tableType, t.tableComment, Lookup(tables, key, ""), ColumnsAt(cs, key, columns))
  }

  function NormalizedStrings(values: seq<string>): seq<string> {
    if values == [] then []
    else
      var v := TrimSpace(values[|values| - 1]);
      NormalizedStrings(values[..|values| - 1]) + (if v == "" then [] else [v])
  }

  function NormalizedNotes(notes: seq<Note>): seq<Note> {
    if notes == [] then []
    else
      var n := notes[|notes| - 1];
      NormalizedNotes(notes[..|notes| - 1]) +
        (if TrimSpace(n.name) == "" then []
         else [Note(TrimSpace(n.name), TrimSpace(n.description), NormalizedStrings(n.sourceTables))])
  }

  function HydratedTables(ts: seq<SchemaNormalize.Table>, cs: seq<SchemaNormalize.Column>, tables: map<string, string>,
                          columns: map<string, string>): (out: seq<Table>)
    ensures |out| == |ts| && forall i | 0 <= i < |ts| :: out[i] == HydratedTable(ts[i], cs, tables, columns)
  {
    seq(|ts|, i requires 0 <= i < |ts| => HydratedTable(ts[i], cs, tables, columns))
  }

  function Hydrated(schema: SchemaNormalize.Blob, generated: Content): (out: Content)
    ensures |out.tables| == |schema.tables|
  {
    var tables, columns := TableDescriptions(generated.tables, true), ColumnDescriptions(generated.tables, true);
    Content(HydratedTables(schema.tables, schema.columns, tables, columns),
            NormalizedNotes(generated.entities), NormalizedNotes(generated.candidateMetrics))
  }

  method NormalizeStrings(values: seq<string>) returns (out: seq<string>)
    ensures out == NormalizedStrings(values)
  {
    out := [];
    var i := 0;
    while i < |values|
      invariant 0 <= i <= |values| && out == NormalizedStrings(values[..i])
    {
      assert values[..i + 1][..i] == values[..i];
      var trimmed := TrimSpace(values[i]);
      if trimmed != "" {
        out := out + [trimmed];
      }
      i := i + 1;
    }
    assert values[..i] == values;
  }

  method NormalizeNotes(notes: seq<Note>) returns (out: seq<Note>)
    ensures out == NormalizedNotes(notes)
  {
    out := [];
    var i := 0;
    while i < |notes|
      invariant 0 <= i <= |notes| && out == NormalizedNotes(notes[..i])
    {
      assert notes[..i + 1][..i] == notes[..i];
      if TrimSpace(notes[i].name) != "" {
        var sourceTables := NormalizeStrings(notes[i].sourceTables);
        out := out + [Note(TrimSpace(notes[i].name), TrimSpace(notes[i].description), sourceTables)];
      }
      i := i + 1;
    }
    assert notes[..i] == notes;
  }

  function Group(byTable: map<string, seq<Column>>, key: string): seq<Column> { if key in byTable then byTable[key] else [] }

  /** The columns grouped by full table name, in one pass. */
  method GroupColumns(cs: seq<SchemaNormalize.Column>, columns: map<string, string>) returns (byTable: map<string, seq<Column>>)
    ensures forall key :: Group(byTable, key) == ColumnsAt(cs, key, columns)
  {
    hide FqTable, FromSchema;
    byTable := map[];
    var i := 0;
    while i < |cs|
      invariant 0 <= i <= |cs|
      invariant forall key :: Group(byTable, key) == ColumnsAt(cs[..i], key, columns)
    {
      var key := FqTable(cs[i].tableSchema, cs[i].tableName);
      forall other
        ensures ColumnsAt(cs[..i + 1], other, columns) ==
                ColumnsAt(cs[..i], other, columns) + (if key == other then [FromSchema(cs[i], columns)] else [])
      {
        assert cs[..i + 1][..i] == cs[..i];
      }
      ghost var before := byTable;
      byTable := byTable[key := Group(byTable, key) + [FromSchema(cs[i], columns)]];
      forall other
        ensures Group(byTable, other) == ColumnsAt(cs[..i + 1], other, columns)
      {
        if other != key {
          assert Group(byTable, other) == Group(before, other);
          assert ColumnsAt(cs[..i], other, columns) + [] == ColumnsAt(cs[..i], other, columns);
        }
      }
      i := i + 1;
    }
    assert cs[..i] == cs;
  }

  method HydrateSemanticLayerFromSchema(schema: SchemaNormalize.Blob, generated: Content) returns (out: Content)
    ensures out == Hydrated(schema, generated)
  {
    hide TableDescriptions, ColumnDescriptions, ColumnsAt, NormalizedNotes;
    var tableDescriptions, columnDescriptions := CollectDescriptions(generated.tables, true);
    ghost var tables := HydratedTables(schema.tables, schema.columns, tableDescriptions, columnDescriptions);
    var byTable := GroupColumns(schema.columns, columnDescriptions);
    var entities := NormalizeNotes(generated.entities);
    var candidateMetrics := NormalizeNotes(generated.candidateMetrics);
    out := Content([], entities, candidateMetrics);
    var i := 0;
    while i < |schema.tables|
      invariant 0 <= i <= |schema.tables|
      invariant out.entities == entities && out.candidateMetrics == candidateMetrics
      invariant out.tables == tables[..i]
    {
      var t := schema.tables[i];
      var key := FqTable(t.tableSchema, t.tableName);
      out := out.(tables := out.tables + [
        Table(t.tableSchema, t.tableName, t.tableType, t.tableComment, Lookup(tableDescriptions, key, ""),
              Group(byTable, key))]);
      i := i + 1;
    }
    assert out.tables == tables;
  }

  /** The columns the schema lists for a table, in order. */
  function ColumnsOf(cs: seq<SchemaNormalize.Column>, schema: string, table: string): seq<SchemaNormalize.Column> {
    if cs == [] then []
    else
      var c := cs[|cs| - 1];
      ColumnsOf(cs[..|cs| - 1], schema, table) + (if c.tableSchema == schema && c.tableName == table then [c] else [])
  }

  predicate DistinctTables(b: SchemaNormalize.Blob) {
    forall i, j | 0 <= i < j < |b.tables| ::
      b.tables[i].tableSchema != b.tables[j].tableSchema || b.tables[i].tableName != b.tables[j].tableName
  }

  /** The metadata of a column is the schema's. */
  predicate Describes(c: Column, of: SchemaNormalize.Column) {
    && c.tableSchema == of.tableSchema && c.tableName == of.tableName && c.columnName == of.columnName
    && c.ordinalPosition == of.ordinalPosition && c.dataType == of.dataType && c.columnType == of.columnType
    && c.isNullable == of.isNullable && c.columnComment == of.columnComment
  }

  /** No column of another table has the full name of table `i`. */
  predicate OwnNameOnly(schema: SchemaNormalize.Blob, i: nat)
    requires i < |schema.tables|
  {
    NamedOnlyBy(schema.columns, schema.tables[i].tableSchema, schema.tables[i].tableName)
  }

  predicate NamedOnlyBy(cs: seq<SchemaNormalize.Column>, schema: string, table: string) {
    forall j | 0 <= j < |cs| && FqTable(cs[j].tableSchema, cs[j].tableName) == FqTable(schema, table) ::
      cs[j].tableSchema == schema && cs[j].tableName == table
  }

  /** The columns are those of the table, in order, with their own metadata. */
  predicate Mirrors(got: seq<Column>, own: seq<SchemaNormalize.Column>) {
    |got| == |own| && forall k | 0 <= k < |own| :: Describes(got[k], own[k])
  }

  lemma NamedOnlyByLast(cs: seq<SchemaNormalize.Column>, schema: string, table: string)
    requires cs != []
    ensures var n, last := |cs| - 1, cs[|cs| - 1];
            NamedOnlyBy(cs, schema, table) <==>
            NamedOnlyBy(cs[..n], schema, table)
            && (FqTable(last.tableSchema, last.tableName) == FqTable(schema, table) ==>
                  last.tableSchema == schema && last.tableName == table)
  {
    var n := |cs| - 1;
    assert forall j | 0 <= j < n :: cs[..n][j] == cs[j];
  }

  lemma {:induction false} KeySelectsMore(cs: seq<SchemaNormalize.Column>, schema: string, table: string, columns: map<string, string>)
    ensures |ColumnsOf(cs, schema, table)| <= |ColumnsAt(cs, FqTable(schema, table), columns)|
    ensures |ColumnsOf(cs, schema, table)| == |ColumnsAt(cs, FqTable(schema, table), columns)| <==> NamedOnlyBy(cs, schema, table)
    ensures NamedOnlyBy(cs, schema, table) ==>
              Mirrors(ColumnsAt(cs, FqTable(schema, table), columns), ColumnsOf(cs, schema, table))
    decreases |cs|
  {
    if cs != [] {
      hide FqTable, NamedOnlyBy;
      KeySelectsMore(cs[..|cs| - 1], schema, table, columns);
      NamedOnlyByLast(cs, schema, table);
    }
  }

  /**
   A table of a drafted layer has just the columns the schema lists for it, in order and with their own metadata,
   exactly if no column of another table has its full name.
   */
  lemma HydrateFollowsSchemaExactly(schema: SchemaNormalize.Blob, generated: Content, i: nat)
    requires i < |schema.tables|
    ensures var t := Hydrated(schema, generated).tables[i];
            var s := schema.tables[i];
            && t.tableSchema == s.tableSchema && t.tableName == s.tableName
            && t.tableType == s.tableType && t.tableComment == s.tableComment
            && (Mirrors(t.columns, ColumnsOf(schema.columns, s.tableSchema, s.tableName)) <==> OwnNameOnly(schema, i))
  {
    KeySelectsMore(schema.columns, schema.tables[i].tableSchema, schema.tables[i].tableName,
                   ColumnDescriptions(generated.tables, true));
  }

  predicate OneSchema(b: SchemaNormalize.Blob, schema: string) {
    && (forall i | 0 <= i < |b.tables| :: b.tables[i].tableSchema == schema)
    && (forall i | 0 <= i < |b.columns| :: b.columns[i].tableSchema == schema)
  }

  predicate DotFreeSchemas(b: SchemaNormalize.Blob) {
    && (forall i | 0 <= i < |b.tables| :: DotFree(b.tables[i].tableSchema))
    && (forall i | 0 <= i < |b.columns| :: DotFree(b.columns[i].tableSchema))
  }

  /** That holds of every table of a schema introspected from one database, whatever its name, and where no schema name has a dot. */
  lemma OneSchemaHydratesRight(b: SchemaNormalize.Blob, generated: Content, schema: string, i: nat)
    requires i < |b.tables| && (OneSchema(b, schema) || DotFreeSchemas(b))
    ensures OwnNameOnly(b, i)
    ensures Mirrors(Hydrated(b, generated).tables[i].columns, ColumnsOf(b.columns, b.tables[i].tableSchema, b.tables[i].tableName))
  {
    OneSchemaOwnsNames(b, schema, i);
    HydrateFollowsSchemaExactly(b, generated, i);
  }

  lemma OneSchemaOwnsNames(b: SchemaNormalize.Blob, schema: string, i: nat)
    requires i < |b.tables| && (OneSchema(b, schema) || DotFreeSchemas(b))
    ensures OwnNameOnly(b, i)
  {
    var t := b.tables[i];
    forall j | 0 <= j < |b.columns|
               && FqTable(b.columns[j].tableSchema, b.columns[j].tableName) == FqTable(t.tableSchema, t.tableName)
      ensures b.columns[j].tableSchema == t.tableSchema && b.columns[j].tableName == t.tableName
    {
      var c := b.columns[j];
      if OneSchema(b, schema) {
        OneSchemaTellsTables(schema, c.tableName, t.tableName);
      } else {
        DotFreeNamesAreTold(c.tableSchema, c.tableName, "", t.tableSchema, t.tableName, "");
      }
    }
  }

  /** With two schema names, one a dotted extension of the other, a column can be listed under a table that is not its own. */
  lemma ShiftedSchemasMixColumns(schema: SchemaNormalize.Blob, generated: Content, s: string, m: string, t: string)
    requires |schema.tables| == 1 && schema.tables[0].tableSchema == s && schema.tables[0].tableName == m + "." + t
    requires |schema.columns| == 1 && schema.columns[0].tableSchema == s + "." + m && schema.columns[0].tableName == t
    ensures !OwnNameOnly(schema, 0) && |Hydrated(schema, generated).tables[0].columns| == 1
  {
    assert Shifts(s, m + "." + t, s + "." + m, t);
    ShiftCoincides(s, m + "." + t, s + "." + m, t);
    var cs := schema.columns;
    assert cs[..0] == [];
    var columns := ColumnDescriptions(generated.tables, true);
    var key := FqTable(s, m + "." + t);
    assert ColumnsAt(cs, key, columns) == ColumnsAt(cs[..0], key, columns) + [FromSchema(cs[0], columns)];
  }

  lemma {:induction false} ListedByName(cs: seq<SchemaNormalize.Column>, key: string, columns: map<string, string>,
                                        c: SchemaNormalize.Column)
    requires c in cs
    ensures FromSchema(c, columns) in ColumnsAt(cs, key, columns) <==> FqTable(c.tableSchema, c.tableName) == key
    decreases |cs|
  {
    hide FqTable;
    var n := |cs| - 1;
    OnlyNamedAreListed(cs, key, columns);
    if c in cs[..n] {
      ListedByName(cs[..n], key, columns, c);
    } else {
      assert c == cs[n];
    }
  }

  lemma {:induction false} OnlyNamedAreListed(cs: seq<SchemaNormalize.Column>, key: string, columns: map<string, string>)
    ensures forall x | x in ColumnsAt(cs, key, columns) :: FqTable(x.tableSchema, x.tableName) == key
    decreases |cs|
  {
    if cs != [] {
      OnlyNamedAreListed(cs[..|cs| - 1], key, columns);
    }
  }

  /** In a drafted layer a column of the schema is listed under its own table and no other, where names tell tables apart. */
  lemma EachColumnInOneTable(schema: SchemaNormalize.Blob, generated: Content, c: SchemaNormalize.Column, i: nat, j: nat)
    requires DistinctTables(schema) && c in schema.columns && i < |schema.tables| && j < |schema.tables|
    requires schema.tables[i].tableSchema == c.tableSchema && schema.tables[i].tableName == c.tableName
    requires OwnNameOnly(schema, j)
    ensures FromSchema(c, ColumnDescriptions(generated.tables, true)) in Hydrated(schema, generated).tables[j].columns <==> j == i
  {
    var t := schema.tables[j];
    ListedByName(schema.columns, FqTable(t.tableSchema, t.tableName), ColumnDescriptions(generated.tables, true), c);
  }

  // ----- whose description a column gets

  function AllColumns(tables: seq<Table>): seq<Column> {
    if tables == [] then [] else AllColumns(tables[..|tables| - 1]) + tables[|tables| - 1].columns
  }

  predicate SameFullName(e: Column, c: Column) {
    FqColumn(e.tableSchema, e.tableName, e.columnName) == FqColumn(c.tableSchema, c.tableName, c.columnName)
  }

  predicate SameColumn(e: Column, c: Column) {
    e.tableSchema == c.tableSchema && e.tableName == c.tableName && e.columnName == c.columnName
  }

  /** The last of the columns that has the full name of `c`, or that is `c`; -1 if there is none. */
  function LastFull(es: seq<Column>, c: Column): (k: int)
    ensures -1 <= k < |es|
  {
    if es == [] then -1 else if SameFullName(es[|es| - 1], c) then |es| - 1 else LastFull(es[..|es| - 1], c)
  }

  function LastOwn(es: seq<Column>, c: Column): (k: int)
    ensures -1 <= k < |es|
  {
    if es == [] then -1 else if SameColumn(es[|es| - 1], c) then |es| - 1 else LastOwn(es[..|es| - 1], c)
  }

  /** The description the `k`-th column tells; `otherwise` if there is none. */
  function Told(es: seq<Column>, k: int, trim: bool, otherwise: string): string
    requires k < |es|
  {
    if k < 0 then otherwise else if trim then TrimSpace(es[k].description) else es[k].description
  }

  lemma {:induction false} PutAllOfTwo(before: map<string, string>, a: seq<Column>, b: seq<Column>, trim: bool)
    ensures PutAll(before, a + b, trim) == PutAll(PutAll(before, a, trim), b, trim)
    decreases |b|
  {
    if b == [] {
      assert a + b == a;
    } else {
      hide Put;
      var n := |b| - 1;
      assert (a + b)[..|a| + n] == a + b[..n] && (a + b)[|a| + n] == b[n];
      PutAllOfTwo(before, a, b[..n], trim);
    }
  }

  lemma {:induction false} DescriptionsAreFlat(tables: seq<Table>, trim: bool)
    ensures ColumnDescriptions(tables, trim) == PutAll(map[], AllColumns(tables), trim)
    decreases |tables|
  {
    if tables != [] {
      hide PutAll;
      var n := |tables| - 1;
      DescriptionsAreFlat(tables[..n], trim);
      PutAllOfTwo(map[], AllColumns(tables[..n]), tables[n].columns, trim);
    } else {
      assert PutAll(map[], [], trim) == map[];
    }
  }

  lemma {:induction false} LastFullIsTold(es: seq<Column>, c: Column, trim: bool, otherwise: string)
    ensures Lookup(PutAll(map[], es, trim), FqColumn(c.tableSchema, c.tableName, c.columnName), otherwise) ==
            Told(es, LastFull(es, c), trim, otherwise)
    decreases |es|
  {
    if es != [] {
      hide TrimSpace, FqColumn;
      LastFullIsTold(es[..|es| - 1], c, trim, otherwise);
    }
  }

  /** A merged column gets the description of the last edited column with its full name, or keeps its own. */
  lemma EditedByLastFull(edited: Content, c: Column)
    ensures var es := AllColumns(edited.tables);
            EditedColumn(c, ColumnDescriptions(edited.tables, false)) ==
            c.(description := Told(es, LastFull(es, c), false, c.description))
  {
    DescriptionsAreFlat(edited.tables, false);
    LastFullIsTold(AllColumns(edited.tables), c, false, c.description);
  }

  /** A drafted column gets the trimmed description of the last generated column with its full name, or none. */
  lemma DraftedByLastFull(generated: Content, c: SchemaNormalize.Column, bare: Column)
    requires Describes(bare, c)
    ensures var es := AllColumns(generated.tables);
            FromSchema(c, ColumnDescriptions(generated.tables, true)) == bare.(description := Told(es, LastFull(es, bare), true, ""))
  {
    DescriptionsAreFlat(generated.tables, true);
    LastFullIsTold(AllColumns(generated.tables), bare, true, "");
  }

  /** The last of the tables with the full name; -1 if there is none. */
  function LastNamed(ts: seq<Table>, schema: string, table: string): (k: int)
    ensures -1 <= k < |ts|
    ensures k >= 0 ==> FqTable(ts[k].tableSchema, ts[k].tableName) == FqTable(schema, table)
    ensures forall j | k < j < |ts| :: FqTable(ts[j].tableSchema, ts[j].tableName) != FqTable(schema, table)
  {
    if ts == [] then -1
    else if FqTable(ts[|ts| - 1].tableSchema, ts[|ts| - 1].tableName) == FqTable(schema, table) then |ts| - 1
    else LastNamed(ts[..|ts| - 1], schema, table)
  }

  lemma {:induction false} LastNamedIsTold(ts: seq<Table>, schema: string, table: string, trim: bool, otherwise: string)
    ensures var k := LastNamed(ts, schema, table);
            Lookup(TableDescriptions(ts, trim), FqTable(schema, table), otherwise) ==
            if k < 0 then otherwise else if trim then TrimSpace(ts[k].description) else ts[k].description
  {
    hide TrimSpace, FqTable;
    if ts != [] {
      LastNamedIsTold(ts[..|ts| - 1], schema, table, trim, otherwise);
    }
  }

  /** In a merge a column says what the last edited column of its full name says, or else what it said. */
  lemma MergedColumnByLast(base: Content, edited: Content, i: nat, j: nat)
    requires i < |base.tables| && j < |base.tables[i].columns|
    ensures var c, m := base.tables[i].columns[j], Merged(base, edited).tables[i];
            var es := AllColumns(edited.tables);
            && |m.columns| == |base.tables[i].columns|
            && m.columns[j].description == if LastFull(es, c) < 0 then c.description else es[LastFull(es, c)].description
  {
    hide TableDescriptions, ColumnDescriptions, FqTable;
    EditedByLastFull(edited, base.tables[i].columns[j]);
  }

  /** In a merge a table says what the last edited table of its full name says, or else what it said. */
  lemma MergedTableByLast(base: Content, edited: Content, i: nat)
    requires i < |base.tables|
    ensures var t, k := base.tables[i], LastNamed(edited.tables, base.tables[i].tableSchema, base.tables[i].tableName);
            Merged(base, edited).tables[i].description == if k < 0 then t.description else edited.tables[k].description
  {
    hide TableDescriptions, ColumnDescriptions, FqTable;
    var t := base.tables[i];
    LastNamedIsTold(edited.tables, t.tableSchema, t.tableName, false, t.description);
  }

  /** A drafted table says, trimmed, what the last generated table of its full name says, or nothing. */
  lemma DraftedTableByLast(schema: SchemaNormalize.Blob, generated: Content, i: nat)
    requires i < |schema.tables|
    ensures var s := schema.tables[i];
            var k := LastNamed(generated.tables, s.tableSchema, s.tableName);
            Hydrated(schema, generated).tables[i].description ==
            if k < 0 then "" else TrimSpace(generated.tables[k].description)
  {
    hide TableDescriptions, ColumnDescriptions, FqTable, TrimSpace;
    var s := schema.tables[i];
    LastNamedIsTold(generated.tables, s.tableSchema, s.tableName, true, "");
  }

  lemma {:induction false} StringsOfTwo(a: seq<string>, b: seq<string>)
    ensures NormalizedStrings(a + b) == NormalizedStrings(a) + NormalizedStrings(b)
    decreases |b|
  {
    hide TrimSpace;
    if b == [] {
      assert a + b == a;
    } else {
      var n := |b| - 1;
      assert (a + b)[..|a| + n] == a + b[..n];
      StringsOfTwo(a, b[..n]);
    }
  }

  lemma {:induction false} NotesOfTwo(a: seq<Note>, b: seq<Note>)
    ensures NormalizedNotes(a + b) == NormalizedNotes(a) + NormalizedNotes(b)
    decreases |b|
  {
    hide TrimSpace, NormalizedStrings;
    if b == [] {
      assert a + b == a;
    } else {
      var n := |b| - 1;
      assert (a + b)[..|a| + n] == a + b[..n];
      NotesOfTwo(a, b[..n]);
    }
  }

  /**
   A draft keeps the generated entities and metrics that have a name, each in its place, with name, description and source
   tables trimmed and the blank source tables left out; a blank one leaves no trace.
   */
  lemma DraftKeepsNotes(schema: SchemaNormalize.Blob, generated: Content, before: seq<Note>, note: Note, after: seq<Note>)
    ensures generated.entities == before + [note] + after ==>
              Hydrated(schema, generated).entities ==
              Hydrated(schema, generated.(entities := before)).entities
              + (if TrimSpace(note.name) == "" then [] else [Tidied(note)])
              + Hydrated(schema, generated.(entities := after)).entities
    ensures generated.candidateMetrics == before + [note] + after ==>
              Hydrated(schema, generated).candidateMetrics ==
              Hydrated(schema, generated.(candidateMetrics := before)).candidateMetrics
              + (if TrimSpace(note.name) == "" then [] else [Tidied(note)])
              + Hydrated(schema, generated.(candidateMetrics := after)).candidateMetrics
    ensures Hydrated(schema, generated.(entities := [])).entities == []
    ensures Hydrated(schema, generated.(candidateMetrics := [])).candidateMetrics == []
    ensures Tidied(note).name == TrimSpace(note.name) && Tidied(note).description == TrimSpace(note.description)
  {
    hide TrimSpace, NormalizedStrings, HydratedTables;
    NotesOfTwo(before + [note], after);
    NotesOfTwo(before, [note]);
    OneNote(note);
  }

  lemma OneNote(note: Note)
    ensures NormalizedNotes([note]) == if TrimSpace(note.name) == "" then [] else [Tidied(note)]
  {
    hide TrimSpace, NormalizedStrings;
    assert [note][..0] == [] && NormalizedNotes([]) == [];
  }

  function Tidied(note: Note): Note {
    Note(TrimSpace(note.name), TrimSpace(note.description), NormalizedStrings(note.sourceTables))
  }

  /** Of the source tables exactly the blank ones are left out, the others trimmed, in their order. */
  lemma SourceTablesAreTidied(before: seq<string>, value: string, after: seq<string>)
    ensures NormalizedStrings([]) == []
    ensures NormalizedStrings(before + [value] + after) ==
            NormalizedStrings(before) + (if TrimSpace(value) == "" then [] else [TrimSpace(value)]) + NormalizedStrings(after)
  {
    hide TrimSpace;
    StringsOfTwo(before + [value], after);
    StringsOfTwo(before, [value]);
    assert [value][..0] == [];
  }

  /** The columns with other descriptions. */
  function Redescribed(es: seq<Column>, ds: seq<string>): (rs: seq<Column>)
    requires |ds| == |es|
    ensures |rs| == |es| && forall k | 0 <= k < |es| :: rs[k] == es[k].(description := ds[k])
  {
    seq(|es|, k requires 0 <= k < |es| => es[k].(description := ds[k]))
  }

  lemma {:induction false} LastOfRedescribed(es: seq<Column>, rs: seq<Column>, c: Column)
    requires |rs| == |es| && forall k | 0 <= k < |es| :: SameColumn(rs[k], es[k])
    ensures LastFull(rs, c) == LastFull(es, c) && LastOwn(rs, c) == LastOwn(es, c)
    decreases |es|
  {
    if es != [] {
      var n := |es| - 1;
      assert SameColumn(rs[n], es[n]);
      LastOfRedescribed(es[..n], rs[..n], c);
    }
  }

  /** Whatever the given descriptions say, column `c` is told what was said of it last, or `otherwise`. */
  ghost predicate AlwaysToldOwn(es: seq<Column>, c: Column, trim: bool, otherwise: string) {
    forall ds: seq<string> | |ds| == |es| ::
      var rs := Redescribed(es, ds);
      Told(rs, LastFull(rs, c), trim, otherwise) == Told(rs, LastOwn(rs, c), trim, otherwise)
  }

  /**
   Exactly then is a column always told its own description, in a merge (untrimmed, or else its old one) and in a draft
   (trimmed, or else none): the last column given under its full name is itself, or there is none.
   */
  lemma OwnDescriptionExactly(es: seq<Column>, c: Column, trim: bool, otherwise: string)
    ensures AlwaysToldOwn(es, c, trim, otherwise) <==> LastFull(es, c) == LastOwn(es, c)
  {
    hide LastFull, LastOwn, SameColumn;
    forall ds: seq<string> | |ds| == |es|
      ensures LastFull(Redescribed(es, ds), c) == LastFull(es, c) && LastOwn(Redescribed(es, ds), c) == LastOwn(es, c)
    {
      RedescribedIsSame(es, ds, c);
    }
    if LastFull(es, c) != LastOwn(es, c) {
      ForeignIsTold(es, c, trim, otherwise);
    }
  }

  lemma RedescribedIsSame(es: seq<Column>, ds: seq<string>, c: Column)
    requires |ds| == |es|
    ensures LastFull(Redescribed(es, ds), c) == LastFull(es, c) && LastOwn(Redescribed(es, ds), c) == LastOwn(es, c)
  {
    hide LastFull, LastOwn;
    LastOfRedescribed(es, Redescribed(es, ds), c);
  }

  lemma ForeignIsTold(es: seq<Column>, c: Column, trim: bool, otherwise: string)
    requires LastFull(es, c) != LastOwn(es, c)
    ensures !AlwaysToldOwn(es, c, trim, otherwise)
  {
    hide LastFull, LastOwn, SameColumn, TrimSpace;
    OwnIsFull(es, c);
    MarksSurvive();
    var mark := if otherwise == "!" then "?" else "!";
    var f := LastFull(es, c);
    var ds := seq(|es|, k => if k == f then mark else "");
    RedescribedIsSame(es, ds, c);
    var rs := Redescribed(es, ds);
    assert Told(rs, LastFull(rs, c), trim, otherwise) == mark;
    assert Told(rs, LastOwn(rs, c), trim, otherwise) != mark;
  }

  lemma MarksSurvive()
    ensures TrimSpace("!") == "!" && TrimSpace("?") == "?" && TrimSpace("") == ""
  {
  }

  lemma {:induction false} OwnIsFull(es: seq<Column>, c: Column)
    ensures LastOwn(es, c) <= LastFull(es, c)
  {
    if es != [] {
      OwnIsFull(es[..|es| - 1], c);
    }
  }

  /** The columns and `c` are of one schema, and their table names have no dot. */
  predicate OnePlainSchema(es: seq<Column>, c: Column) {
    DotFree(c.tableName) && forall k | 0 <= k < |es| :: es[k].tableSchema == c.tableSchema && DotFree(es[k].tableName)
  }

  lemma PlainTablesTellColumns(e: Column, c: Column)
    requires e.tableSchema == c.tableSchema && DotFree(e.tableName) && DotFree(c.tableName)
    ensures FqColumn(e.tableSchema, e.tableName, e.columnName) == FqColumn(c.tableSchema, c.tableName, c.columnName) <==>
            SameColumn(e, c)
  {
    OneSchemaColumnsCoincide(c.tableSchema, e.tableName, e.columnName, c.tableName, c.columnName);
    DotFreeNeverShifts(e.tableName, e.columnName, c.tableName, c.columnName);
    DotFreeNeverShifts(c.tableName, c.columnName, e.tableName, e.columnName);
  }

  lemma {:induction false} OnePlainSchemaLastOwn(es: seq<Column>, c: Column)
    requires OnePlainSchema(es, c)
    ensures LastFull(es, c) == LastOwn(es, c)
    decreases |es|
  {
    if es != [] {
      hide FqColumn;
      var n := |es| - 1;
      PlainTablesTellColumns(es[n], c);
      OnePlainSchemaLastOwn(es[..n], c);
    }
  }

  /**
   So in one schema, whatever its name, where table names have no dot every description goes to its own column: to the
   edited one as given, to the drafted one trimmed.
   */
  lemma OnePlainSchemaTellsOwn(content: Content, c: Column, of: SchemaNormalize.Column)
    requires OnePlainSchema(AllColumns(content.tables), c) && Describes(c, of)
    ensures var es := AllColumns(content.tables);
            && EditedColumn(c, ColumnDescriptions(content.tables, false)) ==
               c.(description := Told(es, LastOwn(es, c), false, c.description))
            && FromSchema(of, ColumnDescriptions(content.tables, true)) == c.(description := Told(es, LastOwn(es, c), true, ""))
  {
    OnePlainSchemaLastOwn(AllColumns(content.tables), c);
    EditedByLastFull(content, c);
    DraftedByLastFull(content, of, c);
  }

  /**
   Within one schema it fails where table names have dots: column "c" of table "a.b" and column "b.c" of table "a" share
   a full name, so what is said of the one is told of the other, in a merge and in a draft.
   */
  lemma DottedTablesMixDescriptions(schema: string, a: string, b: string, c: string, base: Column, edited: Content, e: Column)
    requires base.tableSchema == schema && base.tableName == a + "." + b && base.columnName == c
    requires e.tableSchema == schema && e.tableName == a && e.columnName == b + "." + c
    requires AllColumns(edited.tables) == [e]
    ensures !SameColumn(e, base)
    ensures EditedColumn(base, ColumnDescriptions(edited.tables, false)).description == e.description
    ensures Lookup(ColumnDescriptions(edited.tables, true), FqColumn(schema, a + "." + b, c), "") == TrimSpace(e.description)
  {
    assert Shifts(a, b + "." + c, a + "." + b, c);
    OneSchemaColumnsCoincide(schema, a, b + "." + c, a + "." + b, c);
    assert |a + "." + b| > |a|;
    DescriptionsAreFlat(edited.tables, false);
    DescriptionsAreFlat(edited.tables, true);
    LastFullIsTold([e], base, false, base.description);
    LastFullIsTold([e], base, true, "");
  }
}
