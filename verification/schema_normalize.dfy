/** The normal form of an introspected schema, and the capture of schema versions by the hash of it. */
module SchemaNormalize {
  import opened Common

  datatype Table = Table(tableSchema: string, tableName: string, tableType: string, tableComment: string)

  datatype Column = Column(tableSchema: string, tableName: string, columnName: string, ordinalPosition: int, dataType: string,
                           columnType: string, isNullable: bool, hasDefault: bool, defaultValue: string, columnComment: string)

  datatype PrimaryKey = PrimaryKey(tableSchema: string, tableName: string, constraintName: string, columnName: string,
                                   ordinalPosition: int)

  datatype ForeignKey = ForeignKey(tableSchema: string, tableName: string, constraintName: string, columnName: string,
                                   ordinalPosition: int, referencedTableSchema: string, referencedTableName: string,
                                   referencedColumnName: string)

  datatype Blob = Blob(databaseName: string, tables: seq<Table>, columns: seq<Column>, primaryKeys: seq<PrimaryKey>,
                       foreignKeys: seq<ForeignKey>)

  // ----- the four comparators

  /** Strings in the order of their characters. */
  predicate StringLess(a: string, b: string) {
    b != "" && (a == "" || a[0] < b[0] || (a[0] == b[0] && StringLess(a[1..], b[1..])))
  }

  predicate TableLess(left: Table, right: Table) {
    if left.tableSchema != right.tableSchema then StringLess(left.tableSchema, right.tableSchema)
    else StringLess(left.tableName, right.tableName)
  }

  predicate ColumnLess(left: Column, right: Column) {
    if left.tableSchema != right.tableSchema then StringLess(left.tableSchema, right.tableSchema)
    else if left.tableName != right.tableName then StringLess(left.tableName, right.tableName)
    else left.ordinalPosition < right.ordinalPosition
  }

  predicate PrimaryKeyLess(left: PrimaryKey, right: PrimaryKey) {
    if left.tableSchema != right.tableSchema then StringLess(left.tableSchema, right.tableSchema)
    else if left.tableName != right.tableName then StringLess(left.tableName, right.tableName)
    else if left.constraintName != right.constraintName then StringLess(left.constraintName, right.constraintName)
    else left.ordinalPosition < right.ordinalPosition
  }

  predicate ForeignKeyLess(left: ForeignKey, right: ForeignKey) {
    if left.tableSchema != right.tableSchema then StringLess(left.tableSchema, right.tableSchema)
    else if left.tableName != right.tableName then StringLess(left.tableName, right.tableName)
    else if left.constraintName != right.constraintName then StringLess(left.constraintName, right.constraintName)
    else left.ordinalPosition < right.ordinalPosition
  }

  lemma {:induction false} StringLessTransitive(a: string, b: string, c: string)
    requires StringLess(a, b) && StringLess(b, c)
    ensures StringLess(a, c)
  {
    if a != "" && a[0] == b[0] == c[0] {
      StringLessTransitive(a[1..], b[1..], c[1..]);
    }
  }

  lemma {:induction false} StringLessTotal(a: string, b: string)
    ensures a != b ==> StringLess(a, b) || StringLess(b, a)
    ensures !(StringLess(a, b) && StringLess(b, a)) && !StringLess(a, a)
  {
    if a != "" {
      StringLessTotal(a[1..], if b != "" then b[1..] else "");
      if b != "" && a[0] == b[0] && a[1..] == b[1..] {
        assert a == [a[0]] + a[1..] && b == [b[0]] + b[1..];
      }
    }
  }

  /** What the comparators see of an element: two or three names and a position. */
  datatype SortKey = SortKey(schema: string, table: string, constraint: string, position: int)

  function TableKey(t: Table): SortKey { SortKey(t.tableSchema, t.tableName, "", 0) }

  function ColumnKey(c: Column): SortKey { SortKey(c.tableSchema, c.tableName, "", c.ordinalPosition) }

  function PrimaryKeyKey(k: PrimaryKey): SortKey { SortKey(k.tableSchema, k.tableName, k.constraintName, k.ordinalPosition) }

  function ForeignKeyKey(k: ForeignKey): SortKey { SortKey(k.tableSchema, k.tableName, k.constraintName, k.ordinalPosition) }

  /** A comparator is a strict total order on `key`: it tells any two elements with different keys apart, one way. */
  ghost predicate Orders<T(!new)>(less: (T, T) -> bool, key: T -> SortKey) {
    && (forall a, b :: less(a, b) ==> !less(b, a))
    && (forall a, b, c :: less(a, b) && less(b, c) ==> less(a, c))
    && (forall a, b :: key(a) != key(b) <==> less(a, b) || less(b, a))
  }

  predicate KeyLess(a: SortKey, b: SortKey) {
    if a.schema != b.schema then StringLess(a.schema, b.schema)
    else if a.table != b.table then StringLess(a.table, b.table)
    else if a.constraint != b.constraint then StringLess(a.constraint, b.constraint)
    else a.position < b.position
  }

  lemma KeyLessTotal(a: SortKey, b: SortKey)
    ensures KeyLess(a, b) ==> !KeyLess(b, a)
    ensures a != b <==> KeyLess(a, b) || KeyLess(b, a)
  {
    StringLessTotal(a.schema, b.schema);
    StringLessTotal(a.table, b.table);
    StringLessTotal(a.constraint, b.constraint);
  }

  lemma KeyLessTransitive(a: SortKey, b: SortKey, c: SortKey)
    requires KeyLess(a, b) && KeyLess(b, c)
    ensures KeyLess(a, c)
  {
    if a.schema != b.schema && b.schema != c.schema {
      StringLessTransitive(a.schema, b.schema, c.schema);
      StringLessTotal(a.schema, a.schema);
      StringLessTotal(a.schema, c.schema);
    } else if a.schema == c.schema {
      if a.table != b.table && b.table != c.table {
        StringLessTransitive(a.table, b.table, c.table);
        StringLessTotal(a.table, c.table);
      } else if a.table == c.table && a.constraint != b.constraint && b.constraint != c.constraint {
        StringLessTransitive(a.constraint, b.constraint, c.constraint);
        StringLessTotal(a.constraint, c.constraint);
      }
    }
  }

  lemma OrdersByKey<T(!new)>(less: (T, T) -> bool, key: T -> SortKey)
    requires forall a, b :: less(a, b) == KeyLess(key(a), key(b))
    ensures Orders(less, key)
  {
    forall a, b
      ensures less(a, b) ==> !less(b, a)
      ensures key(a) != key(b) <==> less(a, b) || less(b, a)
    {
      KeyLessTotal(key(a), key(b));
    }
    forall a, b, c | less(a, b) && less(b, c)
      ensures less(a, c)
    {
      KeyLessTransitive(key(a), key(b), key(c));
    }
  }

  /** Each comparator is a strict total order on distinct keys. */
  lemma ComparatorsOrder()
    ensures Orders(TableLess, TableKey) && Orders(ColumnLess, ColumnKey)
    ensures Orders(PrimaryKeyLess, PrimaryKeyKey) && Orders(ForeignKeyLess, ForeignKeyKey)
  {
    hide StringLess;
    forall a, b
      ensures TableLess(a, b) == KeyLess(TableKey(a), TableKey(b))
    {
      StringLessTotal(a.tableName, b.tableName);
    }
    OrdersByKey(TableLess, TableKey);
    OrdersByKey(ColumnLess, ColumnKey);
    OrdersByKey(PrimaryKeyLess, PrimaryKeyKey);
    OrdersByKey(ForeignKeyLess, ForeignKeyKey);
  }

  // ----- sorting

  /** Elements of the same key are the same; a row may be repeated. */
  ghost predicate KeysTell<T(!new)>(s: seq<T>, key: T -> SortKey) { forall x, y | x in s && y in s && key(x) == key(y) :: x == y }

  ghost predicate Sorted<T>(less: (T, T) -> bool, s: seq<T>) { forall i, j | 0 <= i < j < |s| :: !less(s[j], s[i]) }

  /** What any sort, stable or not, promises: the same elements, none before one that it should follow. */
  ghost predicate Sorts<T>(less: (T, T) -> bool, s: seq<T>, t: seq<T>) {
    multiset(t) == multiset(s) && Sorted(less, t)
  }

  lemma SameMembers<T>(s: seq<T>, t: seq<T>)
    requires multiset(s) == multiset(t)
    ensures |s| == |t| && forall x :: x in s <==> x in t
  {
    assert |s| == |multiset(s)| && |t| == |multiset(t)|;
    forall x
      ensures x in s <==> x in t
    {
      assert x in s <==> x in multiset(s);
      assert x in t <==> x in multiset(t);
    }
  }

  lemma TailLosesFirst<T>(s: seq<T>)
    requires s != []
    ensures multiset(s[1..]) == multiset(s) - multiset{s[0]}
  {
    assert s == [s[0]] + s[1..];
    assert multiset(s) == multiset{s[0]} + multiset(s[1..]);
  }

  /** Two sorts of the same elements come to the same sequence, if elements of the same key are the same. */
  lemma {:induction false} SortIsCanonical<T(!new)>(less: (T, T) -> bool, key: T -> SortKey, s: seq<T>, t: seq<T>)
    requires Orders(less, key) && KeysTell(s, key) && multiset(s) == multiset(t)
    requires Sorted(less, s) && Sorted(less, t)
    ensures s == t
    decreases |s|
  {
    hide Orders;
    SameMembers(s, t);
    if s != [] {
      FirstIsSame(less, key, s, t);
      assert s == [s[0]] + s[1..] && t == [t[0]] + t[1..];
      TailLosesFirst(s);
      TailLosesFirst(t);
      SortIsCanonical(less, key, s[1..], t[1..]);
    }
  }

  lemma FirstIsLeast<T(!new)>(less: (T, T) -> bool, key: T -> SortKey, s: seq<T>, x: T)
    requires Orders(less, key) && x in s && Sorted(less, s)
    ensures key(x) == key(s[0]) || less(s[0], x)
  {
    var i :| 0 <= i < |s| && s[i] == x;
    assert i > 0 ==> !less(s[i], s[0]);
  }

  lemma FirstIsSame<T(!new)>(less: (T, T) -> bool, key: T -> SortKey, s: seq<T>, t: seq<T>)
    requires Orders(less, key) && KeysTell(s, key) && s != [] && t != [] && forall x :: x in s <==> x in t
    requires Sorted(less, s) && Sorted(less, t)
    ensures s[0] == t[0]
  {
    FirstIsLeast(less, key, s, t[0]);
    FirstIsLeast(less, key, t, s[0]);
  }

  /** `x` put in its place among sorted elements, behind those it does not precede. */
  function Inserted<T>(less: (T, T) -> bool, x: T, s: seq<T>): seq<T> {
    if s == [] || !less(x, s[|s| - 1]) then s + [x] else Inserted(less, x, s[..|s| - 1]) + [s[|s| - 1]]
  }

  lemma NotLessTransitive<T(!new)>(less: (T, T) -> bool, key: T -> SortKey, a: T, b: T, c: T)
    requires Orders(less, key) && !less(a, b) && !less(b, c)
    ensures !less(a, c)
  {
    assert key(a) != key(b) ==> less(b, a);
    assert key(b) != key(c) ==> less(c, b);
    assert key(a) == key(c) ==> !less(a, c);
  }

  lemma AppendSorts<T(!new)>(less: (T, T) -> bool, s: seq<T>, last: T)
    requires Sorted(less, s) && forall x | x in s :: !less(last, x)
    ensures Sorted(less, s + [last])
  {
  }

  lemma LastIsGreatest<T(!new)>(less: (T, T) -> bool, key: T -> SortKey, s: seq<T>, x: T)
    requires Orders(less, key) && Sorted(less, s) && s != [] && !less(x, s[|s| - 1])
    ensures forall y | y in s :: !less(x, y)
  {
    var last := s[|s| - 1];
    forall y | y in s
      ensures !less(x, y)
    {
      var i :| 0 <= i < |s| && s[i] == y;
      if i < |s| - 1 {
        NotLessTransitive(less, key, x, last, y);
      }
    }
  }

  lemma {:induction false} InsertSorts<T(!new)>(less: (T, T) -> bool, key: T -> SortKey, x: T, s: seq<T>)
    requires Orders(less, key) && Sorted(less, s)
    ensures multiset(Inserted(less, x, s)) == multiset(s) + multiset{x}
    ensures Sorted(less, Inserted(less, x, s))
    decreases |s|
  {
    if s == [] {
    } else if !less(x, s[|s| - 1]) {
      LastIsGreatest(less, key, s, x);
      AppendSorts(less, s, x);
    } else {
      var n := |s| - 1;
      var before := Inserted(less, x, s[..n]);
      InsertSorts(less, key, x, s[..n]);
      assert s == s[..n] + [s[n]];
      assert multiset(s) == multiset(s[..n]) + multiset{s[n]};
      forall y | y in before
        ensures !less(s[n], y)
      {
        assert y in multiset(before);
        assert y == x || y in multiset(s[..n]);
      }
      AppendSorts(less, before, s[n]);
    }
  }

  function Resorted<T>(less: (T, T) -> bool, s: seq<T>): seq<T> {
    if s == [] then [] else Inserted(less, s[|s| - 1], Resorted(less, s[..|s| - 1]))
  }

  lemma LastCounts<T>(s: seq<T>)
    requires s != []
    ensures multiset(s) == multiset(s[..|s| - 1]) + multiset{s[|s| - 1]}
  {
    assert s == s[..|s| - 1] + [s[|s| - 1]];
  }

  lemma {:induction false} ResortedSorts<T(!new)>(less: (T, T) -> bool, key: T -> SortKey, s: seq<T>)
    requires Orders(less, key)
    ensures Sorts(less, s, Resorted(less, s))
    decreases |s|
  {
    if s == [] {
    } else {
      hide Orders, Sorted, Inserted;
      var n := |s| - 1;
      ResortedSorts(less, key, s[..n]);
      InsertSorts(less, key, s[n], Resorted(less, s[..n]));
      LastCounts(s);
    }
  }

  lemma SameKeySameOrder<T(!new)>(less: (T, T) -> bool, key: T -> SortKey, a: T, a': T, b: T, b': T)
    requires Orders(less, key) && key(a) == key(a') && key(b) == key(b') && less(a, b)
    ensures less(a', b')
  {
    assert !less(a, a') && !less(a', a) && !less(b, b') && !less(b', b);
    assert less(a', b) || less(b, a');
    assert less(a', b);
    assert less(a', b') || less(b', a');
  }

  lemma SwapPermutes<T>(t: seq<T>, i: nat, j: nat)
    requires i < |t| && j < |t|
    ensures multiset(t[i := t[j]][j := t[i]]) == multiset(t)
  {
  }

  /** Swapping two elements of the same key in a sorted sequence leaves it sorted. */
  lemma SwapSorts<T(!new)>(less: (T, T) -> bool, key: T -> SortKey, t: seq<T>, i: nat, j: nat)
    requires Orders(less, key) && Sorted(less, t) && i < |t| && j < |t| && key(t[i]) == key(t[j])
    ensures Sorted(less, t[i := t[j]][j := t[i]])
  {
    var u := t[i := t[j]][j := t[i]];
    forall p, q | 0 <= p < q < |u|
      ensures !less(u[q], u[p])
    {
      if less(u[q], u[p]) {
        SameKeySameOrder(less, key, u[q], t[q], u[p], t[p]);
      }
    }
  }

  /** Every two sorts of a list agree. */
  ghost predicate OneSort<T(!new)>(less: (T, T) -> bool, s: seq<T>) {
    forall t: seq<T>, u: seq<T> | Sorts(less, s, t) && Sorts(less, s, u) :: t == u
  }

  /** All sorts of a list agree, stable or not, exactly if its elements of the same key are the same. */
  lemma OneSortExactly<T(!new)>(less: (T, T) -> bool, key: T -> SortKey, s: seq<T>)
    requires Orders(less, key)
    ensures OneSort(less, s) <==> KeysTell(s, key)
  {
    if KeysTell(s, key) {
      forall t: seq<T>, u: seq<T> | Sorts(less, s, t) && Sorts(less, s, u)
        ensures t == u
      {
        SameMembers(s, t);
        SortIsCanonical(less, key, t, u);
      }
    } else {
      var x, y :| x in s && y in s && key(x) == key(y) && x != y;
      TwoSorts(less, key, s, x, y);
    }
  }

  lemma TwoSorts<T(!new)>(less: (T, T) -> bool, key: T -> SortKey, s: seq<T>, x: T, y: T)
    requires Orders(less, key) && x in s && y in s && key(x) == key(y) && x != y
    ensures !OneSort(less, s)
  {
    hide Orders, Sorted;
    var t := Resorted(less, s);
    ResortedSorts(less, key, s);
    SameMembers(s, t);
    var i: nat :| i < |t| && t[i] == x;
    var j: nat :| j < |t| && t[j] == y;
    var u := t[i := t[j]][j := t[i]];
    SwapSorts(less, key, t, i, j);
    SwapPermutes(t, i, j);
    assert u[j] == x && t[j] == y;
    assert Sorts(less, s, t) && Sorts(less, s, u);
  }

  /** A sort of a cloned slice; only what it promises counts, not how it does it. */
  method SortSlice<T(!new)>(less: (T, T) -> bool, ghost key: T -> SortKey, s: seq<T>) returns (t: seq<T>)
    requires Orders(less, key)
    ensures Sorts(less, s, t)
  {
    t := [];
    var i := 0;
    while i < |s|
      invariant 0 <= i <= |s|
      invariant multiset(t) == multiset(s[..i])
      invariant Sorted(less, t)
    {
      assert s[..i + 1] == s[..i] + [s[i]];
      InsertSorts(less, key, s[i], t);
      t := Inserted(less, s[i], t);
      i := i + 1;
    }
    assert s[..i] == s;
  }

  // ----- normalisation

  ghost predicate Normalizes(b: Blob, n: Blob) {
    && n.databaseName == b.databaseName
    && Sorts(TableLess, b.tables, n.tables) && Sorts(ColumnLess, b.columns, n.columns)
    && Sorts(PrimaryKeyLess, b.primaryKeys, n.primaryKeys) && Sorts(ForeignKeyLess, b.foreignKeys, n.foreignKeys)
  }

  method NormalizeSchemaBlob(b: Blob) returns (n: Blob)
    ensures Normalizes(b, n)
  {
    ComparatorsOrder();
    n := b;
    var tables := SortSlice(TableLess, TableKey, b.tables);
    n := n.(tables := tables);
    var columns := SortSlice(ColumnLess, ColumnKey, b.columns);
    n := n.(columns := columns);
    var primaryKeys := SortSlice(PrimaryKeyLess, PrimaryKeyKey, b.primaryKeys);
    n := n.(primaryKeys := primaryKeys);
    var foreignKeys := SortSlice(ForeignKeyLess, ForeignKeyKey, b.foreignKeys);
    n := n.(foreignKeys := foreignKeys);
  }

  /** In each list, rows of the same key are the same row. */
  ghost predicate KeysTellRows(b: Blob) {
    && KeysTell(b.tables, TableKey) && KeysTell(b.columns, ColumnKey)
    && KeysTell(b.primaryKeys, PrimaryKeyKey) && KeysTell(b.foreignKeys, ForeignKeyKey)
  }

  /** The same schema, listed in another order. */
  ghost predicate Reordered(a: Blob, b: Blob) {
    && a.databaseName == b.databaseName
    && multiset(a.tables) == multiset(b.tables) && multiset(a.columns) == multiset(b.columns)
    && multiset(a.primaryKeys) == multiset(b.primaryKeys) && multiset(a.foreignKeys) == multiset(b.foreignKeys)
  }

  lemma SortsAgree<T(!new)>(less: (T, T) -> bool, key: T -> SortKey, a: seq<T>, b: seq<T>, s: seq<T>, t: seq<T>)
    requires Orders(less, key) && KeysTell(a, key) && multiset(a) == multiset(b) && Sorts(less, a, s) && Sorts(less, b, t)
    ensures s == t
  {
    hide Orders, KeysTell;
    OneSortExactly(less, key, a);
    assert Sorts(less, a, t);
  }

  /** A schema whose rows are told by their keys has one normal form, however it is listed and whatever the sort. */
  lemma NormalFormIsCanonical(a: Blob, b: Blob, m: Blob, n: Blob)
    requires KeysTellRows(a) && Reordered(a, b) && Normalizes(a, m) && Normalizes(b, n)
    ensures m == n
  {
    hide Orders, KeysTell, Sorts;
    ComparatorsOrder();
    SortsAgree(TableLess, TableKey, a.tables, b.tables, m.tables, n.tables);
    SortsAgree(ColumnLess, ColumnKey, a.columns, b.columns, m.columns, n.columns);
    SortsAgree(PrimaryKeyLess, PrimaryKeyKey, a.primaryKeys, b.primaryKeys, m.primaryKeys, n.primaryKeys);
    SortsAgree(ForeignKeyLess, ForeignKeyKey, a.foreignKeys, b.foreignKeys, m.foreignKeys, n.foreignKeys);
  }

  /** Every two normal forms of a schema agree. */
  ghost predicate OneNormalForm(b: Blob) { forall m, n | Normalizes(b, m) && Normalizes(b, n) :: m == n }

  lemma NormalFormsExist(b: Blob) returns (n: Blob)
    ensures Normalizes(b, n)
  {
    ComparatorsOrder();
    ResortedSorts(TableLess, TableKey, b.tables);
    ResortedSorts(ColumnLess, ColumnKey, b.columns);
    ResortedSorts(PrimaryKeyLess, PrimaryKeyKey, b.primaryKeys);
    ResortedSorts(ForeignKeyLess, ForeignKeyKey, b.foreignKeys);
    n := Blob(b.databaseName, Resorted(TableLess, b.tables), Resorted(ColumnLess, b.columns),
              Resorted(PrimaryKeyLess, b.primaryKeys), Resorted(ForeignKeyLess, b.foreignKeys));
  }

  /** If some list of a schema has two sorts, the schema has two normal forms. */
  lemma TwoSortsTwoForms(b: Blob)
    requires OneNormalForm(b)
    ensures OneSort(TableLess, b.tables) && OneSort(ColumnLess, b.columns)
    ensures OneSort(PrimaryKeyLess, b.primaryKeys) && OneSort(ForeignKeyLess, b.foreignKeys)
  {
    hide Sorts;
    var n := NormalFormsExist(b);
    forall t, u | Sorts(TableLess, b.tables, t) && Sorts(TableLess, b.tables, u)
      ensures t == u
    {
      assert Normalizes(b, n.(tables := t)) && Normalizes(b, n.(tables := u));
      assert n.(tables := t).tables == n.(tables := u).tables;
    }
    forall t, u | Sorts(ColumnLess, b.columns, t) && Sorts(ColumnLess, b.columns, u)
      ensures t == u
    {
      assert Normalizes(b, n.(columns := t)) && Normalizes(b, n.(columns := u));
      assert n.(columns := t).columns == n.(columns := u).columns;
    }
    forall t, u | Sorts(PrimaryKeyLess, b.primaryKeys, t) && Sorts(PrimaryKeyLess, b.primaryKeys, u)
      ensures t == u
    {
      assert Normalizes(b, n.(primaryKeys := t)) && Normalizes(b, n.(primaryKeys := u));
      assert n.(primaryKeys := t).primaryKeys == n.(primaryKeys := u).primaryKeys;
    }
    forall t, u | Sorts(ForeignKeyLess, b.foreignKeys, t) && Sorts(ForeignKeyLess, b.foreignKeys, u)
      ensures t == u
    {
      assert Normalizes(b, n.(foreignKeys := t)) && Normalizes(b, n.(foreignKeys := u));
      assert n.(foreignKeys := t).foreignKeys == n.(foreignKeys := u).foreignKeys;
    }
  }

  lemma ReorderedReflexive(b: Blob)
    ensures Reordered(b, b)
  {
  }

  /** A schema has one normal form, whatever the sort, exactly if in each of its four lists rows of the same key are the same row. */
  lemma OneNormalFormExactly(b: Blob)
    ensures OneNormalForm(b) <==> KeysTellRows(b)
  {
    hide Orders, KeysTell, OneSort, Normalizes;
    ComparatorsOrder();
    OneSortExactly(TableLess, TableKey, b.tables);
    OneSortExactly(ColumnLess, ColumnKey, b.columns);
    OneSortExactly(PrimaryKeyLess, PrimaryKeyKey, b.primaryKeys);
    OneSortExactly(ForeignKeyLess, ForeignKeyKey, b.foreignKeys);
    ReorderedReflexive(b);
    if KeysTellRows(b) {
      forall m, n | Normalizes(b, m) && Normalizes(b, n)
        ensures m == n
      {
        NormalFormIsCanonical(b, b, m, n);
      }
    }
    if OneNormalForm(b) {
      TwoSortsTwoForms(b);
    }
  }

  lemma NormalizedIsReordered(b: Blob, n: Blob)
    requires Normalizes(b, n)
    ensures Reordered(b, n)
  {
  }

  /** Normalising is a permutation, and normalising again changes nothing. */
  lemma NormalizingIsIdempotent(b: Blob, n: Blob, again: Blob)
    requires KeysTellRows(b) && Normalizes(b, n) && Normalizes(n, again)
    ensures Reordered(b, n) && again == n
  {
    NormalizedIsReordered(b, n);
    NormalFormIsCanonical(b, n, n, again);
  }

  // ----- the order of the lists, spelled out

  /** Strings are compared at the first place where they differ; a string comes before those it begins. */
  lemma {:induction false} StringLessExactly(common: string, a: string, b: string)
    requires a == "" || b == "" || a[0] != b[0]
    ensures StringLess(common + a, common + b) <==> b != "" && (a == "" || a[0] < b[0])
    decreases |common|
  {
    if common == "" {
      assert common + a == a && common + b == b;
    } else {
      assert (common + a)[1..] == common[1..] + a && (common + b)[1..] == common[1..] + b;
      StringLessExactly(common[1..], a, b);
    }
  }

  /** Neither string comes after the other's place: `a` is before `b`, or they are the same. */
  predicate UpTo(a: string, b: string) { a == b || StringLess(a, b) }

  lemma NotLessIsUpTo(a: string, b: string)
    ensures !StringLess(b, a) <==> UpTo(a, b)
  {
    StringLessTotal(a, b);
  }

  /** In a normal form tables are in the order of schema and name, columns within a table in the order of their position. */
  lemma NormalFormIsOrdered(b: Blob, n: Blob, i: nat, j: nat)
    requires Normalizes(b, n) && i < j
    ensures j < |n.tables| ==>
              var x, y := n.tables[i], n.tables[j];
              UpTo(x.tableSchema, y.tableSchema) && (x.tableSchema == y.tableSchema ==> UpTo(x.tableName, y.tableName))
    ensures j < |n.columns| ==>
              var x, y := n.columns[i], n.columns[j];
              && UpTo(x.tableSchema, y.tableSchema) && (x.tableSchema == y.tableSchema ==> UpTo(x.tableName, y.tableName))
              && (x.tableSchema == y.tableSchema && x.tableName == y.tableName ==> x.ordinalPosition <= y.ordinalPosition)
  {
    hide StringLess;
    if j < |n.tables| {
      NotLessIsUpTo(n.tables[i].tableSchema, n.tables[j].tableSchema);
      NotLessIsUpTo(n.tables[i].tableName, n.tables[j].tableName);
      StringLessTotal(n.tables[i].tableSchema, n.tables[j].tableSchema);
    }
    if j < |n.columns| {
      NotLessIsUpTo(n.columns[i].tableSchema, n.columns[j].tableSchema);
      NotLessIsUpTo(n.columns[i].tableName, n.columns[j].tableName);
      StringLessTotal(n.columns[i].tableSchema, n.columns[j].tableSchema);
      StringLessTotal(n.columns[i].tableName, n.columns[j].tableName);
    }
  }

  /** Keys are in the order of schema, table, constraint and position. */
  lemma KeysAreOrdered(b: Blob, n: Blob, i: nat, j: nat)
    requires Normalizes(b, n) && i < j
    ensures j < |n.primaryKeys| ==>
              var x, y := n.primaryKeys[i], n.primaryKeys[j];
              && UpTo(x.tableSchema, y.tableSchema) && (x.tableSchema == y.tableSchema ==> UpTo(x.tableName, y.tableName))
              && (x.tableSchema == y.tableSchema && x.tableName == y.tableName ==>
                    && UpTo(x.constraintName, y.constraintName)
                    && (x.constraintName == y.constraintName ==> x.ordinalPosition <= y.ordinalPosition))
    ensures j < |n.foreignKeys| ==>
              var x, y := n.foreignKeys[i], n.foreignKeys[j];
              && UpTo(x.tableSchema, y.tableSchema) && (x.tableSchema == y.tableSchema ==> UpTo(x.tableName, y.tableName))
              && (x.tableSchema == y.tableSchema && x.tableName == y.tableName ==>
                    && UpTo(x.constraintName, y.constraintName)
                    && (x.constraintName == y.constraintName ==> x.ordinalPosition <= y.ordinalPosition))
  {
    hide StringLess;
    if j < |n.primaryKeys| {
      var x, y := n.primaryKeys[i], n.primaryKeys[j];
      NotLessIsUpTo(x.tableSchema, y.tableSchema);
      NotLessIsUpTo(x.tableName, y.tableName);
      NotLessIsUpTo(x.constraintName, y.constraintName);
    }
    if j < |n.foreignKeys| {
      var x, y := n.foreignKeys[i], n.foreignKeys[j];
      NotLessIsUpTo(x.tableSchema, y.tableSchema);
      NotLessIsUpTo(x.tableName, y.tableName);
      NotLessIsUpTo(x.constraintName, y.constraintName);
    }
  }

  // ----- capture

  datatype Version = Version(id: Uuid, capturedAt: Instant, schemaHash: string, blob: Blob, createdAt: Instant)

  datatype Introspected = Introspected(completedAt: Option<Instant>, schema: Blob, databaseName: string, error: string)

  datatype CaptureError = NotReached | IntrospectionFailed | StoreFailed

  datatype CaptureResult = CaptureResult(versionID: Uuid, changed: bool, capturedAt: Instant, schemaHash: string, databaseName: string,
                                         tableCount: nat, columnCount: nat, foreignKeyCount: nat)

  /** The blob with the database name it is stored under: its own, or the one the agent reports. */
  function Named(b: Blob, databaseName: string): Blob { if b.databaseName == "" then b.(databaseName := databaseName) else b }

  /** `latest` is a version of the latest capture, and among those of the latest creation. */
  ghost predicate Latest(versions: seq<Version>, latest: Version) {
    && latest in versions
    && forall v | v in versions ::
         v.capturedAt < latest.capturedAt || (v.capturedAt == latest.capturedAt && v.createdAt <= latest.createdAt)
  }

  class SchemaController {
    var schemas: map<Uuid, seq<Version>>

    function Versions(tenantID: Uuid): seq<Version>
      reads this
    {
      if tenantID in schemas then schemas[tenantID] else []
    }

    constructor ()
      ensures schemas == map[]
    {
      schemas := map[];
    }

    method LatestByTenant(tenantID: Uuid) returns (latest: Option<Version>)
      ensures latest == None <==> Versions(tenantID) == []
      ensures latest.Some? ==> Latest(Versions(tenantID), latest.value)
    {
      var versions := Versions(tenantID);
      if versions == [] {
        return None;
      }
      var best, i := versions[0], 1;
      while i < |versions|
        invariant 1 <= i <= |versions|
        invariant Latest(versions[..i], best)
      {
        assert versions[..i + 1] == versions[..i] + [versions[i]];
        var v := versions[i];
        if v.capturedAt > best.capturedAt || (v.capturedAt == best.capturedAt && v.createdAt > best.createdAt) {
          best := v;
        }
        i := i + 1;
      }
      assert versions[..i] == versions;
      return Some(best);
    }

    /**
     Captures a schema: a version is added unless the latest one has the same hash.  `hash` stands for the encoding
     and hashing of a blob, `id` and `createdAt` for what the store makes up, `readable` and `up` for whether it answers.
     */
    method Capture(tenantID: Uuid, result: Option<Introspected>, hash: Blob -> string, id: Uuid, createdAt: Instant, now: Instant,
                   readable: bool, up: bool)
      returns (c: Option<CaptureResult>, err: Option<CaptureError>, ghost normal: Blob, ghost latest: Option<Version>)
      modifies this
      ensures c.Some? <==> err == None
      ensures err.Some? ==> schemas == old(schemas)
      ensures result == None ==> err == Some(NotReached)
      ensures result.Some? && result.value.error != "" ==> err == Some(IntrospectionFailed)
      ensures result.Some? && result.value.error == "" ==>
                (err == None || err == Some(StoreFailed)) && (readable && up ==> err == None)
      ensures c.Some? ==>
                && (latest == None <==> old(Versions(tenantID)) == [])
                && (latest.Some? ==> Latest(old(Versions(tenantID)), latest.value))
      ensures c.Some? ==>
                && result.Some? && result.value.error == "" && Normalizes(result.value.schema, normal)
                && var n := Named(normal, result.value.databaseName);
                   && c.value.schemaHash == hash(n) && c.value.databaseName == n.databaseName
                   && n.databaseName == (if result.value.schema.databaseName != "" then result.value.schema.databaseName
                                         else result.value.databaseName)
                   && c.value.tableCount == |result.value.schema.tables| && c.value.columnCount == |result.value.schema.columns|
                   && c.value.foreignKeyCount == |result.value.schema.foreignKeys|
                   && (c.value.changed <==> latest == None || latest.value.schemaHash != hash(n))
                   && (!c.value.changed ==> schemas == old(schemas) && c.value.versionID == latest.value.id
                                            && c.value.capturedAt == latest.value.capturedAt)
                   && (c.value.changed ==>
                         var at := if result.value.completedAt.Some? then result.value.completedAt.value else now;
                         && c.value.versionID == id && c.value.capturedAt == at
                         && schemas == old(schemas)[tenantID := old(Versions(tenantID)) + [Version(id, at, hash(n), n, createdAt)]])
    {
      normal, latest := Blob("", [], [], [], []), None;
      if result == None {
        return None, Some(NotReached), normal, latest;
      }
      if result.value.error != "" {
        return None, Some(IntrospectionFailed), normal, latest;
      }
      var normalized := NormalizeSchemaBlob(result.value.schema);
      normal := normalized;
      NormalHasSameSizes(result.value.schema, normalized);
      if normalized.databaseName == "" {
        normalized := normalized.(databaseName := result.value.databaseName);
      }
      var schemaHash := hash(normalized);
      if !readable {
        return None, Some(StoreFailed), normal, latest;
      }
      var last := LatestByTenant(tenantID);
      latest := last;
      var counted := CaptureResult(0, false, 0, schemaHash, normalized.databaseName, |normalized.tables|,
                                             |normalized.columns|, |normalized.foreignKeys|);
      if last.Some? && last.value.schemaHash == schemaHash {
        return Some(counted.(versionID := last.value.id, capturedAt := last.value.capturedAt)), None, normal, latest;
      }
      var capturedAt := now;
      if result.value.completedAt.Some? {
        capturedAt := result.value.completedAt.value;
      }
      if !up {
        return None, Some(StoreFailed), normal, latest;
      }
      schemas := schemas[tenantID := Versions(tenantID) + [Version(id, capturedAt, schemaHash, normalized, createdAt)]];
      return Some(counted.(versionID := id, changed := true, capturedAt := capturedAt)), None, normal, latest;
    }
  }

  lemma NormalHasSameSizes(b: Blob, n: Blob)
    requires Normalizes(b, n)
    ensures |n.tables| == |b.tables| && |n.columns| == |b.columns| && |n.foreignKeys| == |b.foreignKeys|
  {
    SameMembers(b.tables, n.tables);
    SameMembers(b.columns, n.columns);
    SameMembers(b.foreignKeys, n.foreignKeys);
  }

  /**
   A capture that differs from the one the latest version was made from only in the order of its lists, and in which
   of the two database names it carries the same one, adds no version: its hash is the latest one's.
   */
  lemma ReorderedCaptureHasSameHash(hash: Blob -> string, a: Blob, nameA: string, normalA: Blob,
                                    b: Blob, nameB: string, normalB: Blob)
    requires KeysTellRows(a) && Normalizes(a, normalA) && Normalizes(b, normalB)
    requires Reordered(Named(a, nameA), Named(b, nameB))
    ensures Named(normalA, nameA) == Named(normalB, nameB)
    ensures hash(Named(normalA, nameA)) == hash(Named(normalB, nameB))
  {
    var x, y := Named(a, nameA), Named(b, nameB);
    NormalFormIsCanonical(x, y, Named(normalA, nameA), Named(normalB, nameB));
  }

  /** No two versions were captured and created at the very same time. */
  ghost predicate Untied(versions: seq<Version>) {
    forall v, w | v in versions && w in versions && v.capturedAt == w.capturedAt && v.createdAt == w.createdAt :: v == w
  }

  /** `v` was captured before the given time, or at it and created before. */
  predicate Older(v: Version, capturedAt: Instant, createdAt: Instant) {
    v.capturedAt < capturedAt || (v.capturedAt == capturedAt && v.createdAt < createdAt)
  }

  lemma LatestIsUnique(versions: seq<Version>, v: Version, w: Version)
    requires Untied(versions) && Latest(versions, v) && Latest(versions, w)
    ensures v == w
  {
  }

  lemma OnlyLatest(versions: seq<Version>, latest: Option<Version>, schemaHash: string)
    requires Untied(versions) && (latest == None ==> versions == []) && (latest.Some? ==> Latest(versions, latest.value))
    ensures (latest == None || latest.value.schemaHash != schemaHash) <==>
            forall v | Latest(versions, v) :: v.schemaHash != schemaHash
  {
    forall v | Latest(versions, v)
      ensures latest == Some(v)
    {
      LatestIsUnique(versions, v, latest.value);
    }
  }

  /** A version added is the latest one exactly if all others are older; else the latest one stays. */
  lemma LatestAfterAdding(versions: seq<Version>, newest: Version, latest: Version)
    requires Untied(versions + [newest]) && newest !in versions && Latest(versions + [newest], latest)
    ensures latest == newest <==> forall v | v in versions :: Older(v, newest.capturedAt, newest.createdAt)
    ensures latest != newest ==> Latest(versions, latest)
  {
    assert newest in versions + [newest];
    assert forall v | v in versions :: v in versions + [newest];
  }

  /** Which version the capture after an adding one finds: the added one exactly if all others are older. */
  lemma LatestHashAfterAdding(versions: seq<Version>, newest: Version, was: Option<Version>, latest: Version)
    requires Untied(versions) && forall v | v in versions :: v.createdAt != newest.createdAt
    requires was == None ==> versions == []
    requires was.Some? ==> Latest(versions, was.value) && was.value.schemaHash != newest.schemaHash
    requires Latest(versions + [newest], latest)
    ensures latest.schemaHash == newest.schemaHash <==>
            forall v | v in versions :: Older(v, newest.capturedAt, newest.createdAt)
    ensures latest.schemaHash == newest.schemaHash ==> latest == newest
  {
    LatestAfterAdding(versions, newest, latest);
    if latest != newest {
      LatestIsUnique(versions, was.value, latest);
    }
  }

  /**
   A schema captured, and then captured again in another order, with no change in between.  The second capture adds no
   version exactly if the first added none, or the version the first one left is the latest: all others are older, by
   the agent's own clock and then by time of creation.
   */
  method CaptureTwice(c: SchemaController, tenantID: Uuid, first: Introspected, second: Introspected, hash: Blob -> string,
                      id: Uuid, createdAt: Instant, id': Uuid, createdAt': Instant, now: Instant)
    returns (a: CaptureResult, b: CaptureResult, ghost normal: Blob)
    requires first.error == "" && second.error == ""
    requires KeysTellRows(first.schema)
    requires Reordered(Named(first.schema, first.databaseName), Named(second.schema, second.databaseName))
    requires Untied(c.Versions(tenantID)) && forall v | v in c.Versions(tenantID) :: v.createdAt != createdAt
    modifies c
    ensures Normalizes(first.schema, normal) && a.schemaHash == b.schemaHash == hash(Named(normal, first.databaseName))
    ensures a.changed <==> forall v | Latest(old(c.Versions(tenantID)), v) :: v.schemaHash != a.schemaHash
    ensures a.changed ==> a.capturedAt == if first.completedAt.Some? then first.completedAt.value else now
    ensures !b.changed <==> !a.changed || forall v | v in old(c.Versions(tenantID)) :: Older(v, a.capturedAt, createdAt)
    ensures !b.changed ==> b.versionID == a.versionID
    ensures |c.Versions(tenantID)| ==
            |old(c.Versions(tenantID))| + (if a.changed then 1 else 0) + (if b.changed then 1 else 0)
  {
    hide Normalizes, Latest, Untied, KeysTellRows, Reordered, Older, Named;
    ghost var before := c.Versions(tenantID);
    var ra, ea;
    ghost var normalA, latestA;
    ra, ea, normalA, latestA := c.Capture(tenantID, Some(first), hash, id, createdAt, now, true, true);
    a := ra.value;
    normal := normalA;
    assert a.changed <==> forall v | Latest(before, v) :: v.schemaHash != a.schemaHash by {
      OnlyLatest(before, latestA, a.schemaHash);
    }
    ghost var between := c.Versions(tenantID);
    var rb, eb;
    ghost var normalB, latestB;
    rb, eb, normalB, latestB := c.Capture(tenantID, Some(second), hash, id', createdAt', now, true, true);
    b := rb.value;
    ReorderedCaptureHasSameHash(hash, first.schema, first.databaseName, normalA, second.schema, second.databaseName, normalB);
    if a.changed {
      ghost var newest := Version(id, a.capturedAt, a.schemaHash, Named(normalA, first.databaseName), createdAt);
      assert between == before + [newest];
      LatestHashAfterAdding(before, newest, latestA, latestB.value);
    } else {
      assert between == before;
      LatestIsUnique(before, latestA.value, latestB.value);
    }
  }

  /**
   It fails for an agent whose clock is behind: with a version of another schema stored as captured later, the same
   schema captured twice is stored twice.
   */
  method SlowClockStoresTwice(c: SchemaController, tenantID: Uuid, stored: Version, s: Introspected, hash: Blob -> string,
                              id: Uuid, createdAt: Instant, id': Uuid, createdAt': Instant, now: Instant)
    returns (a: CaptureResult, b: CaptureResult)
    requires s.error == "" && s.completedAt.Some? && KeysTellRows(s.schema)
    requires c.Versions(tenantID) == [stored] && s.completedAt.value < stored.capturedAt && createdAt != stored.createdAt
    requires forall n | Normalizes(s.schema, n) :: hash(Named(n, s.databaseName)) != stored.schemaHash
    modifies c
    ensures a.changed && b.changed && a.schemaHash == b.schemaHash && |c.Versions(tenantID)| == 3
  {
    ReorderedReflexive(Named(s.schema, s.databaseName));
    assert stored in [stored];
    ghost var normal;
    a, b, normal := CaptureTwice(c, tenantID, s, s, hash, id, createdAt, id', createdAt', now);
  }
}
