/**
 * The SQLite database behind DatabaseTools, as far as its tools observe it:
 * the tables in creation order with their columns, foreign keys and rows, and
 * the engine's answer to an arbitrary statement as an oracle (`run`).
 *
 * The catalog queries issued by the tools are given their SQLite meaning here:
 * identifiers match case-insensitively (ASCII), ORDER BY name sorts by code
 * point (the BINARY collation), LIMIT n with a negative n returns every row,
 * COUNT(col) skips NULLs and DISTINCT keeps the first occurrence of each value.
 */
module Sqlite {
  import opened Wrappers
  import opened Strings

  newtype byte = x: int | 0 <= x < 256

  /** A stored value; REAL is not modelled. */
  datatype Value = Null | Integer(i: int) | Text(s: string) | Blob(bytes: seq<byte>)

  type Row = seq<Value>

  /** One row of PRAGMA table_info: name, declared type, the notnull flag and the primary-key position (0 when not part of it). */
  datatype Column = Column(name: string, declaredType: string, notNull: bool, pk: nat)

  /** One row of PRAGMA foreign_key_list: the referencing column, the referenced table, the referenced column (NULL when implicit). */
  datatype ForeignKey = ForeignKey(fromColumn: string, refTable: string, refColumn: Option<string>)

  datatype Table = Table(name: string, columns: seq<Column>, foreignKeys: seq<ForeignKey>, rows: seq<Row>)

  /** The cursor after execute + fetchall: the column names of cursor.description (None for statements without a result) and the rows. */
  datatype ResultSet = ResultSet(description: Option<seq<string>>, rows: seq<Row>)

  /** An sqlite3.Error: the exception's class name and str(e). */
  datatype DbError = DbError(kind: string, message: string)

  datatype Database = Database(tables: seq<Table>, run: string -> Result<ResultSet, DbError>)

  function Min(a: int, b: int): int {
    if a <= b then a else b
  }

  // ---------------------------------------------------------------------------
  // Name lookup

  /** SQLite compares identifiers case-insensitively for ASCII letters. */
  predicate SameName(a: string, b: string) {
    Lower(a) == Lower(b)
  }

  /** The table an identifier designates, if any. */
  function FindTable(tables: seq<Table>, name: string): (r: Option<Table>)
    ensures r.Some? <==> exists i :: 0 <= i < |tables| && SameName(tables[i].name, name)
    ensures r.Some? ==> r.value in tables && SameName(r.value.name, name)
  {
    if |tables| == 0 then None
    else if SameName(tables[0].name, name) then Some(tables[0])
    else FindTable(tables[1..], name)
  }

  /** The position of the column an identifier designates, if any. */
  function ColumnIndex(columns: seq<Column>, name: string): (r: Option<nat>)
    ensures r.Some? ==> r.value < |columns| && SameName(columns[r.value].name, name)
    ensures r.None? <==> forall j :: 0 <= j < |columns| ==> !SameName(columns[j].name, name)
  {
    if |columns| == 0 then None
    else if SameName(columns[0].name, name) then Some(0)
    else match ColumnIndex(columns[1..], name)
      case None => None
      case Some(j) => Some(j + 1)
  }

  // ---------------------------------------------------------------------------
  // LIMIT, DISTINCT, COUNT

  /** LIMIT n: the first n rows; a negative n imposes no limit. */
  function Limit<T>(s: seq<T>, n: int): (r: seq<T>)
    ensures r <= s
    ensures n < 0 ==> r == s
    ensures n >= 0 ==> |r| == Min(n, |s|)
  {
    if n < 0 || n >= |s| then s else s[..n]
  }

  /** The value in column i of a row (NULL for a short row). */
  function ValueAt(row: Row, i: nat): Value {
    if i < |row| then row[i] else Null
  }

  /** The values of column i, in row order. */
  function ColumnValues(rows: seq<Row>, i: nat): (r: seq<Value>)
    ensures |r| == |rows|
    ensures forall k :: 0 <= k < |rows| ==> r[k] == ValueAt(rows[k], i)
  {
    seq(|rows|, k requires 0 <= k < |rows| => ValueAt(rows[k], i))
  }

  /** The values that are not NULL, in order (what COUNT(col) counts). */
  function NonNull(vs: seq<Value>): (r: seq<Value>)
    ensures |r| == |vs| - multiset(vs)[Null]
    ensures multiset(r) == multiset(vs)[Null := 0]
    ensures forall v :: v in r <==> v in vs && v != Null
  {
    if |vs| == 0 then []
    else
      assert vs == [vs[0]] + vs[1..];
      if vs[0] == Null then NonNull(vs[1..])
      else [vs[0]] + NonNull(vs[1..])
  }

  predicate NoDuplicates<T(==)>(s: seq<T>) {
    forall i, j :: 0 <= i < j < |s| ==> s[i] != s[j]
  }

  /** Each value once, at its first occurrence (what SELECT DISTINCT returns). */
  function Distinct(vs: seq<Value>): (r: seq<Value>)
    ensures NoDuplicates(r)
    ensures forall v :: v in r <==> v in vs
    ensures |r| <= |vs|
  {
    if |vs| == 0 then []
    else
      var d := Distinct(vs[..|vs| - 1]);
      assert forall v :: v in vs <==> v in vs[..|vs| - 1] || v == vs[|vs| - 1];
      if vs[|vs| - 1] in d then d else d + [vs[|vs| - 1]]
  }

  // ---------------------------------------------------------------------------
  // ORDER BY name

  /** Code-point lexicographic order, a prefix first: SQLite's BINARY collation on UTF-8 text. */
  predicate LessEq(a: string, b: string) {
    |a| == 0 || (|b| > 0 && (a[0] < b[0] || (a[0] == b[0] && LessEq(a[1..], b[1..]))))
  }

  lemma {:induction false} LessEqTotal(a: string, b: string)
    ensures LessEq(a, b) || LessEq(b, a)
  {
    if |a| > 0 && |b| > 0 && a[0] == b[0] {
      LessEqTotal(a[1..], b[1..]);
    }
  }

  predicate Sorted(s: seq<string>) {
    forall i :: 0 <= i < |s| - 1 ==> LessEq(s[i], s[i + 1])
  }

  function Insert(x: string, s: seq<string>): (r: seq<string>)
    ensures multiset(r) == multiset(s) + multiset{x}
    ensures |r| == |s| + 1
    ensures r[0] == x || (|s| > 0 && r[0] == s[0])
    ensures Sorted(s) ==> Sorted(r)
  {
    if |s| == 0 then [x]
    else if LessEq(x, s[0]) then [x] + s
    else
      var rest := Insert(x, s[1..]);
      LessEqTotal(x, s[0]);
      assert s == [s[0]] + s[1..];
      [s[0]] + rest
  }

  function Sort(s: seq<string>): (r: seq<string>)
    ensures Sorted(r)
    ensures multiset(r) == multiset(s)
  {
    if |s| == 0 then []
    else
      assert s == [s[0]] + s[1..];
      Insert(s[0], Sort(s[1..]))
  }

  function Names(tables: seq<Table>): (r: seq<string>)
    ensures |r| == |tables|
    ensures forall i :: 0 <= i < |tables| ==> r[i] == tables[i].name
  {
    seq(|tables|, i requires 0 <= i < |tables| => tables[i].name)
  }

  /** SELECT name FROM sqlite_master WHERE type='table' ORDER BY name */
  function CatalogNames(db: Database): seq<string> {
    Sort(Names(db.tables))
  }
}
