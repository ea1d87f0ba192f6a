/** The builders of the four dialects, on top of the standard builder. */
module Dialects {
  import opened Common
  import opened Sql
  import opened SqlAst
  import opened QueryBuilder
  import opened ConflictTargets
  import opened Whitespace

  /** Errors of the upsert builders: all-key column lists are refused before formatting. */
  function UpsertOr(f: Formatter, table: string, columns: seq<ColumnInfo>, q: Query): Built {
    if !HasNonKey(columns) then Fail(NoNonKeyColumn) else BuiltOr(f, table, columns, q)
  }

  /** Kept columns are columns, so their names are accepted once all names are: after the first
    * list of all columns, the error checks of the later lists never fire.
    */
  lemma {:induction false} SomeBad(f: Formatter, columns: seq<ColumnInfo>, keep: Keep)
    requires FirstBad(f, columns, AllColumns).None?
    ensures FirstBad(f, columns, keep).None?
    decreases |columns|
  {
    if columns != [] { SomeBad(f, columns[..|columns| - 1], keep); }
  }

  lemma {:induction false} NonKeyPositions(columns: seq<ColumnInfo>)
    requires HasNonKey(columns)
    ensures Positions(columns, NonKeyColumns) != []
    decreases |columns|
  {
    var n := |columns| - 1;
    if columns[n].primaryKey {
      var i :| 0 <= i < |columns| && !columns[i].primaryKey;
      assert !columns[..n][i].primaryKey;
      NonKeyPositions(columns[..n]);
    }
  }

  // ---------- PostgreSQL ----------

  function PgUpsertQuery(table: string, columns: seq<ColumnInfo>): Query {
    UpsertPg(table, NamesOf(columns), PhRow(0, |columns|), NamesAt(columns, KeyColumns), Indexed(columns, NonKeyColumns))
  }

  method PgUpsert(f: Formatter, table: string, columns: seq<ColumnInfo>) returns (r: Built)
    ensures r == UpsertOr(f, table, columns, PgUpsertQuery(table, columns))
  {
    var hasNonPK := FindNonKey(columns);
    if !hasNonPK { return Fail(NoNonKeyColumn); }
    var q :- QueryBuilder.Insert(f, table, columns);
    SomeBad(f, columns, KeyColumns);
    SomeBad(f, columns, NonKeyColumns);
    ItemsAre(columns, KeyColumns, 0);
    ItemsAre(columns, NonKeyColumns, 0);
    var target := WriteList(f, columns, KeyColumns, Name, ",");
    var sets := WriteList(f, columns, NonKeyColumns, SetIndexed, ",");
    q := q + [Raw(" ON CONFLICT (")] + target.value + [Raw(") DO UPDATE SET")] + sets.value;
    return Ok(q);
  }

  /** The conflict target goes into the text as the caller wrote it, but for outer parentheses. */
  method PgInsertUnique(f: Formatter, table: string, columns: seq<ColumnInfo>, conflictTarget: string) returns (r: Built)
    ensures r == BuiltOr(f, table, columns, IgnorePg(table, NamesOf(columns), PhRow(0, |columns|), Stripped(conflictTarget)))
  {
    var q :- QueryBuilder.Insert(f, table, columns);
    var target := conflictTarget;
    if "(" <= target && target != "" && target[|target| - 1] == ')' {
      target := target[1..|target| - 1];
    }
    return Ok(q + [Raw(" ON CONFLICT ("), Raw(target), Raw(") DO NOTHING")]);
  }

  // ---------- MySQL ----------

  function MyUpsertQuery(table: string, columns: seq<ColumnInfo>): Query {
    UpsertMy(table, NamesOf(columns), PhRow(0, |columns|), SamePairs(columns, NonKeyColumns))
  }

  method MyUpsert(f: Formatter, table: string, columns: seq<ColumnInfo>) returns (r: Built)
    ensures r == UpsertOr(f, table, columns, MyUpsertQuery(table, columns))
  {
    var hasNonPK := FindNonKey(columns);
    if !hasNonPK { return Fail(NoNonKeyColumn); }
    var q :- QueryBuilder.Insert(f, table, columns);
    SomeBad(f, columns, NonKeyColumns);
    ItemsAre(columns, NonKeyColumns, 0);
    var sets := WriteList(f, columns, NonKeyColumns, SetToValues, ",");
    q := q + [Raw(" ON DUPLICATE KEY UPDATE")] + sets.value;
    return Ok(q);
  }

  /** Only the first conflict column is used. */
  method MyInsertUnique(f: Formatter, table: string, columns: seq<ColumnInfo>, conflictTarget: string) returns (r: Built)
    ensures r == (var col := TargetNames(conflictTarget)[0];
                  var b := BuiltOr(f, table, columns, IgnoreMy(table, NamesOf(columns), PhRow(0, |columns|), col));
                  if b.Ok? && !f.columnOk(col) then Fail(BadColumn(col)) else b)
  {
    var q :- QueryBuilder.Insert(f, table, columns);
    var conflictCols := Split(conflictTarget, ',');
    var col := TrimSpace(conflictCols[0]);
    if !f.columnOk(col) { return Fail(BadColumn(col)); }
    return Ok(q + [Raw(" ON DUPLICATE KEY UPDATE "), Col(col), Raw(" = "), Col(col)]);
  }

  /** copy(dst[at:], src) */
  method CopyAt(dst: array<Value>, at: nat, src: seq<Value>)
    requires at + |src| <= dst.Length
    modifies dst
    ensures dst[..] == old(dst[..at]) + src + old(dst[at + |src|..])
  {
    for i := 0 to |src|
      invariant dst[..] == old(dst[..at]) + src[..i] + old(dst[at + i..])
    {
      dst[at + i] := src[i];
    }
  }

  /** The Update override of MySQL and Oracle: the values move in front of the where arguments. */
  method UpdateInOrder(f: Formatter, table: string, columns: seq<ColumnInfo>, vals: seq<Value>, cond: seq<Token>, whereArgs: seq<Value>)
    returns (r: Built, queryArgs: seq<Value>)
    ensures r == if !f.tableOk(table) then Fail(BadTable(table))
                 else if FirstBad(f, columns, AllColumns).Some? then Fail(BadColumn(FirstBad(f, columns, AllColumns).value))
                 else Ok(UpdateText(table, columns, |whereArgs|, cond))
    ensures queryArgs == if r.Ok? then vals + whereArgs else []
  {
    r, queryArgs := QueryBuilder.Update(f, table, columns, vals, cond, whereArgs);
    if r.Fail? { return; }
    var nWhere := |whereArgs|;
    if nWhere > 0 && nWhere < |queryArgs| {
      var reordered := new Value[|queryArgs|](_ => Null);
      CopyAt(reordered, 0, queryArgs[nWhere..]);
      CopyAt(reordered, |queryArgs| - nWhere, queryArgs[..nWhere]);
      queryArgs := reordered[..];
    }
  }

  // ---------- SQL Server and Oracle ----------

  function MergePairs(columns: seq<ColumnInfo>, withUpdate: bool): seq<Pair> {
    if withUpdate then SamePairs(columns, NonKeyColumns) else []
  }

  function MsMergeQuery(table: string, columns: seq<ColumnInfo>, conflictCols: seq<string>, withUpdate: bool): Query {
    MergeMs(table, PhRow(0, |columns|), NamesOf(columns), SamePairs(Named(conflictCols), AllColumns),
            MergePairs(columns, withUpdate), NamesOf(columns), NamesOf(columns))
  }

  function OraMergeQuery(table: string, columns: seq<ColumnInfo>, conflictCols: seq<string>, withUpdate: bool): Query {
    MergeOra(table, Indexed(columns, AllColumns), SamePairs(Named(conflictCols), AllColumns),
             MergePairs(columns, withUpdate), NamesOf(columns), NamesOf(columns))
  }

  /** Formatting errors of a merge: table, columns, conflict columns. */
  function MergeOr(f: Formatter, table: string, columns: seq<ColumnInfo>, conflictCols: seq<string>, q: Query): Built {
    if !f.tableOk(table) then Fail(BadTable(table))
    else
      var bad := FirstBad(f, columns, AllColumns);
      var badKey := FirstBad(f, Named(conflictCols), AllColumns);
      if bad.Some? then Fail(BadColumn(bad.value))
      else if badKey.Some? then Fail(BadColumn(badKey.value))
      else Ok(Text(q))
  }

  /** WHEN MATCHED ... WHEN NOT MATCHED ..., the same in both builders. */
  method WriteMergeTail(f: Formatter, columns: seq<ColumnInfo>, withUpdate: bool) returns (q: seq<Token>)
    requires FirstBad(f, columns, AllColumns).None? && (withUpdate ==> HasNonKey(columns))
    ensures q == MergeTail(MergePairs(columns, withUpdate), NamesOf(columns), NamesOf(columns))
  {
    AllPositions(columns);
    ItemsAre(columns, AllColumns, 0);
    q := [];
    if withUpdate {
      SomeBad(f, columns, NonKeyColumns);
      NonKeyPositions(columns);
      ItemsAre(columns, NonKeyColumns, 0);
      var sets := WriteList(f, columns, NonKeyColumns, MergeSet, ",");
      q := [Raw(" WHEN MATCHED THEN UPDATE SET")] + sets.value;
    }
    q := q + [Raw(" WHEN NOT MATCHED THEN INSERT (")];
    var into := WriteList(f, columns, AllColumns, Name, ",");
    q := q + into.value + [Raw(") VALUES (")];
    var from := WriteList(f, columns, AllColumns, FromSource, ",");
    q := q + from.value + [Raw(")")];
  }

  method MsBuildMerge(f: Formatter, table: string, columns: seq<ColumnInfo>, conflictCols: seq<string>, withUpdate: bool) returns (r: Built)
    requires withUpdate ==> HasNonKey(columns)
    ensures r == MergeOr(f, table, columns, conflictCols, MsMergeQuery(table, columns, conflictCols, withUpdate))
  {
    if !f.tableOk(table) { return Fail(BadTable(table)); }
    AllPositions(columns);
    ItemsAre(columns, AllColumns, 0);
    ItemsAre(Named(conflictCols), AllColumns, 0);
    var q := [Raw("MERGE INTO "), Table(table), Raw(" WITH (HOLDLOCK) AS target USING (VALUES(")];
    var placeholders := WritePlaceholders(0, |columns|);
    q := q + placeholders + [Raw(")) AS source(")];
    var names :- WriteList(f, columns, AllColumns, Name, ",");
    q := q + names + [Raw(") ON ")];
    var on :- WriteList(f, Named(conflictCols), AllColumns, MergeOn, " AND ");
    q := q + on;
    var tail := WriteMergeTail(f, columns, withUpdate);
    hide *;
    r := Ok(q + tail + [Raw(";")]);
    MsMergeText(table, columns, conflictCols, withUpdate);
    MergeSucceeds(f, table, columns, conflictCols, MsMergeQuery(table, columns, conflictCols, withUpdate));
  }

  lemma MsMergeText(table: string, columns: seq<ColumnInfo>, conflictCols: seq<string>, withUpdate: bool)
    ensures Text(MsMergeQuery(table, columns, conflictCols, withUpdate))
            == [Raw("MERGE INTO "), Table(table), Raw(" WITH (HOLDLOCK) AS target USING (VALUES(")]
               + Sep(Slots(PhRow(0, |columns|)), [Raw(",")]) + [Raw(")) AS source(")]
               + Sep(Names(NamesOf(columns)), [Raw(",")]) + [Raw(") ON ")]
               + Sep(MergeOns(SamePairs(Named(conflictCols), AllColumns)), [Raw(" AND ")])
               + MergeTail(MergePairs(columns, withUpdate), NamesOf(columns), NamesOf(columns)) + [Raw(";")]
  {
    hide Sep, MergeTail, SamePairs, MergePairs;
  }

  lemma MergeSucceeds(f: Formatter, table: string, columns: seq<ColumnInfo>, conflictCols: seq<string>, q: Query)
    requires f.tableOk(table) && FirstBad(f, columns, AllColumns).None? && FirstBad(f, Named(conflictCols), AllColumns).None?
    ensures MergeOr(f, table, columns, conflictCols, q) == Ok(Text(q))
  {
    hide Text;
  }

  method OraBuildMerge(f: Formatter, table: string, columns: seq<ColumnInfo>, conflictCols: seq<string>, withUpdate: bool) returns (r: Built)
    requires withUpdate ==> HasNonKey(columns)
    ensures r == MergeOr(f, table, columns, conflictCols, OraMergeQuery(table, columns, conflictCols, withUpdate))
  {
    if !f.tableOk(table) { return Fail(BadTable(table)); }
    AllPositions(columns);
    ItemsAre(columns, AllColumns, 0);
    ItemsAre(Named(conflictCols), AllColumns, 0);
    var q := [Raw("MERGE INTO "), Table(table), Raw(" target USING (SELECT ")];
    var source :- WriteList(f, columns, AllColumns, Alias, ", ");
    q := q + source + [Raw(" FROM DUAL) source ON (")];
    var on :- WriteList(f, Named(conflictCols), AllColumns, MergeOn, " AND ");
    q := q + on + [Raw(")")];
    var tail := WriteMergeTail(f, columns, withUpdate);
    hide *;
    r := Ok(q + tail);
    OraMergeText(table, columns, conflictCols, withUpdate);
    MergeSucceeds(f, table, columns, conflictCols, OraMergeQuery(table, columns, conflictCols, withUpdate));
  }

  lemma OraMergeText(table: string, columns: seq<ColumnInfo>, conflictCols: seq<string>, withUpdate: bool)
    ensures Text(OraMergeQuery(table, columns, conflictCols, withUpdate))
            == [Raw("MERGE INTO "), Table(table), Raw(" target USING (SELECT ")]
               + Sep(Aliases(Indexed(columns, AllColumns)), [Raw(", ")]) + [Raw(" FROM DUAL) source ON (")]
               + Sep(MergeOns(SamePairs(Named(conflictCols), AllColumns)), [Raw(" AND ")]) + [Raw(")")]
               + MergeTail(MergePairs(columns, withUpdate), NamesOf(columns), NamesOf(columns))
  {
    hide Sep, MergeTail, SamePairs, MergePairs, Indexed;
  }

  /** The key column names collected by the upsert builders of SQL Server and Oracle. */
  method CollectKeys(columns: seq<ColumnInfo>) returns (pkCols: seq<string>)
    ensures pkCols == NamesAt(columns, KeyColumns)
  {
    pkCols := [];
    for i := 0 to |columns|
      invariant pkCols == NamesAt(columns[..i], KeyColumns)
    {
      assert columns[..i + 1][..i] == columns[..i];
      if columns[i].primaryKey {
        pkCols := pkCols + [columns[i].name];
      }
      assert pkCols == NamesAt(columns[..i + 1], KeyColumns);
    }
    assert columns[..|columns|] == columns;
  }

  method MsUpsert(f: Formatter, table: string, columns: seq<ColumnInfo>) returns (r: Built)
    ensures r == UpsertOr(f, table, columns, MsMergeQuery(table, columns, NamesAt(columns, KeyColumns), true))
  {
    var hasNonPK := FindNonKey(columns);
    if !hasNonPK { return Fail(NoNonKeyColumn); }
    var pkCols := CollectKeys(columns);
    r := MsBuildMerge(f, table, columns, pkCols, true);
    KeyNamesOk(f, columns);
    hide Text;
  }

  method OraUpsert(f: Formatter, table: string, columns: seq<ColumnInfo>) returns (r: Built)
    ensures r == UpsertOr(f, table, columns, OraMergeQuery(table, columns, NamesAt(columns, KeyColumns), true))
  {
    var hasNonPK := FindNonKey(columns);
    if !hasNonPK { return Fail(NoNonKeyColumn); }
    var pkCols := CollectKeys(columns);
    r := OraBuildMerge(f, table, columns, pkCols, true);
    KeyNamesOk(f, columns);
    hide Text;
  }

  lemma KeyNamesOk(f: Formatter, columns: seq<ColumnInfo>)
    ensures FirstBad(f, columns, AllColumns).None? ==> FirstBad(f, Named(NamesAt(columns, KeyColumns)), AllColumns).None?
  {
    if FirstBad(f, columns, AllColumns).None? {
      forall i | 0 <= i < |columns| ensures f.columnOk(columns[i].name) { AllNamesOk(f, columns, i); }
      NoneBad(f, Named(NamesAt(columns, KeyColumns)));
    }
  }

  lemma {:induction false} AllNamesOk(f: Formatter, columns: seq<ColumnInfo>, i: nat)
    requires i < |columns| && FirstBad(f, columns, AllColumns).None?
    ensures f.columnOk(columns[i].name)
    decreases |columns|
  {
    if i < |columns| - 1 { AllNamesOk(f, columns[..|columns| - 1], i); }
  }

  lemma {:induction false} NoneBad(f: Formatter, columns: seq<ColumnInfo>)
    requires forall i :: 0 <= i < |columns| ==> f.columnOk(columns[i].name)
    ensures FirstBad(f, columns, AllColumns).None?
    decreases |columns|
  {
    if columns != [] { NoneBad(f, columns[..|columns| - 1]); }
  }

  method MsInsertUnique(f: Formatter, table: string, columns: seq<ColumnInfo>, conflictTarget: string) returns (r: Built)
    ensures r == MergeOr(f, table, columns, TargetNames(conflictTarget), MsMergeQuery(table, columns, TargetNames(conflictTarget), false))
  {
    var conflictCols := SplitTarget(conflictTarget);
    r := MsBuildMerge(f, table, columns, conflictCols, false);
  }

  method OraInsertUnique(f: Formatter, table: string, columns: seq<ColumnInfo>, conflictTarget: string) returns (r: Built)
    ensures r == MergeOr(f, table, columns, TargetNames(conflictTarget), OraMergeQuery(table, columns, TargetNames(conflictTarget), false))
  {
    var conflictCols := SplitTarget(conflictTarget);
    r := OraBuildMerge(f, table, columns, conflictCols, false);
  }
}
