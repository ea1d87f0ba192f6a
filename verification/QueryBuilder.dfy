/** The standard query builder: text built piece by piece in loops. */
module QueryBuilder {
  import opened Common
  import opened Sql
  import opened SqlAst

  datatype ColumnInfo = ColumnInfo(name: string, primaryKey: bool, readOnly: bool)

  datatype BuildError = BadTable(name: string) | BadColumn(name: string) | NoNonKeyColumn | NoColumns | BadRowCount(n: int)

  /** A query formatter: which names it accepts, and how many arguments its driver takes. */
  datatype Formatter = Formatter(tableOk: string -> bool, columnOk: string -> bool, maxArgs: int)

  type Built = Result<seq<Token>, BuildError>

  // ---------- lists of columns ----------

  datatype Keep = AllColumns | KeyColumns | NonKeyColumns

  predicate Kept(keep: Keep, c: ColumnInfo) {
    match keep
    case AllColumns => true
    case KeyColumns => c.primaryKey
    case NonKeyColumns => !c.primaryKey
  }

  /** Indices of the kept columns, in order. */
  function Positions(columns: seq<ColumnInfo>, keep: Keep): (p: seq<nat>)
    ensures |p| <= |columns|
    ensures forall k :: 0 <= k < |p| ==> p[k] < |columns| && Kept(keep, columns[p[k]])
  {
    if columns == [] then []
    else
      var n := |columns| - 1;
      var front := Positions(columns[..n], keep);
      assert forall k :: 0 <= k < |front| ==> columns[..n][front[k]] == columns[front[k]];
      if Kept(keep, columns[n]) then front + [n] else front
  }

  /** The forms in which the builders write a column; index is its position in the column list,
    * count the number of columns the loop has written before it.
    */
  datatype Style =
    | Name | FromSource | SetCounted(base: nat) | SetIndexed | Condition(base: nat)
    | SetToValues | MergeSet | MergeOn | Alias

  function Item(style: Style, name: string, index: nat, count: nat): seq<Token> {
    match style
    case Name => [Col(name)]
    case FromSource => [Raw("source."), Col(name)]
    case SetCounted(base) => [Raw(" "), Col(name), Raw("="), Ph(base + count)]
    case SetIndexed => [Raw(" "), Col(name), Raw("="), Ph(index)]
    case Condition(base) => [Col(name), Raw(" = "), Ph(base + count)]
    case SetToValues => [Raw(" "), Col(name), Raw("=VALUES("), Col(name), Raw(")")]
    case MergeSet => [Raw(" target."), Col(name), Raw(" = source."), Col(name)]
    case MergeOn => [Raw("target."), Col(name), Raw(" = source."), Col(name)]
    case Alias => [Ph(index), Raw(" AS "), Col(name)]
  }

  function Items(columns: seq<ColumnInfo>, keep: Keep, style: Style): (items: seq<seq<Token>>)
    ensures |items| == |Positions(columns, keep)|
  {
    var p := Positions(columns, keep);
    seq(|p|, k requires 0 <= k < |p| => Item(style, columns[p[k]].name, p[k], k))
  }

  /** The first kept column whose name the formatter rejects. */
  function FirstBad(f: Formatter, columns: seq<ColumnInfo>, keep: Keep): Option<string> {
    if columns == [] then None
    else
      var n := |columns| - 1;
      var front := FirstBad(f, columns[..n], keep);
      if front.Some? then front
      else if Kept(keep, columns[n]) && !f.columnOk(columns[n].name) then Some(columns[n].name)
      else None
  }

  /** The name is that of the first kept column that the formatter rejects, and there is none if it accepts them all. */
  lemma {:induction false} FirstBadIs(f: Formatter, columns: seq<ColumnInfo>, keep: Keep)
    ensures FirstBad(f, columns, keep).None? ==>
              forall i :: 0 <= i < |columns| && Kept(keep, columns[i]) ==> f.columnOk(columns[i].name)
    ensures FirstBad(f, columns, keep).Some? ==>
              exists i :: 0 <= i < |columns| && RejectedFirst(f, columns, keep, i) && columns[i].name == FirstBad(f, columns, keep).value
    decreases |columns|
  {
    if columns != [] {
      var n := |columns| - 1;
      FirstBadIs(f, columns[..n], keep);
      if FirstBad(f, columns[..n], keep).Some? {
        var i :| 0 <= i < n && RejectedFirst(f, columns[..n], keep, i) && columns[..n][i].name == FirstBad(f, columns[..n], keep).value;
        assert RejectedFirst(f, columns, keep, i);
      } else {
        assert forall i :: 0 <= i < n ==> columns[..n][i] == columns[i];
        if Kept(keep, columns[n]) && !f.columnOk(columns[n].name) { assert RejectedFirst(f, columns, keep, n); }
      }
    }
  }

  predicate RejectedFirst(f: Formatter, columns: seq<ColumnInfo>, keep: Keep, i: nat)
    requires i < |columns|
  {
    && Kept(keep, columns[i]) && !f.columnOk(columns[i].name)
    && forall j :: 0 <= j < i && Kept(keep, columns[j]) ==> f.columnOk(columns[j].name)
  }

  lemma {:induction false} FirstBadStays(f: Formatter, columns: seq<ColumnInfo>, keep: Keep, i: nat)
    requires i <= |columns| && FirstBad(f, columns[..i], keep).Some?
    ensures FirstBad(f, columns, keep) == FirstBad(f, columns[..i], keep)
    decreases |columns|
  {
    if i < |columns| {
      var n := |columns| - 1;
      assert columns[..n][..i] == columns[..i];
      FirstBadStays(f, columns[..n], keep, i);
    } else {
      assert columns[..i] == columns;
    }
  }

  function Listed(f: Formatter, columns: seq<ColumnInfo>, keep: Keep, style: Style, sep: string): Built {
    var bad := FirstBad(f, columns, keep);
    if bad.Some? then Fail(BadColumn(bad.value)) else Ok(Sep(Items(columns, keep, style), [Raw(sep)]))
  }

  /** One more column: what the loop body has to append. */
  lemma FirstBadGrows(f: Formatter, columns: seq<ColumnInfo>, keep: Keep, i: nat)
    requires i < |columns|
    ensures FirstBad(f, columns[..i], keep).None? ==>
      FirstBad(f, columns[..i + 1], keep)
      == if Kept(keep, columns[i]) && !f.columnOk(columns[i].name) then Some(columns[i].name) else None
  {
    assert columns[..i + 1][..i] == columns[..i];
  }

  lemma ItemsGrow(columns: seq<ColumnInfo>, keep: Keep, style: Style, i: nat)
    requires i < |columns|
    ensures
      var front := Items(columns[..i], keep, style);
      Items(columns[..i + 1], keep, style)
      == if Kept(keep, columns[i]) then front + [Item(style, columns[i].name, i, |front|)] else front
  {
    hide Item, Kept;
    assert columns[..i + 1][..i] == columns[..i];
    var front, all := Items(columns[..i], keep, style), Items(columns[..i + 1], keep, style);
    if Kept(keep, columns[i]) {
      assert all[..|all| - 1] == front;
    } else {
      assert all == front;
    }
  }

  lemma SepGrows(front: seq<seq<Token>>, item: seq<Token>, sep: seq<Token>)
    ensures Sep(front + [item], sep) == Sep(front, sep) + (if |front| == 0 then [] else sep) + item
  {
    assert (front + [item])[..|front|] == front;
  }

  lemma ListGrows(columns: seq<ColumnInfo>, keep: Keep, style: Style, sep: string, i: nat)
    requires i < |columns|
    ensures
      var count := |Positions(columns[..i], keep)|;
      var before := Sep(Items(columns[..i], keep, style), [Raw(sep)]);
      var after := Sep(Items(columns[..i + 1], keep, style), [Raw(sep)]);
      && |Positions(columns[..i + 1], keep)| == (if Kept(keep, columns[i]) then count + 1 else count)
      && after == (if !Kept(keep, columns[i]) then before
                   else before + (if count == 0 then [] else [Raw(sep)]) + Item(style, columns[i].name, i, count))
  {
    hide Item, Kept, Positions, Sep;
    ItemsGrow(columns, keep, style, i);
    var front := Items(columns[..i], keep, style);
    SepGrows(front, Item(style, columns[i].name, i, |front|), [Raw(sep)]);
    assert |front| == |Positions(columns[..i], keep)|;
    assert |Items(columns[..i + 1], keep, style)| == |Positions(columns[..i + 1], keep)|;
  }

  /** The loop that all builders share: a separator before every kept column but the first. */
  method WriteList(f: Formatter, columns: seq<ColumnInfo>, keep: Keep, style: Style, sep: string) returns (r: Built)
    ensures r == Listed(f, columns, keep, style, sep)
  {
    hide Item, Kept, FirstBad;
    var q := [];
    var first := true;
    var count := 0;
    assert FirstBad(f, columns[..0], keep).None? by { FirstBadNone(f, keep); }
    for i := 0 to |columns|
      invariant FirstBad(f, columns[..i], keep).None?
      invariant count == |Positions(columns[..i], keep)| && (first <==> count == 0)
      invariant q == Sep(Items(columns[..i], keep, style), [Raw(sep)])
    {
      hide Sep, Items, Positions;
      ListGrows(columns, keep, style, sep, i);
      FirstBadGrows(f, columns, keep, i);
      if !Kept(keep, columns[i]) {
        continue;
      }
      if first {
        first := false;
      } else {
        q := q + [Raw(sep)];
      }
      if !f.columnOk(columns[i].name) {
        FirstBadStays(f, columns, keep, i + 1);
        return Fail(BadColumn(columns[i].name));
      }
      q := q + Item(style, columns[i].name, i, count);
      count := count + 1;
    }
    assert columns[..|columns|] == columns;
    return Ok(q);
  }

  lemma FirstBadNone(f: Formatter, keep: Keep)
    ensures FirstBad(f, [], keep) == None
  {
  }

  /** n placeholders numbered from `from`, separated by commas. */
  method WritePlaceholders(from: nat, n: nat) returns (q: seq<Token>)
    ensures q == Sep(Slots(PhRow(from, n)), [Raw(",")])
  {
    q := [];
    for i := 0 to n
      invariant q == Sep(Slots(PhRow(from, i)), [Raw(",")])
    {
      if i > 0 { q := q + [Raw(",")]; }
      q := q + [Ph(from + i)];
      ghost var items := Slots(PhRow(from, i + 1));
      assert items[..i] == Slots(PhRow(from, i)) && items[i] == [Ph(from + i)];
    }
  }

  function PhRow(from: nat, n: nat): seq<Token> { seq(n, i requires 0 <= i < n => Ph(from + i)) }

  function NamesOf(columns: seq<ColumnInfo>): seq<string> {
    seq(|columns|, i requires 0 <= i < |columns| => columns[i].name)
  }

  function NamesAt(columns: seq<ColumnInfo>, keep: Keep): seq<string> {
    var p := Positions(columns, keep);
    seq(|p|, k requires 0 <= k < |p| => columns[p[k]].name)
  }

  /** Kept columns with placeholders counted from base. */
  function Counted(columns: seq<ColumnInfo>, keep: Keep, base: nat): seq<Assign> {
    var p := Positions(columns, keep);
    seq(|p|, k requires 0 <= k < |p| => Assign(columns[p[k]].name, Ph(base + k)))
  }

  /** Kept columns with the placeholder numbered like the column's position. */
  function Indexed(columns: seq<ColumnInfo>, keep: Keep): seq<Assign> {
    var p := Positions(columns, keep);
    seq(|p|, k requires 0 <= k < |p| => Assign(columns[p[k]].name, Ph(p[k])))
  }

  function SamePairs(columns: seq<ColumnInfo>, keep: Keep): seq<Pair> {
    var p := Positions(columns, keep);
    seq(|p|, k requires 0 <= k < |p| => Pair(columns[p[k]].name, columns[p[k]].name))
  }

  lemma {:induction false} AllPositions(columns: seq<ColumnInfo>)
    ensures Positions(columns, AllColumns) == Range(0, |columns|)
    ensures NamesAt(columns, AllColumns) == NamesOf(columns)
    decreases |columns|
  {
    if columns != [] { AllPositions(columns[..|columns| - 1]); }
    assert Positions(columns, AllColumns) == Range(0, |columns|);
  }

  /** The written items are the items of the corresponding statement lists. */
  lemma ItemsAre(columns: seq<ColumnInfo>, keep: Keep, base: nat)
    ensures Items(columns, keep, Name) == Names(NamesAt(columns, keep))
    ensures Items(columns, keep, FromSource) == SourceNames(NamesAt(columns, keep))
    ensures Items(columns, keep, SetCounted(base)) == Sets(Counted(columns, keep, base))
    ensures Items(columns, keep, SetIndexed) == Sets(Indexed(columns, keep))
    ensures Items(columns, keep, Condition(base)) == Conds(Counted(columns, keep, base))
    ensures Items(columns, keep, SetToValues) == ValuesSets(SamePairs(columns, keep))
    ensures Items(columns, keep, MergeSet) == MergeSets(SamePairs(columns, keep))
    ensures Items(columns, keep, MergeOn) == MergeOns(SamePairs(columns, keep))
    ensures Items(columns, keep, Alias) == Aliases(Indexed(columns, keep))
  {
  }

  predicate HasNonKey(columns: seq<ColumnInfo>) { exists i :: 0 <= i < |columns| && !columns[i].primaryKey }

  /** The scan for a non-key column at the start of the update and upsert builders. */
  method FindNonKey(columns: seq<ColumnInfo>) returns (hasNonPK: bool)
    ensures hasNonPK == HasNonKey(columns)
  {
    hasNonPK := false;
    for i := 0 to |columns|
      invariant !hasNonPK && forall j :: 0 <= j < i ==> columns[j].primaryKey
    {
      if !columns[i].primaryKey {
        return true;
      }
    }
  }

  // ---------- the builder ----------

  function InsertQuery(table: string, columns: seq<ColumnInfo>): Query {
    Query.Insert(table, NamesOf(columns), [PhRow(0, |columns|)])
  }

  /** The error of a builder that formats the table name first and then every column, else q. */
  function BuiltOr(f: Formatter, table: string, columns: seq<ColumnInfo>, q: Query): Built {
    if !f.tableOk(table) then Fail(BadTable(table))
    else
      var bad := FirstBad(f, columns, AllColumns);
      if bad.Some? then Fail(BadColumn(bad.value)) else Ok(Text(q))
  }

  /** The common start of the insert builders. */
  method WriteInsertHead(f: Formatter, table: string, columns: seq<ColumnInfo>) returns (r: Built)
    ensures r == if !f.tableOk(table) then Fail(BadTable(table))
                 else
                   var bad := FirstBad(f, columns, AllColumns);
                   if bad.Some? then Fail(BadColumn(bad.value)) else Ok(InsertHead(table, NamesOf(columns)))
  {
    if !f.tableOk(table) { return Fail(BadTable(table)); }
    var q := [Raw("INSERT INTO "), Table(table), Raw("(")];
    AllPositions(columns);
    ItemsAre(columns, AllColumns, 0);
    var names :- WriteList(f, columns, AllColumns, Name, ",");
    return Ok(q + names + [Raw(") VALUES")]);
  }

  method Insert(f: Formatter, table: string, columns: seq<ColumnInfo>) returns (r: Built)
    ensures r == BuiltOr(f, table, columns, InsertQuery(table, columns))
  {
    var q :- WriteInsertHead(f, table, columns);
    var placeholders := WritePlaceholders(0, |columns|);
    q := q + ([Raw("(")] + placeholders + [Raw(")")]);
    assert Rows([PhRow(0, |columns|)]) == [[Raw("(")] + placeholders + [Raw(")")]];
    return Ok(q);
  }

  function InsertRowsQuery(table: string, columns: seq<ColumnInfo>, numRows: nat): Query {
    Query.Insert(table, NamesOf(columns), PhRows(numRows, |columns|))
  }

  function PhRows(numRows: nat, numCols: nat): seq<seq<Token>> {
    seq(numRows, row requires 0 <= row < numRows => PhRow(row * numCols, numCols))
  }

  method InsertRows(f: Formatter, table: string, columns: seq<ColumnInfo>, numRows: int) returns (r: Built)
    ensures r == if numRows < 1 then Fail(BadRowCount(numRows))
                 else BuiltOr(f, table, columns, InsertRowsQuery(table, columns, numRows))
  {
    if numRows < 1 { return Fail(BadRowCount(numRows)); }
    var numCols := |columns|;
    var head :- WriteInsertHead(f, table, columns);
    var q := [];
    NoRows(numCols);
    hide *;
    for row := 0 to numRows
      invariant q == Sep(Rows(PhRows(row, numCols)), [Raw(",")])
    {
      if row > 0 { q := q + [Raw(",")]; }
      var placeholders := WritePlaceholders(row * numCols, numCols);
      q := q + ([Raw("(")] + placeholders + [Raw(")")]);
      RowsGrow(row, numCols);
    }
    assert head + q == Text(InsertRowsQuery(table, columns, numRows)) by { RowsText(table, columns, numRows); }
    r := Ok(head + q);
  }

  lemma RowsText(table: string, columns: seq<ColumnInfo>, numRows: nat)
    ensures Text(InsertRowsQuery(table, columns, numRows))
            == InsertHead(table, NamesOf(columns)) + Sep(Rows(PhRows(numRows, |columns|)), [Raw(",")])
  {
  }

  lemma NoRows(numCols: nat)
    ensures Sep(Rows(PhRows(0, numCols)), [Raw(",")]) == []
  {
  }

  lemma RowsGrow(row: nat, numCols: nat)
    ensures
      var one := [Raw("(")] + Sep(Slots(PhRow(row * numCols, numCols)), [Raw(",")]) + [Raw(")")];
      Sep(Rows(PhRows(row + 1, numCols)), [Raw(",")])
      == Sep(Rows(PhRows(row, numCols)), [Raw(",")]) + (if row > 0 then [Raw(",")] else []) + one
  {
    var items := Rows(PhRows(row + 1, numCols));
    assert items[..row] == Rows(PhRows(row, numCols));
  }

  function UpdateColumnsQuery(table: string, columns: seq<ColumnInfo>): Query {
    Query.Update(table, Counted(columns, NonKeyColumns, 0),
                 Counted(columns, KeyColumns, |Positions(columns, NonKeyColumns)|))
  }

  /** Formatting errors in the order in which UpdateColumns meets the names. */
  function SplitOr(f: Formatter, table: string, columns: seq<ColumnInfo>, a: Keep, b: Keep, q: Query): Built {
    if !f.tableOk(table) then Fail(BadTable(table))
    else
      var bad := FirstBad(f, columns, a);
      if bad.Some? then Fail(BadColumn(bad.value))
      else
        var bad2 := FirstBad(f, columns, b);
        if bad2.Some? then Fail(BadColumn(bad2.value)) else Ok(Text(q))
  }

  method UpdateColumns(f: Formatter, table: string, columns: seq<ColumnInfo>) returns (r: Built)
    ensures r == if !HasNonKey(columns) then Fail(NoNonKeyColumn)
                 else SplitOr(f, table, columns, NonKeyColumns, KeyColumns, UpdateColumnsQuery(table, columns))
  {
    var hasNonPK := FindNonKey(columns);
    if !hasNonPK { return Fail(NoNonKeyColumn); }
    if !f.tableOk(table) { return Fail(BadTable(table)); }
    var q := [Raw("UPDATE "), Table(table), Raw(" SET")];
    var placeholder := |Positions(columns, NonKeyColumns)|;
    ItemsAre(columns, NonKeyColumns, 0);
    ItemsAre(columns, KeyColumns, placeholder);
    var sets :- WriteList(f, columns, NonKeyColumns, SetCounted(0), ",");
    q := q + sets + [Raw(" WHERE ")];
    var conds :- WriteList(f, columns, KeyColumns, Condition(placeholder), " AND ");
    q := q + conds;
    return Ok(q);
  }

  function DeleteQuery(table: string, columns: seq<ColumnInfo>): Query {
    Query.Delete(table, Counted(columns, AllColumns, 0))
  }

  method Delete(f: Formatter, table: string, columns: seq<ColumnInfo>) returns (r: Built)
    ensures r == if columns == [] then Fail(NoColumns) else BuiltOr(f, table, columns, DeleteQuery(table, columns))
  {
    if |columns| == 0 { return Fail(NoColumns); }
    if !f.tableOk(table) { return Fail(BadTable(table)); }
    var q := [Raw("DELETE FROM "), Table(table), Raw(" WHERE ")];
    ItemsAre(columns, AllColumns, 0);
    var conds :- WriteList(f, columns, AllColumns, Condition(0), " AND ");
    return Ok(q + conds);
  }

  function Named(names: seq<string>): (columns: seq<ColumnInfo>)
    ensures NamesOf(columns) == names
  {
    seq(|names|, i requires 0 <= i < |names| => ColumnInfo(names[i], true, false))
  }

  function SelectQuery(table: string, pkColumns: seq<string>): Query {
    Query.Select(table, Counted(Named(pkColumns), AllColumns, 0))
  }

  /** The Go code indexes the first key column unconditionally. */
  method QueryRowWithPK(f: Formatter, table: string, pkColumns: seq<string>) returns (r: Built)
    requires |pkColumns| > 0
    ensures r == BuiltOr(f, table, Named(pkColumns), SelectQuery(table, pkColumns))
  {
    if !f.tableOk(table) { return Fail(BadTable(table)); }
    var q := [Raw("SELECT * FROM "), Table(table), Raw(" WHERE ")];
    ItemsAre(Named(pkColumns), AllColumns, 0);
    var conds :- WriteList(f, Named(pkColumns), AllColumns, Condition(0), " AND ");
    return Ok(q + conds);
  }

  /** The text of StdQueryBuilder.Update: the where condition comes from the caller. */
  function UpdateText(table: string, columns: seq<ColumnInfo>, base: nat, cond: seq<Token>): seq<Token> {
    [Raw("UPDATE "), Table(table), Raw(" SET")] + Sep(Sets(Counted(columns, AllColumns, base)), [Raw(",")])
    + [Raw(" WHERE ")] + cond
  }

  /** StdQueryBuilder.Update on the sorted columns and values of the Values map. */
  method Update(f: Formatter, table: string, columns: seq<ColumnInfo>, vals: seq<Value>, cond: seq<Token>, whereArgs: seq<Value>)
    returns (r: Built, queryArgs: seq<Value>)
    ensures r == if !f.tableOk(table) then Fail(BadTable(table))
                 else if FirstBad(f, columns, AllColumns).Some? then Fail(BadColumn(FirstBad(f, columns, AllColumns).value))
                 else Ok(UpdateText(table, columns, |whereArgs|, cond))
    ensures queryArgs == if r.Ok? then whereArgs + vals else []
  {
    queryArgs := [];
    if !f.tableOk(table) { r := Fail(BadTable(table)); return; }
    var q := [Raw("UPDATE "), Table(table), Raw(" SET")];
    ItemsAre(columns, AllColumns, |whereArgs|);
    r := WriteList(f, columns, AllColumns, SetCounted(|whereArgs|), ",");
    if r.Fail? { return; }
    r := Ok(q + r.value + [Raw(" WHERE ")] + cond);
    queryArgs := whereArgs + vals;
  }
}
