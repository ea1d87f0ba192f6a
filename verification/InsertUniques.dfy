/** InsertUnique: the four dialects' statements, with the primary key as the conflict target. */
module InsertUniques {
  import opened Common
  import opened Sql
  import opened SqlAst
  import opened SqlTables
  import opened QueryBuilder
  import opened ConflictTargets
  import opened Dialects
  import opened Upserts
  import SqlReader

  /** Insert when the key is absent, otherwise leave the table alone. */
  function UniqueSpec(s: Schema, t: set<Row>, given: Row): TableResult {
    var added := s.defaults + given;
    if NullKeyed(s, added) then Fail(NullKey)
    else if Taken(s, t, added) then Ok(t)
    else Ok(t + {added})
  }

  /** The conflict columns are those of the primary key, in any order. */
  predicate NamesKey(s: Schema, conflictCols: seq<string>) { (set c | c in conflictCols) == s.pk }

  lemma NothingAdded(r: Row)
    ensures r + map[] == r
  {
  }

  lemma ConflictIsUnique(s: Schema, t: set<Row>, given: Row)
    requires given.Keys <= s.columns
    ensures OnConflict(s, t, given, map[]) == UniqueSpec(s, t, given)
  {
    hide SameKey, NullKeyed, Taken;
    var added := s.defaults + given;
    var after := set r | r in t :: if SameKey(s, r, added) then r + map[] else r;
    forall x ensures x in after <==> x in t {
      NothingAdded(x);
      if x in after {
        var r :| r in t && x == if SameKey(s, r, added) then r + map[] else r;
        NothingAdded(r);
      }
      if x in t { assert x == if SameKey(s, x, added) then x + map[] else x; }
    }
    assert after == t;
  }

  /** The ON clause compares each conflict column with itself. */
  lemma OnPairs(conflictCols: seq<string>)
    ensures var on := SamePairs(Named(conflictCols), AllColumns);
            |on| == |conflictCols| && forall i :: 0 <= i < |on| ==> on[i] == Pair(conflictCols[i], conflictCols[i])
  {
    AllPositions(Named(conflictCols));
  }

  /** Matching on the conflict columns is having the same, non-null, key. */
  lemma MatchOnKey(s: Schema, columns: seq<ColumnInfo>, args: seq<Value>, conflictCols: seq<string>, r: Row)
    requires Fits(s, columns) && |args| == |columns| && RowOk(s, r) && NamesKey(s, conflictCols)
    ensures var on := SamePairs(Named(conflictCols), AllColumns);
            var g := Given(columns, args);
            && (Matches(r, on, g) <==> SameKey(s, r, s.defaults + g))
            && (Matches(r, on, g) ==> !NullKeyed(s, s.defaults + g))
  {
    var g := Given(columns, args);
    var on := SamePairs(Named(conflictCols), AllColumns);
    OnPairs(conflictCols);
    KeysGiven(s, columns, args);
    hide Fits, Given, Positions, SamePairs, NamesAt;
    if Matches(r, on, g) {
      forall c | c in s.pk ensures Get(r, c) == Get(s.defaults + g, c) != Null {
        var i :| 0 <= i < |conflictCols| && conflictCols[i] == c;
        assert on[i] == Pair(c, c);
      }
    }
    if SameKey(s, r, s.defaults + g) {
      forall i | 0 <= i < |on| ensures Get(r, on[i].left) == Get(g, on[i].right) != Null {
        assert conflictCols[i] in s.pk;
      }
    }
  }

  lemma MergeFound(s: Schema, t: set<Row>, given: Row, on: seq<Pair>, names: seq<string>, row: Row)
    requires row in t && Matches(row, on, given)
    ensures Merge(s, t, given, on, [], names, names) == Ok(t)
  {
    hide Matches, ZipPairs, InsertRow;
    assert PairMap([], given) == map[];
    hide PairMap;
    var after := set r | r in t :: if Matches(r, on, given) then r + PairMap([], given) else r;
    forall x ensures x in after <==> x in t {
      NothingAdded(x);
      if x in after {
        var r :| r in t && x == if Matches(r, on, given) then r + PairMap([], given) else r;
        NothingAdded(r);
      }
      if x in t { assert x == if Matches(x, on, given) then x + PairMap([], given) else x; }
    }
    assert after == t;
  }

  lemma MergeIsUnique(s: Schema, t: set<Row>, given: Row, on: seq<Pair>, names: seq<string>)
    requires given.Keys <= s.columns && PairMap(ZipPairs(names, names), given) == given
    requires forall r :: r in t ==> (Matches(r, on, given) <==> SameKey(s, r, s.defaults + given))
    requires forall r :: r in t && Matches(r, on, given) ==> !NullKeyed(s, s.defaults + given)
    ensures Merge(s, t, given, on, [], names, names) == UniqueSpec(s, t, given)
  {
    hide Matches, SameKey, NullKeyed, ZipPairs, PairMap;
    if r :| r in t && Matches(r, on, given) {
      assert Taken(s, t, s.defaults + given);
      hide Merge;
      MergeFound(s, t, given, on, names, r);
    } else {
      assert !Taken(s, t, s.defaults + given);
    }
  }

  lemma MergeMeansUnique(s: Schema, t: set<Row>, columns: seq<ColumnInfo>, args: seq<Value>, conflictCols: seq<string>)
    requires Fits(s, columns) && TableOk(s, t) && |args| == |columns| && NamesKey(s, conflictCols)
    ensures Merge(s, t, Given(columns, args), SamePairs(Named(conflictCols), AllColumns), [], NamesOf(columns), NamesOf(columns))
            == UniqueSpec(s, t, Given(columns, args))
  {
    var g := Given(columns, args);
    var on := SamePairs(Named(conflictCols), AllColumns);
    AllPositions(columns);
    assert ZipPairs(NamesOf(columns), NamesOf(columns)) == SamePairs(columns, AllColumns);
    PairsGiven(columns, AllColumns, g);
    KeysGiven(s, columns, args);
    assert Only(g, NamesOf(columns)) == g;
    forall r | r in t
      ensures Matches(r, on, g) <==> SameKey(s, r, s.defaults + g)
      ensures Matches(r, on, g) ==> !NullKeyed(s, s.defaults + g)
    {
      MatchOnKey(s, columns, args, conflictCols, r);
    }
    hide *;
    MergeIsUnique(s, t, g, on, NamesOf(columns));
  }

  function PgUniqueQuery(table: string, columns: seq<ColumnInfo>, target: string): Query {
    IgnorePg(table, NamesOf(columns), PhRow(0, |columns|), Stripped(target))
  }

  function MyUniqueQuery(table: string, columns: seq<ColumnInfo>, target: string): Query {
    IgnoreMy(table, NamesOf(columns), PhRow(0, |columns|), TargetNames(target)[0])
  }

  /** PostgreSQL is the one that accepts the target in parentheses too. */
  predicate WritesFor(pgTarget: string, target: string) { pgTarget == target || pgTarget == "(" + target + ")" }

  lemma StripsParentheses(pgTarget: string, target: string)
    requires !Parenthesized(target) && WritesFor(pgTarget, target)
    ensures Stripped(pgTarget) == target
  {
    if pgTarget != target { assert pgTarget[1..|pgTarget| - 1] == target; }
  }

  lemma InsertsMeanUnique(s: Schema, t: set<Row>, table: string, columns: seq<ColumnInfo>, args: seq<Value>,
                          pgTarget: string, target: string)
    requires Fits(s, columns) && |args| == |columns| && NamesKey(s, TargetNames(target)) && Stripped(pgTarget) == target
    ensures var spec := UniqueSpec(s, t, Given(columns, args));
            && Exec(s, t, BindQuery(PgUniqueQuery(table, columns, pgTarget), args)) == spec
            && Exec(s, t, BindQuery(MyUniqueQuery(table, columns, target), args)) == spec
  {
    ZipGiven(columns, args);
    KeysGiven(s, columns, args);
    ConflictIsUnique(s, t, Given(columns, args));
    hide OnConflict, Given, Zip, NamesOf, UniqueSpec, Fits, TargetNames, Stripped;
  }

  lemma MergesMeanUnique(s: Schema, t: set<Row>, table: string, columns: seq<ColumnInfo>, args: seq<Value>, conflictCols: seq<string>)
    requires Fits(s, columns) && TableOk(s, t) && |args| == |columns| && NamesKey(s, conflictCols)
    ensures var spec := UniqueSpec(s, t, Given(columns, args));
            && Exec(s, t, BindQuery(MsMergeQuery(table, columns, conflictCols, false), args)) == spec
            && Exec(s, t, BindQuery(OraMergeQuery(table, columns, conflictCols, false), args)) == spec
  {
    hide Merge, UniqueSpec, SamePairs, Named, TableOk, Positions;
    ZipGiven(columns, args);
    IndexedGiven(columns, AllColumns, args);
    AllPositions(columns);
    assert Only(Given(columns, args), NamesOf(columns)) == Given(columns, args);
    MergeMeansUnique(s, t, columns, args, conflictCols);
  }

  lemma MyUniqueNumbers(table: string, columns: seq<ColumnInfo>, target: string)
    ensures Numbers(Text(MyUniqueQuery(table, columns, target))) == Range(0, |columns|)
  {
    InsertOneNumbers(table, columns);
    var col := TargetNames(target)[0];
    var tail := [Raw(" ON DUPLICATE KEY UPDATE "), Col(col), Raw(" = "), Col(col)];
    BindFixed(tail, []);
    hide Numbers, InsertOne, TargetNames;
    Bind2(InsertOne(table, NamesOf(columns), PhRow(0, |columns|)), tail, []);
  }

  /** With the columns of the primary key as the conflict target, in whatever order, and one argument per column, the
    * four dialects' texts, each bound in its driver's way, insert the row when its key is absent and else do nothing.
    * The target is the same string for all of them; only PostgreSQL's may also be in parentheses.
    */
  lemma InsertUniquesAgree(s: Schema, t: set<Row>, table: string, columns: seq<ColumnInfo>, args: seq<Value>,
                           pgTarget: string, target: string)
    requires Fits(s, columns) && TableOk(s, t) && |args| == |columns| && NamesKey(s, TargetNames(target))
    requires !Parenthesized(target) && WritesFor(pgTarget, target)
    ensures
      var spec := UniqueSpec(s, t, Given(columns, args));
      var pg, my := PgUniqueQuery(table, columns, pgTarget), MyUniqueQuery(table, columns, target);
      var ms := MsMergeQuery(table, columns, TargetNames(target), false);
      var ora := OraMergeQuery(table, columns, TargetNames(target), false);
      && Runs(s, t, table, BindByNumber(Text(pg), args), spec)
      && Runs(s, t, table, BindInOrder(Text(my), args), spec)
      && Runs(s, t, table, BindByNumber(Text(ms), args), spec)
      && Runs(s, t, table, BindInOrder(Text(ora), args), spec)
  {
    hide *;
    var conflictCols := TargetNames(target);
    StripsParentheses(pgTarget, target);
    InsertsMeanUnique(s, t, table, columns, args, pgTarget, target);
    MergesMeanUnique(s, t, table, columns, args, conflictCols);
    MyUniqueNumbers(table, columns, target);
    InSequenceAgree(Text(MyUniqueQuery(table, columns, target)), args);
    OraNumbers(table, columns, conflictCols, false);
    InSequenceAgree(Text(OraMergeQuery(table, columns, conflictCols, false)), args);
    UniquesComplete(table, columns, pgTarget, target);
    UpsertsComplete(table, columns, conflictCols);
    var spec := UniqueSpec(s, t, Given(columns, args));
    RunsIs(s, t, table, PgUniqueQuery(table, columns, pgTarget), args, spec);
    RunsIs(s, t, table, MyUniqueQuery(table, columns, target), args, spec);
    RunsIs(s, t, table, MsMergeQuery(table, columns, conflictCols, false), args, spec);
    RunsIs(s, t, table, OraMergeQuery(table, columns, conflictCols, false), args, spec);
  }

  lemma UniquesComplete(table: string, columns: seq<ColumnInfo>, pgTarget: string, target: string)
    ensures SqlReader.Complete(PgUniqueQuery(table, columns, pgTarget)) && SqlReader.Complete(MyUniqueQuery(table, columns, target))
    ensures PgUniqueQuery(table, columns, pgTarget).table == MyUniqueQuery(table, columns, target).table == table
  {
    hide TargetNames, Stripped, NamesOf;
  }
}
