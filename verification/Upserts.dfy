/** The upsert statements of the four dialects mean the same. */
module Upserts {
  import opened Common
  import opened Sql
  import opened SqlAst
  import opened SqlTables
  import opened QueryBuilder
  import opened Dialects
  import SqlReader

  /** Column i of the list is given argument i. */
  function Given(columns: seq<ColumnInfo>, args: seq<Value>): Row
    requires |args| == |columns|
  {
    map c | c in NamesOf(columns) :: args[IndexOf(NamesOf(columns), c)]
  }

  function KeySet(columns: seq<ColumnInfo>): set<string> {
    set i | 0 <= i < |columns| && columns[i].primaryKey :: columns[i].name
  }

  /** Insert when the key is absent, otherwise overwrite exactly the given non-key columns. */
  function UpsertSpec(s: Schema, t: set<Row>, given: Row): TableResult {
    var added := s.defaults + given;
    if NullKeyed(s, added) then Fail(NullKey)
    else if Taken(s, t, added) then
      Ok(set r | r in t :: if SameKey(s, r, added) then r + (given - s.pk) else r)
    else Ok(t + {added})
  }

  /** A column list that fits the table: distinct known columns, keys exactly the primary key. */
  ghost predicate Fits(s: Schema, columns: seq<ColumnInfo>) {
    && SchemaOk(s)
    && Distinct(NamesOf(columns))
    && (forall i :: 0 <= i < |columns| ==> columns[i].name in s.columns)
    && KeySet(columns) == s.pk
  }

  // ---------- lists of the builders as maps ----------

  lemma GivenAt(columns: seq<ColumnInfo>, args: seq<Value>, i: nat)
    requires |args| == |columns| && i < |columns| && Distinct(NamesOf(columns))
    ensures columns[i].name in Given(columns, args) && Given(columns, args)[columns[i].name] == args[i]
  {
    assert NamesOf(columns)[i] == columns[i].name;
    IndexOfDistinct(NamesOf(columns), i);
  }

  lemma ZipGiven(columns: seq<ColumnInfo>, args: seq<Value>)
    requires |args| == |columns| && Distinct(NamesOf(columns))
    ensures Zip(NamesOf(columns), BindRow(PhRow(0, |columns|), args)) == Given(columns, args)
  {
  }

  predicate Increasing(p: seq<nat>) { forall i, j :: 0 <= i < j < |p| ==> p[i] < p[j] }

  lemma {:induction false} PositionsIncrease(columns: seq<ColumnInfo>, keep: Keep)
    ensures Increasing(Positions(columns, keep))
    ensures forall i :: 0 <= i < |columns| && Kept(keep, columns[i]) ==> i in Positions(columns, keep)
    decreases |columns|
  {
    if columns != [] {
      var n := |columns| - 1;
      PositionsIncrease(columns[..n], keep);
      var front := Positions(columns[..n], keep);
      forall i | 0 <= i < |columns| && Kept(keep, columns[i]) ensures i in Positions(columns, keep) {
        if i < n { assert columns[..n][i] == columns[i]; assert i in front; }
      }
      var p := Positions(columns, keep);
      forall i, j | 0 <= i < j < |p| ensures p[i] < p[j] {
        if j < |front| { assert p[i] == front[i] && p[j] == front[j]; } else { assert p[j] == n && p[i] == front[i]; }
      }
    }
  }

  /** Names of kept columns: distinct, and exactly the names of the columns of that kind. */
  lemma KeptNames(columns: seq<ColumnInfo>, keep: Keep)
    requires Distinct(NamesOf(columns))
    ensures Distinct(NamesAt(columns, keep))
    ensures forall i :: 0 <= i < |columns| ==> (columns[i].name in NamesAt(columns, keep) <==> Kept(keep, columns[i]))
    ensures forall c :: c in NamesAt(columns, keep) ==> c in NamesOf(columns)
  {
    PositionsIncrease(columns, keep);
    var p := Positions(columns, keep);
    var names := NamesAt(columns, keep);
    forall i, j | 0 <= i < j < |names| ensures names[i] != names[j] {
      assert p[i] < p[j] < |NamesOf(columns)|;
      assert NamesOf(columns)[p[i]] != NamesOf(columns)[p[j]];
    }
    forall i | 0 <= i < |columns| && Kept(keep, columns[i]) ensures columns[i].name in names {
      var k :| 0 <= k < |p| && p[k] == i;
      assert names[k] == columns[i].name;
    }
    forall i | 0 <= i < |columns| && columns[i].name in names ensures Kept(keep, columns[i]) {
      var k :| 0 <= k < |names| && names[k] == columns[i].name;
      if p[k] != i {
        assert NamesOf(columns)[p[k]] == NamesOf(columns)[i];
      }
    }
    forall c | c in names ensures c in NamesOf(columns) {
      var k :| 0 <= k < |names| && names[k] == c;
      assert NamesOf(columns)[p[k]] == c;
    }
  }

  function Only(r: Row, names: seq<string>): Row { map c | c in r && c in names :: r[c] }

  lemma IndexedGiven(columns: seq<ColumnInfo>, keep: Keep, args: seq<Value>)
    requires |args| == |columns| && Distinct(NamesOf(columns))
    ensures AssignMap(BindAssigns(Indexed(columns, keep), args)) == Only(Given(columns, args), NamesAt(columns, keep))
  {
    KeptNames(columns, keep);
    var list := BindAssigns(Indexed(columns, keep), args);
    var names := NamesAt(columns, keep);
    var p := Positions(columns, keep);
    assert ColsOf(list) == names;
    forall c | c in names ensures c in Given(columns, args) && AssignMap(list)[c] == Given(columns, args)[c] {
      var k := IndexOf(names, c);
      GivenAt(columns, args, p[k]);
    }
  }

  lemma PairsGiven(columns: seq<ColumnInfo>, keep: Keep, source: Row)
    requires Distinct(NamesOf(columns)) && forall c :: c in NamesOf(columns) ==> c in source
    ensures PairMap(SamePairs(columns, keep), source) == Only(source, NamesAt(columns, keep))
  {
    KeptNames(columns, keep);
    var list := SamePairs(columns, keep);
    assert Lefts(list) == NamesAt(columns, keep);
  }

  /** A given column is a kept key column exactly if it is in the primary key. */
  lemma KeysAreKeys(s: Schema, columns: seq<ColumnInfo>, c: string)
    requires Fits(s, columns)
    ensures c in NamesAt(columns, KeyColumns) <==> c in s.pk
    ensures c in NamesOf(columns) ==> c in s.columns && (c in NamesAt(columns, NonKeyColumns) <==> c !in s.pk)
    ensures c in s.pk ==> c in NamesOf(columns)
  {
    KeptNames(columns, NonKeyColumns);
    KeptNames(columns, KeyColumns);
    if c in s.pk {
      var j :| 0 <= j < |columns| && columns[j].primaryKey && columns[j].name == c;
      assert NamesOf(columns)[j] == c;
    }
    if c in NamesOf(columns) {
      var i := IndexOf(NamesOf(columns), c);
      assert columns[i].name == c;
      if columns[i].primaryKey { assert c in KeySet(columns); }
    }
  }

  lemma NonKeysGiven(s: Schema, columns: seq<ColumnInfo>, args: seq<Value>)
    requires Fits(s, columns) && |args| == |columns|
    ensures Only(Given(columns, args), NamesAt(columns, NonKeyColumns)) == Given(columns, args) - s.pk
    ensures Only(s.defaults + Given(columns, args), NamesAt(columns, NonKeyColumns)) == Given(columns, args) - s.pk
    ensures Given(columns, args).Keys <= s.columns && s.pk <= Given(columns, args).Keys
    ensures (set c | c in NamesAt(columns, KeyColumns)) == s.pk
  {
    KeysGiven(s, columns, args);
    forall c: string
      ensures c in NamesOf(columns) ==> (c in NamesAt(columns, NonKeyColumns) <==> c !in s.pk)
    {
      KeysAreKeys(s, columns, c);
    }
    KeptNames(columns, NonKeyColumns);
    hide NamesAt, NamesOf, KeySet, SchemaOk, IndexOf, Positions, Fits;
  }

  lemma KeysGiven(s: Schema, columns: seq<ColumnInfo>, args: seq<Value>)
    requires Fits(s, columns) && |args| == |columns|
    ensures Given(columns, args).Keys == set c | c in NamesOf(columns)
    ensures Given(columns, args).Keys <= s.columns && s.pk <= Given(columns, args).Keys
    ensures (set c | c in NamesAt(columns, KeyColumns)) == s.pk
  {
    forall c: string
      ensures c in NamesAt(columns, KeyColumns) <==> c in s.pk
      ensures c in NamesOf(columns) ==> c in s.columns
      ensures c in s.pk ==> c in NamesOf(columns)
    {
      KeysAreKeys(s, columns, c);
    }
    hide NamesAt, NamesOf, KeySet, SchemaOk, IndexOf, Positions, Fits;
  }

  // ---------- the four statements ----------

  lemma PgMeans(s: Schema, t: set<Row>, table: string, columns: seq<ColumnInfo>, args: seq<Value>)
    requires Fits(s, columns) && |args| == |columns|
    ensures Exec(s, t, BindQuery(PgUpsertQuery(table, columns), args)) == UpsertSpec(s, t, Given(columns, args))
  {
    ZipGiven(columns, args);
    IndexedGiven(columns, NonKeyColumns, args);
    NonKeysGiven(s, columns, args);
    hide AssignMap, Given, Zip, NamesAt, NamesOf, Indexed, Only, SameKey, NullKeyed, Taken, Fits;
  }

  lemma MyMeans(s: Schema, t: set<Row>, table: string, columns: seq<ColumnInfo>, args: seq<Value>)
    requires Fits(s, columns) && |args| == |columns|
    ensures Exec(s, t, BindQuery(MyUpsertQuery(table, columns), args)) == UpsertSpec(s, t, Given(columns, args))
  {
    ZipGiven(columns, args);
    NonKeysGiven(s, columns, args);
    PairsGiven(columns, NonKeyColumns, s.defaults + Given(columns, args));
    hide PairMap, Given, Zip, NamesAt, NamesOf, SamePairs, Only, SameKey, NullKeyed, Taken, Fits;
  }

  lemma KeyPairs(columns: seq<ColumnInfo>)
    ensures SamePairs(Named(NamesAt(columns, KeyColumns)), AllColumns) == SamePairs(columns, KeyColumns)
  {
    AllPositions(Named(NamesAt(columns, KeyColumns)));
  }

  /** Matching on the key columns is having the same, non-null, key. */
  lemma MatchIsKey(s: Schema, columns: seq<ColumnInfo>, args: seq<Value>, r: Row)
    requires Fits(s, columns) && |args| == |columns| && RowOk(s, r)
    ensures Matches(r, SamePairs(columns, KeyColumns), Given(columns, args)) <==> SameKey(s, r, s.defaults + Given(columns, args))
    ensures Matches(r, SamePairs(columns, KeyColumns), Given(columns, args)) ==> !NullKeyed(s, s.defaults + Given(columns, args))
  {
    var g := Given(columns, args);
    var on := SamePairs(columns, KeyColumns);
    var names := NamesAt(columns, KeyColumns);
    NonKeysGiven(s, columns, args);
    if Matches(r, on, g) {
      forall c | c in s.pk ensures Get(r, c) == Get(s.defaults + g, c) != Null {
        var k := IndexOf(names, c);
        assert on[k] == Pair(c, c);
      }
    }
    if SameKey(s, r, s.defaults + g) {
      forall i | 0 <= i < |on| ensures Get(r, on[i].left) == Get(g, on[i].right) != Null {
        assert names[i] in s.pk;
      }
    }
  }

  lemma MergeMeans(s: Schema, t: set<Row>, columns: seq<ColumnInfo>, args: seq<Value>)
    requires Fits(s, columns) && TableOk(s, t) && |args| == |columns|
    ensures Merge(s, t, Given(columns, args), SamePairs(columns, KeyColumns), SamePairs(columns, NonKeyColumns), NamesOf(columns), NamesOf(columns))
            == UpsertSpec(s, t, Given(columns, args))
  {
    hide Positions, SamePairs, ZipPairs, PairMap, Matches, SameKey, NullKeyed, NamesOf;
    var g := Given(columns, args);
    MergedColumns(s, columns, args);
    forall r | r in t
      ensures Matches(r, SamePairs(columns, KeyColumns), g) <==> SameKey(s, r, s.defaults + g)
      ensures Matches(r, SamePairs(columns, KeyColumns), g) ==> !NullKeyed(s, s.defaults + g)
    {
      MatchIsKey(s, columns, args, r);
    }
    hide *;
    MergeIsUpsert(s, t, g, SamePairs(columns, KeyColumns), SamePairs(columns, NonKeyColumns), NamesOf(columns));
  }

  /** What a MERGE of all columns writes into a row: its non-key columns if it is there, all of them if it is new. */
  lemma MergedColumns(s: Schema, columns: seq<ColumnInfo>, args: seq<Value>)
    requires Fits(s, columns) && |args| == |columns|
    ensures
      var g := Given(columns, args);
      && g.Keys <= s.columns
      && PairMap(SamePairs(columns, NonKeyColumns), g) == g - s.pk
      && PairMap(ZipPairs(NamesOf(columns), NamesOf(columns)), g) == g
  {
    hide Positions, SamePairs, PairMap;
    var g := Given(columns, args);
    NonKeysGiven(s, columns, args);
    PairsGiven(columns, NonKeyColumns, g);
    ZippedNames(columns);
    PairsGiven(columns, AllColumns, g);
    AllPositions(columns);
    assert Only(g, NamesOf(columns)) == g;
  }

  lemma ZippedNames(columns: seq<ColumnInfo>)
    ensures ZipPairs(NamesOf(columns), NamesOf(columns)) == SamePairs(columns, AllColumns)
  {
    AllPositions(columns);
  }

  /** A merge whose ON clause compares exactly the key is an upsert. */
  lemma MergeIsUpsert(s: Schema, t: set<Row>, given: Row, on: seq<Pair>, pairs: seq<Pair>, names: seq<string>)
    requires given.Keys <= s.columns
    requires PairMap(pairs, given) == given - s.pk && PairMap(ZipPairs(names, names), given) == given
    requires forall r :: r in t ==> (Matches(r, on, given) <==> SameKey(s, r, s.defaults + given))
    requires forall r :: r in t && Matches(r, on, given) ==> !NullKeyed(s, s.defaults + given)
    ensures Merge(s, t, given, on, pairs, names, names) == UpsertSpec(s, t, given)
  {
    hide Matches, SameKey, NullKeyed, PairMap, ZipPairs;
    if r :| r in t && Matches(r, on, given) {
      var added := s.defaults + given;
      assert Taken(s, t, added);
      var merged := set r | r in t :: if Matches(r, on, given) then r + PairMap(pairs, given) else r;
      var upserted := set r | r in t :: if SameKey(s, r, added) then r + (given - s.pk) else r;
      forall x ensures x in merged <==> x in upserted {
        if x in merged {
          var q :| q in t && x == if Matches(q, on, given) then q + PairMap(pairs, given) else q;
          assert x == if SameKey(s, q, added) then q + (given - s.pk) else q;
        }
        if x in upserted {
          var q :| q in t && x == if SameKey(s, q, added) then q + (given - s.pk) else q;
          assert x == if Matches(q, on, given) then q + PairMap(pairs, given) else q;
        }
      }
      assert merged == upserted;
    } else {
      assert !Taken(s, t, s.defaults + given);
    }
  }

  lemma MsMeans(s: Schema, t: set<Row>, table: string, columns: seq<ColumnInfo>, args: seq<Value>)
    requires Fits(s, columns) && TableOk(s, t) && |args| == |columns|
    ensures Exec(s, t, BindQuery(MsMergeQuery(table, columns, NamesAt(columns, KeyColumns), true), args)) == UpsertSpec(s, t, Given(columns, args))
  {
    hide Merge, UpsertSpec, SamePairs, Named;
    ZipGiven(columns, args);
    KeyPairs(columns);
    MergeMeans(s, t, columns, args);
  }

  lemma OraMeans(s: Schema, t: set<Row>, table: string, columns: seq<ColumnInfo>, args: seq<Value>)
    requires Fits(s, columns) && TableOk(s, t) && |args| == |columns|
    ensures Exec(s, t, BindQuery(OraMergeQuery(table, columns, NamesAt(columns, KeyColumns), true), args)) == UpsertSpec(s, t, Given(columns, args))
  {
    hide Merge, UpsertSpec, SamePairs, Named, Given, AssignMap, Indexed, NamesAt, NamesOf;
    AllGiven(s, columns, args);
    KeyPairs(columns);
    MergeMeans(s, t, columns, args);
  }

  lemma AllGiven(s: Schema, columns: seq<ColumnInfo>, args: seq<Value>)
    requires Fits(s, columns) && |args| == |columns|
    ensures AssignMap(BindAssigns(Indexed(columns, AllColumns), args)) == Given(columns, args)
  {
    hide Indexed, AssignMap, Positions;
    IndexedGiven(columns, AllColumns, args);
    AllPositions(columns);
    assert Only(Given(columns, args), NamesOf(columns)) == Given(columns, args);
  }

  // ---------- order of appearance ----------

  lemma {:induction false} SlotNumbers(from: nat, n: nat)
    ensures Numbers(Sep(Slots(PhRow(from, n)), [Raw(",")])) == Range(from, n)
    decreases n
  {
    SepNumbers(Slots(PhRow(from, n)), ",");
    PhItemNumbers(from, n);
  }

  lemma {:induction false} PhItemNumbers(from: nat, n: nat)
    ensures ItemNumbers(Slots(PhRow(from, n))) == Range(from, n)
    decreases n
  {
    if n > 0 {
      var items := Slots(PhRow(from, n));
      assert items[..n - 1] == Slots(PhRow(from, n - 1));
      PhItemNumbers(from, n - 1);
      assert Numbers([Ph(from + n - 1)]) == [from + n - 1] by { assert [Ph(from + n - 1)][1..] == []; }
    }
  }

  lemma NumbersOne(a: seq<Token>, b: seq<Token>, c: seq<Token>)
    requires Numbers(a) == [] && Numbers(c) == []
    ensures Numbers(a + b + c) == Numbers(b)
  {
    NumbersConcat(a + b, c);
    NumbersConcat(a, b);
  }

  lemma InsertOneNumbers(table: string, columns: seq<ColumnInfo>)
    ensures Numbers(InsertOne(table, NamesOf(columns), PhRow(0, |columns|))) == Range(0, |columns|)
  {
    var row := PhRow(0, |columns|);
    var inside := Sep(Slots(row), [Raw(",")]);
    SlotNumbers(0, |columns|);
    FixedHead(table, NamesOf(columns), []);
    BindFixed([Raw("(")], []);
    BindFixed([Raw(")")], []);
    NumbersOne([Raw("(")], inside, [Raw(")")]);
    assert Rows([row]) == [[Raw("(")] + inside + [Raw(")")]];
    NumbersConcat(InsertHead(table, NamesOf(columns)), Sep(Rows([row]), [Raw(",")]));
  }

  lemma MyNumbers(table: string, columns: seq<ColumnInfo>)
    ensures Numbers(Text(MyUpsertQuery(table, columns))) == Range(0, |columns|)
  {
    hide Numbers, Sep, InsertOne, SamePairs, BindByNumber;
    InsertOneNumbers(table, columns);
    var pairs := SamePairs(columns, NonKeyColumns);
    FixedPairs(pairs, []);
    BindFixed([Raw(" ON DUPLICATE KEY UPDATE")], []);
    var a := InsertOne(table, NamesOf(columns), PhRow(0, |columns|));
    Bind3(a, [Raw(" ON DUPLICATE KEY UPDATE")], Sep(ValuesSets(pairs), [Raw(",")]), []);
  }

  /** The Oracle source list: placeholder i under the name of column i. */
  function AliasList(columns: seq<ColumnInfo>, n: nat): (list: seq<Assign>)
    requires n <= |columns|
    ensures |list| == n
  {
    seq(n, i requires 0 <= i < n => Assign(columns[i].name, Ph(i)))
  }

  lemma {:induction false} AliasNumbers(columns: seq<ColumnInfo>, n: nat)
    requires n <= |columns|
    ensures ItemNumbers(Aliases(AliasList(columns, n))) == Range(0, n)
    decreases n
  {
    if n > 0 {
      var items := Aliases(AliasList(columns, n));
      assert items[..n - 1] == Aliases(AliasList(columns, n - 1));
      AliasNumbers(columns, n - 1);
      assert items[n - 1] == [Ph(n - 1)] + [Raw(" AS "), Col(columns[n - 1].name)];
      NumbersConcat([Ph(n - 1)], [Raw(" AS "), Col(columns[n - 1].name)]);
      BindFixed([Raw(" AS "), Col(columns[n - 1].name)], []);
      assert Numbers([Ph(n - 1)]) == [n - 1] by { assert [Ph(n - 1)][1..] == []; }
    }
  }

  lemma SourceNumbers(columns: seq<ColumnInfo>)
    ensures Numbers(Sep(Aliases(Indexed(columns, AllColumns)), [Raw(", ")])) == Range(0, |columns|)
  {
    AllPositions(columns);
    AliasNumbers(columns, |columns|);
    assert Indexed(columns, AllColumns) == AliasList(columns, |columns|);
    SepNumbers(Aliases(Indexed(columns, AllColumns)), ", ");
  }

  lemma OraNumbers(table: string, columns: seq<ColumnInfo>, keys: seq<string>, withUpdate: bool)
    ensures Numbers(Text(OraMergeQuery(table, columns, keys, withUpdate))) == Range(0, |columns|)
  {
    hide *;
    var source := Sep(Aliases(Indexed(columns, AllColumns)), [Raw(", ")]);
    var on := Sep(MergeOns(SamePairs(Named(keys), AllColumns)), [Raw(" AND ")]);
    var tail := MergeTail(MergePairs(columns, withUpdate), NamesOf(columns), NamesOf(columns));
    var head := [Raw("MERGE INTO "), Table(table), Raw(" target USING (SELECT ")];
    SourceNumbers(columns);
    OraMergeText(table, columns, keys, withUpdate);
    BindFixed(head, []);
    BindFixed([Raw(" FROM DUAL) source ON (")], []);
    BindFixed([Raw(")")], []);
    FixedPairs(SamePairs(Named(keys), AllColumns), []);
    FixedTail(MergePairs(columns, withUpdate), NamesOf(columns), NamesOf(columns), []);
    var a := head + source + [Raw(" FROM DUAL) source ON (")];
    Bind3(head, source, [Raw(" FROM DUAL) source ON (")], []);
    Bind3(a, on, [Raw(")")], []);
    Bind2(a + on + [Raw(")")], tail, []);
  }

  // ---------- main results ----------

  /** The bound text is read as a statement on the named table whose effect on its rows is the given outcome. */
  predicate Runs(s: Schema, t: set<Row>, table: string, bound: seq<Token>, outcome: TableResult) {
    var read := SqlReader.Read(bound);
    read.Ok? && read.value.table == table && Exec(s, t, read.value) == outcome
  }

  /** With the same argument list, one argument per column, the PostgreSQL and SQL Server texts
    * bound by number and the MySQL and Oracle texts bound by order of appearance all perform
    * the same upsert.
    */
  lemma UpsertsAgree(s: Schema, t: set<Row>, table: string, columns: seq<ColumnInfo>, args: seq<Value>)
    requires Fits(s, columns) && TableOk(s, t) && |args| == |columns|
    ensures
      var spec := UpsertSpec(s, t, Given(columns, args));
      var keys := NamesAt(columns, KeyColumns);
      var pg, my := PgUpsertQuery(table, columns), MyUpsertQuery(table, columns);
      var ms, ora := MsMergeQuery(table, columns, keys, true), OraMergeQuery(table, columns, keys, true);
      && Runs(s, t, table, BindByNumber(Text(pg), args), spec)
      && Runs(s, t, table, BindInOrder(Text(my), args), spec)
      && Runs(s, t, table, BindByNumber(Text(ms), args), spec)
      && Runs(s, t, table, BindInOrder(Text(ora), args), spec)
  {
    hide *;
    var keys := NamesAt(columns, KeyColumns);
    PgMeans(s, t, table, columns, args);
    MyNumbers(table, columns);
    InSequenceAgree(Text(MyUpsertQuery(table, columns)), args);
    MyMeans(s, t, table, columns, args);
    MsMeans(s, t, table, columns, args);
    OraNumbers(table, columns, keys, true);
    InSequenceAgree(Text(OraMergeQuery(table, columns, keys, true)), args);
    OraMeans(s, t, table, columns, args);
    UpsertsComplete(table, columns, keys);
    RunsIs(s, t, table, PgUpsertQuery(table, columns), args, UpsertSpec(s, t, Given(columns, args)));
    RunsIs(s, t, table, MyUpsertQuery(table, columns), args, UpsertSpec(s, t, Given(columns, args)));
    RunsIs(s, t, table, MsMergeQuery(table, columns, keys, true), args, UpsertSpec(s, t, Given(columns, args)));
    RunsIs(s, t, table, OraMergeQuery(table, columns, keys, true), args, UpsertSpec(s, t, Given(columns, args)));
  }

  /** The builders leave no slot without a placeholder. */
  lemma UpsertsComplete(table: string, columns: seq<ColumnInfo>, keys: seq<string>)
    ensures SqlReader.Complete(PgUpsertQuery(table, columns)) && SqlReader.Complete(MyUpsertQuery(table, columns))
    ensures forall withUpdate :: SqlReader.Complete(MsMergeQuery(table, columns, keys, withUpdate))
    ensures forall withUpdate :: SqlReader.Complete(OraMergeQuery(table, columns, keys, withUpdate))
    ensures PgUpsertQuery(table, columns).table == MyUpsertQuery(table, columns).table == table
    ensures forall withUpdate :: MsMergeQuery(table, columns, keys, withUpdate).table == table
    ensures forall withUpdate :: OraMergeQuery(table, columns, keys, withUpdate).table == table
  {
    hide Positions, SamePairs, NamesOf, NamesAt, MergePairs, Named;
  }

  /** The text of a statement, bound by number, is read as the statement with its slots filled. */
  lemma RunsIs(s: Schema, t: set<Row>, table: string, q: Query, args: seq<Value>, outcome: TableResult)
    requires SqlReader.Complete(q) && q.table == table && Exec(s, t, BindQuery(q, args)) == outcome
    ensures Runs(s, t, table, BindByNumber(Text(q), args), outcome)
  {
    hide Exec, Text, BindByNumber, SqlReader.Read, SqlReader.Complete;
    SqlReader.BoundIsComplete(q, args);
    SqlReader.TextReadsBack(BindQuery(q, args));
    BindText(q, args);
  }

  /** Upserting keeps the table well formed, changes no row with another key, and leaves the row
    * with the given key holding exactly the given columns.
    */
  lemma UpsertEffect(s: Schema, t: set<Row>, given: Row)
    requires SchemaOk(s) && TableOk(s, t) && given.Keys <= s.columns && s.pk <= given.Keys
    ensures var o := UpsertSpec(s, t, given); o.Ok? ==> Effective(s, t, given, o.value)
  {
    var added := s.defaults + given;
    if UpsertSpec(s, t, given).Ok? {
      if Taken(s, t, added) { EffectTaken(s, t, given); } else { EffectNew(s, t, given); }
    }
  }

  ghost predicate Effective(s: Schema, t: set<Row>, given: Row, after: set<Row>) {
    && TableOk(s, after)
    && (forall r :: !SameKey(s, r, given) ==> (r in after <==> r in t))
    && (exists r :: r in after && SameKey(s, r, given) && (forall c :: c in given ==> Get(r, c) == given[c]))
  }

  lemma EffectNew(s: Schema, t: set<Row>, given: Row)
    requires SchemaOk(s) && TableOk(s, t) && given.Keys <= s.columns && s.pk <= given.Keys
    requires !NullKeyed(s, s.defaults + given) && !Taken(s, t, s.defaults + given)
    ensures Effective(s, t, given, t + {s.defaults + given})
  {
    var added := s.defaults + given;
    Added(s, t, added);
    assert added in t + {added} && SameKey(s, added, given);
  }

  lemma EffectTaken(s: Schema, t: set<Row>, given: Row)
    requires SchemaOk(s) && TableOk(s, t) && given.Keys <= s.columns && s.pk <= given.Keys
    requires Taken(s, t, s.defaults + given)
    ensures Effective(s, t, given, set r | r in t :: if SameKey(s, r, s.defaults + given) then r + (given - s.pk) else r)
  {
    hide TableOk, Get, SameKey, RowOk;
    var added := s.defaults + given;
    var after := set r | r in t :: if SameKey(s, r, added) then r + (given - s.pk) else r;
    var prior :| prior in t && SameKey(s, prior, added);
    var changed := prior + (given - s.pk);
    OnlyOne(s, t, added, prior, changed, given - s.pk);
    RowsOk(s, t, prior);
    ChangedKey(s, prior, given);
    ChangedCells(s, prior, given);
    KeyOfNew(s, given);
    Reflexive(s, changed);
    Replaced(s, t, prior, changed);
    assert SameKey(s, changed, given);
    assert changed in after;
  }

  lemma RowsOk(s: Schema, t: set<Row>, r: Row)
    requires TableOk(s, t) && r in t
    ensures RowOk(s, r)
  {
  }

  /** The only row with the key is the one that changes. */
  lemma OnlyOne(s: Schema, t: set<Row>, added: Row, prior: Row, changed: Row, overlay: Row)
    requires TableOk(s, t) && prior in t && SameKey(s, prior, added) && changed == prior + overlay
    ensures (set r | r in t :: if SameKey(s, r, added) then r + overlay else r) == t - {prior} + {changed}
  {
    forall r | r in t && SameKey(s, r, added) ensures r == prior { assert SameKey(s, r, prior); }
    hide TableOk, SameKey;
  }

  lemma ChangedKey(s: Schema, prior: Row, given: Row)
    requires given.Keys <= s.columns && RowOk(s, prior)
    ensures var changed := prior + (given - s.pk); changed.Keys == prior.Keys
    ensures var changed := prior + (given - s.pk); forall r :: SameKey(s, r, changed) <==> SameKey(s, r, prior)
    ensures var changed := prior + (given - s.pk); forall r :: SameKey(s, changed, r) <==> SameKey(s, prior, r)
  {
  }

  lemma Reflexive(s: Schema, r: Row)
    ensures SameKey(s, r, r)
  {
  }

  lemma ChangedCells(s: Schema, prior: Row, given: Row)
    requires s.pk <= given.Keys && SameKey(s, prior, s.defaults + given)
    ensures var changed := prior + (given - s.pk); forall c :: c in given ==> Get(changed, c) == given[c]
  {
  }

  lemma Added(s: Schema, t: set<Row>, added: Row)
    requires TableOk(s, t) && RowOk(s, added) && !Taken(s, t, added)
    ensures TableOk(s, t + {added})
  {
  }

  lemma KeyOfNew(s: Schema, given: Row)
    requires s.pk <= given.Keys
    ensures forall r :: SameKey(s, r, given) <==> SameKey(s, r, s.defaults + given)
  {
  }

  lemma Replaced(s: Schema, t: set<Row>, prior: Row, changed: Row)
    requires TableOk(s, t) && prior in t && SameKey(s, changed, prior) && changed.Keys == prior.Keys
    ensures TableOk(s, t - {prior} + {changed})
  {
  }

  /** Applying an upsert twice is applying it once. */
  lemma UpsertIdempotent(s: Schema, t: set<Row>, given: Row)
    requires SchemaOk(s) && TableOk(s, t) && given.Keys <= s.columns && s.pk <= given.Keys
    ensures
      var o := UpsertSpec(s, t, given);
      o.Ok? ==> UpsertSpec(s, o.value, given) == o
  {
    var o := UpsertSpec(s, t, given);
    if o.Ok? {
      UpsertEffect(s, t, given);
      KeyOfNew(s, given);
      AlreadyThere(s, o.value, given);
    }
  }

  lemma AlreadyThere(s: Schema, t: set<Row>, given: Row)
    requires TableOk(s, t) && given.Keys <= s.columns && !NullKeyed(s, s.defaults + given)
    requires forall r :: SameKey(s, r, given) <==> SameKey(s, r, s.defaults + given)
    requires exists r :: r in t && SameKey(s, r, given) && (forall c :: c in given ==> Get(r, c) == given[c])
    ensures UpsertSpec(s, t, given) == Ok(t)
  {
    var added := s.defaults + given;
    var q :| q in t && SameKey(s, q, given) && (forall c :: c in given ==> Get(q, c) == given[c]);
    assert Taken(s, t, added);
    assert q + (given - s.pk) == q by { assert q.Keys == s.columns; }
    OnlyOne(s, t, added, q, q, given - s.pk);
    assert t - {q} + {q} == t;
  }
}
