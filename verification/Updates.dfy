/** Argument order of UPDATE statements, and what the UPDATE of a row struct changes. */
module Updates {
  import opened Common
  import opened Sql
  import opened SqlAst
  import opened SqlTables
  import opened QueryBuilder
  import opened Dialects
  import opened Upserts
  import SqlReader

  // ---------- placeholder numbers ----------

  lemma {:induction false} CountedNumbers(list: seq<Assign>, base: nat)
    requires forall k :: 0 <= k < |list| ==> list[k].slot == Ph(base + k)
    ensures ItemNumbers(Sets(list)) == Range(base, |list|)
    ensures ItemNumbers(Conds(list)) == Range(base, |list|)
    decreases |list|
  {
    hide Numbers, Sets, Conds;
    if list == [] {
      NoItems();
    } else {
      var n := |list| - 1;
      var front := list[..n];
      CountedNumbers(front, base);
      ItemNumber(list[n], base + n);
      ListsGrow(list);
      assert Range(base, n) + [base + n] == Range(base, n + 1);
      assert ItemNumbers(Sets(list)) == ItemNumbers(Sets(front)) + Numbers(SetItem(list[n]));
      assert ItemNumbers(Conds(list)) == ItemNumbers(Conds(front)) + Numbers(CondItem(list[n]));
    }
  }

  lemma NoItems()
    ensures ItemNumbers(Sets([])) == ItemNumbers(Conds([])) == []
  {
  }

  lemma ListsGrow(list: seq<Assign>)
    requires list != []
    ensures var n := |list| - 1;
            && |Sets(list)| == |Conds(list)| == n + 1
            && Sets(list)[..n] == Sets(list[..n]) && Sets(list)[n] == SetItem(list[n])
            && Conds(list)[..n] == Conds(list[..n]) && Conds(list)[n] == CondItem(list[n])
  {
  }

  function SetItem(a: Assign): seq<Token> { [Raw(" "), Col(a.col), Raw("="), a.slot] }

  function CondItem(a: Assign): seq<Token> { [Col(a.col), Raw(" = "), a.slot] }

  lemma ItemNumber(a: Assign, i: nat)
    requires a.slot == Ph(i)
    ensures Numbers(SetItem(a)) == [i] && Numbers(CondItem(a)) == [i]
  {
    LastNumber([Raw(" "), Col(a.col), Raw("=")], i);
    LastNumber([Col(a.col), Raw(" = ")], i);
    assert SetItem(a) == [Raw(" "), Col(a.col), Raw("=")] + [Ph(i)];
    assert CondItem(a) == [Col(a.col), Raw(" = ")] + [Ph(i)];
  }

  lemma LastNumber(front: seq<Token>, i: nat)
    requires forall k :: 0 <= k < |front| ==> !front[k].Ph?
    ensures Numbers(front + [Ph(i)]) == [i]
  {
    BindFixed(front, []);
    NumbersConcat(front, [Ph(i)]);
    assert [Ph(i)][1..] == [];
  }

  lemma CountedTextNumbers(columns: seq<ColumnInfo>, keep: Keep, base: nat)
    ensures
      var list := Counted(columns, keep, base);
      && Numbers(Sep(Sets(list), [Raw(",")])) == Range(base, |list|)
      && Numbers(Sep(Conds(list), [Raw(" AND ")])) == Range(base, |list|)
  {
    var list := Counted(columns, keep, base);
    CountedNumbers(list, base);
    SepNumbers(Sets(list), ",");
    SepNumbers(Conds(list), " AND ");
  }

  // ---------- Update with a where condition ----------

  function Valued(columns: seq<ColumnInfo>, vals: seq<Value>): seq<Assign>
    requires |vals| == |columns|
  {
    seq(|columns|, i requires 0 <= i < |columns| => Assign(columns[i].name, Val(vals[i])))
  }

  /** The intended statement: every column set to its own value, every placeholder of the where
    * condition replaced by its own argument.
    */
  function IntendedUpdate(table: string, columns: seq<ColumnInfo>, vals: seq<Value>, cond: seq<Token>, whereArgs: seq<Value>): seq<Token>
    requires |vals| == |columns|
  {
    [Raw("UPDATE "), Table(table), Raw(" SET")] + Sep(Sets(Valued(columns, vals)), [Raw(",")])
    + [Raw(" WHERE ")] + BindByNumber(cond, whereArgs)
  }

  lemma {:induction false} MoreArgs(q: seq<Token>, args: seq<Value>, more: seq<Value>)
    requires forall i :: 0 <= i < |Numbers(q)| ==> Numbers(q)[i] < |args|
    ensures BindByNumber(q, args + more) == BindByNumber(q, args)
    decreases |q|
  {
    if q != [] {
      var head := if q[0].Ph? then [q[0].index] else [];
      assert forall i :: 0 <= i < |Numbers(q[1..])| ==> Numbers(q[1..])[i] == Numbers(q)[i + |head|];
      if q[0].Ph? { assert Numbers(q)[0] == q[0].index; }
      MoreArgs(q[1..], args, more);
    }
  }

  /** Binding by number: StdQueryBuilder.Update numbers the SET placeholders after the where
    * arguments and appends the values, whatever the condition does with its placeholders.
    */
  lemma UpdateByNumber(table: string, columns: seq<ColumnInfo>, vals: seq<Value>, cond: seq<Token>, whereArgs: seq<Value>)
    requires |vals| == |columns|
    requires forall i :: 0 <= i < |Numbers(cond)| ==> Numbers(cond)[i] < |whereArgs|
    ensures BindByNumber(UpdateText(table, columns, |whereArgs|, cond), whereArgs + vals)
            == IntendedUpdate(table, columns, vals, cond, whereArgs)
  {
    hide *;
    var args := whereArgs + vals;
    var head := [Raw("UPDATE "), Table(table), Raw(" SET")];
    var list := Counted(columns, AllColumns, |whereArgs|);
    var sets := Sep(Sets(list), [Raw(",")]);
    BindFixed(head, args);
    BindFixed([Raw(" WHERE ")], args);
    BindSetsText(list, args);
    SetsValued(columns, vals, whereArgs);
    MoreArgs(cond, whereArgs, vals);
    Bind3(head, sets, [Raw(" WHERE ")], args);
    Bind2(head + sets + [Raw(" WHERE ")], cond, args);
    UpdateTexts(table, columns, vals, cond, whereArgs);
  }

  lemma SetsValued(columns: seq<ColumnInfo>, vals: seq<Value>, whereArgs: seq<Value>)
    requires |vals| == |columns|
    ensures BindAssigns(Counted(columns, AllColumns, |whereArgs|), whereArgs + vals) == Valued(columns, vals)
  {
    AllPositions(columns);
  }

  lemma UpdateTexts(table: string, columns: seq<ColumnInfo>, vals: seq<Value>, cond: seq<Token>, whereArgs: seq<Value>)
    requires |vals| == |columns|
    ensures
      var head := [Raw("UPDATE "), Table(table), Raw(" SET")];
      && UpdateText(table, columns, |whereArgs|, cond)
         == head + Sep(Sets(Counted(columns, AllColumns, |whereArgs|)), [Raw(",")]) + [Raw(" WHERE ")] + cond
      && IntendedUpdate(table, columns, vals, cond, whereArgs)
         == head + Sep(Sets(Valued(columns, vals)), [Raw(",")]) + [Raw(" WHERE ")] + BindByNumber(cond, whereArgs)
  {
    hide Sep, Sets, Counted, Valued, BindByNumber;
  }

  /** Binding by order of appearance, with the values moved in front: the text means the same exactly when the where
    * arguments begin with those that the condition asks for, in the order in which it asks for them.
    */
  lemma UpdateInOrderIff(table: string, columns: seq<ColumnInfo>, vals: seq<Value>, cond: seq<Token>, whereArgs: seq<Value>)
    requires |vals| == |columns|
    requires forall i :: 0 <= i < |Numbers(cond)| ==> Numbers(cond)[i] < |whereArgs|
    ensures BindInOrder(UpdateText(table, columns, |whereArgs|, cond), vals + whereArgs)
            == IntendedUpdate(table, columns, vals, cond, whereArgs)
      <==> Pick(whereArgs, Numbers(cond)) <= whereArgs
  {
    hide UpdateText, IntendedUpdate, BindByNumber, BindInOrder, Numbers, Pick;
    var q := UpdateText(table, columns, |whereArgs|, cond);
    var args := whereArgs + vals;
    UpdateByNumber(table, columns, vals, cond, whereArgs);
    UpdateNumbers(table, columns, |whereArgs|, cond);
    var numbers := Range(|whereArgs|, |columns|) + Numbers(cond);
    var asked := Pick(whereArgs, Numbers(cond));
    assert Pick(args, numbers) == vals + asked;
    BindingsAgreeIff(q, args, vals + whereArgs);
    if vals + asked <= vals + whereArgs {
      assert asked == (vals + whereArgs)[|vals|..|vals| + |asked|] == whereArgs[..|asked|];
    }
    if asked <= whereArgs { assert (vals + whereArgs)[..|vals| + |asked|] == vals + asked; }
  }

  /** The text of an update means the same under both ways of binding, whatever the values and where arguments. */
  ghost predicate AlwaysAgrees(table: string, columns: seq<ColumnInfo>, cond: seq<Token>, n: nat) {
    forall vals: seq<Value>, whereArgs: seq<Value> :: |vals| == |columns| && |whereArgs| == n ==>
      BindInOrder(UpdateText(table, columns, n, cond), vals + whereArgs) == IntendedUpdate(table, columns, vals, cond, whereArgs)
  }

  function Counting(n: nat): (r: seq<Value>)
    ensures |r| == n && forall i :: 0 <= i < n ==> r[i] == IntValue(i)
  {
    seq(n, i => IntValue(i))
  }

  /** For a condition whose placeholders all have an argument, that is so if and only if it uses the placeholders
    * from the first on, once each and in order; those behind the last one used may be missing.
    */
  lemma InOrderIffInSequence(table: string, columns: seq<ColumnInfo>, cond: seq<Token>, n: nat)
    requires forall i :: 0 <= i < |Numbers(cond)| ==> Numbers(cond)[i] < n
    ensures AlwaysAgrees(table, columns, cond, n) <==> Numbers(cond) == Range(0, |Numbers(cond)|)
  {
    hide UpdateText, IntendedUpdate, BindInOrder, Numbers, Pick;
    var numbers := Numbers(cond);
    if numbers == Range(0, |numbers|) {
      forall vals: seq<Value>, whereArgs: seq<Value> | |vals| == |columns| && |whereArgs| == n
        ensures BindInOrder(UpdateText(table, columns, n, cond), vals + whereArgs) == IntendedUpdate(table, columns, vals, cond, whereArgs)
      {
        UpdateInOrderIff(table, columns, vals, cond, whereArgs);
        InSequenceFits(numbers, n);
        assert Pick(whereArgs, numbers) == whereArgs[..|numbers|];
      }
    }
    if AlwaysAgrees(table, columns, cond, n) {
      var vals, whereArgs := Counting(|columns|), Counting(n);
      UpdateInOrderIff(table, columns, vals, cond, whereArgs);
      var asked := Pick(whereArgs, numbers);
      assert asked == whereArgs[..|numbers|];
      forall k | 0 <= k < |numbers| ensures numbers[k] == k {
        assert asked[k] == IntValue(numbers[k]) && whereArgs[..|numbers|][k] == IntValue(k);
      }
      assert numbers == Range(0, |numbers|);
    }
  }

  lemma InSequenceFits(numbers: seq<nat>, n: nat)
    requires numbers == Range(0, |numbers|) && forall i :: 0 <= i < |numbers| ==> numbers[i] < n
    ensures |numbers| <= n
  {
    if numbers != [] { assert numbers[|numbers| - 1] == |numbers| - 1; }
  }

  lemma HeadNumbers(table: string)
    ensures Numbers([Raw("UPDATE "), Table(table), Raw(" SET")]) == Numbers([Raw(" WHERE ")]) == []
  {
    BindFixed([Raw("UPDATE "), Table(table), Raw(" SET")], []);
    BindFixed([Raw(" WHERE ")], []);
  }

  lemma UpdateNumbers(table: string, columns: seq<ColumnInfo>, base: nat, cond: seq<Token>)
    ensures Numbers(UpdateText(table, columns, base, cond)) == Range(base, |columns|) + Numbers(cond)
  {
    var head := [Raw("UPDATE "), Table(table), Raw(" SET")];
    AllPositions(columns);
    CountedTextNumbers(columns, AllColumns, base);
    HeadNumbers(table);
    assert |Counted(columns, AllColumns, base)| == |columns|;
    hide Numbers, Sep, Counted, Sets, Conds, Positions, BindByNumber;
    var sets := Sep(Sets(Counted(columns, AllColumns, base)), [Raw(",")]);
    Bind3(head, sets, [Raw(" WHERE ")], []);
    Bind2(head + sets + [Raw(" WHERE ")], cond, []);
    assert UpdateText(table, columns, base, cond) == head + sets + [Raw(" WHERE ")] + cond;
    assert Numbers(head + sets + [Raw(" WHERE ")]) == [] + Range(base, |columns|) + [] == Range(base, |columns|);
  }

  /** An instance: a condition that uses its one placeholder twice is bound differently for every argument. */
  lemma RepeatedPlaceholder(table: string, columns: seq<ColumnInfo>, vals: seq<Value>, w: Value)
    requires |vals| == |columns|
    ensures
      var cond := [Col("a"), Raw("="), Ph(0), Raw(" OR "), Col("b"), Raw("="), Ph(0)];
      BindInOrder(UpdateText(table, columns, 1, cond), vals + [w]) != IntendedUpdate(table, columns, vals, cond, [w])
  {
    hide UpdateText, IntendedUpdate, BindInOrder, Numbers;
    CondNumbers();
    assert Pick([w], [0, 0]) == [w, w];
    UpdateInOrderIff(table, columns, vals, [Col("a"), Raw("="), Ph(0), Raw(" OR "), Col("b"), Raw("="), Ph(0)], [w]);
  }

  lemma CondNumbers()
    ensures Numbers([Col("a"), Raw("="), Ph(0), Raw(" OR "), Col("b"), Raw("="), Ph(0)]) == [0, 0]
  {
    LastNumber([Col("a"), Raw("=")], 0);
    LastNumber([Raw(" OR "), Col("b"), Raw("=")], 0);
    NumbersConcat([Col("a"), Raw("=")] + [Ph(0)], [Raw(" OR "), Col("b"), Raw("=")] + [Ph(0)]);
    assert [Col("a"), Raw("="), Ph(0), Raw(" OR "), Col("b"), Raw("="), Ph(0)]
           == ([Col("a"), Raw("=")] + [Ph(0)]) + ([Raw(" OR "), Col("b"), Raw("=")] + [Ph(0)]);
  }

  // ---------- UpdateRowStruct ----------

  function At<T>(vals: seq<T>, p: seq<nat>): (r: seq<T>)
    requires forall k :: 0 <= k < |p| ==> p[k] < |vals|
    ensures |r| == |p| && forall k :: 0 <= k < |p| ==> r[k] == vals[p[k]]
  {
    seq(|p|, k requires 0 <= k < |p| => vals[p[k]])
  }

  function Reordered<T>(columns: seq<ColumnInfo>, vals: seq<T>): seq<T>
    requires |vals| == |columns|
  {
    At(vals, Positions(columns, NonKeyColumns)) + At(vals, Positions(columns, KeyColumns))
  }

  /** reorderForUpdate: entries of non-key columns first, then those of key columns. */
  method ReorderForUpdate<T>(columns: seq<ColumnInfo>, vals: seq<T>) returns (reordered: seq<T>)
    requires |vals| == |columns|
    ensures reordered == Reordered(columns, vals)
  {
    reordered := AppendKept(columns, vals, NonKeyColumns, []);
    reordered := AppendKept(columns, vals, KeyColumns, reordered);
  }

  /** One of the two append loops. */
  method AppendKept<T>(columns: seq<ColumnInfo>, vals: seq<T>, keep: Keep, before: seq<T>) returns (reordered: seq<T>)
    requires |vals| == |columns|
    ensures reordered == before + At(vals, Positions(columns, keep))
  {
    reordered := before;
    for i := 0 to |columns|
      invariant reordered == before + At(vals, Positions(columns[..i], keep))
    {
      assert columns[..i + 1][..i] == columns[..i];
      if Kept(keep, columns[i]) {
        reordered := reordered + [vals[i]];
      }
      assert reordered == before + At(vals, Positions(columns[..i + 1], keep));
    }
    assert columns[..|columns|] == columns;
  }

  lemma {:induction false} KindsPartition(columns: seq<ColumnInfo>)
    ensures |Positions(columns, NonKeyColumns)| + |Positions(columns, KeyColumns)| == |columns|
    decreases |columns|
  {
    if columns != [] { KindsPartition(columns[..|columns| - 1]); }
  }

  predicate HasKey(columns: seq<ColumnInfo>) { exists i :: 0 <= i < |columns| && columns[i].primaryKey }

  /** The row has the struct's values in all key columns; a NULL key matches no row. */
  predicate KeyMatches(r: Row, columns: seq<ColumnInfo>, args: seq<Value>)
    requires |args| == |columns|
  {
    forall i :: 0 <= i < |columns| && columns[i].primaryKey ==> Get(r, columns[i].name) == args[i] != Null
  }

  /** The bound UPDATE of UpdateColumns with reordered arguments: column by column, the SET list
    * has the non-key columns and the WHERE list the key columns, each with its own value.
    */
  lemma UpdateColumnsBound(table: string, columns: seq<ColumnInfo>, args: seq<Value>)
    requires |args| == |columns|
    ensures
      var q := BindQuery(UpdateColumnsQuery(table, columns), Reordered(columns, args));
      && q.assigns == BindAssigns(Indexed(columns, NonKeyColumns), args)
      && q.filter == BindAssigns(Indexed(columns, KeyColumns), args)
      && (HasKey(columns) ==> q.filter != [])
  {
    var all := Reordered(columns, args);
    var q := BindQuery(UpdateColumnsQuery(table, columns), all);
    PositionsIncrease(columns, KeyColumns);
    KindsPartition(columns);
    assert q.assigns == BindAssigns(Indexed(columns, NonKeyColumns), args);
    assert q.filter == BindAssigns(Indexed(columns, KeyColumns), args);
  }

  lemma UpdateColumnsNumbers(table: string, columns: seq<ColumnInfo>)
    ensures Numbers(Text(UpdateColumnsQuery(table, columns))) == Range(0, |columns|)
  {
    hide *;
    var n := |Positions(columns, NonKeyColumns)|;
    var head := [Raw("UPDATE "), Table(table), Raw(" SET")];
    var sets := Sep(Sets(Counted(columns, NonKeyColumns, 0)), [Raw(",")]);
    var conds := Sep(Conds(Counted(columns, KeyColumns, n)), [Raw(" AND ")]);
    KindsPartition(columns);
    CountedTextNumbers(columns, NonKeyColumns, 0);
    CountedTextNumbers(columns, KeyColumns, n);
    CountedLength(columns, NonKeyColumns, 0);
    CountedLength(columns, KeyColumns, n);
    BindFixed(head, []);
    BindFixed([Raw(" WHERE ")], []);
    assert Range(0, n) + Range(n, |columns| - n) == Range(0, |columns|);
    Bind3(head, sets, [Raw(" WHERE ")], []);
    Bind2(head + sets + [Raw(" WHERE ")], conds, []);
    UpdateColumnsText(table, columns);
  }

  lemma CountedLength(columns: seq<ColumnInfo>, keep: Keep, base: nat)
    ensures |Counted(columns, keep, base)| == |Positions(columns, keep)|
  {
  }

  lemma UpdateColumnsText(table: string, columns: seq<ColumnInfo>)
    ensures Text(UpdateColumnsQuery(table, columns))
            == [Raw("UPDATE "), Table(table), Raw(" SET")] + Sep(Sets(Counted(columns, NonKeyColumns, 0)), [Raw(",")])
               + [Raw(" WHERE ")] + Sep(Conds(Counted(columns, KeyColumns, |Positions(columns, NonKeyColumns)|)), [Raw(" AND ")])
  {
    hide Sep, Sets, Conds, Counted, Positions;
  }

  /** Whether a dialect binds by number or by appearance, the UPDATE of a row struct changes
    * exactly the rows whose key columns equal the struct's key fields, and sets exactly the
    * mapped non-key columns, to the struct's fields.
    */
  lemma RowUpdateEffect(s: Schema, t: set<Row>, table: string, columns: seq<ColumnInfo>, args: seq<Value>)
    requires |args| == |columns| && Distinct(NamesOf(columns))
    ensures
      var text := Text(UpdateColumnsQuery(table, columns));
      var sent := Reordered(columns, args);
      var changed := Only(Given(columns, args), NamesAt(columns, NonKeyColumns));
      var after := set r | r in t :: if KeyMatches(r, columns, args) then r + changed else r;
      && BindByNumber(text, sent) == BindInOrder(text, sent)
      && Runs(s, t, table, BindByNumber(text, sent), Ok(after))
  {
    var sent := Reordered(columns, args);
    KindsPartition(columns);
    UpdateColumnsNumbers(table, columns);
    InSequenceAgree(Text(UpdateColumnsQuery(table, columns)), sent);
    UpdateColumnsBound(table, columns, args);
    IndexedGiven(columns, NonKeyColumns, args);
    forall r ensures Satisfies(r, BindAssigns(Indexed(columns, KeyColumns), args)) <==> KeyMatches(r, columns, args) {
      WhereIsKey(r, columns, args);
    }
    var q := BindQuery(UpdateColumnsQuery(table, columns), sent);
    var meets := (r: Row) => KeyMatches(r, columns, args);
    UpdateExec(s, t, q, meets);
    assert (set r | r in t :: if meets(r) then r + AssignMap(q.assigns) else r)
        == (set r | r in t :: if KeyMatches(r, columns, args) then r + AssignMap(q.assigns) else r);
    UpdatesComplete(table, columns);
    hide Exec, Text, BindQuery, UpdateColumnsQuery, Runs, KeyMatches, Numbers, BindByNumber, BindInOrder;
    var changed := Only(Given(columns, args), NamesAt(columns, NonKeyColumns));
    RunsIs(s, t, table, UpdateColumnsQuery(table, columns), sent,
           Ok(set r | r in t :: if KeyMatches(r, columns, args) then r + changed else r));
  }

  lemma UpdatesComplete(table: string, columns: seq<ColumnInfo>)
    ensures SqlReader.Complete(UpdateColumnsQuery(table, columns)) && SqlReader.Complete(DeleteQuery(table, columns))
  {
    hide Positions;
  }

  /** The effect of an UPDATE whose WHERE says the same as the predicate. */
  lemma UpdateExec(s: Schema, t: set<Row>, q: Query, meets: Row -> bool)
    requires q.Update? && forall r :: Satisfies(r, q.filter) <==> meets(r)
    ensures Exec(s, t, q) == Ok(set r | r in t :: if meets(r) then r + AssignMap(q.assigns) else r)
  {
    hide Satisfies, AssignMap;
    var a := set r | r in t :: if Satisfies(r, q.filter) then r + AssignMap(q.assigns) else r;
    var b := set r | r in t :: if meets(r) then r + AssignMap(q.assigns) else r;
    forall x ensures x in a <==> x in b {
      if x in a {
        var r :| r in t && x == if Satisfies(r, q.filter) then r + AssignMap(q.assigns) else r;
        assert x == if meets(r) then r + AssignMap(q.assigns) else r;
      }
      if x in b {
        var r :| r in t && x == if meets(r) then r + AssignMap(q.assigns) else r;
        assert x == if Satisfies(r, q.filter) then r + AssignMap(q.assigns) else r;
      }
    }
    assert a == b;
  }

  lemma WhereIsKey(r: Row, columns: seq<ColumnInfo>, args: seq<Value>)
    requires |args| == |columns|
    ensures Satisfies(r, BindAssigns(Indexed(columns, KeyColumns), args)) <==> KeyMatches(r, columns, args)
  {
    var filter := BindAssigns(Indexed(columns, KeyColumns), args);
    var p := Positions(columns, KeyColumns);
    PositionsIncrease(columns, KeyColumns);
    if Satisfies(r, filter) {
      forall i | 0 <= i < |columns| && columns[i].primaryKey ensures Get(r, columns[i].name) == args[i] != Null {
        var k :| 0 <= k < |p| && p[k] == i;
        assert filter[k] == Assign(columns[i].name, Val(args[i]));
      }
    }
  }

  // ---------- DeleteRowStruct ----------

  /** Conditions behind one WHERE use the placeholders in sequence. */
  lemma FilterNumbers(verb: string, table: string, columns: seq<ColumnInfo>)
    ensures Numbers([Raw(verb), Table(table), Raw(" WHERE ")] + Sep(Conds(Counted(columns, AllColumns, 0)), [Raw(" AND ")]))
            == Range(0, |columns|)
  {
    var head := [Raw(verb), Table(table), Raw(" WHERE ")];
    AllPositions(columns);
    CountedTextNumbers(columns, AllColumns, 0);
    BindFixed(head, []);
    assert |Counted(columns, AllColumns, 0)| == |columns|;
    hide Numbers, Sep, Counted, Conds, Positions, BindByNumber;
    var conds := Sep(Conds(Counted(columns, AllColumns, 0)), [Raw(" AND ")]);
    Bind2(head, conds, []);
    assert [] + Range(0, |columns|) == Range(0, |columns|);
  }

  lemma DeleteWhere(r: Row, columns: seq<ColumnInfo>, args: seq<Value>)
    requires |args| == |columns| && forall i :: 0 <= i < |columns| ==> columns[i].primaryKey
    ensures var filter := BindAssigns(Counted(columns, AllColumns, 0), args);
            |filter| == |columns| && (Satisfies(r, filter) <==> KeyMatches(r, columns, args))
  {
    AllPositions(columns);
    var filter := BindAssigns(Counted(columns, AllColumns, 0), args);
    assert forall i :: 0 <= i < |columns| ==> filter[i] == Assign(columns[i].name, Val(args[i]));
    hide Counted, Positions;
    if Satisfies(r, filter) {
      forall i | 0 <= i < |columns| ensures Get(r, columns[i].name) == args[i] != Null {
        assert filter[i] == Assign(columns[i].name, Val(args[i]));
      }
    }
  }

  lemma DeleteExec(s: Schema, t: set<Row>, table: string, columns: seq<ColumnInfo>, args: seq<Value>)
    requires |args| == |columns|
    requires forall r :: Satisfies(r, BindAssigns(Counted(columns, AllColumns, 0), args)) <==> KeyMatches(r, columns, args)
    ensures Exec(s, t, BindQuery(DeleteQuery(table, columns), args)) == Ok(set r | r in t && !KeyMatches(r, columns, args))
  {
    hide Satisfies, KeyMatches, Counted, BindAssigns;
    var filter := BindAssigns(Counted(columns, AllColumns, 0), args);
    var left := set r | r in t && !Satisfies(r, filter);
    assert left == set r | r in t && !KeyMatches(r, columns, args);
    assert Exec(s, t, Query.Delete(table, filter)) == Ok(left);
  }

  lemma DeleteText(table: string, columns: seq<ColumnInfo>)
    ensures Text(DeleteQuery(table, columns))
            == [Raw("DELETE FROM "), Table(table), Raw(" WHERE ")] + Sep(Conds(Counted(columns, AllColumns, 0)), [Raw(" AND ")])
    ensures DeleteQuery(table, columns).table == table
  {
    hide Sep, Conds, Counted;
  }

  /** The DELETE of a row struct removes exactly the rows whose key columns equal the struct's key fields, whichever
    * way it is bound.
    */
  lemma RowDeleteEffect(s: Schema, t: set<Row>, table: string, columns: seq<ColumnInfo>, args: seq<Value>)
    requires |args| == |columns| && forall i :: 0 <= i < |columns| ==> columns[i].primaryKey
    ensures
      var text := Text(DeleteQuery(table, columns));
      && BindByNumber(text, args) == BindInOrder(text, args)
      && Runs(s, t, table, BindByNumber(text, args), Ok(set r | r in t && !KeyMatches(r, columns, args)))
  {
    hide *;
    FilterNumbers("DELETE FROM ", table, columns);
    DeleteText(table, columns);
    InSequenceAgree(Text(DeleteQuery(table, columns)), args);
    forall r ensures Satisfies(r, BindAssigns(Counted(columns, AllColumns, 0), args)) <==> KeyMatches(r, columns, args) {
      DeleteWhere(r, columns, args);
    }
    DeleteExec(s, t, table, columns, args);
    UpdatesComplete(table, columns);
    RunsIs(s, t, table, DeleteQuery(table, columns), args, Ok(set r | r in t && !KeyMatches(r, columns, args)));
  }

  // ---------- QueryRowWithPK ----------

  /** The rows that a SELECT returns. */
  function Found(t: set<Row>, q: Query): set<Row>
    requires q.Select?
  {
    set r | r in t && Satisfies(r, q.filter)
  }

  /** The row has the given values in the named columns; NULL is no value to look for. */
  predicate HasKeyValues(r: Row, pkColumns: seq<string>, args: seq<Value>)
    requires |args| == |pkColumns|
  {
    forall i :: 0 <= i < |pkColumns| ==> Get(r, pkColumns[i]) == args[i] != Null
  }

  lemma SelectWhere(r: Row, pkColumns: seq<string>, args: seq<Value>)
    requires |args| == |pkColumns|
    ensures Satisfies(r, BindAssigns(Counted(Named(pkColumns), AllColumns, 0), args)) <==> HasKeyValues(r, pkColumns, args)
  {
    DeleteWhere(r, Named(pkColumns), args);
    forall i | 0 <= i < |pkColumns| ensures NamesOf(Named(pkColumns))[i] == Named(pkColumns)[i].name == pkColumns[i] {}
  }

  lemma SelectText(table: string, pkColumns: seq<string>)
    ensures Text(SelectQuery(table, pkColumns))
            == [Raw("SELECT * FROM "), Table(table), Raw(" WHERE ")]
               + Sep(Conds(Counted(Named(pkColumns), AllColumns, 0)), [Raw(" AND ")])
    ensures SqlReader.Complete(SelectQuery(table, pkColumns))
  {
    hide Sep, Conds, Positions;
  }

  /** The query by primary key is read as a SELECT from its table that finds exactly the rows with the given key,
    * whichever way it is bound.
    */
  lemma RowSelectFinds(t: set<Row>, table: string, pkColumns: seq<string>, args: seq<Value>)
    requires |args| == |pkColumns|
    ensures
      var text := Text(SelectQuery(table, pkColumns));
      var read := SqlReader.Read(BindByNumber(text, args));
      && BindByNumber(text, args) == BindInOrder(text, args)
      && read.Ok? && read.value.Select? && read.value.table == table
      && Found(t, read.value) == set r | r in t && HasKeyValues(r, pkColumns, args)
  {
    hide SqlReader.Read, SqlReader.Complete, Text, BindByNumber, BindInOrder, Sep, Conds, Counted, Numbers, Satisfies, HasKeyValues;
    var q := SelectQuery(table, pkColumns);
    SelectText(table, pkColumns);
    FilterNumbers("SELECT * FROM ", table, Named(pkColumns));
    assert |Named(pkColumns)| == |NamesOf(Named(pkColumns))|;
    InSequenceAgree(Text(q), args);
    SqlReader.BoundIsComplete(q, args);
    SqlReader.TextReadsBack(BindQuery(q, args));
    BindText(q, args);
    forall r ensures Satisfies(r, BindAssigns(Counted(Named(pkColumns), AllColumns, 0), args)) <==> HasKeyValues(r, pkColumns, args) {
      SelectWhere(r, pkColumns, args);
    }
  }

  // ---------- Update with a condition that is a conjunction of equalities ----------

  lemma ValuedGiven(columns: seq<ColumnInfo>, vals: seq<Value>)
    requires |vals| == |columns| && Distinct(NamesOf(columns))
    ensures AssignMap(Valued(columns, vals)) == Given(columns, vals)
  {
    assert ColsOf(Valued(columns, vals)) == NamesOf(columns);
  }

  /** The row has, for each condition, the value of the argument that the condition asks for. */
  predicate Meets(r: Row, filter: seq<Assign>, whereArgs: seq<Value>) {
    forall i :: 0 <= i < |filter| ==>
      filter[i].slot.Ph? && filter[i].slot.index < |whereArgs|
      && Get(r, filter[i].col) == whereArgs[filter[i].slot.index] != Null
  }

  lemma MeetsBound(r: Row, filter: seq<Assign>, whereArgs: seq<Value>)
    requires forall i :: 0 <= i < |filter| ==> filter[i].slot.Ph? && filter[i].slot.index < |whereArgs|
    ensures Satisfies(r, BindAssigns(filter, whereArgs)) <==> Meets(r, filter, whereArgs)
  {
    var bound := BindAssigns(filter, whereArgs);
    if Satisfies(r, bound) {
      forall i | 0 <= i < |filter| ensures Get(r, filter[i].col) == whereArgs[filter[i].slot.index] != Null {
        assert bound[i] == Assign(filter[i].col, Val(whereArgs[filter[i].slot.index]));
      }
    }
  }

  lemma ConditionText(table: string, columns: seq<ColumnInfo>, vals: seq<Value>, filter: seq<Assign>, whereArgs: seq<Value>)
    requires |vals| == |columns|
    requires forall i :: 0 <= i < |filter| ==> filter[i].slot.Ph? && filter[i].slot.index < |whereArgs|
    ensures
      var q := Query.Update(table, Valued(columns, vals), BindAssigns(filter, whereArgs));
      && IntendedUpdate(table, columns, vals, Sep(Conds(filter), [Raw(" AND ")]), whereArgs) == Text(q)
      && SqlReader.Complete(q)
  {
    hide Sep, Sets, Conds, BindByNumber;
    BindCondsText(filter, whereArgs);
  }

  /** An UPDATE whose condition is a conjunction of equalities changes exactly the rows that meet it, and sets in them
    * exactly the given columns, each to its own value; the condition may use its arguments in any order and number.
    */
  lemma UpdateWhereEffect(
      s: Schema, t: set<Row>, table: string, columns: seq<ColumnInfo>, vals: seq<Value>, filter: seq<Assign>, whereArgs: seq<Value>)
    requires |vals| == |columns| && Distinct(NamesOf(columns))
    requires forall i :: 0 <= i < |filter| ==> filter[i].slot.Ph? && filter[i].slot.index < |whereArgs|
    ensures
      var text := UpdateText(table, columns, |whereArgs|, Sep(Conds(filter), [Raw(" AND ")]));
      var after := set r | r in t :: if Meets(r, filter, whereArgs) then r + Given(columns, vals) else r;
      Runs(s, t, table, BindByNumber(text, whereArgs + vals), Ok(after))
  {
    hide Sep, Conds, SqlReader.Read, SqlReader.Complete, Text, BindByNumber, UpdateText, IntendedUpdate, Numbers, Satisfies, Meets, Given, AssignMap, Valued;
    var cond := Sep(Conds(filter), [Raw(" AND ")]);
    var q := Query.Update(table, Valued(columns, vals), BindAssigns(filter, whereArgs));
    ConditionNumbers(filter, |whereArgs|);
    forall i | 0 <= i < |Numbers(cond)| ensures Numbers(cond)[i] < |whereArgs| { assert Numbers(cond)[i] in Numbers(cond); }
    UpdateByNumber(table, columns, vals, cond, whereArgs);
    ConditionText(table, columns, vals, filter, whereArgs);
    SqlReader.TextReadsBack(q);
    ValuedGiven(columns, vals);
    forall r ensures Satisfies(r, BindAssigns(filter, whereArgs)) <==> Meets(r, filter, whereArgs) { MeetsBound(r, filter, whereArgs); }
    var meets := (r: Row) => Meets(r, filter, whereArgs);
    UpdateExec(s, t, q, meets);
    assert (set r | r in t :: if meets(r) then r + AssignMap(q.assigns) else r)
        == (set r | r in t :: if Meets(r, filter, whereArgs) then r + AssignMap(q.assigns) else r);
  }

  /** The placeholders of such a condition are those of its slots. */
  lemma ConditionNumbers(filter: seq<Assign>, n: nat)
    requires forall i :: 0 <= i < |filter| ==> filter[i].slot.Ph? && filter[i].slot.index < n
    ensures forall k :: k in Numbers(Sep(Conds(filter), [Raw(" AND ")])) ==> k < n
  {
    hide Numbers, Sep, Conds, ItemNumbers;
    SepNumbers(Conds(filter), " AND ");
    SlotNumbers(filter, n);
  }

  lemma {:induction false} SlotNumbers(filter: seq<Assign>, n: nat)
    requires forall i :: 0 <= i < |filter| ==> filter[i].slot.Ph? && filter[i].slot.index < n
    ensures forall k :: k in ItemNumbers(Conds(filter)) ==> k < n
    decreases |filter|
  {
    hide Numbers, Conds;
    if filter == [] {
      NoItems();
    } else {
      var last := |filter| - 1;
      SlotNumbers(filter[..last], n);
      ListsGrow(filter);
      ItemNumber(filter[last], filter[last].slot.index);
    }
  }
}
