/** What a database reads in the text of a statement: a recursive descent over bound tokens, with the keywords of SQL. */
module SqlReader {
  import opened Common
  import opened Sql
  import opened SqlAst

  datatype SyntaxError = SyntaxError

  /** What was read, and the tokens behind it. */
  datatype Got<T> = Got(value: T, rest: seq<Token>)

  type Reading<T> = Result<Got<T>, SyntaxError>

  function Expect(ts: seq<Token>, keyword: string): (r: Result<seq<Token>, SyntaxError>)
    ensures r.Ok? ==> ts == [Raw(keyword)] + r.value
  {
    if ts != [] && ts[0] == Raw(keyword) then Ok(ts[1..]) else Fail(SyntaxError)
  }

  function ReadColumn(ts: seq<Token>): (r: Reading<string>)
    ensures r.Ok? ==> ts == [Col(r.value.value)] + r.value.rest
  {
    if ts != [] && ts[0].Col? then Ok(Got(ts[0].name, ts[1..])) else Fail(SyntaxError)
  }

  /** A value, or a placeholder that was left without one. */
  function ReadSlot(ts: seq<Token>): (r: Reading<Token>)
    ensures r.Ok? ==> ts == [r.value.value] + r.value.rest
  {
    if ts != [] && (ts[0].Val? || ts[0].Ph?) then Ok(Got(ts[0], ts[1..])) else Fail(SyntaxError)
  }

  // ---------- items of lists ----------

  /** The lists of SQL statements: column names, values, SET and WHERE entries, and so on. */
  datatype Shape = AName | AValue | ASet | ACondition | AnAlias | ASource | AValuesSet | AMergeSet | AMergeOn

  datatype Item = Item(left: string, right: string, slot: Token)

  const NO_SLOT := Raw("")

  function ReadItem(shape: Shape, ts: seq<Token>): (r: Reading<Item>)
    ensures r.Ok? ==> |r.value.rest| < |ts|
  {
    match shape
    case AName => var c :- ReadColumn(ts); Ok(Got(Item(c.value, "", NO_SLOT), c.rest))
    case AValue => var v :- ReadSlot(ts); Ok(Got(Item("", "", v.value), v.rest))
    case ASet =>
      var t0 :- Expect(ts, " ");
      var c :- ReadColumn(t0);
      var t1 :- Expect(c.rest, "=");
      var v :- ReadSlot(t1);
      Ok(Got(Item(c.value, "", v.value), v.rest))
    case ACondition =>
      var c :- ReadColumn(ts);
      var t1 :- Expect(c.rest, " = ");
      var v :- ReadSlot(t1);
      Ok(Got(Item(c.value, "", v.value), v.rest))
    case AnAlias =>
      var v :- ReadSlot(ts);
      var t1 :- Expect(v.rest, " AS ");
      var c :- ReadColumn(t1);
      Ok(Got(Item(c.value, "", v.value), c.rest))
    case ASource =>
      var t0 :- Expect(ts, "source.");
      var c :- ReadColumn(t0);
      Ok(Got(Item(c.value, "", NO_SLOT), c.rest))
    case AValuesSet =>
      var t0 :- Expect(ts, " ");
      var c :- ReadColumn(t0);
      var t1 :- Expect(c.rest, "=VALUES(");
      var d :- ReadColumn(t1);
      var t2 :- Expect(d.rest, ")");
      Ok(Got(Item(c.value, d.value, NO_SLOT), t2))
    case AMergeSet =>
      var t0 :- Expect(ts, " target.");
      var c :- ReadColumn(t0);
      var t1 :- Expect(c.rest, " = source.");
      var d :- ReadColumn(t1);
      Ok(Got(Item(c.value, d.value, NO_SLOT), d.rest))
    case AMergeOn =>
      var t0 :- Expect(ts, "target.");
      var c :- ReadColumn(t0);
      var t1 :- Expect(c.rest, " = source.");
      var d :- ReadColumn(t1);
      Ok(Got(Item(c.value, d.value, NO_SLOT), d.rest))
  }

  /** A separator and an item, as often as they come. */
  function ReadMore(shape: Shape, sep: string, ts: seq<Token>): (r: Reading<seq<Item>>)
    ensures r.Ok? ==> |r.value.rest| <= |ts|
    decreases |ts|
  {
    if ts == [] || ts[0] != Raw(sep) then Ok(Got([], ts))
    else
      var first :- ReadItem(shape, ts[1..]);
      var more :- ReadMore(shape, sep, first.rest);
      Ok(Got([first.value] + more.value, more.rest))
  }

  /** A list, which may be empty. */
  function ReadList(shape: Shape, sep: string, ts: seq<Token>): (r: Reading<seq<Item>>)
    ensures r.Ok? ==> |r.value.rest| <= |ts|
  {
    match ReadItem(shape, ts)
    case Fail(_) => Ok(Got([], ts))
    case Ok(first) =>
      var more :- ReadMore(shape, sep, first.rest);
      Ok(Got([first.value] + more.value, more.rest))
  }

  function NamesIn(items: seq<Item>): seq<string> { seq(|items|, i requires 0 <= i < |items| => items[i].left) }

  function SlotsIn(items: seq<Item>): seq<Token> { seq(|items|, i requires 0 <= i < |items| => items[i].slot) }

  function AssignsIn(items: seq<Item>): seq<Assign> {
    seq(|items|, i requires 0 <= i < |items| => Assign(items[i].left, items[i].slot))
  }

  function PairsIn(items: seq<Item>): seq<Pair> {
    seq(|items|, i requires 0 <= i < |items| => Pair(items[i].left, items[i].right))
  }

  // ---------- rows ----------

  function ReadRow(ts: seq<Token>): (r: Reading<seq<Token>>)
    ensures r.Ok? ==> |r.value.rest| < |ts|
  {
    var t0 :- Expect(ts, "(");
    var values :- ReadList(AValue, ",", t0);
    var t1 :- Expect(values.rest, ")");
    Ok(Got(SlotsIn(values.value), t1))
  }

  /** Rows with commas between, at least one. */
  function ReadRows(ts: seq<Token>): Reading<seq<seq<Token>>>
    decreases |ts|
  {
    var row :- ReadRow(ts);
    if row.rest == [] || row.rest[0] != Raw(",") then Ok(Got([row.value], row.rest))
    else
      var more :- ReadRows(row.rest[1..]);
      Ok(Got([row.value] + more.value, more.rest))
  }

  // ---------- statements ----------

  function ReadInsert(table: string, ts: seq<Token>): Result<Query, SyntaxError> {
    var t0 :- Expect(ts, "(");
    var names :- ReadList(AName, ",", t0);
    var t1 :- Expect(names.rest, ") VALUES");
    var rows :- ReadRows(t1);
    if rows.rest == [] then Ok(Insert(table, NamesIn(names.value), rows.value))
    else if |rows.value| != 1 then Fail(SyntaxError)
    else ReadConflict(table, NamesIn(names.value), rows.value[0], rows.rest)
  }

  /** What is to happen when the row's key is there already. */
  function ReadConflict(table: string, cols: seq<string>, row: seq<Token>, ts: seq<Token>): Result<Query, SyntaxError> {
    if |ts| == 3 && ts[0] == Raw(" ON CONFLICT (") && ts[1].Raw? && ts[2] == Raw(") DO NOTHING") then
      Ok(IgnorePg(table, cols, row, ts[1].text))
    else if ts != [] && ts[0] == Raw(" ON CONFLICT (") then
      var target :- ReadList(AName, ",", ts[1..]);
      var t1 :- Expect(target.rest, ") DO UPDATE SET");
      var sets :- ReadList(ASet, ",", t1);
      if sets.rest == [] then Ok(UpsertPg(table, cols, row, NamesIn(target.value), AssignsIn(sets.value))) else Fail(SyntaxError)
    else if ts != [] && ts[0] == Raw(" ON DUPLICATE KEY UPDATE") then
      var sets :- ReadList(AValuesSet, ",", ts[1..]);
      if sets.rest == [] then Ok(UpsertMy(table, cols, row, PairsIn(sets.value))) else Fail(SyntaxError)
    else
      var t1 :- Expect(ts, " ON DUPLICATE KEY UPDATE ");
      var c :- ReadColumn(t1);
      var t2 :- Expect(c.rest, " = ");
      var d :- ReadColumn(t2);
      if c.value == d.value && d.rest == [] then Ok(IgnoreMy(table, cols, row, c.value)) else Fail(SyntaxError)
  }

  datatype Tail = Tail(pairs: seq<Pair>, into: seq<string>, from: seq<string>)

  /** The two WHEN clauses of a MERGE; the first may be missing. */
  function ReadWhens(ts: seq<Token>): Reading<Tail> {
    if ts != [] && ts[0] == Raw(" WHEN MATCHED THEN UPDATE SET") then
      var sets :- ReadList(AMergeSet, ",", ts[1..]);
      if sets.value == [] then Fail(SyntaxError) else ReadInserting(PairsIn(sets.value), sets.rest)
    else ReadInserting([], ts)
  }

  function ReadInserting(pairs: seq<Pair>, ts: seq<Token>): Reading<Tail> {
    var t0 :- Expect(ts, " WHEN NOT MATCHED THEN INSERT (");
    var into :- ReadList(AName, ",", t0);
    var t1 :- Expect(into.rest, ") VALUES (");
    var from :- ReadList(ASource, ",", t1);
    var t2 :- Expect(from.rest, ")");
    Ok(Got(Tail(pairs, NamesIn(into.value), NamesIn(from.value)), t2))
  }

  function ReadMergeMs(table: string, ts: seq<Token>): Result<Query, SyntaxError> {
    var t0 :- Expect(ts, " WITH (HOLDLOCK) AS target USING (VALUES(");
    var row :- ReadList(AValue, ",", t0);
    var t1 :- Expect(row.rest, ")) AS source(");
    var names :- ReadList(AName, ",", t1);
    var t2 :- Expect(names.rest, ") ON ");
    var on :- ReadList(AMergeOn, " AND ", t2);
    var tail :- ReadWhens(on.rest);
    if tail.rest != [Raw(";")] then Fail(SyntaxError)
    else
      Ok(MergeMs(table, SlotsIn(row.value), NamesIn(names.value), PairsIn(on.value),
                 tail.value.pairs, tail.value.into, tail.value.from))
  }

  function ReadMergeOra(table: string, ts: seq<Token>): Result<Query, SyntaxError> {
    var t0 :- Expect(ts, " target USING (SELECT ");
    var source :- ReadList(AnAlias, ", ", t0);
    var t1 :- Expect(source.rest, " FROM DUAL) source ON (");
    var on :- ReadList(AMergeOn, " AND ", t1);
    var t2 :- Expect(on.rest, ")");
    var tail :- ReadWhens(t2);
    if tail.rest != [] then Fail(SyntaxError)
    else Ok(MergeOra(table, AssignsIn(source.value), PairsIn(on.value), tail.value.pairs, tail.value.into, tail.value.from))
  }

  function ReadUpdate(table: string, ts: seq<Token>): Result<Query, SyntaxError> {
    var t0 :- Expect(ts, " SET");
    var sets :- ReadList(ASet, ",", t0);
    var t1 :- Expect(sets.rest, " WHERE ");
    var filter :- ReadFilter(t1);
    Ok(Query.Update(table, AssignsIn(sets.value), filter))
  }

  /** The rest of a statement, as a conjunction of equalities. */
  function ReadFilter(ts: seq<Token>): Result<seq<Assign>, SyntaxError> {
    var filter :- ReadList(ACondition, " AND ", ts);
    if filter.rest != [] then Fail(SyntaxError) else Ok(AssignsIn(filter.value))
  }

  /** The statement that the text is, if it is one. */
  function Read(ts: seq<Token>): Result<Query, SyntaxError> {
    if |ts| < 2 || !ts[1].Table? then Fail(SyntaxError)
    else
      var table, rest := ts[1].name, ts[2..];
      if ts[0] == Raw("INSERT INTO ") then ReadInsert(table, rest)
      else if ts[0] == Raw("MERGE INTO ") then
        if rest != [] && rest[0] == Raw(" target USING (SELECT ") then ReadMergeOra(table, rest) else ReadMergeMs(table, rest)
      else if ts[0] == Raw("UPDATE ") then ReadUpdate(table, rest)
      else
        var t0 :- Expect(rest, " WHERE ");
        var filter :- ReadFilter(t0);
        if ts[0] == Raw("DELETE FROM ") then Ok(Query.Delete(table, filter))
        else if ts[0] == Raw("SELECT * FROM ") then Ok(Query.Select(table, filter))
        else Fail(SyntaxError)
  }

  // ---------- lists are read back ----------

  /** These tokens are read as this item, whatever follows. */
  ghost predicate ReadsAs(shape: Shape, tokens: seq<Token>, item: Item) {
    forall rest :: ReadItem(shape, tokens + rest) == Ok(Got(item, rest))
  }

  ghost predicate AllReadAs(shape: Shape, items: seq<seq<Token>>, read: seq<Item>) {
    |items| == |read| && forall i :: 0 <= i < |items| ==> ReadsAs(shape, items[i], read[i])
  }

  /** Neither an item nor a separator begins here. */
  predicate Stops(shape: Shape, sep: string, rest: seq<Token>) {
    (rest == [] || rest[0] != Raw(sep)) && ReadItem(shape, rest).Fail?
  }

  lemma {:induction false} SepFirst(items: seq<seq<Token>>, sep: seq<Token>)
    requires |items| > 1
    ensures Sep(items, sep) == items[0] + sep + Sep(items[1..], sep)
    decreases |items|
  {
    var n := |items| - 1;
    if n > 1 {
      SepFirst(items[..n], sep);
      assert items[..n][1..] == items[1..][..n - 1] && items[1..][n - 1] == items[n];
      assert Sep(items, sep) == (items[0] + sep + Sep(items[1..][..n - 1], sep)) + sep + items[n];
    } else {
      assert items[..1] == [items[0]] && items[1..] == [items[1]];
    }
  }

  lemma {:induction false} MoreRead(shape: Shape, sep: string, items: seq<seq<Token>>, read: seq<Item>, rest: seq<Token>)
    requires items != [] && AllReadAs(shape, items, read) && Stops(shape, sep, rest)
    ensures ReadMore(shape, sep, [Raw(sep)] + Sep(items, [Raw(sep)]) + rest) == Ok(Got(read, rest))
    decreases |items|
  {
    hide ReadItem;
    var ts := [Raw(sep)] + Sep(items, [Raw(sep)]) + rest;
    assert ReadsAs(shape, items[0], read[0]);
    if |items| == 1 {
      assert ts[1..] == items[0] + rest;
      assert ReadMore(shape, sep, rest) == Ok(Got([], rest));
      assert [read[0]] + [] == read;
    } else {
      var tail := [Raw(sep)] + Sep(items[1..], [Raw(sep)]) + rest;
      SepFirst(items, [Raw(sep)]);
      assert ts[1..] == items[0] + tail;
      assert AllReadAs(shape, items[1..], read[1..]) by {
        forall i | 0 <= i < |items[1..]| ensures ReadsAs(shape, items[1..][i], read[1..][i]) {
          assert ReadsAs(shape, items[i + 1], read[i + 1]);
        }
      }
      MoreRead(shape, sep, items[1..], read[1..], rest);
      assert [read[0]] + read[1..] == read;
    }
  }

  lemma ListRead(shape: Shape, sep: string, items: seq<seq<Token>>, read: seq<Item>, rest: seq<Token>)
    requires AllReadAs(shape, items, read) && Stops(shape, sep, rest)
    ensures ReadList(shape, sep, Sep(items, [Raw(sep)]) + rest) == Ok(Got(read, rest))
  {
    hide ReadItem;
    var ts := Sep(items, [Raw(sep)]) + rest;
    if items == [] {
      assert ts == rest;
    } else {
      assert ReadsAs(shape, items[0], read[0]);
      if |items| == 1 {
        assert ts == items[0] + rest;
        assert ReadMore(shape, sep, rest) == Ok(Got([], rest));
        assert [read[0]] + [] == read;
      } else {
        var tail := [Raw(sep)] + Sep(items[1..], [Raw(sep)]) + rest;
        SepFirst(items, [Raw(sep)]);
        assert ts == items[0] + tail;
        assert AllReadAs(shape, items[1..], read[1..]) by {
          forall i | 0 <= i < |items[1..]| ensures ReadsAs(shape, items[1..][i], read[1..][i]) {
            assert ReadsAs(shape, items[i + 1], read[i + 1]);
          }
        }
        MoreRead(shape, sep, items[1..], read[1..], rest);
        assert [read[0]] + read[1..] == read;
      }
    }
  }

  predicate IsSlot(t: Token) { t.Val? || t.Ph? }

  lemma NameReads(left: string)
    ensures ReadsAs(AName, [Col(left)], Item(left, "", NO_SLOT))
  {
    forall rest ensures ReadItem(AName, [Col(left)] + rest) == Ok(Got(Item(left, "", NO_SLOT), rest)) {
      var ts := [Col(left)] + rest;
    }
  }

  lemma SourceReads(left: string)
    ensures ReadsAs(ASource, [Raw("source."), Col(left)], Item(left, "", NO_SLOT))
  {
    forall rest ensures ReadItem(ASource, [Raw("source."), Col(left)] + rest) == Ok(Got(Item(left, "", NO_SLOT), rest)) {
      var ts := [Raw("source."), Col(left)] + rest;
      assert ts[1..] == [Col(left)] + rest && ts[1..][1..] == rest;
    }
  }

  lemma ValueReads(slot: Token)
    requires IsSlot(slot)
    ensures ReadsAs(AValue, [slot], Item("", "", slot))
  {
    forall rest ensures ReadItem(AValue, [slot] + rest) == Ok(Got(Item("", "", slot), rest)) {
      var ts := [slot] + rest;
    }
  }

  lemma SetReads(left: string, slot: Token)
    requires IsSlot(slot)
    ensures ReadsAs(ASet, [Raw(" "), Col(left), Raw("="), slot], Item(left, "", slot))
  {
    forall rest ensures ReadItem(ASet, [Raw(" "), Col(left), Raw("="), slot] + rest) == Ok(Got(Item(left, "", slot), rest)) {
      var ts := [Raw(" "), Col(left), Raw("="), slot] + rest;
      assert ts[1..] == [Col(left), Raw("="), slot] + rest && ts[1..][1..] == [Raw("="), slot] + rest;
      assert ts[1..][1..][1..] == [slot] + rest && ts[1..][1..][1..][1..] == rest;
    }
  }

  lemma ConditionReads(left: string, slot: Token)
    requires IsSlot(slot)
    ensures ReadsAs(ACondition, [Col(left), Raw(" = "), slot], Item(left, "", slot))
  {
    forall rest ensures ReadItem(ACondition, [Col(left), Raw(" = "), slot] + rest) == Ok(Got(Item(left, "", slot), rest)) {
      var ts := [Col(left), Raw(" = "), slot] + rest;
      assert ts[1..] == [Raw(" = "), slot] + rest && ts[1..][1..] == [slot] + rest;
      assert ts[1..][1..][1..] == rest;
    }
  }

  lemma AliasReads(left: string, slot: Token)
    requires IsSlot(slot)
    ensures ReadsAs(AnAlias, [slot, Raw(" AS "), Col(left)], Item(left, "", slot))
  {
    forall rest ensures ReadItem(AnAlias, [slot, Raw(" AS "), Col(left)] + rest) == Ok(Got(Item(left, "", slot), rest)) {
      var ts := [slot, Raw(" AS "), Col(left)] + rest;
      assert ts[1..] == [Raw(" AS "), Col(left)] + rest && ts[1..][1..] == [Col(left)] + rest;
      assert ts[1..][1..][1..] == rest;
    }
  }

  lemma ValuesSetReads(left: string, right: string)
    ensures ReadsAs(AValuesSet, [Raw(" "), Col(left), Raw("=VALUES("), Col(right), Raw(")")], Item(left, right, NO_SLOT))
  {
    forall rest ensures ReadItem(AValuesSet, [Raw(" "), Col(left), Raw("=VALUES("), Col(right), Raw(")")] + rest) == Ok(Got(Item(left, right, NO_SLOT), rest)) {
      var ts := [Raw(" "), Col(left), Raw("=VALUES("), Col(right), Raw(")")] + rest;
      assert ts[1..] == [Col(left), Raw("=VALUES("), Col(right), Raw(")")] + rest && ts[1..][1..] == [Raw("=VALUES("), Col(right), Raw(")")] + rest;
      assert ts[1..][1..][1..] == [Col(right), Raw(")")] + rest && ts[1..][1..][1..][1..] == [Raw(")")] + rest;
      assert ts[1..][1..][1..][1..][1..] == rest;
    }
  }

  lemma MergeSetReads(left: string, right: string)
    ensures ReadsAs(AMergeSet, [Raw(" target."), Col(left), Raw(" = source."), Col(right)], Item(left, right, NO_SLOT))
  {
    forall rest ensures ReadItem(AMergeSet, [Raw(" target."), Col(left), Raw(" = source."), Col(right)] + rest) == Ok(Got(Item(left, right, NO_SLOT), rest)) {
      var ts := [Raw(" target."), Col(left), Raw(" = source."), Col(right)] + rest;
      assert ts[1..] == [Col(left), Raw(" = source."), Col(right)] + rest && ts[1..][1..] == [Raw(" = source."), Col(right)] + rest;
      assert ts[1..][1..][1..] == [Col(right)] + rest && ts[1..][1..][1..][1..] == rest;
    }
  }

  lemma MergeOnReads(left: string, right: string)
    ensures ReadsAs(AMergeOn, [Raw("target."), Col(left), Raw(" = source."), Col(right)], Item(left, right, NO_SLOT))
  {
    forall rest ensures ReadItem(AMergeOn, [Raw("target."), Col(left), Raw(" = source."), Col(right)] + rest) == Ok(Got(Item(left, right, NO_SLOT), rest)) {
      var ts := [Raw("target."), Col(left), Raw(" = source."), Col(right)] + rest;
      assert ts[1..] == [Col(left), Raw(" = source."), Col(right)] + rest && ts[1..][1..] == [Raw(" = source."), Col(right)] + rest;
      assert ts[1..][1..][1..] == [Col(right)] + rest && ts[1..][1..][1..][1..] == rest;
    }
  }

  predicate AllSlots(row: seq<Token>) { forall i :: 0 <= i < |row| ==> IsSlot(row[i]) }

  predicate AllAssigned(list: seq<Assign>) { forall i :: 0 <= i < |list| ==> IsSlot(list[i].slot) }

  lemma NamesRead(list: seq<string>, rest: seq<Token>) returns (items: seq<Item>)
    requires Stops(AName, ",", rest)
    ensures ReadList(AName, ",", Sep(Names(list), [Raw(",")]) + rest) == Ok(Got(items, rest)) && NamesIn(items) == list
  {
    items := seq(|list|, i requires 0 <= i < |list| => Item(list[i], "", NO_SLOT));
    forall i | 0 <= i < |list| ensures ReadsAs(AName, Names(list)[i], items[i]) { NameReads(list[i]); }
    hide ReadItem, ReadList, ReadsAs;
    ListRead(AName, ",", Names(list), items, rest);
  }

  lemma SourcesRead(list: seq<string>, rest: seq<Token>) returns (items: seq<Item>)
    requires Stops(ASource, ",", rest)
    ensures ReadList(ASource, ",", Sep(SourceNames(list), [Raw(",")]) + rest) == Ok(Got(items, rest)) && NamesIn(items) == list
  {
    items := seq(|list|, i requires 0 <= i < |list| => Item(list[i], "", NO_SLOT));
    forall i | 0 <= i < |list| ensures ReadsAs(ASource, SourceNames(list)[i], items[i]) { SourceReads(list[i]); }
    hide ReadItem, ReadList, ReadsAs;
    ListRead(ASource, ",", SourceNames(list), items, rest);
  }

  lemma SlotsRead(list: seq<Token>, rest: seq<Token>) returns (items: seq<Item>)
    requires Stops(AValue, ",", rest) && AllSlots(list)
    ensures ReadList(AValue, ",", Sep(Slots(list), [Raw(",")]) + rest) == Ok(Got(items, rest)) && SlotsIn(items) == list
  {
    items := seq(|list|, i requires 0 <= i < |list| => Item("", "", list[i]));
    forall i | 0 <= i < |list| ensures ReadsAs(AValue, Slots(list)[i], items[i]) { ValueReads(list[i]); }
    hide ReadItem, ReadList, ReadsAs;
    ListRead(AValue, ",", Slots(list), items, rest);
  }

  lemma SetsRead(list: seq<Assign>, rest: seq<Token>) returns (items: seq<Item>)
    requires Stops(ASet, ",", rest) && AllAssigned(list)
    ensures ReadList(ASet, ",", Sep(Sets(list), [Raw(",")]) + rest) == Ok(Got(items, rest)) && AssignsIn(items) == list
  {
    items := seq(|list|, i requires 0 <= i < |list| => Item(list[i].col, "", list[i].slot));
    forall i | 0 <= i < |list| ensures ReadsAs(ASet, Sets(list)[i], items[i]) { SetReads(list[i].col, list[i].slot); }
    hide ReadItem, ReadList, ReadsAs;
    ListRead(ASet, ",", Sets(list), items, rest);
  }

  lemma ConditionsRead(list: seq<Assign>, rest: seq<Token>) returns (items: seq<Item>)
    requires Stops(ACondition, " AND ", rest) && AllAssigned(list)
    ensures ReadList(ACondition, " AND ", Sep(Conds(list), [Raw(" AND ")]) + rest) == Ok(Got(items, rest)) && AssignsIn(items) == list
  {
    items := seq(|list|, i requires 0 <= i < |list| => Item(list[i].col, "", list[i].slot));
    forall i | 0 <= i < |list| ensures ReadsAs(ACondition, Conds(list)[i], items[i]) { ConditionReads(list[i].col, list[i].slot); }
    hide ReadItem, ReadList, ReadsAs;
    ListRead(ACondition, " AND ", Conds(list), items, rest);
  }

  lemma AliasesRead(list: seq<Assign>, rest: seq<Token>) returns (items: seq<Item>)
    requires Stops(AnAlias, ", ", rest) && AllAssigned(list)
    ensures ReadList(AnAlias, ", ", Sep(Aliases(list), [Raw(", ")]) + rest) == Ok(Got(items, rest)) && AssignsIn(items) == list
  {
    items := seq(|list|, i requires 0 <= i < |list| => Item(list[i].col, "", list[i].slot));
    forall i | 0 <= i < |list| ensures ReadsAs(AnAlias, Aliases(list)[i], items[i]) { AliasReads(list[i].col, list[i].slot); }
    hide ReadItem, ReadList, ReadsAs;
    ListRead(AnAlias, ", ", Aliases(list), items, rest);
  }

  lemma ValuesSetsRead(list: seq<Pair>, rest: seq<Token>) returns (items: seq<Item>)
    requires Stops(AValuesSet, ",", rest)
    ensures ReadList(AValuesSet, ",", Sep(ValuesSets(list), [Raw(",")]) + rest) == Ok(Got(items, rest)) && PairsIn(items) == list
  {
    items := seq(|list|, i requires 0 <= i < |list| => Item(list[i].left, list[i].right, NO_SLOT));
    forall i | 0 <= i < |list| ensures ReadsAs(AValuesSet, ValuesSets(list)[i], items[i]) { ValuesSetReads(list[i].left, list[i].right); }
    hide ReadItem, ReadList, ReadsAs;
    ListRead(AValuesSet, ",", ValuesSets(list), items, rest);
  }

  lemma MergeSetsRead(list: seq<Pair>, rest: seq<Token>) returns (items: seq<Item>)
    requires Stops(AMergeSet, ",", rest)
    ensures ReadList(AMergeSet, ",", Sep(MergeSets(list), [Raw(",")]) + rest) == Ok(Got(items, rest)) && PairsIn(items) == list
  {
    items := seq(|list|, i requires 0 <= i < |list| => Item(list[i].left, list[i].right, NO_SLOT));
    forall i | 0 <= i < |list| ensures ReadsAs(AMergeSet, MergeSets(list)[i], items[i]) { MergeSetReads(list[i].left, list[i].right); }
    hide ReadItem, ReadList, ReadsAs;
    ListRead(AMergeSet, ",", MergeSets(list), items, rest);
  }

  lemma MergeOnsRead(list: seq<Pair>, rest: seq<Token>) returns (items: seq<Item>)
    requires Stops(AMergeOn, " AND ", rest)
    ensures ReadList(AMergeOn, " AND ", Sep(MergeOns(list), [Raw(" AND ")]) + rest) == Ok(Got(items, rest)) && PairsIn(items) == list
  {
    items := seq(|list|, i requires 0 <= i < |list| => Item(list[i].left, list[i].right, NO_SLOT));
    forall i | 0 <= i < |list| ensures ReadsAs(AMergeOn, MergeOns(list)[i], items[i]) { MergeOnReads(list[i].left, list[i].right); }
    hide ReadItem, ReadList, ReadsAs;
    ListRead(AMergeOn, " AND ", MergeOns(list), items, rest);
  }

  // ---------- every statement is read back ----------

  lemma KeywordStops(shape: Shape, sep: string, keyword: string, rest: seq<Token>)
    requires keyword !in {sep, " ", "source.", " target.", "target."}
    ensures Stops(shape, sep, [Raw(keyword)] + rest)
  {
  }

  lemma EndStops(shape: Shape, sep: string)
    ensures Stops(shape, sep, [])
  {
  }

  lemma RowRead(row: seq<Token>, rest: seq<Token>)
    requires AllSlots(row)
    ensures ReadRow([Raw("(")] + Sep(Slots(row), [Raw(",")]) + [Raw(")")] + rest) == Ok(Got(row, rest))
  {
    hide ReadList, Sep, Slots;
    var ts := [Raw("(")] + Sep(Slots(row), [Raw(",")]) + [Raw(")")] + rest;
    var behind := [Raw(")")] + rest;
    KeywordStops(AValue, ",", ")", rest);
    var items := SlotsRead(row, behind);
    assert ts[1..] == Sep(Slots(row), [Raw(",")]) + behind;
    assert behind[1..] == rest;
  }

  /** A row, and then either no comma or further rows. */
  lemma FirstRow(row: seq<Token>, rest: seq<Token>)
    requires AllSlots(row)
    ensures
      var ts := [Raw("(")] + Sep(Slots(row), [Raw(",")]) + [Raw(")")] + rest;
      if rest == [] || rest[0] != Raw(",") then ReadRows(ts) == Ok(Got([row], rest))
      else
        var more := ReadRows(rest[1..]);
        more.Ok? ==> ReadRows(ts) == Ok(Got([row] + more.value.value, more.value.rest))
  {
    RowRead(row, rest);
    hide ReadRow, Sep, Slots, AllSlots;
  }

  predicate AllRows(rows: seq<seq<Token>>) { forall i :: 0 <= i < |rows| ==> AllSlots(rows[i]) }

  lemma {:induction false} RowsRead(rows: seq<seq<Token>>, rest: seq<Token>)
    requires rows != [] && AllRows(rows) && (rest == [] || rest[0] != Raw(","))
    ensures ReadRows(Sep(Rows(rows), [Raw(",")]) + rest) == Ok(Got(rows, rest))
    decreases |rows|
  {
    hide ReadRows, Slots, Sep, Rows;
    if |rows| == 1 {
      OnlyRow(rows, rest);
      FirstRow(rows[0], rest);
      assert [rows[0]] == rows;
    } else {
      RowsRead(rows[1..], rest);
      MoreRows(rows, rest);
    }
  }

  lemma OnlyRow(rows: seq<seq<Token>>, rest: seq<Token>)
    requires |rows| == 1
    ensures Sep(Rows(rows), [Raw(",")]) + rest == [Raw("(")] + Sep(Slots(rows[0]), [Raw(",")]) + [Raw(")")] + rest
  {
  }

  lemma MoreRows(rows: seq<seq<Token>>, rest: seq<Token>)
    requires |rows| > 1 && AllRows(rows)
    requires ReadRows(Sep(Rows(rows[1..]), [Raw(",")]) + rest) == Ok(Got(rows[1..], rest))
    ensures ReadRows(Sep(Rows(rows), [Raw(",")]) + rest) == Ok(Got(rows, rest))
  {
    hide ReadRows, AllSlots, Slots, Sep, Rows;
    var more := Sep(Rows(rows[1..]), [Raw(",")]) + rest;
    RowsBegin(rows, rest);
    FirstRow(rows[0], [Raw(",")] + more);
    assert ([Raw(",")] + more)[1..] == more;
    assert [rows[0]] + rows[1..] == rows;
  }

  lemma RowsBegin(rows: seq<seq<Token>>, rest: seq<Token>)
    requires |rows| > 1
    ensures Sep(Rows(rows), [Raw(",")]) + rest
         == [Raw("(")] + Sep(Slots(rows[0]), [Raw(",")]) + [Raw(")")] + ([Raw(",")] + (Sep(Rows(rows[1..]), [Raw(",")]) + rest))
  {
    hide Sep, Slots;
    SepFirst(Rows(rows), [Raw(",")]);
    RowsTail(rows);
    hide Rows;
    var first, more := [Raw("(")] + Sep(Slots(rows[0]), [Raw(",")]) + [Raw(")")], Sep(Rows(rows[1..]), [Raw(",")]);
    assert first + [Raw(",")] + more + rest == first + ([Raw(",")] + (more + rest));
  }

  lemma RowsTail(rows: seq<seq<Token>>)
    requires |rows| > 1
    ensures Rows(rows)[1..] == Rows(rows[1..])
    ensures Rows(rows)[0] == [Raw("(")] + Sep(Slots(rows[0]), [Raw(",")]) + [Raw(")")]
  {
    hide Sep, Slots;
  }

  /** INSERT up to what comes behind its rows. */
  lemma InsertReads(table: string, cols: seq<string>, rows: seq<seq<Token>>, tail: seq<Token>)
    requires rows != [] && AllRows(rows) && (tail == [] || tail[0] != Raw(","))
    ensures
      Read(InsertHead(table, cols) + Sep(Rows(rows), [Raw(",")]) + tail) ==
        if tail == [] then Ok(Insert(table, cols, rows))
        else if |rows| != 1 then Fail(SyntaxError)
        else ReadConflict(table, cols, rows[0], tail)
  {
    hide ReadList, ReadRows, ReadConflict, Sep, Names, Rows;
    var names, values := Sep(Names(cols), [Raw(",")]), Sep(Rows(rows), [Raw(",")]);
    var ts := InsertHead(table, cols) + values + tail;
    var behind := [Raw(") VALUES")] + (values + tail);
    KeywordStops(AName, ",", ") VALUES", values + tail);
    var items := NamesRead(cols, behind);
    RowsRead(rows, tail);
    assert ts[2..] == [Raw("(")] + (names + behind);
    assert ts[2..][1..] == names + behind && behind[1..] == values + tail;
  }

  lemma PgReads(q: Query)
    requires q.UpsertPg? && AllSlots(q.row) && AllAssigned(q.assigns)
    ensures Read(Text(q)) == Ok(q)
  {
    hide Read, ReadList, Sep, Names, Sets, InsertHead, Rows;
    var target, sets := Sep(Names(q.target), [Raw(",")]), Sep(Sets(q.assigns), [Raw(",")]);
    var behind := [Raw(") DO UPDATE SET")] + sets;
    var tail := [Raw(" ON CONFLICT (")] + (target + behind);
    assert Text(q) == InsertHead(q.table, q.cols) + Sep(Rows([q.row]), [Raw(",")]) + tail;
    InsertReads(q.table, q.cols, [q.row], tail);
    KeywordStops(AName, ",", ") DO UPDATE SET", sets);
    var names := NamesRead(q.target, behind);
    EndStops(ASet, ",");
    var items := SetsRead(q.assigns, []);
    assert sets + [] == sets;
    assert tail[1..] == target + behind && behind[1..] == sets;
    NotIgnore(q.target, q.assigns);
  }

  lemma FirstItem(items: seq<seq<Token>>, sep: seq<Token>)
    requires items != []
    ensures items[0] <= Sep(items, sep)
  {
    if |items| > 1 { SepFirst(items, sep); }
  }

  /** The text of DO UPDATE is not that of DO NOTHING. */
  lemma NotIgnore(cols: seq<string>, list: seq<Assign>)
    ensures var sets := Sep(Sets(list), [Raw(",")]);
            var tail := [Raw(" ON CONFLICT (")] + (Sep(Names(cols), [Raw(",")]) + ([Raw(") DO UPDATE SET")] + sets));
            !(|tail| == 3 && tail[1].Raw? && tail[2] == Raw(") DO NOTHING"))
  {
    if cols != [] { FirstItem(Names(cols), [Raw(",")]); }
    if list != [] { FirstItem(Sets(list), [Raw(",")]); }
    hide Sep;
    if cols != [] {
      var names := Sep(Names(cols), [Raw(",")]);
      assert names[0] == Names(cols)[0][0] == Col(cols[0]);
    }
  }

  lemma MyReads(q: Query)
    requires q.UpsertMy? && AllSlots(q.row)
    ensures Read(Text(q)) == Ok(q)
  {
    hide Read, ReadList, Sep, ValuesSets, InsertHead, Rows;
    var sets := Sep(ValuesSets(q.pairs), [Raw(",")]);
    var tail := [Raw(" ON DUPLICATE KEY UPDATE")] + sets;
    InsertReads(q.table, q.cols, [q.row], tail);
    assert Text(q) == InsertHead(q.table, q.cols) + Sep(Rows([q.row]), [Raw(",")]) + tail;
    EndStops(AValuesSet, ",");
    var items := ValuesSetsRead(q.pairs, []);
    assert sets + [] == sets && tail[1..] == sets;
  }

  lemma IgnoresRead(q: Query)
    requires (q.IgnorePg? || q.IgnoreMy?) && AllSlots(q.row)
    ensures Read(Text(q)) == Ok(q)
  {
    hide Read, ReadList, Sep, InsertHead, Rows;
    var tail := if q.IgnorePg? then [Raw(" ON CONFLICT ("), Raw(q.written), Raw(") DO NOTHING")]
                else [Raw(" ON DUPLICATE KEY UPDATE "), Col(q.col), Raw(" = "), Col(q.col)];
    InsertReads(q.table, q.cols, [q.row], tail);
    assert Text(q) == InsertHead(q.table, q.cols) + Sep(Rows([q.row]), [Raw(",")]) + tail;
    if q.IgnoreMy? {
      assert tail[1..] == [Col(q.col), Raw(" = "), Col(q.col)] && tail[2..] == [Raw(" = "), Col(q.col)];
      assert tail[1..][1..] == tail[2..] && tail[2..][1..] == [Col(q.col)] && [Col(q.col)][1..] == [];
    }
  }

  /** The WHEN clauses are read back, whatever follows. */
  lemma WhensRead(pairs: seq<Pair>, into: seq<string>, from: seq<string>, rest: seq<Token>)
    ensures ReadWhens(MergeTail(pairs, into, from) + rest) == Ok(Got(Tail(pairs, into, from), rest))
  {
    hide ReadList, Sep, MergeSets, Names, SourceNames, ReadInserting;
    var sets := Sep(MergeSets(pairs), [Raw(",")]);
    var inserting := [Raw(" WHEN NOT MATCHED THEN INSERT (")] + Sep(Names(into), [Raw(",")])
                     + [Raw(") VALUES (")] + Sep(SourceNames(from), [Raw(",")]) + [Raw(")")];
    InsertingReads(pairs, into, from, rest);
    var ts := MergeTail(pairs, into, from) + rest;
    if pairs == [] {
      assert ts == inserting + rest;
    } else {
      assert inserting + rest == [inserting[0]] + (inserting + rest)[1..];
      KeywordStops(AMergeSet, ",", " WHEN NOT MATCHED THEN INSERT (", (inserting + rest)[1..]);
      var items := MergeSetsRead(pairs, inserting + rest);
      assert ts[1..] == sets + (inserting + rest);
      assert |items| == |PairsIn(items)| == |pairs|;
    }
  }

  lemma InsertingReads(pairs: seq<Pair>, into: seq<string>, from: seq<string>, rest: seq<Token>)
    ensures
      var inserting := [Raw(" WHEN NOT MATCHED THEN INSERT (")] + Sep(Names(into), [Raw(",")])
                       + [Raw(") VALUES (")] + Sep(SourceNames(from), [Raw(",")]) + [Raw(")")];
      ReadInserting(pairs, inserting + rest) == Ok(Got(Tail(pairs, into, from), rest))
  {
    hide ReadList, Sep, Names, SourceNames;
    var names, sources := Sep(Names(into), [Raw(",")]), Sep(SourceNames(from), [Raw(",")]);
    var ts := [Raw(" WHEN NOT MATCHED THEN INSERT (")] + names + [Raw(") VALUES (")] + sources + [Raw(")")] + rest;
    var end := [Raw(")")] + rest;
    var behind := [Raw(") VALUES (")] + (sources + end);
    KeywordStops(AName, ",", ") VALUES (", sources + end);
    KeywordStops(ASource, ",", ")", rest);
    var a := NamesRead(into, behind);
    var b := SourcesRead(from, end);
    assert ts[1..] == names + behind && behind[1..] == sources + end && end[1..] == rest;
  }

  /** WHEN begins with one of two keywords. */
  lemma WhensStop(shape: Shape, sep: string, pairs: seq<Pair>, into: seq<string>, from: seq<string>, rest: seq<Token>)
    requires sep in {",", " AND "}
    ensures Stops(shape, sep, MergeTail(pairs, into, from) + rest)
  {
    hide Sep, ReadItem;
    var ts := MergeTail(pairs, into, from) + rest;
    assert ts == [ts[0]] + ts[1..];
    KeywordStops(shape, sep, ts[0].text, ts[1..]);
  }

  lemma MergeMsReads(q: Query)
    requires q.MergeMs? && AllSlots(q.row)
    ensures Read(Text(q)) == Ok(q)
  {
    hide ReadList, Sep, Slots, Names, MergeOns, MergeTail, ReadWhens, ReadInsert, ReadUpdate, ReadMergeOra, Stops;
    var row, names := Sep(Slots(q.row), [Raw(",")]), Sep(Names(q.cols), [Raw(",")]);
    var on, tail := Sep(MergeOns(q.on), [Raw(" AND ")]), MergeTail(q.pairs, q.into, q.from) + [Raw(";")];
    var c := [Raw(") ON ")] + (on + tail);
    var b := [Raw(")) AS source(")] + (names + c);
    var ts := Text(q);
    KeywordStops(AValue, ",", ")) AS source(", names + c);
    KeywordStops(AName, ",", ") ON ", on + tail);
    WhensStop(AMergeOn, " AND ", q.pairs, q.into, q.from, [Raw(";")]);
    var i0 := SlotsRead(q.row, b);
    var i1 := NamesRead(q.cols, c);
    var i2 := MergeOnsRead(q.on, tail);
    WhensRead(q.pairs, q.into, q.from, [Raw(";")]);
    assert ts[2..] == [Raw(" WITH (HOLDLOCK) AS target USING (VALUES(")] + (row + b);
    assert ts[2..][1..] == row + b && b[1..] == names + c && c[1..] == on + tail;
  }

  lemma MergeOraReads(q: Query)
    requires q.MergeOra? && AllAssigned(q.source)
    ensures Read(Text(q)) == Ok(q)
  {
    hide ReadList, Sep, Aliases, MergeOns, MergeTail, ReadWhens, ReadInsert, ReadUpdate, ReadMergeMs, Stops;
    var source, on := Sep(Aliases(q.source), [Raw(", ")]), Sep(MergeOns(q.on), [Raw(" AND ")]);
    var tail := MergeTail(q.pairs, q.into, q.from);
    var c := [Raw(")")] + tail;
    var b := [Raw(" FROM DUAL) source ON (")] + (on + c);
    var ts := Text(q);
    KeywordStops(AnAlias, ", ", " FROM DUAL) source ON (", on + c);
    KeywordStops(AMergeOn, " AND ", ")", tail);
    var i0 := AliasesRead(q.source, b);
    var i1 := MergeOnsRead(q.on, c);
    WhensRead(q.pairs, q.into, q.from, []);
    assert tail + [] == tail;
    assert ts[2..] == [Raw(" target USING (SELECT ")] + (source + b);
    assert ts[2..][1..] == source + b && b[1..] == on + c && c[1..] == tail;
  }

  lemma FilterReads(list: seq<Assign>)
    requires AllAssigned(list)
    ensures ReadFilter(Sep(Conds(list), [Raw(" AND ")])) == Ok(list)
  {
    hide ReadList, Sep, Conds;
    EndStops(ACondition, " AND ");
    var items := ConditionsRead(list, []);
    assert Sep(Conds(list), [Raw(" AND ")]) + [] == Sep(Conds(list), [Raw(" AND ")]);
  }

  lemma UpdateReads(q: Query)
    requires q.Update? && AllAssigned(q.assigns) && AllAssigned(q.filter)
    ensures Read(Text(q)) == Ok(q)
  {
    hide ReadList, Sep, Sets, Conds, ReadFilter, ReadInsert, ReadMergeMs, ReadMergeOra;
    var sets, conds := Sep(Sets(q.assigns), [Raw(",")]), Sep(Conds(q.filter), [Raw(" AND ")]);
    var behind := [Raw(" WHERE ")] + conds;
    var ts := Text(q);
    KeywordStops(ASet, ",", " WHERE ", conds);
    var items := SetsRead(q.assigns, behind);
    FilterReads(q.filter);
    assert ts[2..] == [Raw(" SET")] + (sets + behind) && ts[2..][1..] == sets + behind && behind[1..] == conds;
  }

  lemma FilteredReads(q: Query)
    requires (q.Delete? || q.Select?) && AllAssigned(q.filter)
    ensures Read(Text(q)) == Ok(q)
  {
    hide ReadList, Sep, Conds, ReadFilter, ReadInsert, ReadMergeMs, ReadMergeOra, ReadUpdate;
    var conds := Sep(Conds(q.filter), [Raw(" AND ")]);
    FilterReads(q.filter);
    assert Text(q)[2..] == [Raw(" WHERE ")] + conds && Text(q)[2..][1..] == conds;
  }

  /** Every slot holds a placeholder or a value, and an INSERT has rows. */
  predicate Complete(q: Query) {
    match q
    case Insert(_, _, rows) => rows != [] && AllRows(rows)
    case UpsertPg(_, _, row, _, assigns) => AllSlots(row) && AllAssigned(assigns)
    case IgnorePg(_, _, row, _) => AllSlots(row)
    case UpsertMy(_, _, row, _) => AllSlots(row)
    case IgnoreMy(_, _, row, _) => AllSlots(row)
    case MergeMs(_, row, _, _, _, _, _) => AllSlots(row)
    case MergeOra(_, source, _, _, _, _) => AllAssigned(source)
    case Update(_, assigns, filter) => AllAssigned(assigns) && AllAssigned(filter)
    case Delete(_, filter) => AllAssigned(filter)
    case Select(_, filter) => AllAssigned(filter)
  }

  /** The text of every statement is read back as that statement: nothing in it is lost, and no two statements share a
    * text.
    */
  lemma TextReadsBack(q: Query)
    requires Complete(q)
    ensures Read(Text(q)) == Ok(q)
  {
    match q
    case Insert(table, cols, rows) =>
      hide Read, Sep, InsertHead, Rows;
      InsertReads(table, cols, rows, []);
      assert Text(q) + [] == Text(q);
    case UpsertPg(_, _, _, _, _) => PgReads(q);
    case IgnorePg(_, _, _, _) => IgnoresRead(q);
    case UpsertMy(_, _, _, _) => MyReads(q);
    case IgnoreMy(_, _, _, _) => IgnoresRead(q);
    case MergeMs(_, _, _, _, _, _, _) => MergeMsReads(q);
    case MergeOra(_, _, _, _, _, _) => MergeOraReads(q);
    case Update(_, _, _) => UpdateReads(q);
    case Delete(_, _) => FilteredReads(q);
    case Select(_, _) => FilteredReads(q);
  }

  /** Binding fills slots with values and leaves the rest of a statement as it is. */
  lemma BoundIsComplete(q: Query, args: seq<Value>)
    requires Complete(q)
    ensures Complete(BindQuery(q, args))
  {
    if q.Insert? {
      forall i | 0 <= i < |q.rows| ensures AllSlots(BindRows(q.rows, args)[i]) { assert AllSlots(q.rows[i]); }
    }
  }
}
