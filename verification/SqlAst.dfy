/** The statements the builders emit, as trees with slots, and their text. */
module SqlAst {
  import opened Sql

  /** A slot is a placeholder token before binding and a value token after it. */
  datatype Assign = Assign(col: string, slot: Token)

  /** target.left = source.right, or left = VALUES(right). */
  datatype Pair = Pair(left: string, right: string)

  datatype Query =
    | Insert(table: string, cols: seq<string>, rows: seq<seq<Token>>)
    | UpsertPg(table: string, cols: seq<string>, row: seq<Token>, target: seq<string>, assigns: seq<Assign>)
    | IgnorePg(table: string, cols: seq<string>, row: seq<Token>, written: string)   // written: the conflict target as text
    | UpsertMy(table: string, cols: seq<string>, row: seq<Token>, pairs: seq<Pair>)
    | IgnoreMy(table: string, cols: seq<string>, row: seq<Token>, col: string)
    | MergeMs(table: string, row: seq<Token>, cols: seq<string>, on: seq<Pair>, pairs: seq<Pair>, into: seq<string>, from: seq<string>)
    | MergeOra(table: string, source: seq<Assign>, on: seq<Pair>, pairs: seq<Pair>, into: seq<string>, from: seq<string>)
    | Update(table: string, assigns: seq<Assign>, filter: seq<Assign>)
    | Delete(table: string, filter: seq<Assign>)
    | Select(table: string, filter: seq<Assign>)

  // ---------- text ----------

  function Names(cols: seq<string>): seq<seq<Token>> { seq(|cols|, i requires 0 <= i < |cols| => [Col(cols[i])]) }

  function SourceNames(cols: seq<string>): seq<seq<Token>> {
    seq(|cols|, i requires 0 <= i < |cols| => [Raw("source."), Col(cols[i])])
  }

  function Slots(row: seq<Token>): seq<seq<Token>> { seq(|row|, i requires 0 <= i < |row| => [row[i]]) }

  function Rows(rows: seq<seq<Token>>): seq<seq<Token>> {
    seq(|rows|, i requires 0 <= i < |rows| => [Raw("(")] + Sep(Slots(rows[i]), [Raw(",")]) + [Raw(")")])
  }

  function Sets(list: seq<Assign>): seq<seq<Token>> {
    seq(|list|, i requires 0 <= i < |list| => [Raw(" "), Col(list[i].col), Raw("="), list[i].slot])
  }

  function Conds(list: seq<Assign>): seq<seq<Token>> {
    seq(|list|, i requires 0 <= i < |list| => [Col(list[i].col), Raw(" = "), list[i].slot])
  }

  function Aliases(list: seq<Assign>): seq<seq<Token>> {
    seq(|list|, i requires 0 <= i < |list| => [list[i].slot, Raw(" AS "), Col(list[i].col)])
  }

  function ValuesSets(list: seq<Pair>): seq<seq<Token>> {
    seq(|list|, i requires 0 <= i < |list| => [Raw(" "), Col(list[i].left), Raw("=VALUES("), Col(list[i].right), Raw(")")])
  }

  function MergeSets(list: seq<Pair>): seq<seq<Token>> {
    seq(|list|, i requires 0 <= i < |list| => [Raw(" target."), Col(list[i].left), Raw(" = source."), Col(list[i].right)])
  }

  function MergeOns(list: seq<Pair>): seq<seq<Token>> {
    seq(|list|, i requires 0 <= i < |list| => [Raw("target."), Col(list[i].left), Raw(" = source."), Col(list[i].right)])
  }

  function InsertHead(table: string, cols: seq<string>): seq<Token> {
    [Raw("INSERT INTO "), Table(table), Raw("(")] + Sep(Names(cols), [Raw(",")]) + [Raw(") VALUES")]
  }

  function InsertOne(table: string, cols: seq<string>, row: seq<Token>): seq<Token> {
    InsertHead(table, cols) + Sep(Rows([row]), [Raw(",")])
  }

  function MergeTail(pairs: seq<Pair>, into: seq<string>, from: seq<string>): seq<Token> {
    (if pairs == [] then [] else [Raw(" WHEN MATCHED THEN UPDATE SET")] + Sep(MergeSets(pairs), [Raw(",")]))
    + [Raw(" WHEN NOT MATCHED THEN INSERT (")] + Sep(Names(into), [Raw(",")])
    + [Raw(") VALUES (")] + Sep(SourceNames(from), [Raw(",")]) + [Raw(")")]
  }

  function Text(q: Query): seq<Token> {
    match q
    case Insert(t, cols, rows) => InsertHead(t, cols) + Sep(Rows(rows), [Raw(",")])
    case UpsertPg(t, cols, row, target, assigns) =>
      InsertOne(t, cols, row) + [Raw(" ON CONFLICT (")] + Sep(Names(target), [Raw(",")])
      + [Raw(") DO UPDATE SET")] + Sep(Sets(assigns), [Raw(",")])
    case IgnorePg(t, cols, row, target) =>
      InsertOne(t, cols, row) + [Raw(" ON CONFLICT ("), Raw(target), Raw(") DO NOTHING")]
    case UpsertMy(t, cols, row, pairs) =>
      InsertOne(t, cols, row) + [Raw(" ON DUPLICATE KEY UPDATE")] + Sep(ValuesSets(pairs), [Raw(",")])
    case IgnoreMy(t, cols, row, col) =>
      InsertOne(t, cols, row) + [Raw(" ON DUPLICATE KEY UPDATE "), Col(col), Raw(" = "), Col(col)]
    case MergeMs(t, row, cols, on, pairs, into, from) =>
      [Raw("MERGE INTO "), Table(t), Raw(" WITH (HOLDLOCK) AS target USING (VALUES(")] + Sep(Slots(row), [Raw(",")])
      + [Raw(")) AS source(")] + Sep(Names(cols), [Raw(",")]) + [Raw(") ON ")] + Sep(MergeOns(on), [Raw(" AND ")])
      + MergeTail(pairs, into, from) + [Raw(";")]
    case MergeOra(t, source, on, pairs, into, from) =>
      [Raw("MERGE INTO "), Table(t), Raw(" target USING (SELECT ")] + Sep(Aliases(source), [Raw(", ")])
      + [Raw(" FROM DUAL) source ON (")] + Sep(MergeOns(on), [Raw(" AND ")]) + [Raw(")")]
      + MergeTail(pairs, into, from)
    case Update(t, assigns, filter) =>
      [Raw("UPDATE "), Table(t), Raw(" SET")] + Sep(Sets(assigns), [Raw(",")]) + [Raw(" WHERE ")] + Sep(Conds(filter), [Raw(" AND ")])
    case Delete(t, filter) => [Raw("DELETE FROM "), Table(t), Raw(" WHERE ")] + Sep(Conds(filter), [Raw(" AND ")])
    case Select(t, filter) => [Raw("SELECT * FROM "), Table(t), Raw(" WHERE ")] + Sep(Conds(filter), [Raw(" AND ")])
  }

  // ---------- binding on trees ----------

  function BindSlot(slot: Token, args: seq<Value>): Token {
    if slot.Ph? && slot.index < |args| then Val(args[slot.index]) else slot
  }

  function BindRow(row: seq<Token>, args: seq<Value>): (r: seq<Token>)
    ensures |r| == |row| && forall i :: 0 <= i < |r| ==> r[i] == BindSlot(row[i], args)
  {
    seq(|row|, i requires 0 <= i < |row| => BindSlot(row[i], args))
  }

  function BindRows(rows: seq<seq<Token>>, args: seq<Value>): (r: seq<seq<Token>>)
    ensures |r| == |rows| && forall i :: 0 <= i < |r| ==> r[i] == BindRow(rows[i], args)
  {
    seq(|rows|, i requires 0 <= i < |rows| => BindRow(rows[i], args))
  }

  function BindAssigns(list: seq<Assign>, args: seq<Value>): (r: seq<Assign>)
    ensures |r| == |list| && forall i :: 0 <= i < |r| ==> r[i] == Assign(list[i].col, BindSlot(list[i].slot, args))
  {
    seq(|list|, i requires 0 <= i < |list| => Assign(list[i].col, BindSlot(list[i].slot, args)))
  }

  function BindQuery(q: Query, args: seq<Value>): Query {
    match q
    case Insert(t, cols, rows) => Insert(t, cols, BindRows(rows, args))
    case UpsertPg(t, cols, row, target, assigns) => UpsertPg(t, cols, BindRow(row, args), target, BindAssigns(assigns, args))
    case IgnorePg(t, cols, row, target) => IgnorePg(t, cols, BindRow(row, args), target)
    case UpsertMy(t, cols, row, pairs) => UpsertMy(t, cols, BindRow(row, args), pairs)
    case IgnoreMy(t, cols, row, col) => IgnoreMy(t, cols, BindRow(row, args), col)
    case MergeMs(t, row, cols, on, pairs, into, from) => MergeMs(t, BindRow(row, args), cols, on, pairs, into, from)
    case MergeOra(t, source, on, pairs, into, from) => MergeOra(t, BindAssigns(source, args), on, pairs, into, from)
    case Update(t, assigns, filter) => Update(t, BindAssigns(assigns, args), BindAssigns(filter, args))
    case Delete(t, filter) => Delete(t, BindAssigns(filter, args))
    case Select(t, filter) => Select(t, BindAssigns(filter, args))
  }

  /** No placeholder in the tokens: binding leaves them alone. */
  lemma {:induction false} BindFixed(q: seq<Token>, args: seq<Value>)
    requires forall i :: 0 <= i < |q| ==> !q[i].Ph?
    ensures BindByNumber(q, args) == q && Numbers(q) == []
    decreases |q|
  {
    if q != [] {
      BindFixed(q[1..], args);
      assert [q[0]] + q[1..] == q;
    }
  }

  lemma {:induction false} SepFixed(items: seq<seq<Token>>, text: string)
    requires forall i, j :: 0 <= i < |items| && 0 <= j < |items[i]| ==> !items[i][j].Ph?
    ensures forall j :: 0 <= j < |Sep(items, [Raw(text)])| ==> !Sep(items, [Raw(text)])[j].Ph?
    decreases |items|
  {
    if |items| > 1 {
      var front := items[..|items| - 1];
      assert forall i, j :: 0 <= i < |front| && 0 <= j < |front[i]| ==> front[i] == items[i] && !front[i][j].Ph?;
      SepFixed(front, text);
    }
  }

  lemma BindOne(t: Token, args: seq<Value>)
    ensures BindByNumber([t], args) == [BindSlot(t, args)]
  {
    assert [t][1..] == [];
  }

  lemma BindThree(a: Token, b: Token, c: Token, args: seq<Value>)
    ensures BindByNumber([a, b, c], args) == [BindSlot(a, args), BindSlot(b, args), BindSlot(c, args)]
  {
    assert [a, b, c] == [a] + ([b] + [c]);
    BindOne(a, args);
    BindOne(b, args);
    BindOne(c, args);
    ByNumberConcat([b], [c], args);
    ByNumberConcat([a], [b] + [c], args);
  }

  lemma BindSlotsText(row: seq<Token>, args: seq<Value>)
    ensures BindByNumber(Sep(Slots(row), [Raw(",")]), args) == Sep(Slots(BindRow(row, args)), [Raw(",")])
  {
    BindSep(Slots(row), ",", args);
    forall i | 0 <= i < |row| ensures BindByNumber([row[i]], args) == [BindSlot(row[i], args)] { BindOne(row[i], args); }
    assert BindItems(Slots(row), args) == Slots(BindRow(row, args));
  }

  lemma BindRowsText(rows: seq<seq<Token>>, args: seq<Value>)
    ensures BindByNumber(Sep(Rows(rows), [Raw(",")]), args) == Sep(Rows(BindRows(rows, args)), [Raw(",")])
  {
    BindSep(Rows(rows), ",", args);
    forall i | 0 <= i < |rows| ensures BindByNumber(Rows(rows)[i], args) == Rows(BindRows(rows, args))[i] {
      var inside := Sep(Slots(rows[i]), [Raw(",")]);
      BindSlotsText(rows[i], args);
      ByNumberConcat([Raw("(")] + inside, [Raw(")")], args);
      ByNumberConcat([Raw("(")], inside, args);
      BindOne(Raw("("), args);
      BindOne(Raw(")"), args);
    }
    assert BindItems(Rows(rows), args) == Rows(BindRows(rows, args));
  }

  lemma BindSetsText(list: seq<Assign>, args: seq<Value>)
    ensures BindByNumber(Sep(Sets(list), [Raw(",")]), args) == Sep(Sets(BindAssigns(list, args)), [Raw(",")])
  {
    BindSep(Sets(list), ",", args);
    forall i | 0 <= i < |list| ensures BindByNumber(Sets(list)[i], args) == Sets(BindAssigns(list, args))[i] {
      var x := list[i];
      assert Sets(list)[i] == [Raw(" ")] + [Col(x.col), Raw("="), x.slot];
      BindOne(Raw(" "), args);
      BindThree(Col(x.col), Raw("="), x.slot, args);
      ByNumberConcat([Raw(" ")], [Col(x.col), Raw("="), x.slot], args);
    }
    assert BindItems(Sets(list), args) == Sets(BindAssigns(list, args));
  }

  lemma BindCondsText(list: seq<Assign>, args: seq<Value>)
    ensures BindByNumber(Sep(Conds(list), [Raw(" AND ")]), args) == Sep(Conds(BindAssigns(list, args)), [Raw(" AND ")])
  {
    BindSep(Conds(list), " AND ", args);
    forall i | 0 <= i < |list| ensures BindByNumber(Conds(list)[i], args) == Conds(BindAssigns(list, args))[i] {
      BindThree(Col(list[i].col), Raw(" = "), list[i].slot, args);
    }
    assert BindItems(Conds(list), args) == Conds(BindAssigns(list, args));
  }

  lemma BindAliasesText(list: seq<Assign>, args: seq<Value>)
    ensures BindByNumber(Sep(Aliases(list), [Raw(", ")]), args) == Sep(Aliases(BindAssigns(list, args)), [Raw(", ")])
  {
    BindSep(Aliases(list), ", ", args);
    forall i | 0 <= i < |list| ensures BindByNumber(Aliases(list)[i], args) == Aliases(BindAssigns(list, args))[i] {
      BindThree(list[i].slot, Raw(" AS "), Col(list[i].col), args);
    }
    assert BindItems(Aliases(list), args) == Aliases(BindAssigns(list, args));
  }

  lemma FixedNames(cols: seq<string>, args: seq<Value>)
    ensures BindByNumber(Sep(Names(cols), [Raw(",")]), args) == Sep(Names(cols), [Raw(",")])
    ensures Numbers(Sep(Names(cols), [Raw(",")])) == []
  {
    SepFixed(Names(cols), ",");
    BindFixed(Sep(Names(cols), [Raw(",")]), args);
  }

  lemma FixedHead(table: string, cols: seq<string>, args: seq<Value>)
    ensures BindByNumber(InsertHead(table, cols), args) == InsertHead(table, cols)
    ensures Numbers(InsertHead(table, cols)) == []
  {
    SepFixed(Names(cols), ",");
    BindFixed(InsertHead(table, cols), args);
  }

  lemma FixedPairs(pairs: seq<Pair>, args: seq<Value>)
    ensures
      var a, b, c := Sep(ValuesSets(pairs), [Raw(",")]), Sep(MergeSets(pairs), [Raw(",")]), Sep(MergeOns(pairs), [Raw(" AND ")]);
      && BindByNumber(a, args) == a && BindByNumber(b, args) == b && BindByNumber(c, args) == c
      && Numbers(a) == Numbers(b) == Numbers(c) == []
  {
    SepFixed(ValuesSets(pairs), ",");
    SepFixed(MergeSets(pairs), ",");
    SepFixed(MergeOns(pairs), " AND ");
    BindFixed(Sep(ValuesSets(pairs), [Raw(",")]), args);
    BindFixed(Sep(MergeSets(pairs), [Raw(",")]), args);
    BindFixed(Sep(MergeOns(pairs), [Raw(" AND ")]), args);
  }

  lemma FixedTail(pairs: seq<Pair>, into: seq<string>, from: seq<string>, args: seq<Value>)
    ensures BindByNumber(MergeTail(pairs, into, from), args) == MergeTail(pairs, into, from)
    ensures Numbers(MergeTail(pairs, into, from)) == []
  {
    SepFixed(MergeSets(pairs), ",");
    SepFixed(Names(into), ",");
    SepFixed(SourceNames(from), ",");
    BindFixed(MergeTail(pairs, into, from), args);
  }

  /** Binding and concatenation, with fixed text in between. */
  lemma Bind3(a: seq<Token>, b: seq<Token>, c: seq<Token>, args: seq<Value>)
    ensures BindByNumber(a + b + c, args) == BindByNumber(a, args) + BindByNumber(b, args) + BindByNumber(c, args)
    ensures Numbers(a + b + c) == Numbers(a) + Numbers(b) + Numbers(c)
  {
    ByNumberConcat(a + b, c, args);
    ByNumberConcat(a, b, args);
    NumbersConcat(a + b, c);
    NumbersConcat(a, b);
  }

  lemma Bind2(a: seq<Token>, b: seq<Token>, args: seq<Value>)
    ensures BindByNumber(a + b, args) == BindByNumber(a, args) + BindByNumber(b, args)
    ensures Numbers(a + b) == Numbers(a) + Numbers(b)
  {
    ByNumberConcat(a, b, args);
    NumbersConcat(a, b);
  }

  lemma BindInsertOne(t: string, cols: seq<string>, row: seq<Token>, args: seq<Value>)
    ensures BindByNumber(InsertOne(t, cols, row), args) == InsertOne(t, cols, BindRow(row, args))
  {
    FixedHead(t, cols, args);
    BindRowsText([row], args);
    assert BindRows([row], args) == [BindRow(row, args)];
    Bind2(InsertHead(t, cols), Sep(Rows([row]), [Raw(",")]), args);
  }

  /** Binding the text is the text of the bound statement. */
  lemma BindText(q: Query, args: seq<Value>)
    ensures BindByNumber(Text(q), args) == Text(BindQuery(q, args))
  {
    hide BindByNumber, Numbers, Sep, InsertOne, InsertHead, MergeTail;
    match q
    case Insert(t, cols, rows) =>
      FixedHead(t, cols, args);
      BindRowsText(rows, args);
      Bind2(InsertHead(t, cols), Sep(Rows(rows), [Raw(",")]), args);
    case UpsertPg(t, cols, row, target, assigns) => BindTextPg(t, cols, row, target, assigns, args);
    case IgnorePg(t, cols, row, target) =>
      BindInsertOne(t, cols, row, args);
      var tail := [Raw(" ON CONFLICT ("), Raw(target), Raw(") DO NOTHING")];
      BindFixed(tail, args);
      Bind2(InsertOne(t, cols, row), tail, args);
    case UpsertMy(t, cols, row, pairs) =>
      BindInsertOne(t, cols, row, args);
      FixedPairs(pairs, args);
      BindFixed([Raw(" ON DUPLICATE KEY UPDATE")], args);
      Bind3(InsertOne(t, cols, row), [Raw(" ON DUPLICATE KEY UPDATE")], Sep(ValuesSets(pairs), [Raw(",")]), args);
    case IgnoreMy(t, cols, row, col) =>
      BindInsertOne(t, cols, row, args);
      var tail := [Raw(" ON DUPLICATE KEY UPDATE "), Col(col), Raw(" = "), Col(col)];
      BindFixed(tail, args);
      Bind2(InsertOne(t, cols, row), tail, args);
    case MergeMs(t, row, cols, on, pairs, into, from) => BindTextMs(t, row, cols, on, pairs, into, from, args);
    case MergeOra(t, source, on, pairs, into, from) => BindTextOra(t, source, on, pairs, into, from, args);
    case Update(t, assigns, filter) =>
      var head := [Raw("UPDATE "), Table(t), Raw(" SET")];
      BindFixed(head, args);
      BindFixed([Raw(" WHERE ")], args);
      BindSetsText(assigns, args);
      BindCondsText(filter, args);
      Bind3(head, Sep(Sets(assigns), [Raw(",")]), [Raw(" WHERE ")], args);
      Bind2(head + Sep(Sets(assigns), [Raw(",")]) + [Raw(" WHERE ")], Sep(Conds(filter), [Raw(" AND ")]), args);
    case Delete(t, filter) =>
      var head := [Raw("DELETE FROM "), Table(t), Raw(" WHERE ")];
      BindFixed(head, args);
      BindCondsText(filter, args);
      Bind2(head, Sep(Conds(filter), [Raw(" AND ")]), args);
    case Select(t, filter) =>
      var head := [Raw("SELECT * FROM "), Table(t), Raw(" WHERE ")];
      BindFixed(head, args);
      BindCondsText(filter, args);
      Bind2(head, Sep(Conds(filter), [Raw(" AND ")]), args);
  }

  lemma BindTextPg(t: string, cols: seq<string>, row: seq<Token>, target: seq<string>, assigns: seq<Assign>, args: seq<Value>)
    ensures BindByNumber(Text(UpsertPg(t, cols, row, target, assigns)), args)
            == Text(UpsertPg(t, cols, BindRow(row, args), target, BindAssigns(assigns, args)))
  {
    BindInsertOne(t, cols, row, args);
    FixedNames(target, args);
    BindFixed([Raw(" ON CONFLICT (")], args);
    BindFixed([Raw(") DO UPDATE SET")], args);
    BindSetsText(assigns, args);
    var a := InsertOne(t, cols, row) + [Raw(" ON CONFLICT (")] + Sep(Names(target), [Raw(",")]);
    Bind3(InsertOne(t, cols, row), [Raw(" ON CONFLICT (")], Sep(Names(target), [Raw(",")]), args);
    Bind3(a, [Raw(") DO UPDATE SET")], Sep(Sets(assigns), [Raw(",")]), args);
  }

  lemma BindTextMs(t: string, row: seq<Token>, cols: seq<string>, on: seq<Pair>, pairs: seq<Pair>, into: seq<string>, from: seq<string>, args: seq<Value>)
    ensures BindByNumber(Text(MergeMs(t, row, cols, on, pairs, into, from)), args)
            == Text(MergeMs(t, BindRow(row, args), cols, on, pairs, into, from))
  {
    hide BindByNumber, Numbers, Sep, MergeTail, Names, Slots, MergeOns, Aliases;
    var head := [Raw("MERGE INTO "), Table(t), Raw(" WITH (HOLDLOCK) AS target USING (VALUES(")];
    BindFixed(head, args);
    BindFixed([Raw(")) AS source(")], args);
    BindFixed([Raw(") ON ")], args);
    BindFixed([Raw(";")], args);
    BindSlotsText(row, args);
    FixedNames(cols, args);
    FixedPairs(on, args);
    FixedTail(pairs, into, from, args);
    var a := head + Sep(Slots(row), [Raw(",")]) + [Raw(")) AS source(")];
    Bind3(head, Sep(Slots(row), [Raw(",")]), [Raw(")) AS source(")], args);
    var b := a + Sep(Names(cols), [Raw(",")]) + [Raw(") ON ")];
    Bind3(a, Sep(Names(cols), [Raw(",")]), [Raw(") ON ")], args);
    var c := b + Sep(MergeOns(on), [Raw(" AND ")]) + MergeTail(pairs, into, from);
    Bind3(b, Sep(MergeOns(on), [Raw(" AND ")]), MergeTail(pairs, into, from), args);
    Bind2(c, [Raw(";")], args);
  }

  lemma BindTextOra(t: string, source: seq<Assign>, on: seq<Pair>, pairs: seq<Pair>, into: seq<string>, from: seq<string>, args: seq<Value>)
    ensures BindByNumber(Text(MergeOra(t, source, on, pairs, into, from)), args)
            == Text(MergeOra(t, BindAssigns(source, args), on, pairs, into, from))
  {
    hide BindByNumber, Numbers, Sep, MergeTail, Names, Slots, MergeOns, Aliases;
    var head := [Raw("MERGE INTO "), Table(t), Raw(" target USING (SELECT ")];
    BindFixed(head, args);
    BindFixed([Raw(" FROM DUAL) source ON (")], args);
    BindFixed([Raw(")")], args);
    BindAliasesText(source, args);
    FixedPairs(on, args);
    FixedTail(pairs, into, from, args);
    var a := head + Sep(Aliases(source), [Raw(", ")]) + [Raw(" FROM DUAL) source ON (")];
    Bind3(head, Sep(Aliases(source), [Raw(", ")]), [Raw(" FROM DUAL) source ON (")], args);
    var b := a + Sep(MergeOns(on), [Raw(" AND ")]) + [Raw(")")];
    Bind3(a, Sep(MergeOns(on), [Raw(" AND ")]), [Raw(")")], args);
    Bind2(b, MergeTail(pairs, into, from), args);
  }
}
