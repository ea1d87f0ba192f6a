/** UpdateRowStruct from end to end: whatever the caches did, what reaches the table is the struct's own update. */
module CachedUpdates {
  import opened Common
  import opened Sql
  import opened SqlAst
  import opened SqlTables
  import opened QueryBuilder
  import opened Reflection
  import opened Scanning
  import opened QueryCaches
  import opened Updates
  import opened Upserts

  /** The builders in play write what UpdateColumns writes. */
  ghost predicate BuildsUpdates(w: World) {
    forall builder: nat, fmtr: nat, table, columns ::
      w.build(QueryCaches.Update, builder, fmtr, table, columns).Ok? ==>
        w.build(QueryCaches.Update, builder, fmtr, table, columns).value == Text(UpdateColumnsQuery(table, columns))
  }

  /** The values that the driver makes of the arguments. */
  function Driven(driver: Arg -> Value, args: seq<Arg>): (r: seq<Value>)
    ensures |r| == |args| && forall i :: 0 <= i < |r| ==> r[i] == driver(args[i])
  {
    seq(|args|, i requires 0 <= i < |args| => driver(args[i]))
  }

  /** The i-th argument is the i-th field's value, as it is or through a TypeWrapper that handles it. */
  predicate Sends(w: World, refl: nat, fields: seq<FlatField>, v: GoValue, sent: seq<Arg>)
    requires ReadAll(v, IndicesOf(fields)).Some?
  {
    |sent| == |fields| && forall i :: 0 <= i < |sent| ==>
      var value := ReadAll(v, IndicesOf(fields)).value[i];
      sent[i] == Plain(value) || (sent[i] == Wrapped(value) && w.wraps(refl, fields[i], value))
  }

  /** The arguments of a call that sent a query, column by column. */
  lemma CallArgs(w: World, run: seq<Action>, i: nat) returns (picked: seq<FlatField>, entry: Entry, sent: seq<Arg>)
    requires i < |After(w, run).calls|
    requires var c := After(w, run).calls[i]; c.phase.Over? && c.phase.outcome.Ran?
    ensures
      var c := After(w, run).calls[i];
      && w.reflects(c.key.typ, c.key.refl).Ok?
      && picked == Picked(c.op, c.options, w.reflects(c.key.typ, c.key.refl).value)
      && Compute(w, c.op, c.key, c.options, w.reflects(c.key.typ, c.key.refl).value) == Ok(entry)
      && ReadAll(c.v, IndicesOf(picked)).Some?
      && Sends(w, c.key.refl, picked, c.v, sent)
      && c.phase.outcome == Ran(entry.query, Arranged(c.op, ColumnsOf(picked), sent))
  {
    hide Compute;
    CachesAgree(w, run);
    var c := After(w, run).calls[i];
    assert CallOk(w, c);
    var fields := w.reflects(c.key.typ, c.key.refl).value;
    picked := Picked(c.op, c.options, fields);
    entry := Compute(w, c.op, c.key, c.options, fields).value;
    if c.phase.outcome == Fresh(w, c.op, c.key, c.options, c.v) {
      sent := Reflect(w, c.key.refl, picked, ReadAll(c.v, IndicesOf(picked)).value);
    } else {
      HitReadsFields(w, c, fields, entry);
      sent := Plains(ReadAll(c.v, IndicesOf(picked)).value);
      ReadArranged(c.op, picked, c.v);
      PlainsArranged(c.op, ColumnsOf(picked), ReadAll(c.v, IndicesOf(picked)).value);
    }
  }

  /** A hit that did not panic has read every field of the statement. */
  lemma HitReadsFields(w: World, c: QueryCaches.Call, fields: seq<FlatField>, entry: Entry)
    requires c.options.None? && Compute(w, c.op, c.key, None, fields) == Ok(entry) && Hit(entry, c.v).Ran?
    ensures var picked := Picked(c.op, None, fields);
            ReadAll(c.v, IndicesOf(picked)).Some? && entry.indices == Arranged(c.op, ColumnsOf(picked), IndicesOf(picked))
  {
    var picked := Picked(c.op, None, fields);
    var columns, indices := ColumnsOf(picked), IndicesOf(picked);
    assert entry.indices == Arranged(c.op, columns, indices);
    forall i | 0 <= i < |indices| ensures Holds(c.v, indices[i]) {
      var k := ArrangedPlace(c.op, columns, i, indices, indices);
      assert entry.indices[k] == indices[i];
    }
  }

  /** Which fields a call sends: those that no option leaves out, and of them the key columns for a delete, else the
    * columns that are not read-only.
    */
  predicate Sent(op: Op, options: Options, f: FlatField) {
    && (options.None? || !options.value(f))
    && (match op
        case Delete => f.column.info.primaryKey
        case Insert => !f.column.info.readOnly
        case Update => !f.column.info.readOnly
        case Upsert => !f.column.info.readOnly)
  }

  /** In every run a call that has sent a query, from a cache or not, has sent the one that its own builder function
    * makes for the columns of exactly those fields, in their order, with one argument for each: an update has the
    * values of the key columns behind all others, the other calls have them as they stand.
    */
  lemma SentIsForItsColumns(w: World, run: seq<Action>, i: nat)
    returns (table: string, places: seq<nat>, picked: seq<FlatField>, sent: seq<Arg>)
    requires i < |After(w, run).calls| && After(w, run).calls[i].phase.Over? && After(w, run).calls[i].phase.outcome.Ran?
    ensures
      var c := After(w, run).calls[i];
      && w.reflects(c.key.typ, c.key.refl).Ok? && w.table(c.key.typ, c.key.refl) == Ok(table)
      && var fields := w.reflects(c.key.typ, c.key.refl).value;
      && |picked| == |places| && (forall k :: 0 <= k < |places| ==> places[k] < |fields| && picked[k] == fields[places[k]])
      && (forall j, k :: 0 <= j < k < |places| ==> places[j] < places[k])
      && (forall k :: 0 <= k < |fields| ==> (k in places <==> Sent(c.op, c.options, fields[k])))
    ensures
      var c := After(w, run).calls[i];
      && w.build(c.op, c.key.builder, c.key.fmtr, table, ColumnsOf(picked)) == Ok(c.phase.outcome.query)
      && ReadAll(c.v, IndicesOf(picked)).Some? && Sends(w, c.key.refl, picked, c.v, sent)
      && c.phase.outcome.args == if c.op.Update? then Reordered(ColumnsOf(picked), sent) else sent
  {
    var entry;
    picked, entry, sent := CallArgs(w, run, i);
    var c := After(w, run).calls[i];
    hide After;
    var fields := w.reflects(c.key.typ, c.key.refl).value;
    table := w.table(c.key.typ, c.key.refl).value;
    places := ChosenPlaces(fields, Filter(c.op, c.options), |fields|);
    assert fields[..|fields|] == fields;
  }

  /** The driver sees the arguments in the order in which the statement takes them. */
  lemma DrivenReordered(driver: Arg -> Value, columns: seq<ColumnInfo>, sent: seq<Arg>)
    requires |sent| == |columns|
    ensures Driven(driver, Reordered(columns, sent)) == Reordered(columns, Driven(driver, sent))
  {
  }

  /** In every run, an update call that has sent a query has sent the UPDATE with its own key, and whether it came from
    * a cache or not, under either way of binding it changes exactly the rows whose key columns equal the struct's key
    * fields, and sets exactly the other mapped columns, each to its own field.
    */
  lemma SentUpdatesTheStruct(w: World, run: seq<Action>, i: nat, driver: Arg -> Value, s: Schema, t: set<Row>)
    returns (table: string, picked: seq<FlatField>, sent: seq<Arg>)
    requires BuildsUpdates(w) && i < |After(w, run).calls|
    requires var c := After(w, run).calls[i]; c.op.Update? && c.phase.Over? && c.phase.outcome.Ran?
    requires var c := After(w, run).calls[i];
             w.reflects(c.key.typ, c.key.refl).Ok? ==>
               Distinct(NamesOf(ColumnsOf(Picked(c.op, c.options, w.reflects(c.key.typ, c.key.refl).value))))
    ensures
      var c := After(w, run).calls[i];
      && w.reflects(c.key.typ, c.key.refl).Ok? && w.table(c.key.typ, c.key.refl) == Ok(table)
      && picked == Picked(c.op, c.options, w.reflects(c.key.typ, c.key.refl).value)
      && ReadAll(c.v, IndicesOf(picked)).Some? && Sends(w, c.key.refl, picked, c.v, sent)
      && HasKey(ColumnsOf(picked))
    ensures
      var outcome, columns, vals := After(w, run).calls[i].phase.outcome, ColumnsOf(picked), Driven(driver, sent);
      var args := Driven(driver, outcome.args);
      var changed := Only(Given(columns, vals), NamesAt(columns, NonKeyColumns));
      var after := set r | r in t :: if KeyMatches(r, columns, vals) then r + changed else r;
      && BindByNumber(outcome.query, args) == BindInOrder(outcome.query, args)
      && Runs(s, t, table, BindByNumber(outcome.query, args), Ok(after))
  {
    var entry;
    picked, entry, sent := CallArgs(w, run, i);
    var c := After(w, run).calls[i];
    table := w.table(c.key.typ, c.key.refl).value;
    var columns := ColumnsOf(picked);
    assert w.build(c.op, c.key.builder, c.key.fmtr, table, columns).Ok?;
    hide Runs, Reordered, UpdateColumnsQuery, Given, Only, KeyMatches, After;
    DrivenReordered(driver, columns, sent);
    RowUpdateEffect(s, t, table, columns, Driven(driver, sent));
  }
}
