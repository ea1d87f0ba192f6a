/** The caches of InsertRowStruct, UpdateRowStruct, UpsertRowStruct, DeleteRowStruct and reflectStruct, under every
  * interleaving of calls and ClearQueryCaches.
  */
module QueryCaches {
  import opened Common
  import opened Sql
  import opened QueryBuilder
  import opened Reflection
  import opened Scanning
  import Updates

  datatype Op = Insert | Update | Upsert | Delete

  /** What a cache is keyed by: the struct type, the reflector, the builder and the formatter, each by its identity. */
  datatype Key = Key(typ: nat, refl: nat, builder: nat, fmtr: nat)

  datatype Problem = Reported(n: nat) | NoPrimaryKey

  datatype Entry = Entry(query: seq<Token>, indices: seq<seq<nat>>)

  /** The reflectors, builders and formatters, which answer the same every time; wraps tells which field values a
    * reflector's TypeWrappers handle.
    */
  datatype World = World(reflects: (nat, nat) -> Result<seq<FlatField>, Problem>,
                         table: (nat, nat) -> Result<string, Problem>,
                         build: (Op, nat, nat, string, seq<ColumnInfo>) -> Result<seq<Token>, Problem>,
                         wraps: (nat, FlatField, GoValue) -> bool)

  /** An argument as it is handed to the driver. */
  datatype Arg = Plain(value: GoValue) | Wrapped(value: GoValue)

  datatype Outcome = Ran(query: seq<Token>, args: seq<Arg>) | Failed(problem: Problem) | Panicked

  // ---------- what a call computes without a cache ----------

  type Options = Option<FlatField -> bool>

  predicate Ignored(op: Op, options: Options, f: FlatField) {
    || (options.Some? && options.value(f))
    || (if op.Delete? then !f.column.info.primaryKey else f.column.info.readOnly)
  }

  function Filter(op: Op, options: Options): FlatField -> bool { f => Ignored(op, options, f) }

  function Picked(op: Op, options: Options, fields: seq<FlatField>): seq<FlatField> { Chosen(fields, Filter(op, options)) }

  function ColumnsOf(fields: seq<FlatField>): (r: seq<ColumnInfo>)
    ensures |r| == |fields| && forall i :: 0 <= i < |r| ==> r[i] == fields[i].column.info
  {
    seq(|fields|, i requires 0 <= i < |fields| => fields[i].column.info)
  }

  function IndicesOf(fields: seq<FlatField>): (r: seq<seq<nat>>)
    ensures |r| == |fields| && forall i :: 0 <= i < |r| ==> r[i] == fields[i].index
  {
    seq(|fields|, i requires 0 <= i < |fields| => fields[i].index)
  }

  /** The order in which the statement takes what belongs to its columns. */
  function Arranged<T>(op: Op, columns: seq<ColumnInfo>, xs: seq<T>): (r: seq<T>)
    requires |xs| == |columns|
  {
    if op.Update? then Updates.Reordered(columns, xs) else xs
  }

  /** The query and field indices of a call with these fields, with the guards in the order of the Go code. */
  function Compute(w: World, op: Op, key: Key, options: Options, fields: seq<FlatField>): Result<Entry, Problem> {
    var picked := Picked(op, options, fields);
    var columns := ColumnsOf(picked);
    if op.Delete? && columns == [] then Fail(NoPrimaryKey)
    else
      var table :- w.table(key.typ, key.refl);
      if (op.Update? || op.Upsert?) && !Updates.HasKey(columns) then Fail(NoPrimaryKey)
      else
        var query :- w.build(op, key.builder, key.fmtr, table, columns);
        Ok(Entry(query, Arranged(op, columns, IndicesOf(picked))))
  }

  function Recompute(w: World, op: Op, key: Key): Result<Entry, Problem> {
    var fields :- w.reflects(key.typ, key.refl);
    Compute(w, op, key, None, fields)
  }

  /** The values at the indices, or None where FieldByIndex would panic. */
  function ReadAll(v: GoValue, indices: seq<seq<nat>>): Option<seq<GoValue>> {
    if forall i :: 0 <= i < |indices| ==> Holds(v, indices[i])
    then Some(seq(|indices|, i requires 0 <= i < |indices| => Get(v, indices[i])))
    else None
  }

  function Plains(values: seq<GoValue>): (r: seq<Arg>)
    ensures |r| == |values| && forall i :: 0 <= i < |r| ==> r[i] == Plain(values[i])
  {
    seq(|values|, i requires 0 <= i < |values| => Plain(values[i]))
  }

  /** The reflected values: wrapped where a TypeWrapper handles them. */
  function Reflect(w: World, refl: nat, fields: seq<FlatField>, values: seq<GoValue>): (r: seq<Arg>)
    requires |values| == |fields|
    ensures |r| == |fields|
    ensures forall i :: 0 <= i < |r| ==> r[i] == if w.wraps(refl, fields[i], values[i]) then Wrapped(values[i]) else Plain(values[i])
  {
    seq(|fields|, i requires 0 <= i < |fields| => if w.wraps(refl, fields[i], values[i]) then Wrapped(values[i]) else Plain(values[i]))
  }

  /** The arguments that a call without a cached query sends. */
  function FreshArgs(w: World, op: Op, key: Key, options: Options, fields: seq<FlatField>, v: GoValue): Option<seq<Arg>> {
    var picked := Picked(op, options, fields);
    match ReadAll(v, IndicesOf(picked))
    case None => None
    case Some(values) => Some(Arranged(op, ColumnsOf(picked), Reflect(w, key.refl, picked, values)))
  }

  /** What a call does when nothing is cached. Reading the fields comes before everything that can fail later. */
  function Fresh(w: World, op: Op, key: Key, options: Options, v: GoValue): Outcome {
    match w.reflects(key.typ, key.refl)
    case Fail(p) => Failed(p)
    case Ok(fields) =>
      match FreshArgs(w, op, key, options, fields, v)
      case None => Panicked
      case Some(args) =>
        match Compute(w, op, key, options, fields)
        case Fail(p) => Failed(p)
        case Ok(entry) => Ran(entry.query, args)
  }

  /** What a call does with a cached entry: it reads the fields, and does not ask the TypeWrappers. */
  function Hit(entry: Entry, v: GoValue): Outcome {
    match ReadAll(v, entry.indices)
    case None => Panicked
    case Some(values) => Ran(entry.query, Plains(values))
  }

  // ---------- calls, clears and their interleavings ----------

  /** How far a call is: before its lookup, without an entry, with reflected fields not yet stored, with fields,
    * with its query and arguments not yet stored, or over.
    */
  datatype Phase =
    | Start
    | Missed
    | Flattened(fields: seq<FlatField>)
    | WithFields(fields: seq<FlatField>)
    | Built(entry: Entry, args: seq<Arg>)
    | Over(outcome: Outcome)

  /** Only calls without options use the query caches; a delete has none. */
  datatype Call = Call(op: Op, key: Key, options: Options, v: GoValue, phase: Phase)

  datatype State = State(queries: map<(Op, Key), Entry>, structs: map<(nat, nat), seq<FlatField>>, calls: seq<Call>)

  const INIT := State(map[], map[], [])

  datatype Action = Enter(op: Op, key: Key, options: Options, v: GoValue) | Go(i: nat) | ClearStructs | ClearQueries(op: Op)

  /** The call's next critical section, or computation between two of them. */
  function Local(w: World, s: State, c: Call): Phase {
    match c.phase
    case Start =>
      if c.options.None? && (c.op, c.key) in s.queries then Over(Hit(s.queries[(c.op, c.key)], c.v)) else Missed
    case Missed =>
      if (c.key.typ, c.key.refl) in s.structs then WithFields(s.structs[(c.key.typ, c.key.refl)])
      else (match w.reflects(c.key.typ, c.key.refl) case Fail(p) => Over(Failed(p)) case Ok(fields) => Flattened(fields))
    case Flattened(fields) => WithFields(fields)
    case WithFields(fields) =>
      (match FreshArgs(w, c.op, c.key, c.options, fields, c.v)
       case None => Over(Panicked)
       case Some(args) =>
         match Compute(w, c.op, c.key, c.options, fields)
         case Fail(p) => Over(Failed(p))
         case Ok(entry) => Built(entry, args))
    case Built(entry, args) => Over(Ran(entry.query, args))
    case Over(_) => c.phase
  }

  function Apply(w: World, s: State, a: Action): State {
    match a
    case Enter(op, key, options, v) => s.(calls := s.calls + [Call(op, key, options, v, Start)])
    case ClearStructs => s.(structs := map[])
    case ClearQueries(op) => s.(queries := map k | k in s.queries && k.0 != op :: s.queries[k])
    case Go(i) =>
      if |s.calls| <= i then s
      else
        var c := s.calls[i];
        var t := s.(calls := s.calls[i := c.(phase := Local(w, s, c))]);
        match c.phase
        case Flattened(fields) => t.(structs := s.structs[(c.key.typ, c.key.refl) := fields])
        case Built(entry, _) => if c.options.None? then t.(queries := s.queries[(c.op, c.key) := entry]) else t
        case _ => t
  }

  function After(w: World, run: seq<Action>): State {
    if run == [] then INIT else Apply(w, After(w, run[..|run| - 1]), run[|run| - 1])
  }

  // ---------- the caches agree with recomputation ----------

  ghost predicate QueriesOk(w: World, s: State) {
    forall k :: k in s.queries ==> Recompute(w, k.0, k.1) == Ok(s.queries[k])
  }

  ghost predicate StructsOk(w: World, s: State) {
    forall k :: k in s.structs ==> w.reflects(k.0, k.1) == Ok(s.structs[k])
  }

  /** What a call holds between two critical sections is what it would compute now, and its outcome is that of a
    * call without caches, or that of a hit on what recomputation gives.
    */
  predicate CallOk(w: World, c: Call) {
    match c.phase
    case Flattened(fields) => w.reflects(c.key.typ, c.key.refl) == Ok(fields)
    case WithFields(fields) => w.reflects(c.key.typ, c.key.refl) == Ok(fields)
    case Built(entry, args) =>
      && w.reflects(c.key.typ, c.key.refl).Ok?
      && Compute(w, c.op, c.key, c.options, w.reflects(c.key.typ, c.key.refl).value) == Ok(entry)
      && Fresh(w, c.op, c.key, c.options, c.v) == Ran(entry.query, args)
    case Over(outcome) =>
      || outcome == Fresh(w, c.op, c.key, c.options, c.v)
      || (c.options.None? && Recompute(w, c.op, c.key).Ok? && outcome == Hit(Recompute(w, c.op, c.key).value, c.v))
    case _ => true
  }

  ghost predicate Inv(w: World, s: State) {
    QueriesOk(w, s) && StructsOk(w, s) && forall i :: 0 <= i < |s.calls| ==> CallOk(w, s.calls[i])
  }

  lemma LocalOk(w: World, s: State, c: Call)
    requires QueriesOk(w, s) && StructsOk(w, s) && CallOk(w, c)
    ensures CallOk(w, c.(phase := Local(w, s, c)))
  {
    hide Compute, FreshArgs, Hit;
  }

  lemma StepOk(w: World, s: State, a: Action)
    requires Inv(w, s)
    ensures Inv(w, Apply(w, s, a))
  {
    hide Compute, FreshArgs, Hit, Local;
    if a.Go? && a.i < |s.calls| { LocalOk(w, s, s.calls[a.i]); }
  }

  /** In every run, each cache entry is what recomputation from its key gives, and each finished call did what a call
    * without caches does, or what the hit path does with a freshly computed entry.
    */
  lemma {:induction false} CachesAgree(w: World, run: seq<Action>)
    ensures Inv(w, After(w, run))
  {
    if run != [] {
      CachesAgree(w, run[..|run| - 1]);
      StepOk(w, After(w, run[..|run| - 1]), run[|run| - 1]);
    }
  }

  // ---------- hit and miss ----------

  /** No TypeWrapper handles a field that the call sends. */
  predicate NoneWrapped(w: World, refl: nat, fields: seq<FlatField>, v: GoValue)
    requires ReadAll(v, IndicesOf(fields)).Some?
  {
    forall i :: 0 <= i < |fields| ==> !w.wraps(refl, fields[i], ReadAll(v, IndicesOf(fields)).value[i])
  }

  lemma {:induction false} PositionsCover(columns: seq<ColumnInfo>, keep: Keep, i: nat) returns (k: nat)
    requires i < |columns| && Kept(keep, columns[i])
    ensures k < |Positions(columns, keep)| && Positions(columns, keep)[k] == i
  {
    var n := |columns| - 1;
    if i == n { k := |Positions(columns, keep)| - 1; } else { k := PositionsCover(columns[..n], keep, i); }
  }

  /** Where the i-th column's item stands in the arrangement. */
  lemma ArrangedPlace<T>(op: Op, columns: seq<ColumnInfo>, i: nat, xs: seq<T>, ys: seq<T>) returns (k: nat)
    requires i < |columns| == |xs| == |ys|
    ensures k < |Arranged(op, columns, xs)| && Arranged(op, columns, xs)[k] == xs[i]
    ensures k < |Arranged(op, columns, ys)| && Arranged(op, columns, ys)[k] == ys[i]
  {
    k := i;
    if op.Update? {
      hide Positions;
      if columns[i].primaryKey {
        k := PositionsCover(columns, KeyColumns, i);
        k := k + |Positions(columns, NonKeyColumns)|;
      } else {
        k := PositionsCover(columns, NonKeyColumns, i);
      }
    }
  }

  /** Reading at the arranged indices is arranging what is read. */
  lemma ReadArranged(op: Op, fields: seq<FlatField>, v: GoValue)
    requires ReadAll(v, IndicesOf(fields)).Some?
    ensures var columns := ColumnsOf(fields);
            ReadAll(v, Arranged(op, columns, IndicesOf(fields))) == Some(Arranged(op, columns, ReadAll(v, IndicesOf(fields)).value))
  {
    var columns, indices := ColumnsOf(fields), IndicesOf(fields);
    var values := ReadAll(v, indices).value;
    if op.Update? {
      var read := ReadAll(v, Arranged(op, columns, indices));
      assert read.Some?;
      assert read.value == Arranged(op, columns, values);
    }
  }

  lemma PlainsArranged(op: Op, columns: seq<ColumnInfo>, values: seq<GoValue>)
    requires |values| == |columns|
    ensures Plains(Arranged(op, columns, values)) == Arranged(op, columns, Plains(values))
  {
    if op.Update? { assert Plains(Arranged(op, columns, values)) == Arranged(op, columns, Plains(values)); }
  }

  /** A field that a TypeWrapper handles makes a difference to the arguments. */
  lemma WrapShows(w: World, op: Op, refl: nat, fields: seq<FlatField>, values: seq<GoValue>)
    requires |values| == |fields| && exists i :: 0 <= i < |fields| && w.wraps(refl, fields[i], values[i])
    ensures Arranged(op, ColumnsOf(fields), Reflect(w, refl, fields, values)) != Arranged(op, ColumnsOf(fields), Plains(values))
  {
    hide Arranged;
    var i :| 0 <= i < |fields| && w.wraps(refl, fields[i], values[i]);
    var k := ArrangedPlace(op, ColumnsOf(fields), i, Reflect(w, refl, fields, values), Plains(values));
    assert Reflect(w, refl, fields, values)[i] == Wrapped(values[i]) && Plains(values)[i] == Plain(values[i]);
  }

  /** A hit runs the same query with the same arguments in the same order as a call without a cache, if and only if
    * no field that it sends is handled by a TypeWrapper.
    */
  lemma HitIsMissIff(w: World, op: Op, key: Key, fields: seq<FlatField>, v: GoValue, entry: Entry)
    requires w.reflects(key.typ, key.refl) == Ok(fields) && Compute(w, op, key, None, fields) == Ok(entry)
    requires ReadAll(v, IndicesOf(Picked(op, None, fields))).Some?
    ensures Hit(entry, v) == Fresh(w, op, key, None, v) <==> NoneWrapped(w, key.refl, Picked(op, None, fields), v)
  {
    var picked := Picked(op, None, fields);
    var columns := ColumnsOf(picked);
    var values := ReadAll(v, IndicesOf(picked)).value;
    ReadArranged(op, picked, v);
    PlainsArranged(op, columns, values);
    var sent := Reflect(w, key.refl, picked, values);
    hide Updates.Reordered, Chosen, Positions;
    assert Hit(entry, v) == Ran(entry.query, Arranged(op, columns, Plains(values)));
    assert Fresh(w, op, key, None, v) == Ran(entry.query, Arranged(op, columns, sent));
    if NoneWrapped(w, key.refl, picked, v) {
      assert sent == Plains(values);
    } else {
      hide Arranged;
      WrapShows(w, op, key.refl, picked, values);
    }
  }

  /** So without TypeWrappers in play, no interleaving of calls and clears shows: every finished call has done what
    * it would have done alone and uncached.
    */
  lemma CachesDoNotShow(w: World, run: seq<Action>, i: nat)
    requires i < |After(w, run).calls| && After(w, run).calls[i].phase.Over?
    requires var c := After(w, run).calls[i];
             w.reflects(c.key.typ, c.key.refl).Ok? ==>
               var picked := Picked(c.op, c.options, w.reflects(c.key.typ, c.key.refl).value);
               ReadAll(c.v, IndicesOf(picked)).Some? && NoneWrapped(w, c.key.refl, picked, c.v)
    ensures var c := After(w, run).calls[i];
            c.phase.outcome == Fresh(w, c.op, c.key, c.options, c.v)
  {
    CachesAgree(w, run);
    var c := After(w, run).calls[i];
    assert CallOk(w, c);
    if c.options.None? && Recompute(w, c.op, c.key).Ok? {
      var fields := w.reflects(c.key.typ, c.key.refl).value;
      HitIsMissIff(w, c.op, c.key, fields, c.v, Recompute(w, c.op, c.key).value);
    }
  }

  /** An UPDATE, an UPSERT or a DELETE is only ever sent with a key column, from the cache or not. */
  lemma OnlyWithKey(w: World, run: seq<Action>, op: Op, key: Key)
    requires (op, key) in After(w, run).queries && !op.Insert?
    ensures w.reflects(key.typ, key.refl).Ok?
    ensures Updates.HasKey(ColumnsOf(Picked(op, None, w.reflects(key.typ, key.refl).value)))
  {
    CachesAgree(w, run);
    var fields := w.reflects(key.typ, key.refl).value;
    var columns := ColumnsOf(Picked(op, None, fields));
    if op.Delete? {
      ChosenIn(fields, Filter(op, None));
      assert Picked(op, None, fields)[0] in Picked(op, None, fields);
      assert columns[0].primaryKey;
    }
  }
}
