/** InsertRowStructs: batching, placeholder numbering and the transaction around the batches. */
module InsertBatches {
  import opened Common
  import opened Sql
  import opened SqlAst
  import opened SqlTables
  import opened QueryBuilder
  import opened TxModel
  import opened TxSemantics
  import opened TxRefinement
  import Transactions
  import Dialects
  import SqlReader
  import Upserts

  /** A row to insert: the mapped field values, or a nil pointer. */
  datatype RowStruct = NilPointer | Fields(vals: seq<Value>)

  const NIL_POINTER := Error({App(1)})
  const BUILD_FAILED := Error({App(2)})
  const NO_COLUMNS_MAPPED := Error({App(3)})
  const TOO_MANY_COLUMNS := Error({App(4)})

  /** A table's insert job: all rows have one value per column. */
  datatype Job = Job(f: Formatter, table: string, columns: seq<ColumnInfo>, rows: seq<RowStruct>)

  predicate JobOk(j: Job) {
    forall i :: 0 <= i < |j.rows| && j.rows[i].Fields? ==> |j.rows[i].vals| == |j.columns|
  }

  // ---------- the plan ----------

  /** The values of rows start to end - 1, one row after the other. */
  function Collect(rows: seq<RowStruct>, start: nat, end: nat): Result<seq<Value>, Error>
    requires start <= end <= |rows|
    decreases end
  {
    if start == end then Ok([])
    else
      var before := Collect(rows, start, end - 1);
      if before.Fail? then before
      else if rows[end - 1].NilPointer? then Fail(NIL_POINTER)
      else Ok(before.value + rows[end - 1].vals)
  }

  method CollectValues(rows: seq<RowStruct>, start: nat, end: nat) returns (r: Result<seq<Value>, Error>)
    requires start <= end <= |rows|
    ensures r == Collect(rows, start, end)
  {
    var vals := [];
    for i := start to end
      invariant Collect(rows, start, i) == Ok(vals)
    {
      if rows[i].NilPointer? {
        CollectFails(rows, start, i + 1, end);
        return Fail(NIL_POINTER);
      }
      vals := vals + rows[i].vals;
    }
    return Ok(vals);
  }

  lemma {:induction false} CollectFails(rows: seq<RowStruct>, start: nat, mid: nat, end: nat)
    requires start <= mid <= end <= |rows| && Collect(rows, start, mid).Fail?
    ensures Collect(rows, start, end) == Collect(rows, start, mid)
    decreases end
  {
    if mid < end { CollectFails(rows, start, mid, end - 1); }
  }

  function Query(j: Job, n: nat): seq<Token> { Text(InsertRowsQuery(j.table, j.columns, n)) }

  predicate Builds(j: Job) { j.f.tableOk(j.table) && FirstBad(j.f, j.columns, AllColumns).None? }

  /** One multi-row insert of n rows from start, or the error met on the way to it. */
  function Batch(j: Job, start: nat, n: nat): Body
    requires start + n <= |j.rows|
  {
    var vals := Collect(j.rows, start, start + n);
    if vals.Fail? then Return(vals.error) else ExecStmt(Stmt(Query(j, n), vals.value))
  }

  function FullBatches(j: Job, size: nat, count: nat): Body
    requires count * size <= |j.rows|
    decreases count
  {
    if count == 0 then Skip
    else
      FirstFits(j, size, count);
      Then(FullBatches(j, size, count - 1), Batch(j, (count - 1) * size, size))
  }

  lemma FirstFits(j: Job, size: nat, count: nat)
    requires 0 < count && count * size <= |j.rows|
    ensures (count - 1) * size + size == count * size
  {
  }

  /** What InsertRowStructs does with a job once its columns are known. */
  datatype Plan = Nothing | Reject(error: Error) | Direct(body: Body) | InTransaction(body: Body)

  function Min(a: nat, b: nat): nat { if a < b then a else b }

  function PlanOf(j: Job): Plan {
    var total := |j.rows|;
    if total == 0 then Nothing
    else if total == 1 then
      if j.rows[0].NilPointer? then Reject(NIL_POINTER)
      else if !Builds(j) then Reject(BUILD_FAILED)
      else Direct(ExecStmt(Stmt(Query(j, 1), j.rows[0].vals)))
    else if j.columns == [] then Reject(NO_COLUMNS_MAPPED)
    else if j.f.maxArgs / |j.columns| < 1 then Reject(TOO_MANY_COLUMNS)
    else
      var size := Min(j.f.maxArgs / |j.columns|, total);
      var full, rest := total / size, total % size;
      if full <= 1 && rest == 0 then
        if !Builds(j) then Reject(BUILD_FAILED) else Direct(Batch(j, 0, total))
      else if !Builds(j) then InTransaction(Return(BUILD_FAILED))
      else
        SizesAddUp(total, size);
        var fullBody := if full >= 2 then Then(DriverCall, Finally(FullBatches(j, size, full), DriverCall)) else Batch(j, 0, size);
        InTransaction(if rest == 0 then fullBody else Then(fullBody, Batch(j, full * size, rest)))
  }

  lemma SizesAddUp(total: nat, size: nat)
    requires 0 < size <= total
    ensures total / size * size + total % size == total && total / size >= 1
    ensures total / size * size <= total
  {
    assert total == total / size * size + total % size;
  }

  /** The imperative planner: InsertRowStructs up to the driver calls. */
  method MakePlan(j: Job) returns (p: Plan)
    ensures p == PlanOf(j)
  {
    var numTotalRows := |j.rows|;
    if numTotalRows == 0 { return Nothing; }
    if numTotalRows == 1 {
      if j.rows[0].NilPointer? { return Reject(NIL_POINTER); }
      var q := QueryBuilder.Insert(j.f, j.table, j.columns);
      if q.Fail? { return Reject(BUILD_FAILED); }
      OneRow(j);
      return Direct(ExecStmt(Stmt(q.value, j.rows[0].vals)));
    }
    var numCols := |j.columns|;
    if numCols == 0 { return Reject(NO_COLUMNS_MAPPED); }
    var rowsPerBatch := j.f.maxArgs / numCols;
    if rowsPerBatch < 1 { return Reject(TOO_MANY_COLUMNS); }
    if rowsPerBatch > numTotalRows { rowsPerBatch := numTotalRows; }
    var numFullBatches, numRemainderRows := numTotalRows / rowsPerBatch, numTotalRows % rowsPerBatch;
    SizesAddUp(numTotalRows, rowsPerBatch);
    if numFullBatches <= 1 && numRemainderRows == 0 {
      var q := QueryBuilder.InsertRows(j.f, j.table, j.columns, numTotalRows);
      if q.Fail? { return Reject(BUILD_FAILED); }
      var b := MakeBatch(j, q.value, 0, numTotalRows);
      return Direct(b);
    }
    var q := QueryBuilder.InsertRows(j.f, j.table, j.columns, rowsPerBatch);
    if q.Fail? { return InTransaction(Return(BUILD_FAILED)); }
    var body;
    if numFullBatches >= 2 {
      body := MakeFullBatches(j, q.value, rowsPerBatch, numFullBatches);
      body := Then(DriverCall, Finally(body, DriverCall));
    } else {
      body := MakeBatch(j, q.value, 0, rowsPerBatch);
    }
    if numRemainderRows != 0 {
      var q2 := QueryBuilder.InsertRows(j.f, j.table, j.columns, numRemainderRows);
      var b := MakeBatch(j, q2.value, numFullBatches * rowsPerBatch, numRemainderRows);
      body := Then(body, b);
    }
    return InTransaction(body);
  }

  /** The loop over the full batches. */
  method MakeFullBatches(j: Job, query: seq<Token>, rowsPerBatch: nat, numFullBatches: nat) returns (body: Body)
    requires query == Query(j, rowsPerBatch) && numFullBatches * rowsPerBatch <= |j.rows|
    ensures body == FullBatches(j, rowsPerBatch, numFullBatches)
  {
    hide Query, Batch;
    body := Skip;
    for batch := 0 to numFullBatches
      invariant batch * rowsPerBatch <= |j.rows|
      invariant body == FullBatches(j, rowsPerBatch, batch)
    {
      BatchFits(batch, numFullBatches, rowsPerBatch, |j.rows|);
      var b := MakeBatch(j, query, batch * rowsPerBatch, rowsPerBatch);
      body := Then(body, b);
    }
  }

  lemma OneRow(j: Job)
    ensures Text(InsertQuery(j.table, j.columns)) == Query(j, 1)
  {
    assert PhRows(1, |j.columns|) == [PhRow(0, |j.columns|)];
  }

  lemma BatchFits(batch: nat, count: nat, size: nat, total: nat)
    requires batch < count && count * size <= total
    ensures batch * size + size == (batch + 1) * size <= total
  {
    assert (batch + 1) * size <= count * size;
  }

  method MakeBatch(j: Job, query: seq<Token>, start: nat, n: nat) returns (b: Body)
    requires start + n <= |j.rows| && query == Query(j, n)
    ensures b == Batch(j, start, n)
  {
    var vals := CollectValues(j.rows, start, start + n);
    if vals.Fail? { return Return(vals.error); }
    return ExecStmt(Stmt(query, vals.value));
  }

  /** InsertRowStructs on a connection. */
  method InsertRowStructs(db: Transactions.Database, ctx: Ctx, j: Job) returns (err: Outcome)
    modifies db
    ensures db.Did(old(db.trace), Inserted(db.env, old(db.State()), ctx, j)) && err == Inserted(db.env, old(db.State()), ctx, j).out
  {
    var plan := MakePlan(j);
    match plan
    case Nothing => err := Done;
    case Reject(e) => err := Err(e);
    case Direct(body) => err := db.RunBody(ctx, body);
    case InTransaction(body) => err := db.Transaction(ctx, None, body);
  }

  function Inserted(env: Env, db: Db, ctx: Ctx, j: Job): Res {
    match PlanOf(j)
    case Nothing => Res(db, Done, [])
    case Reject(e) => Res(db, Err(e), [])
    case Direct(body) => Run(env, db, ctx, body)
    case InTransaction(body) => RunTransaction(env, db, ctx, None, body)
  }

  // ---------- straight-line bodies ----------

  predicate Straight(b: Body) {
    match b
    case Skip => true
    case ExecStmt(_) => true
    case DriverCall => true
    case Return(_) => true
    case Then(x, y) => Straight(x) && Straight(y)
    case Finally(x, y) => Straight(x) && y == DriverCall
    case _ => false
  }

  function Stmts(b: Body): seq<Stmt> {
    match b
    case ExecStmt(s) => [s]
    case Then(x, y) => Stmts(x) + Stmts(y)
    case Finally(x, y) => Stmts(x)
    case _ => []
  }

  predicate Returns(b: Body) {
    match b
    case Return(_) => true
    case Then(x, y) => Returns(x) || Returns(y)
    case Finally(x, y) => Returns(x)
    case _ => false
  }

  /** In a transaction, a straight-line body that returns nil leaves exactly its statements. */
  lemma {:induction false} StraightMeans(env: Env, clock: nat, v: View, b: Body)
    requires Straight(b) && v.active
    ensures
      var m := Mean(env, clock, v, b);
      m.durable == [] && (m.out.Done? ==> m.pending == Stmts(b) && !Returns(b))
    decreases b
  {
    match b
    case Then(x, y) => StraightMeans(env, clock, v, x); StraightMeans(env, Mean(env, clock, v, x).clock, v, y);
    case Finally(x, y) => StraightMeans(env, clock, v, x); StraightMeans(env, Mean(env, clock, v, x).clock, v, y);
    case _ =>
  }

  // ---------- what the statements insert ----------

  function ValRow(row: seq<Value>): seq<Token> { seq(|row|, i requires 0 <= i < |row| => Val(row[i])) }

  function ValRows(rows: seq<seq<Value>>): seq<seq<Token>> { seq(|rows|, i requires 0 <= i < |rows| => ValRow(rows[i])) }

  /** The statement, bound either way, is read as the insert of exactly these rows, with no more arguments than the driver
    * takes; for a job of a single row nothing checks that.
    */
  ghost predicate InsertsRows(j: Job, stmt: Stmt, chunk: seq<seq<Value>>) {
    && (|j.rows| == 1 || |stmt.args| <= j.f.maxArgs)
    && SqlReader.Read(BindByNumber(stmt.query, stmt.args)) == Ok(SqlAst.Insert(j.table, NamesOf(j.columns), ValRows(chunk)))
    && BindInOrder(stmt.query, stmt.args) == BindByNumber(stmt.query, stmt.args)
  }

  function Concat<T>(chunks: seq<seq<T>>): seq<T> {
    if chunks == [] then [] else Concat(chunks[..|chunks| - 1]) + chunks[|chunks| - 1]
  }

  lemma {:induction false} ConcatJoin<T>(a: seq<seq<T>>, b: seq<seq<T>>)
    ensures Concat(a + b) == Concat(a) + Concat(b)
    decreases |b|
  {
    if b == [] {
      assert a + b == a;
    } else {
      var n := |b| - 1;
      assert (a + b)[..|a| + n] == a + b[..n] && (a + b)[|a| + n] == b[n];
      ConcatJoin(a, b[..n]);
    }
  }

  /** The statements insert the rows, chunk by chunk, in order. */
  ghost predicate Covers(j: Job, stmts: seq<Stmt>, rows: seq<seq<Value>>) {
    exists chunks: seq<seq<seq<Value>>> :: ChunksCover(j, stmts, rows, chunks)
  }

  ghost predicate ChunksCover(j: Job, stmts: seq<Stmt>, rows: seq<seq<Value>>, chunks: seq<seq<seq<Value>>>) {
    && |chunks| == |stmts|
    && Concat(chunks) == rows
    && forall i :: 0 <= i < |stmts| ==> InsertsRows(j, stmts[i], chunks[i])
  }

  lemma CoversJoin(j: Job, a: seq<Stmt>, ra: seq<seq<Value>>, b: seq<Stmt>, rb: seq<seq<Value>>)
    requires Covers(j, a, ra) && Covers(j, b, rb)
    ensures Covers(j, a + b, ra + rb)
  {
    hide InsertsRows, Concat;
    var ca :| ChunksCover(j, a, ra, ca);
    var cb :| ChunksCover(j, b, rb, cb);
    ConcatJoin(ca, cb);
    forall i | 0 <= i < |a + b| ensures InsertsRows(j, (a + b)[i], (ca + cb)[i]) {
      if i < |a| { assert InsertsRows(j, a[i], ca[i]); } else { assert InsertsRows(j, b[i - |a|], cb[i - |a|]); }
    }
    assert ChunksCover(j, a + b, ra + rb, ca + cb);
  }

  predicate NoNil(rows: seq<RowStruct>, start: nat, end: nat)
    requires start <= end <= |rows|
  {
    forall i :: start <= i < end ==> rows[i].Fields?
  }

  function RowValues(rows: seq<RowStruct>, start: nat, end: nat): (r: seq<seq<Value>>)
    requires start <= end <= |rows| && NoNil(rows, start, end)
    ensures |r| == end - start
  {
    seq(end - start, i requires 0 <= i < end - start => rows[start + i].vals)
  }

  lemma {:induction false} Collected(j: Job, start: nat, end: nat)
    requires JobOk(j) && start <= end <= |j.rows|
    ensures Collect(j.rows, start, end).Ok? <==> NoNil(j.rows, start, end)
    ensures Collect(j.rows, start, end).Ok? ==>
      var vals := Collect(j.rows, start, end).value;
      && |vals| == (end - start) * |j.columns|
      && forall r, c :: 0 <= r < end - start && 0 <= c < |j.columns| ==> CellOk(j, vals, start, r, c)
    decreases end
  {
    if start < end {
      Collected(j, start, end - 1);
      if Collect(j.rows, start, end).Ok? {
        var n, k := end - start, |j.columns|;
        var before := Collect(j.rows, start, end - 1).value;
        var vals := Collect(j.rows, start, end).value;
        assert |before| == (n - 1) * k;
        assert (n - 1) * k + k == n * k;
        forall r, c | 0 <= r < n && 0 <= c < k ensures CellOk(j, vals, start, r, c) {
          CellFits(r, c, n, k);
          if r < n - 1 { assert CellOk(j, before, start, r, c); }
        }
      }
    }
  }

  /** The value of column c of the r-th collected row is at its place in the argument list. */
  predicate CellOk(j: Job, vals: seq<Value>, start: nat, r: nat, c: nat) {
    var at := r * |j.columns| + c;
    && at < |vals| && start + r < |j.rows|
    && j.rows[start + r].Fields? && c < |j.rows[start + r].vals|
    && vals[at] == j.rows[start + r].vals[c]
  }

  lemma CellFits(r: nat, c: nat, n: nat, k: nat)
    requires r < n && c < k
    ensures r * k + c < n * k
  {
    assert r * k + c < (r + 1) * k <= n * k;
  }

  /** Placeholder row*numCols+col is bound to that row's col-th value. */
  lemma BatchInserts(j: Job, start: nat, n: nat)
    requires JobOk(j) && 0 < n && start + n <= |j.rows| && (|j.rows| == 1 || n * |j.columns| <= j.f.maxArgs)
    requires Collect(j.rows, start, start + n).Ok?
    ensures NoNil(j.rows, start, start + n)
    ensures InsertsRows(j, Stmt(Query(j, n), Collect(j.rows, start, start + n).value), RowValues(j.rows, start, start + n))
  {
    Collected(j, start, start + n);
    var vals := Collect(j.rows, start, start + n).value;
    hide Collect, Numbers, Text, BindByNumber, BindInOrder, SqlReader.Read, PhRows;
    RowsBound(j, start, n, vals);
    RowsComplete(j, n);
    SqlReader.BoundIsComplete(InsertRowsQuery(j.table, j.columns, n), vals);
    SqlReader.TextReadsBack(BindQuery(InsertRowsQuery(j.table, j.columns, n), vals));
    BindText(InsertRowsQuery(j.table, j.columns, n), vals);
    RowsNumbers(j.table, j.columns, n);
    InSequenceAgree(Query(j, n), vals);
  }

  lemma RowsComplete(j: Job, n: nat)
    requires n > 0
    ensures SqlReader.Complete(InsertRowsQuery(j.table, j.columns, n))
  {
    hide NamesOf;
  }

  lemma RowsBound(j: Job, start: nat, n: nat, vals: seq<Value>)
    requires JobOk(j) && start + n <= |j.rows| && Collect(j.rows, start, start + n) == Ok(vals)
    ensures NoNil(j.rows, start, start + n)
    ensures BindRows(PhRows(n, |j.columns|), vals) == ValRows(RowValues(j.rows, start, start + n))
  {
    Collected(j, start, start + n);
    hide Collect;
    var k := |j.columns|;
    var chunk := RowValues(j.rows, start, start + n);
    forall r | 0 <= r < n ensures BindRow(PhRow(r * k, k), vals) == ValRow(chunk[r]) {
      forall c | 0 <= c < k ensures BindRow(PhRow(r * k, k), vals)[c] == Val(chunk[r][c]) {
        assert CellOk(j, vals, start, r, c);
      }
    }
  }

  lemma {:induction false} RowItemNumbers(n: nat, k: nat)
    ensures ItemNumbers(Rows(PhRows(n, k))) == Range(0, n * k)
    decreases n
  {
    if n > 0 {
      var items := Rows(PhRows(n, k));
      assert items[..n - 1] == Rows(PhRows(n - 1, k));
      RowItemNumbers(n - 1, k);
      RowNumbers((n - 1) * k, k);
      assert items[n - 1] == [Raw("(")] + Sep(Slots(PhRow((n - 1) * k, k)), [Raw(",")]) + [Raw(")")];
      hide Numbers, Sep, Slots, Rows, PhRows, PhRow;
      assert (n - 1) * k + k == n * k;
      assert Range(0, (n - 1) * k) + Range((n - 1) * k, k) == Range(0, n * k);
    }
  }

  lemma RowNumbers(from: nat, k: nat)
    ensures Numbers([Raw("(")] + Sep(Slots(PhRow(from, k)), [Raw(",")]) + [Raw(")")]) == Range(from, k)
  {
    hide *;
    Upserts.SlotNumbers(from, k);
    BindFixed([Raw("(")], []);
    BindFixed([Raw(")")], []);
    Upserts.NumbersOne([Raw("(")], Sep(Slots(PhRow(from, k)), [Raw(",")]), [Raw(")")]);
  }

  lemma RowsNumbers(table: string, columns: seq<ColumnInfo>, n: nat)
    ensures Numbers(Text(InsertRowsQuery(table, columns, n))) == Range(0, n * |columns|)
  {
    FixedHead(table, NamesOf(columns), []);
    RowItemNumbers(n, |columns|);
    SepNumbers(Rows(PhRows(n, |columns|)), ",");
    RowsText(table, columns, n);
    hide Numbers, Sep, Text;
    NumbersConcat(InsertHead(table, NamesOf(columns)), Sep(Rows(PhRows(n, |columns|)), [Raw(",")]));
  }

  // ---------- the plan covers the rows ----------

  lemma BatchCovers(j: Job, start: nat, n: nat)
    requires JobOk(j) && 0 < n && start + n <= |j.rows| && (|j.rows| == 1 || n * |j.columns| <= j.f.maxArgs)
    ensures Straight(Batch(j, start, n)) && (Returns(Batch(j, start, n)) <==> !NoNil(j.rows, start, start + n))
    ensures !Returns(Batch(j, start, n)) ==>
      NoNil(j.rows, start, start + n) && Covers(j, Stmts(Batch(j, start, n)), RowValues(j.rows, start, start + n))
  {
    Collected(j, start, start + n);
    if !Returns(Batch(j, start, n)) {
      BatchInserts(j, start, n);
      hide InsertsRows, RowValues, Collect, Query;
      OneChunk(j, Stmts(Batch(j, start, n))[0], RowValues(j.rows, start, start + n));
    }
  }

  lemma OneChunk(j: Job, stmt: Stmt, rows: seq<seq<Value>>)
    requires InsertsRows(j, stmt, rows)
    ensures Covers(j, [stmt], rows)
  {
    hide InsertsRows;
    assert [rows][..0] == [];
    assert Concat([rows]) == rows;
    assert ChunksCover(j, [stmt], rows, [rows]);
  }

  lemma RowsJoin(rows: seq<RowStruct>, a: nat, b: nat, c: nat)
    requires a <= b <= c <= |rows| && NoNil(rows, a, b) && NoNil(rows, b, c)
    ensures NoNil(rows, a, c) && RowValues(rows, a, b) + RowValues(rows, b, c) == RowValues(rows, a, c)
  {
  }

  lemma NothingCovered(j: Job)
    ensures Covers(j, [], RowValues(j.rows, 0, 0))
  {
    assert ChunksCover(j, [], RowValues(j.rows, 0, 0), []);
  }

  lemma {:induction false} FullCovers(j: Job, size: nat, count: nat)
    requires JobOk(j) && 0 < size && count * size <= |j.rows| && size * |j.columns| <= j.f.maxArgs
    ensures Straight(FullBatches(j, size, count)) && (Returns(FullBatches(j, size, count)) <==> !NoNil(j.rows, 0, count * size))
    ensures !Returns(FullBatches(j, size, count)) ==>
      NoNil(j.rows, 0, count * size) && Covers(j, Stmts(FullBatches(j, size, count)), RowValues(j.rows, 0, count * size))
    decreases count
  {
    hide Batch, Covers, RowValues;
    if count == 0 {
      NothingCovered(j);
    } else {
      FirstFits(j, size, count);
      FullCovers(j, size, count - 1);
      BatchCovers(j, (count - 1) * size, size);
      if !Returns(FullBatches(j, size, count)) {
        RowsJoin(j.rows, 0, (count - 1) * size, count * size);
        CoversJoin(j, Stmts(FullBatches(j, size, count - 1)), RowValues(j.rows, 0, (count - 1) * size),
                   Stmts(Batch(j, (count - 1) * size, size)), RowValues(j.rows, (count - 1) * size, count * size));
      }
    }
  }

  lemma SizeFits(maxArgs: int, k: nat, size: nat)
    requires k > 0 && 1 <= size <= maxArgs / k
    ensures size * k <= maxArgs && forall n: nat :: n <= size ==> n * k <= maxArgs
  {
    assert size * k <= maxArgs / k * k <= maxArgs;
    forall n: nat | n <= size ensures n * k <= maxArgs { assert n * k <= size * k; }
  }

  /** The body of the full batches: prepared statement and loop, or a single statement. */
  function FullBody(j: Job, size: nat, full: nat): Body
    requires full >= 1 && full * size <= |j.rows|
  {
    if full >= 2 then Then(DriverCall, Finally(FullBatches(j, size, full), DriverCall))
    else
      FirstFits(j, size, full);
      Batch(j, 0, size)
  }

  /** Preparing a statement before a straight-line body and closing it after adds no statement. */
  lemma PreparedIsPlain(loop: Body)
    requires Straight(loop)
    ensures var f := Then(DriverCall, Finally(loop, DriverCall));
            Straight(f) && Stmts(f) == Stmts(loop) && Returns(f) == Returns(loop)
  {
    var f := Finally(loop, DriverCall);
    assert Straight(f) && Stmts(f) == Stmts(loop) && Returns(f) == Returns(loop);
    assert [] + Stmts(f) == Stmts(f);
  }

  lemma FullBodyCovers(j: Job, size: nat, full: nat)
    requires JobOk(j) && full >= 1 && 0 < size && full * size <= |j.rows| && size * |j.columns| <= j.f.maxArgs
    ensures Straight(FullBody(j, size, full)) && (Returns(FullBody(j, size, full)) <==> !NoNil(j.rows, 0, full * size))
    ensures !Returns(FullBody(j, size, full)) ==>
      NoNil(j.rows, 0, full * size) && Covers(j, Stmts(FullBody(j, size, full)), RowValues(j.rows, 0, full * size))
  {
    hide Batch, FullBatches, Covers, RowValues, NoNil, JobOk;
    FirstFits(j, size, full);
    FullCovers(j, size, full);
    if full >= 2 {
      PreparedIsPlain(FullBatches(j, size, full));
    } else {
      assert full == 1 && full * size == size;
      BatchCovers(j, 0, size);
    }
  }

  /** All names are accepted. */
  predicate NamesOk(j: Job) {
    j.f.tableOk(j.table) && forall i :: 0 <= i < |j.columns| ==> j.f.columnOk(j.columns[i].name)
  }

  lemma BuildsIs(j: Job)
    ensures Builds(j) <==> NamesOk(j)
  {
    if Builds(j) {
      forall i | 0 <= i < |j.columns| ensures j.f.columnOk(j.columns[i].name) { Dialects.AllNamesOk(j.f, j.columns, i); }
    }
    if NamesOk(j) { Dialects.NoneBad(j.f, j.columns); }
  }

  /** Whichever plan is made, for however many rows: nothing is planned for no row only, and otherwise the body is
    * straight-line, contains an error return exactly if a row is nil or a name is refused, and else its statements
    * insert all rows in order.
    */
  lemma PlanCovers(j: Job)
    requires JobOk(j)
    ensures
      var p := PlanOf(j);
      && (p.Nothing? <==> |j.rows| == 0)
      && (p.Direct? || p.InTransaction? ==>
            && Straight(p.body)
            && (Returns(p.body) <==> !(NamesOk(j) && NoNil(j.rows, 0, |j.rows|)))
            && (!Returns(p.body) ==> Covers(j, Stmts(p.body), RowValues(j.rows, 0, |j.rows|))))
  {
    BuildsIs(j);
    if |j.rows| == 1 {
      OneRowCovers(j);
    } else if |j.rows| > 1 {
      BatchesCover(j);
    }
  }

  lemma OneRowCovers(j: Job)
    requires JobOk(j) && |j.rows| == 1
    ensures
      var p := PlanOf(j);
      && (p.Reject? || p.Direct?)
      && (p.Direct? ==>
            && p.body.ExecStmt? && NoNil(j.rows, 0, 1) && Builds(j)
            && Covers(j, Stmts(p.body), RowValues(j.rows, 0, 1)))
  {
    if PlanOf(j).Direct? {
      hide Covers, RowValues, Query;
      assert Collect(j.rows, 0, 0) == Ok([]);
      assert [] + j.rows[0].vals == j.rows[0].vals;
      assert PlanOf(j).body == Batch(j, 0, 1);
      BatchCovers(j, 0, 1);
    }
  }

  lemma BatchesCover(j: Job)
    requires JobOk(j) && |j.rows| > 1
    ensures
      var p := PlanOf(j);
      && !p.Nothing?
      && (p.Direct? || p.InTransaction? ==>
            && Straight(p.body)
            && (Returns(p.body) <==> !(Builds(j) && NoNil(j.rows, 0, |j.rows|)))
            && (!Returns(p.body) ==> Covers(j, Stmts(p.body), RowValues(j.rows, 0, |j.rows|))))
  {
    hide Builds, Covers, RowValues, Collect;
    var p := PlanOf(j);
    var total := |j.rows|;
    if (p.Direct? || p.InTransaction?) && Builds(j) {
      var size := Min(j.f.maxArgs / |j.columns|, total);
      SizeFits(j.f.maxArgs, |j.columns|, size);
      SizesAddUp(total, size);
      var full, rest := total / size, total % size;
      if full <= 1 && rest == 0 {
        assert total == size;
        BatchCovers(j, 0, total);
      } else {
        if full < 2 { assert full == 1 && full * size == size; }
        PlanIs(j, size, full, rest);
        hide PlanOf, Batch, FullBatches, JobOk, NoNil;
        FullBodyCovers(j, size, full);
        if rest > 0 { BatchCovers(j, full * size, rest); }
        NilSplits(j.rows, full * size, total);
        if rest > 0 && !Returns(p.body) {
          RowsJoin(j.rows, 0, full * size, total);
          CoversJoin(j, Stmts(FullBody(j, size, full)), RowValues(j.rows, 0, full * size),
                     Stmts(Batch(j, full * size, rest)), RowValues(j.rows, full * size, total));
        }
      }
    }
  }

  lemma NilSplits(rows: seq<RowStruct>, mid: nat, end: nat)
    requires mid <= end <= |rows|
    ensures NoNil(rows, 0, end) <==> NoNil(rows, 0, mid) && NoNil(rows, mid, end)
  {
  }

  lemma PlanIs(j: Job, size: nat, full: nat, rest: nat)
    requires |j.rows| >= 2 && j.columns != [] && j.f.maxArgs / |j.columns| >= 1 && Builds(j)
    requires size == Min(j.f.maxArgs / |j.columns|, |j.rows|) && full == |j.rows| / size && rest == |j.rows| % size
    requires full >= 1 && full * size + rest == |j.rows| && !(full <= 1 && rest == 0)
    ensures PlanOf(j) == InTransaction(if rest == 0 then FullBody(j, size, full) else Then(FullBody(j, size, full), Batch(j, full * size, rest)))
  {
    if full < 2 { assert full == 1; }
  }

  // ---------- main results ----------

  /** For any number of rows, a nil return means that statements inserting all of them in order were executed, and an
    * error leaves the committed store as it was.
    */
  lemma InsertsAllOrNothing(env: Env, db: Db, ctx: Ctx, j: Job)
    requires FreshNames(env) && WellFormed(db) && Usable(db, ctx.conn)
    requires JobOk(j)
    ensures
      var r := Inserted(env, db, ctx, j);
      && (r.out.Done? ==> NoNil(j.rows, 0, |j.rows|) && exists stmts ::
            && Covers(j, stmts, RowValues(j.rows, 0, |j.rows|))
            && Executed(db, ctx.conn, r.db, stmts))
      && (!r.out.Done? ==> r.db.committed == db.committed)
  {
    PlanCovers(j);
    var p := PlanOf(j);
    var v := ViewOf(ctx);
    if p.Direct? {
      Refines(env, db, ctx, p.body);
      DirectMeans(env, db.clock, v, j);
      hide Run, Mean, Covers, PlanOf, WellFormed, AgreesOn, ViewOf, RowValues;
      FromMeaning(db, ctx.conn, Run(env, db, ctx, p.body), Mean(env, db.clock, v, p.body), Stmts(p.body));
    } else if p.InTransaction? {
      RefinesTransaction(env, db, ctx, None, p.body);
      InTransactionMeans(env, db.clock, v, p.body);
      hide RunTransaction, MeanTransaction, Covers, PlanOf, WellFormed, AgreesOn, ViewOf, RowValues;
      FromMeaning(db, ctx.conn, RunTransaction(env, db, ctx, None, p.body), MeanTransaction(env, db.clock, v, None, p.body), Stmts(p.body));
    } else if p.Nothing? {
      NothingCovered(j);
      NothingExecuted(db, ctx.conn);
    }
  }

  /** The statements ended up in the enclosing transaction, or committed if there is none. */
  predicate Executed(db: Db, conn: Conn, after: Db, stmts: seq<Stmt>) {
    if Active(conn) then
      && conn.id in db.txs && conn.id in after.txs
      && after.txs[conn.id].log == db.txs[conn.id].log + stmts && after.committed == db.committed
    else after.committed == db.committed + stmts
  }

  lemma NothingExecuted(db: Db, conn: Conn)
    requires Usable(db, conn)
    ensures Executed(db, conn, db, [])
  {
    assert db.committed + [] == db.committed;
    if conn.InTx? { assert db.txs[conn.id].log + [] == db.txs[conn.id].log; }
  }

  lemma FromMeaning(db: Db, conn: Conn, r: Res, m: Meaning, stmts: seq<Stmt>)
    requires WellFormed(db) && Usable(db, conn) && Agrees(db, conn, r, m)
    requires m.out.Done? ==> m.durable + m.pending == stmts
    requires if Active(conn) then m.durable == [] else m.pending == []
    requires !m.out.Done? ==> m.durable == []
    ensures r.out == m.out
    ensures r.out.Done? ==> Executed(db, conn, r.db, stmts)
    ensures !r.out.Done? ==> r.db.committed == db.committed
  {
    assert db.committed + [] == db.committed;
    assert m.durable + [] == m.durable && [] + m.pending == m.pending;
  }

  lemma DirectMeans(env: Env, clock: nat, v: View, j: Job)
    requires PlanOf(j).Direct?
    ensures
      var b := PlanOf(j).body;
      var m := Mean(env, clock, v, b);
      && (m.out.Done? ==> !Returns(b) && m.durable + m.pending == Stmts(b))
      && (if v.active then m.durable == [] else m.pending == [])
      && (!m.out.Done? ==> m.durable == [])
  {
    var b := PlanOf(j).body;
    assert b.ExecStmt? || b.Return?;
  }

  lemma InTransactionMeans(env: Env, clock: nat, v: View, b: Body)
    requires Straight(b)
    ensures
      var m := MeanTransaction(env, clock, v, None, b);
      && (m.out.Done? ==> !Returns(b) && m.durable + m.pending == Stmts(b))
      && (if v.active then m.durable == [] else m.pending == [])
      && (!m.out.Done? ==> m.durable == [])
  {
    hide Mean, Straight, Stmts, Returns;
    if v.active {
      StraightMeans(env, clock, v, b);
    } else {
      StraightMeans(env, clock + 1, v.(active := true, opts := None, pinned := false), b);
      assert MeanTransaction(env, clock, v, None, b) == MeanRoot(env, clock, v, None, b);
    }
  }

  /** Given rows as column maps, in the order of the columns. */
  function Maps(cols: seq<string>, rows: seq<seq<Value>>): seq<Row> {
    seq(|rows|, i requires 0 <= i < |rows| => Zip(cols, ValRow(rows[i])))
  }

  /** The outcome of executing one multi-row insert per chunk, stopping at the first error. */
  function ExecChunks(s: Schema, t: set<Row>, table: string, cols: seq<string>, chunks: seq<seq<seq<Value>>>): TableResult {
    if chunks == [] then Ok(t)
    else
      var before := ExecChunks(s, t, table, cols, chunks[..|chunks| - 1]);
      if before.Fail? then before
      else SqlTables.Exec(s, before.value, SqlAst.Insert(table, cols, ValRows(chunks[|chunks| - 1])))
  }

  lemma {:induction false} InsertAllJoin(s: Schema, t: set<Row>, a: seq<Row>, b: seq<Row>)
    ensures InsertAll(s, t, a + b) == (var o := InsertAll(s, t, a); if o.Fail? then o else InsertAll(s, o.value, b))
    decreases |b|
  {
    hide InsertRow;
    if b == [] {
      assert a + b == a;
    } else {
      var n := |b| - 1;
      var all := a + b;
      assert all[..|all| - 1] == a + b[..n] && all[|all| - 1] == b[n];
      InsertAllJoin(s, t, a, b[..n]);
    }
  }

  lemma MapsJoin(cols: seq<string>, a: seq<seq<Value>>, b: seq<seq<Value>>)
    ensures Maps(cols, a + b) == Maps(cols, a) + Maps(cols, b)
  {
    hide Zip, ValRow;
  }

  /** Executing the batches is inserting the rows one by one, in order. */
  lemma {:induction false} ChunksAreRows(s: Schema, t: set<Row>, table: string, cols: seq<string>, chunks: seq<seq<seq<Value>>>)
    ensures ExecChunks(s, t, table, cols, chunks) == InsertAll(s, t, Maps(cols, Concat(chunks)))
    decreases |chunks|
  {
    if chunks != [] {
      var n := |chunks| - 1;
      ChunksAreRows(s, t, table, cols, chunks[..n]);
      var front, last := Concat(chunks[..n]), chunks[n];
      MapsJoin(cols, front, last);
      InsertAllJoin(s, t, Maps(cols, front), Maps(cols, last));
      var o := InsertAll(s, t, Maps(cols, front));
      if o.Ok? {
        hide InsertAll, Concat, Zip;
        var q := SqlAst.Insert(table, cols, ValRows(last));
        assert seq(|q.rows|, i requires 0 <= i < |q.rows| => Zip(cols, q.rows[i])) == Maps(cols, last);
      }
    }
  }

  /** The statements, taken as inserts into table t one after the other, have the given outcome. */
  ghost predicate Performs(s: Schema, t: set<Row>, j: Job, stmts: seq<Stmt>, outcome: TableResult) {
    exists chunks: seq<seq<seq<Value>>> ::
      && |chunks| == |stmts| && (forall i :: 0 <= i < |stmts| ==> InsertsRows(j, stmts[i], chunks[i]))
      && ExecChunks(s, t, j.table, NamesOf(j.columns), chunks) == outcome
  }

  lemma CoversPerforms(s: Schema, t: set<Row>, j: Job, stmts: seq<Stmt>, rows: seq<seq<Value>>)
    requires Covers(j, stmts, rows)
    ensures Performs(s, t, j, stmts, InsertAll(s, t, Maps(NamesOf(j.columns), rows)))
  {
    hide InsertsRows, ExecChunks, InsertAll, Maps;
    var chunks :| ChunksCover(j, stmts, rows, chunks);
    ChunksAreRows(s, t, j.table, NamesOf(j.columns), chunks);
  }

  /** InsertRowStructs of any number of rows, started outside a transaction. A nil return adds to the committed store
    * statements that make of every table what inserting the rows one by one in order makes of it; an error adds
    * nothing.
    */
  lemma InsertsRowByRow(env: Env, db: Db, ctx: Ctx, j: Job, s: Schema, t: set<Row>)
    requires FreshNames(env) && WellFormed(db) && Usable(db, ctx.conn) && !Active(ctx.conn)
    requires JobOk(j)
    ensures
      var r := Inserted(env, db, ctx, j);
      && (r.out.Done? ==> NoNil(j.rows, 0, |j.rows|) && exists stmts ::
            && r.db.committed == db.committed + stmts
            && Performs(s, t, j, stmts, InsertAll(s, t, Maps(NamesOf(j.columns), RowValues(j.rows, 0, |j.rows|)))))
      && (!r.out.Done? ==> r.db.committed == db.committed)
  {
    hide Inserted, Covers, Performs, InsertAll, Maps, WellFormed, RowValues;
    InsertsAllOrNothing(env, db, ctx, j);
    var r := Inserted(env, db, ctx, j);
    if r.out.Done? {
      var rows := RowValues(j.rows, 0, |j.rows|);
      var stmts :| Covers(j, stmts, rows) && Executed(db, ctx.conn, r.db, stmts);
      CoversPerforms(s, t, j, stmts, rows);
    }
  }

  // ---------- when it succeeds ----------

  ghost predicate Healthy(env: Env) { forall at: nat :: env.fault(at).None? }

  /** Without failures, only an error return of its own keeps a straight-line body from returning nil. */
  lemma {:induction false} StraightSucceeds(env: Env, clock: nat, v: View, b: Body)
    requires Straight(b) && Healthy(env)
    ensures var m := Mean(env, clock, v, b); !m.out.Panicked? && (m.out.Done? <==> !Returns(b))
    decreases b
  {
    match b
    case Then(x, y) => StraightSucceeds(env, clock, v, x); StraightSucceeds(env, Mean(env, clock, v, x).clock, v, y);
    case Finally(x, y) => StraightSucceeds(env, clock, v, x);
    case _ =>
  }

  lemma TransactionSucceeds(env: Env, clock: nat, v: View, b: Body)
    requires Straight(b) && Healthy(env)
    ensures MeanTransaction(env, clock, v, None, b).out.Done? <==>
      !Returns(b) && (v.active ==> CheckOptions(v.opts, None, env.defaultLevel).None?)
  {
    hide Mean, Straight, Returns, CheckOptions;
    if v.active {
      StraightSucceeds(env, clock, v, b);
    } else {
      StraightSucceeds(env, clock + 1, v.(active := true, opts := None, pinned := false), b);
      assert MeanTransaction(env, clock, v, None, b) == MeanRoot(env, clock, v, None, b);
    }
  }

  /** The open transaction lets a call without options join: it is not read-only, and not below the default level. */
  predicate Joinable(conn: Conn, default: nat) {
    conn.InTx? && conn.opts.Some? ==>
      !conn.opts.value.readOnly && (conn.opts.value.isolation == 0 || default <= conn.opts.value.isolation)
  }

  /** One insert takes all rows, or, for several, they need a transaction of their own. */
  predicate FitsAtOnce(j: Job) { |j.rows| * |j.columns| <= j.f.maxArgs }

  /** Without failures InsertRowStructs returns nil if and only if there is nothing to insert, or no row is nil, all
    * names are accepted, and several rows have at least one column and fit the driver's arguments one at a time; in a
    * transaction that no further transaction can join, they must fit all at once.
    */
  lemma SucceedsIff(env: Env, db: Db, ctx: Ctx, j: Job)
    requires FreshNames(env) && WellFormed(db) && Usable(db, ctx.conn) && JobOk(j) && Healthy(env)
    ensures Inserted(env, db, ctx, j).out.Done? <==>
      || |j.rows| == 0
      || (&& NoNil(j.rows, 0, |j.rows|) && NamesOk(j)
          && (|j.rows| > 1 ==> 0 < |j.columns| <= j.f.maxArgs && (FitsAtOnce(j) || Joinable(ctx.conn, env.defaultLevel))))
  {
    PlanCovers(j);
    BuildsIs(j);
    var p, v := PlanOf(j), ViewOf(ctx);
    PlanKind(j);
    if p.Direct? {
      hide Run, Mean, PlanOf, WellFormed, Covers, RowValues;
      Refines(env, db, ctx, p.body);
      StraightSucceeds(env, db.clock, v, p.body);
    } else if p.InTransaction? {
      hide RunTransaction, MeanTransaction, PlanOf, WellFormed, Covers, RowValues;
      RefinesTransaction(env, db, ctx, None, p.body);
      TransactionSucceeds(env, db.clock, v, p.body);
    }
  }

  /** Which plan is made, and when none is. */
  lemma PlanKind(j: Job)
    ensures
      var p := PlanOf(j);
      && (|j.rows| == 1 ==> (p.Direct? <==> Builds(j) && NoNil(j.rows, 0, 1)) && (p.Reject? <==> !p.Direct?))
      && (|j.rows| > 1 ==>
            && (!(0 < |j.columns| <= j.f.maxArgs) ==> p.Reject?)
            && (0 < |j.columns| <= j.f.maxArgs && FitsAtOnce(j) ==> if Builds(j) then p.Direct? else p.Reject?)
            && (0 < |j.columns| <= j.f.maxArgs && !FitsAtOnce(j) ==> p.InTransaction?))
  {
    if |j.rows| > 1 && j.columns != [] {
      OneBatch(j.f.maxArgs, |j.columns|, |j.rows|);
    }
  }

  lemma OneBatch(maxArgs: int, cols: nat, total: nat)
    requires cols > 0 && total > 1
    ensures maxArgs / cols < 1 <==> maxArgs < cols
    ensures maxArgs / cols >= 1 ==>
      var size := Min(maxArgs / cols, total);
      (total / size <= 1 && total % size == 0) <==> total * cols <= maxArgs
  {
    if maxArgs / cols >= 1 {
      var fit := maxArgs / cols;
      WholeBatch(total, Min(fit, total));
      if total * cols <= maxArgs { AtMost(total, cols, maxArgs); }
      if total <= fit { AtLeast(total, cols, maxArgs); }
    }
  }

  lemma WholeBatch(total: nat, size: nat)
    requires 0 < size <= total
    ensures total / size <= 1 && total % size == 0 <==> size == total
  {
    SizesAddUp(total, size);
  }

  lemma AtLeast(total: nat, cols: nat, maxArgs: int)
    requires cols > 0 && total <= maxArgs / cols
    ensures total * cols <= maxArgs
  {
    assert total * cols <= maxArgs / cols * cols;
  }

  lemma AtMost(total: nat, cols: nat, maxArgs: int)
    requires cols > 0 && total * cols <= maxArgs
    ensures total <= maxArgs / cols
  {
    assert maxArgs < (maxArgs / cols + 1) * cols;
    assert total * cols < (maxArgs / cols + 1) * cols;
  }
}
