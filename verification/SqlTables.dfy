/** What bound statements do to a table whose only unique key is its primary key. */
module SqlTables {
  import opened Common
  import opened Sql
  import opened SqlAst
  import opened ConflictTargets

  type Row = map<string, Value>

  datatype Schema = Schema(columns: set<string>, pk: set<string>, defaults: Row)

  datatype SqlError = UnknownColumn | NullKey | DuplicateKey | NoSuchUniqueKey

  type TableResult = Result<set<Row>, SqlError>

  predicate SchemaOk(s: Schema) { s.pk <= s.columns && s.pk != {} && s.defaults.Keys == s.columns }

  predicate RowOk(s: Schema, r: Row) { r.Keys == s.columns && !NullKeyed(s, r) }

  predicate NullKeyed(s: Schema, r: Row) { exists c :: c in s.pk && Get(r, c) == Null }

  function Get(r: Row, c: string): Value { if c in r then r[c] else Null }

  predicate SameKey(s: Schema, r: Row, q: Row) { forall c :: c in s.pk ==> Get(r, c) == Get(q, c) }

  predicate TableOk(s: Schema, t: set<Row>) {
    && (forall r :: r in t ==> RowOk(s, r))
    && (forall r, q :: r in t && q in t && SameKey(s, r, q) ==> r == q)
  }

  predicate Taken(s: Schema, t: set<Row>, added: Row) { exists r :: r in t && SameKey(s, r, added) }

  // ---------- lists as maps ----------

  function IndexOf(names: seq<string>, c: string): (i: nat)
    requires c in names
    ensures i < |names| && names[i] == c
  {
    if names[0] == c then 0 else 1 + IndexOf(names[1..], c)
  }

  predicate Distinct(names: seq<string>) { forall i, j :: 0 <= i < j < |names| ==> names[i] != names[j] }

  function SlotValue(t: Token): Value { if t.Val? then t.value else Null }

  function Zip(cols: seq<string>, row: seq<Token>): Row {
    map c | c in cols && IndexOf(cols, c) < |row| :: SlotValue(row[IndexOf(cols, c)])
  }

  function ColsOf(list: seq<Assign>): seq<string> { seq(|list|, i requires 0 <= i < |list| => list[i].col) }

  function AssignMap(list: seq<Assign>): Row {
    map c | c in ColsOf(list) :: SlotValue(list[IndexOf(ColsOf(list), c)].slot)
  }

  function Lefts(list: seq<Pair>): seq<string> { seq(|list|, i requires 0 <= i < |list| => list[i].left) }

  function PairMap(list: seq<Pair>, source: Row): Row {
    map c | c in Lefts(list) :: Get(source, list[IndexOf(Lefts(list), c)].right)
  }

  function ZipPairs(into: seq<string>, from: seq<string>): seq<Pair> {
    seq(if |into| < |from| then |into| else |from|, i requires 0 <= i < |into| && i < |from| => Pair(into[i], from[i]))
  }

  // ---------- statements ----------

  /** Plain insertion of one row. */
  function InsertRow(s: Schema, t: set<Row>, given: Row): TableResult {
    var added := s.defaults + given;
    if !(given.Keys <= s.columns) then Fail(UnknownColumn)
    else if NullKeyed(s, added) then Fail(NullKey)
    else if Taken(s, t, added) then Fail(DuplicateKey)
    else Ok(t + {added})
  }

  /** Rows inserted one by one, in order; the first error undoes the statement. */
  function InsertAll(s: Schema, t: set<Row>, given: seq<Row>): TableResult
    decreases |given|
  {
    if given == [] then Ok(t)
    else
      var before := InsertAll(s, t, given[..|given| - 1]);
      if before.Fail? then before else InsertRow(s, before.value, given[|given| - 1])
  }

  /** SQL equality of two columns: NULL equals nothing. */
  predicate Matches(r: Row, on: seq<Pair>, source: Row) {
    forall i :: 0 <= i < |on| ==> Get(r, on[i].left) == Get(source, on[i].right) != Null
  }

  predicate Satisfies(r: Row, filter: seq<Assign>) {
    forall i :: 0 <= i < |filter| ==> Get(r, filter[i].col) == SlotValue(filter[i].slot) != Null
  }

  /** Insert, or overlay the row that already has the key. */
  function OnConflict(s: Schema, t: set<Row>, given: Row, overlay: Row): TableResult {
    var added := s.defaults + given;
    if !(given.Keys <= s.columns) then Fail(UnknownColumn)
    else if NullKeyed(s, added) then Fail(NullKey)
    else if Taken(s, t, added) then Ok(set r | r in t :: if SameKey(s, r, added) then r + overlay else r)
    else Ok(t + {added})
  }

  function Merge(s: Schema, t: set<Row>, source: Row, on: seq<Pair>, pairs: seq<Pair>, into: seq<string>, from: seq<string>): TableResult {
    if exists r :: r in t && Matches(r, on, source)
    then Ok(set r | r in t :: if Matches(r, on, source) then r + PairMap(pairs, source) else r)
    else InsertRow(s, t, PairMap(ZipPairs(into, from), source))
  }

  /** The table after a bound statement. The conflict target of PostgreSQL must name a unique key;
    * MySQL looks for a conflict on any unique key of the table, here the primary key.
    */
  function Exec(s: Schema, t: set<Row>, q: Query): TableResult {
    match q
    case Insert(_, cols, rows) => InsertAll(s, t, seq(|rows|, i requires 0 <= i < |rows| => Zip(cols, rows[i])))
    case UpsertPg(_, cols, row, target, assigns) =>
      if (set c | c in target) != s.pk then Fail(NoSuchUniqueKey)
      else OnConflict(s, t, Zip(cols, row), AssignMap(assigns))
    case IgnorePg(_, cols, row, target) =>
      if (set c | c in TargetNames(target)) != s.pk then Fail(NoSuchUniqueKey)
      else OnConflict(s, t, Zip(cols, row), map[])
    case UpsertMy(_, cols, row, pairs) =>
      OnConflict(s, t, Zip(cols, row), PairMap(pairs, s.defaults + Zip(cols, row)))
    case IgnoreMy(_, cols, row, col) =>
      OnConflict(s, t, Zip(cols, row), map[])   // col = col: the row keeps its value
    case MergeMs(_, row, cols, on, pairs, into, from) => Merge(s, t, Zip(cols, row), on, pairs, into, from)
    case MergeOra(_, source, on, pairs, into, from) => Merge(s, t, AssignMap(source), on, pairs, into, from)
    case Update(_, assigns, filter) => Ok(set r | r in t :: if Satisfies(r, filter) then r + AssignMap(assigns) else r)
    case Delete(_, filter) => Ok(set r | r in t && !Satisfies(r, filter))
    case Select(_, _) => Ok(t)
  }

  lemma {:induction false} IndexOfDistinct(names: seq<string>, i: nat)
    requires Distinct(names) && i < |names|
    ensures IndexOf(names, names[i]) == i
    decreases i
  {
    if i > 0 {
      assert names[1..][i - 1] == names[i];
      assert names[0] != names[i];
      IndexOfDistinct(names[1..], i - 1);
    }
  }
}
