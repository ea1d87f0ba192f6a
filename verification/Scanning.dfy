/** Reflecting a struct's columns and values, and scanning a result row back into a struct. */
module Scanning {
  import opened Common
  import opened QueryBuilder
  import opened Reflection

  /** What a field's value becomes on its way to the database, by a TypeWrapper or by the driver, and the way back. */
  datatype Codec = Codec(encode: (FlatField, GoValue) -> GoValue, decode: (FlatField, GoValue) -> GoValue)

  ghost predicate Inverse(c: Codec) { forall f, x :: c.decode(f, c.encode(f, x)) == x }

  /** The fields that the query options do not leave out, in their order. */
  function Chosen(fields: seq<FlatField>, ignored: FlatField -> bool): seq<FlatField> {
    if fields == [] then []
    else Chosen(fields[..|fields| - 1], ignored) + if ignored(fields[|fields| - 1]) then [] else [fields[|fields| - 1]]
  }

  predicate HoldsAll(v: GoValue, fields: seq<FlatField>) { forall f :: f in fields ==> Holds(v, f.index) }

  /** A struct value of the flattened type has all of its fields. */
  lemma TypedHoldsAll(refl: Reflector, t: GoType, v: GoValue)
    requires t.Struct? && EmbedsStructs(refl, t) && HasType(v, t)
    ensures HoldsAll(v, Flat(refl, t, [], 0))
  {
    FlatReaches(refl, t, [], 0);
    forall f | f in Flat(refl, t, [], 0) ensures Holds(v, f.index) {
      assert f.index[0..] == f.index;
      TypedHolds(v, t, f.index);
    }
  }

  /** columns, indices and values list the chosen fields of v, one beside the other. */
  predicate ReflectsAs(fields: seq<FlatField>, v: GoValue, codec: Codec,
                       columns: seq<ColumnInfo>, indices: seq<seq<nat>>, values: seq<GoValue>)
    requires HoldsAll(v, fields)
  {
    && |columns| == |indices| == |values| == |fields|
    && (forall i :: 0 <= i < |fields| ==> columns[i] == fields[i].column.info && indices[i] == fields[i].index)
    && (forall i :: 0 <= i < |fields| ==> fields[i] in fields && values[i] == codec.encode(fields[i], Get(v, fields[i].index)))
  }

  method ReflectColumnsFieldIndicesAndValues(rs: Reflected, v: GoValue, ignored: FlatField -> bool, codec: Codec)
    returns (columns: seq<ColumnInfo>, indices: seq<seq<nat>>, values: seq<GoValue>)
    requires HoldsAll(v, rs.fields)
    ensures HoldsAll(v, Chosen(rs.fields, ignored))
    ensures ReflectsAs(Chosen(rs.fields, ignored), v, codec, columns, indices, values)
  {
    hide ReflectsAs;
    columns, indices, values := [], [], [];
    ReflectsNone(v, codec);
    for i := 0 to |rs.fields|
      invariant HoldsAll(v, Chosen(rs.fields[..i], ignored))
      invariant ReflectsAs(Chosen(rs.fields[..i], ignored), v, codec, columns, indices, values)
    {
      var f := rs.fields[i];
      ChosenStep(rs.fields, ignored, i);
      if ignored(f) {
        continue;
      }
      assert f in rs.fields;
      ReflectsOneMore(Chosen(rs.fields[..i], ignored), v, codec, columns, indices, values, f);
      columns := columns + [f.column.info];
      indices := indices + [f.index];
      values := values + [codec.encode(f, Get(v, f.index))];
    }
    assert rs.fields[..|rs.fields|] == rs.fields;
  }

  lemma ChosenStep(fields: seq<FlatField>, ignored: FlatField -> bool, i: nat)
    requires i < |fields|
    ensures Chosen(fields[..i + 1], ignored) == if ignored(fields[i]) then Chosen(fields[..i], ignored) else Chosen(fields[..i], ignored) + [fields[i]]
  {
    assert fields[..i + 1][..i] == fields[..i];
    assert Chosen(fields[..i], ignored) + [] == Chosen(fields[..i], ignored);
  }

  lemma ReflectsNone(v: GoValue, codec: Codec)
    ensures HoldsAll(v, []) && ReflectsAs([], v, codec, [], [], [])
  {
  }

  lemma ReflectsOneMore(fields: seq<FlatField>, v: GoValue, codec: Codec,
                        columns: seq<ColumnInfo>, indices: seq<seq<nat>>, values: seq<GoValue>, f: FlatField)
    requires HoldsAll(v, fields) && ReflectsAs(fields, v, codec, columns, indices, values) && Holds(v, f.index)
    ensures HoldsAll(v, fields + [f])
    ensures ReflectsAs(fields + [f], v, codec,
                       columns + [f.column.info], indices + [f.index], values + [codec.encode(f, Get(v, f.index))])
  {
  }

  /** The chosen fields are those that no option leaves out. */
  lemma {:induction false} ChosenIn(fields: seq<FlatField>, ignored: FlatField -> bool)
    ensures forall f :: f in Chosen(fields, ignored) <==> f in fields && !ignored(f)
  {
    if fields != [] {
      ChosenIn(fields[..|fields| - 1], ignored);
      assert fields == fields[..|fields| - 1] + [fields[|fields| - 1]];
    }
  }

  /** The places name the first n fields that are not ignored, and no other, each once and in order. */
  predicate NamesKept(fields: seq<FlatField>, ignored: FlatField -> bool, n: nat, places: seq<nat>)
    requires n <= |fields|
  {
    && (forall k :: 0 <= k < |places| ==> places[k] < n)
    && (forall j, k :: 0 <= j < k < |places| ==> places[j] < places[k])
    && (forall i :: 0 <= i < n ==> (i in places <==> !ignored(fields[i])))
  }

  lemma OneMorePlace(fields: seq<FlatField>, ignored: FlatField -> bool, n: nat, places: seq<nat>)
    requires n < |fields| && NamesKept(fields, ignored, n, places)
    ensures NamesKept(fields, ignored, n + 1, if ignored(fields[n]) then places else places + [n])
  {
  }

  /** The places of the fields chosen from the first n, in the order in which they stand. */
  lemma {:induction false} ChosenPlaces(fields: seq<FlatField>, ignored: FlatField -> bool, n: nat) returns (places: seq<nat>)
    requires n <= |fields|
    ensures NamesKept(fields, ignored, n, places) && |places| == |Chosen(fields[..n], ignored)|
    ensures forall k :: 0 <= k < |places| ==> places[k] < n && Chosen(fields[..n], ignored)[k] == fields[places[k]]
  {
    places := [];
    if n > 0 {
      var front := ChosenPlaces(fields, ignored, n - 1);
      ChosenStep(fields, ignored, n - 1);
      OneMorePlace(fields, ignored, n - 1, front);
      hide Chosen, NamesKept;
      places := if ignored(fields[n - 1]) then front else front + [n - 1];
    }
  }

  // ---------- ScanableStructFieldsForColumns ----------

  /** Where a result column goes: to the field with an index, or nowhere. */
  datatype Destination = ToField(position: nat) | Discard

  datatype ScanError = EmptyResult | UnmappedColumns(columns: seq<(string, nat)>) | UnmappedFields(names: seq<string>)

  function DestinationOf(rs: Reflected, column: string): Destination {
    if column in rs.columnIndex then ToField(rs.columnIndex[column]) else Discard
  }

  /** The result columns that no field is mapped to, with their positions. */
  function Unmapped(rs: Reflected, columns: seq<string>): seq<(string, nat)> {
    if columns == [] then []
    else
      var last := |columns| - 1;
      Unmapped(rs, columns[..last]) + if columns[last] in rs.columnIndex then [] else [(columns[last], last)]
  }

  /** The mapped fields that no result column is for. */
  function Missing(fields: seq<FlatField>, columns: seq<string>): seq<string> {
    if fields == [] then []
    else
      var last := |fields| - 1;
      Missing(fields[..last], columns) + if ColumnName(fields[last]) in columns then [] else [ColumnName(fields[last])]
  }

  /** What the result should be, from the settings and the columns alone. */
  function Expected(refl: Reflector, rs: Reflected, columns: seq<string>): Option<ScanError> {
    if columns == [] then Some(EmptyResult)
    else if refl.failOnUnmappedColumns && Unmapped(rs, columns) != [] then Some(UnmappedColumns(Unmapped(rs, columns)))
    else if refl.failOnUnmappedFields && Missing(rs.fields, columns) != [] then Some(UnmappedFields(Missing(rs.fields, columns)))
    else None
  }

  method ScanableFieldsForColumns(refl: Reflector, rs: Reflected, columns: seq<string>)
    returns (r: Result<seq<Destination>, ScanError>)
    requires Indexes(rs.columnIndex, rs.fields)
    ensures r.Fail? <==> Expected(refl, rs, columns).Some?
    ensures r.Fail? ==> Some(r.error) == Expected(refl, rs, columns)
    ensures r.Ok? ==> |r.value| == |columns| && forall i :: 0 <= i < |columns| ==> r.value[i] == DestinationOf(rs, columns[i])
  {
    if |columns| == 0 { return Fail(EmptyResult); }
    var scanables := new Option<Destination>[|columns|](_ => None);
    FillMapped(rs, columns, scanables);
    var failed := DiscardUnmapped(refl, rs, columns, scanables);
    if failed.Some? { return Fail(UnmappedColumns(failed.value)); }
    if refl.failOnUnmappedFields {
      var unmapped := ListMissing(rs.fields, columns);
      if |unmapped| > 0 { return Fail(UnmappedFields(unmapped)); }
    }
    var all: seq<Destination> := [];
    for i := 0 to |columns|
      invariant |all| == i && forall j :: 0 <= j < i ==> all[j] == DestinationOf(rs, columns[j])
    {
      all := all + [scanables[i].value];
    }
    return Ok(all);
  }

  /** The first loop: the destinations of the mapped columns. */
  method FillMapped(rs: Reflected, columns: seq<string>, scanables: array<Option<Destination>>)
    requires scanables.Length == |columns| && forall j :: 0 <= j < |columns| ==> scanables[j] == None
    modifies scanables
    ensures forall j :: 0 <= j < |columns| ==>
      scanables[j] == if columns[j] in rs.columnIndex then Some(DestinationOf(rs, columns[j])) else None
  {
    for i := 0 to |columns|
      invariant forall j :: 0 <= j < i ==>
        scanables[j] == if columns[j] in rs.columnIndex then Some(DestinationOf(rs, columns[j])) else None
      invariant forall j :: i <= j < |columns| ==> scanables[j] == None
    {
      if columns[i] in rs.columnIndex {
        scanables[i] := Some(ToField(rs.columnIndex[columns[i]]));
      }
    }
  }

  /** The second loop: the other columns are discarded, or listed in an error. */
  method DiscardUnmapped(refl: Reflector, rs: Reflected, columns: seq<string>, scanables: array<Option<Destination>>)
    returns (failed: Option<seq<(string, nat)>>)
    requires scanables.Length == |columns|
    requires forall j :: 0 <= j < |columns| ==>
      scanables[j] == if columns[j] in rs.columnIndex then Some(DestinationOf(rs, columns[j])) else None
    modifies scanables
    ensures failed == if refl.failOnUnmappedColumns && Unmapped(rs, columns) != [] then Some(Unmapped(rs, columns)) else None
    ensures failed.None? ==> forall j :: 0 <= j < |columns| ==> scanables[j] == Some(DestinationOf(rs, columns[j]))
  {
    for i := 0 to |columns|
      invariant !refl.failOnUnmappedColumns || forall j :: 0 <= j < i ==> columns[j] in rs.columnIndex
      invariant forall j :: 0 <= j < i ==> scanables[j] == Some(DestinationOf(rs, columns[j]))
      invariant forall j :: i <= j < |columns| ==>
        scanables[j] == if columns[j] in rs.columnIndex then Some(DestinationOf(rs, columns[j])) else None
    {
      if scanables[i] != None {
        continue;
      }
      if !refl.failOnUnmappedColumns {
        scanables[i] := Some(Discard);
        continue;
      }
      var nilCols := ListUnmapped(rs, columns, scanables[..]);
      UnmappedAt(rs, columns, i);
      return Some(nilCols);
    }
    UnmappedMeans(rs, columns);
    return None;
  }

  method ListUnmapped(rs: Reflected, columns: seq<string>, scanables: seq<Option<Destination>>) returns (nilCols: seq<(string, nat)>)
    requires |scanables| == |columns|
    requires forall j :: 0 <= j < |columns| ==> (scanables[j] == None <==> columns[j] !in rs.columnIndex)
    ensures nilCols == Unmapped(rs, columns)
  {
    nilCols := [];
    for j := 0 to |columns|
      invariant nilCols == Unmapped(rs, columns[..j])
    {
      assert columns[..j + 1][..j] == columns[..j];
      if scanables[j] != None {
        continue;
      }
      nilCols := nilCols + [(columns[j], j)];
    }
    assert columns[..|columns|] == columns;
  }

  method ListMissing(fields: seq<FlatField>, columns: seq<string>) returns (unmapped: seq<string>)
    ensures unmapped == Missing(fields, columns)
  {
    unmapped := [];
    for j := 0 to |fields|
      invariant unmapped == Missing(fields[..j], columns)
    {
      assert fields[..j + 1][..j] == fields[..j];
      if fields[j].column.info.name !in columns {
        unmapped := unmapped + [fields[j].column.info.name];
      }
    }
    assert fields[..|fields|] == fields;
  }

  lemma {:induction false} UnmappedAt(rs: Reflected, columns: seq<string>, i: nat)
    requires i < |columns| && columns[i] !in rs.columnIndex
    ensures Unmapped(rs, columns) != []
  {
    if i < |columns| - 1 { UnmappedAt(rs, columns[..|columns| - 1], i); }
  }

  /** The lists in the errors are empty just when there is nothing to complain about. */
  lemma {:induction false} UnmappedMeans(rs: Reflected, columns: seq<string>)
    ensures Unmapped(rs, columns) == [] <==> forall c :: c in columns ==> c in rs.columnIndex
  {
    if columns != [] {
      var init, last := columns[..|columns| - 1], columns[|columns| - 1];
      UnmappedMeans(rs, init);
      InEither(init, last);
      assert columns == init + [last];
      hide Unmapped;
    }
  }

  lemma InEither<T>(init: seq<T>, last: T)
    ensures forall c :: c in init + [last] <==> c in init || c == last
  {
  }

  lemma {:induction false} MissingMeans(fields: seq<FlatField>, columns: seq<string>)
    ensures Missing(fields, columns) == [] <==> forall f :: f in fields ==> ColumnName(f) in columns
  {
    if fields != [] {
      MissingMeans(fields[..|fields| - 1], columns);
      assert fields == fields[..|fields| - 1] + [fields[|fields| - 1]];
    }
  }

  // ---------- one row scanned ----------

  /** Scanning the row's first n values into w, from left to right. */
  function Scanned(rs: Reflected, w: GoValue, codec: Codec, columns: seq<string>, row: seq<GoValue>, n: nat): (r: GoValue)
    requires n <= |columns| == |row| && Indexes(rs.columnIndex, rs.fields) && DepthFirst(rs.fields) && HoldsAll(w, rs.fields)
    ensures HoldsAll(r, rs.fields)
  {
    if n == 0 then w
    else
      var before := Scanned(rs, w, codec, columns, row, n - 1);
      match DestinationOf(rs, columns[n - 1])
      case Discard => before
      case ToField(k) =>
        PutHoldsAll(rs.fields, before, k, codec.decode(rs.fields[k], row[n - 1]));
        Put(before, rs.fields[k].index, codec.decode(rs.fields[k], row[n - 1]))
  }

  lemma PutHoldsAll(fields: seq<FlatField>, v: GoValue, k: nat, x: GoValue)
    requires k < |fields| && DepthFirst(fields) && HoldsAll(v, fields)
    ensures Holds(v, fields[k].index) && HoldsAll(Put(v, fields[k].index, x), fields)
  {
    assert fields[k] in fields;
    forall f | f in fields ensures Holds(Put(v, fields[k].index, x), f.index) {
      var j :| 0 <= j < |fields| && fields[j] == f;
      if j == k { PutThenGet(v, f.index, x); } else { PutElsewhere(v, fields[k].index, x, f.index); }
    }
  }

  /** The row has, for every mapped column, what the reflected struct v would send for it. */
  predicate RowOf(rs: Reflected, v: GoValue, codec: Codec, columns: seq<string>, row: seq<GoValue>)
    requires Indexes(rs.columnIndex, rs.fields) && HoldsAll(v, rs.fields)
  {
    |row| == |columns| && forall i :: 0 <= i < |columns| && columns[i] in rs.columnIndex ==>
      var f := rs.fields[rs.columnIndex[columns[i]]]; f in rs.fields && row[i] == codec.encode(f, Get(v, f.index))
  }

  /** Reflecting a struct and scanning its values back, in whatever order the columns come, repeated or mixed with
    * unknown ones: every field with a column has v's value, and everything else in w is as it was.
    */
  lemma {:induction false} ScanRestores(rs: Reflected, v: GoValue, w: GoValue, codec: Codec, columns: seq<string>, row: seq<GoValue>,
                                        n: nat, k: nat)
    requires Indexes(rs.columnIndex, rs.fields) && DepthFirst(rs.fields) && HoldsAll(v, rs.fields) && HoldsAll(w, rs.fields)
    requires RowOf(rs, v, codec, columns, row) && Inverse(codec) && n <= |columns| && k < |rs.fields|
    ensures var f := rs.fields[k];
            f in rs.fields
            && Get(Scanned(rs, w, codec, columns, row, n), f.index) == Get(if ColumnName(f) in columns[..n] then v else w, f.index)
  {
    var f := rs.fields[k];
    assert f in rs.fields;
    if n > 0 {
      ScanRestores(rs, v, w, codec, columns, row, n - 1, k);
      assert columns[..n] == columns[..n - 1] + [columns[n - 1]];
      var before := Scanned(rs, w, codec, columns, row, n - 1);
      if columns[n - 1] in rs.columnIndex {
        var m := rs.columnIndex[columns[n - 1]];
        var x := codec.decode(rs.fields[m], row[n - 1]);
        assert rs.fields[m] in rs.fields;
        if m == k { PutThenGet(before, f.index, x); } else { PutElsewhere(before, rs.fields[m].index, x, f.index); }
      }
    }
  }

  /** Nothing apart from the mapped fields changes. */
  lemma {:induction false} ScanTouchesNothingElse(rs: Reflected, w: GoValue, codec: Codec, columns: seq<string>, row: seq<GoValue>,
                                                  n: nat, path: seq<nat>)
    requires Indexes(rs.columnIndex, rs.fields) && DepthFirst(rs.fields) && HoldsAll(w, rs.fields) && n <= |columns| == |row|
    requires Holds(w, path) && forall f :: f in rs.fields && ColumnName(f) in columns ==> Apart(f.index, path)
    ensures Holds(Scanned(rs, w, codec, columns, row, n), path)
    ensures Get(Scanned(rs, w, codec, columns, row, n), path) == Get(w, path)
  {
    if n > 0 {
      ScanTouchesNothingElse(rs, w, codec, columns, row, n - 1, path);
      var before := Scanned(rs, w, codec, columns, row, n - 1);
      if columns[n - 1] in rs.columnIndex {
        var f := rs.fields[rs.columnIndex[columns[n - 1]]];
        assert f in rs.fields && ColumnName(f) == columns[n - 1];
        PutElsewhere(before, f.index, codec.decode(f, row[n - 1]), path);
      }
    }
  }

  // ---------- from a struct to a row and back ----------

  /** What reflectStruct gives for a struct type whose columns are all different. */
  predicate ReflectedFrom(refl: Reflector, t: GoType, rs: Reflected)
    requires t.Struct? && EmbedsStructs(refl, t)
  {
    rs.fields == Flat(refl, t, [], 0) && Indexes(rs.columnIndex, rs.fields)
  }

  /** The column at the end of a path is in the index, with the field that the path leads to. */
  lemma PathHasColumn(refl: Reflector, t: GoType, rs: Reflected, path: seq<nat>)
    requires t.Struct? && EmbedsStructs(refl, t) && ReflectedFrom(refl, t, rs) && Leads(refl, t, path)
    ensures
      var f := FlatField(Mapped(refl, FieldAt(refl, t, path)).0, FieldAt(refl, t, path), path);
      ColumnName(f) in rs.columnIndex && rs.columnIndex[ColumnName(f)] < |rs.fields| && rs.fields[rs.columnIndex[ColumnName(f)]] == f
  {
    hide Flat, Mapped, Leads, FieldAt;
    var f := FlatField(Mapped(refl, FieldAt(refl, t, path)).0, FieldAt(refl, t, path), path);
    FlatIff(refl, t, f);
  }

  /** And every name in the index is the column at the end of such a path. */
  lemma ColumnHasPath(refl: Reflector, t: GoType, rs: Reflected, name: string)
    requires t.Struct? && EmbedsStructs(refl, t) && ReflectedFrom(refl, t, rs) && name in rs.columnIndex
    ensures
      var f := rs.fields[rs.columnIndex[name]];
      Leads(refl, t, f.index) && Mapped(refl, FieldAt(refl, t, f.index)).0.info.name == name
  {
    hide Flat, Mapped, Leads, FieldAt;
    var f := rs.fields[rs.columnIndex[name]];
    assert f in rs.fields && ColumnName(f) == name;
    FlatIff(refl, t, f);
  }

  /** A row with what the struct v of type t sends for each mapped column. */
  predicate RowOfTyped(refl: Reflector, t: GoType, rs: Reflected, v: GoValue, codec: Codec, columns: seq<string>, row: seq<GoValue>)
    requires t.Struct? && EmbedsStructs(refl, t) && ReflectedFrom(refl, t, rs) && HasType(v, t)
  {
    TypedHoldsAll(refl, t, v);
    RowOf(rs, v, codec, columns, row)
  }

  /** For any struct type, any two of its values v and w, and any path through embedded structs to a field with a
    * column: scanning v's row into w makes that field the one of v if the result has its column, and leaves it
    * otherwise.
    */
  lemma StructRoundTrip(refl: Reflector, t: GoType, rs: Reflected, v: GoValue, w: GoValue, codec: Codec,
                        columns: seq<string>, row: seq<GoValue>, path: seq<nat>)
    requires t.Struct? && EmbedsStructs(refl, t) && ReflectedFrom(refl, t, rs) && HasType(v, t) && HasType(w, t)
    requires RowOfTyped(refl, t, rs, v, codec, columns, row) && Inverse(codec) && Leads(refl, t, path)
    ensures DepthFirst(rs.fields) && HoldsAll(w, rs.fields) && Holds(v, path) && Holds(w, path)
    ensures
      var name, after := Mapped(refl, FieldAt(refl, t, path)).0.info.name, Scanned(rs, w, codec, columns, row, |columns|);
      Holds(after, path) && Get(after, path) == Get(if name in columns then v else w, path)
  {
    hide Flat, Mapped, Leads, FieldAt, EmbedsStructs, HasType;
    FlatIsDepthFirst(refl, t);
    TypedHoldsAll(refl, t, v);
    TypedHoldsAll(refl, t, w);
    PathHasColumn(refl, t, rs, path);
    var k := rs.columnIndex[Mapped(refl, FieldAt(refl, t, path)).0.info.name];
    assert rs.fields[k] in rs.fields && rs.fields[k].index == path;
    ScanRestores(rs, v, w, codec, columns, row, |columns|, k);
    assert columns[..|columns|] == columns;
  }
}
