/** Struct reflection: flattening embedded structs, reflecting columns and values, scanning rows back. */
module Reflection {
  import opened Common
  import opened Sql
  import opened QueryBuilder
  import Whitespace

  // ---------- Go types and values ----------

  datatype GoType = Opaque(name: string) | Struct(name: string, fields: seq<Field>)

  datatype Field = Field(name: string, anonymous: bool, exported: bool, tags: map<string, string>, typ: GoType)

  /** A Go value: a struct value, or one that reflection does not look into. */
  datatype GoValue = Atom(value: Value) | Fields(fields: seq<GoValue>)

  /** A value of type t; what an opaque type holds is not looked at. */
  predicate HasType(v: GoValue, t: GoType) {
    t.Struct? ==>
      v.Fields? && |v.fields| == |t.fields| && forall i :: 0 <= i < |t.fields| ==> HasType(v.fields[i], t.fields[i].typ)
  }

  // ---------- MapStructField ----------

  datatype Reflector = Reflector(nameTag: string, ignore: string, primaryKey: string, readOnly: string, byDefault: string,
                                 untagged: string -> string, failOnUnmappedColumns: bool, failOnUnmappedFields: bool)

  /** A column with the text of its field's type. */
  datatype Column = Column(info: ColumnInfo, hasDefault: bool, typ: string)

  const NO_COLUMN := Column(ColumnInfo("", false, false), false, "")

  /** strings.Cut at the first comma: before, behind, and whether there is one. */
  function Cut(s: string): (r: (string, string, bool))
    ensures r.2 ==> s == r.0 + "," + r.1
    ensures !r.2 ==> r == (s, "", false)
    ensures ',' !in r.0
  {
    if s == "" then ("", "", false)
    else if s[0] == ',' then ("", s[1..], true)
    else
      var rest := Cut(s[1..]);
      assert s == [s[0]] + s[1..];
      ([s[0]] + rest.0, rest.1, rest.2)
  }

  /** The options of a tag, one after each comma; an empty last one is not there. */
  function Options(tag: string): seq<string>
    decreases |tag|
  {
    var (option, rest, more) := Cut(tag);
    if more then [option] + Options(rest) else if option != "" then [option] else []
  }

  function Flagged(refl: Reflector, c: Column, option: string): Column {
    var word := Whitespace.TrimSpace(option);
    if word == refl.primaryKey then c.(info := c.info.(primaryKey := true))
    else if word == refl.readOnly then c.(info := c.info.(readOnly := true))
    else if word == refl.byDefault then c.(hasDefault := true)
    else c
  }

  function FlaggedAll(refl: Reflector, c: Column, options: seq<string>): Column
    decreases |options|
  {
    if options == [] then c else FlaggedAll(refl, Flagged(refl, c, options[0]), options[1..])
  }

  function TaggedName(tag: string): string { Whitespace.TrimSpace(Cut(tag).0) }

  /** The column of a field that is not embedded, and whether it has one. */
  function PlainColumn(refl: Reflector, field: Field): (Column, bool) {
    var column :=
      if refl.nameTag in field.tags then
        var tag := field.tags[refl.nameTag];
        FlaggedAll(refl, Column(ColumnInfo(TaggedName(tag), false, false), false, ""), Options(Cut(tag).1))
      else Column(ColumnInfo(refl.untagged(field.name), false, false), false, "");
    if !field.exported || column.info.name == "" || column.info.name == refl.ignore then (NO_COLUMN, false)
    else (column.(typ := field.typ.name), true)
  }

  /** A field's column and whether it is used; an unnamed column stands for an embedded struct. */
  function Mapped(refl: Reflector, field: Field): (Column, bool) {
    if field.anonymous then
      (NO_COLUMN, refl.nameTag !in field.tags || TaggedName(field.tags[refl.nameTag]) != refl.ignore)
    else PlainColumn(refl, field)
  }

  method MapStructField(refl: Reflector, field: Field) returns (column: Column, use: bool)
    ensures (column, use) == Mapped(refl, field)
  {
    column := NO_COLUMN;
    if field.anonymous {
      if refl.nameTag !in field.tags { return NO_COLUMN, true; }
      var (columnName, _, _) := Cut(field.tags[refl.nameTag]);
      return NO_COLUMN, Whitespace.TrimSpace(columnName) != refl.ignore;
    }
    if !field.exported { return NO_COLUMN, false; }
    if refl.nameTag in field.tags {
      var (name, tag, _) := Cut(field.tags[refl.nameTag]);
      column := Column(ColumnInfo(Whitespace.TrimSpace(name), false, false), false, "");
      ghost var all := FlaggedAll(refl, column, Options(tag));
      var (str, rest, ok) := Cut(tag);
      while str != "" || ok
        invariant FlaggedAll(refl, column, (if ok then [str] + Options(rest) else if str != "" then [str] else [])) == all
        invariant !ok ==> rest == ""
        decreases if ok then |rest| + 2 else if str != "" then 1 else 0
      {
        var word := Whitespace.TrimSpace(str);
        if word == refl.primaryKey { column := column.(info := column.info.(primaryKey := true)); }
        else if word == refl.readOnly { column := column.(info := column.info.(readOnly := true)); }
        else if word == refl.byDefault { column := column.(hasDefault := true); }
        assert ([str] + Options(rest))[1..] == Options(rest);
        var next := Cut(rest);
        str, rest, ok := next.0, next.1, next.2;
      }
    } else {
      column := Column(ColumnInfo(refl.untagged(field.name), false, false), false, "");
    }
    if column.info.name == "" || column.info.name == refl.ignore { return NO_COLUMN, false; }
    column := column.(typ := field.typ.name);
    return column, true;
  }

  predicate Has(options: seq<string>, word: string) {
    exists i :: 0 <= i < |options| && Whitespace.TrimSpace(options[i]) == word
  }

  /** A flag is set if and only if its word is among the options; the words are taken in the order of the switch. */
  lemma {:induction false} FlagsAreOptions(refl: Reflector, c: Column, options: seq<string>)
    ensures var r := FlaggedAll(refl, c, options);
      && r.info.name == c.info.name
      && (r.info.primaryKey <==> c.info.primaryKey || Has(options, refl.primaryKey))
      && (r.info.readOnly <==> c.info.readOnly || (refl.readOnly != refl.primaryKey && Has(options, refl.readOnly)))
      && (r.hasDefault <==>
            c.hasDefault || (refl.byDefault != refl.primaryKey && refl.byDefault != refl.readOnly && Has(options, refl.byDefault)))
    decreases |options|
  {
    if options != [] {
      FlagsAreOptions(refl, Flagged(refl, c, options[0]), options[1..]);
      HasSplits(options, refl.primaryKey);
      HasSplits(options, refl.readOnly);
      HasSplits(options, refl.byDefault);
    }
  }

  lemma HasSplits(options: seq<string>, word: string)
    requires options != []
    ensures Has(options, word) <==> Whitespace.TrimSpace(options[0]) == word || Has(options[1..], word)
  {
    if Has(options[1..], word) {
      var i :| 0 <= i < |options[1..]| && Whitespace.TrimSpace(options[1..][i]) == word;
      assert options[i + 1] == options[1..][i];
    }
    if i: nat :| 0 < i < |options| && Whitespace.TrimSpace(options[i]) == word { assert options[1..][i - 1] == options[i]; }
  }

  lemma CutAt(before: string, behind: string)
    requires ',' !in before
    ensures Cut(before + "," + behind) == (before, behind, true) && Cut(before) == (before, "", false)
  {
    if before == "" {
      assert "" + "," + behind == "," + behind && ("," + behind)[1..] == behind;
    } else {
      CutAt(before[1..], behind);
      assert (before + "," + behind)[1..] == before[1..] + "," + behind;
      assert [before[0]] + before[1..] == before;
    }
  }

  lemma SplitAtComma(before: string, behind: string)
    requires ',' !in before
    ensures Whitespace.Split(before + "," + behind, ',') == [before] + Whitespace.Split(behind, ',')
  {
    Whitespace.SplitPrefix(before, "," + behind, ',');
    assert before + ("," + behind) == before + "," + behind && ("," + behind)[1..] == behind;
    assert Whitespace.Split("," + behind, ',') == [""] + Whitespace.Split(behind, ',');
    assert before + "" == before;
  }

  /** The options are what is between the commas; an empty last one is not there. */
  lemma {:induction false} OptionsAreSplit(tag: string)
    ensures var parts := Whitespace.Split(tag, ',');
            Options(tag) == if parts[|parts| - 1] == "" then parts[..|parts| - 1] else parts
    decreases |tag|
  {
    var (option, rest, more) := Cut(tag);
    if more {
      OptionsAreSplit(rest);
      hide Cut;
      SplitAtComma(option, rest);
      hide Whitespace.Split;
      var parts := Whitespace.Split(rest, ',');
      assert ([option] + parts)[..|parts|] == [option] + parts[..|parts| - 1];
    } else {
      Whitespace.SplitNone(tag, ',');
    }
  }

  /** A field that is not embedded has a column if and only if it is exported and its name, which is what stands before
    * the tag's first comma, or comes from the field's own name without a tag, is neither empty nor the ignored one. The
    * column has that name, the text of the field's type, and the flags that the tag's options set. An embedded field
    * has none, and is used unless its tag names the ignored one.
    */
  lemma MappedMeans(refl: Reflector, field: Field, before: string, behind: string)
    requires refl.nameTag in field.tags ==>
               ',' !in before && field.tags[refl.nameTag] in {before + "," + behind, before} &&
               (field.tags[refl.nameTag] == before ==> behind == "")
    ensures
      var tagged := refl.nameTag in field.tags;
      var name := if tagged then Whitespace.TrimSpace(before) else refl.untagged(field.name);
      var (column, use) := Mapped(refl, field);
      var given := if tagged then Options(behind) else [];
      if field.anonymous then column.info.name == "" && (use <==> !(tagged && name == refl.ignore))
      else
        && (use <==> field.exported && name != "" && name != refl.ignore)
        && (use ==> column.info.name == name && column.typ == field.typ.name)
        && (use ==> (column.info.primaryKey <==> Has(given, refl.primaryKey)))
        && (use ==> (column.info.readOnly <==> refl.readOnly != refl.primaryKey && Has(given, refl.readOnly)))
        && (use ==> (column.hasDefault <==>
              refl.byDefault != refl.primaryKey && refl.byDefault != refl.readOnly && Has(given, refl.byDefault)))
  {
    if refl.nameTag in field.tags {
      CutAt(before, behind);
      FlagsAreOptions(refl, Column(ColumnInfo(Whitespace.TrimSpace(before), false, false), false, ""), Options(behind));
    }
  }

  // ---------- flattenStructFields ----------

  datatype FlatField = FlatField(column: Column, field: Field, index: seq<nat>)

  predicate Embedded(refl: Reflector, field: Field) {
    var (column, use) := Mapped(refl, field);
    use && column.info.name == ""
  }

  /** All embedded fields that are used are structs, not pointers to structs or other types. */
  predicate EmbedsStructs(refl: Reflector, t: GoType) {
    t.Struct? ==> forall i :: 0 <= i < |t.fields| && Embedded(refl, t.fields[i]) ==>
      t.fields[i].typ.Struct? && EmbedsStructs(refl, t.fields[i].typ)
  }

  /** The mapped fields of t from its i-th field on, parent being the index of t itself. */
  function Flat(refl: Reflector, t: GoType, parent: seq<nat>, i: nat): seq<FlatField>
    requires t.Struct? && EmbedsStructs(refl, t) && i <= |t.fields|
    decreases t, |t.fields| - i
  {
    if i == |t.fields| then []
    else FlatOne(refl, t, parent, i) + Flat(refl, t, parent, i + 1)
  }

  /** What the i-th field of t contributes. */
  function FlatOne(refl: Reflector, t: GoType, parent: seq<nat>, i: nat): seq<FlatField>
    requires t.Struct? && EmbedsStructs(refl, t) && i < |t.fields|
    decreases t, |t.fields| - i, 0
  {
    var field := t.fields[i];
    var (column, use) := Mapped(refl, field);
    if !use then []
    else if column.info.name == "" then Flat(refl, field.typ, parent + [i], 0)
    else [FlatField(column, field, parent + [i])]
  }

  lemma FlatStep(refl: Reflector, t: GoType, parent: seq<nat>, i: nat, before: seq<FlatField>)
    requires t.Struct? && EmbedsStructs(refl, t) && i < |t.fields|
    requires before + Flat(refl, t, parent, i) == Flat(refl, t, parent, 0)
    ensures before + FlatOne(refl, t, parent, i) + Flat(refl, t, parent, i + 1) == Flat(refl, t, parent, 0)
  {
    hide FlatOne;
    assert Flat(refl, t, parent, i) == FlatOne(refl, t, parent, i) + Flat(refl, t, parent, i + 1);
  }

  method FlattenStructFields(refl: Reflector, t: GoType, parent: seq<nat>) returns (fields: seq<FlatField>)
    requires t.Struct? && EmbedsStructs(refl, t)
    ensures fields == Flat(refl, t, parent, 0)
    decreases t
  {
    hide Mapped;
    fields := [];
    for i := 0 to |t.fields|
      invariant fields + Flat(refl, t, parent, i) == Flat(refl, t, parent, 0)
    {
      var field := t.fields[i];
      var column, use := MapStructField(refl, field);
      FlatStep(refl, t, parent, i, fields);
      if !use {
        continue;
      }
      if column.info.name == "" {
        var embeddedFields := FlattenStructFields(refl, field.typ, parent + [i]);
        fields := fields + embeddedFields;
        continue;
      }
      fields := fields + [FlatField(column, field, parent + [i])];
    }
  }

  /** a stands before b: at the first position where they differ, both have a field number and a's is smaller.
    * So neither is a prefix of the other, and they are not equal.
    */
  predicate Before(a: seq<nat>, b: seq<nat>) {
    exists k :: 0 <= k < |a| && k < |b| && a[..k] == b[..k] && a[k] < b[k]
  }

  predicate DepthFirst(fields: seq<FlatField>) {
    forall i, j :: 0 <= i < j < |fields| ==> Before(fields[i].index, fields[j].index)
  }

  /** All indices lie below parent, in its fields from low on and before high. */
  predicate Below(fields: seq<FlatField>, parent: seq<nat>, low: nat, high: nat) {
    forall i :: 0 <= i < |fields| ==> Under(fields[i].index, parent, low, high)
  }

  predicate Under(index: seq<nat>, parent: seq<nat>, low: nat, high: nat) {
    |parent| < |index| && parent == index[..|parent|] && low <= index[|parent|] < high
  }

  lemma {:induction false} FlatBelow(refl: Reflector, t: GoType, parent: seq<nat>, i: nat)
    requires t.Struct? && EmbedsStructs(refl, t) && i <= |t.fields|
    ensures Below(Flat(refl, t, parent, i), parent, i, |t.fields|)
    ensures DepthFirst(Flat(refl, t, parent, i))
    decreases t, |t.fields| - i
  {
    if i < |t.fields| {
      FlatOneBelow(refl, t, parent, i);
      FlatBelow(refl, t, parent, i + 1);
      JoinBelow(FlatOne(refl, t, parent, i), Flat(refl, t, parent, i + 1), parent, i, |t.fields|);
    }
  }

  lemma {:induction false} FlatOneBelow(refl: Reflector, t: GoType, parent: seq<nat>, i: nat)
    requires t.Struct? && EmbedsStructs(refl, t) && i < |t.fields|
    ensures Below(FlatOne(refl, t, parent, i), parent, i, i + 1)
    ensures DepthFirst(FlatOne(refl, t, parent, i))
    decreases t, |t.fields| - i, 0
  {
    var field := t.fields[i];
    if Embedded(refl, field) {
      FlatBelow(refl, field.typ, parent + [i], 0);
      var inner := Flat(refl, field.typ, parent + [i], 0);
      forall j | 0 <= j < |inner| ensures Under(inner[j].index, parent, i, i + 1) {
        var index := inner[j].index;
        assert Under(index, parent + [i], 0, |field.typ.fields|);
        assert index[..|parent|] == index[..|parent| + 1][..|parent|] == parent;
        assert index[|parent|] == index[..|parent| + 1][|parent|] == i;
      }
    }
  }

  lemma JoinBelow(a: seq<FlatField>, b: seq<FlatField>, parent: seq<nat>, i: nat, high: nat)
    requires i < high && Below(a, parent, i, i + 1) && Below(b, parent, i + 1, high) && DepthFirst(a) && DepthFirst(b)
    ensures Below(a + b, parent, i, high) && DepthFirst(a + b)
  {
    var ab := a + b;
    forall j | 0 <= j < |ab| ensures Under(ab[j].index, parent, i, high) {
      if j < |a| { assert Under(a[j].index, parent, i, i + 1); } else { assert Under(b[j - |a|].index, parent, i + 1, high); }
    }
    forall j, k | 0 <= j < k < |ab| ensures Before(ab[j].index, ab[k].index) {
      if k < |a| {
        assert Before(a[j].index, a[k].index);
      } else if j >= |a| {
        assert Before(b[j - |a|].index, b[k - |a|].index);
      } else {
        var x, y := a[j].index, b[k - |a|].index;
        assert Under(x, parent, i, i + 1) && Under(y, parent, i + 1, high);
        assert x[..|parent|] == y[..|parent|] && x[|parent|] < y[|parent|];
      }
    }
  }

  lemma BeforeMeans(a: seq<nat>, b: seq<nat>)
    requires Before(a, b)
    ensures !(a <= b) && !(b <= a)
  {
    var k :| 0 <= k < |a| && k < |b| && a[..k] == b[..k] && a[k] < b[k];
  }

  /** Flattening any tree of embedded structs lists its fields depth first: each index stands before the next ones,
    * so no two are equal and none is a prefix of another.
    */
  lemma FlatIsDepthFirst(refl: Reflector, t: GoType)
    requires t.Struct? && EmbedsStructs(refl, t)
    ensures DepthFirst(Flat(refl, t, [], 0))
    ensures var fields := Flat(refl, t, [], 0);
            forall i, j :: 0 <= i < j < |fields| ==> !(fields[i].index <= fields[j].index) && !(fields[j].index <= fields[i].index)
  {
    FlatBelow(refl, t, [], 0);
    var fields := Flat(refl, t, [], 0);
    forall i, j | 0 <= i < j < |fields|
      ensures !(fields[i].index <= fields[j].index) && !(fields[j].index <= fields[i].index)
    {
      BeforeMeans(fields[i].index, fields[j].index);
    }
  }

  // ---------- FieldByIndex, reading and writing ----------

  predicate Reaches(t: GoType, path: seq<nat>) {
    path != [] && t.Struct? && path[0] < |t.fields| && (|path| == 1 || Reaches(t.fields[path[0]].typ, path[1..]))
  }

  predicate Holds(v: GoValue, path: seq<nat>) {
    path == [] || (v.Fields? && path[0] < |v.fields| && Holds(v.fields[path[0]], path[1..]))
  }

  function Get(v: GoValue, path: seq<nat>): GoValue
    requires Holds(v, path)
  {
    if path == [] then v else Get(v.fields[path[0]], path[1..])
  }

  function Put(v: GoValue, path: seq<nat>, x: GoValue): GoValue
    requires Holds(v, path)
  {
    if path == [] then x else Fields(v.fields[path[0] := Put(v.fields[path[0]], path[1..], x)])
  }

  lemma {:induction false} TypedHolds(v: GoValue, t: GoType, path: seq<nat>)
    requires HasType(v, t) && Reaches(t, path)
    ensures Holds(v, path)
  {
    if |path| > 1 { TypedHolds(v.fields[path[0]], t.fields[path[0]].typ, path[1..]); }
  }

  lemma {:induction false} FlatReaches(refl: Reflector, t: GoType, parent: seq<nat>, i: nat)
    requires t.Struct? && EmbedsStructs(refl, t) && i <= |t.fields|
    ensures forall f :: f in Flat(refl, t, parent, i) ==> |parent| < |f.index| && Reaches(t, f.index[|parent|..])
    decreases t, |t.fields| - i
  {
    if i < |t.fields| {
      FlatReaches(refl, t, parent, i + 1);
      FlatBelow(refl, t, parent, i);
      var field := t.fields[i];
      if Embedded(refl, field) {
        FlatReaches(refl, field.typ, parent + [i], 0);
        forall f | f in Flat(refl, field.typ, parent + [i], 0) ensures |parent| < |f.index| && Reaches(t, f.index[|parent|..]) {
          FlatOneBelow(refl, t, parent, i);
          var own := f.index[|parent|..];
          assert own[0] == i by { UnderEmbedded(refl, t, parent, i, f); }
          assert own[1..] == f.index[|parent + [i]|..];
        }
      } else if Mapped(refl, field).1 {
        assert (parent + [i])[|parent|..] == [i];
      }
    }
  }

  lemma UnderEmbedded(refl: Reflector, t: GoType, parent: seq<nat>, i: nat, f: FlatField)
    requires t.Struct? && EmbedsStructs(refl, t) && i < |t.fields| && f in FlatOne(refl, t, parent, i)
    ensures Under(f.index, parent, i, i + 1)
  {
    FlatOneBelow(refl, t, parent, i);
  }

  // ---------- what the flattened fields are ----------

  /** The path goes through used embedded fields to a used field with a column name. */
  predicate Leads(refl: Reflector, t: GoType, path: seq<nat>) {
    && path != [] && t.Struct? && path[0] < |t.fields|
    && var (column, use) := Mapped(refl, t.fields[path[0]]);
    && use
    && if |path| == 1 then column.info.name != "" else column.info.name == "" && Leads(refl, t.fields[path[0]].typ, path[1..])
  }

  /** The field at the end of the path. */
  function FieldAt(refl: Reflector, t: GoType, path: seq<nat>): Field
    requires Leads(refl, t, path)
  {
    if |path| == 1 then t.fields[path[0]] else FieldAt(refl, t.fields[path[0]].typ, path[1..])
  }

  /** f is the field at the end of a path below parent that goes through the i-th field of t or a later one. */
  predicate IsAt(refl: Reflector, t: GoType, parent: seq<nat>, i: nat, f: FlatField) {
    && |parent| < |f.index| && f.index[..|parent|] == parent && i <= f.index[|parent|]
    && var path := f.index[|parent|..];
    && Leads(refl, t, path) && f.field == FieldAt(refl, t, path) && f.column == Mapped(refl, f.field).0
  }

  lemma {:induction false} FlatIs(refl: Reflector, t: GoType, parent: seq<nat>, i: nat, f: FlatField)
    requires t.Struct? && EmbedsStructs(refl, t) && i <= |t.fields|
    ensures f in Flat(refl, t, parent, i) <==> IsAt(refl, t, parent, i, f)
    decreases t, |t.fields| - i
  {
    hide Mapped;
    if i < |t.fields| {
      FlatIs(refl, t, parent, i + 1, f);
      FlatOneIs(refl, t, parent, i, f);
      assert f in Flat(refl, t, parent, i) <==> f in FlatOne(refl, t, parent, i) || f in Flat(refl, t, parent, i + 1);
    }
  }

  lemma {:induction false} FlatOneIs(refl: Reflector, t: GoType, parent: seq<nat>, i: nat, f: FlatField)
    requires t.Struct? && EmbedsStructs(refl, t) && i < |t.fields|
    ensures f in FlatOne(refl, t, parent, i) <==> IsAt(refl, t, parent, i, f) && f.index[|parent|] == i
    decreases t, |t.fields| - i, 0
  {
    hide Mapped;
    var field := t.fields[i];
    var n := |parent|;
    if Embedded(refl, field) {
      FlatIs(refl, field.typ, parent + [i], 0, f);
      assert f in FlatOne(refl, t, parent, i) <==> IsAt(refl, field.typ, parent + [i], 0, f);
      if n < |f.index| {
        assert f.index[..n + 1] == parent + [i] <==> f.index[..n] == parent && f.index[n] == i by {
          assert f.index[..n + 1] == f.index[..n] + [f.index[n]];
        }
        assert f.index[n..][1..] == f.index[n + 1..];
      }
    } else if Mapped(refl, field).1 {
      assert (parent + [i])[n..] == [i] && (parent + [i])[..n] == parent;
      if IsAt(refl, t, parent, i, f) && f.index[n] == i {
        assert |f.index[n..]| == 1 && f.index == f.index[..n] + f.index[n..];
        assert f.index == parent + [i];
      }
    }
  }

  /** Flattening lists exactly the fields that paths through used embedded structs lead to, each with its path as its
    * index and with its own column.
    */
  lemma FlatIff(refl: Reflector, t: GoType, f: FlatField)
    requires t.Struct? && EmbedsStructs(refl, t)
    ensures f in Flat(refl, t, [], 0) <==>
      Leads(refl, t, f.index) && f.field == FieldAt(refl, t, f.index) && f.column == Mapped(refl, f.field).0
  {
    hide Mapped, Flat;
    FlatIs(refl, t, [], 0, f);
    assert f.index[0..] == f.index;
  }

  predicate Apart(a: seq<nat>, b: seq<nat>) { Before(a, b) || Before(b, a) }

  lemma ApartTail(a: seq<nat>, b: seq<nat>)
    requires Before(a, b) && a[0] == b[0]
    ensures Before(a[1..], b[1..])
  {
    var k :| 0 <= k < |a| && k < |b| && a[..k] == b[..k] && a[k] < b[k];
    assert a[1..][..k - 1] == a[..k][1..] && b[1..][..k - 1] == b[..k][1..];
    assert a[1..][k - 1] == a[k] && b[1..][k - 1] == b[k];
  }

  /** What is written at one index is read there, and nowhere apart from it. */
  lemma {:induction false} PutThenGet(v: GoValue, path: seq<nat>, x: GoValue)
    requires Holds(v, path)
    ensures Holds(Put(v, path, x), path) && Get(Put(v, path, x), path) == x
  {
    if path != [] { PutThenGet(v.fields[path[0]], path[1..], x); }
  }

  lemma {:induction false} PutElsewhere(v: GoValue, path: seq<nat>, x: GoValue, other: seq<nat>)
    requires Holds(v, path) && Holds(v, other) && Apart(path, other)
    ensures Holds(Put(v, path, x), other) && Get(Put(v, path, x), other) == Get(v, other)
    decreases |path|
  {
    assert path != [] && other != [];
    if path[0] == other[0] {
      if Before(path, other) { ApartTail(path, other); } else { ApartTail(other, path); }
      PutElsewhere(v.fields[path[0]], path[1..], x, other[1..]);
    }
  }

  // ---------- reflectStruct behind its cache ----------

  /** The flattened fields, and for each column name the position of its field. */
  datatype Reflected = Reflected(fields: seq<FlatField>, columnIndex: map<string, nat>)

  function ColumnName(f: FlatField): string { f.column.info.name }

  predicate NoDuplicates(fields: seq<FlatField>) {
    forall i, j :: 0 <= i < j < |fields| ==> ColumnName(fields[i]) != ColumnName(fields[j])
  }

  predicate Indexes(columnIndex: map<string, nat>, fields: seq<FlatField>) {
    && (forall i :: 0 <= i < |fields| ==> ColumnName(fields[i]) in columnIndex && columnIndex[ColumnName(fields[i])] == i)
    && (forall n :: n in columnIndex ==> columnIndex[n] < |fields| && ColumnName(fields[columnIndex[n]]) == n)
  }

  method ReflectStruct(refl: Reflector, t: GoType) returns (r: Result<Reflected, string>)
    requires t.Struct? && EmbedsStructs(refl, t)
    ensures r.Ok? <==> NoDuplicates(Flat(refl, t, [], 0))
    ensures r.Ok? ==> r.value.fields == Flat(refl, t, [], 0) && Indexes(r.value.columnIndex, r.value.fields)
    ensures r.Fail? ==> exists i, j ::
        0 <= i < j < |Flat(refl, t, [], 0)| && ColumnName(Flat(refl, t, [], 0)[i]) == ColumnName(Flat(refl, t, [], 0)[j]) == r.error
  {
    hide Flat, EmbedsStructs;
    var fields := FlattenStructFields(refl, t, []);
    var columnIndex: map<string, nat> := map[];
    for i := 0 to |fields|
      invariant Indexes(columnIndex, fields[..i])
    {
      var name := fields[i].column.info.name;
      assert ColumnName(fields[i]) == name;
      if name in columnIndex {
        assert ColumnName(fields[..i][columnIndex[name]]) == name;
        return Fail(name);
      }
      columnIndex := columnIndex[name := i];
    }
    assert fields[..|fields|] == fields;
    return Ok(Reflected(fields, columnIndex));
  }
}
