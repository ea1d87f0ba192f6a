/** The SQL Server foreign key query: one catalog row per column, aggregated to one entry per constraint. */
module ForeignKeys {
  import opened Common

  datatype CatalogRow = CatalogRow(name: string, localCol: string, refTable: string, refCol: string, delDesc: string, updDesc: string)

  function Action(desc: string): string {
    if desc == "NO_ACTION" then "NO ACTION"
    else if desc == "CASCADE" then "CASCADE"
    else if desc == "SET_NULL" then "SET NULL"
    else if desc == "SET_DEFAULT" then "SET DEFAULT"
    else desc
  }

  /** Each underscore as a space. */
  function Spaced(s: string): (r: string)
    ensures |r| == |s| && forall i :: 0 <= i < |s| ==> r[i] == if s[i] == '_' then ' ' else s[i]
  {
    seq(|s|, i requires 0 <= i < |s| => if s[i] == '_' then ' ' else s[i])
  }

  /** The catalog's four descriptions come out as the words of the standard, anything else as it is. */
  lemma ActionWords(desc: string)
    ensures Action(desc) == if desc in {"NO_ACTION", "CASCADE", "SET_NULL", "SET_DEFAULT"} then Spaced(desc) else desc
  {
    assert Spaced("NO_ACTION") == "NO ACTION" && Spaced("CASCADE") == "CASCADE";
    assert Spaced("SET_NULL") == "SET NULL" && Spaced("SET_DEFAULT") == "SET DEFAULT";
  }

  /** A foreign key as it is returned. */
  datatype Info = Info(name: string, columns: seq<string>, refTable: string, refColumns: seq<string>, onDelete: string, onUpdate: string)

  /** A foreign key under construction: byName holds a reference to it, and the row loop appends to its columns. */
  class Entry {
    const name: string
    const refTable: string
    const onDelete: string
    const onUpdate: string
    var columns: seq<string>
    var refColumns: seq<string>

    constructor (r: CatalogRow)
      ensures name == r.name && refTable == r.refTable && onDelete == Action(r.delDesc) && onUpdate == Action(r.updDesc)
      ensures columns == [] && refColumns == []
    {
      name, refTable, onDelete, onUpdate := r.name, r.refTable, Action(r.delDesc), Action(r.updDesc);
      columns, refColumns := [], [];
    }

    function Value(): Info
      reads this
    {
      Info(name, columns, refTable, refColumns, onDelete, onUpdate)
    }
  }

  // ---------- what the loop computes ----------

  /** The constraint names in the order in which they are first seen. */
  function FirstSeen(rows: seq<CatalogRow>): seq<string> {
    if rows == [] then []
    else
      var before := FirstSeen(rows[..|rows| - 1]);
      var name := rows[|rows| - 1].name;
      if name in before then before else before + [name]
  }

  /** A row added to its constraint. */
  function Extended(info: Info, r: CatalogRow): Info {
    info.(columns := info.columns + [r.localCol], refColumns := info.refColumns + [r.refCol])
  }

  function Started(r: CatalogRow): Info { Info(r.name, [], r.refTable, [], Action(r.delDesc), Action(r.updDesc)) }

  /** The rows of one constraint put together, or an empty entry when there are none. */
  function Collected(rows: seq<CatalogRow>, name: string): Option<Info> {
    if rows == [] then None
    else
      var before := Collected(rows[..|rows| - 1], name);
      var r := rows[|rows| - 1];
      if r.name != name then before
      else Some(Extended(if before.None? then Started(r) else before.value, r))
  }

  lemma {:induction false} SeenIsCollected(rows: seq<CatalogRow>, name: string)
    ensures name in FirstSeen(rows) <==> Collected(rows, name).Some?
    ensures Collected(rows, name).Some? ==> Collected(rows, name).value.name == name
  {
    if rows != [] { SeenIsCollected(rows[..|rows| - 1], name); }
  }

  function Aggregated(rows: seq<CatalogRow>, names: seq<string>): (r: seq<Info>)
    requires forall n :: n in names ==> n in FirstSeen(rows)
    ensures |r| == |names| && forall i :: 0 <= i < |names| ==> Some(r[i]) == Collected(rows, names[i])
  {
    seq(|names|, i requires 0 <= i < |names| => EntryOf(rows, names[i]))
  }

  function EntryOf(rows: seq<CatalogRow>, name: string): (r: Info)
    requires name in FirstSeen(rows)
    ensures Some(r) == Collected(rows, name)
  {
    SeenIsCollected(rows, name);
    Collected(rows, name).value
  }

  predicate Distinct(names: seq<string>) { forall i, j :: 0 <= i < j < |names| ==> names[i] != names[j] }

  lemma {:induction false} FirstSeenDistinct(rows: seq<CatalogRow>)
    ensures Distinct(FirstSeen(rows))
  {
    if rows != [] { FirstSeenDistinct(rows[..|rows| - 1]); }
  }

  // ---------- the Go function, behind its query ----------

  /** The loop's state after the rows so far: one object per name, holding what was collected for it. */
  ghost predicate Holds(byName: map<string, Entry>, order: seq<string>, rows: seq<CatalogRow>)
    reads byName.Values
  {
    && order == FirstSeen(rows)
    && (forall n :: n in byName <==> n in order)
    && (forall n :: n in byName ==> byName[n].name == n && Collected(rows, n) == Some(byName[n].Value()))
  }

  predicate AllScanned<E>(scans: seq<Result<CatalogRow, E>>) {
    forall i :: 0 <= i < |scans| ==> scans[i].Ok?
  }

  /** The rows as they are scanned, some of which may fail, and the error that ends them if any. */
  method Aggregate<E>(scans: seq<Result<CatalogRow, E>>, end: Option<E>) returns (r: Result<seq<Info>, E>)
    ensures AllScanned(scans) && end.None? ==> r.Ok?
    ensures AllScanned(scans) && end.Some? ==> r == Fail(end.value)
    ensures !AllScanned(scans) ==> exists i ::
      0 <= i < |scans| && scans[i].Fail? && r == Fail(scans[i].error) && forall j :: 0 <= j < i ==> scans[j].Ok?
    ensures r.Ok? ==> r.value == Aggregated(Rows(scans), FirstSeen(Rows(scans)))
  {
    hide FirstSeen, Collected, Rows;
    var byName: map<string, Entry> := map[];
    var order: seq<string> := [];
    NoRows<E>();
    assert scans[..0] == [];
    for i := 0 to |scans|
      invariant forall j :: 0 <= j < i ==> scans[j].Ok?
      invariant Holds(byName, order, Rows(scans[..i]))
      invariant forall n :: n in byName ==> fresh(byName[n])
    {
      if scans[i].Fail? { return Fail(scans[i].error); }
      var row := scans[i].value;
      RowsStep(scans, i);
      SeenIsCollected(Rows(scans[..i]), row.name);
      FirstSeenStep(Rows(scans[..i]), row);
      if row.name !in byName {
        var fk := new Entry(row);
        byName := byName[row.name := fk];
        order := order + [row.name];
      }
      Append(byName, row, Rows(scans[..i]));
    }
    assert scans[..|scans|] == scans;
    if end.Some? { return Fail(end.value); }
    var out := InOrder(byName, order, Rows(scans));
    return Ok(out);
  }

  lemma NoRows<E>()
    ensures Rows<E>([]) == [] && FirstSeen([]) == []
  {
  }

  lemma FirstSeenStep(rows: seq<CatalogRow>, row: CatalogRow)
    ensures FirstSeen(rows + [row]) == if row.name in FirstSeen(rows) then FirstSeen(rows) else FirstSeen(rows) + [row.name]
  {
    assert (rows + [row])[..|rows|] == rows;
  }

  method InOrder(byName: map<string, Entry>, order: seq<string>, ghost rows: seq<CatalogRow>) returns (out: seq<Info>)
    requires Holds(byName, order, rows)
    ensures out == Aggregated(rows, FirstSeen(rows))
  {
    out := [];
    for i := 0 to |order|
      invariant out == Aggregated(rows, order)[..i]
    {
      out := out + [byName[order[i]].Value()];
    }
  }

  /** The rows that were scanned before the first failure. */
  function Rows<E>(scans: seq<Result<CatalogRow, E>>): seq<CatalogRow> {
    if scans == [] || scans[|scans| - 1].Fail? then []
    else Rows(scans[..|scans| - 1]) + [scans[|scans| - 1].value]
  }

  lemma RowsStep<E>(scans: seq<Result<CatalogRow, E>>, i: nat)
    requires i < |scans| && scans[i].Ok?
    ensures Rows(scans[..i + 1]) == Rows(scans[..i]) + [scans[i].value]
  {
    assert scans[..i + 1][..i] == scans[..i];
  }

  /** What happens to the objects when a row is appended to the one of its name. */
  method Append(byName: map<string, Entry>, row: CatalogRow, ghost before: seq<CatalogRow>)
    requires row.name in byName
    requires forall n :: n in byName ==> byName[n].name == n
    requires forall n :: n in byName && n != row.name ==> Collected(before, n) == Some(byName[n].Value())
    requires Collected(before, row.name) == Some(byName[row.name].Value())
      || (Collected(before, row.name).None? && byName[row.name].Value() == Started(row))
    modifies byName[row.name]
    ensures forall n :: n in byName ==> Collected(before + [row], n) == Some(byName[n].Value())
  {
    var fk := byName[row.name];
    fk.columns := fk.columns + [row.localCol];
    fk.refColumns := fk.refColumns + [row.refCol];
    assert (before + [row])[..|before|] == before;
    assert forall n :: n in byName && n != row.name ==> byName[n] != fk;
  }

  // ---------- no row is lost, none is invented, and pairs stay pairs ----------

  /** One column of a foreign key. */
  datatype Link = Link(name: string, column: string, refColumn: string)

  function LinkOf(r: CatalogRow): Link { Link(r.name, r.localCol, r.refCol) }

  function LinksOf(rows: seq<CatalogRow>): seq<Link> {
    if rows == [] then [] else LinksOf(rows[..|rows| - 1]) + [LinkOf(rows[|rows| - 1])]
  }

  /** An entry's columns, each beside the column that it references. */
  function Links(info: Info): (r: seq<Link>)
    requires |info.columns| == |info.refColumns|
    ensures |r| == |info.columns|
    ensures forall i :: 0 <= i < |r| ==> r[i] == Link(info.name, info.columns[i], info.refColumns[i])
  {
    seq(|info.columns|, i requires 0 <= i < |info.columns| => Link(info.name, info.columns[i], info.refColumns[i]))
  }

  lemma {:induction false} Paired(rows: seq<CatalogRow>, name: string)
    ensures Collected(rows, name).Some? ==> |Collected(rows, name).value.columns| == |Collected(rows, name).value.refColumns|
  {
    if rows != [] { Paired(rows[..|rows| - 1], name); }
  }

  /** The links of one constraint; none when it has no rows. */
  function LinksFor(rows: seq<CatalogRow>, name: string): seq<Link> {
    Paired(rows, name);
    if Collected(rows, name).None? then [] else Links(Collected(rows, name).value)
  }

  lemma LinksForStep(init: seq<CatalogRow>, r: CatalogRow, name: string)
    ensures LinksFor(init + [r], name) == LinksFor(init, name) + if r.name == name then [LinkOf(r)] else []
  {
    assert (init + [r])[..|init|] == init;
    Paired(init, name);
    SeenIsCollected(init, name);
  }

  /** All entries written out again, column by column. */
  function Flattened(rows: seq<CatalogRow>, names: seq<string>): seq<Link> {
    if names == [] then [] else Flattened(rows, names[..|names| - 1]) + LinksFor(rows, names[|names| - 1])
  }

  lemma {:induction false} FlattenedSame(init: seq<CatalogRow>, r: CatalogRow, names: seq<string>)
    requires r.name !in names
    ensures Flattened(init + [r], names) == Flattened(init, names)
  {
    if names != [] {
      FlattenedSame(init, r, names[..|names| - 1]);
      LinksForStep(init, r, names[|names| - 1]);
    }
  }

  lemma {:induction false} FlattenedStep(init: seq<CatalogRow>, r: CatalogRow, names: seq<string>)
    requires Distinct(names) && r.name in names
    ensures multiset(Flattened(init + [r], names)) == multiset(Flattened(init, names)) + multiset{LinkOf(r)}
  {
    hide LinksFor;
    var less, last := names[..|names| - 1], names[|names| - 1];
    assert names == less + [last];
    LinksForStep(init, r, last);
    if last == r.name { FlattenedSame(init, r, less); } else { FlattenedStep(init, r, less); }
  }

  lemma FlattenedNew(rows: seq<CatalogRow>, names: seq<string>, name: string)
    ensures Flattened(rows, names + [name]) == Flattened(rows, names) + LinksFor(rows, name)
  {
    assert (names + [name])[..|names|] == names;
  }

  /** The entries hold every catalog row's column pair, each as often as it was read, under its own constraint. */
  lemma {:induction false} RowsAreConserved(rows: seq<CatalogRow>)
    ensures multiset(Flattened(rows, FirstSeen(rows))) == multiset(LinksOf(rows))
  {
    if rows != [] {
      var init, r := rows[..|rows| - 1], rows[|rows| - 1];
      assert rows == init + [r];
      RowsAreConserved(init);
      FirstSeenDistinct(init);
      if r.name in FirstSeen(init) { FlattenedStep(init, r, FirstSeen(init)); } else { NewEntry(init, r); }
    }
  }

  lemma NewEntry(init: seq<CatalogRow>, r: CatalogRow)
    requires r.name !in FirstSeen(init)
    ensures Flattened(init + [r], FirstSeen(init) + [r.name]) == Flattened(init, FirstSeen(init)) + [LinkOf(r)]
  {
    FlattenedSame(init, r, FirstSeen(init));
    FlattenedNew(init + [r], FirstSeen(init), r.name);
    LinksForStep(init, r, r.name);
    SeenIsCollected(init, r.name);
  }

  /** The rows of a constraint stand together, as the query's ORDER BY fk.name has them. */
  predicate Grouped(rows: seq<CatalogRow>) {
    forall i, j, k :: 0 <= i < j < k < |rows| && rows[i].name == rows[k].name ==> rows[j].name == rows[i].name
  }

  lemma {:induction false} SeenSomewhere(rows: seq<CatalogRow>, name: string)
    requires name in FirstSeen(rows)
    ensures exists i :: 0 <= i < |rows| && rows[i].name == name
  {
    var last := |rows| - 1;
    if rows[last].name != name {
      SeenSomewhere(rows[..last], name);
      var i :| 0 <= i < last && rows[..last][i].name == name;
      assert rows[i].name == name;
    }
  }

  /** In grouped rows, the last row belongs to the newest entry. */
  lemma {:induction false} LastSeenIsLast(rows: seq<CatalogRow>)
    requires rows != [] && Grouped(rows)
    ensures FirstSeen(rows) != [] && FirstSeen(rows)[|FirstSeen(rows)| - 1] == rows[|rows| - 1].name
  {
    var init, r := rows[..|rows| - 1], rows[|rows| - 1];
    if r.name in FirstSeen(init) {
      SeenSomewhere(init, r.name);
      var i :| 0 <= i < |init| && init[i].name == r.name;
      assert rows[i].name == r.name && init[|init| - 1] == rows[|rows| - 2];
      LastSeenIsLast(init);
    }
  }

  lemma LastGrows(init: seq<CatalogRow>, r: CatalogRow)
    requires var names := FirstSeen(init); names != [] && names[|names| - 1] == r.name
    ensures Flattened(init + [r], FirstSeen(init)) == Flattened(init, FirstSeen(init)) + [LinkOf(r)]
  {
    hide LinksFor;
    var names := FirstSeen(init);
    FirstSeenDistinct(init);
    FlattenedSame(init, r, names[..|names| - 1]);
    LinksForStep(init, r, r.name);
  }

  /** For rows grouped by constraint, writing the entries out again gives the rows back in their order. */
  lemma {:induction false} GroupedRowsComeBack(rows: seq<CatalogRow>)
    requires Grouped(rows)
    ensures Flattened(rows, FirstSeen(rows)) == LinksOf(rows)
  {
    if rows != [] {
      var init, r := rows[..|rows| - 1], rows[|rows| - 1];
      assert rows == init + [r];
      GroupedRowsComeBack(init);
      if r.name in FirstSeen(init) {
        LastSeenIsLast(rows);
        LastGrows(init, r);
      } else {
        NewEntry(init, r);
      }
    }
  }

  /** The first row of a constraint decides its table and actions. */
  lemma {:induction false} FirstRowDecides(rows: seq<CatalogRow>, i: nat)
    requires i < |rows| && forall j :: 0 <= j < i ==> rows[j].name != rows[i].name
    ensures Collected(rows, rows[i].name).Some?
    ensures var info := Collected(rows, rows[i].name).value;
            info.(columns := [], refColumns := []) == Started(rows[i])
  {
    var last := |rows| - 1;
    if i < last {
      FirstRowDecides(rows[..last], i);
    } else {
      NeverSeen(rows[..last], rows[i].name);
    }
  }

  lemma {:induction false} NeverSeen(rows: seq<CatalogRow>, name: string)
    requires forall j :: 0 <= j < |rows| ==> rows[j].name != name
    ensures Collected(rows, name).None?
  {
    if rows != [] { NeverSeen(rows[..|rows| - 1], name); }
  }
}
