/** Values: a map from column names to values, and its columns in a fixed order. */
module ValueMaps {
  import opened Sql
  import opened QueryBuilder

  /** The order of cmp.Compare on strings. */
  predicate Less(a: string, b: string) {
    b != "" && (a == "" || a[0] < b[0] || (a[0] == b[0] && Less(a[1..], b[1..])))
  }

  lemma {:induction false} LessIsTotal(a: string, b: string)
    ensures Less(a, b) || a == b || Less(b, a)
    ensures !(Less(a, b) && Less(b, a)) && !Less(a, a)
  {
    if a != "" && b != "" && a[0] == b[0] {
      LessIsTotal(a[1..], b[1..]);
      assert a == [a[0]] + a[1..] && b == [b[0]] + b[1..];
    }
    if a != "" { LessIsTotal(a[1..], a[1..]); }
  }

  lemma {:induction false} LessTransitive(a: string, b: string, c: string)
    requires Less(a, b) && Less(b, c)
    ensures Less(a, c)
  {
    if a != "" && a[0] == b[0] && b[0] == c[0] { LessTransitive(a[1..], b[1..], c[1..]); }
  }

  predicate StrictlySorted(s: seq<string>) { forall i, j :: 0 <= i < j < |s| ==> Less(s[i], s[j]) }

  /** s with name inserted at its place. */
  function Inserted(name: string, s: seq<string>): seq<string> {
    if s == [] || Less(name, s[0]) then [name] + s else [s[0]] + Inserted(name, s[1..])
  }

  /** slices.SortFunc on the names. */
  function Sorted(names: seq<string>): seq<string> {
    if names == [] then [] else Inserted(names[0], Sorted(names[1..]))
  }

  lemma {:induction false} InsertedSorted(name: string, s: seq<string>)
    requires StrictlySorted(s) && name !in s
    ensures StrictlySorted(Inserted(name, s)) && multiset(Inserted(name, s)) == multiset(s) + multiset{name}
  {
    if s != [] {
      assert s == [s[0]] + s[1..];
      LessIsTotal(name, s[0]);
      if Less(name, s[0]) {
        forall j | 0 < j < |s| ensures Less(name, s[j]) { LessTransitive(name, s[0], s[j]); }
      } else {
        InsertedSorted(name, s[1..]);
        var tail := Inserted(name, s[1..]);
        forall j | 0 <= j < |tail| ensures Less(s[0], tail[j]) {
          assert tail[j] in multiset(tail);
          assert tail[j] == name || tail[j] in s[1..];
        }
      }
    }
  }

  predicate NoRepeats(s: seq<string>) { forall i, j :: 0 <= i < j < |s| ==> s[i] != s[j] }

  lemma AddsNew(names: seq<string>, n: string)
    requires NoRepeats(names) && n !in names
    ensures NoRepeats(names + [n])
  {
  }

  lemma SameMembers(a: seq<string>, b: seq<string>)
    requires multiset(a) == multiset(b)
    ensures forall n :: n in a <==> n in b
  {
    assert forall n :: n in a <==> n in multiset(a);
    assert forall n :: n in b <==> n in multiset(b);
  }

  lemma {:induction false} SortedIsSorted(names: seq<string>)
    requires NoRepeats(names)
    ensures StrictlySorted(Sorted(names)) && multiset(Sorted(names)) == multiset(names)
  {
    if names != [] {
      SortedIsSorted(names[1..]);
      assert names == [names[0]] + names[1..];
      assert names[0] !in names[1..];
      SameMembers(Sorted(names[1..]), names[1..]);
      InsertedSorted(names[0], Sorted(names[1..]));
    }
  }

  /** There is only one strictly sorted arrangement: neither the sorting algorithm nor the map's iteration order
    * can show in the result.
    */
  lemma {:induction false} SortedOnlyOneWay(a: seq<string>, b: seq<string>)
    requires StrictlySorted(a) && StrictlySorted(b) && forall n :: n in a <==> n in b
    ensures a == b
  {
    assert b != [] ==> b[0] in a;
    if a != [] {
      assert a[0] in b;
      var i :| 0 <= i < |b| && b[i] == a[0];
      var j :| 0 <= j < |a| && a[j] == b[0];
      LessIsTotal(a[0], b[0]);
      assert a[0] == b[0];
      TailMembers(a, b);
      SortedOnlyOneWay(a[1..], b[1..]);
    }
  }

  lemma TailMembers(a: seq<string>, b: seq<string>)
    requires a != [] && b != [] && a[0] == b[0] && StrictlySorted(a) && StrictlySorted(b) && forall n :: n in a <==> n in b
    ensures forall n :: n in a[1..] <==> n in b[1..]
  {
    FirstIsAlone(a);
    FirstIsAlone(b);
    forall n ensures n in a[1..] <==> n in b[1..] {
      assert n in a <==> n in b;
    }
  }

  lemma FirstIsAlone(a: seq<string>)
    requires a != [] && StrictlySorted(a)
    ensures forall n :: n in a <==> n == a[0] || n in a[1..]
    ensures a[0] !in a[1..]
  {
    LessIsTotal(a[0], a[0]);
    assert a == [a[0]] + a[1..];
    forall i | 0 <= i < |a[1..]| ensures a[1..][i] != a[0] { assert Less(a[0], a[i + 1]); }
  }

  function Columns(names: seq<string>): (r: seq<ColumnInfo>)
    ensures |r| == |names| && forall i :: 0 <= i < |r| ==> r[i] == ColumnInfo(names[i], false, false)
  {
    seq(|names|, i requires 0 <= i < |names| => ColumnInfo(names[i], false, false))
  }

  /** columns and values list v in name order, each value beside its name. */
  ghost predicate Lists(v: map<string, Value>, columns: seq<ColumnInfo>, values: seq<Value>) {
    && |columns| == |values|
    && (forall i :: 0 <= i < |columns| ==> columns[i].name in v && values[i] == v[columns[i].name])
    && (forall n :: n in v ==> exists i :: 0 <= i < |columns| && columns[i].name == n)
    && (forall i, j :: 0 <= i < j < |columns| ==> Less(columns[i].name, columns[j].name))
    && (forall i :: 0 <= i < |columns| ==> columns[i] == ColumnInfo(columns[i].name, false, false))
  }

  method SortedColumnsAndValues(v: map<string, Value>) returns (columns: seq<ColumnInfo>, values: seq<Value>)
    ensures Lists(v, columns, values)
  {
    var names: seq<string> := [];
    var left := v.Keys;
    while left != {}
      invariant left <= v.Keys && NoRepeats(names)
      invariant forall n :: n in names <==> n in v.Keys - left
    {
      var n :| n in left;
      AddsNew(names, n);
      names := names + [n];
      left := left - {n};
    }
    var sorted := Sorted(names);
    SortedIsSorted(names);
    SameMembers(sorted, names);
    assert forall n :: n in sorted <==> n in v.Keys;
    columns := Columns(sorted);
    values := [];
    for i := 0 to |columns|
      invariant |values| == i && forall j :: 0 <= j < i ==> values[j] == v[sorted[j]]
    {
      assert sorted[i] in v;
      values := values + [v[columns[i].name]];
    }
    forall n | n in v ensures exists i :: 0 <= i < |columns| && columns[i].name == n {
      var i :| 0 <= i < |sorted| && sorted[i] == n;
      assert columns[i].name == n;
    }
  }

  /** The same map gives the same columns and values every time, so it always gives the same query and arguments. */
  lemma SameListsEveryTime(v: map<string, Value>, c1: seq<ColumnInfo>, v1: seq<Value>, c2: seq<ColumnInfo>, v2: seq<Value>)
    requires Lists(v, c1, v1) && Lists(v, c2, v2)
    ensures c1 == c2 && v1 == v2
  {
    var a := seq(|c1|, i requires 0 <= i < |c1| => c1[i].name);
    var b := seq(|c2|, i requires 0 <= i < |c2| => c2[i].name);
    forall n ensures n in a <==> n in b {
      if n in a { var i :| 0 <= i < |a| && a[i] == n; assert n in v; var j :| 0 <= j < |c2| && c2[j].name == n; assert b[j] == n; }
      if n in b { var i :| 0 <= i < |b| && b[i] == n; assert n in v; var j :| 0 <= j < |c1| && c1[j].name == n; assert a[j] == n; }
    }
    SortedOnlyOneWay(a, b);
    forall i | 0 <= i < |c1| ensures c1[i] == c2[i] && v1[i] == v2[i] { assert a[i] == b[i]; }
  }
}
