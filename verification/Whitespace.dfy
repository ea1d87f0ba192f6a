/** TrimSurroundingWhitespace: the whitespace normal form of a query for logging. */
module Whitespace {

  /** unicode.IsSpace. */
  predicate IsSpace(c: char) {
    || c == ' ' || '\t' <= c <= '\r' || c == '\U{85}' || c == '\U{A0}' || c == '\U{1680}' || '\U{2000}' <= c <= '\U{200A}'
    || c == '\U{2028}' || c == '\U{2029}' || c == '\U{202F}' || c == '\U{205F}' || c == '\U{3000}'
  }

  // ---------- strings.TrimRightFunc, TrimSpace, Split and Join ----------

  function TrimRight(s: string): (r: string)
    ensures r <= s && (r != "" ==> !IsSpace(r[|r| - 1]))
    ensures forall i :: |r| <= i < |s| ==> IsSpace(s[i])
  {
    if s != "" && IsSpace(s[|s| - 1]) then TrimRight(s[..|s| - 1]) else s
  }

  function TrimLeft(s: string): string {
    if s != "" && IsSpace(s[0]) then TrimLeft(s[1..]) else s
  }

  function TrimSpace(s: string): string { TrimLeft(TrimRight(s)) }

  predicate Without(s: string, sep: char) { sep !in s }

  function Split(s: string, sep: char): (parts: seq<string>)
    ensures parts != [] && forall i :: 0 <= i < |parts| ==> Without(parts[i], sep)
    ensures |parts| == 1 <==> sep !in s
  {
    if s == "" then [""]
    else
      var rest := Split(s[1..], sep);
      if s[0] == sep then [""] + rest else [[s[0]] + rest[0]] + rest[1..]
  }

  function Join(parts: seq<string>, sep: char): string {
    if parts == [] then ""
    else if |parts| == 1 then parts[0]
    else parts[0] + [sep] + Join(parts[1..], sep)
  }

  // ---------- the normal form ----------

  function Kept(line: string): seq<string> {
    if TrimRight(line) == "" then [] else [TrimRight(line)]
  }

  /** The lines without trailing whitespace, and without those that are blank. */
  function NonBlank(lines: seq<string>): seq<string> {
    if lines == [] then [] else Kept(lines[0]) + NonBlank(lines[1..])
  }

  /** Lines as they are after trimming: none ends in whitespace, and none is empty. */
  predicate Trimmed(lines: seq<string>) {
    forall i :: 0 <= i < |lines| ==> lines[i] != "" && !IsSpace(lines[i][|lines[i]| - 1])
  }

  /** All lines begin with the same n characters, and those are whitespace. */
  predicate CommonMargin(lines: seq<string>, n: nat) {
    forall i :: 0 <= i < |lines| ==> SharesMargin(lines[0], lines[i], n)
  }

  predicate SharesMargin(first: string, line: string, n: nat) {
    n <= |first| && n <= |line| && line[..n] == first[..n] && forall j :: 0 <= j < n ==> IsSpace(line[j])
  }

  predicate LongestMargin(lines: seq<string>, n: nat) { CommonMargin(lines, n) && !CommonMargin(lines, n + 1) }

  function Dropped(lines: seq<string>, n: nat): (r: seq<string>)
    requires CommonMargin(lines, n)
    ensures |r| == |lines| && forall i :: 0 <= i < |lines| ==> r[i] == lines[i][n..]
  {
    seq(|lines|, i requires 0 <= i < |lines| => assert SharesMargin(lines[0], lines[i], n); lines[i][n..])
  }

  ghost predicate WithoutMargin(lines: seq<string>, r: seq<string>) {
    exists n :: LongestMargin(lines, n) && r == Dropped(lines, n)
  }

  /** r is the query's normal form. */
  ghost predicate NormalForm(query: string, r: string) {
    if '\n' !in query then r == TrimSpace(query)
    else
      var lines := NonBlank(Split(query, '\n'));
      if lines == [] then r == ""
      else exists left :: WithoutMargin(lines, left) && r == Join(left, '\n')
  }

  lemma KeptLine(line: string)
    requires Without(line, '\n')
    ensures Without(TrimRight(line), '\n')
  {
    forall i | 0 <= i < |TrimRight(line)| ensures TrimRight(line)[i] == line[i] {}
  }

  lemma {:induction false} NonBlankTrimmed(lines: seq<string>)
    requires forall i :: 0 <= i < |lines| ==> Without(lines[i], '\n')
    ensures Trimmed(NonBlank(lines))
    ensures forall i :: 0 <= i < |NonBlank(lines)| ==> Without(NonBlank(lines)[i], '\n')
  {
    hide IsSpace, Without;
    if lines != [] {
      NonBlankTrimmed(lines[1..]);
      KeptLine(lines[0]);
    }
  }

  lemma {:induction false} NonBlankAppend(a: seq<string>, b: seq<string>)
    ensures NonBlank(a + b) == NonBlank(a) + NonBlank(b)
  {
    hide Kept;
    if a == [] {
      assert a + b == b;
    } else {
      NonBlankAppend(a[1..], b);
      assert (a + b)[1..] == a[1..] + b;
    }
  }

  /** Trimming one line, or dropping it when it is blank, changes nothing in the end. */
  lemma NonBlankMiddle(before: seq<string>, line: string, rest: seq<string>)
    requires NonBlank(before) == before
    ensures var t := TrimRight(line);
            if t == "" then NonBlank(before + rest) == NonBlank(before + [line] + rest)
            else NonBlank(before + [t] + rest) == NonBlank(before + [line] + rest) && NonBlank(before + [t]) == before + [t]
  {
    hide *;
    var t := TrimRight(line);
    KeptIs(line);
    NonBlankAppend(before, rest);
    NonBlankInsert(before, line, rest);
    if t == "" {
      assert NonBlank(before) + Kept(line) == NonBlank(before);
    } else {
      NonBlankInsert(before, t, rest);
      NonBlankAppend(before, [t]);
      NonBlankOne(t);
    }
  }

  lemma KeptIs(line: string)
    ensures var t := TrimRight(line);
            if t == "" then Kept(line) == [] else Kept(line) == [t] && Kept(t) == [t]
  {
    hide IsSpace;
    TrimmedOnce(line);
  }

  lemma NonBlankOne(line: string)
    ensures NonBlank([line]) == Kept(line)
  {
    hide Kept;
    assert NonBlank([line]) == Kept(line) + NonBlank([line][1..]);
  }

  lemma NonBlankInsert(before: seq<string>, line: string, rest: seq<string>)
    ensures NonBlank(before + [line] + rest) == NonBlank(before) + Kept(line) + NonBlank(rest)
  {
    hide *;
    NonBlankAppend(before + [line], rest);
    NonBlankAppend(before, [line]);
    NonBlankOne(line);
  }

  lemma TrimmedOnce(line: string)
    ensures TrimRight(TrimRight(line)) == TrimRight(line)
  {
  }

  lemma {:induction false} TrimmedStays(lines: seq<string>)
    requires Trimmed(lines)
    ensures NonBlank(lines) == lines
  {
    if lines != [] { TrimmedStays(lines[1..]); }
  }

  // ---------- the Go function ----------

  method TrimSurroundingWhitespace(query: string) returns (r: string)
    ensures NormalForm(query, r)
  {
    var lines := Split(query, '\n');
    if |lines| == 1 { return TrimSpace(query); }
    ghost var all := lines;
    lines := TrimLines(lines);
    NonBlankTrimmed(all);
    if |lines| == 0 { return ""; }
    lines := RemoveMargin(lines);
    r := Join(lines, '\n');
  }

  /** Trims each line at its end and deletes it when nothing is left. */
  method TrimLines(query: seq<string>) returns (lines: seq<string>)
    ensures lines == NonBlank(query)
  {
    hide TrimRight, IsSpace, NonBlank;
    lines := query;
    var i := 0;
    NonBlankEmpty();
    assert lines[..0] == [];
    while i < |lines|
      invariant 0 <= i <= |lines|
      invariant NonBlank(lines[..i]) == lines[..i] && NonBlank(lines) == NonBlank(query)
      decreases |lines| - i
    {
      ghost var before, rest := lines[..i], lines[i + 1..];
      assert lines == before + [lines[i]] + rest;
      NonBlankMiddle(before, lines[i], rest);
      lines := lines[i := TrimRight(lines[i])];
      if lines[i] == "" {
        lines := lines[..i] + lines[i + 1..];
        assert lines == before + rest && lines[..i] == before;
      } else {
        assert lines == before + [lines[i]] + rest && lines[..i + 1] == before + [lines[i]];
        i := i + 1;
      }
    }
    assert lines[..i] == lines;
  }

  lemma NonBlankEmpty()
    ensures NonBlank([]) == []
  {
  }

  /** Takes the first character off all lines as long as it is whitespace and the same in each. */
  method RemoveMargin(trimmed: seq<string>) returns (lines: seq<string>)
    requires trimmed != [] && Trimmed(trimmed)
    ensures WithoutMargin(trimmed, lines)
  {
    lines := trimmed;
    ghost var n := 0;
    var first := lines[0][0];
    while IsSpace(first)
      invariant CommonMargin(trimmed, n) && lines == Dropped(trimmed, n)
      invariant Trimmed(lines) && first == lines[0][0]
      decreases |lines[0]|
    {
      var identical := true;
      var i := 1;
      while i < |lines|
        invariant 1 <= i <= |lines|
        invariant identical && forall j :: 0 <= j < i ==> lines[j][0] == first
      {
        if lines[i][0] != first {
          identical := false;
          break;
        }
        i := i + 1;
      }
      if !identical { break; }
      MarginGrows(trimmed, n, first);
      lines := DropFirst(lines);
      n := n + 1;
      first := lines[0][0];
    }
    MarginEnds(trimmed, n);
  }

  method DropFirst(lines: seq<string>) returns (r: seq<string>)
    requires forall i :: 0 <= i < |lines| ==> lines[i] != ""
    ensures |r| == |lines| && forall i :: 0 <= i < |lines| ==> r[i] == lines[i][1..]
  {
    r := lines;
    for i := 0 to |lines|
      invariant |r| == |lines|
      invariant forall j :: 0 <= j < |lines| ==> r[j] == if j < i then lines[j][1..] else lines[j]
    {
      r := r[i := r[i][1..]];
    }
  }

  lemma MarginGrows(lines: seq<string>, n: nat, first: char)
    requires lines != [] && Trimmed(lines) && CommonMargin(lines, n) && IsSpace(first)
    requires forall i :: 0 <= i < |lines| ==> n < |lines[i]| && Dropped(lines, n)[i][0] == first
    ensures CommonMargin(lines, n + 1)
    ensures forall i :: 0 <= i < |lines| ==> n + 1 < |lines[i]|
  {
    forall i | 0 <= i < |lines| ensures SharesMargin(lines[0], lines[i], n + 1) && n + 1 < |lines[i]| {
      assert SharesMargin(lines[0], lines[i], n);
      assert Dropped(lines, n)[i][0] == first && Dropped(lines, n)[0][0] == first;
      assert lines[i][..n + 1] == lines[i][..n] + [first] && lines[0][..n + 1] == lines[0][..n] + [first];
    }
  }

  lemma MarginEnds(lines: seq<string>, n: nat)
    requires lines != [] && Trimmed(lines) && CommonMargin(lines, n)
    requires forall i :: 0 <= i < |lines| ==> Dropped(lines, n)[i] != ""
    requires var first := Dropped(lines, n)[0][0];
             !IsSpace(first) || exists j :: 0 <= j < |lines| && Dropped(lines, n)[j][0] != first
    ensures LongestMargin(lines, n)
  {
    var first := Dropped(lines, n)[0][0];
    var j := 0;
    if IsSpace(first) { j :| 0 <= j < |lines| && Dropped(lines, n)[j][0] != first; }
    if SharesMargin(lines[0], lines[j], n + 1) { SharesNext(lines[0], lines[j], n); }
  }

  lemma SharesNext(first: string, line: string, n: nat)
    requires SharesMargin(first, line, n + 1)
    ensures line[n] == first[n] && IsSpace(line[n])
  {
    assert line[n] == line[..n + 1][n] && first[n] == first[..n + 1][n];
  }

  // ---------- the normal form is reached once and for all ----------

  lemma {:induction false} SplitJoin(parts: seq<string>, sep: char)
    requires parts != [] && forall i :: 0 <= i < |parts| ==> Without(parts[i], sep)
    ensures Split(Join(parts, sep), sep) == parts
  {
    if |parts| == 1 {
      SplitNone(parts[0], sep);
    } else {
      assert forall i :: 0 <= i < |parts[1..]| ==> parts[1..][i] == parts[i + 1];
      SplitJoin(parts[1..], sep);
      SplitPrefix(parts[0], [sep] + Join(parts[1..], sep), sep);
      assert ([sep] + Join(parts[1..], sep))[1..] == Join(parts[1..], sep);
      assert Join(parts, sep) == parts[0] + ([sep] + Join(parts[1..], sep));
      assert Split([sep] + Join(parts[1..], sep), sep) == [""] + parts[1..];
      assert parts[0] + "" == parts[0] && parts == [parts[0]] + parts[1..];
    }
  }

  lemma SplitNone(s: string, sep: char)
    requires sep !in s
    ensures Split(s, sep) == [s]
  {
    if s != "" {
      SplitNone(s[1..], sep);
      assert [s[0]] + s[1..] == s;
    }
  }

  lemma {:induction false} SplitPrefix(a: string, b: string, sep: char)
    requires sep !in a
    ensures Split(a + b, sep) == [a + Split(b, sep)[0]] + Split(b, sep)[1..]
  {
    if a == "" {
      assert a + b == b && "" + Split(b, sep)[0] == Split(b, sep)[0];
    } else {
      SplitPrefix(a[1..], b, sep);
      assert (a + b)[1..] == a[1..] + b;
      var first := Split(b, sep)[0];
      assert [a[0]] + (a[1..] + first) == a + first;
      assert Split(a + b, sep) == [[a[0]] + (a[1..] + first)] + ([a[1..] + first] + Split(b, sep)[1..])[1..];
    }
  }

  /** A line that neither begins nor ends in whitespace is left alone. */
  lemma TrimSpaceKeeps(s: string)
    requires s == "" || (!IsSpace(s[0]) && !IsSpace(s[|s| - 1]))
    ensures TrimSpace(s) == s
  {
  }

  /** TrimSpace takes whitespace off both ends, all of it, and nothing else. */
  lemma TrimSpaceTrims(s: string) returns (front: string, back: string)
    ensures s == front + TrimSpace(s) + back
    ensures forall i :: 0 <= i < |front| ==> IsSpace(front[i])
    ensures forall i :: 0 <= i < |back| ==> IsSpace(back[i])
    ensures var r := TrimSpace(s); r == "" || (!IsSpace(r[0]) && !IsSpace(r[|r| - 1]))
  {
    hide IsSpace, TrimRight, TrimLeft;
    var right := TrimRight(s);
    front := TrimLeftTakes(right);
    back := s[|right|..];
    assert s == right + back;
    if TrimSpace(s) != "" {
      assert right[|right| - 1] == TrimSpace(s)[|TrimSpace(s)| - 1];
    }
  }

  lemma {:induction false} TrimLeftTakes(s: string) returns (front: string)
    ensures s == front + TrimLeft(s)
    ensures forall i :: 0 <= i < |front| ==> IsSpace(front[i])
    ensures TrimLeft(s) != "" ==> !IsSpace(TrimLeft(s)[0])
  {
    hide IsSpace;
    front := "";
    if s != "" && IsSpace(s[0]) {
      var rest := TrimLeftTakes(s[1..]);
      front := [s[0]] + rest;
      assert s == [s[0]] + s[1..];
    }
  }

  /** The longest margin is unique, so the normal form is. */
  lemma MarginUnique(lines: seq<string>, m: nat, n: nat)
    requires LongestMargin(lines, m) && LongestMargin(lines, n)
    ensures m == n
  {
    if m < n { MarginShorter(lines, m + 1, n); }
    if n < m { MarginShorter(lines, n + 1, m); }
  }

  lemma MarginShorter(lines: seq<string>, m: nat, n: nat)
    requires m <= n && CommonMargin(lines, n)
    ensures CommonMargin(lines, m)
  {
    forall i | 0 <= i < |lines| ensures SharesMargin(lines[0], lines[i], m) {
      assert SharesMargin(lines[0], lines[i], n);
      assert lines[i][..m] == lines[i][..n][..m] && lines[0][..m] == lines[0][..n][..m];
    }
  }

  lemma NormalFormUnique(query: string, a: string, b: string)
    requires NormalForm(query, a) && NormalForm(query, b)
    ensures a == b
  {
    var lines := NonBlank(Split(query, '\n'));
    if '\n' in query && lines != [] {
      var x :| WithoutMargin(lines, x) && a == Join(x, '\n');
      var y :| WithoutMargin(lines, y) && b == Join(y, '\n');
      var m :| LongestMargin(lines, m) && x == Dropped(lines, m);
      var n :| LongestMargin(lines, n) && y == Dropped(lines, n);
      MarginUnique(lines, m, n);
    }
  }

  lemma MarginInside(first: string, line: string, n: nat)
    requires SharesMargin(first, line, n) && line != "" && !IsSpace(line[|line| - 1])
    ensures n < |line|
  {
  }

  /** Once the longest margin is gone, there is none left, and the lines still are trimmed. */
  lemma NoMarginLeft(lines: seq<string>, n: nat)
    requires lines != [] && Trimmed(lines) && LongestMargin(lines, n)
    ensures Trimmed(Dropped(lines, n)) && LongestMargin(Dropped(lines, n), 0)
  {
    var left := Dropped(lines, n);
    forall i | 0 <= i < |left| ensures left[i] != "" && left[i][|left[i]| - 1] == lines[i][|lines[i]| - 1] {
      MarginInside(lines[0], lines[i], n);
    }
    if CommonMargin(left, 1) { MarginBuilds(lines, n); }
  }

  lemma MarginBuilds(lines: seq<string>, n: nat)
    requires CommonMargin(lines, n) && CommonMargin(Dropped(lines, n), 1)
    ensures CommonMargin(lines, n + 1)
  {
    var left := Dropped(lines, n);
    forall i | 0 <= i < |lines| ensures SharesMargin(lines[0], lines[i], n + 1) {
      assert SharesMargin(left[0], left[i], 1) && SharesMargin(lines[0], lines[i], n);
      SharesNext(left[0], left[i], 0);
      assert lines[i][n] == left[i][0] && lines[0][n] == left[0][0];
      assert lines[i][..n + 1] == lines[i][..n] + [lines[i][n]] && lines[0][..n + 1] == lines[0][..n] + [lines[0][n]];
    }
  }

  lemma NoMarginSingle(line: string)
    requires line != "" && !SharesMargin(line, line, 1)
    ensures !IsSpace(line[0])
  {
  }

  lemma OneLineStable(line: string)
    requires Without(line, '\n') && line != "" && !IsSpace(line[|line| - 1]) && LongestMargin([line], 0)
    ensures NormalForm(line, line)
  {
    hide IsSpace, TrimSpace, Split, NonBlank;
    assert [line][0] == line;
    NoMarginSingle(line);
    TrimSpaceKeeps(line);
  }

  lemma MultiLineStable(lines: seq<string>)
    requires lines != [] && Trimmed(lines) && LongestMargin(lines, 0)
    requires forall i :: 0 <= i < |lines| ==> Without(lines[i], '\n')
    ensures NormalForm(Join(lines, '\n'), Join(lines, '\n'))
  {
    hide IsSpace, TrimSpace, Split, NonBlank, LongestMargin;
    if |lines| == 1 {
      assert lines == [lines[0]] && Join(lines, '\n') == lines[0];
      OneLineStable(lines[0]);
    } else {
      hide Join;
      SplitJoin(lines, '\n');
      TrimmedStays(lines);
      NoneDropped(lines);
      assert WithoutMargin(lines, lines);
    }
  }

  lemma NoneDropped(lines: seq<string>)
    requires LongestMargin(lines, 0)
    ensures Dropped(lines, 0) == lines
  {
  }

  lemma SingleLineNormal(query: string)
    requires '\n' !in query
    ensures NormalForm(TrimSpace(query), TrimSpace(query))
  {
    hide IsSpace, Split, NonBlank, Join;
    var front, back := TrimSpaceTrims(query);
    TrimSpaceKeeps(TrimSpace(query));
  }

  lemma MultiLineNormal(lines: seq<string>, left: seq<string>)
    requires lines != [] && Trimmed(lines) && WithoutMargin(lines, left)
    requires forall i :: 0 <= i < |lines| ==> Without(lines[i], '\n')
    ensures NormalForm(Join(left, '\n'), Join(left, '\n'))
  {
    var n :| LongestMargin(lines, n) && left == Dropped(lines, n);
    hide IsSpace, TrimSpace, Split, NonBlank, Join, LongestMargin;
    NoMarginLeft(lines, n);
    MultiLineStable(left);
  }

  /** Trimming twice is trimming once: the normal form is its own normal form, and no other. */
  lemma TrimIsIdempotent(query: string, once: string, twice: string)
    requires NormalForm(query, once) && NormalForm(once, twice)
    ensures twice == once
  {
    hide IsSpace, Split, NonBlank, Join, WithoutMargin, Trimmed;
    assert NormalForm(once, once) by {
      if '\n' !in query {
        SingleLineNormal(query);
      } else {
        var lines := NonBlank(Split(query, '\n'));
        NonBlankTrimmed(Split(query, '\n'));
        if lines == [] {
          SingleLineNormal("");
        } else {
          var left :| WithoutMargin(lines, left) && once == Join(left, '\n');
          MultiLineNormal(lines, left);
        }
      }
    }
    NormalFormUnique(once, once, twice);
  }

  // ---------- what trimming keeps ----------

  /** The characters that are not whitespace. */
  function Ink(s: string): string {
    if s == "" then "" else InkOf(s[0]) + Ink(s[1..])
  }

  function InkOf(c: char): string { if IsSpace(c) then "" else [c] }

  function InkOfLines(lines: seq<string>): string {
    if lines == [] then "" else Ink(lines[0]) + InkOfLines(lines[1..])
  }

  lemma {:induction false} InkAppend(a: string, b: string)
    ensures Ink(a + b) == Ink(a) + Ink(b)
  {
    hide InkOf;
    if a == "" {
      assert a + b == b;
    } else {
      InkAppend(a[1..], b);
      InkFirst(a[0], a[1..] + b);
      assert [a[0]] + (a[1..] + b) == a + b;
    }
  }

  lemma InkFirst(c: char, s: string)
    ensures Ink([c] + s) == InkOf(c) + Ink(s)
  {
    hide InkOf;
    assert ([c] + s)[1..] == s;
  }

  lemma {:induction false} NoInk(s: string)
    requires forall i :: 0 <= i < |s| ==> IsSpace(s[i])
    ensures Ink(s) == ""
  {
    hide IsSpace;
    if s != "" { NoInk(s[1..]); }
  }

  lemma InkOfRight(line: string)
    ensures Ink(TrimRight(line)) == Ink(line)
  {
    hide IsSpace, Ink;
    var right := TrimRight(line);
    NoInk(line[|right|..]);
    InkAppend(right, line[|right|..]);
    assert line == right + line[|right|..];
  }

  lemma {:induction false} InkOfNonBlank(lines: seq<string>)
    ensures InkOfLines(NonBlank(lines)) == InkOfLines(lines)
  {
    hide IsSpace, TrimRight;
    if lines != [] {
      InkOfRight(lines[0]);
      InkOfNonBlank(lines[1..]);
      if TrimRight(lines[0]) == "" {
        assert Ink(lines[0]) == "" && NonBlank(lines) == NonBlank(lines[1..]);
      } else {
        assert NonBlank(lines)[0] == TrimRight(lines[0]) && NonBlank(lines)[1..] == NonBlank(lines[1..]);
      }
    }
  }

  lemma {:induction false} InkOfSplit(s: string)
    ensures InkOfLines(Split(s, '\n')) == Ink(s)
  {
    if s != "" {
      InkOfSplit(s[1..]);
      var rest := Split(s[1..], '\n');
      if s[0] == '\n' {
        assert Split(s, '\n')[1..] == rest;
      } else {
        assert Split(s, '\n')[1..] == rest[1..];
        InkAppend([s[0]], rest[0]);
      }
    }
  }

  lemma {:induction false} InkOfJoin(lines: seq<string>)
    ensures Ink(Join(lines, '\n')) == InkOfLines(lines)
  {
    if |lines| > 1 {
      InkOfJoin(lines[1..]);
      InkAppend(lines[0] + ['\n'], Join(lines[1..], '\n'));
      InkAppend(lines[0], ['\n']);
      NoInk(['\n']);
    } else if |lines| == 1 {
      assert InkOfLines(lines[1..]) == "";
    }
  }

  lemma InkOfRest(first: string, line: string, n: nat)
    requires SharesMargin(first, line, n)
    ensures Ink(line[n..]) == Ink(line)
  {
    hide IsSpace, Ink;
    NoInk(line[..n]);
    InkAppend(line[..n], line[n..]);
    assert line == line[..n] + line[n..];
  }

  lemma {:induction false} InkOfEach(a: seq<string>, b: seq<string>)
    requires |a| == |b| && forall i :: 0 <= i < |a| ==> Ink(a[i]) == Ink(b[i])
    ensures InkOfLines(a) == InkOfLines(b)
  {
    hide Ink;
    if a != [] { InkOfEach(a[1..], b[1..]); }
  }

  lemma InkOfDropped(lines: seq<string>, n: nat)
    requires CommonMargin(lines, n)
    ensures InkOfLines(Dropped(lines, n)) == InkOfLines(lines)
  {
    hide IsSpace, Ink, InkOfLines, SharesMargin;
    forall i | 0 <= i < |lines| ensures Ink(Dropped(lines, n)[i]) == Ink(lines[i]) {
      InkOfRest(lines[0], lines[i], n);
    }
    InkOfEach(Dropped(lines, n), lines);
  }

  /** Trimming takes nothing but whitespace: all other characters stay, in their order. */
  lemma OnlyWhitespaceGoes(query: string, r: string)
    requires NormalForm(query, r)
    ensures Ink(r) == Ink(query)
  {
    hide IsSpace, Ink, InkOfLines, Split, NonBlank, Join, CommonMargin;
    if '\n' !in query {
      var front, back := TrimSpaceTrims(query);
      NoInk(front);
      NoInk(back);
      InkAppend(front + r, back);
      InkAppend(front, r);
    } else {
      var lines := NonBlank(Split(query, '\n'));
      InkOfSplit(query);
      InkOfNonBlank(Split(query, '\n'));
      if lines == [] {
        InkOfJoin([]);
        EmptyJoin();
      } else {
        var left :| WithoutMargin(lines, left) && r == Join(left, '\n');
        var n :| LongestMargin(lines, n) && left == Dropped(lines, n);
        InkOfDropped(lines, n);
        InkOfJoin(left);
      }
    }
  }

  lemma EmptyJoin()
    ensures Join([], '\n') == ""
  {
  }
}
