/** Literals and identifiers that the query formatters write, and how a database reads them back. */
module Quoting {
  import opened Common
  import opened Numerals
  import opened Placeholders

  // ---------- quotes inside quotes ----------

  function Doubled(s: string, q: char): string { ReplaceAll(s, [q], [q, q]) }

  /** Reads quoted text up to the closing quote q, a doubled quote standing for one; s is behind the opening quote.
    * Gives the text and what is left behind the closing quote.
    */
  function ReadQuoted(s: string, q: char): Option<(string, string)> {
    if s == "" then None
    else if s[0] != q then Behind(s[0], ReadQuoted(s[1..], q))
    else if |s| > 1 && s[1] == q then Behind(q, ReadQuoted(s[2..], q))
    else Some(("", s[1..]))
  }

  function Behind(c: char, r: Option<(string, string)>): Option<(string, string)> {
    match r
    case None => None
    case Some((text, rest)) => Some(([c] + text, rest))
  }

  lemma {:induction false} ReadDoubled(s: string, q: char, rest: string)
    requires !([q] <= rest)
    ensures ReadQuoted(Doubled(s, q) + [q] + rest, q) == Some((s, rest))
  {
    if s == "" {
      assert Doubled(s, q) + [q] + rest == [q] + rest;
      assert ([q] + rest)[1..] == rest;
      assert rest != "" ==> rest[..1] == [rest[0]];
    } else {
      var tail := Doubled(s[1..], q) + [q] + rest;
      ReadDoubled(s[1..], q, rest);
      assert s == [s[0]] + s[1..];
      if s[0] == q {
        Replaces([q], s[1..], [q, q]);
        assert Doubled(s, q) + [q] + rest == [q, q] + tail;
        assert ([q, q] + tail)[2..] == tail;
      } else {
        Skips(s[0], s[1..], [q], [q, q]);
        assert Doubled(s, q) + [q] + rest == [s[0]] + tail;
        assert ([s[0]] + tail)[1..] == tail;
      }
    }
  }

  // ---------- string literals ----------

  function QuoteStringLiteral(s: string): string { "'" + Doubled(s, '\'') + "'" }

  function ReadLiteral(s: string): Option<(string, string)> {
    if s != "" && s[0] == '\'' then ReadQuoted(s[1..], '\'') else None
  }

  /** A standard literal is read back as the text it was made of, and ends where it was meant to end. */
  lemma LiteralRoundTrip(s: string, rest: string)
    requires !("'" <= rest)
    ensures ReadLiteral(QuoteStringLiteral(s) + rest) == Some((s, rest))
  {
    ReadDoubled(s, '\'', rest);
    assert (QuoteStringLiteral(s) + rest)[1..] == Doubled(s, '\'') + "'" + rest;
  }

  const NUL := '\U{0}'
  const CTRL_Z := '\U{1A}'

  function EscapedByte(c: char): string {
    if c == NUL then "\\0"
    else if c == '\n' then "\\n"
    else if c == '\r' then "\\r"
    else if c == CTRL_Z then "\\Z"
    else if c == '\'' then "\\'"
    else if c == '\"' then "\\\""
    else if c == '\\' then "\\\\"
    else [c]
  }

  function Escaped(s: string): string {
    if s == "" then "" else Escaped(s[..|s| - 1]) + EscapedByte(s[|s| - 1])
  }

  /** The MySQL literal of a byte string, a byte being a character below 256. */
  method FormatMySqlLiteral(s: string) returns (r: string)
    ensures r == "'" + Escaped(s) + "'"
  {
    r := "'";
    for i := 0 to |s|
      invariant r == "'" + Escaped(s[..i])
    {
      assert s[..i + 1][..i] == s[..i];
      var c := s[i];
      if c == NUL { r := r + "\\0"; }
      else if c == '\n' { r := r + "\\n"; }
      else if c == '\r' { r := r + "\\r"; }
      else if c == CTRL_Z { r := r + "\\Z"; }
      else if c == '\'' { r := r + "\\'"; }
      else if c == '\"' { r := r + "\\\""; }
      else if c == '\\' { r := r + "\\\\"; }
      else { r := r + [c]; }
    }
    assert s[..|s|] == s;
    r := r + "'";
  }

  /** What MySQL makes of a character behind a backslash. */
  function Unescaped(c: char): string {
    if c == '0' then [NUL]
    else if c == 'n' then "\n"
    else if c == 'r' then "\r"
    else if c == 'Z' then [CTRL_Z]
    else if c == 't' then "\t"
    else if c == 'b' then ['\U{8}']
    else if c == '%' || c == '_' then ['\\', c]
    else [c]
  }

  function Ahead(t: string, r: Option<(string, string)>): Option<(string, string)> {
    match r
    case None => None
    case Some((text, rest)) => Some((t + text, rest))
  }

  /** Reads a MySQL literal from behind its opening quote: backslash escapes and doubled quotes. */
  function ReadMySql(s: string): Option<(string, string)> {
    if s == "" then None
    else if s[0] == '\\' then (if |s| == 1 then None else Ahead(Unescaped(s[1]), ReadMySql(s[2..])))
    else if s[0] != '\'' then Ahead([s[0]], ReadMySql(s[1..]))
    else if |s| > 1 && s[1] == '\'' then Ahead("'", ReadMySql(s[2..]))
    else Some(("", s[1..]))
  }

  lemma ReadPlainByte(c: char, rest: string)
    requires c != '\\' && c != '\''
    ensures ReadMySql([c] + rest) == Ahead([c], ReadMySql(rest))
  {
    assert ([c] + rest)[1..] == rest;
  }

  lemma ReadEscape(c: char, rest: string)
    ensures ReadMySql(['\\', c] + rest) == Ahead(Unescaped(c), ReadMySql(rest))
  {
    hide Unescaped, Ahead;
    assert (['\\', c] + rest)[2..] == rest;
  }

  lemma ReadByte(c: char, rest: string)
    ensures ReadMySql(EscapedByte(c) + rest) == Ahead([c], ReadMySql(rest))
  {
    hide ReadMySql, Ahead;
    if |EscapedByte(c)| == 2 { ReadEscape(EscapedByte(c)[1], rest); } else { ReadPlainByte(c, rest); }
  }

  lemma AheadTwice(a: string, b: string, r: Option<(string, string)>)
    ensures Ahead(a, Ahead(b, r)) == Ahead(a + b, r) && Ahead("", r) == r
  {
    if r.Some? { assert a + (b + r.value.0) == a + b + r.value.0 && "" + r.value.0 == r.value.0; }
  }

  lemma {:induction false} ReadEscaped(s: string, tail: string)
    ensures ReadMySql(Escaped(s) + tail) == Ahead(s, ReadMySql(tail))
  {
    hide ReadMySql, EscapedByte, Ahead;
    if s == "" {
      assert Escaped(s) + tail == tail;
      AheadTwice("", "", ReadMySql(tail));
    } else {
      var init, last := s[..|s| - 1], s[|s| - 1];
      ReadEscaped(init, EscapedByte(last) + tail);
      ReadByte(last, tail);
      AheadTwice(init, [last], ReadMySql(tail));
      assert Escaped(s) + tail == Escaped(init) + (EscapedByte(last) + tail);
      assert s == init + [last];
    }
  }

  /** Every byte string survives being written as a MySQL literal and read back, whatever stands behind it. */
  lemma MySqlLiteralRoundTrip(s: string, rest: string)
    requires !("'" <= rest)
    ensures ReadMySql(Escaped(s) + "'" + rest) == Some((s, rest))
  {
    ReadEscaped(s, "'" + rest);
    assert Escaped(s) + "'" + rest == Escaped(s) + ("'" + rest);
    assert ("'" + rest)[1..] == rest;
    assert rest != "" ==> rest[..1] == [rest[0]];
    assert ReadMySql("'" + rest) == Some(("", rest));
    assert s + "" == s;
  }

  // ---------- identifiers ----------

  predicate IsLower(c: char) { 'a' <= c <= 'z' }

  predicate IsUpper(c: char) { 'A' <= c <= 'Z' }

  predicate IsLetter(c: char) { IsLower(c) || IsUpper(c) }

  datatype Dialect = MySql | SqlServer | Oracle

  function Open(d: Dialect): char {
    match d case MySql => '`' case SqlServer => '[' case Oracle => '\"'
  }

  function Shut(d: Dialect): char {
    match d case MySql => '`' case SqlServer => ']' case Oracle => '\"'
  }

  /** The characters that EscapeIdentifier leaves without quotes. */
  predicate Bare(d: Dialect, c: char) { IsLower(c) || c == '_' || (d.SqlServer? && IsDigit(c)) }

  function ToLower(s: string): (r: string)
    ensures |r| == |s|
  {
    seq(|s|, i requires 0 <= i < |s| => LowerChar(s[i]))
  }

  function LowerChar(c: char): char { if IsUpper(c) then ((c as int) + 32) as char else c }

  function UpperChar(c: char): char { if IsLower(c) then ((c as int) - 32) as char else c }

  function ToUpper(s: string): (r: string)
    ensures |r| == |s|
  {
    seq(|s|, i requires 0 <= i < |s| => UpperChar(s[i]))
  }

  predicate AllBare(d: Dialect, s: string) { forall i :: 0 <= i < |s| ==> Bare(d, s[i]) }

  /** An identifier that comes out in quotes; reserved holds the dialect's reserved words in lower case. */
  predicate NeedsQuotes(d: Dialect, reserved: set<string>, ident: string) {
    !AllBare(d, ident) || ToLower(ident) in reserved
  }

  function IdentText(d: Dialect, reserved: set<string>, ident: string): string {
    if NeedsQuotes(d, reserved, ident) then [Open(d)] + Doubled(ident, Shut(d)) + [Shut(d)] else ident
  }

  method EscapeIdentifier(d: Dialect, reserved: set<string>, ident: string) returns (r: string)
    ensures r == IdentText(d, reserved, ident)
  {
    var escaped := Doubled(ident, Shut(d));
    DoubledLength(ident, Shut(d));
    var needsQuotes := |escaped| != |ident|;
    if !needsQuotes {
      var i := 0;
      while i < |ident|
        invariant 0 <= i <= |ident| && !needsQuotes
        invariant forall j :: 0 <= j < i ==> Bare(d, ident[j])
      {
        if !Bare(d, ident[i]) {
          needsQuotes := true;
          break;
        }
        i := i + 1;
      }
    }
    if !needsQuotes {
      needsQuotes := ToLower(ident) in reserved;
    }
    if needsQuotes {
      return [Open(d)] + escaped + [Shut(d)];
    }
    return ident;
  }

  lemma {:induction false} DoubledLength(s: string, q: char)
    ensures |Doubled(s, q)| >= |s|
    ensures |Doubled(s, q)| == |s| <==> q !in s
  {
    if s != "" {
      DoubledLength(s[1..], q);
      assert s == [s[0]] + s[1..];
      if s[0] == q { Replaces([q], s[1..], [q, q]); } else { Skips(s[0], s[1..], [q], [q, q]); }
    }
  }

  // ---------- how the databases read identifiers ----------

  /** What may stand in an identifier without quotes: at its beginning, and behind. */
  predicate Starts(d: Dialect, c: char) {
    match d
    case MySql => IsLetter(c) || IsDigit(c) || c == '$' || c == '_'
    case SqlServer => IsLetter(c) || c == '_'
    case Oracle => IsLetter(c)
  }

  predicate Continues(d: Dialect, c: char) {
    || IsLetter(c) || IsDigit(c) || c == '_' || c == '$'
    || (c == '#' && !d.MySql?) || (c == '@' && d.SqlServer?)
  }

  function Fold(d: Dialect, word: string): string { if d.Oracle? then ToUpper(word) else word }

  function Word(d: Dialect, s: string): (w: string)
    ensures w <= s
  {
    if s != "" && Continues(d, s[0]) then [s[0]] + Word(d, s[1..]) else ""
  }

  /** Reads one identifier: the name it stands for, and what is left. A reserved word without quotes is none. */
  function ReadIdentifier(d: Dialect, reserved: set<string>, s: string): Option<(string, string)> {
    if s == "" then None
    else if s[0] == Open(d) then ReadQuoted(s[1..], Shut(d))
    else if !Starts(d, s[0]) then None
    else
      var w := Word(d, s);
      if ToLower(w) in reserved then None else Some((Fold(d, w), s[|w|..]))
  }

  /** The rest that may follow an identifier: neither a character of one nor a closing quote. */
  predicate Ends(d: Dialect, rest: string) { rest == "" || (!Continues(d, rest[0]) && rest[0] != Shut(d)) }

  lemma {:induction false} WordIs(d: Dialect, s: string, rest: string)
    requires (forall i :: 0 <= i < |s| ==> Continues(d, s[i])) && Ends(d, rest)
    ensures Word(d, s + rest) == s
  {
    if s == "" {
      assert s + rest == rest;
    } else {
      WordIs(d, s[1..], rest);
      assert (s + rest)[1..] == s[1..] + rest && s == [s[0]] + s[1..];
    }
  }

  lemma QuotedRoundTrip(d: Dialect, reserved: set<string>, ident: string, rest: string)
    requires NeedsQuotes(d, reserved, ident) && Ends(d, rest)
    ensures ReadIdentifier(d, reserved, IdentText(d, reserved, ident) + rest) == Some((ident, rest))
  {
    hide ReadQuoted, Doubled, NeedsQuotes, Word, Starts;
    assert !([Shut(d)] <= rest) by { assert rest != "" ==> [Shut(d)][0] == rest[0] || rest[0] != Shut(d); }
    ReadDoubled(ident, Shut(d), rest);
    var text := IdentText(d, reserved, ident) + rest;
    assert text[0] == Open(d) && text[1..] == Doubled(ident, Shut(d)) + [Shut(d)] + rest;
  }

  /** A reserved word, in whatever case it is written, is no identifier where it stands on its own, and what is written
    * for it is read back as it was, in each dialect.
    */
  lemma ReservedIsQuoted(d: Dialect, reserved: set<string>, word: string, rest: string)
    requires ToLower(word) in reserved && word != "" && (forall i :: 0 <= i < |word| ==> Continues(d, word[i])) && Ends(d, rest)
    ensures ReadIdentifier(d, reserved, word + rest) == None
    ensures ReadIdentifier(d, reserved, IdentText(d, reserved, word) + rest) == Some((word, rest))
  {
    WordIs(d, word, rest);
    QuotedRoundTrip(d, reserved, word, rest);
  }

  lemma BareReads(d: Dialect, reserved: set<string>, ident: string, rest: string)
    requires ident != "" && !NeedsQuotes(d, reserved, ident) && Starts(d, ident[0]) && Ends(d, rest)
    ensures ReadIdentifier(d, reserved, IdentText(d, reserved, ident) + rest) == Some((Fold(d, ident), rest))
  {
    WordIs(d, ident, rest);
    assert (ident + rest)[|ident|..] == rest;
  }

  // ---------- table names ----------

  predicate NameStart(d: Dialect, c: char) {
    match d
    case MySql => IsLetter(c) || IsDigit(c) || c == '$' || c == '_'
    case _ => IsLetter(c) || c == '_'
  }

  predicate NameRest(d: Dialect, c: char) {
    || IsLetter(c) || IsDigit(c) || c == '_'
    || (match d case MySql => c == '$' case SqlServer => c == ' ' case Oracle => c == '#' || c == '$')
  }

  /** One part of a name, as the dialect's regular expressions have it; a column name is one part. */
  predicate IsPart(d: Dialect, s: string) {
    && 0 < |s| <= (if d.MySql? then 64 else 128)
    && NameStart(d, s[0]) && forall i :: 0 < i < |s| ==> NameRest(d, s[i])
  }

  predicate IsParts(d: Dialect, parts: seq<string>) {
    (|parts| == 1 || |parts| == 2) && forall i :: 0 <= i < |parts| ==> IsPart(d, parts[i])
  }

  function Dotted(parts: seq<string>): string
    requires |parts| == 1 || |parts| == 2
  {
    if |parts| == 1 then parts[0] else parts[0] + "." + parts[1]
  }

  /** A name that the table regular expression matches. */
  ghost predicate IsTableName(d: Dialect, name: string) { exists parts :: IsParts(d, parts) && name == Dotted(parts) }

  /** strings.Cut at the first dot. */
  function Cut(name: string): seq<string> {
    if name == "" then [""]
    else if name[0] == '.' then ["", name[1..]]
    else
      var rest := Cut(name[1..]);
      [[name[0]] + rest[0]] + rest[1..]
  }

  lemma {:induction false} CutDotted(parts: seq<string>)
    requires |parts| == 1 || |parts| == 2
    requires '.' !in parts[0]
    ensures Cut(Dotted(parts)) == parts
    decreases |parts[0]|
  {
    var name := Dotted(parts);
    if parts[0] == "" {
      if |parts| == 2 { assert name == "." + parts[1] && name[1..] == parts[1]; }
    } else {
      var less := [parts[0][1..]] + parts[1..];
      CutDotted(less);
      assert name[1..] == Dotted(less);
      assert [parts[0][0]] + parts[0][1..] == parts[0];
    }
  }

  lemma {:induction false} CutIs(name: string)
    ensures var parts := Cut(name);
            (|parts| == 1 || |parts| == 2) && name == Dotted(parts) && '.' !in parts[0]
  {
    if name != "" && name[0] != '.' { CutIs(name[1..]); }
  }

  lemma NoDotInPart(d: Dialect, s: string)
    requires IsPart(d, s)
    ensures '.' !in s
  {
  }

  method FormatTableName(d: Dialect, reserved: set<string>, name: string) returns (r: Option<string>)
    ensures r.Some? <==> IsTableName(d, name)
    ensures forall parts :: IsParts(d, parts) && name == Dotted(parts) ==> r == Some(TableText(d, reserved, parts))
  {
    var parts := Cut(name);
    CutIs(name);
    forall other | IsParts(d, other) && name == Dotted(other) ensures other == parts {
      NoDotInPart(d, other[0]);
      CutDotted(other);
    }
    if |parts| == 2 {
      if !IsPart(d, parts[0]) || !IsPart(d, parts[1]) { return None; }
      assert IsParts(d, parts);
      var schema := EscapeIdentifier(d, reserved, parts[0]);
      var table := EscapeIdentifier(d, reserved, parts[1]);
      return Some(schema + "." + table);
    }
    if !IsPart(d, name) { return None; }
    assert IsParts(d, parts);
    var table := EscapeIdentifier(d, reserved, name);
    return Some(table);
  }

  function TableText(d: Dialect, reserved: set<string>, parts: seq<string>): string
    requires |parts| == 1 || |parts| == 2
  {
    if |parts| == 1 then IdentText(d, reserved, parts[0])
    else IdentText(d, reserved, parts[0]) + "." + IdentText(d, reserved, parts[1])
  }

  /** Reads a table name to its end: the parts that it names. */
  function ReadTable(d: Dialect, reserved: set<string>, s: string): Option<seq<string>> {
    match ReadIdentifier(d, reserved, s)
    case None => None
    case Some((first, rest)) =>
      if rest == "" then Some([first])
      else if rest[0] != '.' then None
      else
        match ReadIdentifier(d, reserved, rest[1..])
        case None => None
        case Some((second, end)) => if end == "" then Some([first, second]) else None
  }

  /** Whether the database takes the written part for the name it was made of. */
  predicate Kept(d: Dialect, reserved: set<string>, part: string) { d.Oracle? ==> NeedsQuotes(d, reserved, part) }

  lemma PartReadsBack(d: Dialect, reserved: set<string>, part: string, rest: string)
    requires IsPart(d, part) && Ends(d, rest)
    ensures var r := ReadIdentifier(d, reserved, IdentText(d, reserved, part) + rest);
            && (Kept(d, reserved, part) ==> r == Some((part, rest)))
            && (!Kept(d, reserved, part) ==> r == if part[0] == '_' then None else Some((ToUpper(part), rest)))
  {
    if NeedsQuotes(d, reserved, part) {
      QuotedRoundTrip(d, reserved, part, rest);
    } else {
      assert Bare(d, part[0]);
      if d.Oracle? && part[0] == '_' {
        assert (part + rest)[0] == '_';
      } else {
        BareReads(d, reserved, part, rest);
      }
    }
  }

  lemma UpperDiffers(part: string)
    requires part != "" && IsLower(part[0])
    ensures ToUpper(part) != part
  {
    assert ToUpper(part)[0] == UpperChar(part[0]);
  }

  predicate AllKept(d: Dialect, reserved: set<string>, parts: seq<string>)
    requires |parts| == 1 || |parts| == 2
  {
    Kept(d, reserved, parts[0]) && (|parts| == 2 ==> Kept(d, reserved, parts[1]))
  }

  /** Every accepted table name, written and read, names the same parts, except that Oracle folds a part without
    * quotes to upper case: there it holds if and only if all parts come out in quotes.
    */
  lemma TableRoundTrip(d: Dialect, reserved: set<string>, parts: seq<string>)
    requires IsParts(d, parts)
    ensures ReadTable(d, reserved, TableText(d, reserved, parts)) == Some(parts) <==> AllKept(d, reserved, parts)
  {
    hide ReadIdentifier, IdentText, Kept, NeedsQuotes, ToUpper;
    var first := IdentText(d, reserved, parts[0]);
    var rest := if |parts| == 1 then "" else "." + IdentText(d, reserved, parts[1]);
    assert TableText(d, reserved, parts) == first + rest;
    PartReadsBack(d, reserved, parts[0], rest);
    NotKept(d, reserved, parts[0]);
    if |parts| == 2 {
      var second := IdentText(d, reserved, parts[1]);
      assert rest[1..] == second && second == second + "";
      PartReadsBack(d, reserved, parts[1], "");
      NotKept(d, reserved, parts[1]);
      assert parts == [parts[0], parts[1]];
    } else {
      assert parts == [parts[0]];
    }
    var back := ReadTable(d, reserved, first + rest);
    assert back == Some(parts) ==> back.value[0] == parts[0] && (|parts| == 2 ==> back.value[1] == parts[1]);
  }

  lemma NotKept(d: Dialect, reserved: set<string>, part: string)
    requires IsPart(d, part)
    ensures !Kept(d, reserved, part) && part[0] != '_' ==> ToUpper(part) != part
  {
    if !Kept(d, reserved, part) && part[0] != '_' {
      assert Bare(d, part[0]);
      UpperDiffers(part);
    }
  }

  /** So two names that MySQL or SQL Server accepts are never written alike. */
  lemma NamesStayApart(d: Dialect, reserved: set<string>, a: seq<string>, b: seq<string>)
    requires IsParts(d, a) && IsParts(d, b) && !d.Oracle?
    requires TableText(d, reserved, a) == TableText(d, reserved, b)
    ensures a == b
  {
    TableRoundTrip(d, reserved, a);
    TableRoundTrip(d, reserved, b);
  }
}
