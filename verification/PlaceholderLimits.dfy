/** Where replacing placeholders one after the other differs from substituting them all at once. */
module PlaceholderLimits {
  import opened Common
  import opened Numerals
  import opened Placeholders

  function Count(z: char, s: string): nat { multiset(s)[z] }

  lemma CountAppend(z: char, a: string, b: string)
    ensures Count(z, a + b) == Count(z, a) + Count(z, b)
  {
    assert multiset(a + b) == multiset(a) + multiset(b);
  }

  /** The number of positions at which pat occurs in s. */
  function Occurrences(s: string, pat: string): nat {
    if s == "" then 0 else (if pat <= s then 1 else 0) + Occurrences(s[1..], pat)
  }

  lemma {:induction false} NoneInside(t: string, s: string, pat: string)
    requires pat != "" && pat[0] !in t
    ensures Occurrences(t + s, pat) == Occurrences(s, pat)
  {
    if t == "" {
      assert t + s == s;
    } else {
      assert (t + s)[0] != pat[0];
      assert (t + s)[1..] == t[1..] + s;
      NoneInside(t[1..], s, pat);
    }
  }

  /** Replacing a pattern without z by one z adds as many z as there are occurrences. */
  lemma {:induction false} ReplacingAdds(s: string, pat: string, z: char)
    requires pat != "" && pat[0] !in pat[1..] && z !in pat
    ensures Count(z, ReplaceAll(s, pat, [z])) == Count(z, s) + Occurrences(s, pat)
    decreases |s|
  {
    hide Count;
    if s == "" {
    } else if pat <= s {
      var rest := s[|pat|..];
      ReplacingAdds(rest, pat, z);
      CountsMatch(pat, rest, z, ReplaceAll(rest, pat, [z]));
      assert s == pat + rest && s[1..] == pat[1..] + rest;
      NoneInside(pat[1..], rest, pat);
    } else {
      ReplacingAdds(s[1..], pat, z);
      CountAppend(z, [s[0]], s[1..]);
      CountAppend(z, [s[0]], ReplaceAll(s[1..], pat, [z]));
      assert s == [s[0]] + s[1..];
    }
  }

  lemma CountsMatch(pat: string, rest: string, z: char, after: string)
    requires z !in pat
    ensures Count(z, pat + rest) == Count(z, rest) && Count(z, [z] + after) == 1 + Count(z, after)
  {
    CountAppend(z, pat, rest);
    CountAppend(z, [z], after);
  }

  lemma {:induction false} ErasingKeeps(s: string, pat: string, z: char)
    requires pat != "" && z !in pat
    ensures Count(z, ReplaceAll(s, pat, "")) == Count(z, s)
    decreases |s|
  {
    if s == "" {
    } else if pat <= s {
      var rest := s[|pat|..];
      ErasingKeeps(rest, pat, z);
      assert s == pat + rest;
      CountAppend(z, pat, rest);
      assert "" + ReplaceAll(rest, pat, "") == ReplaceAll(rest, pat, "");
    } else {
      ErasingKeeps(s[1..], pat, z);
      assert s == [s[0]] + s[1..];
      CountAppend(z, [s[0]], s[1..]);
      CountAppend(z, [s[0]], ReplaceAll(s[1..], pat, ""));
    }
  }

  lemma {:induction false} DescendErases(prefix: string, s: string, texts: seq<string>, k: nat, z: char)
    requires prefix != "" && k <= |texts| && z !in prefix && !IsDigit(z)
    requires forall m :: 0 <= m < k ==> texts[m] == ""
    ensures Count(z, Descend(prefix, s, texts, k)) == Count(z, s)
    decreases k
  {
    if k > 0 {
      ErasingKeeps(s, prefix + Itoa(k), z);
      DescendErases(prefix, ReplaceAll(s, prefix + Itoa(k), texts[k - 1]), texts, k - 1, z);
    }
  }

  /** Texts that tell: 0 and a mark for argument j, nothing below argument k, the mark for all others. */
  function Telling(n: nat, j: nat, k: nat, z: char): (texts: seq<string>)
    ensures |texts| == n
    ensures forall m :: 0 <= m < n ==> texts[m] == if m == j then ['0', z] else if m < k then "" else [z]
  {
    seq(n, m requires 0 <= m < n => if m == j then ['0', z] else if m < k then "" else [z])
  }

  predicate Furthest(q: seq<Token>, p: nat) {
    Far(q, p) && forall r :: 0 <= r < |q| && Far(q, r) ==> q[r].i <= q[p].i
  }

  lemma {:induction false} SomeFurthest(q: seq<Token>, n: nat) returns (p: nat)
    requires n <= |q| && exists r :: 0 <= r < n && Far(q, r)
    ensures p < n && Far(q, p) && forall r :: 0 <= r < n && Far(q, r) ==> q[r].i <= q[p].i
  {
    if exists r :: 0 <= r < n - 1 && Far(q, r) {
      p := SomeFurthest(q, n - 1);
      if Far(q, n - 1) && q[n - 1].i > q[p].i { p := n - 1; }
    } else {
      p := n - 1;
    }
  }

  // ---------- a query with far neighbours, and texts that show it ----------

  /** Up to the step of argument k, the telling texts confuse nothing. */
  lemma {:induction false} TellingReadable(q: seq<Token>, from: nat, p: nat, n: nat, m: nat, z: char)
    requires from <= |q| && Furthest(q, p) && WellRead(q[from..]) && !IsDigit(z)
    requires 10 * q[p].i + 9 < m < n
    requires InRange(q[from..], Telling(n, q[p + 1].i, 10 * q[p].i + 9, z))
    ensures ReadableAt(q[from..], Telling(n, q[p + 1].i, 10 * q[p].i + 9, z), m)
    decreases |q| - from
  {
    var texts := Telling(n, q[p + 1].i, 10 * q[p].i + 9, z);
    if from < |q| {
      assert q[from..][1..] == q[from + 1..];
      TellingReadable(q, from + 1, p, n, m, z);
      TellingEnds(q, from, p, n, m, z);
    }
  }

  lemma ItoaTimesTen(i: nat)
    ensures Itoa(10 * (i + 1)) == Itoa(i + 1) + "0"
  {
  }

  /** Behind a numeral, the telling texts look like one more digit at most, and that a zero. */
  lemma OneZero(i: nat, m: nat, shown: string, more: string, z: char)
    requires i < m && !IsDigit(z) && (shown == [z] || shown == ['0', z])
    requires Itoa(m + 1) <= Itoa(i + 1) + (shown + more)
    ensures shown == ['0', z] && m == 10 * i + 9
  {
    NumeralAhead(i, m, shown + more);
    var tail := Itoa(m + 1)[|Itoa(i + 1)|..];
    assert IsDigit(tail[0]) && tail[0] == shown[0];
    assert (shown + more)[1] == z;
    assert tail == "0";
    ItoaTimesTen(i);
    assert Itoa(m + 1) == Itoa(i + 1) + tail;
    ItoaInjective(m + 1, 10 * (i + 1));
  }

  lemma TellingEnds(q: seq<Token>, from: nat, p: nat, n: nat, m: nat, z: char)
    requires from < |q| && Furthest(q, p) && WellRead(q[from..]) && !IsDigit(z)
    requires 10 * q[p].i + 9 < m < n
    requires InRange(q[from..], Telling(n, q[p + 1].i, 10 * q[p].i + 9, z))
    ensures EndsAt(q[from..], Telling(n, q[p + 1].i, 10 * q[p].i + 9, z), m)
  {
    hide Itoa, AllAtOnce;
    var texts := Telling(n, q[p + 1].i, 10 * q[p].i + 9, z);
    var here := q[from..];
    if Far(q, from) { assert q[from].i <= q[p].i; }
    if !EndsAt(here, texts, m) {
      var i := here[0].i;
      var rest := AllAtOnce(here[1..], texts);
      NumeralAhead(i, m, rest);
      var next := DigitNext(here, texts, i, m, rest);
      assert here[1] == q[from + 1];
      OneZero(i, m, texts[next], AllAtOnce(here[1..][1..], texts), z);
    }
  }

  lemma DigitNext(here: seq<Token>, texts: seq<string>, i: nat, m: nat, rest: string) returns (next: nat)
    requires here != [] && InRange(here, texts) && here[0] == Arg(i) && i < m && WellRead(here)
    requires rest == AllAtOnce(here[1..], texts)
    requires Itoa(i + 1) < Itoa(m + 1) && Itoa(m + 1)[|Itoa(i + 1)|..] <= rest
    ensures |here| > 1 && here[1] == Arg(next) && next < |texts|
    ensures rest == texts[next] + AllAtOnce(here[1..][1..], texts)
  {
    assert IsDigit(rest[0]);
    assert here[1..] != [] && here[1..][0] == here[1];
    assert here[1].Arg? && here[1] in here;
    next := here[1].i;
  }

  // ---------- counting the marks ----------

  function Placed(q: seq<Token>, k: nat): nat {
    if q == [] then 0 else (if q[0] == Arg(k) then 1 else 0) + Placed(q[1..], k)
  }

  /** Substituted at once, the texts leave one mark more per placeholder of argument k than before its step. */
  lemma {:induction false} MarksAtOnce(prefix: string, q: seq<Token>, j: nat, k: nat, n: nat, z: char)
    requires k < j < n && InRange(q, Telling(n, j, k, z)) && z !in prefix && !IsDigit(z)
    ensures var texts := Telling(n, j, k, z);
            Count(z, AllAtOnce(q, texts)) == Count(z, Render(prefix, q, texts, k + 1)) + Placed(q, k)
  {
    if q != [] {
      var texts := Telling(n, j, k, z);
      MarksAtOnce(prefix, q[1..], j, k, n, z);
      CountAppend(z, Final(q[0], texts), AllAtOnce(q[1..], texts));
      CountAppend(z, Piece(prefix, q[0], texts, k + 1), Render(prefix, q[1..], texts, k + 1));
      if q[0].Arg? && q[0].i <= k { NoMarkIn(prefix, q[0].i, z); }
    }
  }

  lemma NoMarkIn(prefix: string, i: nat, z: char)
    requires z !in prefix && !IsDigit(z)
    ensures z !in prefix + Itoa(i + 1) && Count(z, prefix + Itoa(i + 1)) == 0
  {
  }

  /** At its step, the placeholder of argument k occurs at least where the query has it. */
  lemma {:induction false} OccursWherePlaced(prefix: string, q: seq<Token>, texts: seq<string>, k: nat)
    requires InRange(q, texts) && PrefixOk(prefix) && CleanQuery(prefix, q) && CleanTexts(prefix, texts)
    ensures Occurs(Render(prefix, q, texts, k + 1), prefix, k) >= Placed(q, k)
  {
    hide Occurs, Reads, Itoa, Render;
    if q != [] {
      OccursWherePlaced(prefix, q[1..], texts, k);
      OccurrencesBehind(prefix, q, texts, k);
      if q[0] == Arg(k) { OwnPlaceholder(prefix, q, texts, k); }
    }
  }

  lemma HeadOnly(c: char, t: string, s: string, pat: string)
    requires pat != "" && pat[0] !in t
    ensures Occurrences([c] + t + s, pat) == Occurrences(s, pat) + if pat <= [c] + t + s then 1 else 0
  {
    assert ([c] + t + s)[1..] == t + s;
    NoneInside(t, s, pat);
  }

  function Occurs(s: string, prefix: string, k: nat): nat { Occurrences(s, prefix + Itoa(k + 1)) }

  predicate Reads(prefix: string, s: string, k: nat) { prefix + Itoa(k + 1) <= s }

  /** Dropping the first token drops at most the occurrence at the head. */
  lemma OccurrencesBehind(prefix: string, q: seq<Token>, texts: seq<string>, k: nat)
    requires q != [] && InRange(q, texts) && PrefixOk(prefix) && CleanQuery(prefix, q) && CleanTexts(prefix, texts)
    ensures var all, rest := Render(prefix, q, texts, k + 1), Render(prefix, q[1..], texts, k + 1);
            Occurs(all, prefix, k) == Occurs(rest, prefix, k) + if q[0].Arg? && q[0].i <= k && Reads(prefix, all, k) then 1 else 0
  {
    hide Occurrences, Itoa, Final;
    var pat := prefix + Itoa(k + 1);
    var rest := Render(prefix, q[1..], texts, k + 1);
    var piece := Piece(prefix, q[0], texts, k + 1);
    assert Render(prefix, q, texts, k + 1) == piece + rest;
    hide Render;
    if q[0].Arg? && q[0].i <= k {
      var own := Itoa(q[0].i + 1);
      assert piece == prefix + own && piece == [prefix[0]] + piece[1..];
      assert piece[1..] == prefix[1..] + own;
      assert [prefix[0]] + piece[1..] + rest == piece + rest;
      HeadOnly(prefix[0], piece[1..], rest, pat);
    } else {
      CleanPiece(prefix, q, texts, k);
      NoneInside(piece, rest, pat);
    }
  }

  lemma CleanPiece(prefix: string, q: seq<Token>, texts: seq<string>, k: nat)
    requires q != [] && InRange(q, texts) && PrefixOk(prefix) && CleanQuery(prefix, q) && CleanTexts(prefix, texts)
    requires !(q[0].Arg? && q[0].i <= k)
    ensures CleanText(prefix, Piece(prefix, q[0], texts, k + 1))
  {
    if q[0].Arg? { assert q[0] in q; }
  }

  lemma OwnPlaceholder(prefix: string, q: seq<Token>, texts: seq<string>, k: nat)
    requires q != [] && InRange(q, texts) && q[0] == Arg(k)
    ensures Reads(prefix, Render(prefix, q, texts, k + 1), k)
  {
  }

  /** And once more where its number is read into the placeholder in front of the zero. */
  lemma {:induction false} OccursOnceMore(prefix: string, q: seq<Token>, p: nat, n: nat, z: char)
    requires Far(q, p) && q[p + 1].i < n && PrefixOk(prefix) && CleanQuery(prefix, q)
    requires var texts := Telling(n, q[p + 1].i, 10 * q[p].i + 9, z); InRange(q, texts) && CleanTexts(prefix, texts)
    ensures var k := 10 * q[p].i + 9;
            var texts := Telling(n, q[p + 1].i, k, z);
            Occurs(Render(prefix, q, texts, k + 1), prefix, k) > Placed(q, k)
  {
    hide Occurs, Reads, Itoa, Render;
    var k := 10 * q[p].i + 9;
    var texts := Telling(n, q[p + 1].i, k, z);
    OccurrencesBehind(prefix, q, texts, k);
    if p == 0 {
      OccursWherePlaced(prefix, q[1..], texts, k);
      ReadsOn(prefix, q, texts, k);
    } else {
      assert q[1..][p - 1] == q[p] && q[1..][p] == q[p + 1];
      OccursOnceMore(prefix, q[1..], p - 1, n, z);
      if q[0] == Arg(k) { OwnPlaceholder(prefix, q, texts, k); }
    }
  }

  lemma ReadsOn(prefix: string, q: seq<Token>, texts: seq<string>, k: nat)
    requires |q| > 1 && InRange(q, texts) && q[0].Arg? && q[1].Arg? && k == 10 * q[0].i + 9 && q[1].i > k
    requires "0" <= texts[q[1].i]
    ensures Reads(prefix, Render(prefix, q, texts, k + 1), k)
  {
    ItoaTimesTen(q[0].i);
    var own, shown := prefix + Itoa(q[0].i + 1), texts[q[1].i];
    assert q[1..][0] == q[1];
    var rest := Render(prefix, q[1..], texts, k + 1);
    assert rest == shown + Render(prefix, q[1..][1..], texts, k + 1);
    assert "0" <= rest;
    assert prefix + Itoa(k + 1) == own + "0";
    assert own + "0" <= own + rest;
  }

  /** A query with far neighbours is formatted wrongly for some clean texts. */
  lemma FarBreaks(prefix: string, q: seq<Token>, n: nat, z: char) returns (texts: seq<string>)
    requires PrefixOk(prefix) && WellRead(q) && CleanQuery(prefix, q) && !Separated(q)
    requires (forall t :: t in q && t.Arg? ==> t.i < n) && z !in prefix && !IsDigit(z)
    ensures |texts| == n && CleanTexts(prefix, texts)
    ensures Substitute(Numbered(prefix), Written(prefix, q), texts) != AllAtOnce(q, texts)
  {
    hide Count, Render, Descend, AllAtOnce, ReplaceAll, Itoa, Occurs;
    var p := SomeFurthest(q, |q|);
    assert Furthest(q, p) && q[p + 1] in q;
    var j, k := q[p + 1].i, 10 * q[p].i + 9;
    texts := Telling(n, j, k, z);
    CleanEverywhere(prefix, q, texts);
    CleanUnmentioned(prefix, AllAtOnce(q, texts));
    forall m | k + 1 <= m < n ensures ReadableAt(q, texts, m) {
      assert q[0..] == q;
      TellingReadable(q, 0, p, n, m, z);
    }
    RenderAll(prefix, q, texts);
    DescendTo(prefix, q, texts, n, k + 1);
    LastSteps(prefix, Render(prefix, q, texts, k + 1), texts, k, z);
    OccursOnceMore(prefix, q, p, n, z);
    MarksAtOnce(prefix, q, j, k, n, z);
  }

  lemma LastSteps(prefix: string, s: string, texts: seq<string>, k: nat, z: char)
    requires PrefixOk(prefix) && k < |texts| && z !in prefix && !IsDigit(z)
    requires texts[k] == [z] && forall m :: 0 <= m < k ==> texts[m] == ""
    ensures Count(z, Descend(prefix, s, texts, k + 1)) == Count(z, s) + Occurs(s, prefix, k)
  {
    var pat := prefix + Itoa(k + 1);
    assert pat[1..] == prefix[1..] + Itoa(k + 1);
    NoMarkIn(prefix, k, z);
    ReplacingAdds(s, pat, z);
    DescendErases(prefix, ReplaceAll(s, pat, [z]), texts, k, z);
  }

  ghost predicate AlwaysSimultaneous(prefix: string, q: seq<Token>, n: nat)
    requires prefix != "" && forall t :: t in q && t.Arg? ==> t.i < n
  {
    forall texts: seq<string> :: |texts| == n && CleanTexts(prefix, texts) ==>
      Substitute(Numbered(prefix), Written(prefix, q), texts) == AllAtOnce(q, texts)
  }

  /** The exact condition on a query: replacing from last to first is substitution all at once, whatever the values,
    * if and only if no placeholder is directly followed by one that is more than ten times as far along.
    */
  lemma SimultaneousIff(prefix: string, q: seq<Token>, n: nat, z: char)
    requires PrefixOk(prefix) && WellRead(q) && CleanQuery(prefix, q) && z !in prefix && !IsDigit(z)
    requires forall t :: t in q && t.Arg? ==> t.i < n
    ensures AlwaysSimultaneous(prefix, q, n) <==> Separated(q)
  {
    if Separated(q) {
      forall texts: seq<string> | |texts| == n && CleanTexts(prefix, texts)
        ensures Substitute(Numbered(prefix), Written(prefix, q), texts) == AllAtOnce(q, texts)
      {
        SeparatedIsSimultaneous(prefix, q, texts);
      }
    } else {
      var texts := FarBreaks(prefix, q, n, z);
    }
  }
}
