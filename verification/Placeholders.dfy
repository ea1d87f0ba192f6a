/** SubstitutePlaceholders: replacement one placeholder after the other, against substitution all at once. */
module Placeholders {
  import opened Common
  import opened Numerals

  // ---------- strings.ReplaceAll and strings.Replace with n = 1 ----------

  function ReplaceAll(s: string, pat: string, text: string): string
    requires pat != ""
  {
    if s == "" then ""
    else if pat <= s then text + ReplaceAll(s[|pat|..], pat, text)
    else [s[0]] + ReplaceAll(s[1..], pat, text)
  }

  function ReplaceFirst(s: string, pat: string, text: string): string {
    if pat <= s then text + s[|pat|..]
    else if s == "" then ""
    else [s[0]] + ReplaceFirst(s[1..], pat, text)
  }

  // ---------- the Go function ----------

  /** A formatter's placeholders: one mark for all, or a prefix and the one based position. */
  datatype Style = Uniform(mark: string) | Numbered(prefix: string)

  function FormatPlaceholder(f: Style, i: nat): string {
    match f
    case Uniform(mark) => mark
    case Numbered(prefix) => prefix + Itoa(i + 1)
  }

  const SENTINEL := "<FORMATERROR>"

  function Shown<E>(arg: Result<string, E>): string { if arg.Ok? then arg.value else SENTINEL }

  /** The texts that the arguments leave in the query: their formatted values, or the sentinel. */
  function Texts<E>(args: seq<Result<string, E>>): (r: seq<string>)
    ensures |r| == |args|
    ensures forall i :: 0 <= i < |args| ==> r[i] == Shown(args[i])
  {
    seq(|args|, i requires 0 <= i < |args| => Shown(args[i]))
  }

  function Errors<E>(args: seq<Result<string, E>>): seq<E> {
    if args == [] then []
    else (if args[0].Fail? then [args[0].error] else []) + Errors(args[1..])
  }

  function Backwards<T>(s: seq<T>): seq<T> {
    if s == [] then [] else Backwards(s[1..]) + [s[0]]
  }

  /** Numbered placeholders, replaced from position k down to position 1. */
  function Descend(prefix: string, s: string, texts: seq<string>, k: nat): string
    requires prefix != "" && k <= |texts|
    decreases k
  {
    if k == 0 then s
    else Descend(prefix, ReplaceAll(s, prefix + Itoa(k), texts[k - 1]), texts, k - 1)
  }

  /** Uniform placeholders: the first one left takes the next argument. */
  function Ascend(mark: string, s: string, texts: seq<string>): string
    decreases |texts|
  {
    if texts == [] then s else Ascend(mark, ReplaceFirst(s, mark, texts[0]), texts[1..])
  }

  function Substitute(f: Style, s: string, texts: seq<string>): string
    requires f.Numbered? ==> f.prefix != ""
  {
    match f
    case Uniform(mark) => Ascend(mark, s, texts)
    case Numbered(prefix) => Descend(prefix, s, texts, |texts|)
  }

  method SubstitutePlaceholders<E>(f: Style, query: string, args: seq<Result<string, E>>) returns (r: string, errs: seq<E>)
    requires f.Numbered? ==> f.prefix != ""
    ensures r == Substitute(f, query, Texts(args))
    ensures errs == if f.Uniform? then Errors(args) else Backwards(Errors(args))
  {
    if |args| == 0 { return query, []; }
    StylesDiffer(f);
    if FormatPlaceholder(f, 0) == FormatPlaceholder(f, 1) {
      r, errs := ReplaceInOrder(f.mark, query, args);
    } else {
      r, errs := ReplaceFromLast(f, query, args);
    }
  }

  method ReplaceInOrder<E>(mark: string, query: string, args: seq<Result<string, E>>) returns (r: string, errs: seq<E>)
    ensures r == Ascend(mark, query, Texts(args))
    ensures errs == Errors(args)
  {
    r, errs := query, [];
    for i := 0 to |args|
      invariant Ascend(mark, r, Texts(args[i..])) == Ascend(mark, query, Texts(args))
      invariant errs + Errors(args[i..]) == Errors(args)
    {
      assert args[i..][1..] == args[i + 1..];
      assert Texts(args[i..])[1..] == Texts(args[i + 1..]);
      var value := "";
      match args[i] {
        case Ok(v) => value := v;
        case Fail(e) => errs, value := errs + [e], SENTINEL;
      }
      r := ReplaceFirst(r, mark, value);
    }
  }

  method ReplaceFromLast<E>(f: Style, query: string, args: seq<Result<string, E>>) returns (r: string, errs: seq<E>)
    requires f.Numbered? && f.prefix != ""
    ensures r == Descend(f.prefix, query, Texts(args), |args|)
    ensures errs == Backwards(Errors(args))
  {
    hide Errors, Backwards, ReplaceAll, Itoa, Descend;
    r, errs := query, [];
    ghost var texts := Texts(args);
    var i := |args|;
    assert args[..i] == args;
    while i > 0
      invariant 0 <= i <= |args|
      invariant Descend(f.prefix, r, texts, i) == Descend(f.prefix, query, texts, |args|)
      invariant errs + Backwards(Errors(args[..i])) == Backwards(Errors(args))
    {
      i := i - 1;
      assert args[..i + 1] == args[..i] + [args[i]];
      ErrorsFromLast(args[..i], args[i]);
      DescendStep(f.prefix, r, texts, i);
      var value := SENTINEL;
      match args[i] {
        case Ok(v) => value := v;
        case Fail(e) => errs := errs + [e];
      }
      assert value == texts[i];
      r := ReplaceAll(r, FormatPlaceholder(f, i), value);
    }
    NoErrors<E>();
    DescendNone(f.prefix, r, texts);
    assert args[..0] == [];
  }

  lemma DescendStep(prefix: string, s: string, texts: seq<string>, i: nat)
    requires prefix != "" && i < |texts|
    ensures Descend(prefix, s, texts, i + 1) == Descend(prefix, ReplaceAll(s, prefix + Itoa(i + 1), texts[i]), texts, i)
  {
    hide ReplaceAll, Itoa;
  }

  lemma DescendNone(prefix: string, s: string, texts: seq<string>)
    requires prefix != ""
    ensures Descend(prefix, s, texts, 0) == s
  {
  }

  lemma NoErrors<E>()
    ensures Errors<E>([]) == [] && Backwards<E>([]) == []
  {
  }

  lemma StylesDiffer(f: Style)
    ensures FormatPlaceholder(f, 0) == FormatPlaceholder(f, 1) <==> f.Uniform?
  {
    if f.Numbered? { assert FormatPlaceholder(f, 0)[|f.prefix|..] == Itoa(1) && FormatPlaceholder(f, 1)[|f.prefix|..] == Itoa(2); }
  }

  lemma {:induction false} ErrorsAppend<E>(args: seq<Result<string, E>>, last: Result<string, E>)
    ensures Errors(args + [last]) == Errors(args) + if last.Fail? then [last.error] else []
  {
    if args == [] {
      assert [last][1..] == [];
    } else {
      ErrorsAppend(args[1..], last);
      assert (args + [last])[1..] == args[1..] + [last];
    }
  }

  lemma {:induction false} BackwardsAppend<T>(s: seq<T>, x: T)
    ensures Backwards(s + [x]) == [x] + Backwards(s)
  {
    if s == [] {
      assert [x][1..] == [];
    } else {
      BackwardsAppend(s[1..], x);
      assert (s + [x])[1..] == s[1..] + [x];
    }
  }

  lemma ErrorsFromLast<E>(args: seq<Result<string, E>>, last: Result<string, E>)
    ensures Backwards(Errors(args + [last])) == (if last.Fail? then [last.error] else []) + Backwards(Errors(args))
  {
    ErrorsAppend(args, last);
    if last.Fail? { BackwardsAppend(Errors(args), last.error); } else { assert Errors(args) + [] == Errors(args); }
  }

  // ---------- substitution all at once ----------

  /** A query as its author reads it: text, and placeholders for the arguments from 0 on. */
  datatype Token = Text(c: char) | Arg(i: nat)

  predicate InRange(q: seq<Token>, texts: seq<string>) { forall t :: t in q && t.Arg? ==> t.i < |texts| }

  /** What a token is in the end, and what it is when the placeholders below k still stand. */
  function Final(t: Token, texts: seq<string>): string
    requires InRange([t], texts)
  {
    match t
    case Text(c) => [c]
    case Arg(i) => assert t in [t]; texts[i]
  }

  function Piece(prefix: string, t: Token, texts: seq<string>, k: nat): string
    requires InRange([t], texts)
  {
    if t.Arg? && t.i < k then prefix + Itoa(t.i + 1) else Final(t, texts)
  }

  /** The query when the placeholders from k on have become texts, and those below k still stand. */
  function Render(prefix: string, q: seq<Token>, texts: seq<string>, k: nat): string
    requires InRange(q, texts)
  {
    if q == [] then "" else Piece(prefix, q[0], texts, k) + Render(prefix, q[1..], texts, k)
  }

  /** Every placeholder replaced by its text at the same time. */
  function AllAtOnce(q: seq<Token>, texts: seq<string>): string
    requires InRange(q, texts)
  {
    if q == [] then "" else Final(q[0], texts) + AllAtOnce(q[1..], texts)
  }

  /** The query text itself: every placeholder still stands. */
  function Written(prefix: string, q: seq<Token>): string {
    if q == [] then ""
    else (match q[0] case Text(c) => [c] case Arg(i) => prefix + Itoa(i + 1)) + Written(prefix, q[1..])
  }

  lemma RenderAll(prefix: string, q: seq<Token>, texts: seq<string>)
    requires InRange(q, texts)
    ensures Render(prefix, q, texts, |texts|) == Written(prefix, q)
  {
    if q != [] {
      RenderAll(prefix, q[1..], texts);
      assert q[0] in q;
    }
  }

  lemma RenderNone(prefix: string, q: seq<Token>, texts: seq<string>)
    requires InRange(q, texts)
    ensures Render(prefix, q, texts, 0) == AllAtOnce(q, texts)
  {
  }

  /** A usable prefix: its first character is not met again in it, and no digit is. "$", ":" and "@p" are. */
  predicate PrefixOk(prefix: string) {
    prefix != "" && prefix[0] !in prefix[1..] && forall i :: 0 <= i < |prefix| ==> !IsDigit(prefix[i])
  }

  /** Somewhere in s the prefix has a digit behind it. */
  predicate Mentions(prefix: string, s: string) {
    exists i, j :: 0 <= i < j < |s| && s[i..j] == prefix && IsDigit(s[j])
  }

  predicate StartsWithDigit(s: string) { s != "" && IsDigit(s[0]) }

  /** When argument k's turn comes, an earlier placeholder at the head of q is not read as argument k's. */
  predicate EndsAt(q: seq<Token>, texts: seq<string>, k: nat)
    requires q != [] && InRange(q, texts)
  {
    q[0].Arg? && q[0].i < k ==>
      || (|q| > 1 && q[1].Arg? && q[1].i <= k)
      || !(Itoa(k + 1) <= Itoa(q[0].i + 1) + AllAtOnce(q[1..], texts))
  }

  predicate ReadableAt(q: seq<Token>, texts: seq<string>, k: nat)
    requires InRange(q, texts)
  {
    q != [] ==> EndsAt(q, texts, k) && ReadableAt(q[1..], texts, k)
  }

  // ---------- the numbered case ----------

  /** What follows a text character, as far as no prefix begins in it, is there from the start to the end. */
  lemma {:induction false} SeenToTheEnd(prefix: string, q: seq<Token>, texts: seq<string>, k: nat, ahead: string)
    requires InRange(q, texts)
    requires PrefixOk(prefix) && prefix[0] !in ahead && ahead <= Render(prefix, q, texts, k)
    ensures ahead <= AllAtOnce(q, texts)
  {
    if q != [] && ahead != "" {
      var piece := Piece(prefix, q[0], texts, k);
      var rest := Render(prefix, q[1..], texts, k);
      assert Render(prefix, q, texts, k) == piece + rest;
      assert ahead[0] == (piece + rest)[0];
      if q[0].Arg? && q[0].i < k {
        assert false;
      } else if |ahead| <= |piece| {
        assert ahead == (piece + rest)[..|ahead|] == piece[..|ahead|];
      } else {
        assert ahead[..|piece|] == piece && ahead[|piece|..] <= rest by {
          assert (piece + rest)[|piece|..] == rest;
        }
        SeenToTheEnd(prefix, q[1..], texts, k, ahead[|piece|..]);
        assert ahead == piece + ahead[|piece|..];
      }
    }
  }

  lemma MentionsSuffix(prefix: string, head: string, s: string)
    requires Mentions(prefix, s)
    ensures Mentions(prefix, head + s)
  {
    var i, j :| 0 <= i < j < |s| && s[i..j] == prefix && IsDigit(s[j]);
    var n := |head|;
    assert (head + s)[n + i..n + j] == prefix && IsDigit((head + s)[n + j]);
  }

  /** A placeholder's first character does not occur in t, so nothing in t is replaced. */
  lemma {:induction false} PassesOver(t: string, s: string, pat: string, text: string)
    requires pat != "" && pat[0] !in t
    ensures ReplaceAll(t + s, pat, text) == t + ReplaceAll(s, pat, text)
  {
    if t == "" {
      assert t + s == s;
    } else {
      assert (t + s)[0] != pat[0];
      PassesOver(t[1..], s, pat, text);
      assert (t + s)[1..] == t[1..] + s;
      assert t == [t[0]] + t[1..];
    }
  }

  /** In final text nothing is replaced, because a match would show the prefix with a digit behind it. */
  lemma {:induction false} PassesText(prefix: string, t: string, q: seq<Token>, texts: seq<string>, k: nat, text: string)
    requires InRange(q, texts)
    requires PrefixOk(prefix) && !Mentions(prefix, t + AllAtOnce(q, texts))
    ensures var rest := Render(prefix, q, texts, k);
            var pat := prefix + Itoa(k);
            ReplaceAll(t + rest, pat, text) == t + ReplaceAll(rest, pat, text)
  {
    var rest := Render(prefix, q, texts, k);
    var pat := prefix + Itoa(k);
    if t == "" {
      assert t + rest == rest;
    } else {
      if pat <= t + rest {
        NoMatchInText(prefix, t, q, texts, k);
        assert false;
      }
      assert (t + rest)[1..] == t[1..] + rest && t == [t[0]] + t[1..];
      assert t + AllAtOnce(q, texts) == [t[0]] + (t[1..] + AllAtOnce(q, texts));
      if Mentions(prefix, t[1..] + AllAtOnce(q, texts)) { MentionsSuffix(prefix, [t[0]], t[1..] + AllAtOnce(q, texts)); }
      PassesText(prefix, t[1..], q, texts, k, text);
    }
  }

  lemma NoMatchInText(prefix: string, t: string, q: seq<Token>, texts: seq<string>, k: nat)
    requires InRange(q, texts)
    requires PrefixOk(prefix) && t != "" && prefix + Itoa(k) <= t + Render(prefix, q, texts, k)
    ensures Mentions(prefix, t + AllAtOnce(q, texts))
  {
    hide Render, AllAtOnce, Itoa;
    var n := |prefix|;
    var whole, end := t + Render(prefix, q, texts, k), t + AllAtOnce(q, texts);
    var digit := Itoa(k)[0];
    assert IsDigit(digit);
    var seen := prefix + [digit];
    assert seen <= whole by {
      assert seen == (prefix + Itoa(k))[..n + 1];
    }
    assert seen <= end by {
      if n + 1 <= |t| {
        assert seen == t[..n + 1];
      } else {
        var ahead := seen[|t|..];
        assert ahead <= Render(prefix, q, texts, k) by { assert whole[|t|..n + 1] == ahead; }
        assert prefix[0] !in ahead by { assert |t| >= 1; }
        SeenToTheEnd(prefix, q, texts, k, ahead);
        assert seen == t + ahead;
      }
    }
    assert end[0..n] == prefix && IsDigit(end[n]);
  }

  /** A placeholder for an earlier argument is not mistaken for that of argument k. */
  lemma NoMatchInPlaceholder(prefix: string, q: seq<Token>, texts: seq<string>, k: nat)
    requires InRange(q, texts)
    requires PrefixOk(prefix) && q != [] && q[0].Arg? && q[0].i < k && EndsAt(q, texts, k)
    ensures !(prefix + Itoa(k + 1) <= Render(prefix, q, texts, k + 1))
  {
    hide Itoa;
    var own, other := Itoa(q[0].i + 1), Itoa(k + 1);
    var rest := Render(prefix, q[1..], texts, k + 1);
    var all := Render(prefix, q, texts, k + 1);
    assert all == prefix + own + rest;
    hide Render, AllAtOnce;
    if prefix + other <= all {
      assert other <= own + rest by {
        assert all[|prefix|..] == own + rest && (prefix + other)[|prefix|..] == other;
      }
      NumeralAhead(q[0].i, k, rest);
      TailAhead(prefix, q[1..], texts, k, other[|own|..]);
    }
  }

  /** A match that runs on behind a numeral shows a longer numeral's digits there. */
  lemma NumeralAhead(i: nat, k: nat, rest: string)
    requires i < k && Itoa(k + 1) <= Itoa(i + 1) + rest
    ensures Itoa(i + 1) < Itoa(k + 1) && 10 * (i + 1) <= k + 1
    ensures Itoa(k + 1)[|Itoa(i + 1)|..] <= rest
  {
    hide Itoa;
    var own, other := Itoa(i + 1), Itoa(k + 1);
    ItoaGrows(i + 1, k + 1);
    assert other[..|own|] == own;
    if |other| == |own| {
      ItoaInjective(k + 1, i + 1);
    } else {
      ItoaExtends(i + 1, k + 1);
      assert other[|own|..] == (own + rest)[|own|..|other|];
    }
  }

  lemma TailAhead(prefix: string, q: seq<Token>, texts: seq<string>, k: nat, tail: string)
    requires InRange(q, texts) && PrefixOk(prefix)
    requires tail != "" && forall i :: 0 <= i < |tail| ==> IsDigit(tail[i])
    requires tail <= Render(prefix, q, texts, k + 1)
    ensures tail <= AllAtOnce(q, texts)
    ensures q != [] ==> !(q[0].Arg? && q[0].i <= k)
  {
    SeenToTheEnd(prefix, q, texts, k + 1, tail);
    assert tail[0] == Render(prefix, q, texts, k + 1)[0];
  }

  lemma Replaces(pat: string, rest: string, text: string)
    requires pat != ""
    ensures ReplaceAll(pat + rest, pat, text) == text + ReplaceAll(rest, pat, text)
  {
    assert (pat + rest)[|pat|..] == rest;
  }

  lemma Skips(c: char, s: string, pat: string, text: string)
    requires pat != "" && !(pat <= [c] + s)
    ensures ReplaceAll([c] + s, pat, text) == [c] + ReplaceAll(s, pat, text)
  {
    assert ([c] + s)[1..] == s;
  }

  lemma EarlierStands(prefix: string, q: seq<Token>, texts: seq<string>, k: nat, text: string)
    requires InRange(q, texts)
    requires PrefixOk(prefix) && q != [] && q[0].Arg? && q[0].i < k && EndsAt(q, texts, k)
    ensures var pat := prefix + Itoa(k + 1);
            ReplaceAll(Render(prefix, q, texts, k + 1), pat, text)
            == Piece(prefix, q[0], texts, k) + ReplaceAll(Render(prefix, q[1..], texts, k + 1), pat, text)
  {
    hide ReplaceAll, EndsAt, Itoa;
    var own, rest := prefix + Itoa(q[0].i + 1), Render(prefix, q[1..], texts, k + 1);
    NoMatchInPlaceholder(prefix, q, texts, k);
    var behind := own[1..];
    assert own == [prefix[0]] + behind;
    assert own + rest == [prefix[0]] + (behind + rest);
    Skips(prefix[0], behind + rest, prefix + Itoa(k + 1), text);
    PassesOver(behind, rest, prefix + Itoa(k + 1), text);
  }

  lemma UnmentionedTail(prefix: string, q: seq<Token>, texts: seq<string>)
    requires InRange(q, texts) && q != [] && !Mentions(prefix, AllAtOnce(q, texts))
    ensures !Mentions(prefix, AllAtOnce(q[1..], texts))
  {
    if Mentions(prefix, AllAtOnce(q[1..], texts)) { MentionsSuffix(prefix, Final(q[0], texts), AllAtOnce(q[1..], texts)); }
  }

  /** Replacing argument k's placeholder leaves all but that of the first token, and goes on behind it. */
  lemma ReplacesHead(prefix: string, q: seq<Token>, texts: seq<string>, k: nat)
    requires InRange(q, texts) && q != []
    requires k < |texts| && PrefixOk(prefix) && !Mentions(prefix, AllAtOnce(q, texts)) && EndsAt(q, texts, k)
    ensures ReplaceAll(Render(prefix, q, texts, k + 1), prefix + Itoa(k + 1), texts[k])
      == Piece(prefix, q[0], texts, k) + ReplaceAll(Render(prefix, q[1..], texts, k + 1), prefix + Itoa(k + 1), texts[k])
  {
    hide ReplaceAll, Itoa, Mentions, EndsAt;
    if q[0].Text? || q[0].i > k {
      PassesText(prefix, Final(q[0], texts), q[1..], texts, k + 1, texts[k]);
    } else if q[0].i == k {
      Replaces(prefix + Itoa(k + 1), Render(prefix, q[1..], texts, k + 1), texts[k]);
    } else {
      EarlierStands(prefix, q, texts, k, texts[k]);
    }
  }

  /** One step: replacing the placeholder of argument k, when those after k are texts already. */
  lemma {:induction false} ReplacesOne(prefix: string, q: seq<Token>, texts: seq<string>, k: nat)
    requires InRange(q, texts)
    requires k < |texts| && PrefixOk(prefix) && !Mentions(prefix, AllAtOnce(q, texts)) && ReadableAt(q, texts, k)
    ensures ReplaceAll(Render(prefix, q, texts, k + 1), prefix + Itoa(k + 1), texts[k]) == Render(prefix, q, texts, k)
  {
    hide Itoa, Mentions, EndsAt, AllAtOnce, Piece;
    if q != [] {
      UnmentionedTail(prefix, q, texts);
      ReplacesHead(prefix, q, texts, k);
      ReplacesOne(prefix, q[1..], texts, k);
    }
  }

  /** The steps from k down to low, all readable, leave the placeholders below low. */
  lemma {:induction false} DescendTo(prefix: string, q: seq<Token>, texts: seq<string>, k: nat, low: nat)
    requires InRange(q, texts) && low <= k <= |texts|
    requires PrefixOk(prefix) && !Mentions(prefix, AllAtOnce(q, texts))
    requires forall m :: low <= m < k ==> ReadableAt(q, texts, m)
    ensures Descend(prefix, Render(prefix, q, texts, k), texts, k) == Descend(prefix, Render(prefix, q, texts, low), texts, low)
    decreases k
  {
    if low < k {
      assert ReadableAt(q, texts, k - 1);
      ReplacesOne(prefix, q, texts, k - 1);
      DescendTo(prefix, q, texts, k - 1, low);
    }
  }

  /** Replacing the placeholders from the last to the first is substituting all of them at once, when the result
    * shows no placeholder of its own and no placeholder runs into the digits of a longer one.
    */
  lemma NumberedIsSimultaneous(prefix: string, q: seq<Token>, texts: seq<string>)
    requires InRange(q, texts) && PrefixOk(prefix)
    requires !Mentions(prefix, AllAtOnce(q, texts))
    requires forall k :: 0 <= k < |texts| ==> ReadableAt(q, texts, k)
    ensures Substitute(Numbered(prefix), Written(prefix, q), texts) == AllAtOnce(q, texts)
  {
    DescendTo(prefix, q, texts, |texts|, 0);
    RenderAll(prefix, q, texts);
    RenderNone(prefix, q, texts);
  }

  // ---------- when the condition holds, in terms a caller can check ----------

  /** Behind each placeholder comes text that does not begin with a digit, or the placeholder of an argument that
    * has at most one digit more than this one: number $d0 to $d9 for $d.
    */
  predicate Clear(q: seq<Token>, texts: seq<string>)
    requires InRange(q, texts)
  {
    q != [] ==>
      && (q[0].Arg? ==> (|q| > 1 && q[1].Arg? && q[1].i <= 10 * q[0].i + 9) || !StartsWithDigit(AllAtOnce(q[1..], texts)))
      && Clear(q[1..], texts)
  }

  lemma {:induction false} ClearIsReadable(q: seq<Token>, texts: seq<string>, k: nat)
    requires InRange(q, texts) && Clear(q, texts)
    ensures ReadableAt(q, texts, k)
  {
    if q != [] {
      ClearIsReadable(q[1..], texts, k);
      var rest := AllAtOnce(q[1..], texts);
      if q[0].Arg? && q[0].i < k && Itoa(k + 1) <= Itoa(q[0].i + 1) + rest { NumeralAhead(q[0].i, k, rest); }
    }
  }

  /** The query as read: a placeholder's number does not go on in the text behind it. */
  predicate WellRead(q: seq<Token>) {
    q != [] ==> (q[0].Arg? && |q| > 1 && q[1].Text? ==> !IsDigit(q[1].c)) && WellRead(q[1..])
  }

  /** Position p holds a placeholder directly followed by that of an argument far behind: $1$11, $2$21 and so on. */
  predicate Far(q: seq<Token>, p: nat) {
    p + 1 < |q| && q[p].Arg? && q[p + 1].Arg? && q[p + 1].i > 10 * q[p].i + 9
  }

  predicate Separated(q: seq<Token>) { forall p :: 0 <= p < |q| ==> !Far(q, p) }

  predicate CleanText(prefix: string, s: string)
    requires prefix != ""
  {
    prefix[0] !in s
  }

  predicate CleanQuery(prefix: string, q: seq<Token>)
    requires prefix != ""
  {
    forall i :: 0 <= i < |q| && q[i].Text? ==> q[i].c != prefix[0]
  }

  predicate CleanTexts(prefix: string, texts: seq<string>)
    requires prefix != ""
  {
    forall i :: 0 <= i < |texts| ==> CleanText(prefix, texts[i])
  }

  lemma {:induction false} CleanEverywhere(prefix: string, q: seq<Token>, texts: seq<string>)
    requires InRange(q, texts) && prefix != "" && CleanQuery(prefix, q) && CleanTexts(prefix, texts)
    ensures CleanText(prefix, AllAtOnce(q, texts))
  {
    if q != [] {
      CleanEverywhere(prefix, q[1..], texts);
      assert CleanText(prefix, Final(q[0], texts)) by { if q[0].Arg? { assert q[0] in q; } }
    }
  }

  lemma CleanUnmentioned(prefix: string, s: string)
    requires prefix != "" && CleanText(prefix, s)
    ensures !Mentions(prefix, s)
  {
    forall i, j | 0 <= i < j < |s| ensures s[i..j] != prefix {
      assert s[i..j][0] == s[i] && s[i] in s;
    }
  }

  lemma {:induction false} SeparatedIsClear(q: seq<Token>, texts: seq<string>)
    requires InRange(q, texts) && WellRead(q) && Separated(q)
    ensures Clear(q, texts)
  {
    if q != [] {
      assert !Far(q, 0);
      forall p | 0 <= p < |q[1..]| ensures !Far(q[1..], p) { assert !Far(q, p + 1); }
      SeparatedIsClear(q[1..], texts);
    }
  }

  /** If no value contains the prefix, a query without far neighbours is formatted as its author reads it. */
  lemma SeparatedIsSimultaneous(prefix: string, q: seq<Token>, texts: seq<string>)
    requires InRange(q, texts) && PrefixOk(prefix) && WellRead(q)
    requires CleanQuery(prefix, q) && CleanTexts(prefix, texts) && Separated(q)
    ensures Substitute(Numbered(prefix), Written(prefix, q), texts) == AllAtOnce(q, texts)
  {
    CleanEverywhere(prefix, q, texts);
    CleanUnmentioned(prefix, AllAtOnce(q, texts));
    SeparatedIsClear(q, texts);
    forall k | 0 <= k < |texts| ensures ReadableAt(q, texts, k) { ClearIsReadable(q, texts, k); }
    NumberedIsSimultaneous(prefix, q, texts);
  }

  /** The prefixes that the formatters use. */
  lemma KnownPrefixes()
    ensures PrefixOk("$") && PrefixOk(":") && PrefixOk("@p")
    ensures CleanText("$", SENTINEL) && CleanText(":", SENTINEL) && CleanText("@p", SENTINEL) && '?' !in SENTINEL
  {
    assert "@p"[1..] == "p";
  }

  /** Arguments that cannot be formatted do not matter: it is enough that the formatted ones are clean. */
  lemma FailuresAreHarmless<E>(prefix: string, q: seq<Token>, args: seq<Result<string, E>>)
    requires prefix == "$" || prefix == ":" || prefix == "@p"
    requires WellRead(q) && Separated(q) && CleanQuery(prefix, q) && InRange(q, Texts(args))
    requires forall i :: 0 <= i < |args| && args[i].Ok? ==> CleanText(prefix, args[i].value)
    ensures Substitute(Numbered(prefix), Written(prefix, q), Texts(args)) == AllAtOnce(q, Texts(args))
  {
    KnownPrefixes();
    SeparatedIsSimultaneous(prefix, q, Texts(args));
  }

  // ---------- the uniform case ----------

  /** The placeholders of a query with uniform marks are counted from left to right. */
  predicate InSequence(q: seq<Token>, from: nat) {
    q != [] ==> if q[0].Arg? then q[0].i == from && InSequence(q[1..], from + 1) else InSequence(q[1..], from)
  }

  /** The query with its first h placeholders filled; with none filled it is the query as written. */
  function Filled(mark: char, q: seq<Token>, texts: seq<string>, h: nat): string
    requires h <= |texts|
  {
    if q == [] then ""
    else
      (match q[0]
       case Text(c) => [c]
       case Arg(i) => if i < h then texts[i] else [mark]) + Filled(mark, q[1..], texts, h)
  }

  lemma {:induction false} FirstBehind(t: string, s: string, mark: char, text: string)
    requires mark !in t
    ensures ReplaceFirst(t + s, [mark], text) == t + ReplaceFirst(s, [mark], text)
  {
    if t == "" {
      assert t + s == s;
    } else {
      assert (t + s)[0] != mark;
      FirstBehind(t[1..], s, mark, text);
      assert (t + s)[1..] == t[1..] + s && t == [t[0]] + t[1..];
    }
  }

  lemma {:induction false} LaterUnfilled(mark: char, q: seq<Token>, texts: seq<string>, from: nat, h: nat)
    requires h < from && h < |texts| && InSequence(q, from)
    ensures Filled(mark, q, texts, h) == Filled(mark, q, texts, h + 1)
  {
    if q != [] { LaterUnfilled(mark, q[1..], texts, if q[0].Arg? then from + 1 else from, h); }
  }

  lemma {:induction false} FillsOne(mark: char, q: seq<Token>, texts: seq<string>, from: nat, h: nat)
    requires from <= h < |texts| && InSequence(q, from) && CleanQuery([mark], q)
    requires forall i :: 0 <= i < h ==> mark !in texts[i]
    ensures ReplaceFirst(Filled(mark, q, texts, h), [mark], texts[h]) == Filled(mark, q, texts, h + 1)
  {
    if q != [] {
      var rest := Filled(mark, q[1..], texts, h);
      if q[0].Text? {
        FirstBehind([q[0].c], rest, mark, texts[h]);
        FillsOne(mark, q[1..], texts, from, h);
      } else if from < h {
        FirstBehind(texts[from], rest, mark, texts[h]);
        FillsOne(mark, q[1..], texts, from + 1, h);
      } else {
        assert ([mark] + rest)[1..] == rest;
        LaterUnfilled(mark, q[1..], texts, from + 1, h);
      }
    }
  }

  lemma {:induction false} AscendFills(mark: char, q: seq<Token>, texts: seq<string>, h: nat)
    requires h <= |texts| && InSequence(q, 0) && CleanQuery([mark], q)
    requires forall i :: 0 <= i < |texts| - 1 ==> mark !in texts[i]
    ensures Ascend([mark], Filled(mark, q, texts, h), texts[h..]) == Filled(mark, q, texts, |texts|)
    decreases |texts| - h
  {
    if h < |texts| {
      FillsOne(mark, q, texts, 0, h);
      assert texts[h..][1..] == texts[h + 1..];
      AscendFills(mark, q, texts, h + 1);
    }
  }

  /** Uniform marks: the i-th mark gets the i-th text, marks without an argument stay, and arguments without a mark
    * have no effect, when no text but the last contains the mark.
    */
  lemma UniformIsSimultaneous(mark: char, q: seq<Token>, texts: seq<string>)
    requires InSequence(q, 0) && CleanQuery([mark], q)
    requires forall i :: 0 <= i < |texts| - 1 ==> mark !in texts[i]
    ensures Substitute(Uniform([mark]), Filled(mark, q, texts, 0), texts) == Filled(mark, q, texts, |texts|)
  {
    AscendFills(mark, q, texts, 0);
    assert texts[0..] == texts;
  }

  /** A text with a mark in it takes the next argument's place. */
  lemma MarkInText()
    ensures var q := [Arg(0), Text(' '), Arg(1)];
            && Filled('?', q, ["a?", "b"], 0) == "? ?" && Filled('?', q, ["a?", "b"], 2) == "a? b"
            && Substitute(Uniform("?"), "? ?", ["a?", "b"]) == "ab ?"
  {
    var q := [Arg(0), Text(' '), Arg(1)];
    assert q[1..] == [Text(' '), Arg(1)] && q[1..][1..] == [Arg(1)] && q[1..][1..][1..] == [];
    Mark0();
    Mark1();
  }

  lemma Mark0()
    ensures ReplaceFirst("? ?", "?", "a?") == "a? ?"
  {
    assert "? ?"[1..] == " ?";
  }

  lemma Mark1()
    ensures ReplaceFirst("a? ?", "?", "b") == "ab ?"
  {
    assert "a? ?"[1..] == "? ?" && "? ?"[1..] == " ?";
  }
}
