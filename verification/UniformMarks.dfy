/** Uniform placeholders: for which texts filling one mark after the other is filling all of them at once. */
module UniformMarks {
  import opened Placeholders

  /** For every query as its author reads it, the marks get their texts. */
  ghost predicate AlwaysUniform(mark: char, texts: seq<string>) {
    forall q: seq<Token> :: InSequence(q, 0) && CleanQuery([mark], q) ==>
      Substitute(Uniform([mark]), Filled(mark, q, texts, 0), texts) == Filled(mark, q, texts, |texts|)
  }

  /** Behind a text that contains the mark, every text is just the mark. */
  predicate MarksLast(mark: char, texts: seq<string>) {
    forall i, j :: 0 <= i < j < |texts| && mark in texts[i] ==> texts[j] == [mark]
  }

  // ---------- when no mark in a text matters ----------

  lemma {:induction false} SameForSame(s: string, mark: char)
    ensures ReplaceFirst(s, [mark], [mark]) == s
  {
    if s != "" {
      SameForSame(s[1..], mark);
      assert s == [s[0]] + s[1..];
    }
  }

  lemma {:induction false} MarksForMarks(mark: char, s: string, texts: seq<string>)
    requires forall j :: 0 <= j < |texts| ==> texts[j] == [mark]
    ensures Ascend([mark], s, texts) == s
    decreases |texts|
  {
    if texts != [] {
      SameForSame(s, mark);
      MarksForMarks(mark, s, texts[1..]);
    }
  }

  lemma {:induction false} FilledWithMarks(mark: char, q: seq<Token>, texts: seq<string>, h: nat)
    requires h <= |texts| && forall j :: h <= j < |texts| ==> texts[j] == [mark]
    ensures Filled(mark, q, texts, h) == Filled(mark, q, texts, |texts|)
  {
    if q != [] { FilledWithMarks(mark, q[1..], texts, h); }
  }

  /** From the h-th step on, when no text before contains the mark. */
  lemma {:induction false} FillsToTheEnd(mark: char, q: seq<Token>, texts: seq<string>, h: nat)
    requires h <= |texts| && InSequence(q, 0) && CleanQuery([mark], q) && MarksLast(mark, texts)
    requires forall i :: 0 <= i < h ==> mark !in texts[i]
    ensures Ascend([mark], Filled(mark, q, texts, h), texts[h..]) == Filled(mark, q, texts, |texts|)
    decreases |texts| - h
  {
    if h < |texts| {
      FillsOne(mark, q, texts, 0, h);
      assert texts[h..][0] == texts[h] && texts[h..][1..] == texts[h + 1..];
      if mark in texts[h] {
        MarksForMarks(mark, Filled(mark, q, texts, h + 1), texts[h + 1..]);
        FilledWithMarks(mark, q, texts, h + 1);
      } else {
        FillsToTheEnd(mark, q, texts, h + 1);
      }
    }
  }

  // ---------- when one does ----------

  /** The steps never run out of marks in s. */
  predicate Lasts(mark: char, s: string, texts: seq<string>)
    decreases |texts|
  {
    texts == [] || (mark in s && Lasts(mark, ReplaceFirst(s, [mark], texts[0]), texts[1..]))
  }

  lemma {:induction false} NoMarkNoChange(mark: char, s: string, text: string)
    requires mark !in s
    ensures ReplaceFirst(s, [mark], text) == s
  {
    if s != "" {
      NoMarkNoChange(mark, s[1..], text);
      assert s == [s[0]] + s[1..];
    }
  }

  lemma {:induction false} RunsOut(mark: char, s: string, texts: seq<string>)
    requires mark !in s || !Lasts(mark, s, texts)
    ensures mark !in Ascend([mark], s, texts)
    decreases |texts|
  {
    if texts != [] {
      if mark !in s { NoMarkNoChange(mark, s, texts[0]); }
      RunsOut(mark, ReplaceFirst(s, [mark], texts[0]), texts[1..]);
    }
  }

  lemma {:induction false} ReplacesInFront(mark: char, s: string, t: string, text: string)
    requires mark in s
    ensures ReplaceFirst(s + t, [mark], text) == ReplaceFirst(s, [mark], text) + t
  {
    if s[0] == mark {
      assert (s + t)[1..] == s[1..] + t;
      assert text + (s[1..] + t) == text + s[1..] + t;
    } else {
      ReplacesInFront(mark, s[1..], t, text);
      assert (s + t)[0] == s[0] && (s + t)[1..] == s[1..] + t;
    }
  }

  /** As long as marks last, what stands behind is not reached. */
  lemma {:induction false} LastingHidesRest(mark: char, s: string, t: string, texts: seq<string>)
    requires Lasts(mark, s, texts)
    ensures Ascend([mark], s + t, texts) == Ascend([mark], s, texts) + t
    decreases |texts|
  {
    if texts != [] {
      ReplacesInFront(mark, s, t, texts[0]);
      LastingHidesRest(mark, ReplaceFirst(s, [mark], texts[0]), t, texts[1..]);
    }
  }

  /** The query of the first k placeholders and nothing else. */
  function Args(k: nat): (q: seq<Token>)
    ensures |q| == k && forall i :: 0 <= i < k ==> q[i] == Arg(i)
  {
    seq(k, i requires 0 <= i < k => Arg(i))
  }

  lemma {:induction false} ArgsInSequence(q: seq<Token>, from: nat)
    requires forall i :: 0 <= i < |q| ==> q[i] == Arg(from + i)
    ensures InSequence(q, from)
  {
    if q != [] { ArgsInSequence(q[1..], from + 1); }
  }

  lemma {:induction false} FilledAppend(mark: char, q: seq<Token>, t: Token, texts: seq<string>, h: nat)
    requires h <= |texts|
    ensures Filled(mark, q + [t], texts, h) == Filled(mark, q, texts, h) + Filled(mark, [t], texts, h)
  {
    if q == [] {
      assert q + [t] == [t];
    } else {
      FilledAppend(mark, q[1..], t, texts, h);
      assert (q + [t])[1..] == q[1..] + [t];
    }
  }

  lemma OneMoreArg(mark: char, texts: seq<string>, k: nat)
    requires k < |texts|
    ensures Filled(mark, Args(k + 1), texts, 0) == Filled(mark, Args(k), texts, 0) + [mark]
    ensures Filled(mark, Args(k + 1), texts, |texts|) == Filled(mark, Args(k), texts, |texts|) + texts[k]
  {
    assert Args(k + 1) == Args(k) + [Arg(k)];
    assert [Arg(k)][1..] == [];
    FilledAppend(mark, Args(k), Arg(k), texts, 0);
    FilledAppend(mark, Args(k), Arg(k), texts, |texts|);
    assert [mark] + "" == [mark] && texts[k] + "" == texts[k];
  }

  lemma {:induction false} HasMark(mark: char, texts: seq<string>, i: nat, k: nat)
    requires i < k <= |texts| && mark in texts[i]
    ensures mark in Filled(mark, Args(k), texts, |texts|)
  {
    OneMoreArg(mark, texts, k - 1);
    if i < k - 1 { HasMark(mark, texts, i, k - 1); }
  }

  lemma ArgsFilled(mark: char, texts: seq<string>, k: nat)
    requires AlwaysUniform(mark, texts)
    ensures Ascend([mark], Filled(mark, Args(k), texts, 0), texts) == Filled(mark, Args(k), texts, |texts|)
  {
    ArgsInSequence(Args(k), 0);
    assert CleanQuery([mark], Args(k));
    assert Substitute(Uniform([mark]), Filled(mark, Args(k), texts, 0), texts) == Filled(mark, Args(k), texts, |texts|);
  }

  /** If the marks run out in front of the j-th placeholder, that of the i-th text is lost; if they last, the j-th
    * placeholder keeps its mark.
    */
  lemma MarksAreLast(mark: char, texts: seq<string>, i: nat, j: nat)
    requires AlwaysUniform(mark, texts) && i < j < |texts| && mark in texts[i]
    ensures texts[j] == [mark]
  {
    hide AlwaysUniform, Filled, Ascend;
    var s, end := Filled(mark, Args(j), texts, 0), Filled(mark, Args(j), texts, |texts|);
    ArgsFilled(mark, texts, j);
    ArgsFilled(mark, texts, j + 1);
    OneMoreArg(mark, texts, j);
    HasMark(mark, texts, i, j);
    if !Lasts(mark, s, texts) { RunsOut(mark, s, texts); }
    LastingHidesRest(mark, s, [mark], texts);
    assert (end + [mark])[|end|..] == (end + texts[j])[|end|..];
  }

  /** The exact condition on the texts: filling the leftmost mark with one text after the other is right for every
    * query if and only if behind a text with a mark in it all texts are just the mark.
    */
  lemma UniformIff(mark: char, texts: seq<string>)
    ensures AlwaysUniform(mark, texts) <==> MarksLast(mark, texts)
  {
    if MarksLast(mark, texts) {
      forall q: seq<Token> | InSequence(q, 0) && CleanQuery([mark], q)
        ensures Substitute(Uniform([mark]), Filled(mark, q, texts, 0), texts) == Filled(mark, q, texts, |texts|)
      {
        FillsToTheEnd(mark, q, texts, 0);
        assert texts[0..] == texts;
      }
    }
    if AlwaysUniform(mark, texts) {
      forall i, j | 0 <= i < j < |texts| && mark in texts[i] ensures texts[j] == [mark] { MarksAreLast(mark, texts, i, j); }
    }
  }
}
