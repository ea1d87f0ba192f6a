/** SQL text as the builders emit it, and the two ways a driver binds arguments to it. */
module Sql {

  datatype Value = Null | IntValue(n: int) | TextValue(s: string)

  /** Pieces of a query: fixed text, a formatted table or column name, a placeholder with its
    * zero-based number, and, after binding, a value in place of a placeholder.
    */
  datatype Token = Raw(text: string) | Table(name: string) | Col(name: string) | Ph(index: nat) | Val(value: Value)

  /** What is sent to the database. */
  datatype Stmt = Stmt(query: seq<Token>, args: seq<Value>)

  // ---------- binding ----------

  /** PostgreSQL and SQL Server: the placeholder with number i gets argument i. */
  function BindByNumber(q: seq<Token>, args: seq<Value>): seq<Token> {
    if q == [] then []
    else [if q[0].Ph? && q[0].index < |args| then Val(args[q[0].index]) else q[0]] + BindByNumber(q[1..], args)
  }

  /** MySQL and Oracle: the k-th placeholder in the text gets argument k, whatever its number. */
  function BindInOrder(q: seq<Token>, args: seq<Value>): seq<Token> {
    if q == [] then []
    else if q[0].Ph? && args != [] then [Val(args[0])] + BindInOrder(q[1..], args[1..])
    else [q[0]] + BindInOrder(q[1..], args)
  }

  /** The placeholder numbers in order of appearance. */
  function Numbers(q: seq<Token>): seq<nat> {
    if q == [] then []
    else (if q[0].Ph? then [q[0].index] else []) + Numbers(q[1..])
  }

  function Pick(args: seq<Value>, numbers: seq<nat>): (r: seq<Value>)
    requires forall i :: 0 <= i < |numbers| ==> numbers[i] < |args|
    ensures |r| == |numbers|
    ensures forall i :: 0 <= i < |r| ==> r[i] == args[numbers[i]]
  {
    if numbers == [] then [] else [args[numbers[0]]] + Pick(args, numbers[1..])
  }

  /** The two disciplines agree exactly when the argument list for binding by appearance begins with the list for
    * binding by number, read in the order in which the placeholders appear.
    */
  lemma {:induction false} BindingsAgreeIff(q: seq<Token>, args: seq<Value>, inOrder: seq<Value>)
    requires forall i :: 0 <= i < |Numbers(q)| ==> Numbers(q)[i] < |args|
    ensures BindInOrder(q, inOrder) == BindByNumber(q, args) <==> Pick(args, Numbers(q)) <= inOrder
    decreases |q|
  {
    if q != [] {
      var rest := Numbers(q[1..]);
      var head := if q[0].Ph? then [q[0].index] else [];
      assert Numbers(q) == head + rest;
      assert forall i :: 0 <= i < |rest| ==> rest[i] == Numbers(q)[i + |head|];
      if q[0].Ph? {
        assert Numbers(q)[0] == q[0].index && Numbers(q)[1..] == rest;
        PhBound(q, args, inOrder);
        if inOrder != [] { BindingsAgreeIff(q[1..], args, inOrder[1..]); }
      } else {
        assert Numbers(q) == rest;
        BindingsAgreeIff(q[1..], args, inOrder);
        Cons(q[0], BindInOrder(q[1..], inOrder), BindByNumber(q[1..], args));
      }
    }
  }

  lemma Cons<T>(x: T, s: seq<T>, t: seq<T>)
    ensures [x] + s == [x] + t <==> s == t
  {
    if [x] + s == [x] + t { assert ([x] + s)[1..] == s && ([x] + t)[1..] == t; }
  }

  /** A placeholder at the head takes the first argument by appearance, and its own by number. */
  lemma PhBound(q: seq<Token>, args: seq<Value>, inOrder: seq<Value>)
    requires q != [] && q[0].Ph? && Numbers(q) == [q[0].index] + Numbers(q[1..])
    requires q[0].index < |args| && forall i :: 0 <= i < |Numbers(q)| ==> Numbers(q)[i] < |args|
    requires forall i :: 0 <= i < |Numbers(q[1..])| ==> Numbers(q[1..])[i] < |args|
    ensures BindInOrder(q, inOrder) == BindByNumber(q, args)
      <==> inOrder != [] && inOrder[0] == args[q[0].index] && BindInOrder(q[1..], inOrder[1..]) == BindByNumber(q[1..], args)
    ensures Pick(args, Numbers(q)) <= inOrder
      <==> inOrder != [] && inOrder[0] == args[q[0].index] && Pick(args, Numbers(q[1..])) <= inOrder[1..]
  {
    var own := args[q[0].index];
    var tail := Pick(args, Numbers(q[1..]));
    assert Numbers(q)[0] == q[0].index && Numbers(q)[1..] == Numbers(q[1..]);
    assert Pick(args, Numbers(q)) == [own] + tail;
    if inOrder == [] {
      assert BindInOrder(q, inOrder)[0].Ph? && BindByNumber(q, args)[0].Val?;
    } else {
      var a, b := BindInOrder(q[1..], inOrder[1..]), BindByNumber(q[1..], args);
      assert BindInOrder(q, inOrder) == [Val(inOrder[0])] + a && BindByNumber(q, args) == [Val(own)] + b;
      hide BindInOrder, BindByNumber, Pick, Numbers;
      HeadAndTail(Val(inOrder[0]), a, Val(own), b);
      PrefixHeadAndTail(own, tail, inOrder);
    }
  }

  lemma HeadAndTail<T>(x: T, s: seq<T>, y: T, t: seq<T>)
    ensures [x] + s == [y] + t <==> x == y && s == t
  {
    Cons(x, s, t);
    assert ([x] + s)[0] == x && ([y] + t)[0] == y;
  }

  lemma PrefixHeadAndTail<T>(x: T, s: seq<T>, t: seq<T>)
    requires t != []
    ensures [x] + s <= t <==> x == t[0] && s <= t[1..]
  {
    if [x] + s <= t { assert ([x] + s)[1..] == s && t[..1 + |s|][1..] == t[1..][..|s|]; }
    if x == t[0] && s <= t[1..] { assert t == [t[0]] + t[1..]; }
  }

  lemma BindingsAgree(q: seq<Token>, args: seq<Value>)
    requires forall i :: 0 <= i < |Numbers(q)| ==> Numbers(q)[i] < |args|
    ensures BindInOrder(q, Pick(args, Numbers(q))) == BindByNumber(q, args)
  {
    BindingsAgreeIff(q, args, Pick(args, Numbers(q)));
  }

  lemma {:induction false} ByNumberConcat(a: seq<Token>, b: seq<Token>, args: seq<Value>)
    ensures BindByNumber(a + b, args) == BindByNumber(a, args) + BindByNumber(b, args)
    decreases |a|
  {
    if a == [] {
      assert a + b == b;
    } else {
      assert (a + b)[0] == a[0] && (a + b)[1..] == a[1..] + b;
      ByNumberConcat(a[1..], b, args);
    }
  }

  lemma {:induction false} NumbersConcat(a: seq<Token>, b: seq<Token>)
    ensures Numbers(a + b) == Numbers(a) + Numbers(b)
    decreases |a|
  {
    if a == [] {
      assert a + b == b;
    } else {
      assert (a + b)[0] == a[0] && (a + b)[1..] == a[1..] + b;
      NumbersConcat(a[1..], b);
    }
  }

  /** [from, from + 1, ..., from + n - 1] */
  function Range(from: nat, n: nat): (r: seq<nat>)
    ensures |r| == n && forall i :: 0 <= i < n ==> r[i] == from + i
  {
    seq(n, i => from + i)
  }

  /** Placeholders numbered 0, 1, 2, ... in order of appearance bind the same way either way. */
  lemma InSequenceAgree(q: seq<Token>, args: seq<Value>)
    requires Numbers(q) == Range(0, |args|)
    ensures BindInOrder(q, args) == BindByNumber(q, args)
  {
    BindingsAgree(q, args);
    assert Pick(args, Numbers(q)) == args;
  }

  // ---------- separated lists ----------

  /** Items joined by a separator, as the builders' loops with an i > 0 test or a first flag do. */
  function Sep(items: seq<seq<Token>>, sep: seq<Token>): seq<Token> {
    if items == [] then []
    else if |items| == 1 then items[0]
    else Sep(items[..|items| - 1], sep) + sep + items[|items| - 1]
  }

  function BindItems(items: seq<seq<Token>>, args: seq<Value>): (r: seq<seq<Token>>)
    ensures |r| == |items| && forall i :: 0 <= i < |r| ==> r[i] == BindByNumber(items[i], args)
  {
    seq(|items|, i requires 0 <= i < |items| => BindByNumber(items[i], args))
  }

  lemma {:induction false} BindSep(items: seq<seq<Token>>, text: string, args: seq<Value>)
    ensures BindByNumber(Sep(items, [Raw(text)]), args) == Sep(BindItems(items, args), [Raw(text)])
    decreases |items|
  {
    var bound := BindItems(items, args);
    if |items| > 1 {
      var n := |items| - 1;
      var front := Sep(items[..n], [Raw(text)]);
      BindSep(items[..n], text, args);
      assert bound[..n] == BindItems(items[..n], args);
      ByNumberConcat(front + [Raw(text)], items[n], args);
      ByNumberConcat(front, [Raw(text)], args);
      assert BindByNumber([Raw(text)], args) == [Raw(text)] by { assert [Raw(text)][1..] == []; }
    }
  }

  /** The placeholder numbers of a list of items, one after the other. */
  function ItemNumbers(items: seq<seq<Token>>): seq<nat> {
    if items == [] then [] else ItemNumbers(items[..|items| - 1]) + Numbers(items[|items| - 1])
  }

  lemma {:induction false} SepNumbers(items: seq<seq<Token>>, text: string)
    ensures Numbers(Sep(items, [Raw(text)])) == ItemNumbers(items)
    decreases |items|
  {
    if |items| == 1 {
      assert items[..0] == [];
    } else if |items| > 1 {
      var n := |items| - 1;
      var front := Sep(items[..n], [Raw(text)]);
      SepNumbers(items[..n], text);
      NumbersConcat(front + [Raw(text)], items[n]);
      NumbersConcat(front, [Raw(text)]);
      assert Numbers([Raw(text)]) == [] by { assert [Raw(text)][1..] == []; }
    }
  }
}
