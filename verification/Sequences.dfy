/** Selection and canonical order of sequences: what sorted tuples and comprehensions yield. */
module Sequences {

  function Select<T>(xs: seq<T>, keep: T -> bool): seq<T> {
    if xs == [] then []
    else Select(xs[..|xs| - 1], keep) + if keep(xs[|xs| - 1]) then [xs[|xs| - 1]] else []
  }

  lemma {:induction false} SelectAppend<T>(a: seq<T>, b: seq<T>, keep: T -> bool)
    ensures Select(a + b, keep) == Select(a, keep) + Select(b, keep)
  {
    if b == [] {
      assert a + b == a;
    } else {
      SelectAppend(a, b[..|b| - 1], keep);
      assert (a + b)[..|a + b| - 1] == a + b[..|b| - 1];
    }
  }

  lemma {:induction false} SelectAgrees<T>(xs: seq<T>, f: T -> bool, g: T -> bool)
    requires forall x :: x in xs ==> f(x) == g(x)
    ensures Select(xs, f) == Select(xs, g)
  {
    if xs != [] {
      SelectAgrees(xs[..|xs| - 1], f, g);
    }
  }

  lemma {:induction false} SelectMembers<T>(xs: seq<T>, keep: T -> bool, x: T)
    ensures x in Select(xs, keep) <==> x in xs && keep(x)
  {
    if xs != [] {
      SelectMembers(xs[..|xs| - 1], keep, x);
      assert xs == xs[..|xs| - 1] + [xs[|xs| - 1]];
    }
  }

  // ---------------------------------------------------------------- the order of text

  /** Lexicographic order by code point. */
  predicate TextLess(a: string, b: string) {
    b != [] && (a == [] || a[0] < b[0] || (a[0] == b[0] && TextLess(a[1..], b[1..])))
  }

  /** One text is less than another exactly when it is a proper prefix of it or has the smaller
      character at the first place where they differ. */
  lemma {:induction false} TextLessExactly(a: string, b: string)
    ensures TextLess(a, b) <==>
            exists k :: 0 <= k <= |a| && k < |b| && a[..k] == b[..k] && (k == |a| || a[k] < b[k])
  {
    if a == [] || b == [] || a[0] != b[0] {
      if b != [] { assert a[..0] == b[..0]; }
      return;
    }
    TextLessExactly(a[1..], b[1..]);
    if k :| 0 <= k <= |a[1..]| && k < |b[1..]| && a[1..][..k] == b[1..][..k] && (k == |a[1..]| || a[1..][k] < b[1..][k]) {
      assert a[..k + 1] == [a[0]] + a[1..][..k] && b[..k + 1] == [b[0]] + b[1..][..k];
    }
    if k :| 0 <= k <= |a| && k < |b| && a[..k] == b[..k] && (k == |a| || a[k] < b[k]) {
      assert a[1..][..k - 1] == a[..k][1..] && b[1..][..k - 1] == b[..k][1..];
    }
  }

  lemma {:induction false} TextTotal(a: string, b: string)
    ensures TextLess(a, b) || TextLess(b, a) || a == b
    ensures !(TextLess(a, b) && TextLess(b, a))
    ensures a == b ==> !TextLess(a, b)
  {
    if a != [] && b != [] && a[0] == b[0] {
      TextTotal(a[1..], b[1..]);
      assert a == [a[0]] + a[1..] && b == [b[0]] + b[1..];
    }
  }

  lemma {:induction false} TextTransitive(a: string, b: string, c: string)
    requires TextLess(a, b) && TextLess(b, c)
    ensures TextLess(a, c)
  {
    if a != [] && a[0] == b[0] == c[0] {
      TextTransitive(a[1..], b[1..], c[1..]);
    }
  }

  // ---------------------------------------------------------------- sorting

  /** A strict order that tells any two different elements of a collection apart. */
  ghost predicate Orders<T(!new)>(less: (T, T) -> bool, elements: set<T>) {
    && (forall a :: a in elements ==> !less(a, a))
    && (forall a, b :: a in elements && b in elements && a != b ==> less(a, b) || less(b, a))
    && (forall a, b, c :: a in elements && b in elements && c in elements && less(a, b) && less(b, c) ==> less(a, c))
  }

  ghost predicate Ascending<T>(less: (T, T) -> bool, xs: seq<T>) {
    forall i, j :: 0 <= i < j < |xs| ==> less(xs[i], xs[j])
  }

  /** Text order tells any texts apart. */
  lemma TextOrders(texts: set<string>)
    ensures Orders(TextLess, texts)
  {
    forall a | a in texts ensures !TextLess(a, a) { TextTotal(a, a); }
    forall a, b | a in texts && b in texts && a != b ensures TextLess(a, b) || TextLess(b, a) { TextTotal(a, b); }
    forall a, b, c | a in texts && b in texts && c in texts && TextLess(a, b) && TextLess(b, c) ensures TextLess(a, c) {
      TextTransitive(a, b, c);
    }
  }

  function Elements<T>(xs: seq<T>): set<T> { set x | x in xs }

  /** Place an element; one that is already there is not placed again. */
  function Insert<T(==)>(less: (T, T) -> bool, x: T, xs: seq<T>): seq<T> {
    if xs == [] then [x]
    else if x == xs[0] then xs
    else if less(x, xs[0]) then [x] + xs
    else [xs[0]] + Insert(less, x, xs[1..])
  }

  function SortUnique<T(==)>(less: (T, T) -> bool, xs: seq<T>): seq<T> {
    if xs == [] then [] else Insert(less, xs[|xs| - 1], SortUnique(less, xs[..|xs| - 1]))
  }

  lemma SortOne<T>(less: (T, T) -> bool, x: T)
    ensures SortUnique(less, [x]) == [x]
  {
    assert [x][..0] == [];
    assert SortUnique(less, [x][..0]) == [];
  }

  lemma {:induction false} InsertElements<T>(less: (T, T) -> bool, x: T, xs: seq<T>)
    ensures Elements(Insert(less, x, xs)) == Elements(xs) + {x}
  {
    if xs != [] {
      InsertElements(less, x, xs[1..]);
      assert xs == [xs[0]] + xs[1..];
      assert Elements(xs) == {xs[0]} + Elements(xs[1..]);
      if x != xs[0] && !less(x, xs[0]) {
        var t := Insert(less, x, xs[1..]);
        assert Elements([xs[0]] + t) == {xs[0]} + Elements(t);
      } else if x != xs[0] {
        assert Elements([x] + xs) == {x} + Elements(xs);
      }
    }
  }

  lemma {:induction false} InsertAscending<T(!new)>(less: (T, T) -> bool, x: T, xs: seq<T>)
    requires Orders(less, Elements(xs) + {x}) && Ascending(less, xs)
    ensures Ascending(less, Insert(less, x, xs))
  {
    if xs == [] || x == xs[0] {
      return;
    }
    assert forall j :: 0 <= j < |xs| ==> xs[j] in Elements(xs);
    if less(x, xs[0]) {
      forall j | 0 <= j < |xs| ensures less(x, xs[j]) {
        if j > 0 { assert less(xs[0], xs[j]); }
      }
      return;
    }
    assert Elements(xs[1..]) <= Elements(xs);
    InsertAscending(less, x, xs[1..]);
    InsertElements(less, x, xs[1..]);
    PrependAscending(less, xs, x, Insert(less, x, xs[1..]));
  }

  lemma PrependAscending<T(!new)>(less: (T, T) -> bool, xs: seq<T>, x: T, t: seq<T>)
    requires xs != [] && Ascending(less, xs) && less(xs[0], x) && Ascending(less, t) && Elements(t) == Elements(xs[1..]) + {x}
    ensures Ascending(less, [xs[0]] + t)
  {
    forall j | 0 <= j < |t| ensures less(xs[0], t[j]) {
      assert t[j] in Elements(t);
      if t[j] != x { var k :| 0 <= k < |xs| - 1 && xs[1..][k] == t[j]; }
    }
  }

  lemma {:induction false} SortElements<T>(less: (T, T) -> bool, xs: seq<T>)
    ensures Elements(SortUnique(less, xs)) == Elements(xs)
  {
    if xs != [] {
      var n := |xs| - 1;
      SortElements(less, xs[..n]);
      InsertElements(less, xs[n], SortUnique(less, xs[..n]));
      assert xs == xs[..n] + [xs[n]];
    }
  }

  lemma {:induction false} SortAscending<T(!new)>(less: (T, T) -> bool, xs: seq<T>)
    requires Orders(less, Elements(xs))
    ensures Ascending(less, SortUnique(less, xs))
  {
    if xs != [] {
      var n := |xs| - 1;
      assert xs == xs[..n] + [xs[n]];
      assert Elements(xs) == Elements(xs[..n]) + {xs[n]};
      SortAscending(less, xs[..n]);
      SortElements(less, xs[..n]);
      InsertAscending(less, xs[n], SortUnique(less, xs[..n]));
    }
  }

  lemma {:induction false} InsertAgrees<T>(f: (T, T) -> bool, g: (T, T) -> bool, x: T, xs: seq<T>)
    requires forall y :: y in xs ==> f(x, y) == g(x, y)
    ensures Insert(f, x, xs) == Insert(g, x, xs)
  {
    if xs != [] && x != xs[0] && !f(x, xs[0]) {
      assert xs[0] in xs;
      InsertAgrees(f, g, x, xs[1..]);
    }
  }

  lemma {:induction false} SortAgrees<T>(f: (T, T) -> bool, g: (T, T) -> bool, xs: seq<T>)
    requires forall x, y :: x in xs && y in xs ==> f(x, y) == g(x, y)
    ensures SortUnique(f, xs) == SortUnique(g, xs)
  {
    if xs != [] {
      var n := |xs| - 1;
      SortAgrees(f, g, xs[..n]);
      SortElements(f, xs[..n]);
      forall y | y in SortUnique(f, xs[..n]) ensures f(xs[n], y) == g(xs[n], y) {
        assert y in Elements(xs[..n]);
      }
      InsertAgrees(f, g, xs[n], SortUnique(f, xs[..n]));
    }
  }

  /** There is only one way to list a collection in order. */
  lemma {:induction false} AscendingIsUnique<T(!new)>(less: (T, T) -> bool, a: seq<T>, b: seq<T>)
    requires Orders(less, Elements(a)) && Elements(a) == Elements(b) && Ascending(less, a) && Ascending(less, b)
    ensures a == b
  {
    if a == [] {
      assert forall i :: 0 <= i < |b| ==> b[i] in Elements(b);
    } else {
      assert a[0] in Elements(b);
      assert b[0] in Elements(a) by { assert b[0] in Elements(b); }
      var i :| 0 <= i < |b| && b[i] == a[0];
      var j :| 0 <= j < |a| && a[j] == b[0];
      assert a[0] == b[0];
      TailElements(less, a);
      TailElements(less, b);
      AscendingIsUnique(less, a[1..], b[1..]);
      assert a == [a[0]] + a[1..] && b == [b[0]] + b[1..];
    }
  }

  lemma TailElements<T(!new)>(less: (T, T) -> bool, a: seq<T>)
    requires a != [] && Orders(less, Elements(a)) && Ascending(less, a)
    ensures Elements(a[1..]) == Elements(a) - {a[0]}
  {
    assert a == [a[0]] + a[1..];
    forall x | x in a[1..] ensures x != a[0] {
      var k :| 0 <= k < |a| - 1 && a[1..][k] == x;
      assert less(a[0], a[k + 1]) && a[0] in Elements(a);
    }
  }

  /** Sorting forgets arrival order and repetition. */
  lemma SortForgetsArrival<T(!new)>(less: (T, T) -> bool, a: seq<T>, b: seq<T>)
    requires Elements(a) == Elements(b) && Orders(less, Elements(a))
    ensures SortUnique(less, a) == SortUnique(less, b)
  {
    SortElements(less, a);
    SortElements(less, b);
    SortAscending(less, a);
    SortAscending(less, b);
    AscendingIsUnique(less, SortUnique(less, a), SortUnique(less, b));
  }

  /** Where a new element goes. */
  lemma {:induction false} InsertSplits<T>(less: (T, T) -> bool, x: T, xs: seq<T>) returns (p: seq<T>, q: seq<T>)
    requires x !in xs
    ensures xs == p + q && Insert(less, x, xs) == p + [x] + q
  {
    if xs == [] || less(x, xs[0]) {
      p, q := [], xs;
    } else {
      var p', q' := InsertSplits(less, x, xs[1..]);
      p, q := [xs[0]] + p', q';
      assert xs == [xs[0]] + xs[1..];
    }
  }

  ghost predicate Distinct<T>(xs: seq<T>) {
    forall i, j :: 0 <= i < j < |xs| ==> xs[i] != xs[j]
  }

  lemma {:induction false} DistinctLength<T>(xs: seq<T>)
    requires Distinct(xs)
    ensures |Elements(xs)| == |xs|
  {
    if xs != [] {
      var n := |xs| - 1;
      DistinctLength(xs[..n]);
      assert xs == xs[..n] + [xs[n]];
      assert Elements(xs) == Elements(xs[..n]) + {xs[n]};
    }
  }

  lemma {:induction false} SelectDistinct<T>(xs: seq<T>, keep: T -> bool)
    requires Distinct(xs)
    ensures Distinct(Select(xs, keep))
  {
    if xs != [] {
      var n := |xs| - 1;
      SelectDistinct(xs[..n], keep);
      SelectMembers(xs[..n], keep, xs[n]);
    }
  }
}
