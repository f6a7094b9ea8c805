/** Python's ordering of strings, and `sorted(set(xs))` over strings. */
module Sorting {
  /** `a < b` on Python strings: code point by code point, a proper prefix before the longer string. */
  predicate Below(a: string, b: string)
    decreases |a|
  {
    if a == [] then b != []
    else if b == [] then false
    else if a[0] != b[0] then a[0] < b[0]
    else Below(a[1..], b[1..])
  }

  lemma {:induction false} BelowIrreflexive(a: string)
    ensures !Below(a, a)
    decreases |a|
  {
    if a != [] {
      BelowIrreflexive(a[1..]);
    }
  }

  lemma {:induction false} BelowTransitive(a: string, b: string, c: string)
    requires Below(a, b) && Below(b, c)
    ensures Below(a, c)
    decreases |a|
  {
    if a != [] && b != [] && c != [] && a[0] == b[0] && b[0] == c[0] {
      BelowTransitive(a[1..], b[1..], c[1..]);
    }
  }

  /** Two different strings are ordered one way or the other, and never both ways. */
  lemma {:induction false} BelowTotal(a: string, b: string)
    requires a != b
    ensures Below(a, b) <==> !Below(b, a)
    decreases |a|
  {
    if a != [] && b != [] && a[0] == b[0] {
      assert a == [a[0]] + a[1..] && b == [b[0]] + b[1..];
      BelowTotal(a[1..], b[1..]);
    }
  }

  /** Strictly increasing, hence free of duplicates. */
  predicate Increasing(s: seq<string>) {
    forall i, j :: 0 <= i < j < |s| ==> Below(s[i], s[j])
  }

  /** An increasing sequence holds no element twice. */
  lemma IncreasingDistinct(s: seq<string>)
    requires Increasing(s)
    ensures forall i, j :: 0 <= i < j < |s| ==> s[i] != s[j]
  {
    forall i, j | 0 <= i < j < |s|
      ensures s[i] != s[j]
    {
      BelowIrreflexive(s[i]);
    }
  }

  /** `x` put in its place in an increasing sequence, unless it is already there. */
  function Insert(s: seq<string>, x: string): (r: seq<string>)
    requires Increasing(s)
    ensures Increasing(r)
    ensures forall y :: y in r <==> y in s || y == x
    decreases |s|
  {
    if s == [] then [x]
    else if x == s[0] then s
    else if Below(x, s[0]) then
      assert forall j :: 0 <= j < |s| ==> Below(x, s[j]) by {
        forall j | 0 <= j < |s|
          ensures Below(x, s[j])
        {
          if j > 0 {
            BelowTransitive(x, s[0], s[j]);
          }
        }
      }
      [x] + s
    else
      BelowTotal(x, s[0]);
      var rest := Insert(s[1..], x);
      assert forall y :: y in rest ==> Below(s[0], y) by {
        forall y | y in rest
          ensures Below(s[0], y)
        {
          if y != x {
            var j :| 0 <= j < |s[1..]| && s[1..][j] == y;
            assert s[j + 1] == y;
          }
        }
      }
      [s[0]] + rest
  }

  /** `sorted(set(xs))`: the distinct elements of `xs` in increasing order. */
  function SortedSet(xs: seq<string>): (r: seq<string>)
    ensures Increasing(r)
    ensures forall y :: y in r <==> y in xs
    decreases |xs|
  {
    if xs == [] then []
    else
      var init := xs[..|xs| - 1];
      assert xs == init + [xs[|xs| - 1]];
      Insert(SortedSet(init), xs[|xs| - 1])
  }

  /**
   * An increasing sequence is fixed by its elements: the sorted set does
   * not depend on the order or the repetitions of the input.
   */
  lemma {:induction false} IncreasingUnique(a: seq<string>, b: seq<string>)
    requires Increasing(a) && Increasing(b)
    requires forall y :: y in a <==> y in b
    ensures a == b
    decreases |a|
  {
    SameMembersEmpty(a, b);
    if a != [] {
      if a[0] != b[0] {
        assert b[0] in a && a[0] in b;
        var i :| 0 <= i < |a| && a[i] == b[0];
        var j :| 0 <= j < |b| && b[j] == a[0];
        assert i > 0 && j > 0;
        BelowTotal(a[0], b[0]);
      }
      IncreasingDistinct(a);
      IncreasingDistinct(b);
      forall y
        ensures y in a[1..] <==> y in b[1..]
      {
        if y in a[1..] {
          var i :| 0 <= i < |a[1..]| && a[1..][i] == y;
          assert y != a[0] by {
            assert a[i + 1] == y;
          }
          assert y in b;
          var j :| 0 <= j < |b| && b[j] == y;
          assert j != 0;
          assert b[1..][j - 1] == y;
        }
        if y in b[1..] {
          var j :| 0 <= j < |b[1..]| && b[1..][j] == y;
          assert y != b[0] by {
            assert b[j + 1] == y;
          }
          assert y in a;
          var i :| 0 <= i < |a| && a[i] == y;
          assert i != 0;
          assert a[1..][i - 1] == y;
        }
      }
      IncreasingUnique(a[1..], b[1..]);
      assert a == [a[0]] + a[1..] && b == [b[0]] + b[1..];
    }
  }

  lemma SameMembersEmpty(a: seq<string>, b: seq<string>)
    requires forall y :: y in a <==> y in b
    ensures a == [] <==> b == []
  {
    if a != [] {
      assert a[0] in b;
    }
    if b != [] {
      assert b[0] in a;
    }
  }
}
