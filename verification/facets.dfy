/**
 * The filter facets of the home page: the distinct categories in catalogue order
 * (`[...new Set(products.map(p => p.category))]`) and the distinct brands sorted
 * (`[...new Set(products.map(p => p.brand))].sort()`).
 */
module Facets {
  import opened Text
  import opened Seqs
  import opened Catalog

  /** Position of the first occurrence of `x` in `xs`. */
  function IndexOf(xs: seq<string>, x: string): (k: nat)
    requires x in xs
    ensures k < |xs| && xs[k] == x && x !in xs[..k]
    decreases |xs|
  {
    if xs[0] == x then 0 else 1 + IndexOf(xs[1..], x)
  }

  /**
   * The values of `xs` without repetitions, as a Set built by inserting them from
   * left to right yields them.
   */
  function Distinct(xs: seq<string>): (r: seq<string>)
    ensures NoDuplicates(r)
    ensures forall x :: x in r <==> x in xs
    decreases |xs|
  {
    if xs == [] then []
    else
      var d := Distinct(xs[..|xs| - 1]);
      var x := xs[|xs| - 1];
      assert xs == xs[..|xs| - 1] + [x];
      if x in d then d else d + [x]
  }

  lemma {:induction false} IndexOfExtend(p: seq<string>, x: string, y: string)
    requires y in p
    ensures IndexOf(p + [x], y) == IndexOf(p, y)
    decreases |p|
  {
    if p[0] != y {
      assert (p + [x])[1..] == p[1..] + [x];
      IndexOfExtend(p[1..], x, y);
    }
  }

  /** Every value of `r` occurs in `xs`, and `r` lists them in the order they first occur there. */
  predicate InFirstOccurrenceOrder(r: seq<string>, xs: seq<string>)
  {
    forall i, j :: 0 <= i < j < |r| ==> r[i] in xs && r[j] in xs && IndexOf(xs, r[i]) < IndexOf(xs, r[j])
  }

  /** `Distinct` lists values in the order of their first occurrence. */
  lemma {:induction false} DistinctKeepsFirstOccurrenceOrder(xs: seq<string>)
    ensures InFirstOccurrenceOrder(Distinct(xs), xs)
    decreases |xs|
  {
    if xs != [] {
      var p := xs[..|xs| - 1];
      var x := xs[|xs| - 1];
      assert xs == p + [x];
      var d := Distinct(p);
      DistinctKeepsFirstOccurrenceOrder(p);
      var r := Distinct(xs);
      forall i | 0 <= i < |d|
        ensures d[i] in p && IndexOf(xs, d[i]) == IndexOf(p, d[i])
      {
        assert d[i] in d;
        IndexOfExtend(p, x, d[i]);
      }
      if x !in d {
        assert r == d + [x];
        assert IndexOf(xs, x) == |p|;
        forall i, j | 0 <= i < j < |r|
          ensures r[i] in xs && r[j] in xs && IndexOf(xs, r[i]) < IndexOf(xs, r[j])
        {
          assert r[i] == d[i];
          if j < |d| {
            assert r[j] == d[j];
            assert IndexOf(p, d[i]) < IndexOf(p, d[j]);
          } else {
            assert r[j] == x;
          }
        }
      } else {
        assert r == d;
      }
    }
  }

  /** Ascending in UTF-16 code-unit order, the default `sort` order. */
  predicate Sorted(s: seq<string>)
  {
    forall i, j :: 0 <= i < j < |s| ==> LexLe(s[i], s[j])
  }

  /** Insertion of one value into a list (one step of the sort). */
  function Insert(x: string, s: seq<string>): (r: seq<string>)
    ensures multiset(r) == multiset(s) + multiset{x}
    ensures forall y :: y in r <==> y == x || y in s
    ensures NoDuplicates(s) && x !in s ==> NoDuplicates(r)
    decreases |s|
  {
    if s == [] then [x]
    else if LexLe(x, s[0]) then [x] + s
    else
      var t := Insert(x, s[1..]);
      assert s == [s[0]] + s[1..];
      assert NoDuplicates(s) && x !in s ==> s[0] !in t && NoDuplicates(t);
      NoDuplicatesCons(s[0], t);
      [s[0]] + t
  }

  lemma NoDuplicatesCons(a: string, t: seq<string>)
    ensures a !in t && NoDuplicates(t) ==> NoDuplicates([a] + t)
  {
    if a !in t && NoDuplicates(t) {
      var r := [a] + t;
      forall i, j | 0 <= i < j < |r| ensures r[i] != r[j] {
        assert r[j] == t[j - 1];
        if i > 0 {
          assert r[i] == t[i - 1];
        }
      }
    }
  }

  lemma {:induction false} InsertSorted(x: string, s: seq<string>)
    requires Sorted(s)
    ensures Sorted(Insert(x, s))
    decreases |s|
  {
    if s != [] {
      var r := Insert(x, s);
      if LexLe(x, s[0]) {
        assert r == [x] + s;
        forall i, j | 0 <= i < j < |r| ensures LexLe(r[i], r[j]) {
          if i == 0 && j > 1 {
            LexLeTransitive(x, s[0], s[j - 1]);
          }
        }
      } else {
        LexLeTotal(x, s[0]);
        InsertSorted(x, s[1..]);
        var t := Insert(x, s[1..]);
        assert r == [s[0]] + t;
        forall i, j | 0 <= i < j < |r| ensures LexLe(r[i], r[j]) {
          if i == 0 {
            assert r[j] == t[j - 1] && t[j - 1] in t;
            if r[j] != x {
              var k :| 0 <= k < |s[1..]| && s[1..][k] == r[j];
              assert s[k + 1] == r[j];
            }
          } else {
            assert r[i] == t[i - 1] && r[j] == t[j - 1];
          }
        }
      }
    }
  }

  /** Insertion sort in UTF-16 code-unit order. */
  function SortStrings(s: seq<string>): (r: seq<string>)
    ensures Sorted(r)
    ensures multiset(r) == multiset(s)
    ensures forall y :: y in r <==> y in s
    ensures NoDuplicates(s) ==> NoDuplicates(r)
    decreases |s|
  {
    if s == [] then []
    else
      var t := SortStrings(s[1..]);
      InsertSorted(s[0], t);
      assert s == [s[0]] + s[1..];
      Insert(s[0], t)
  }

  function CategoryList(products: seq<Product>): (r: seq<string>)
    ensures |r| == |products|
  {
    seq(|products|, i requires 0 <= i < |products| => products[i].category)
  }

  function BrandList(products: seq<Product>): (r: seq<string>)
    ensures |r| == |products|
  {
    seq(|products|, i requires 0 <= i < |products| => products[i].brand)
  }

  /** `categories`: each catalogue category once, in the order it first appears. */
  function Categories(products: seq<Product>): (r: seq<string>)
    ensures NoDuplicates(r)
    ensures forall c :: c in r <==> exists i :: 0 <= i < |products| && products[i].category == c
    ensures InFirstOccurrenceOrder(r, CategoryList(products))
  {
    var all := CategoryList(products);
    DistinctKeepsFirstOccurrenceOrder(all);
    assert forall c :: c in all <==> exists i :: 0 <= i < |products| && products[i].category == c by {
      forall c ensures c in all <==> exists i :: 0 <= i < |products| && products[i].category == c {
        if c in all {
          var i :| 0 <= i < |all| && all[i] == c;
          assert products[i].category == c;
        }
        if exists i :: 0 <= i < |products| && products[i].category == c {
          var i :| 0 <= i < |products| && products[i].category == c;
          assert all[i] == c;
        }
      }
    }
    Distinct(all)
  }

  /** `brands`: each catalogue brand once, in strictly ascending order. */
  function Brands(products: seq<Product>): (r: seq<string>)
    ensures NoDuplicates(r)
    ensures forall i, j :: 0 <= i < j < |r| ==> LexLe(r[i], r[j]) && r[i] != r[j]
    ensures forall b :: b in r <==> exists i :: 0 <= i < |products| && products[i].brand == b
  {
    var all := BrandList(products);
    assert forall b :: b in all <==> exists i :: 0 <= i < |products| && products[i].brand == b by {
      forall b ensures b in all <==> exists i :: 0 <= i < |products| && products[i].brand == b {
        if b in all {
          var i :| 0 <= i < |all| && all[i] == b;
          assert products[i].brand == b;
        }
        if exists i :: 0 <= i < |products| && products[i].brand == b {
          var i :| 0 <= i < |products| && products[i].brand == b;
          assert all[i] == b;
        }
      }
    }
    SortStrings(Distinct(all))
  }
}
