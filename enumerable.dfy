/** The `System.Linq` query operators the catalog build and the matcher are
    written with, as functions over sequences: `SelectMany`, `Where`, `Union`
    and `FirstOrDefault`. Each contract gives membership; the order of
    `SelectMany`, `Where` and `Union` is stated by the lemmas beside them. */
module Enumerable {
  import opened Wrappers

  /** Concatenates `f(x)` over `s`, in the order of `s`. */
  function SelectMany<A(!new), B(!new)>(s: seq<A>, f: A -> seq<B>): (r: seq<B>)
    ensures forall y :: y in r <==> exists x :: x in s && y in f(x)
  {
    if s == [] then []
    else
      var rest := SelectMany(s[1..], f);
      assert forall x :: x in s[1..] ==> x in s;
      assert forall x :: x in s ==> x == s[0] || x in s[1..];
      f(s[0]) + rest
  }

  /** SelectMany keeps the order of its source: it distributes over concatenation. */
  lemma {:induction false} SelectManyAppend<A(!new), B(!new)>(a: seq<A>, b: seq<A>, f: A -> seq<B>)
    ensures SelectMany(a + b, f) == SelectMany(a, f) + SelectMany(b, f)
  {
    if a == [] {
      assert a + b == b;
    } else {
      assert (a + b)[1..] == a[1..] + b;
      SelectManyAppend(a[1..], b, f);
    }
  }

  /** One source element contributes exactly its own block, in the block's
      order; with `SelectManyAppend` this fixes `SelectMany` completely. */
  lemma {:induction false} SelectManyOne<A(!new), B(!new)>(x: A, f: A -> seq<B>)
    ensures SelectMany([x], f) == f(x)
  {
    assert [x][1..] == [];
  }

  /** `f` applied to every element of `s`, in the order of `s`. */
  function Select<A(!new), B(!new)>(s: seq<A>, f: A -> B): (r: seq<B>)
    ensures |r| == |s|
    ensures forall k :: 0 <= k < |s| ==> r[k] == f(s[k])
    ensures forall y :: y in r <==> exists x :: x in s && y == f(x)
  {
    if s == [] then []
    else
      var rest := Select(s[1..], f);
      assert forall x :: x in s ==> x == s[0] || x in s[1..];
      assert forall x :: x in s[1..] ==> x in s;
      [f(s[0])] + rest
  }

  /** The elements of `s` that satisfy `p`, in the order of `s`. */
  function Where<T(!new)>(s: seq<T>, p: T -> bool): (r: seq<T>)
    ensures |r| <= |s|
    ensures forall x :: x in r <==> x in s && p(x)
  {
    if s == [] then []
    else
      var rest := Where(s[1..], p);
      assert forall x :: x in s[1..] ==> x in s;
      assert forall x :: x in s ==> x == s[0] || x in s[1..];
      if p(s[0]) then [s[0]] + rest else rest
  }

  /** Nothing passes the filter when no element satisfies the predicate. */
  lemma {:induction false} WhereNone<T(!new)>(s: seq<T>, p: T -> bool)
    requires forall x :: x in s ==> !p(x)
    ensures Where(s, p) == []
  {
    if s != [] {
      assert forall x :: x in s[1..] ==> x in s;
      WhereNone(s[1..], p);
    }
  }

  /** Where keeps the order of its source: it distributes over concatenation. */
  lemma {:induction false} WhereAppend<T(!new)>(a: seq<T>, b: seq<T>, p: T -> bool)
    ensures Where(a + b, p) == Where(a, p) + Where(b, p)
  {
    if a == [] {
      assert a + b == b;
    } else {
      assert (a + b)[1..] == a[1..] + b;
      WhereAppend(a[1..], b, p);
    }
  }

  /** Where depends on its predicate only through the elements it is asked about. */
  lemma {:induction false} WhereCongruent<T(!new)>(s: seq<T>, p: T -> bool, q: T -> bool)
    requires forall x :: x in s ==> p(x) == q(x)
    ensures Where(s, p) == Where(s, q)
  {
    if s != [] {
      assert forall x :: x in s[1..] ==> x in s;
      WhereCongruent(s[1..], p, q);
    }
  }

  /** The first element of `s` that satisfies `p`, or `None` when there is none. */
  function FirstOrDefault<T>(s: seq<T>, p: T -> bool): (r: Option<T>)
    ensures r.None? <==> forall x :: x in s ==> !p(x)
    ensures r.Some? ==> exists k :: 0 <= k < |s| && s[k] == r.value && p(s[k]) &&
                                    forall j :: 0 <= j < k ==> !p(s[j])
  {
    if s == [] then None
    else if p(s[0]) then Some(s[0])
    else
      var rest := FirstOrDefault(s[1..], p);
      assert forall x :: x in s ==> x == s[0] || x in s[1..];
      assert rest.Some? ==> exists k :: 0 <= k < |s| && s[k] == rest.value && p(s[k]) &&
                                        forall j :: 0 <= j < k ==> !p(s[j]) by {
        if rest.Some? {
          var k :| 0 <= k < |s[1..]| && s[1..][k] == rest.value && p(s[1..][k]) &&
                   forall j :: 0 <= j < k ==> !p(s[1..][j]);
          assert s[k + 1] == rest.value;
          assert forall j :: 1 <= j < k + 1 ==> s[j] == s[1..][j - 1];
        }
      }
      rest
  }

  /** Taking the first element that satisfies `q` among those that satisfy `p`
      is taking the first element of the whole sequence that satisfies both. */
  lemma {:induction false} FirstOrDefaultOfWhere<T(!new)>(s: seq<T>, p: T -> bool, q: T -> bool, both: T -> bool)
    requires forall x :: both(x) == (p(x) && q(x))
    ensures FirstOrDefault(Where(s, p), q) == FirstOrDefault(s, both)
  {
    if s != [] {
      FirstOrDefaultOfWhere(s[1..], p, q, both);
      if p(s[0]) {
        assert Where(s, p) == [s[0]] + Where(s[1..], p);
        assert ([s[0]] + Where(s[1..], p))[1..] == Where(s[1..], p);
      }
    }
  }

  /** FirstOrDefault depends on its predicate only through the elements it is asked about. */
  lemma {:induction false} FirstOrDefaultCongruent<T(!new)>(s: seq<T>, p: T -> bool, q: T -> bool)
    requires forall x :: x in s ==> p(x) == q(x)
    ensures FirstOrDefault(s, p) == FirstOrDefault(s, q)
  {
    if s != [] {
      assert forall x :: x in s[1..] ==> x in s;
      FirstOrDefaultCongruent(s[1..], p, q);
    }
  }

  /** Every element of the sequence is distinct from every other. */
  predicate NoDuplicates<T(==)>(s: seq<T>) {
    forall i, j :: 0 <= i < j < |s| ==> s[i] != s[j]
  }

  /** The elements of a sequence as a set. */
  function Elements<T>(s: seq<T>): set<T> {
    set x | x in s
  }

  /** The elements of `s` not in `seen`, each kept at its first occurrence, in
      the order of `s`: the enumeration LINQ's `Distinct` and `Union` perform
      with a growing set of yielded elements. */
  function DistinctFrom<T(==,!new)>(s: seq<T>, seen: set<T>): (r: seq<T>)
    ensures forall x :: x in r <==> x in s && x !in seen
    ensures NoDuplicates(r)
  {
    if s == [] then []
    else
      assert forall x :: x in s[1..] ==> x in s;
      assert forall x :: x in s ==> x == s[0] || x in s[1..];
      if s[0] in seen then DistinctFrom(s[1..], seen)
      else
        var rest := DistinctFrom(s[1..], seen + {s[0]});
        assert s[0] !in rest;
        [s[0]] + rest
  }

  /** `first.Union(second)`: the distinct elements of `first`, then the
      distinct elements of `second` not already yielded. */
  function Union<T(==,!new)>(first: seq<T>, second: seq<T>): (r: seq<T>)
    ensures forall x :: x in r <==> x in first || x in second
    ensures NoDuplicates(r)
  {
    DistinctFrom(first + second, {})
  }

  /** The enumeration of a concatenation is the enumeration of the first part
      followed by that of the second, with the first part's elements already seen. */
  lemma {:induction false} DistinctFromAppend<T(!new)>(a: seq<T>, b: seq<T>, seen: set<T>)
    ensures DistinctFrom(a + b, seen) == DistinctFrom(a, seen) + DistinctFrom(b, seen + Elements(a))
  {
    if a == [] {
      assert a + b == b;
      assert seen + Elements(a) == seen;
    } else {
      assert (a + b)[0] == a[0];
      assert (a + b)[1..] == a[1..] + b;
      assert Elements(a) == {a[0]} + Elements(a[1..]);
      if a[0] in seen {
        DistinctFromAppend(a[1..], b, seen);
        assert seen + Elements(a[1..]) == seen + Elements(a);
      } else {
        DistinctFromAppend(a[1..], b, seen + {a[0]});
        assert seen + {a[0]} + Elements(a[1..]) == seen + Elements(a);
      }
    }
  }

  /** Union keeps order: first's distinct elements come first, untouched. */
  lemma UnionOrder<T(!new)>(first: seq<T>, second: seq<T>)
    ensures Union(first, second) == DistinctFrom(first, {}) + DistinctFrom(second, Elements(first))
  {
    DistinctFromAppend(first, second, {});
    assert {} + Elements(first) == Elements(first);
  }
}
