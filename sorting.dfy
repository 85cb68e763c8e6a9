/**
 * `xs.sort((a, b) => key(b) - key(a))`: JavaScript's sort is stable, so
 * the result is the unique stable arrangement by non-increasing key.
 */
module Sorting {
  import opened Seqs

  predicate SortedDesc<T>(xs: seq<T>, key: T -> real) {
    forall i, j :: 0 <= i < j < |xs| ==> key(xs[i]) >= key(xs[j])
  }

  /** Places `x` after every element whose key is at least as large. */
  function Insert<T(==)>(ys: seq<T>, x: T, key: T -> real): (r: seq<T>)
    ensures |r| == |ys| + 1
    ensures multiset(r) == multiset(ys) + multiset{x}
    ensures SortedDesc(ys, key) ==> SortedDesc(r, key)
    ensures r != [] && (key(r[0]) == key(x) || (ys != [] && key(r[0]) == key(ys[0])))
  {
    if ys == [] then [x]
    else if key(ys[0]) < key(x) then [x] + ys
    else
      var rest := Insert(ys[1..], x, key);
      assert ys == [ys[0]] + ys[1..];
      [ys[0]] + rest
  }

  /** Stable insertion sort by non-increasing key. */
  function SortDesc<T(==)>(xs: seq<T>, key: T -> real): (r: seq<T>)
    ensures |r| == |xs|
    ensures multiset(r) == multiset(xs)
    ensures SortedDesc(r, key)
    decreases |xs|
  {
    if xs == [] then []
    else
      assert xs == xs[..|xs| - 1] + [xs[|xs| - 1]];
      Insert(SortDesc(xs[..|xs| - 1], key), xs[|xs| - 1], key)
  }

  /** The first element of the sorted list has the largest key of the input. */
  lemma SortDescFirstIsMax<T>(xs: seq<T>, key: T -> real)
    requires xs != []
    ensures forall x :: x in xs ==> key(SortDesc(xs, key)[0]) >= key(x)
  {
    var r := SortDesc(xs, key);
    forall x | x in xs ensures key(r[0]) >= key(x) {
      assert x in multiset(xs);
      assert x in multiset(r);
      var k :| 0 <= k < |r| && r[k] == x;
    }
  }

  /** No two elements carry the same tag. */
  predicate TagsUnique<T>(xs: seq<T>, tag: T -> string) {
    forall i, j :: 0 <= i < j < |xs| ==> tag(xs[i]) != tag(xs[j])
  }

  lemma {:induction false} InsertTagsUnique<T>(ys: seq<T>, x: T, key: T -> real, tag: T -> string)
    requires TagsUnique(ys, tag) && forall y :: y in ys ==> tag(y) != tag(x)
    ensures TagsUnique(Insert(ys, x, key), tag)
    decreases |ys|
  {
    if ys != [] && key(ys[0]) >= key(x) {
      var rest := Insert(ys[1..], x, key);
      InsertTagsUnique(ys[1..], x, key, tag);
      forall z | z in rest ensures tag(z) != tag(ys[0]) {
        assert z in multiset(rest);
        assert z == x || z in multiset(ys[1..]);
      }
    }
  }

  /** Sorting keeps tags unique: it only rearranges the elements. */
  lemma {:induction false} SortDescTagsUnique<T>(xs: seq<T>, key: T -> real, tag: T -> string)
    requires TagsUnique(xs, tag)
    ensures TagsUnique(SortDesc(xs, key), tag)
    decreases |xs|
  {
    if xs != [] {
      var init := xs[..|xs| - 1];
      var x := xs[|xs| - 1];
      SortDescTagsUnique(init, key, tag);
      forall y | y in SortDesc(init, key) ensures tag(y) != tag(x) {
        assert y in multiset(SortDesc(init, key));
        assert y in init;
      }
      InsertTagsUnique(SortDesc(init, key), x, key, tag);
    }
  }

  /** The elements whose key is `v`. */
  function KeyIs<T>(key: T -> real, v: real): T -> bool {
    y => key(y) == v
  }

  /** A sorted list whose keys all lie below `v` has no element of key `v`. */
  lemma {:induction false} BelowFilterNone<T>(ys: seq<T>, key: T -> real, v: real)
    requires SortedDesc(ys, key) && (ys == [] || key(ys[0]) < v)
    ensures Filter(ys, KeyIs(key, v)) == []
    decreases |ys|
  {
    if ys != [] {
      assert ys == [ys[0]] + ys[1..];
      FilterCons(ys[0], ys[1..], KeyIs(key, v));
      SortedDescTail(ys, key);
      BelowFilterNone(ys[1..], key, v);
    }
  }

  /** Inserting in front of a list of smaller keys: `x` is the only element of its key. */
  lemma InsertInFront<T>(ys: seq<T>, x: T, key: T -> real, v: real)
    requires SortedDesc(ys, key) && (ys == [] || key(ys[0]) < key(x))
    ensures Filter(Insert(ys, x, key), KeyIs(key, v)) ==
      Filter(ys, KeyIs(key, v)) + (if key(x) == v then [x] else [])
  {
    var p := KeyIs(key, v);
    assert Insert(ys, x, key) == [x] + ys;
    FilterCons(x, ys, p);
    if key(x) == v {
      BelowFilterNone(ys, key, v);
      assert Filter([x] + ys, p) == [x] + [];
    } else {
      assert Filter([x] + ys, p) == [] + Filter(ys, p);
    }
  }

  /** The tail of a sorted list is sorted. */
  lemma SortedDescTail<T>(ys: seq<T>, key: T -> real)
    requires SortedDesc(ys, key) && ys != []
    ensures SortedDesc(ys[1..], key)
  {
    forall i, j | 0 <= i < j < |ys| - 1 ensures key(ys[1..][i]) >= key(ys[1..][j]) {
      assert ys[1..][i] == ys[i + 1] && ys[1..][j] == ys[j + 1];
    }
  }

  /**
   * Inserting into a sorted list puts `x` after every element with its
   * key, and leaves the others of that key in their order.
   */
  lemma {:induction false} InsertStable<T>(ys: seq<T>, x: T, key: T -> real, v: real)
    requires SortedDesc(ys, key)
    ensures Filter(Insert(ys, x, key), KeyIs(key, v)) ==
      Filter(ys, KeyIs(key, v)) + (if key(x) == v then [x] else [])
    decreases |ys|
  {
    if ys == [] || key(ys[0]) < key(x) {
      InsertInFront(ys, x, key, v);
    } else {
      var p := KeyIs(key, v);
      var y0, ys' := ys[0], ys[1..];
      var rest := Insert(ys', x, key);
      assert Insert(ys, x, key) == [y0] + rest;
      SortedDescTail(ys, key);
      InsertStable(ys', x, key, v);
      FilterCons(y0, rest, p);
      assert ys == [y0] + ys';
      FilterCons(y0, ys', p);
      var head := if p(y0) then [y0] else [];
      var tail := if key(x) == v then [x] else [];
      AppendAssoc(head, Filter(ys', p), tail);
    }
  }

  /**
   * The sort is stable: the elements of any one key come out in the
   * order they went in.
   */
  lemma {:induction false} SortDescStable<T>(xs: seq<T>, key: T -> real, v: real)
    ensures Filter(SortDesc(xs, key), KeyIs(key, v)) == Filter(xs, KeyIs(key, v))
    decreases |xs|
  {
    if xs != [] {
      var init := xs[..|xs| - 1];
      SortDescStable(init, key, v);
      InsertStable(SortDesc(init, key), xs[|xs| - 1], key, v);
    }
  }
}
