/** Sequence facts shared by the modules: filtering, strict order, and that an
    order determines the sequence. */
module Seqs {

  datatype Option<+T> = None | Some(value: T)

  function Last<T>(s: seq<T>): (r: T)
    requires s != []
  {
    s[|s| - 1]
  }

  lemma SplitAt<T>(s: seq<T>, i: nat, x: T)
    requires i < |s|
    ensures s == (s[..i] + [s[i]]) + s[i + 1..]
    ensures s[i := x] == (s[..i] + [x]) + s[i + 1..]
  {
  }

  function Filter<T>(keep: T -> bool, s: seq<T>): (r: seq<T>)
  {
    if s == [] then [] else
    var rest := Filter(keep, s[..|s| - 1]);
    if keep(s[|s| - 1]) then rest + [s[|s| - 1]] else rest
  }

  lemma {:induction false} FilterAppend<T>(keep: T -> bool, a: seq<T>, b: seq<T>)
    ensures Filter(keep, a + b) == Filter(keep, a) + Filter(keep, b)
  {
    if b == [] {
      assert a + b == a;
    } else {
      assert (a + b)[..|a + b| - 1] == a + b[..|b| - 1];
      FilterAppend(keep, a, b[..|b| - 1]);
    }
  }

  lemma {:induction false} FilterMember<T>(keep: T -> bool, s: seq<T>, x: T)
    ensures x in Filter(keep, s) <==> x in s && keep(x)
  {
    if s != [] {
      FilterMember(keep, s[..|s| - 1], x);
      assert s == s[..|s| - 1] + [s[|s| - 1]];
    }
  }

  /** A filter and its complement split a sequence. */
  lemma {:induction false} FilterMultiset<T>(keep: T -> bool, drop: T -> bool, s: seq<T>)
    requires forall x :: x in s ==> drop(x) == !keep(x)
    ensures multiset(s) == multiset(Filter(keep, s)) + multiset(Filter(drop, s))
  {
    if s != [] {
      assert s == s[..|s| - 1] + [s[|s| - 1]];
      FilterMultiset(keep, drop, s[..|s| - 1]);
    }
  }

  lemma {:induction false} FilterAll<T>(keep: T -> bool, s: seq<T>)
    requires forall x :: x in s ==> keep(x)
    ensures Filter(keep, s) == s
  {
    if s != [] {
      FilterAll(keep, s[..|s| - 1]);
      assert s == s[..|s| - 1] + [s[|s| - 1]];
    }
  }

  lemma {:induction false} FilterNone<T>(keep: T -> bool, s: seq<T>)
    requires forall x :: x in s ==> !keep(x)
    ensures Filter(keep, s) == []
  {
    if s != [] {
      FilterNone(keep, s[..|s| - 1]);
      assert s == s[..|s| - 1] + [s[|s| - 1]];
    }
  }

  // ----- strict orders -----

  predicate Ascending<T>(less: (T, T) -> bool, s: seq<T>)
  {
    forall i, j :: 0 <= i < j < |s| ==> less(s[i], s[j])
  }

  /** A sequence in strict order is determined by its elements. */
  lemma {:induction false} AscendingUnique<T(!new)>(less: (T, T) -> bool, a: seq<T>, b: seq<T>)
    requires forall x :: !less(x, x)
    requires forall x, y, z :: less(x, y) && less(y, z) ==> less(x, z)
    requires Ascending(less, a) && Ascending(less, b)
    requires forall x :: x in a <==> x in b
    ensures a == b
  {
    assert a == [] || a[0] in b;
    assert b == [] || b[0] in a;
    if a != [] {
      LastAgrees(less, a, b);
      var a', b' := a[..|a| - 1], b[..|b| - 1];
      assert a == a' + [Last(a)] && b == b' + [Last(b)];
      forall x ensures x in a' <==> x in b'
      {
        if x in a' { assert x in a; assert less(x, Last(a)); }
        if x in b' { assert x in b; assert less(x, Last(b)); }
      }
      AscendingUnique(less, a', b');
    }
  }

  lemma LastAgrees<T(!new)>(less: (T, T) -> bool, a: seq<T>, b: seq<T>)
    requires forall x :: !less(x, x)
    requires forall x, y, z :: less(x, y) && less(y, z) ==> less(x, z)
    requires Ascending(less, a) && Ascending(less, b)
    requires forall x :: x in a <==> x in b
    requires a != [] && b != []
    ensures Last(a) == Last(b)
  {
    assert Last(a) in b && Last(b) in a;
    var i :| 0 <= i < |b| && b[i] == Last(a);
    var j :| 0 <= j < |a| && a[j] == Last(b);
  }

  lemma {:induction false} FilterAscending<T>(less: (T, T) -> bool, keep: T -> bool, s: seq<T>)
    requires Ascending(less, s)
    ensures Ascending(less, Filter(keep, s))
  {
    if s != [] {
      var front := s[..|s| - 1];
      FilterAscending(less, keep, front);
      forall i | 0 <= i < |Filter(keep, front)|
        ensures less(Filter(keep, front)[i], Last(s))
      {
        FilterMember(keep, front, Filter(keep, front)[i]);
      }
    }
  }

  /** Stable insertion of x into s, which is sorted by less. */
  function Insert<T>(less: (T, T) -> bool, x: T, s: seq<T>): (r: seq<T>)
    ensures multiset(r) == multiset([x]) + multiset(s)
  {
    if s == [] || !less(x, s[|s| - 1]) then s + [x]
    else
      assert s == s[..|s| - 1] + [s[|s| - 1]];
      Insert(less, x, s[..|s| - 1]) + [s[|s| - 1]]
  }

  /** The stable sort by less that the Go library's sorts compute. */
  function Sort<T>(less: (T, T) -> bool, s: seq<T>): (r: seq<T>)
    ensures multiset(r) == multiset(s)
  {
    if s == [] then []
    else
      assert s == s[..|s| - 1] + [s[|s| - 1]];
      Insert(less, s[|s| - 1], Sort(less, s[..|s| - 1]))
  }

  lemma SameElements<T>(a: seq<T>, b: seq<T>)
    requires multiset(a) == multiset(b)
    ensures forall x :: x in a <==> x in b
  {
    forall x ensures x in a <==> x in b
    {
      assert x in a <==> x in multiset(a);
      assert x in b <==> x in multiset(b);
    }
  }

  lemma {:induction false} InsertAscending<T(!new)>(less: (T, T) -> bool, x: T, s: seq<T>)
    requires forall a, b, c :: less(a, b) && less(b, c) ==> less(a, c)
    requires Ascending(less, s)
    requires forall y :: y in s ==> less(x, y) || less(y, x)
    ensures Ascending(less, Insert(less, x, s))
  {
    if s != [] && less(x, s[|s| - 1]) {
      var front := s[..|s| - 1];
      InsertAscending(less, x, front);
      var r := Insert(less, x, front);
      SameElements(r, [x] + front);
      forall i | 0 <= i < |r| ensures less(r[i], s[|s| - 1])
      {
        assert r[i] in [x] + front;
      }
    } else if s != [] {
      var r := s + [x];
      forall i | 0 <= i < |s| ensures less(s[i], x)
      {
        assert s[|s| - 1] in s && less(s[|s| - 1], x);
      }
    }
  }

  /** Sorting elements that the order tells apart puts them in strict order. */
  lemma {:induction false} SortAscending<T(!new)>(less: (T, T) -> bool, s: seq<T>)
    requires forall a, b, c :: less(a, b) && less(b, c) ==> less(a, c)
    requires forall i, j :: 0 <= i < j < |s| ==> less(s[i], s[j]) || less(s[j], s[i])
    ensures Ascending(less, Sort(less, s))
  {
    if s != [] {
      var front := s[..|s| - 1];
      SortAscending(less, front);
      SameElements(Sort(less, front), front);
      InsertAscending(less, s[|s| - 1], Sort(less, front));
    }
  }
}
