/** Python's sorted(): a stable sort by a total preorder, as used for actions and match edges. */
module StableSort {
  import opened Prelude

  ghost predicate TotalPreorder<T(!new)>(le: (T, T) -> bool) {
    && (forall a, b :: le(a, b) || le(b, a))
    && (forall a, b, c :: le(a, b) && le(b, c) ==> le(a, c))
  }

  predicate Ordered<T>(le: (T, T) -> bool, xs: seq<T>) {
    forall i, j :: 0 <= i < j < |xs| ==> le(xs[i], xs[j])
  }

  function Insert<T>(le: (T, T) -> bool, a: T, xs: seq<T>): seq<T> {
    if xs == [] then [a]
    else if le(a, xs[0]) then [a] + xs
    else [xs[0]] + Insert(le, a, xs[1..])
  }

  function Sort<T>(le: (T, T) -> bool, xs: seq<T>): seq<T> {
    if xs == [] then [] else Insert(le, xs[0], Sort(le, xs[1..]))
  }

  lemma {:induction false} InsertKeeps<T>(le: (T, T) -> bool, a: T, xs: seq<T>)
    ensures multiset(Insert(le, a, xs)) == multiset(xs) + multiset{a}
    ensures |Insert(le, a, xs)| == |xs| + 1
  {
    if xs != [] {
      assert xs == [xs[0]] + xs[1..];
      InsertKeeps(le, a, xs[1..]);
    }
  }

  lemma {:induction false} InsertOrdered<T(!new)>(le: (T, T) -> bool, a: T, xs: seq<T>)
    requires TotalPreorder(le) && Ordered(le, xs)
    ensures Ordered(le, Insert(le, a, xs))
  {
    if xs != [] && !le(a, xs[0]) {
      InsertOrdered(le, a, xs[1..]);
      var rest := Insert(le, a, xs[1..]);
      InsertKeeps(le, a, xs[1..]);
      forall j | 0 <= j < |rest| ensures le(xs[0], rest[j]) {
        assert rest[j] in multiset(rest);
        assert rest[j] == a || rest[j] in xs[1..];
      }
    }
  }

  /** The result is a permutation of the input and is in order. */
  lemma {:induction false} SortSorts<T(!new)>(le: (T, T) -> bool, xs: seq<T>)
    requires TotalPreorder(le)
    ensures Ordered(le, Sort(le, xs))
    ensures multiset(Sort(le, xs)) == multiset(xs) && |Sort(le, xs)| == |xs|
  {
    if xs != [] {
      SortSorts(le, xs[1..]);
      InsertOrdered(le, xs[0], Sort(le, xs[1..]));
      InsertKeeps(le, xs[0], Sort(le, xs[1..]));
      assert xs == [xs[0]] + xs[1..];
    }
  }

  lemma {:induction false} InsertBefore<T>(le: (T, T) -> bool, a: T, xs: seq<T>)
    requires forall i :: 0 <= i < |xs| ==> le(a, xs[i])
    ensures Insert(le, a, xs) == [a] + xs
  {
  }

  lemma {:induction false} InsertFilter<T(!new)>(le: (T, T) -> bool, p: T -> bool, a: T, xs: seq<T>)
    requires TotalPreorder(le) && Ordered(le, xs)
    ensures Filter(p, Insert(le, a, xs)) == if p(a) then Insert(le, a, Filter(p, xs)) else Filter(p, xs)
  {
    if xs == [] {
    } else if le(a, xs[0]) {
      InsertAtFront(le, p, a, xs);
    } else {
      InsertFilter(le, p, a, xs[1..]);
      FilterCons(p, xs[0], xs[1..]);
      FilterCons(p, xs[0], Insert(le, a, xs[1..]));
      assert xs == [xs[0]] + xs[1..];
      if p(a) && p(xs[0]) {
        InsertAfter(le, a, xs[0], Filter(p, xs[1..]));
      }
    }
  }

  lemma FilterCons<T>(p: T -> bool, x: T, xs: seq<T>)
    ensures Filter(p, [x] + xs) == if p(x) then [x] + Filter(p, xs) else Filter(p, xs)
  {
    assert ([x] + xs)[1..] == xs;
  }

  lemma InsertAfter<T>(le: (T, T) -> bool, a: T, x: T, xs: seq<T>)
    requires !le(a, x)
    ensures Insert(le, a, [x] + xs) == [x] + Insert(le, a, xs)
  {
    assert ([x] + xs)[1..] == xs;
  }

  lemma KeptAbove<T(!new)>(le: (T, T) -> bool, p: T -> bool, a: T, xs: seq<T>)
    requires TotalPreorder(le) && Ordered(le, xs) && xs != [] && le(a, xs[0])
    ensures forall i :: 0 <= i < |Filter(p, xs)| ==> le(a, Filter(p, xs)[i])
  {
    FilterMembers(p, xs);
    forall i | 0 <= i < |Filter(p, xs)| ensures le(a, Filter(p, xs)[i]) {
      assert Filter(p, xs)[i] in xs;
      var j :| 0 <= j < |xs| && xs[j] == Filter(p, xs)[i];
      assert le(xs[0], xs[j]);
    }
  }

  lemma InsertAtFront<T(!new)>(le: (T, T) -> bool, p: T -> bool, a: T, xs: seq<T>)
    requires TotalPreorder(le) && Ordered(le, xs) && xs != [] && le(a, xs[0])
    ensures Filter(p, Insert(le, a, xs)) == if p(a) then Insert(le, a, Filter(p, xs)) else Filter(p, xs)
  {
    FilterCons(p, a, xs);
    if p(a) {
      KeptAbove(le, p, a, xs);
      InsertBefore(le, a, Filter(p, xs));
    }
  }

  /** Stability: the elements any test selects come out in the order sorting them alone gives. */
  lemma {:induction false} SortFilter<T(!new)>(le: (T, T) -> bool, p: T -> bool, xs: seq<T>)
    requires TotalPreorder(le)
    ensures Filter(p, Sort(le, xs)) == Sort(le, Filter(p, xs))
  {
    if xs != [] {
      SortFilter(le, p, xs[1..]);
      SortSorts(le, xs[1..]);
      InsertFilter(le, p, xs[0], Sort(le, xs[1..]));
      FilterCons(p, xs[0], xs[1..]);
      assert xs == [xs[0]] + xs[1..];
      if p(xs[0]) {
        SortCons(le, xs[0], Filter(p, xs[1..]));
      }
    }
  }

  lemma SortCons<T>(le: (T, T) -> bool, x: T, xs: seq<T>)
    ensures Sort(le, [x] + xs) == Insert(le, x, Sort(le, xs))
  {
    assert ([x] + xs)[1..] == xs;
  }

  /** Every element of the input appears in the result and nothing else does. */
  lemma SortMembers<T(!new)>(le: (T, T) -> bool, xs: seq<T>, x: T)
    requires TotalPreorder(le)
    ensures x in Sort(le, xs) <==> x in xs
  {
    SortSorts(le, xs);
    assert x in multiset(Sort(le, xs)) <==> x in multiset(xs);
  }

  lemma {:induction false} SortEqual<T(!new)>(le: (T, T) -> bool, xs: seq<T>)
    requires forall a, b :: a in xs && b in xs ==> le(a, b)
    ensures Sort(le, xs) == xs
  {
    if xs != [] {
      SortEqual(le, xs[1..]);
      InsertBefore(le, xs[0], xs[1..]);
      assert xs == [xs[0]] + xs[1..];
    }
  }

  /** Elements that compare equal keep the order they came in. */
  lemma EqualsKeepOrder<T(!new)>(le: (T, T) -> bool, p: T -> bool, xs: seq<T>)
    requires TotalPreorder(le)
    requires forall a, b :: a in xs && b in xs && p(a) && p(b) ==> le(a, b)
    ensures Filter(p, Sort(le, xs)) == Filter(p, xs)
  {
    SortFilter(le, p, xs);
    FilterMembers(p, xs);
    SortEqual(le, Filter(p, xs));
  }
}
