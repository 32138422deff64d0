/** Sequence and arithmetic helpers shared by every part of the model. */
module Prelude {

  datatype Option<+T> = None | Some(value: T)

  /** An opaque string. Only equality and the order that sorted() uses matter, so it is its rank. */
  datatype Name = Name(rank: nat)

  function Max(a: int, b: int): int {
    if a >= b then a else b
  }

  function Min(a: int, b: int): int {
    if a <= b then a else b
  }

  /** Subtraction that keeps only a positive difference, as Counter subtraction does. */
  function Monus(a: nat, b: nat): nat {
    if a > b then a - b else 0
  }

  function Take<T>(xs: seq<T>, n: nat): seq<T> {
    if n <= |xs| then xs[..n] else xs
  }

  // ---- Filtering ----------------------------------------------------------

  function Filter<T>(p: T -> bool, xs: seq<T>): seq<T> {
    if xs == [] then [] else (if p(xs[0]) then [xs[0]] else []) + Filter(p, xs[1..])
  }

  lemma ConcatAssociates<T>(xs: seq<T>, ys: seq<T>, zs: seq<T>)
    ensures (xs + ys) + zs == xs + (ys + zs)
  {
  }

  lemma PrefixTransitive<T>(xs: seq<T>, ys: seq<T>, zs: seq<T>)
    requires xs <= ys <= zs
    ensures xs <= zs
  {
  }

  function Kept<T>(p: T -> bool, x: T): seq<T> {
    if p(x) then [x] else []
  }

  lemma {:induction false} FilterAppend<T>(p: T -> bool, xs: seq<T>, ys: seq<T>)
    ensures Filter(p, xs + ys) == Filter(p, xs) + Filter(p, ys)
  {
    if xs == [] {
      assert xs + ys == ys;
    } else {
      var rest := xs[1..];
      assert (xs + ys)[1..] == rest + ys;
      FilterAppend(p, rest, ys);
      assert Filter(p, xs) == Kept(p, xs[0]) + Filter(p, rest);
      ConcatAssociates(Kept(p, xs[0]), Filter(p, rest), Filter(p, ys));
    }
  }

  lemma FilterOne<T>(p: T -> bool, x: T)
    ensures Filter(p, [x]) == if p(x) then [x] else []
  {
    assert [x][1..] == [];
  }

  lemma {:induction false} FilterMembers<T>(p: T -> bool, xs: seq<T>)
    ensures forall x :: x in Filter(p, xs) <==> x in xs && p(x)
    ensures |Filter(p, xs)| <= |xs|
  {
    if xs != [] {
      FilterMembers(p, xs[1..]);
      assert xs == [xs[0]] + xs[1..];
    }
  }

  lemma {:induction false} FilterAll<T>(p: T -> bool, xs: seq<T>)
    requires forall i :: 0 <= i < |xs| ==> p(xs[i])
    ensures Filter(p, xs) == xs
  {
    if xs != [] {
      FilterAll(p, xs[1..]);
    }
  }

  lemma {:induction false} FilterNone<T>(p: T -> bool, xs: seq<T>)
    requires forall i :: 0 <= i < |xs| ==> !p(xs[i])
    ensures Filter(p, xs) == []
  {
    if xs != [] {
      FilterNone(p, xs[1..]);
    }
  }

  /** A filtered sequence holds each element it keeps as often as the original does. */
  lemma {:induction false} FilterMultiplicity<T>(p: T -> bool, xs: seq<T>, x: T)
    ensures multiset(Filter(p, xs))[x] == if p(x) then multiset(xs)[x] else 0
  {
    if xs != [] {
      FilterMultiplicity(p, xs[1..], x);
      assert xs == [xs[0]] + xs[1..];
    }
  }

  /** How many elements pass a test depends only on the bag of elements. */
  lemma {:induction false} FilterBag<T>(p: T -> bool, xs: seq<T>, ys: seq<T>)
    requires multiset(xs) == multiset(ys)
    ensures |Filter(p, xs)| == |Filter(p, ys)|
  {
    assert |multiset(xs)| == |multiset(ys)| && |multiset(ys)| == |ys|;
    if xs != [] {
      var x := xs[0];
      assert x in multiset(ys);
      var i :| 0 <= i < |ys| && ys[i] == x;
      var front, back := ys[..i], ys[i + 1..];
      BagWithout(xs, ys, i);
      FilterBag(p, xs[1..], front + back);
      assert ys == front + ([x] + back);
      FilterAppend(p, front, [x] + back);
      FilterAppend(p, [x], back);
      FilterAppend(p, front, back);
      FilterOne(p, x);
    }
  }

  lemma BagWithout<T>(xs: seq<T>, ys: seq<T>, i: nat)
    requires xs != [] && i < |ys| && ys[i] == xs[0] && multiset(xs) == multiset(ys)
    ensures multiset(xs[1..]) == multiset(ys[..i] + ys[i + 1..])
  {
    assert xs == [xs[0]] + xs[1..];
    assert ys == ys[..i] + [xs[0]] + ys[i + 1..];
    assert multiset(ys) == multiset(ys[..i] + ys[i + 1..]) + multiset{xs[0]};
    assert multiset(xs) == multiset(xs[1..]) + multiset{xs[0]};
    assert multiset(xs[1..]) == multiset(xs) - multiset{xs[0]};
  }

  /** The indices of the elements that pass a test. */
  function Places<T>(p: T -> bool, xs: seq<T>): set<nat> {
    set i: nat | i < |xs| && p(xs[i])
  }

  lemma PlacesPush<T>(p: T -> bool, xs: seq<T>, x: T)
    ensures |Places(p, xs + [x])| == |Places(p, xs)| + if p(x) then 1 else 0
  {
    var here: set<nat> := if p(x) then {|xs|} else {};
    assert Places(p, xs + [x]) == Places(p, xs) + here;
  }

  /** There are as many of them as the filter keeps. */
  lemma {:induction false} PlacesCounted<T>(p: T -> bool, xs: seq<T>)
    ensures |Places(p, xs)| == |Filter(p, xs)|
  {
    if xs == [] {
      assert Places(p, xs) == {};
    } else {
      var front, last := xs[..|xs| - 1], xs[|xs| - 1];
      PlacesCounted(p, front);
      PlacesPush(p, front, last);
      FilterAppend(p, front, [last]);
      FilterOne(p, last);
      assert front + [last] == xs;
    }
  }

  // ---- Concatenating one block per key -------------------------------------

  /** The blocks f(k) for the keys k in order, end to end. */
  function Collect<T>(keys: seq<Name>, f: Name -> seq<T>): seq<T> {
    if keys == [] then [] else Collect(keys[..|keys| - 1], f) + f(keys[|keys| - 1])
  }

  lemma CollectStep<T>(keys: seq<Name>, f: Name -> seq<T>, i: nat)
    requires i < |keys|
    ensures Collect(keys[..i + 1], f) == Collect(keys[..i], f) + f(keys[i])
  {
    assert keys[..i + 1][..i] == keys[..i];
  }

  predicate Distinct<T(==)>(xs: seq<T>) {
    forall i, j :: 0 <= i < j < |xs| ==> xs[i] != xs[j]
  }

  /** When only the block of k has anything p keeps, filtering the whole keeps just that block. */
  lemma {:induction false} CollectPick<T>(p: T -> bool, keys: seq<Name>, f: Name -> seq<T>, k: Name)
    requires Distinct(keys)
    requires forall k' :: k' in keys && k' != k ==> Filter(p, f(k')) == []
    ensures Filter(p, Collect(keys, f)) == if k in keys then Filter(p, f(k)) else []
  {
    if keys != [] {
      var front, last := keys[..|keys| - 1], keys[|keys| - 1];
      assert keys == front + [last];
      CollectPick(p, front, f, k);
      FilterAppend(p, Collect(front, f), f(last));
    }
  }

  lemma {:induction false} CollectMembers<T>(keys: seq<Name>, f: Name -> seq<T>, x: T)
    requires x in Collect(keys, f)
    ensures exists k :: k in keys && x in f(k)
  {
    var front, last := keys[..|keys| - 1], keys[|keys| - 1];
    if x !in f(last) {
      CollectMembers(front, f, x);
    }
  }

  lemma {:induction false} CollectEmpty<T>(keys: seq<Name>, f: Name -> seq<T>)
    requires forall k :: k in keys ==> f(k) == []
    ensures Collect(keys, f) == []
  {
    if keys != [] {
      CollectEmpty(keys[..|keys| - 1], f);
      assert keys[|keys| - 1] in keys;
      assert f(keys[|keys| - 1]) == [];
    }
  }

  // ---- A finite set of keys in increasing order ------------------------------

  lemma {:induction false} HasLeast(s: set<Name>, bound: Name)
    requires bound in s
    ensures exists m :: m in s && forall x :: x in s ==> m.rank <= x.rank
    decreases |s|
  {
    if y :| y in s && y.rank < bound.rank {
      var rest := s - {bound};
      assert s == rest + {bound};
      HasLeast(rest, y);
      var l :| l in rest && forall x :: x in rest ==> l.rank <= x.rank;
      assert l.rank <= y.rank;
    }
  }

  lemma LeastExists(s: set<Name>)
    requires s != {}
    ensures exists e :: e in s && forall x :: x in s ==> e.rank <= x.rank
  {
    var b :| b in s;
    HasLeast(s, b);
  }

  function Least(s: set<Name>): (m: Name)
    requires s != {}
    ensures m in s && forall x :: x in s ==> m.rank <= x.rank
  {
    LeastExists(s);
    var e :| e in s && forall x :: x in s ==> e.rank <= x.rank;
    e
  }

  predicate Ascending(xs: seq<Name>) {
    forall i, j :: 0 <= i < j < |xs| ==> xs[i].rank < xs[j].rank
  }

  lemma LeastFirst(s: set<Name>, m: Name, rest: seq<Name>)
    requires m in s && forall x :: x in s ==> m.rank <= x.rank
    requires Ascending(rest) && forall x :: x in rest <==> x in s - {m}
    ensures Ascending([m] + rest) && forall x :: x in [m] + rest <==> x in s
  {
    forall i | 0 <= i < |rest| ensures m.rank < rest[i].rank {
      var x := rest[i];
      assert x in s - {m};
      assert Name(x.rank) == x && Name(m.rank) == m;
    }
  }

  function SortedSeq(s: set<Name>): (r: seq<Name>)
    ensures forall x :: x in r <==> x in s
    ensures Ascending(r)
    decreases |s|
  {
    if s == {} then [] else
      var m := Least(s);
      var rest := SortedSeq(s - {m});
      LeastFirst(s, m, rest);
      [m] + rest
  }
}
