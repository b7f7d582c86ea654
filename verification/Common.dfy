/** Datatypes and sequence helpers shared by every component. */
module Common {

  datatype Option<+T> = None | Some(value: T)

  /** What a service call hands back: a value, or the reason it was refused. */
  datatype Result<+T, +E> = Ok(value: T) | Err(error: E)

  function Filter<T>(p: T -> bool, s: seq<T>): (r: seq<T>)
    ensures |r| <= |s|
  {
    if s == [] then [] else (if p(s[0]) then [s[0]] else []) + Filter(p, s[1..])
  }

  function Map<T, U>(f: T -> U, s: seq<T>): (r: seq<U>)
    ensures |r| == |s| && forall i :: 0 <= i < |s| ==> r[i] == f(s[i])
  {
    seq(|s|, i requires 0 <= i < |s| => f(s[i]))
  }

  function FlatMap<T, U>(f: T -> seq<U>, s: seq<T>): seq<U> {
    if s == [] then [] else f(s[0]) + FlatMap(f, s[1..])
  }

  lemma {:induction false} FlatMapConcat<T, U>(f: T -> seq<U>, a: seq<T>, b: seq<T>)
    ensures FlatMap(f, a + b) == FlatMap(f, a) + FlatMap(f, b)
  {
    if a == [] {
      assert a + b == b;
    } else {
      assert (a + b)[1..] == a[1..] + b;
      FlatMapConcat(f, a[1..], b);
    }
  }

  lemma FlatMapAppend<T, U>(f: T -> seq<U>, s: seq<T>, x: T)
    ensures FlatMap(f, s + [x]) == FlatMap(f, s) + f(x)
  {
    FlatMapConcat(f, s, [x]);
    assert [x][1..] == [];
  }

  lemma {:induction false} FlatMapMembers<T, U>(f: T -> seq<U>, s: seq<T>)
    ensures forall y :: y in FlatMap(f, s) <==> exists x :: x in s && y in f(x)
  {
    if s != [] {
      FlatMapMembers(f, s[1..]);
      assert s == [s[0]] + s[1..];
    }
  }

  lemma Without<T>(s: seq<T>, i: nat)
    requires i < |s|
    ensures multiset(s[..i] + s[i + 1..]) == multiset(s) - multiset{s[i]}
  {
    assert s == s[..i] + ([s[i]] + s[i + 1..]);
    assert multiset(s) == multiset(s[..i] + s[i + 1..]) + multiset{s[i]};
  }

  /** What a list expands to does not depend on its order, up to order. */
  lemma {:induction false} FlatMapPermutation<T, U>(f: T -> seq<U>, a: seq<T>, b: seq<T>)
    requires multiset(a) == multiset(b)
    ensures multiset(FlatMap(f, a)) == multiset(FlatMap(f, b))
  {
    if a == [] {
      assert |multiset(b)| == 0;
    } else {
      assert a[0] in multiset(a);
      var i :| 0 <= i < |b| && b[i] == a[0];
      Without(a, 0);
      Without(b, i);
      assert a[..0] + a[1..] == a[1..];
      FlatMapPermutation(f, a[1..], b[..i] + b[i + 1..]);
      FlatMapAround(f, b, i);
    }
  }

  lemma FlatMapAround<T, U>(f: T -> seq<U>, s: seq<T>, i: nat)
    requires i < |s|
    ensures multiset(FlatMap(f, s)) == multiset(f(s[i])) + multiset(FlatMap(f, s[..i] + s[i + 1..]))
  {
    assert s == s[..i] + ([s[i]] + s[i + 1..]);
    FlatMapConcat(f, s[..i], [s[i]] + s[i + 1..]);
    FlatMapConcat(f, s[..i], s[i + 1..]);
  }

  /** The positions of the elements that pass a test, in order. */
  function Positions<T>(p: T -> bool, s: seq<T>): seq<nat> {
    if s == [] then []
    else
      var n := |s| - 1;
      Positions(p, s[..n]) + if p(s[n]) then [n] else []
  }

  /** `order` lists exactly the positions of the elements that pass the test, in some order. */
  predicate IsListing<T>(order: seq<nat>, p: T -> bool, s: seq<T>) {
    multiset(order) == multiset(Positions(p, s))
  }

  lemma {:induction false} PositionsMembers<T>(p: T -> bool, s: seq<T>)
    ensures forall i :: i in Positions(p, s) <==> 0 <= i < |s| && p(s[i])
  {
    if s != [] { PositionsMembers(p, s[..|s| - 1]); }
  }

  lemma ListingMembers<T>(order: seq<nat>, p: T -> bool, s: seq<T>)
    requires IsListing(order, p, s)
    ensures forall i :: i in order <==> 0 <= i < |s| && p(s[i])
  {
    PositionsMembers(p, s);
    forall i: nat ensures i in order <==> i in Positions(p, s) {
      assert i in order <==> i in multiset(order);
      assert i in Positions(p, s) <==> i in multiset(Positions(p, s));
    }
  }

  lemma {:induction false} PositionsDistinct<T>(p: T -> bool, s: seq<T>)
    ensures forall i: nat :: multiset(Positions(p, s))[i] <= 1
  {
    if s != [] {
      var n := |s| - 1;
      PositionsDistinct(p, s[..n]);
      PositionsMembers(p, s[..n]);
      assert n !in Positions(p, s[..n]);
      assert multiset(Positions(p, s[..n]))[n] == 0;
    }
  }

  lemma ListingDistinct<T>(order: seq<nat>, p: T -> bool, s: seq<T>, n: nat)
    requires IsListing(order, p, s) && n < |order|
    ensures order[n] !in order[..n]
  {
    PositionsDistinct(p, s);
    assert order == order[..n] + ([order[n]] + order[n + 1..]);
    assert multiset(order)[order[n]] == multiset(order[..n])[order[n]] + 1 + multiset(order[n + 1..])[order[n]];
    assert order[n] in order[..n] <==> order[n] in multiset(order[..n]);
  }

  /** The place of an element in the list of positions is the number of elements before it that pass. */
  lemma {:induction false} PositionsRank<T>(p: T -> bool, s: seq<T>, i: nat)
    requires i < |s| && p(s[i])
    ensures |Positions(p, s[..i])| < |Positions(p, s)| && Positions(p, s)[|Positions(p, s[..i])|] == i
  {
    var n := |s| - 1;
    if i < n {
      PositionsRank(p, s[..n], i);
      assert s[..n][..i] == s[..i];
    }
  }

  lemma {:induction false} PositionsRise<T>(p: T -> bool, s: seq<T>)
    ensures forall j, k :: 0 <= j < k < |Positions(p, s)| ==> Positions(p, s)[j] < Positions(p, s)[k]
  {
    if s != [] {
      var rest := s[..|s| - 1];
      PositionsRise(p, rest);
      PositionsMembers(p, rest);
      forall j | 0 <= j < |Positions(p, rest)| ensures Positions(p, rest)[j] < |rest| {
        assert Positions(p, rest)[j] in Positions(p, rest);
      }
    }
  }

  /** The first `q` positions are those with fewer than `q` elements before them that pass. */
  lemma FirstPositions<T>(p: T -> bool, s: seq<T>, q: nat, i: nat)
    requires q <= |Positions(p, s)| && i < |s|
    ensures i in Positions(p, s)[..q] <==> p(s[i]) && |Positions(p, s[..i])| < q
  {
    var all := Positions(p, s);
    PositionsMembers(p, s);
    PositionsRise(p, s);
    assert forall j :: 0 <= j < q ==> all[j] in all;
    if p(s[i]) {
      PositionsRank(p, s, i);
      assert forall j :: 0 <= j < |all| && all[j] == i ==> j == |Positions(p, s[..i])|;
      assert |Positions(p, s[..i])| < q ==> all[..q][|Positions(p, s[..i])|] == i;
    }
  }

  lemma {:induction false} PositionsSame<T>(p: T -> bool, s: seq<T>, t: seq<T>)
    requires |s| == |t| && forall i :: 0 <= i < |s| ==> (p(s[i]) <==> p(t[i]))
    ensures Positions(p, s) == Positions(p, t)
  {
    if s != [] { PositionsSame(p, s[..|s| - 1], t[..|t| - 1]); }
  }

  lemma ListingsHaveOneLength<T>(order1: seq<nat>, order2: seq<nat>, p: T -> bool, s: seq<T>)
    requires IsListing(order1, p, s) && IsListing(order2, p, s)
    ensures |order1| == |order2|
  {
    assert |order1| == |multiset(order1)| && |order2| == |multiset(order2)|;
  }

  function Single<T, U>(f: T -> U): T -> seq<U> { (x: T) => [f(x)] }

  lemma {:induction false} MapAsFlatMap<T, U>(f: T -> U, s: seq<T>)
    ensures FlatMap(Single(f), s) == Map(f, s)
  {
    if s != [] {
      MapAsFlatMap(f, s[1..]);
      assert Map(f, s) == [f(s[0])] + Map(f, s[1..]);
    }
  }

  lemma MapConcat<T, U>(f: T -> U, a: seq<T>, b: seq<T>)
    ensures Map(f, a + b) == Map(f, a) + Map(f, b)
  {
  }

  lemma MapPermutation<T, U>(f: T -> U, a: seq<T>, b: seq<T>)
    requires multiset(a) == multiset(b)
    ensures multiset(Map(f, a)) == multiset(Map(f, b))
  {
    MapAsFlatMap(f, a);
    MapAsFlatMap(f, b);
    FlatMapPermutation(Single(f), a, b);
  }

  lemma {:induction false} FilterAppend<T>(p: T -> bool, s: seq<T>, x: T)
    ensures Filter(p, s + [x]) == Filter(p, s) + if p(x) then [x] else []
  {
    if s == [] {
      assert [x][1..] == [];
    } else {
      var head := if p(s[0]) then [s[0]] else [];
      assert (s + [x])[0] == s[0] && (s + [x])[1..] == s[1..] + [x];
      FilterAppend(p, s[1..], x);
      var last := if p(x) then [x] else [];
      assert head + (Filter(p, s[1..]) + last) == (head + Filter(p, s[1..])) + last;
    }
  }

  lemma {:induction false} FilterMembers<T>(p: T -> bool, s: seq<T>)
    ensures forall x :: x in Filter(p, s) <==> x in s && p(x)
  {
    if s != [] {
      FilterMembers(p, s[1..]);
      assert s == [s[0]] + s[1..];
    }
  }

  /** The images of the elements that pass a test. */
  lemma FilteredImage<T, U>(f: T -> U, p: T -> bool, s: seq<T>, y: U)
    ensures y in Map(f, Filter(p, s)) <==> exists i :: 0 <= i < |s| && p(s[i]) && f(s[i]) == y
  {
    var kept := Filter(p, s);
    FilterMembers(p, s);
    if y in Map(f, kept) {
      var n :| 0 <= n < |kept| && Map(f, kept)[n] == y;
      assert kept[n] in kept;
      var i :| 0 <= i < |s| && s[i] == kept[n];
    }
    if i :| 0 <= i < |s| && p(s[i]) && f(s[i]) == y {
      assert s[i] in kept;
      var n :| 0 <= n < |kept| && kept[n] == s[i];
      assert Map(f, kept)[n] == y;
    }
  }

  lemma FilterHead<T>(p: T -> bool, s: seq<T>)
    requires s != []
    ensures multiset(Filter(p, s)) == (if p(s[0]) then multiset{s[0]} else multiset{}) + multiset(Filter(p, s[1..]))
  {
  }

  /** Filtering by one of two exclusive tests splits the kept elements in two. */
  lemma {:induction false} FilterSplit<T>(p: T -> bool, q: T -> bool, either: T -> bool, s: seq<T>)
    requires forall x :: x in s ==> !(p(x) && q(x)) && (either(x) <==> p(x) || q(x))
    ensures multiset(Filter(either, s)) == multiset(Filter(p, s)) + multiset(Filter(q, s))
  {
    if s != [] {
      assert forall x :: x in s[1..] ==> x in s;
      FilterSplit(p, q, either, s[1..]);
      assert s[0] in s;
      FilterHead(p, s);
      FilterHead(q, s);
      FilterHead(either, s);
    }
  }
}
