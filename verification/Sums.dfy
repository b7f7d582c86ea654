/** Sums of a measure over the rows of a table. */
module Sums {
  import opened Common

  function Sum<T>(f: T -> int, s: seq<T>): int {
    if s == [] then 0 else f(s[0]) + Sum(f, s[1..])
  }

  lemma {:induction false} SumConcat<T>(f: T -> int, a: seq<T>, b: seq<T>)
    ensures Sum(f, a + b) == Sum(f, a) + Sum(f, b)
  {
    if a == [] {
      assert a + b == b;
    } else {
      assert (a + b)[1..] == a[1..] + b;
      SumConcat(f, a[1..], b);
    }
  }

  lemma SumOne<T>(f: T -> int, x: T)
    ensures Sum(f, [x]) == f(x)
  {
    assert [x][1..] == [];
  }

  lemma SumAppend<T>(f: T -> int, s: seq<T>, x: T)
    ensures Sum(f, s + [x]) == Sum(f, s) + f(x)
  {
    SumConcat(f, s, [x]);
    SumOne(f, x);
  }

  lemma SumRemove<T>(f: T -> int, s: seq<T>, i: nat)
    requires i < |s|
    ensures Sum(f, s[..i] + s[i + 1..]) == Sum(f, s) - f(s[i])
  {
    assert s == s[..i] + s[i..];
    SumConcat(f, s[..i], s[i..]);
    SumConcat(f, s[..i], s[i + 1..]);
    assert s[i..][0] == s[i] && s[i..][1..] == s[i + 1..];
  }

  lemma SumUpdate<T>(f: T -> int, s: seq<T>, i: nat, x: T)
    requires i < |s|
    ensures Sum(f, s[i := x]) == Sum(f, s) - f(s[i]) + f(x)
  {
    SumRemove(f, s, i);
    SumRemove(f, s[i := x], i);
    assert s[i := x][..i] + s[i := x][i + 1..] == s[..i] + s[i + 1..];
  }

  /** Two tables that agree row by row under their measures have the same sum. */
  lemma {:induction false} SumSame<T, U>(f: T -> int, s: seq<T>, g: U -> int, t: seq<U>)
    requires |s| == |t| && forall i :: 0 <= i < |s| ==> f(s[i]) == g(t[i])
    ensures Sum(f, s) == Sum(g, t)
  {
    if s != [] {
      forall i | 0 <= i < |s[1..]| ensures f(s[1..][i]) == g(t[1..][i]) {
        assert s[1..][i] == s[i + 1] && t[1..][i] == t[i + 1];
      }
      SumSame(f, s[1..], g, t[1..]);
    }
  }

  lemma {:induction false} SumAtMost<T, U>(f: T -> int, s: seq<T>, g: U -> int, t: seq<U>)
    requires |s| == |t| && forall i :: 0 <= i < |s| ==> f(s[i]) <= g(t[i])
    ensures Sum(f, s) <= Sum(g, t)
  {
    if s != [] {
      forall i | 0 <= i < |s[1..]| ensures f(s[1..][i]) <= g(t[1..][i]) {
        assert s[1..][i] == s[i + 1] && t[1..][i] == t[i + 1];
      }
      SumAtMost(f, s[1..], g, t[1..]);
    }
  }

  lemma {:induction false} SumZero<T>(f: T -> int, s: seq<T>)
    requires forall i :: 0 <= i < |s| ==> f(s[i]) == 0
    ensures Sum(f, s) == 0
  {
    if s != [] {
      forall i | 0 <= i < |s[1..]| ensures f(s[1..][i]) == 0 { assert s[1..][i] == s[i + 1]; }
      SumZero(f, s[1..]);
    }
  }

  lemma {:induction false} SumNonNegative<T>(f: T -> int, s: seq<T>)
    requires forall i :: 0 <= i < |s| ==> 0 <= f(s[i])
    ensures 0 <= Sum(f, s)
  {
    if s != [] {
      forall i | 0 <= i < |s[1..]| ensures 0 <= f(s[1..][i]) { assert s[1..][i] == s[i + 1]; }
      SumNonNegative(f, s[1..]);
    }
  }

  /** Counts the elements that pass a test. */
  function CountIf<T>(p: T -> bool): T -> int { (x: T) => if p(x) then 1 else 0 }

  lemma {:induction false} CountIsSum<T>(p: T -> bool, s: seq<T>)
    ensures |Filter(p, s)| == Sum(CountIf(p), s)
  {
    if s != [] { CountIsSum(p, s[1..]); }
  }

  /** With no negative entry, every entry is bounded by the whole sum. */
  lemma SumCovers<T>(f: T -> int, s: seq<T>, i: nat)
    requires i < |s| && forall j :: 0 <= j < |s| ==> 0 <= f(s[j])
    ensures f(s[i]) <= Sum(f, s)
  {
    SumRemove(f, s, i);
    var rest := s[..i] + s[i + 1..];
    forall j | 0 <= j < |rest| ensures 0 <= f(rest[j]) {
      assert rest[j] == if j < i then s[j] else s[j + 1];
    }
    SumNonNegative(f, rest);
  }

  /** A measure that new rows do not have, and old rows keep, keeps its sum. */
  lemma SumFrame<T>(f: T -> int, s: seq<T>, t: seq<T>)
    requires |s| <= |t|
    requires forall i :: 0 <= i < |s| ==> f(t[i]) == f(s[i])
    requires forall i :: |s| <= i < |t| ==> f(t[i]) == 0
    ensures Sum(f, t) == Sum(f, s)
  {
    assert t == t[..|s|] + t[|s|..];
    SumConcat(f, t[..|s|], t[|s|..]);
    SumSame(f, t[..|s|], f, s);
    SumZero(f, t[|s|..]);
  }

  /** Summing over an expanded list is summing what each element expands to. */
  lemma {:induction false} SumFlatMap<T, U>(g: U -> int, f: T -> seq<U>, h: T -> int, s: seq<T>)
    requires forall x :: x in s ==> Sum(g, f(x)) == h(x)
    ensures Sum(g, FlatMap(f, s)) == Sum(h, s)
  {
    if s != [] {
      assert s[0] in s && forall x :: x in s[1..] ==> x in s;
      SumFlatMap(g, f, h, s[1..]);
      SumConcat(g, f(s[0]), FlatMap(f, s[1..]));
    }
  }

  /** Sums do not depend on the order in which rows are enumerated. */
  lemma {:induction false} SumPermutation<T>(f: T -> int, a: seq<T>, b: seq<T>)
    requires multiset(a) == multiset(b)
    ensures Sum(f, a) == Sum(f, b)
  {
    if a == [] {
      assert |multiset(b)| == 0;
    } else {
      assert a[0] in multiset(a);
      var i :| 0 <= i < |b| && b[i] == a[0];
      Without(a, 0);
      Without(b, i);
      assert a[..0] + a[1..] == a[1..];
      SumPermutation(f, a[1..], b[..i] + b[i + 1..]);
      SumRemove(f, b, i);
    }
  }
}
