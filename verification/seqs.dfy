/** The list operations the ledger code composes: `Array.filter`, `reduce` sums and
    the descending ordering a listing query asks the database for. */
module Seqs {

  /** `s.filter(p)`: the elements of `s` satisfying `p`, in their original order. */
  function Filter<T(!new)>(s: seq<T>, p: T -> bool): (r: seq<T>)
    ensures |r| <= |s|
    ensures forall i :: 0 <= i < |r| ==> p(r[i])
    ensures forall x :: x in r <==> x in s && p(x)
    ensures multiset(r) <= multiset(s)
  {
    if |s| == 0 then []
    else
      var rest := Filter(s[1..], p);
      assert s == [s[0]] + s[1..];
      if p(s[0]) then [s[0]] + rest else rest
  }

  /** `s.map(f)`. */
  function Map<A, B>(s: seq<A>, f: A -> B): (r: seq<B>)
    ensures |r| == |s|
    ensures forall i :: 0 <= i < |s| ==> r[i] == f(s[i])
  {
    seq(|s|, i requires 0 <= i < |s| => f(s[i]))
  }

  /** Mapping a sequence with a head maps the head, then the rest. */
  lemma MapCons<A, B>(x: A, s: seq<A>, f: A -> B)
    ensures Map([x] + s, f) == [f(x)] + Map(s, f)
  {
    assert forall i :: 1 <= i <= |s| ==> ([x] + s)[i] == s[i - 1];
  }

  /** `s.reduce((sum, x) => sum + f(x), 0)`. */
  function Sum<T>(s: seq<T>, f: T -> real): real
  {
    if |s| == 0 then 0.0 else f(s[0]) + Sum(s[1..], f)
  }

  /** `s` is ordered by `key`, largest first. */
  ghost predicate SortedDesc<T>(s: seq<T>, key: T -> int)
  {
    forall i, j :: 0 <= i < j < |s| ==> key(s[i]) >= key(s[j])
  }

  /** Puts `x` into the descending sequence `s` in front of the first element whose key
      does not exceed its own. */
  function Insert<T(!new)>(x: T, s: seq<T>, key: T -> int): (r: seq<T>)
    requires SortedDesc(s, key)
    ensures SortedDesc(r, key)
    ensures multiset(r) == multiset(s) + multiset{x}
    ensures |r| == |s| + 1
    ensures key(r[0]) == if |s| == 0 || key(s[0]) <= key(x) then key(x) else key(s[0])
  {
    if |s| == 0 then [x]
    else if key(s[0]) <= key(x) then
      PrependSorted(x, s, key);
      [x] + s
    else
      var rest := Insert(x, s[1..], key);
      assert s == [s[0]] + s[1..];
      PrependSorted(s[0], rest, key);
      [s[0]] + rest
  }

  lemma PrependSorted<T>(h: T, t: seq<T>, key: T -> int)
    requires SortedDesc(t, key)
    requires |t| > 0 ==> key(h) >= key(t[0])
    ensures SortedDesc([h] + t, key)
  {
    var r := [h] + t;
    forall i, j | 0 <= i < j < |r| ensures key(r[i]) >= key(r[j]) {
      if i == 0 && j > 1 {
        assert key(t[0]) >= key(t[j - 1]);
      }
    }
  }

  /** The rows of `s` ordered by `key`, largest first (a stable insertion sort). */
  function SortDesc<T(!new)>(s: seq<T>, key: T -> int): (r: seq<T>)
    ensures SortedDesc(r, key)
    ensures multiset(r) == multiset(s)
    ensures |r| == |s|
  {
    if |s| == 0 then []
    else
      assert s == [s[0]] + s[1..];
      Insert(s[0], SortDesc(s[1..], key), key)
  }

  lemma {:induction false} SumAppend<T>(a: seq<T>, b: seq<T>, f: T -> real)
    ensures Sum(a + b, f) == Sum(a, f) + Sum(b, f)
  {
    if |a| == 0 {
      assert a + b == b;
    } else {
      assert (a + b)[1..] == a[1..] + b;
      SumAppend(a[1..], b, f);
    }
  }

  lemma {:induction false} SumNonNegative<T>(s: seq<T>, f: T -> real)
    requires forall i :: 0 <= i < |s| ==> f(s[i]) >= 0.0
    ensures Sum(s, f) >= 0.0
  {
    if |s| > 0 {
      SumNonNegative(s[1..], f);
    }
  }

  /** Filtering keeps any descending order of its input. */
  lemma {:induction false} FilterKeepsOrder<T(!new)>(s: seq<T>, p: T -> bool, key: T -> int)
    requires SortedDesc(s, key)
    ensures SortedDesc(Filter(s, p), key)
  {
    if |s| > 0 {
      var tail := s[1..];
      var rest := Filter(tail, p);
      assert SortedDesc(tail, key) by {
        forall i, j | 0 <= i < j < |tail| ensures key(tail[i]) >= key(tail[j]) {
          assert tail[i] == s[i + 1] && tail[j] == s[j + 1];
        }
      }
      FilterKeepsOrder(tail, p, key);
      if p(s[0]) {
        if |rest| > 0 {
          HeadBoundsFiltered(s, p, key);
        }
        PrependSorted(s[0], rest, key);
        assert Filter(s, p) == [s[0]] + rest;
      } else {
        assert Filter(s, p) == rest;
      }
    }
  }

  /** The head of a descending sequence has a key no smaller than anything filtered from
      its tail. */
  lemma HeadBoundsFiltered<T(!new)>(s: seq<T>, p: T -> bool, key: T -> int)
    requires SortedDesc(s, key) && |s| > 0 && |Filter(s[1..], p)| > 0
    ensures key(s[0]) >= key(Filter(s[1..], p)[0])
  {
    var x := Filter(s[1..], p)[0];
    assert x in s[1..];
    var j :| 0 <= j < |s[1..]| && s[1..][j] == x;
    assert s[j + 1] == x;
  }
}
