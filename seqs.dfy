/** Generic sequence helpers standing for the array methods the analysis uses
    (`filter`, `find`, `indexOf`, `slice`). */
module Seqs {
  import opened Wrappers

  /** The elements of `s` satisfying `p`, in order. */
  function Filter<T(==,!new)>(s: seq<T>, p: T -> bool): (r: seq<T>)
    ensures |r| <= |s|
    ensures forall x :: x in r <==> x in s && p(x)
  {
    if s == [] then []
    else
      assert s == [s[0]] + s[1..];
      (if p(s[0]) then [s[0]] else []) + Filter(s[1..], p)
  }

  lemma {:induction false} FilterConcat<T(!new)>(a: seq<T>, b: seq<T>, p: T -> bool)
    ensures Filter(a + b, p) == Filter(a, p) + Filter(b, p)
  {
    if a == [] {
      assert a + b == b;
    } else {
      assert (a + b)[1..] == a[1..] + b;
      FilterConcat(a[1..], b, p);
    }
  }

  /** Filtering by two predicates that never hold together takes out disjoint parts. */
  lemma {:induction false} FilterDisjoint<T(!new)>(s: seq<T>, p: T -> bool, q: T -> bool)
    requires forall x :: x in s ==> !(p(x) && q(x))
    ensures multiset(Filter(s, p)) + multiset(Filter(s, q)) <= multiset(s)
  {
    if s != [] {
      assert s == [s[0]] + s[1..];
      FilterDisjoint(s[1..], p, q);
    }
  }

  lemma FilterSingleton<T(!new)>(x: T, p: T -> bool)
    ensures Filter([x], p) == if p(x) then [x] else []
  {
    assert [x][1..] == [];
  }

  /** Filtering twice is filtering once by the conjunction. */
  lemma {:induction false} FilterFilter<T(!new)>(s: seq<T>, p: T -> bool, q: T -> bool, pq: T -> bool)
    requires forall x :: pq(x) == (p(x) && q(x))
    ensures Filter(Filter(s, p), q) == Filter(s, pq)
  {
    if s != [] {
      FilterFilter(s[1..], p, q, pq);
      FilterConcat(if p(s[0]) then [s[0]] else [], Filter(s[1..], p), q);
      FilterSingleton(s[0], q);
    }
  }

  /** Filtering a three-element sequence, element by element. */
  lemma FilterOfThree<T(!new)>(a: T, b: T, c: T, p: T -> bool)
    ensures Filter([a, b, c], p) ==
      (if p(a) then [a] else []) + ((if p(b) then [b] else []) + (if p(c) then [c] else []))
  {
    assert [a, b, c] == [a] + [b] + [c];
    FilterConcat([a] + [b], [c], p);
    FilterConcat([a], [b], p);
    FilterSingleton(a, p);
    FilterSingleton(b, p);
    FilterSingleton(c, p);
  }

  /** Filtering a list split around an element the filter keeps. */
  lemma FilterAround<T(!new)>(a: seq<T>, x: T, b: seq<T>, p: T -> bool)
    requires p(x)
    ensures Filter(a + [x] + b, p) == Filter(a, p) + [x] + Filter(b, p)
  {
    assert a + [x] + b == a + ([x] + b);
    FilterConcat(a, [x] + b, p);
    FilterConcat([x], b, p);
    FilterSingleton(x, p);
  }

  /** Filtering a list split around an element the filter drops. */
  lemma FilterDrop<T(!new)>(a: seq<T>, x: T, b: seq<T>, p: T -> bool)
    requires !p(x)
    ensures Filter(a + [x] + b, p) == Filter(a, p) + Filter(b, p)
  {
    assert a + [x] + b == a + ([x] + b);
    FilterConcat(a, [x] + b, p);
    FilterConcat([x], b, p);
    FilterSingleton(x, p);
  }

  /** Filtering keeps every element satisfying the predicate when all of them do. */
  lemma {:induction false} FilterAll<T(!new)>(s: seq<T>, p: T -> bool)
    requires forall x :: x in s ==> p(x)
    ensures Filter(s, p) == s
  {
    if s != [] {
      FilterAll(s[1..], p);
    }
  }

  /** The first element satisfying `p`, or nothing. */
  function Find<T(==,!new)>(s: seq<T>, p: T -> bool): (r: Option<T>)
    ensures r.Some? ==> r.value in s && p(r.value)
    ensures r.None? <==> forall x :: x in s ==> !p(x)
  {
    if s == [] then None
    else if p(s[0]) then Some(s[0])
    else Find(s[1..], p)
  }

  /** `Find` returns the element at the first index that satisfies the predicate. */
  lemma {:induction false} FindFirst<T(!new)>(s: seq<T>, p: T -> bool, i: nat)
    requires i < |s| && p(s[i])
    requires forall j :: 0 <= j < i ==> !p(s[j])
    ensures Find(s, p) == Some(s[i])
  {
    if i > 0 {
      FindFirst(s[1..], p, i - 1);
    }
  }

  /** The index of the first element that satisfies `p`, or `|s|` when none does. */
  function FirstIndex<T>(s: seq<T>, p: T -> bool): (k: nat)
    ensures k <= |s|
    ensures k < |s| ==> p(s[k])
    ensures forall j :: 0 <= j < k ==> !p(s[j])
  {
    if s == [] then 0
    else if p(s[0]) then 0
    else 1 + FirstIndex(s[1..], p)
  }

  /** The first position of `x`, or -1. */
  function IndexOf<T(==)>(s: seq<T>, x: T): (r: int)
    ensures -1 <= r < |s|
    ensures r >= 0 ==> s[r] == x && x !in s[..r]
    ensures r == -1 <==> x !in s
  {
    if s == [] then -1
    else if s[0] == x then 0
    else
      var k := IndexOf(s[1..], x);
      if k == -1 then -1
      else
        assert s[..k + 1] == [s[0]] + s[1..][..k];
        k + 1
  }

  /** The first `n` elements, or all of `s` when it is shorter. */
  function Take<T>(s: seq<T>, n: nat): (r: seq<T>)
    ensures |r| == if |s| < n then |s| else n
    ensures r == s[..|r|]
  {
    if |s| <= n then s else s[..n]
  }

  /** The number of elements of `s` satisfying `p`. */
  function Count<T>(s: seq<T>, p: T -> bool): (n: nat)
    ensures n <= |s|
  {
    if s == [] then 0 else (if p(s[0]) then 1 else 0) + Count(s[1..], p)
  }

  lemma {:induction false} CountConcat<T>(a: seq<T>, b: seq<T>, p: T -> bool)
    ensures Count(a + b, p) == Count(a, p) + Count(b, p)
  {
    if a == [] {
      assert a + b == b;
    } else {
      assert (a + b)[1..] == a[1..] + b;
      CountConcat(a[1..], b, p);
    }
  }

  /** A count reaches the length exactly when every element satisfies the predicate. */
  lemma {:induction false} CountAll<T>(s: seq<T>, p: T -> bool)
    ensures Count(s, p) == |s| <==> forall i :: 0 <= i < |s| ==> p(s[i])
  {
    if s != [] {
      CountAll(s[1..], p);
      assert forall i :: 1 <= i < |s| ==> s[i] == s[1..][i - 1];
    }
  }

  lemma {:induction false} CountNone<T(!new)>(s: seq<T>, p: T -> bool)
    requires forall i :: 0 <= i < |s| ==> !p(s[i])
    ensures Count(s, p) == 0
  {
    if s != [] {
      CountNone(s[1..], p);
    }
  }

  /** The first element found is the head of the filtered sequence. */
  lemma {:induction false} FindIsFilterHead<T(!new)>(s: seq<T>, p: T -> bool)
    ensures Find(s, p) == if Filter(s, p) == [] then None else Some(Filter(s, p)[0])
  {
    if s != [] && !p(s[0]) {
      FindIsFilterHead(s[1..], p);
    }
  }

  lemma {:induction false} FindSnoc<T(!new)>(s: seq<T>, x: T, p: T -> bool)
    ensures Find(s + [x], p) == if Find(s, p).Some? then Find(s, p) else if p(x) then Some(x) else None
  {
    if s == [] {
      assert s + [x] == [x];
    } else {
      assert (s + [x])[1..] == s[1..] + [x];
      FindSnoc(s[1..], x, p);
    }
  }

  predicate Distinct<T(==)>(s: seq<T>)
  {
    forall i, j :: 0 <= i < j < |s| ==> s[i] != s[j]
  }

  /** Adding each of `xs` in turn to an insertion-ordered set (`Set.prototype.add`). */
  function InsertAll<T(==,!new)>(acc: seq<T>, xs: seq<T>): (r: seq<T>)
    requires Distinct(acc)
    ensures Distinct(r)
    ensures forall x :: x in r <==> x in acc || x in xs
    ensures acc <= r
    decreases |xs|
  {
    if xs == [] then acc
    else
      var next := if xs[0] in acc then acc else acc + [xs[0]];
      assert forall x :: x in xs <==> x == xs[0] || x in xs[1..];
      InsertAll(next, xs[1..])
  }

  lemma {:induction false} InsertAllSnoc<T(!new)>(acc: seq<T>, xs: seq<T>, x: T)
    requires Distinct(acc)
    ensures InsertAll(acc, xs + [x]) ==
      var r := InsertAll(acc, xs); if x in r then r else r + [x]
    decreases |xs|
  {
    if xs == [] {
      assert xs + [x] == [x];
    } else {
      assert (xs + [x])[1..] == xs[1..] + [x];
      var next := if xs[0] in acc then acc else acc + [xs[0]];
      InsertAllSnoc(next, xs[1..], x);
    }
  }

  /** `InsertAllSnoc` read along a prefix: one more element of `xs` is one more insertion. */
  lemma InsertAllPrefix<T(!new)>(acc: seq<T>, xs: seq<T>, j: nat)
    requires Distinct(acc)
    requires j < |xs|
    ensures InsertAll(acc, xs[..j + 1]) ==
      var r := InsertAll(acc, xs[..j]); if xs[j] in r then r else r + [xs[j]]
  {
    assert xs[..j + 1] == xs[..j] + [xs[j]];
    InsertAllSnoc(acc, xs[..j], xs[j]);
  }

  /** The loop adding each of `xs` in turn to an insertion-ordered set. */
  method AddAll<T(==,!new)>(acc: seq<T>, xs: seq<T>) returns (r: seq<T>)
    requires Distinct(acc)
    ensures r == InsertAll(acc, xs)
  {
    r := acc;
    for j := 0 to |xs|
      invariant r == InsertAll(acc, xs[..j])
    {
      InsertAllPrefix(acc, xs, j);
      if xs[j] !in r {
        r := r + [xs[j]];
      }
    }
    assert xs[..|xs|] == xs;
  }

  /** Appending one element adds one to the count exactly when it satisfies the predicate. */
  lemma CountSnoc<T>(s: seq<T>, x: T, p: T -> bool)
    ensures Count(s + [x], p) == Count(s, p) + (if p(x) then 1 else 0)
  {
    CountConcat(s, [x], p);
    assert [x][1..] == [];
  }

  /** Counting a list split around one element. */
  lemma CountAround<T>(a: seq<T>, x: T, b: seq<T>, p: T -> bool)
    ensures Count(a + [x] + b, p) == Count(a, p) + (if p(x) then 1 else 0) + Count(b, p)
  {
    CountConcat(a + [x], b, p);
    CountSnoc(a, x, p);
  }

  /** The insertion of `y` right after the first `x`, or at the front when `x` is
      absent. */
  function InsertAfter<T(==,!new)>(s: seq<T>, x: T, y: T): (r: seq<T>)
    ensures |r| == |s| + 1
  {
    var idx := IndexOf(s, x);
    s[..idx + 1] + [y] + s[idx + 1..]
  }

  /** The insertion adds `y` and nothing else. */
  lemma InsertAfterMembers<T(!new)>(s: seq<T>, x: T, y: T)
    ensures forall z :: z in InsertAfter(s, x, y) ==> z in s || z == y
  {
    var idx := IndexOf(s, x);
    var a, b := s[..idx + 1], s[idx + 1..];
    forall z | z in a + [y] + b
      ensures z in s || z == y
    {
      if z in a {
        var i :| 0 <= i < |a| && a[i] == z;
        assert s[i] == z;
      } else if z in b {
        var i :| 0 <= i < |b| && b[i] == z;
        assert s[idx + 1 + i] == z;
      }
    }
  }

  /** Inserting after an element found at a known split. */
  lemma InsertAfterSplit<T(!new)>(s: seq<T>, f1: seq<T>, x: T, f2: seq<T>, y: T)
    requires s == f1 + [x] + f2 && IndexOf(s, x) == |f1|
    ensures InsertAfter(s, x, y) == f1 + [x] + [y] + f2
  {
    assert s[..|f1| + 1] == f1 + [x];
    assert s[|f1| + 1..] == f2;
  }

  /** A found element precedes every other element that satisfies the predicate. */
  lemma FindPrecedes<T(!new)>(s: seq<T>, p: T -> bool, x: T)
    requires Find(s, p) == Some(x)
    ensures forall j :: 0 <= j < |s| && s[j] != x && p(s[j]) ==> x in s[..j]
  {
    var f := FirstIndex(s, p);
    forall j | 0 <= j < |s| && s[j] != x && p(s[j])
      ensures x in s[..j]
    {
      assert f <= j;
      FindFirst(s, p, f);
      assert s[..j][f] == x;
    }
  }

  /** The first index reached by a predicate, recognised by its value. */
  lemma {:induction false} FirstIndexAt<T>(s: seq<T>, p: T -> bool, k: nat)
    requires k < |s| && p(s[k])
    requires forall j :: 0 <= j < k ==> !p(s[j])
    ensures FirstIndex(s, p) == k
  {
    if k > 0 {
      assert forall j :: 0 <= j < k - 1 ==> s[1..][j] == s[j + 1];
      FirstIndexAt(s[1..], p, k - 1);
    }
  }

  /** An element found just after a prefix of elements that differ from it. */
  lemma IndexAfter<T>(a: seq<T>, x: T, b: seq<T>, q: T -> bool)
    requires forall i :: 0 <= i < |a| ==> !q(a[i])
    requires q(x)
    ensures IndexOf(a + [x] + b, x) == |a|
  {
    var s := a + [x] + b;
    assert s[..|a|] == a;
    assert s[|a|] == x;
  }

  /** Filtering with `p` a list whose first `q`-element `x` passes `p`: the result
      splits around `x` into `f1`, whose elements fail `q`, and `f2`, and it finds `x`
      at the split. */
  lemma FilterSplitAtFound<T(!new)>(s: seq<T>, q: T -> bool, p: T -> bool) returns (f1: seq<T>, f2: seq<T>)
    requires Find(s, q).Some? && p(Find(s, q).value)
    ensures var x := Find(s, q).value;
      && Filter(s, p) == f1 + [x] + f2
      && IndexOf(Filter(s, p), x) == |f1|
      && (forall i :: 0 <= i < |f1| ==> !q(f1[i]) && p(f1[i]))
      && (forall z :: z in f2 ==> p(z))
      && q(x)
  {
    var k := FirstIndex(s, q);
    assert k < |s|;
    FindFirst(s, q, k);
    var x := s[k];
    assert s == s[..k] + [x] + s[k + 1..];
    FilterAround(s[..k], x, s[k + 1..], p);
    f1 := Filter(s[..k], p);
    f2 := Filter(s[k + 1..], p);
    PrefixFiltered(s[..k], q, p);
    IndexAfter(f1, x, f2, q);
  }

  /** Filtering keeps the elements' properties. */
  lemma PrefixFiltered<T(!new)>(a: seq<T>, q: T -> bool, p: T -> bool)
    requires forall i :: 0 <= i < |a| ==> !q(a[i])
    ensures forall i :: 0 <= i < |Filter(a, p)| ==> !q(Filter(a, p)[i]) && p(Filter(a, p)[i])
  {
    var f := Filter(a, p);
    forall i | 0 <= i < |f|
      ensures !q(f[i]) && p(f[i])
    {
      assert f[i] in a;
    }
  }

  /** A list `f1 + [x, y] + f2` in which `x` is the first `q`-element and only `y`
      fails `p`: `x` is at the first `q`-index, filtering with `p` drops just `y`,
      and `y` is the one `same`-element. */
  lemma InsertAfterFirst<T(!new)>(f1: seq<T>, x: T, y: T, f2: seq<T>,
                                 q: T -> bool, p: T -> bool, same: T -> bool)
    requires forall z :: same(z) <==> !p(z)
    requires forall i :: 0 <= i < |f1| ==> !q(f1[i]) && p(f1[i])
    requires forall z :: z in f2 ==> p(z)
    requires q(x) && p(x) && !p(y)
    ensures var r := f1 + [x] + [y] + f2;
      && |f1| + 1 < |r| && r[|f1|] == x && r[|f1| + 1] == y
      && FirstIndex(r, q) == |f1|
      && Count(r, same) == 1
      && Filter(r, p) == f1 + [x] + f2
  {
    var left := f1 + [x];
    var r := left + [y] + f2;
    assert FirstIndex(r, q) == |f1| by {
      assert r[|f1|] == x;
      assert forall j :: 0 <= j < |f1| ==> r[j] == f1[j];
      FirstIndexAt(r, q, |f1|);
    }
    assert Filter(r, p) == f1 + [x] + f2 by {
      FilterDrop(left, y, f2, p);
      assert forall z :: z in left ==> p(z);
      FilterAll(left, p);
      FilterAll(f2, p);
    }
    assert Count(r, same) == 1 by {
      CountAround(left, y, f2, same);
      assert forall i :: 0 <= i < |left| ==> !same(left[i]);
      CountNone(left, same);
      CountNone(f2, same);
    }
  }

  /** An element satisfying the predicate makes the count positive. */
  lemma CountOne<T>(s: seq<T>, p: T -> bool, i: nat)
    requires i < |s| && p(s[i])
    ensures Count(s, p) >= 1
  {
    assert s == s[..i] + s[i..];
    CountConcat(s[..i], s[i..], p);
    assert s[i..][0] == s[i];
  }

  /** Two elements satisfying the predicate make the count at least two. */
  lemma CountTwo<T>(s: seq<T>, p: T -> bool, i: nat, j: nat)
    requires i < j < |s| && p(s[i]) && p(s[j])
    ensures Count(s, p) >= 2
  {
    assert s == s[..j] + s[j..];
    CountConcat(s[..j], s[j..], p);
    CountOne(s[..j], p, i);
    CountOne(s[j..], p, 0);
  }

  /** Counting respects sub-multisets: taking elements away never raises a count. */
  lemma {:induction false} CountMonotone<T>(a: seq<T>, b: seq<T>, p: T -> bool)
    requires multiset(a) <= multiset(b)
    ensures Count(a, p) <= Count(b, p)
    decreases |a|
  {
    if a != [] {
      var x := a[0];
      assert x in multiset(a);
      var i :| 0 <= i < |b| && b[i] == x;
      var rest := b[..i] + b[i + 1..];
      RemoveAt(b, i, p);
      assert a == [x] + a[1..];
      assert multiset(a[1..]) == multiset(a) - multiset{x};
      CountMonotone(a[1..], rest, p);
    }
  }

  /** Removing the element at `i` takes it out of the multiset and of the count. */
  lemma RemoveAt<T>(b: seq<T>, i: nat, p: T -> bool)
    requires i < |b|
    ensures multiset(b[..i] + b[i + 1..]) == multiset(b) - multiset{b[i]}
    ensures Count(b, p) == Count(b[..i] + b[i + 1..], p) + (if p(b[i]) then 1 else 0)
  {
    var front, back := b[..i], b[i + 1..];
    SplitAt(b, i);
    assert multiset(b) == multiset(front) + multiset{b[i]} + multiset(back);
    assert multiset(front + back) == multiset(front) + multiset(back);
    RemovedCount(front, b[i], back, p);
  }

  lemma SplitAt<T>(b: seq<T>, i: nat)
    requires i < |b|
    ensures b == b[..i] + [b[i]] + b[i + 1..]
  {
    assert b[i..] == [b[i]] + b[i + 1..];
    assert b == b[..i] + b[i..];
  }

  lemma RemovedCount<T>(front: seq<T>, x: T, back: seq<T>, p: T -> bool)
    ensures Count(front + [x] + back, p) == Count(front + back, p) + (if p(x) then 1 else 0)
  {
    CountAround(front, x, back, p);
    CountConcat(front, back, p);
  }

  /** `a` is obtained from `b` by deleting elements: the elements of `a` occur in
      `b` in the same order. */
  predicate Subsequence<T(==)>(a: seq<T>, b: seq<T>)
    decreases |b|
  {
    if a == [] then true
    else if b == [] then false
    else
      (a[|a| - 1] == b[|b| - 1] && Subsequence(a[..|a| - 1], b[..|b| - 1])) ||
      Subsequence(a, b[..|b| - 1])
  }

  /** Extending both sequences, or only the longer one, by the same element. */
  lemma SubsequenceSnoc<T>(a: seq<T>, b: seq<T>, x: T)
    requires Subsequence(a, b)
    ensures Subsequence(a + [x], b + [x])
    ensures Subsequence(a, b + [x])
  {
    assert (a + [x])[..|a|] == a;
    assert (b + [x])[..|b|] == b;
  }
}
