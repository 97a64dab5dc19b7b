/** Sequence operations that the source gets from JavaScript's array library:
    `filter`, counting with `filter(...).length`, `[...new Set(xs)]` and the
    stable `sort` with a numeric comparator. */
module Seqs {
  import opened Wrappers

  /** `s.findIndex(p)`, with a missing index for JavaScript's `-1`: the
      position of the first element satisfying `p`. A `for ... of` loop with an
      early `return`, and `Array.prototype.find`, are this followed by `s[i]`. */
  function FirstIndex<T>(s: seq<T>, p: T -> bool): (r: Option<nat>)
    ensures r.Some? ==> r.value < |s| && p(s[r.value])
    ensures r.Some? ==> forall k :: 0 <= k < r.value ==> !p(s[k])
    ensures r.None? <==> forall k :: 0 <= k < |s| ==> !p(s[k])
  {
    if |s| == 0 then None
    else if p(s[0]) then Some(0)
    else match FirstIndex(s[1..], p)
      case None => None
      case Some(i) => Some(i + 1)
  }

  /** Predicates that agree on the elements find the same index. */
  lemma {:induction false} FirstIndexAgree<T>(s: seq<T>, p: T -> bool, q: T -> bool)
    requires forall i :: 0 <= i < |s| ==> p(s[i]) == q(s[i])
    ensures FirstIndex(s, p) == FirstIndex(s, q)
  {
    if |s| > 0 {
      FirstIndexAgree(s[1..], p, q);
    }
  }

  /** An element satisfying `p` with none before it is the one found. */
  lemma FirstIndexUnique<T>(s: seq<T>, p: T -> bool, i: nat)
    requires i < |s| && p(s[i])
    requires forall k :: 0 <= k < i ==> !p(s[k])
    ensures FirstIndex(s, p) == Some(i)
  {
    var r := FirstIndex(s, p);
    assert r.Some? && r.value <= i;
  }

  /** `s.filter(p)`: the elements of `s` that satisfy `p`, in their order. */
  function Filter<T>(s: seq<T>, p: T -> bool): (r: seq<T>)
    ensures |r| <= |s|
    ensures forall x :: x in r ==> x in s && p(x)
  {
    if |s| == 0 then []
    else (if p(s[0]) then [s[0]] else []) + Filter(s[1..], p)
  }

  /** What is left of `s` once its longest prefix satisfying `p` is dropped. */
  function DropWhile<T>(s: seq<T>, p: T -> bool): (r: seq<T>)
    ensures |r| <= |s| && r == s[|s| - |r|..]
    ensures forall i :: 0 <= i < |s| - |r| ==> p(s[i])
    ensures |r| == 0 || !p(r[0])
  {
    if |s| > 0 && p(s[0]) then DropWhile(s[1..], p) else s
  }

  /** What is left of `s` once its longest suffix satisfying `p` is dropped. */
  function DropLastWhile<T>(s: seq<T>, p: T -> bool): (r: seq<T>)
    ensures |r| <= |s| && r == s[..|r|]
    ensures forall i :: |r| <= i < |s| ==> p(s[i])
    ensures |r| == 0 || !p(r[|r| - 1])
  {
    if |s| > 0 && p(s[|s| - 1]) then DropLastWhile(s[..|s| - 1], p) else s
  }

  /** Dropping a suffix from `x + y` stays inside `y` when `y` keeps
      something or `x` ends in an element that is not dropped. */
  lemma {:induction false} DropLastWhileAppend<T>(x: seq<T>, y: seq<T>, p: T -> bool)
    requires DropLastWhile(y, p) != [] || (|x| > 0 && !p(x[|x| - 1]))
    ensures DropLastWhile(x + y, p) == x + DropLastWhile(y, p)
  {
    if |y| == 0 {
      assert x + y == x;
    } else if p(y[|y| - 1]) {
      assert (x + y)[..|x + y| - 1] == x + y[..|y| - 1];
      DropLastWhileAppend(x, y[..|y| - 1], p);
    }
  }

  /** A sequence whose every element is dropped leaves nothing. */
  lemma {:induction false} DropLastWhileAll<T>(s: seq<T>, p: T -> bool)
    requires forall i :: 0 <= i < |s| ==> p(s[i])
    ensures DropLastWhile(s, p) == []
  {
    if |s| > 0 {
      DropLastWhileAll(s[..|s| - 1], p);
    }
  }

  /** `s.map(f)`. */
  function Map<A, B>(s: seq<A>, f: A -> B): (r: seq<B>)
    ensures |r| == |s|
    ensures forall i :: 0 <= i < |s| ==> r[i] == f(s[i])
  {
    if |s| == 0 then [] else [f(s[0])] + Map(s[1..], f)
  }

  lemma MapAppend<A, B>(a: seq<A>, b: seq<A>, f: A -> B)
    ensures Map(a + b, f) == Map(a, f) + Map(b, f)
  {
  }

  /** `s.filter(p).length`. */
  function Count<T>(s: seq<T>, p: T -> bool): nat {
    |Filter(s, p)|
  }

  lemma {:induction false} FilterMembers<T>(s: seq<T>, p: T -> bool)
    ensures forall x :: x in Filter(s, p) <==> x in s && p(x)
  {
    if |s| > 0 {
      FilterMembers(s[1..], p);
      assert s == [s[0]] + s[1..];
    }
  }

  lemma {:induction false} FilterAppend<T>(a: seq<T>, b: seq<T>, p: T -> bool)
    ensures Filter(a + b, p) == Filter(a, p) + Filter(b, p)
  {
    if |a| == 0 {
      assert a + b == b;
    } else {
      assert (a + b)[0] == a[0];
      assert (a + b)[1..] == a[1..] + b;
      FilterAppend(a[1..], b, p);
    }
  }

  /** What one more loop iteration adds to a filtered prefix. */
  lemma FilterSnoc<T>(s: seq<T>, k: nat, p: T -> bool)
    requires k < |s|
    ensures Filter(s[..k + 1], p) == Filter(s[..k], p) + (if p(s[k]) then [s[k]] else [])
  {
    assert s[..k + 1] == s[..k] + [s[k]];
    FilterAppend(s[..k], [s[k]], p);
  }

  /** Filtering twice keeps exactly what satisfies both predicates. */
  lemma {:induction false} FilterFilter<T>(s: seq<T>, p: T -> bool, q: T -> bool)
    ensures Filter(Filter(s, p), q) == Filter(s, Both(p, q))
  {
    if |s| > 0 {
      FilterFilter(s[1..], p, q);
      FilterAppend(if p(s[0]) then [s[0]] else [], Filter(s[1..], p), q);
    }
  }

  function Both<T>(p: T -> bool, q: T -> bool): T -> bool {
    x => p(x) && q(x)
  }

  function Negate<T>(p: T -> bool): T -> bool {
    x => !p(x)
  }

  /** Every element satisfies `p` or not: the two filters split `s`. */
  lemma {:induction false} FilterSplit<T>(s: seq<T>, p: T -> bool)
    ensures |Filter(s, p)| + |Filter(s, Negate(p))| == |s|
  {
    if |s| > 0 {
      FilterSplit(s[1..], p);
    }
  }

  /** `r` is `s` with some elements left out and the rest in their order. */
  ghost predicate IsSubsequence<T>(r: seq<T>, s: seq<T>)
    decreases |s|
  {
    |r| == 0 || (|s| > 0 && (IsSubsequence(r, s[1..]) || (r[0] == s[0] && IsSubsequence(r[1..], s[1..]))))
  }

  /** Filtering keeps the order of what it keeps, and keeps every element
      satisfying `p` as often as it occurs. */
  lemma {:induction false} FilterOrderAndMultiplicity<T>(s: seq<T>, p: T -> bool)
    ensures IsSubsequence(Filter(s, p), s)
    ensures forall x :: p(x) ==> multiset(Filter(s, p))[x] == multiset(s)[x]
  {
    if |s| > 0 {
      FilterOrderAndMultiplicity(s[1..], p);
      var r := Filter(s, p);
      var rest := Filter(s[1..], p);
      assert s == [s[0]] + s[1..];
      if p(s[0]) {
        assert r == [s[0]] + rest;
        assert r[1..] == rest;
      } else {
        assert r == rest;
      }
    }
  }

  /** Mapping both sides keeps a subsequence a subsequence. */
  lemma {:induction false} MapSubsequence<A, B>(r: seq<A>, s: seq<A>, f: A -> B)
    requires IsSubsequence(r, s)
    ensures IsSubsequence(Map(r, f), Map(s, f))
    decreases |s|
  {
    if |r| > 0 {
      assert Map(s, f)[1..] == Map(s[1..], f);
      if IsSubsequence(r, s[1..]) {
        MapSubsequence(r, s[1..], f);
      } else {
        MapSubsequence(r[1..], s[1..], f);
        assert Map(r, f)[1..] == Map(r[1..], f);
      }
    }
  }

  /** Predicates that agree on every element filter alike. */
  lemma {:induction false} FilterAgree<T>(s: seq<T>, p: T -> bool, q: T -> bool)
    requires forall i :: 0 <= i < |s| ==> p(s[i]) == q(s[i])
    ensures Filter(s, p) == Filter(s, q)
  {
    if |s| > 0 {
      FilterAgree(s[1..], p, q);
    }
  }

  /** `s.splice(k, 1)` on a copy: `s` without its element at `k`. */
  function RemoveAt<T>(s: seq<T>, k: int): (r: seq<T>)
    requires 0 <= k < |s|
    ensures |r| == |s| - 1 && multiset(r) + multiset{s[k]} == multiset(s)
    ensures forall j :: 0 <= j < k ==> r[j] == s[j]
    ensures forall j :: k <= j < |r| ==> r[j] == s[j + 1]
  {
    assert s == s[..k] + [s[k]] + s[k + 1..];
    s[..k] + s[k + 1..]
  }

  /** `s.map(f).filter(Boolean)` with the kept values unwrapped: the values
      `f` gives, in order, skipping the elements it gives none for. */
  function FilterMap<A, B>(s: seq<A>, f: A -> Option<B>): (r: seq<B>)
    ensures |r| <= |s|
    ensures (forall i :: 0 <= i < |s| ==> f(s[i]).Some?) ==> |r| == |s|
    ensures forall i :: 0 <= i < |s| && f(s[i]).Some? ==> f(s[i]).value in r
    ensures forall j :: 0 <= j < |r| ==> exists i :: 0 <= i < |s| && f(s[i]) == Some(r[j])
  {
    if |s| == 0 then []
    else
      var head := if f(s[0]).Some? then [f(s[0]).value] else [];
      var rest := FilterMap(s[1..], f);
      assert forall j :: 0 <= j < |rest| ==> exists i :: 0 <= i < |s| && f(s[i]) == Some(rest[j]) by {
        forall j | 0 <= j < |rest| ensures exists i :: 0 <= i < |s| && f(s[i]) == Some(rest[j]) {
          var i :| 0 <= i < |s[1..]| && f(s[1..][i]) == Some(rest[j]);
          assert s[1..][i] == s[i + 1];
        }
      }
      assert forall i :: 1 <= i < |s| && f(s[i]).Some? ==> f(s[i]).value in rest by {
        forall i | 1 <= i < |s| && f(s[i]).Some? ensures f(s[i]).value in rest {
          assert s[1..][i - 1] == s[i];
        }
      }
      head + rest
  }

  /** Filtering with a predicate no element satisfies leaves nothing. */
  lemma {:induction false} FilterNone<T>(s: seq<T>, p: T -> bool)
    requires forall i :: 0 <= i < |s| ==> !p(s[i])
    ensures Filter(s, p) == []
  {
    if |s| > 0 {
      FilterNone(s[1..], p);
    }
  }

  /** Filtering with a predicate every element satisfies changes nothing. */
  lemma {:induction false} FilterKeepsAll<T>(s: seq<T>, p: T -> bool)
    requires forall i :: 0 <= i < |s| ==> p(s[i])
    ensures Filter(s, p) == s
  {
    if |s| > 0 {
      FilterKeepsAll(s[1..], p);
      assert s == [s[0]] + s[1..];
    }
  }

  /** `[...new Set(s)]`: each value once, in order of first occurrence. */
  function Distinct<T(==)>(s: seq<T>): (r: seq<T>)
    ensures |r| <= |s|
    ensures forall i :: 0 <= i < |s| ==> s[i] in r
    ensures forall i :: 0 <= i < |r| ==> r[i] in s
    ensures NoDuplicates(r)
  {
    if |s| == 0 then []
    else
      var init := s[..|s| - 1];
      var d := Distinct(init);
      assert forall i :: 0 <= i < |s| - 1 ==> s[i] == init[i];
      if s[|s| - 1] in d then d else d + [s[|s| - 1]]
  }

  ghost predicate NoDuplicates<T>(s: seq<T>) {
    forall i, j :: 0 <= i < j < |s| ==> s[i] != s[j]
  }

  /** The position of the first element whose key is `k`, or `|s|` when
      there is none: the order in which keys are first seen. */
  function PosBy<T, K(==)>(s: seq<T>, f: T -> K, k: K): (r: nat)
    ensures r <= |s|
    ensures r < |s| ==> f(s[r]) == k
    ensures forall i :: 0 <= i < r ==> f(s[i]) != k
  {
    if |s| == 0 then 0 else if f(s[0]) == k then 0 else 1 + PosBy(s[1..], f, k)
  }

  /** An element with key `k` and none before it is the first position. */
  lemma PosByUnique<T, K>(s: seq<T>, f: T -> K, k: K, i: nat)
    requires i < |s| && f(s[i]) == k
    requires forall j :: 0 <= j < i ==> f(s[j]) != k
    ensures PosBy(s, f, k) == i
  {
  }

  /** A key first seen within a prefix is first seen at the same place in
      the whole sequence. */
  lemma PosByPrefix<T, K>(s: seq<T>, m: nat, f: T -> K, k: K)
    requires m <= |s| && PosBy(s[..m], f, k) < m
    ensures PosBy(s, f, k) == PosBy(s[..m], f, k)
  {
    var p := PosBy(s[..m], f, k);
    assert s[..m][p] == s[p];
    forall j | 0 <= j < p ensures f(s[j]) != k {
      assert s[..m][j] == s[j];
    }
    PosByUnique(s, f, k, p);
  }

  /** The keys `r` are each first seen somewhere in `s`, in the order of
      their first positions. */
  ghost predicate KeysInFirstSeenOrder<A, B>(r: seq<B>, s: seq<A>, g: A -> B) {
    (forall j :: 0 <= j < |r| ==> PosBy(s, g, r[j]) < |s|)
    && (forall j1, j2 :: 0 <= j1 < j2 < |r| ==> PosBy(s, g, r[j1]) < PosBy(s, g, r[j2]))
  }

  /** Keys first seen in a prefix keep their positions in the whole. */
  lemma KeysExtend<A, B>(r: seq<B>, s: seq<A>, g: A -> B)
    requires |s| > 0 && KeysInFirstSeenOrder(r, s[..|s| - 1], g)
    ensures KeysInFirstSeenOrder(r, s, g)
    ensures forall j :: 0 <= j < |r| ==> PosBy(s, g, r[j]) < |s| - 1
  {
    PosBysPrefix(r, s, |s| - 1, g);
  }

  /** Keys first seen in a prefix: their positions there are theirs in the
      whole. */
  lemma PosBysPrefix<A, B>(r: seq<B>, s: seq<A>, m: nat, g: A -> B)
    requires m <= |s| && forall j :: 0 <= j < |r| ==> PosBy(s[..m], g, r[j]) < m
    ensures forall j :: 0 <= j < |r| ==> PosBy(s, g, r[j]) == PosBy(s[..m], g, r[j])
  {
    forall j | 0 <= j < |r| ensures PosBy(s, g, r[j]) == PosBy(s[..m], g, r[j]) {
      PosByPrefix(s, m, g, r[j]);
    }
  }

  /** A key first seen at the last position comes after all the others. */
  lemma KeysSnoc<A, B>(r: seq<B>, s: seq<A>, g: A -> B)
    requires |s| > 0 && KeysInFirstSeenOrder(r, s[..|s| - 1], g)
    requires forall i :: 0 <= i < |s| - 1 ==> g(s[i]) != g(s[|s| - 1])
    ensures KeysInFirstSeenOrder(r + [g(s[|s| - 1])], s, g)
  {
    KeysExtend(r, s, g);
    PosByUnique(s, g, g(s[|s| - 1]), |s| - 1);
    var r' := r + [g(s[|s| - 1])];
    assert forall j :: 0 <= j < |r| ==> r'[j] == r[j];
  }

  /** `[...new Set(s.map(g))]` lists each key where it is first seen. */
  lemma {:induction false} DistinctMapOrder<A, B>(s: seq<A>, g: A -> B)
    ensures KeysInFirstSeenOrder(Distinct(Map(s, g)), s, g)
  {
    if |s| > 0 {
      var n := |s|;
      var init := s[..n - 1];
      var m := Map(s, g);
      var mi := Map(init, g);
      assert m[..n - 1] == mi;
      DistinctMapOrder(init, g);
      var d := Distinct(mi);
      if m[n - 1] in d {
        assert Distinct(m) == d;
        KeysExtend(d, s, g);
      } else {
        assert Distinct(m) == d + [g(s[n - 1])];
        forall i | 0 <= i < n - 1 ensures g(s[i]) != g(s[n - 1]) {
          assert mi[i] in d;
        }
        KeysSnoc(d, s, g);
      }
    }
  }

  /** Every element of `u` is the first element of `s` with its key, and
      they come in the order in which their keys are first seen. */
  ghost predicate KeepsFirst<T, K>(u: seq<T>, s: seq<T>, f: T -> K) {
    (forall j :: 0 <= j < |u| ==> PosBy(s, f, f(u[j])) < |s| && s[PosBy(s, f, f(u[j]))] == u[j])
    && (forall j1, j2 :: 0 <= j1 < j2 < |u| ==> PosBy(s, f, f(u[j1])) < PosBy(s, f, f(u[j2])))
  }

  /** First elements of a prefix stay first in the whole. */
  lemma KeepsFirstExtend<T, K>(u: seq<T>, s: seq<T>, f: T -> K)
    requires |s| > 0 && KeepsFirst(u, s[..|s| - 1], f)
    ensures KeepsFirst(u, s, f)
    ensures forall j :: 0 <= j < |u| ==> PosBy(s, f, f(u[j])) < |s| - 1
  {
    forall j | 0 <= j < |u|
      ensures PosBy(s, f, f(u[j])) == PosBy(s[..|s| - 1], f, f(u[j])) < |s| - 1
      ensures s[PosBy(s, f, f(u[j]))] == u[j]
    {
      PosByPrefix(s, |s| - 1, f, f(u[j]));
      assert s[..|s| - 1][PosBy(s[..|s| - 1], f, f(u[j]))] == u[j];
    }
  }

  /** The last element, when its key is new, is first and comes last. */
  lemma KeepsFirstSnoc<T, K>(u: seq<T>, s: seq<T>, f: T -> K)
    requires |s| > 0 && KeepsFirst(u, s[..|s| - 1], f)
    requires forall i :: 0 <= i < |s| - 1 ==> f(s[i]) != f(s[|s| - 1])
    ensures KeepsFirst(u + [s[|s| - 1]], s, f)
  {
    KeepsFirstExtend(u, s, f);
    PosByUnique(s, f, f(s[|s| - 1]), |s| - 1);
    var u' := u + [s[|s| - 1]];
    assert forall j :: 0 <= j < |u| ==> u'[j] == u[j];
  }

  /** A prefix of such a list is one too. */
  lemma KeepsFirstPrefix<T, K>(u: seq<T>, s: seq<T>, f: T -> K, k: nat)
    requires k <= |u| && KeepsFirst(u, s, f)
    ensures KeepsFirst(u[..k], s, f)
  {
    assert forall j :: 0 <= j < k ==> u[..k][j] == u[j];
  }

  /** No two elements share a value of `f`. */
  ghost predicate DistinctBy<T, K>(s: seq<T>, f: T -> K) {
    forall i, j :: 0 <= i < j < |s| ==> f(s[i]) != f(s[j])
  }

  /** Filtering keeps distinct values distinct. */
  lemma {:induction false} FilterDistinctBy<T, K>(s: seq<T>, p: T -> bool, f: T -> K)
    requires DistinctBy(s, f)
    ensures DistinctBy(Filter(s, p), f)
  {
    if |s| > 0 {
      FilterDistinctBy(s[1..], p, f);
      var r := Filter(s[1..], p);
      forall j | 0 <= j < |r| ensures f(s[0]) != f(r[j]) {
        assert r[j] in s[1..];
      }
    }
  }

  /** Mapping through `g` keeps a `g`-injective projection distinct. */
  lemma MapDistinctBy<T, U, K>(s: seq<T>, g: T -> U, f: U -> K, h: T -> K)
    requires DistinctBy(s, h)
    requires forall i :: 0 <= i < |s| ==> f(g(s[i])) == h(s[i])
    ensures DistinctBy(Map(s, g), f)
  {
  }

  /** With distinct elements, a distinct-preserving projection keeps them apart. */
  lemma DistinctIsDistinctBy<T>(s: seq<T>)
    requires NoDuplicates(s)
    ensures DistinctBy(s, (x: T) => x)
  {
  }

  // ---------------------------------------------------------------------
  // Stable sort, non-increasing by an integer key
  // (`xs.sort((a, b) => key(b) - key(a))`; ECMAScript requires `sort` to be stable).

  /** Puts `x` after every element whose key is at least `key(x)`. */
  function InsertDesc<T>(s: seq<T>, x: T, key: T -> int): seq<T> {
    if |s| == 0 then [x]
    else if key(s[0]) >= key(x) then [s[0]] + InsertDesc(s[1..], x, key)
    else [x] + s
  }

  function SortDesc<T>(xs: seq<T>, key: T -> int): seq<T> {
    if |xs| == 0 then []
    else InsertDesc(SortDesc(xs[..|xs| - 1], key), xs[|xs| - 1], key)
  }

  ghost predicate SortedDesc<T>(s: seq<T>, key: T -> int) {
    forall i, j :: 0 <= i < j < |s| ==> key(s[i]) >= key(s[j])
  }

  function KeyIs<T>(key: T -> int, c: int): T -> bool {
    y => key(y) == c
  }

  lemma {:induction false} InsertDescFacts<T>(s: seq<T>, x: T, key: T -> int)
    requires SortedDesc(s, key)
    ensures SortedDesc(InsertDesc(s, x, key), key)
    ensures multiset(InsertDesc(s, x, key)) == multiset(s) + multiset{x}
    ensures forall y :: y in InsertDesc(s, x, key) <==> y in s || y == x
  {
    InsertDescSorted(s, x, key);
    InsertDescMultiset(s, x, key);
    var r := InsertDesc(s, x, key);
    forall y ensures y in r <==> y in s || y == x {
      assert y in r <==> y in multiset(r);
      assert y in s <==> y in multiset(s);
    }
  }

  lemma {:induction false} InsertDescMultiset<T>(s: seq<T>, x: T, key: T -> int)
    ensures multiset(InsertDesc(s, x, key)) == multiset(s) + multiset{x}
  {
    if |s| > 0 && key(s[0]) >= key(x) {
      InsertDescMultiset(s[1..], x, key);
      assert s == [s[0]] + s[1..];
    } else if |s| > 0 {
      assert s == [s[0]] + s[1..];
    }
  }

  lemma {:induction false} InsertDescSorted<T>(s: seq<T>, x: T, key: T -> int)
    requires SortedDesc(s, key)
    ensures SortedDesc(InsertDesc(s, x, key), key)
  {
    if |s| > 0 && key(s[0]) >= key(x) {
      var r := InsertDesc(s[1..], x, key);
      assert SortedDesc(s[1..], key);
      InsertDescSorted(s[1..], x, key);
      InsertDescBound(s[1..], x, key, key(s[0]));
      assert InsertDesc(s, x, key) == [s[0]] + r;
    } else if |s| > 0 {
      assert InsertDesc(s, x, key) == [x] + s;
    }
  }

  lemma {:induction false} InsertDescBound<T>(s: seq<T>, x: T, key: T -> int, b: int)
    requires forall i :: 0 <= i < |s| ==> key(s[i]) <= b
    requires key(x) <= b
    ensures forall j :: 0 <= j < |InsertDesc(s, x, key)| ==> key(InsertDesc(s, x, key)[j]) <= b
  {
    if |s| > 0 && key(s[0]) >= key(x) {
      InsertDescBound(s[1..], x, key, b);
    }
  }

  lemma {:induction false} InsertDescFilter<T>(s: seq<T>, x: T, key: T -> int, c: int)
    requires SortedDesc(s, key)
    ensures Filter(InsertDesc(s, x, key), KeyIs(key, c))
         == Filter(s, KeyIs(key, c)) + (if key(x) == c then [x] else [])
    decreases |s|, 1
  {
    var p := KeyIs(key, c);
    var tail: seq<T> := if key(x) == c then [x] else [];
    if |s| == 0 {
      assert Filter([x], p) == tail + Filter([], p);
    } else if key(s[0]) >= key(x) {
      InsertDescFilterFront(s, x, key, c);
    } else {
      assert InsertDesc(s, x, key) == [x] + s;
      FilterAppend([x], s, p);
      assert Filter([x], p) == tail + Filter([], p);
      if key(x) == c {
        NoneWithKey(s, key, c);
      }
    }
  }

  lemma {:induction false} InsertDescFilterFront<T>(s: seq<T>, x: T, key: T -> int, c: int)
    requires SortedDesc(s, key)
    requires |s| > 0 && key(s[0]) >= key(x)
    ensures Filter(InsertDesc(s, x, key), KeyIs(key, c))
         == Filter(s, KeyIs(key, c)) + (if key(x) == c then [x] else [])
    decreases |s|, 0
  {
    var p := KeyIs(key, c);
    var r := InsertDesc(s[1..], x, key);
    var head: seq<T> := if key(s[0]) == c then [s[0]] else [];
    var tail: seq<T> := if key(x) == c then [x] else [];
    assert Filter(r, p) == Filter(s[1..], p) + tail by {
      assert SortedDesc(s[1..], key);
      InsertDescFilter(s[1..], x, key, c);
    }
    assert Filter(InsertDesc(s, x, key), p) == head + Filter(r, p) by {
      assert InsertDesc(s, x, key) == [s[0]] + r;
      FilterAppend([s[0]], r, p);
      assert Filter([s[0]], p) == head + Filter([], p);
    }
    assert Filter(s, p) == head + Filter(s[1..], p);
  }

  lemma {:induction false} NoneWithKey<T>(s: seq<T>, key: T -> int, c: int)
    requires forall i :: 0 <= i < |s| ==> key(s[i]) < c
    ensures Filter(s, KeyIs(key, c)) == []
  {
    if |s| > 0 {
      NoneWithKey(s[1..], key, c);
    }
  }

  lemma {:induction false} InsertDescDistinctBy<T, K>(s: seq<T>, x: T, key: T -> int, f: T -> K)
    requires DistinctBy(s, f)
    requires forall i :: 0 <= i < |s| ==> f(s[i]) != f(x)
    ensures DistinctBy(InsertDesc(s, x, key), f)
    ensures forall y :: y in InsertDesc(s, x, key) ==> y in s || y == x
  {
    if |s| > 0 && key(s[0]) >= key(x) {
      InsertDescDistinctBy(s[1..], x, key, f);
      var r := InsertDesc(s[1..], x, key);
      forall j | 0 <= j < |r| ensures f(s[0]) != f(r[j]) {
        assert r[j] in s[1..] || r[j] == x;
      }
    }
  }

  /** Sorting keeps distinct values of `f` distinct. */
  lemma {:induction false} SortDescDistinctBy<T, K>(xs: seq<T>, key: T -> int, f: T -> K)
    requires DistinctBy(xs, f)
    ensures DistinctBy(SortDesc(xs, key), f)
  {
    if |xs| > 0 {
      var init := xs[..|xs| - 1];
      SortDescDistinctBy(init, key, f);
      SortDescFacts(init, key);
      var sorted := SortDesc(init, key);
      forall i | 0 <= i < |sorted| ensures f(sorted[i]) != f(xs[|xs| - 1]) {
        assert sorted[i] in multiset(sorted);
        assert sorted[i] in multiset(init);
        var k :| 0 <= k < |init| && init[k] == sorted[i];
        assert init[k] == xs[k];
      }
      InsertDescDistinctBy(sorted, xs[|xs| - 1], key, f);
    }
  }

  /** The sort is sorted and a permutation of its input. */
  lemma {:induction false} SortDescFacts<T>(xs: seq<T>, key: T -> int)
    ensures SortedDesc(SortDesc(xs, key), key)
    ensures multiset(SortDesc(xs, key)) == multiset(xs)
    ensures forall y :: y in SortDesc(xs, key) <==> y in xs
  {
    if |xs| > 0 {
      var init := xs[..|xs| - 1];
      SortDescFacts(init, key);
      InsertDescFacts(SortDesc(init, key), xs[|xs| - 1], key);
      assert xs == init + [xs[|xs| - 1]];
    }
  }

  /** Filtering keeps a strictly ordered sequence strictly ordered. */
  lemma {:induction false} FilterStrictlySorted<T>(s: seq<T>, p: T -> bool, less: (T, T) -> bool)
    requires StrictlySorted(s, less)
    ensures StrictlySorted(Filter(s, p), less)
  {
    if |s| > 0 {
      FilterStrictlySorted(s[1..], p, less);
      var r := Filter(s[1..], p);
      forall j | 0 <= j < |r| ensures less(s[0], r[j]) {
        assert r[j] in s[1..];
      }
    }
  }

  ghost predicate StrictlySorted<T>(s: seq<T>, less: (T, T) -> bool) {
    forall i, j :: 0 <= i < j < |s| ==> less(s[i], s[j])
  }

  /** Stability: the elements sharing any one key keep their input order. */
  lemma {:induction false} SortDescStable<T>(xs: seq<T>, key: T -> int, c: int)
    ensures Filter(SortDesc(xs, key), KeyIs(key, c)) == Filter(xs, KeyIs(key, c))
  {
    if |xs| > 0 {
      var p := KeyIs(key, c);
      var init, last := xs[..|xs| - 1], xs[|xs| - 1];
      var tail: seq<T> := if key(last) == c then [last] else [];
      assert Filter(SortDesc(xs, key), p) == Filter(init, p) + tail by {
        SortDescStable(init, key, c);
        SortDescFacts(init, key);
        InsertDescFilter(SortDesc(init, key), last, key, c);
      }
      assert Filter(xs, p) == Filter(init, p) + tail by {
        assert xs == init + [last];
        FilterAppend(init, [last], p);
        assert Filter([last], p) == tail + Filter([], p);
      }
    }
  }
}
