/** The pairwise scan of `checkInteractions`: two nested loops over the
    pairs `i < j` of a list, pushing what a probe of each pair returns. It is
    stated for any probe, here a function from two list elements to an
    optional entry; the medication scan instantiates it with the lookup of
    an interaction and the entry built from it. */
module PairScan {
  import opened Wrappers
  import opened Seqs

  /** A pair of list indices. */
  type Pair = (int, int)

  /** What visiting the pair `(i, j)` pushes: the probe of the pair
      `(names[i], names[j])` returns the entry to push, or None to push
      nothing. */
  function Visit<N, E>(probe: (N, N) -> Option<E>, names: seq<N>, i: int, j: int): seq<E>
    requires 0 <= i < |names| && 0 <= j < |names|
  {
    match probe(names[i], names[j])
    case None => []
    case Some(e) => [e]
  }

  /** What the two nested loops push: the visits of every pair `i < j`, in
      loop order. */
  function Scan<N, E>(probe: (N, N) -> Option<E>, names: seq<N>): seq<E> {
    Probes(probe, names, LexPairs(|names|, |names|))
  }

  /** The outer loop over the rows `i`. */
  method CheckPairs<N, E>(probe: (N, N) -> Option<E>, names: seq<N>) returns (interactions: seq<E>)
    ensures interactions == Scan(probe, names)
  {
    interactions := [];
    var i := 0;
    while i < |names|
      invariant 0 <= i <= |names|
      invariant interactions == Probes(probe, names, LexPairs(|names|, i))
    {
      var row := CheckRow(probe, names, i);
      LexStep(probe, names, i);
      interactions := interactions + row;
      i := i + 1;
    }
    assert i == |names|;
  }

  /** The inner loop: the pairs `(i, j)` with `j > i`. */
  method CheckRow<N, E>(probe: (N, N) -> Option<E>, names: seq<N>, i: int) returns (row: seq<E>)
    requires 0 <= i < |names|
    ensures row == Probes(probe, names, RowPairs(i, |names|))
  {
    row := [];
    var j := i + 1;
    while j < |names|
      invariant i + 1 <= j <= |names|
      invariant row == Probes(probe, names, RowPairs(i, j))
    {
      var found := probe(names[i], names[j]);
      RowStep(probe, names, i, j);
      if found.Some? {
        row := row + [found.value];
      }
      j := j + 1;
    }
    assert j == |names|;
  }

  // The pairs the loops visit

  /** The pairs `(i, i + 1), ..., (i, j - 1)`: the inner loop's iterations. */
  function RowPairs(i: int, j: int): seq<Pair>
    decreases j - i
  {
    if j <= i + 1 then [] else RowPairs(i, j - 1) + [(i, j - 1)]
  }

  /** The inner loop runs `j - i - 1` times, and iteration `k` visits
      `(i, i + 1 + k)`. */
  lemma {:induction false} RowPairsAt(i: int, j: int)
    ensures |RowPairs(i, j)| == if j > i + 1 then j - i - 1 else 0
    ensures forall k :: 0 <= k < |RowPairs(i, j)| ==> RowPairs(i, j)[k] == (i, i + 1 + k)
    decreases j - i
  {
    if j > i + 1 {
      RowPairsAt(i, j - 1);
      var init := RowPairs(i, j - 1);
      assert forall k :: 0 <= k < |init| ==> RowPairs(i, j)[k] == init[k];
    }
  }

  /** Every pair `(a, b)` with `0 <= a < i` and `a < b < n`, in loop order. */
  function LexPairs(n: int, i: int): seq<Pair>
    decreases i
  {
    if i <= 0 then [] else LexPairs(n, i - 1) + RowPairs(i - 1, n)
  }

  predicate LexLess(p: Pair, q: Pair) {
    p.0 < q.0 || (p.0 == q.0 && p.1 < q.1)
  }

  function LexOrder(): (Pair, Pair) -> bool {
    (p: Pair, q: Pair) => LexLess(p, q)
  }

  /** Loop order is strict lexicographic order, and it visits exactly the
      pairs `a < b < n` with `0 <= a < i`. */
  lemma LexPairsFacts(n: int, i: int)
    requires 0 <= i <= n
    ensures StrictlySorted(LexPairs(n, i), LexOrder())
    ensures forall k :: 0 <= k < |LexPairs(n, i)| ==>
      0 <= LexPairs(n, i)[k].0 < i && LexPairs(n, i)[k].0 < LexPairs(n, i)[k].1 < n
    ensures forall a, b :: 0 <= a < i && a < b < n ==> (a, b) in LexPairs(n, i)
  {
    LexPairsBounds(n, i);
    LexPairsSorted(n, i);
    LexPairsComplete(n, i);
  }

  lemma {:induction false} LexPairsBounds(n: int, i: int)
    requires 0 <= i <= n
    ensures forall k :: 0 <= k < |LexPairs(n, i)| ==>
      0 <= LexPairs(n, i)[k].0 < i && LexPairs(n, i)[k].0 < LexPairs(n, i)[k].1 < n
  {
    if i > 0 {
      LexPairsBounds(n, i - 1);
      var prev: seq<Pair> := LexPairs(n, i - 1);
      var row: seq<Pair> := RowPairs(i - 1, n);
      RowPairsAt(i - 1, n);
      forall k | 0 <= k < |prev + row|
        ensures 0 <= (prev + row)[k].0 < i && (prev + row)[k].0 < (prev + row)[k].1 < n
      {
        if k >= |prev| {
          assert (prev + row)[k] == row[k - |prev|];
        }
      }
    }
  }

  lemma {:induction false} LexPairsSorted(n: int, i: int)
    requires 0 <= i <= n
    ensures StrictlySorted(LexPairs(n, i), LexOrder())
  {
    if i > 0 {
      LexPairsSorted(n, i - 1);
      LexPairsBounds(n, i - 1);
      var prev: seq<Pair> := LexPairs(n, i - 1);
      var row: seq<Pair> := RowPairs(i - 1, n);
      RowPairsAt(i - 1, n);
      var all := prev + row;
      forall a, b | 0 <= a < b < |all| ensures LexOrder()(all[a], all[b]) {
        if b < |prev| {
          assert all[a] == prev[a] && all[b] == prev[b];
        } else if a < |prev| {
          assert all[a] == prev[a] && all[b] == row[b - |prev|];
        } else {
          assert all[a] == row[a - |prev|] && all[b] == row[b - |prev|];
        }
      }
    }
  }

  lemma {:induction false} LexPairsComplete(n: int, i: int)
    requires 0 <= i <= n
    ensures forall a, b :: 0 <= a < i && a < b < n ==> (a, b) in LexPairs(n, i)
  {
    if i > 0 {
      LexPairsComplete(n, i - 1);
      var prev: seq<Pair> := LexPairs(n, i - 1);
      var row: seq<Pair> := RowPairs(i - 1, n);
      RowPairsAt(i - 1, n);
      forall a, b | 0 <= a < i && a < b < n ensures (a, b) in prev + row {
        if a == i - 1 {
          assert row[b - i] == (a, b);
          assert (prev + row)[|prev| + b - i] == (a, b);
        } else {
          assert (a, b) in prev;
        }
      }
    }
  }

  /** There are `i * n - i * (i + 1) / 2` such pairs. */
  lemma {:induction false} LexPairsCount(n: int, i: int)
    requires 0 <= i <= n
    ensures 2 * |LexPairs(n, i)| == i * (2 * n - i - 1)
  {
    if i > 0 {
      LexPairsCount(n, i - 1);
      RowPairsAt(i - 1, n);
      assert |LexPairs(n, i)| == |LexPairs(n, i - 1)| + (n - i);
      assert (i - 1) * (2 * n - i) + 2 * (n - i) == i * (2 * n - i - 1);
    }
  }


  // What the loops push

  /** The pair `p` indexes two elements the probe finds an entry for. */
  predicate Hit<N, E>(probe: (N, N) -> Option<E>, names: seq<N>, p: Pair) {
    0 <= p.0 < |names| && 0 <= p.1 < |names| && probe(names[p.0], names[p.1]).Some?
  }

  function HasEntry<N, E>(probe: (N, N) -> Option<E>, names: seq<N>): Pair -> bool {
    (p: Pair) => Hit(probe, names, p)
  }

  /** What visiting the pair `p` pushes, for a pair of any indices. */
  function VisitPair<N, E>(probe: (N, N) -> Option<E>, names: seq<N>, p: Pair): seq<E> {
    if 0 <= p.0 < |names| && 0 <= p.1 < |names| then Visit(probe, names, p.0, p.1) else []
  }

  /** What visiting the pairs `ps`, in order, pushes. */
  function Probes<N, E>(probe: (N, N) -> Option<E>, names: seq<N>, ps: seq<Pair>): seq<E>
    decreases |ps|
  {
    if |ps| == 0 then [] else Probes(probe, names, ps[..|ps| - 1]) + VisitPair(probe, names, ps[|ps| - 1])
  }

  lemma ProbesSnoc<N, E>(probe: (N, N) -> Option<E>, names: seq<N>, ps: seq<Pair>, p: Pair)
    ensures Probes(probe, names, ps + [p]) == Probes(probe, names, ps) + VisitPair(probe, names, p)
  {
    var all := ps + [p];
    assert all[..|all| - 1] == ps;
  }

  lemma {:induction false} ProbesAppend<N, E>(probe: (N, N) -> Option<E>, names: seq<N>, a: seq<Pair>, b: seq<Pair>)
    ensures Probes(probe, names, a + b) == Probes(probe, names, a) + Probes(probe, names, b)
    decreases |b|
  {
    if |b| == 0 {
      assert a + b == a;
    } else {
      var init, last := b[..|b| - 1], b[|b| - 1];
      assert b == init + [last];
      assert a + b == (a + init) + [last];
      calc {
        Probes(probe, names, a + b);
        { ProbesSnoc(probe, names, a + init, last); }
        Probes(probe, names, a + init) + VisitPair(probe, names, last);
        { ProbesAppend(probe, names, a, init); }
        Probes(probe, names, a) + Probes(probe, names, init) + VisitPair(probe, names, last);
        { ProbesSnoc(probe, names, init, last); }
        Probes(probe, names, a) + Probes(probe, names, b);
      }
    }
  }

  /** One more iteration of the inner loop pushes what visiting `(i, j)` pushes. */
  lemma RowStep<N, E>(probe: (N, N) -> Option<E>, names: seq<N>, i: int, j: int)
    requires 0 <= i < j < |names|
    ensures Probes(probe, names, RowPairs(i, j + 1))
      == Probes(probe, names, RowPairs(i, j))
         + (if probe(names[i], names[j]).Some? then [probe(names[i], names[j]).value] else [])
  {
    ProbesSnoc(probe, names, RowPairs(i, j), (i, j));
  }

  /** One more iteration of the outer loop pushes what visiting row `i` pushes. */
  lemma LexStep<N, E>(probe: (N, N) -> Option<E>, names: seq<N>, i: int)
    requires 0 <= i
    ensures Probes(probe, names, LexPairs(|names|, i + 1))
      == Probes(probe, names, LexPairs(|names|, i)) + Probes(probe, names, RowPairs(i, |names|))
  {
    ProbesAppend(probe, names, LexPairs(|names|, i), RowPairs(i, |names|));
  }

  /** Pairs without an entry push nothing. */
  lemma {:induction false} ProbesFilter<N, E>(probe: (N, N) -> Option<E>, names: seq<N>, ps: seq<Pair>)
    ensures Probes(probe, names, ps) == Probes(probe, names, Filter(ps, HasEntry(probe, names)))
  {
    var h := HasEntry(probe, names);
    if |ps| > 0 {
      var p, rest := ps[0], ps[1..];
      var one: seq<Pair> := [p];
      assert ps == one + rest;
      ProbesFilter(probe, names, rest);
      ProbesAppend(probe, names, one, rest);
      assert one[..0] == [];
      var kept := if h(p) then one else [];
      assert Filter(ps, h) == kept + Filter(rest, h);
      ProbesAppend(probe, names, kept, Filter(rest, h));
    }
  }

  /** Pairs that all have an entry push one entry each, in their order. */
  lemma {:induction false} ProbesOfHits<N, E>(probe: (N, N) -> Option<E>, names: seq<N>, hs: seq<Pair>)
    requires forall k :: 0 <= k < |hs| ==> Hit(probe, names, hs[k])
    ensures |Probes(probe, names, hs)| == |hs|
    ensures forall k :: 0 <= k < |hs| ==>
      Hit(probe, names, hs[k]) && Probes(probe, names, hs)[k] == probe(names[hs[k].0], names[hs[k].1]).value
    decreases |hs|
  {
    if |hs| > 0 {
      var init := hs[..|hs| - 1];
      assert forall k :: 0 <= k < |init| ==> init[k] == hs[k];
      ProbesOfHits(probe, names, init);
      var last := hs[|hs| - 1];
      assert Hit(probe, names, last);
      assert VisitPair(probe, names, last) == [probe(names[last.0], names[last.1]).value];
    }
  }

  /** The pairs whose entries the scan pushes, in scan order. */
  function HitPairs<N, E>(probe: (N, N) -> Option<E>, names: seq<N>): seq<Pair> {
    Filter(LexPairs(|names|, |names|), HasEntry(probe, names))
  }

  /** Entry `k` of the scan is the probe's entry for the `k`-th pair that
      has one. */
  lemma ScanEntries<N, E>(probe: (N, N) -> Option<E>, names: seq<N>)
    ensures var ps := HitPairs(probe, names);
      var es := Scan(probe, names);
      |es| == |ps|
      && forall k :: 0 <= k < |ps| ==>
           0 <= ps[k].0 < |names| && 0 <= ps[k].1 < |names|
           && probe(names[ps[k].0], names[ps[k].1]).Some?
           && es[k] == probe(names[ps[k].0], names[ps[k].1]).value
  {
    var lex := LexPairs(|names|, |names|);
    var ps := HitPairs(probe, names);
        ProbesFilter(probe, names, lex);
    forall k | 0 <= k < |ps| ensures Hit(probe, names, ps[k]) {
      assert ps[k] in ps;
    }
    ProbesOfHits(probe, names, ps);
  }

  /** The pairs with an entry come in strict `i < j` loop order, and there
      are at most `n * (n - 1) / 2` of them. */
  lemma ScanOrder<N, E>(probe: (N, N) -> Option<E>, names: seq<N>)
    ensures var ps := HitPairs(probe, names);
      StrictlySorted(ps, LexOrder())
      && (forall k :: 0 <= k < |ps| ==> 0 <= ps[k].0 < ps[k].1 < |names|)
      && 2 * |ps| <= |names| * (|names| - 1)
  {
    var n := |names|;
    LexPairsBounds(n, n);
    LexPairsSorted(n, n);
    LexPairsCount(n, n);
    FilterStrictlySorted(LexPairs(n, n), HasEntry(probe, names), LexOrder());
    var ps := HitPairs(probe, names);
    forall k | 0 <= k < |ps| ensures 0 <= ps[k].0 < ps[k].1 < n {
      assert ps[k] in LexPairs(n, n);
    }
  }

  /** A pair `a < b` is among the pairs with an entry exactly when the probe
      finds one for it. */
  lemma ScanPairs<N, E>(probe: (N, N) -> Option<E>, names: seq<N>)
    ensures forall a, b :: 0 <= a < b < |names| ==>
      ((a, b) in HitPairs(probe, names) <==> probe(names[a], names[b]).Some?)
  {
    var n := |names|;
    var h := HasEntry(probe, names);
    LexPairsComplete(n, n);
    FilterMembers(LexPairs(n, n), h);
    forall a, b | 0 <= a < b < n
      ensures (a, b) in HitPairs(probe, names) <==> probe(names[a], names[b]).Some?
    {
      assert (a, b) in LexPairs(n, n);
      assert h((a, b)) == Hit(probe, names, (a, b));
    }
  }
}
