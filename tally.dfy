/** The counting behind `getCommonSymptomsForDiseases`: the symptoms
    listed for a sequence of ids are counted into a `Map` (kept here as
    its keys in insertion order and a map from key to count), and the
    result is compared with a definition by filtering. */
module SymptomTally {
  import opened Seqs

  datatype SymptomCount = SymptomCount(symptom: string, count: nat)

  function CountOf(e: SymptomCount): int {
    e.count
  }

  function SymptomOf(e: SymptomCount): string {
    e.symptom
  }

  function IsSymptom(s: string): string -> bool {
    (x: string) => x == s
  }

  /** What the loop looks up for each id, as one function value. */
  type Lookup = string -> seq<string>

  /** All the symptoms listed for the ids, in the order the loops meet them. */
  function Occurrences(lookup: Lookup, ids: seq<string>): seq<string>
    decreases |ids|
  {
    if |ids| == 0 then [] else Occurrences(lookup, ids[..|ids| - 1]) + lookup(ids[|ids| - 1])
  }

  /** Each symptom once, in order of first occurrence, with its number of
      occurrences. */
  function Tally(occ: seq<string>): seq<SymptomCount> {
    Map(Distinct(occ), (s: string) => SymptomCount(s, Count(occ, IsSymptom(s))))
  }

  /** The `Map` from symptom to count after the symptoms `done`: its keys are
      the symptoms met, each with its number of occurrences. */
  ghost predicate Tallied(counts: map<string, nat>, done: seq<string>) {
    (forall s :: s in counts <==> s in done)
    && (forall s :: s in counts ==> counts[s] == Count(done, IsSymptom(s)))
  }

  lemma DistinctSnoc(done: seq<string>, s: string)
    ensures Distinct(done + [s]) == if s in done then Distinct(done) else Distinct(done) + [s]
  {
    assert (done + [s])[..|done|] == done;
    var d := Distinct(done);
    if s in d {
      var i :| 0 <= i < |d| && d[i] == s;
      assert s in done;
    }
    if s in done {
      var i :| 0 <= i < |done| && done[i] == s;
      assert s in d;
    }
  }

  lemma CountSnoc(done: seq<string>, x: string, s: string)
    ensures Count(done + [x], IsSymptom(s)) == Count(done, IsSymptom(s)) + if x == s then 1 else 0
  {
    FilterAppend(done, [x], IsSymptom(s));
  }

  lemma CountAbsent(done: seq<string>, s: string)
    requires s !in done
    ensures Count(done, IsSymptom(s)) == 0
  {
    FilterNone(done, IsSymptom(s));
  }

  /** `symptoms.set(s, (symptoms.get(s) || 0) + 1)`. */
  function Bump(counts: map<string, nat>, s: string): map<string, nat> {
    counts[s := if s in counts then counts[s] + 1 else 1]
  }

  lemma TallyStep(counts: map<string, nat>, done: seq<string>, s: string)
    requires Tallied(counts, done)
    ensures Tallied(Bump(counts, s), done + [s])
  {
    var next := Bump(counts, s);
    forall y ensures y in next <==> y in done + [s] {
      assert y in done + [s] <==> y in done || y == s;
    }
    forall y | y in next ensures next[y] == Count(done + [s], IsSymptom(y)) {
      CountSnoc(done, s, y);
      if y == s && s !in counts {
        CountAbsent(done, s);
      }
    }
  }

  /** The `Map` the loops build from the symptoms `occ`, one
      `symptoms.set(symptom, (symptoms.get(symptom) || 0) + 1)` per
      occurrence. */
  function TallyMap(occ: seq<string>): map<string, nat>
    decreases |occ|
  {
    if |occ| == 0 then map[]
    else
      Bump(TallyMap(occ[..|occ| - 1]), occ[|occ| - 1])
  }

  /** The `Map` holds each symptom met, with its number of occurrences. */
  lemma {:induction false} TallyMapTallied(occ: seq<string>)
    ensures Tallied(TallyMap(occ), occ)
    decreases |occ|
  {
    if |occ| > 0 {
      var init := occ[..|occ| - 1];
      TallyMapTallied(init);
      TallyStep(TallyMap(init), init, occ[|occ| - 1]);
      assert init + [occ[|occ| - 1]] == occ;
    }
  }

  /** The keys of the `Map` are the symptoms met. */
  lemma {:induction false} TallyMapHas(occ: seq<string>, s: string)
    ensures s in TallyMap(occ) <==> s in occ
    decreases |occ|
  {
    if |occ| > 0 {
      var init := occ[..|occ| - 1];
      TallyMapHas(init, s);
      assert occ == init + [occ[|occ| - 1]];
    }
  }

  lemma TallyMapSnoc(done: seq<string>, s: string)
    ensures TallyMap(done + [s]) == Bump(TallyMap(done), s)
  {
    assert (done + [s])[..|done|] == done;
  }

  /** One pass of the inner loop, on the symptoms met so far: a new symptom
      is appended to the keys, and its count goes up by one. */
  lemma AddNext(order: seq<string>, counts: map<string, nat>, before: seq<string>, symptoms: seq<string>, j: nat)
    requires j < |symptoms|
    requires order == Distinct(before + symptoms[..j]) && counts == TallyMap(before + symptoms[..j])
    ensures (if symptoms[j] in counts then order else order + [symptoms[j]]) == Distinct(before + symptoms[..j + 1])
    ensures Bump(counts, symptoms[j]) == TallyMap(before + symptoms[..j + 1])
  {
    var done := before + symptoms[..j];
    var next := before + symptoms[..j + 1];
    assert symptoms[..j + 1] == symptoms[..j] + [symptoms[j]];
    assert next == done + [symptoms[j]];
    TallyMapSnoc(done, symptoms[j]);
    TallyMapHas(done, symptoms[j]);
    DistinctSnoc(done, symptoms[j]);
  }

  /** The inner loop of `getCommonSymptomsForDiseases`: one disease's
      symptoms added to the `Map`. */
  method AddSymptoms(order: seq<string>, counts: map<string, nat>, symptoms: seq<string>, ghost before: seq<string>)
    returns (order': seq<string>, counts': map<string, nat>)
    requires order == Distinct(before) && counts == TallyMap(before)
    ensures order' == Distinct(before + symptoms) && counts' == TallyMap(before + symptoms)
  {
    order', counts' := order, counts;
    var j := 0;
    assert before + symptoms[..0] == before;
    while j < |symptoms|
      invariant 0 <= j <= |symptoms|
      invariant order' == Distinct(before + symptoms[..j])
      invariant counts' == TallyMap(before + symptoms[..j])
    {
      var s := symptoms[j];
      var seen := s in counts';
      AddNext(order', counts', before, symptoms, j);
      if !seen {
        order' := order' + [s];
      }
      counts' := Bump(counts', s);
      j := j + 1;
    }
    assert j == |symptoms| && symptoms[..j] == symptoms;
  }

  /** The outer loop of `getCommonSymptomsForDiseases`: `order` and
      `counts` are the keys, in insertion order, and the values of the
      `Map`. */
  method CountSymptoms(lookup: Lookup, diseaseIds: seq<string>)
    returns (order: seq<string>, counts: map<string, nat>)
    ensures order == Distinct(Occurrences(lookup, diseaseIds))
    ensures counts == TallyMap(Occurrences(lookup, diseaseIds))
    ensures Tallied(counts, Occurrences(lookup, diseaseIds))
  {
    order := [];
    counts := map[];
    var i := 0;
    while i < |diseaseIds|
      invariant 0 <= i <= |diseaseIds|
      invariant order == Distinct(Occurrences(lookup, diseaseIds[..i]))
      invariant counts == TallyMap(Occurrences(lookup, diseaseIds[..i]))
    {
      order, counts := AddSymptoms(order, counts, lookup(diseaseIds[i]), Occurrences(lookup, diseaseIds[..i]));
      assert diseaseIds[..i + 1][..i] == diseaseIds[..i];
      i := i + 1;
    }
    assert diseaseIds[..|diseaseIds|] == diseaseIds;
    TallyMapTallied(Occurrences(lookup, diseaseIds));
  }

  /** The entries of the `Map`, in insertion order: each symptom once, in
      order of first occurrence, with its number of occurrences. */
  method TallyOf(lookup: Lookup, ids: seq<string>) returns (entries: seq<SymptomCount>)
    ensures entries == Tally(Occurrences(lookup, ids))
  {
    var order, counts := CountSymptoms(lookup, ids);
    ghost var occ := Occurrences(lookup, ids);
    forall k | 0 <= k < |order| ensures order[k] in counts {
      assert order[k] in occ;
    }
    entries := seq(|order|, k requires 0 <= k < |order| => SymptomCount(order[k], counts[order[k]]));
  }

  /** Whether the looked-up symptoms of the id include `s`. */
  function Lists(lookup: Lookup, s: string): string -> bool {
    (id: string) => s in lookup(id)
  }

  lemma {:induction false} CountUnique(syms: seq<string>, s: string)
    requires NoDuplicates(syms)
    ensures Count(syms, IsSymptom(s)) == if s in syms then 1 else 0
  {
    if |syms| > 0 {
      CountUnique(syms[1..], s);
      if syms[0] == s {
        assert s !in syms[1..];
      }
    }
  }

  /** When no lookup lists a symptom twice, a symptom occurs once for each
      id whose symptoms include it. */
  lemma {:induction false} OccurrencesCount(lookup: Lookup, ids: seq<string>, s: string)
    requires forall id :: NoDuplicates(lookup(id))
    ensures Count(Occurrences(lookup, ids), IsSymptom(s)) == Count(ids, Lists(lookup, s))
    decreases |ids|
  {
    if |ids| > 0 {
      var n := |ids| - 1;
      OccurrencesCount(lookup, ids[..n], s);
      FilterAppend(Occurrences(lookup, ids[..n]), lookup(ids[n]), IsSymptom(s));
      FilterSnoc(ids, n, Lists(lookup, s));
      assert ids[..n + 1] == ids;
      CountUnique(lookup(ids[n]), s);
    }
  }

  lemma {:induction false} OccursIff(lookup: Lookup, ids: seq<string>, s: string)
    ensures s in Occurrences(lookup, ids) <==> exists i :: 0 <= i < |ids| && s in lookup(ids[i])
    decreases |ids|
  {
    if |ids| > 0 {
      var n := |ids| - 1;
      OccursIff(lookup, ids[..n], s);
      if s in lookup(ids[n]) {
        assert s in Occurrences(lookup, ids);
      }
      if exists i :: 0 <= i < |ids| && s in lookup(ids[i]) {
        var i :| 0 <= i < |ids| && s in lookup(ids[i]);
        if i < n {
          assert ids[..n][i] == ids[i];
        }
      }
    }
  }

  /** A symptom is in the tally exactly when the lookup of one of the ids
      lists it, with the number of ids whose lookup lists it, provided no
      lookup lists a symptom twice. */
  lemma TallyCount(lookup: Lookup, ids: seq<string>, s: string, n: nat)
    requires forall id :: NoDuplicates(lookup(id))
    ensures SymptomCount(s, n) in Tally(Occurrences(lookup, ids)) <==>
      (exists i :: 0 <= i < |ids| && s in lookup(ids[i])) && n == Count(ids, Lists(lookup, s))
  {
    var occ := Occurrences(lookup, ids);
    assert SymptomCount(s, n) in Tally(occ) <==> s in occ && n == Count(occ, IsSymptom(s));
    OccurrencesCount(lookup, ids, s);
    OccursIff(lookup, ids, s);
  }
}
