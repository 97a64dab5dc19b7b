/** The analyses of `useWellness`: the daily check-ins, the weekly symptom
    trends, the health score, the personalised tips and the medication
    compatibility check. The clock, the date parser and the backend's
    answers are inputs; averages are exact reals. */
module Wellness {
  import opened Wrappers
  import opened Seqs
  import opened Text
  import S = Symptoms
  import MR = MedicalRecord

  datatype Trend = Improving | Worsening | Stable

  // ---------------------------------------------------------------------
  // Check-ins

  /** A check-in as the backend returns it; a missing level is `None`. */
  datatype Checkin = Checkin(date: string, mood: Option<int>, energy: Option<int>, sleep: Option<int>)

  function CheckinDateIs(day: string): Checkin -> bool {
    (c: Checkin) => c.date == day
  }

  /** `getTodayCheckin`: the first check-in dated `today`, if any. */
  function TodayCheckin(cs: seq<Checkin>, today: string): (r: Option<Checkin>)
    ensures r.Some? ==> r.value in cs && r.value.date == today
    ensures r.None? <==> forall i :: 0 <= i < |cs| ==> cs[i].date != today
    ensures r.Some? ==>
      exists k :: 0 <= k < |cs| && cs[k] == r.value && forall j :: 0 <= j < k ==> cs[j].date != today
  {
    match FirstIndex(cs, CheckinDateIs(today))
    case None => None
    case Some(k) => Some(cs[k])
  }

  /** What the check-in form submits. */
  datatype CheckinInput = CheckinInput(
    mood: int, energy: int, sleep: Option<int>, sleepHours: Option<int>, notes: Option<string>)

  /** What `addCheckin` sends to the backend. */
  datatype CheckinPayload = CheckinPayload(
    moodLevel: int, energyLevel: int, sleepQuality: Option<int>, sleepHours: Option<int>, notes: string,
    checkinDate: string)

  /** `x || null` on a number: a missing or zero value is sent as `null`. */
  function NonZero(x: Option<int>): (r: Option<int>)
    ensures r.None? <==> x.None? || x.value == 0
    ensures r.Some? ==> r == x
  {
    if x.Some? && x.value != 0 then x else None
  }

  /** The payload of a check-in made `today`: the levels under the backend's
      names, a zero sleep quality or sleep time sent as missing, and empty
      notes when none are given. */
  function CheckinPayloadOf(data: CheckinInput, today: string): (r: CheckinPayload)
    ensures r.moodLevel == data.mood && r.energyLevel == data.energy && r.checkinDate == today
    ensures r.sleepQuality.None? <==> data.sleep.None? || data.sleep.value == 0
    ensures r.sleepHours.None? <==> data.sleepHours.None? || data.sleepHours.value == 0
    ensures data.notes.Some? ==> r.notes == data.notes.value
    ensures data.notes.None? ==> r.notes == ""
    ensures r.sleepQuality.Some? ==> r.sleepQuality == data.sleep
    ensures r.sleepHours.Some? ==> r.sleepHours == data.sleepHours
  {
    CheckinPayload(data.mood, data.energy, NonZero(data.sleep), NonZero(data.sleepHours), data.notes.GetOr(""),
                   today)
  }

  /** The module's `checkins`. */
  class CheckinStore {
    var checkins: seq<Checkin>

    constructor()
      ensures checkins == []
    {
      checkins := [];
    }

    /** `loadCheckins`: an ok answer with items replaces the check-ins; a
        failure leaves them as they are. */
    method LoadCheckins(items: Option<seq<Checkin>>)
      modifies this
      ensures items.Some? ==> checkins == items.value
      ensures items.None? ==> checkins == old(checkins)
    {
      if items.Some? {
        checkins := items.value;
      }
    }

    /** `addCheckin`: sends the payload; when the backend accepts it the
        check-ins are reloaded (`reload` is that second answer), otherwise
        nothing changes and the caller gets the error. */
    method AddCheckin(data: CheckinInput, today: string, accepted: bool, reload: Option<seq<Checkin>>)
      returns (payload: CheckinPayload, saved: bool)
      modifies this
      ensures payload == CheckinPayloadOf(data, today) && saved == accepted
      ensures accepted && reload.Some? ==> checkins == reload.value
      ensures !accepted || reload.None? ==> checkins == old(checkins)
    {
      payload := CheckinPayloadOf(data, today);
      saved := accepted;
      if accepted {
        LoadCheckins(reload);
      }
    }
  }

  // ---------------------------------------------------------------------
  // wellnessAnalysis

  datatype Key = Mood | Energy | Sleep

  /** `c[key] || 0`. */
  function LevelOf(c: Checkin, key: Key): int {
    match key
    case Mood => c.mood.GetOr(0)
    case Energy => c.energy.GetOr(0)
    case Sleep => c.sleep.GetOr(0)
  }

  function SumOf(cs: seq<Checkin>, key: Key): int {
    if |cs| == 0 then 0 else LevelOf(cs[0], key) + SumOf(cs[1..], key)
  }

  /** `calcAvg(arr, key)`. */
  function Avg(cs: seq<Checkin>, key: Key): real {
    if |cs| == 0 then 0.0 else SumOf(cs, key) as real / |cs| as real
  }

  /** Levels are within 0-5 (a missing one counts as 0). */
  ghost predicate LevelsInRange(cs: seq<Checkin>) {
    forall i :: 0 <= i < |cs| ==>
      0 <= LevelOf(cs[i], Mood) <= 5 && 0 <= LevelOf(cs[i], Energy) <= 5 && 0 <= LevelOf(cs[i], Sleep) <= 5
  }

  lemma {:induction false} SumBounds(cs: seq<Checkin>, key: Key)
    requires LevelsInRange(cs)
    ensures 0 <= SumOf(cs, key) <= 5 * |cs|
  {
    if |cs| > 0 {
      assert LevelsInRange(cs[1..]) by {
        forall i | 0 <= i < |cs[1..]| ensures 0 <= LevelOf(cs[1..][i], key) <= 5 {
          assert cs[1..][i] == cs[i + 1];
        }
      }
      SumBounds(cs[1..], key);
    }
  }

  /** A quotient of a sum between 0 and `5 n` by `n` lies within 0-5. */
  lemma QuotientBounds(sum: int, n: int)
    requires 0 < n && 0 <= sum <= 5 * n
    ensures 0.0 <= sum as real / n as real <= 5.0
  {
    var d := n as real;
    S.DivMono(sum as real, 5.0 * d, d);
    S.DivMono(0.0, sum as real, d);
    assert 5.0 * d / d == 5.0;
    assert 0.0 / d == 0.0;
  }

  /** An average of levels within 0-5 lies within 0-5. */
  lemma AvgBounds(cs: seq<Checkin>, key: Key)
    requires LevelsInRange(cs)
    ensures 0.0 <= Avg(cs, key) <= 5.0
  {
    if |cs| > 0 {
      SumBounds(cs, key);
      QuotientBounds(SumOf(cs, key), |cs|);
    }
  }

  datatype Averages = Averages(mood: real, energy: real, sleep: real)

  function AveragesOf(cs: seq<Checkin>): Averages {
    Averages(Avg(cs, Mood), Avg(cs, Energy), Avg(cs, Sleep))
  }

  /** A change of more than 0.3 either way is a trend. */
  function DiffTrend(diff: real): Trend {
    if diff > 0.3 then Improving else if diff < -0.3 then Worsening else Stable
  }

  datatype Trends = Trends(mood: Trend, energy: Trend, sleep: Trend)

  function TrendsBetween(recent: Averages, previous: Averages): Trends {
    Trends(DiffTrend(recent.mood - previous.mood), DiffTrend(recent.energy - previous.energy),
           DiffTrend(recent.sleep - previous.sleep))
  }

  /** Comparing the other way round swaps improving and worsening. */
  lemma TrendsSwap(a: Averages, b: Averages)
    ensures TrendsBetween(a, b).mood == Improving <==> TrendsBetween(b, a).mood == Worsening
    ensures TrendsBetween(a, b).energy == Stable <==> TrendsBetween(b, a).energy == Stable
    ensures TrendsBetween(a, b).sleep == Worsening <==> TrendsBetween(b, a).sleep == Improving
  {
  }

  datatype Analysis = Analysis(recent: Averages, previous: Option<Averages>, trends: Option<Trends>, daysTracked: nat)

  /** `wellnessAnalysis`: nothing without check-ins; otherwise the averages
      of the first seven, and, when there are more, those of the next seven
      and the trend of each level. */
  function WellnessAnalysis(cs: seq<Checkin>): (r: Option<Analysis>)
    ensures r.None? <==> |cs| == 0
    ensures r.Some? ==> 0 < r.value.daysTracked <= 7 && r.value.daysTracked == (if |cs| < 7 then |cs| else 7)
    ensures r.Some? ==> (r.value.previous.Some? <==> |cs| > 7) && (r.value.trends.Some? <==> |cs| > 7)
    ensures r.Some? ==> r.value.recent == AveragesOf(cs[..if |cs| < 7 then |cs| else 7])
    ensures r.Some? && r.value.previous.Some? ==>
      r.value.previous.value == AveragesOf(cs[7..if |cs| < 14 then |cs| else 14])
    ensures r.Some? && r.value.trends.Some? ==>
      r.value.trends.value == TrendsBetween(r.value.recent, r.value.previous.value)
  {
    if |cs| == 0 then None
    else
      var n := |cs|;
      var last7 := cs[..if n < 7 then n else 7];
      var previous7 := cs[if n < 7 then n else 7..if n < 14 then n else 14];
      var recent := AveragesOf(last7);
      if |previous7| > 0 then
        var previous := AveragesOf(previous7);
        Some(Analysis(recent, Some(previous), Some(TrendsBetween(recent, previous)), |last7|))
      else
        Some(Analysis(recent, None, None, |last7|))
  }

  // ---------------------------------------------------------------------
  // weeklyTrendAnalysis

  /** `new Date(s.date)` as a timestamp in milliseconds, or none for an
      invalid date (every comparison with `NaN` is false). */
  type DateParser = string -> Option<int>

  /** The seven days up to now: [today - 7 days, today]. */
  function InThisWeek(at: DateParser, today: int): S.Symptom -> bool {
    (s: S.Symptom) => at(s.date).Some? && today - 604_800_000 <= at(s.date).value <= today
  }

  /** The seven days before those: [today - 14 days, today - 7 days). */
  function InLastWeek(at: DateParser, today: int): S.Symptom -> bool {
    (s: S.Symptom) => at(s.date).Some? && today - 1_209_600_000 <= at(s.date).value < today - 604_800_000
  }

  /** The two windows are disjoint: no symptom is counted in both, so their
      totals add up to at most the number of symptoms. */
  lemma {:induction false} WeeksDisjoint(ss: seq<S.Symptom>, at: DateParser, today: int)
    ensures forall i :: 0 <= i < |ss| ==> !(InThisWeek(at, today)(ss[i]) && InLastWeek(at, today)(ss[i]))
    ensures Count(ss, InThisWeek(at, today)) + Count(ss, InLastWeek(at, today)) <= |ss|
  {
    if |ss| > 0 {
      WeeksDisjoint(ss[1..], at, today);
    }
  }

  function Intensities(ss: seq<S.Symptom>): seq<int> {
    Map(ss, (s: S.Symptom) => s.intensity)
  }

  /** The mean intensity, 0 for none. */
  function MeanIntensity(ss: seq<S.Symptom>): real {
    if |ss| > 0 then S.IntensitySum(ss) as real / |ss| as real else 0.0
  }

  /** The trend of one type from this week's and last week's counts `c`
      and `l` and mean intensities `a` and `la`: the first rule that applies,
      in the source's priority order, for a type seen in either week. A
      worsening type is seen this week with an average above 2 and more
      often or more intensely than last week; an improving one is mild, seen
      less often, or less intense. */
  function TrendOf(c: nat, l: nat, a: real, la: real): (r: (Trend, string))
    // not seen in either week
    ensures c == 0 && l == 0 ==> r == (Stable, "Est\U{00E1}vel")
    // rule 1: mild this week
    ensures c > 0 && a <= 2.0 ==> r == (Improving, "Sintomas leves")
    // rule 2: gone this week
    ensures c == 0 && l > 0 ==> r == (Improving, "Sem ocorr\U{00EA}ncias")
    // from here on the type is seen this week with an average above 2
    // rule 3: fewer than 70% of last week's occurrences
    ensures c > 0 && a > 2.0 && (c as real) < (l as real) * 0.7 ==> r == (Improving, "Melhorando")
    // rule 4: the average fell by more than half a point
    ensures c > 0 && a > 2.0 && (c as real) >= (l as real) * 0.7 && a < la - 0.5 ==>
      r == (Improving, "Menos intenso")
    // rule 5: more than 130% of last week's occurrences
    ensures (c > 0 && a > 2.0 && (c as real) >= (l as real) * 0.7 && a >= la - 0.5
             && (c as real) > (l as real) * 1.3) ==> r == (Worsening, "Piorando")
    // rule 6: the average rose by more than half a point
    ensures (c > 0 && a > 2.0 && (c as real) >= (l as real) * 0.7 && a >= la - 0.5
             && (c as real) <= (l as real) * 1.3 && a > la + 0.5) ==> r == (Worsening, "Mais intenso")
    // otherwise stable
    ensures (c > 0 && a > 2.0 && (c as real) >= (l as real) * 0.7 && a >= la - 0.5
             && (c as real) <= (l as real) * 1.3 && a <= la + 0.5) ==> r == (Stable, "Est\U{00E1}vel")
    // in sum
    ensures r.0 == Improving ==> c < l || a <= 2.0 || a < la - 0.5
    ensures r.0 == Worsening ==> c > 0 && a > 2.0 && (c > l || a > la + 0.5)
  {
    if c > 0 || l > 0 then
      if c > 0 && a <= 2.0 then (Improving, "Sintomas leves")
      else if c == 0 && l > 0 then (Improving, "Sem ocorr\U{00EA}ncias")
      else if (c as real) < (l as real) * 0.7 then (Improving, "Melhorando")
      else if a < la - 0.5 then (Improving, "Menos intenso")
      else if (c as real) > (l as real) * 1.3 && a > 2.0 then (Worsening, "Piorando")
      else if a > la + 0.5 && a > 2.0 then (Worsening, "Mais intenso")
      else (Stable, "Est\U{00E1}vel")
    else (Stable, "Est\U{00E1}vel")
  }

  /** An element of `typeAnalysis`. */
  datatype TypeTrend = TypeTrend(
    kind: S.SymptomType, thisWeekCount: nat, lastWeekCount: nat, thisWeekAvg: real, lastWeekAvg: real,
    trend: Trend, description: string, change: int)

  function HasTrend(t: Trend): TypeTrend -> bool {
    (x: TypeTrend) => x.trend == t
  }

  /** The analysis of one type over the two weeks. */
  function Analyse(t: S.SymptomType, thisWeek: seq<S.Symptom>, lastWeek: seq<S.Symptom>): TypeTrend {
    var tw := Filter(thisWeek, S.KindIs(t.id));
    var lw := Filter(lastWeek, S.KindIs(t.id));
    var a := MeanIntensity(tw);
    var la := MeanIntensity(lw);
    var tr := TrendOf(|tw|, |lw|, a, la);
    TypeTrend(t, |tw|, |lw|, a, la, tr.0, tr.1, |tw| - |lw|)
  }

  function AnalyseFn(thisWeek: seq<S.Symptom>, lastWeek: seq<S.Symptom>): S.SymptomType -> TypeTrend {
    (t: S.SymptomType) => Analyse(t, thisWeek, lastWeek)
  }

  function NotOther(): S.SymptomType -> bool {
    (t: S.SymptomType) => t.id != S.Other
  }

  function Seen(): TypeTrend -> bool {
    (t: TypeTrend) => t.thisWeekCount > 0 || t.lastWeekCount > 0
  }

  /** `typeAnalysis` over a type table: the types other than `'outro'`, in
      table order, that were seen in either week. Each entry carries the
      type's counts and mean intensities in the two weeks, and the trend
      and description `TrendOf` gives for them; every type of the table
      other than `'outro'` that was seen in either week has its entry. */
  function TypeAnalysis(types: seq<S.SymptomType>, thisWeek: seq<S.Symptom>, lastWeek: seq<S.Symptom>): (r: seq<TypeTrend>)
    ensures forall t :: t in r ==> t.kind in types && t.kind.id != S.Other && (t.thisWeekCount > 0 || t.lastWeekCount > 0)
    ensures forall t :: t in r ==>
      t.thisWeekCount == Count(thisWeek, S.KindIs(t.kind.id))
      && t.lastWeekCount == Count(lastWeek, S.KindIs(t.kind.id))
      && t.thisWeekAvg == MeanIntensity(Filter(thisWeek, S.KindIs(t.kind.id)))
      && t.lastWeekAvg == MeanIntensity(Filter(lastWeek, S.KindIs(t.kind.id)))
      && (t.trend, t.description) == TrendOf(t.thisWeekCount, t.lastWeekCount, t.thisWeekAvg, t.lastWeekAvg)
      && t.change == t.thisWeekCount - t.lastWeekCount
    ensures forall k :: (0 <= k < |types| && types[k].id != S.Other
                         && (Count(thisWeek, S.KindIs(types[k].id)) > 0 || Count(lastWeek, S.KindIs(types[k].id)) > 0))
                        ==> Analyse(types[k], thisWeek, lastWeek) in r
  {
    var tracked := Filter(types, NotOther());
    var all := Map(tracked, AnalyseFn(thisWeek, lastWeek));
    TypeAnalysisMembers(types, tracked, all, thisWeek, lastWeek);
    FilterMembers(all, Seen());
    Filter(all, Seen())
  }

  /** The analyses of the tracked types are exactly the analyses of the
      table's types other than `'outro'`. */
  lemma TypeAnalysisMembers(types: seq<S.SymptomType>, tracked: seq<S.SymptomType>, all: seq<TypeTrend>,
                            thisWeek: seq<S.Symptom>, lastWeek: seq<S.Symptom>)
    requires tracked == Filter(types, NotOther()) && all == Map(tracked, AnalyseFn(thisWeek, lastWeek))
    ensures forall t :: t in all ==> t.kind in types && t.kind.id != S.Other && t == Analyse(t.kind, thisWeek, lastWeek)
    ensures forall k :: 0 <= k < |types| && types[k].id != S.Other ==> Analyse(types[k], thisWeek, lastWeek) in all
  {
    FilterMembers(types, NotOther());
    forall t | t in all ensures t.kind in types && t.kind.id != S.Other && t == Analyse(t.kind, thisWeek, lastWeek) {
      var i :| 0 <= i < |all| && all[i] == t;
      assert tracked[i] in tracked;
    }
    forall k | 0 <= k < |types| && types[k].id != S.Other ensures Analyse(types[k], thisWeek, lastWeek) in all {
      assert types[k] in tracked;
      var i :| 0 <= i < |tracked| && tracked[i] == types[k];
      assert all[i] == Analyse(types[k], thisWeek, lastWeek);
    }
  }

  /** Every element is improving, worsening or stable. */
  lemma {:induction false} TrendPartition(ts: seq<TypeTrend>)
    ensures Count(ts, HasTrend(Improving)) + Count(ts, HasTrend(Worsening))
      + Count(ts, HasTrend(Stable)) == |ts|
  {
    if |ts| > 0 {
      TrendPartition(ts[1..]);
      assert Count(ts, HasTrend(ts[0].trend)) == 1 + Count(ts[1..], HasTrend(ts[0].trend));
    }
  }

  const ImprovingMessage := "\U{00D3}tima not\U{00ED}cia! Voc\U{00EA} est\U{00E1} melhorando. Continue assim!"
  const WorseningMessage := "Alguns sintomas pioraram. Considere consultar um profissional."
  const StableMessage := "Seus sintomas est\U{00E3}o est\U{00E1}veis esta semana."
  const NoRecordsMessage := "Sem registros recentes. Lembre-se de registrar seus sintomas."

  /** `overallTrend` and `overallMessage`: the trend with more types wins,
      a tie is stable, and a stable week without any symptom says so. */
  function Overall(improving: nat, worsening: nat, thisTotal: nat, lastTotal: nat): (r: (Trend, string))
    ensures r.0 == Improving <==> improving > worsening
    ensures r.0 == Worsening <==> worsening > improving
    ensures r.0 == Stable <==> improving == worsening
    ensures r.1 == NoRecordsMessage <==> improving == worsening && thisTotal == 0 && lastTotal == 0
    ensures r.0 == Improving ==> r.1 == ImprovingMessage
    ensures r.0 == Worsening ==> r.1 == WorseningMessage
    ensures r.0 == Stable && (thisTotal != 0 || lastTotal != 0) ==> r.1 == StableMessage
  {
    if improving > worsening && improving > 0 then (Improving, ImprovingMessage)
    else if worsening > improving && worsening > 0 then (Worsening, WorseningMessage)
    else if thisTotal == 0 && lastTotal == 0 then (Stable, NoRecordsMessage)
    else (Stable, StableMessage)
  }

  datatype WeeklyTrend = WeeklyTrend(
    typeAnalysis: seq<TypeTrend>, overallTrend: Trend, overallMessage: string,
    improvingCount: nat, worseningCount: nat, stableCount: int, thisWeekTotal: nat, lastWeekTotal: nat)

  /** `weeklyTrendAnalysis`. */
  function WeeklyTrendAnalysis(ss: seq<S.Symptom>, at: DateParser, today: int): WeeklyTrend {
    var thisWeek := Filter(ss, InThisWeek(at, today));
    var lastWeek := Filter(ss, InLastWeek(at, today));
    var ta := TypeAnalysis(S.SymptomTypes, thisWeek, lastWeek);
    var improving := Count(ta, HasTrend(Improving));
    var worsening := Count(ta, HasTrend(Worsening));
    var overall := Overall(improving, worsening, |thisWeek|, |lastWeek|);
    WeeklyTrend(ta, overall.0, overall.1, improving, worsening, |ta| - improving - worsening,
                |thisWeek|, |lastWeek|)
  }

  /** The weekly totals add up to at most the number of symptoms, the stable
      count is the number of stable types, and the overall trend follows the
      majority of the types. */
  lemma WeeklyTrendFacts(ss: seq<S.Symptom>, at: DateParser, today: int)
    ensures WeeklyTrendAnalysis(ss, at, today).thisWeekTotal + WeeklyTrendAnalysis(ss, at, today).lastWeekTotal <= |ss|
    ensures WeeklyTrendAnalysis(ss, at, today).stableCount
         == Count(WeeklyTrendAnalysis(ss, at, today).typeAnalysis, HasTrend(Stable))
    ensures WeeklyTrendAnalysis(ss, at, today).overallTrend == Improving <==>
      WeeklyTrendAnalysis(ss, at, today).improvingCount > WeeklyTrendAnalysis(ss, at, today).worseningCount
  {
    WeeksDisjoint(ss, at, today);
    var thisWeek := Filter(ss, InThisWeek(at, today));
    var lastWeek := Filter(ss, InLastWeek(at, today));
    TrendPartition(TypeAnalysis(S.SymptomTypes, thisWeek, lastWeek));
  }

  // ---------------------------------------------------------------------
  // healthScore

  /** `Math.round(x)`: the nearest integer, a half rounded up. */
  function Round(x: real): (r: int)
    ensures x - 0.5 < r as real <= x + 0.5
  {
    (x + 0.5).Floor
  }

  /** `(mood + energy + (sleep || 0)) / (sleep ? 3 : 2)`. */
  function AvgWellness(a: Averages): real {
    if a.sleep != 0.0 then (a.mood + a.energy + a.sleep) / 3.0 else (a.mood + a.energy) / 2.0
  }

  const BaseScore := 70

  /** The adjustment by the overall trend: 10 points up, at most to 100, or
      10 down, at least to 0. A score within 0-100 stays within it. */
  function Adjusted(score: int, overall: Trend): (r: int)
    ensures overall == Improving ==> r == (if score + 10 > 100 then 100 else score + 10)
    ensures overall == Worsening ==> r == (if score - 10 < 0 then 0 else score - 10)
    ensures overall == Stable ==> r == score
    ensures 0 <= score <= 100 ==> 0 <= r <= 100
    ensures overall == Improving && score <= 100 ==> score <= r <= score + 10
    ensures overall == Worsening && score >= 0 ==> score - 10 <= r <= score
  {
    match overall
    case Improving => if 100 < score + 10 then 100 else score + 10
    case Worsening => if 0 > score - 10 then 0 else score - 10
    case Stable => score
  }

  datatype Score = Score(score: int, level: string, message: string, color: string)

  const ExcellentMessage := "Excelente! Voc\U{00EA} est\U{00E1} no caminho certo."
  const GoodMessage := "Bom! Pequenos ajustes podem ajudar."
  const AttentionMessage := "Aten\U{00E7}\U{00E3}o: considere alguns cuidados extras."
  const CriticalMessage := "Procure um profissional de sa\U{00FA}de."

  /** The level, message and colour of a score: excellent from 80, good from
      60, attention from 40, critical below; the initial `'regular'` level is
      never kept. */
  function Grade(score: int): (r: Score)
    ensures r.score == score && r.level != "regular"
    ensures r.level == "excellent" <==> score >= 80
    ensures r.level == "good" <==> 60 <= score < 80
    ensures r.level == "attention" <==> 40 <= score < 60
    ensures r.level == "critical" <==> score < 40
    ensures r.level == "excellent" ==> r.message == ExcellentMessage && r.color == "green"
    ensures r.level == "good" ==> r.message == GoodMessage && r.color == "lime"
    ensures r.level == "attention" ==> r.message == AttentionMessage && r.color == "orange"
    ensures r.level == "critical" ==> r.message == CriticalMessage && r.color == "red"
  {
    if score >= 80 then Score(score, "excellent", ExcellentMessage, "green")
    else if score >= 60 then Score(score, "good", GoodMessage, "lime")
    else if score >= 40 then Score(score, "attention", AttentionMessage, "orange")
    else Score(score, "critical", CriticalMessage, "red")
  }

  /** The rank of a level, worst first. */
  function Rank(level: string): int {
    if level == "excellent" then 3 else if level == "good" then 2 else if level == "attention" then 1 else 0
  }

  /** A higher score never gets a worse level. */
  lemma GradeMonotone(s1: int, s2: int)
    requires s1 <= s2
    ensures Rank(Grade(s1).level) <= Rank(Grade(s2).level)
  {
  }

  /** `healthScore`: 70, or the rounded wellness average times 20 when there
      are check-ins, adjusted by the overall trend and graded. */
  function HealthScore(analysis: Option<Analysis>, overall: Trend): (r: Score)
    ensures r == Grade(r.score)
    ensures analysis.None? ==> r.score == Adjusted(BaseScore, overall)
    ensures analysis.Some? ==> r.score == Adjusted(Round(AvgWellness(analysis.value.recent) * 20.0), overall)
  {
    var base := if analysis.Some? then Round(AvgWellness(analysis.value.recent) * 20.0) else BaseScore;
    Grade(Adjusted(base, overall))
  }

  /** Averages within 0-5 give a wellness average within 0-5. */
  lemma AvgWellnessBounds(a: Averages)
    requires 0.0 <= a.mood <= 5.0 && 0.0 <= a.energy <= 5.0 && 0.0 <= a.sleep <= 5.0
    ensures 0.0 <= AvgWellness(a) <= 5.0
  {
  }

  /** With levels within 0-5 the score stays within 0-100. */
  lemma HealthScoreBounds(cs: seq<Checkin>, overall: Trend)
    requires LevelsInRange(cs)
    ensures 0 <= HealthScore(WellnessAnalysis(cs), overall).score <= 100
  {
    var analysis := WellnessAnalysis(cs);
    if analysis.Some? {
      var n := if |cs| < 7 then |cs| else 7;
      var last7 := cs[..n];
      assert LevelsInRange(last7) by {
        forall i | 0 <= i < |last7| ensures last7[i] == cs[i] { }
      }
      AvgBounds(last7, Mood);
      AvgBounds(last7, Energy);
      AvgBounds(last7, Sleep);
      assert analysis.value.recent == AveragesOf(last7);
      AvgWellnessBounds(analysis.value.recent);
    }
  }

  // ---------------------------------------------------------------------
  // getHealthTips

  datatype Tip = Tip(icon: string, title: string, description: string, source: Option<string>)

  /** `HEALTH_TIPS`, keyed by disease code or category. */
  const HealthTips: map<string, seq<Tip>> := map[
    "F32" := [
      Tip("Sun", "Exponha-se \U{00E0} luz",
          "A luz solar ajuda a regular o humor. Tente sair ao ar livre pela manh\U{00E3}.", None),
      Tip("Activity", "Movimento di\U{00E1}rio",
          "Exerc\U{00ED}cios leves liberam endorfinas. Uma caminhada de 20 min j\U{00E1} ajuda.", None)
    ],
    "F41" := [
      Tip("Wind", "Respira\U{00E7}\U{00E3}o 4-7-8",
          "Inspire 4s, segure 7s, expire 8s. Repita 4 vezes para acalmar.", None),
      Tip("Coffee", "Reduza estimulantes",
          "Cafe\U{00ED}na e a\U{00E7}\U{00FA}car podem piorar a ansiedade. Modere o consumo.", None)
    ],
    "mental" := [
      Tip("Moon", "Higiene do sono",
          "Durma e acorde nos mesmos hor\U{00E1}rios. Evite telas 1h antes de dormir.", None),
      Tip("Users", "Conex\U{00F5}es sociais",
          "Converse com algu\U{00E9}m de confian\U{00E7}a. Voc\U{00EA} n\U{00E3}o precisa enfrentar sozinho.", None)
    ],
    "I10" := [
      Tip("Utensils", "Reduza o s\U{00F3}dio",
          "Limite sal e alimentos processados. Use ervas para temperar.", None),
      Tip("Activity", "Monitore a press\U{00E3}o",
          "Me\U{00E7}a sua press\U{00E3}o regularmente e anote os valores.", None)
    ],
    "cardiovascular" := [
      Tip("Heart", "Cuide do cora\U{00E7}\U{00E3}o",
          "Exerc\U{00ED}cios aer\U{00F3}bicos moderados fortalecem o cora\U{00E7}\U{00E3}o.", None)
    ],
    "E11" := [
      Tip("Utensils", "Carboidratos complexos",
          "Prefira integrais. Eles liberam a\U{00E7}\U{00FA}car mais lentamente.", None),
      Tip("Activity", "Glicose regular",
          "Fa\U{00E7}a refei\U{00E7}\U{00F5}es em hor\U{00E1}rios regulares para estabilizar a glicose.", None)
    ],
    "endocrine" := [
      Tip("Clock", "Rotina alimentar",
          "Coma em hor\U{00E1}rios regulares para manter o metabolismo est\U{00E1}vel.", None)
    ],
    "G43" := [
      Tip("Droplet", "Hidrata\U{00E7}\U{00E3}o",
          "Desidrata\U{00E7}\U{00E3}o \U{00E9} gatilho comum de enxaqueca. Beba \U{00E1}gua regularmente.", None),
      Tip("Moon", "Sono regular",
          "Dormir muito ou pouco pode desencadear crises.", None)
    ],
    "neurological" := [
      Tip("Brain", "Anote gatilhos",
          "Identifique o que desencadeia seus sintomas para evit\U{00E1}-los.", None)
    ],
    "J45" := [
      Tip("Wind", "Evite gatilhos",
          "Poeira, mofo e pelos de animais podem piorar a asma.", None),
      Tip("Home", "Ar limpo",
          "Mantenha ambientes arejados e limpos.", None)
    ],
    "respiratory" := [
      Tip("Wind", "Exerc\U{00ED}cios respirat\U{00F3}rios",
          "Fortale\U{00E7}a sua respira\U{00E7}\U{00E3}o com exerc\U{00ED}cios diafragm\U{00E1}ticos.", None)
    ]
  ]

  /** `SYMPTOM_TIPS`, keyed by symptom type. */
  const SymptomTips: map<string, seq<Tip>> := map[
    "dor" := [
      Tip("Thermometer", "Calor ou frio",
          "Compressas podem aliviar dores. Teste qual funciona melhor para voc\U{00EA}.", None)
    ],
    "febre" := [
      Tip("Droplet", "Hidrate-se bem",
          "Beba muita \U{00E1}gua e descanse. A febre indica que o corpo est\U{00E1} lutando.", None)
    ],
    "enjoo" := [
      Tip("Leaf", "Gengibre ajuda",
          "Ch\U{00E1} de gengibre em pequenos goles pode aliviar n\U{00E1}useas.", None)
    ],
    "fadiga" := [
      Tip("Moon", "Priorize o sono",
          "Fadiga cr\U{00F4}nica pode indicar sono insuficiente ou de m\U{00E1} qualidade.", None)
    ],
    "ansiedade" := [
      Tip("Wind", "Grounding",
          "Foque em 5 coisas que v\U{00EA}, 4 que ouve, 3 que toca para se ancorar.", None)
    ],
    "insonia" := [
      Tip("Smartphone", "Digital detox",
          "Evite telas 1h antes de dormir. A luz azul prejudica o sono.", None)
    ]
  ]

  type TipTable = map<string, seq<Tip>>

  /** `table[disease.id] || table[disease.category]`. */
  function TipsFor(table: TipTable, u: MR.UserDisease): (r: Option<seq<Tip>>)
    ensures u.id.Some? && u.id.value in table ==> r == Some(table[u.id.value])
    ensures r.None? <==> (u.id.None? || u.id.value !in table) && u.category !in table
  {
    if u.id.Some? && u.id.value in table then Some(table[u.id.value])
    else if u.category in table then Some(table[u.category])
    else None
  }

  /** `slice(0, n)`. */
  function Take<T>(s: seq<T>, n: nat): (r: seq<T>)
    ensures |r| <= n && |r| <= |s| && r == s[..|r|]
    ensures |s| <= n ==> r == s
  {
    if |s| <= n then s else s[..n]
  }

  function WithSource(name: string): Tip -> Tip {
    (t: Tip) => t.(source := Some(name))
  }

  /** The tips one disease contributes: its first two, marked with its name. */
  function DiseaseTips(table: TipTable, u: MR.UserDisease): (r: seq<Tip>)
    ensures |r| <= 2
    ensures forall i :: 0 <= i < |r| ==> r[i].source == Some(u.name)
    ensures TipsFor(table, u).None? ==> r == []
    ensures TipsFor(table, u).Some? ==>
      var tips := TipsFor(table, u).value;
      |r| == (if |tips| < 2 then |tips| else 2)
      && forall i :: 0 <= i < |r| ==> r[i] == tips[i].(source := Some(u.name))
  {
    match TipsFor(table, u)
    case None => []
    case Some(tips) => Map(Take(tips, 2), WithSource(u.name))
  }

  /** The tips of the diseases, in order. */
  function TipsFromDiseases(table: TipTable, ds: seq<MR.UserDisease>): (r: seq<Tip>)
    ensures |r| <= 2 * |ds|
  {
    if |ds| == 0 then [] else TipsFromDiseases(table, ds[..|ds| - 1]) + DiseaseTips(table, ds[|ds| - 1])
  }

  /** The tip one symptom type contributes: its first one. */
  function TypeTips(table: TipTable, kind: string): (r: seq<Tip>)
    ensures |r| <= 1
    ensures |r| == 1 <==> kind in table && |table[kind]| > 0
    ensures |r| == 1 ==> r[0] == table[kind][0]
  {
    if kind in table then Take(table[kind], 1) else []
  }

  function TipsFromTypes(table: TipTable, kinds: seq<string>): (r: seq<Tip>)
    ensures |r| <= |kinds|
  {
    if |kinds| == 0 then [] else TipsFromTypes(table, kinds[..|kinds| - 1]) + TypeTips(table, kinds[|kinds| - 1])
  }

  function KindOf(s: S.Symptom): string {
    s.kind
  }

  /** `[...new Set(symptoms.slice(0, 10).map(s => s.type))]`: the types of
      the ten most recent symptoms, each once, in the order in which they
      are first seen. */
  function RecentTypes(ss: seq<S.Symptom>): (r: seq<string>)
    ensures |r| <= 10 && NoDuplicates(r)
    ensures forall i :: 0 <= i < |ss| && i < 10 ==> ss[i].kind in r
    ensures KeysInFirstSeenOrder(r, ss, KindOf)
    ensures forall j :: 0 <= j < |r| ==> PosBy(ss, KindOf, r[j]) < 10
  {
    RecentKinds(ss);
    RecentOrder(ss);
    Distinct(Map(Take(ss, 10), KindOf))
  }

  lemma RecentKinds(ss: seq<S.Symptom>)
    ensures forall i :: 0 <= i < |ss| && i < 10 ==> ss[i].kind in Distinct(Map(Take(ss, 10), KindOf))
  {
    var m := Map(Take(ss, 10), KindOf);
    forall i | 0 <= i < |ss| && i < 10 ensures ss[i].kind in Distinct(m) {
      assert m[i] == ss[i].kind;
    }
  }

  lemma RecentOrder(ss: seq<S.Symptom>)
    ensures KeysInFirstSeenOrder(Distinct(Map(Take(ss, 10), KindOf)), ss, KindOf)
    ensures forall j :: 0 <= j < |Distinct(Map(Take(ss, 10), KindOf))| ==>
      PosBy(ss, KindOf, Distinct(Map(Take(ss, 10), KindOf))[j]) < 10
  {
    var recent := Take(ss, 10);
    var r := Distinct(Map(recent, KindOf));
    DistinctMapOrder(recent, KindOf);
    PosBysPrefix(r, ss, |recent|, KindOf);
  }

  /** `acc.find(t => t.title === title)` finds something. */
  predicate HasTitle(tips: seq<Tip>, title: string) {
    exists j :: 0 <= j < |tips| && tips[j].title == title
  }

  /** The `reduce` that keeps the first tip of each title. */
  function UniqueByTitle(tips: seq<Tip>): (r: seq<Tip>)
    ensures |r| <= |tips|
  {
    if |tips| == 0 then []
    else
      var acc := UniqueByTitle(tips[..|tips| - 1]);
      if HasTitle(acc, tips[|tips| - 1].title) then acc else acc + [tips[|tips| - 1]]
  }

  ghost predicate TitlesDistinct(tips: seq<Tip>) {
    forall i, j :: 0 <= i < j < |tips| ==> tips[i].title != tips[j].title
  }

  /** No title is kept twice. */
  lemma {:induction false} UniqueTitlesDistinct(tips: seq<Tip>)
    ensures TitlesDistinct(UniqueByTitle(tips))
  {
    if |tips| > 0 {
      UniqueTitlesDistinct(tips[..|tips| - 1]);
    }
  }

  /** Every kept tip is a tip of the input. */
  lemma {:induction false} UniqueFromInput(tips: seq<Tip>)
    ensures forall j :: 0 <= j < |UniqueByTitle(tips)| ==> UniqueByTitle(tips)[j] in tips
  {
    if |tips| > 0 {
      var init := tips[..|tips| - 1];
      UniqueFromInput(init);
      var acc := UniqueByTitle(init);
      forall j | 0 <= j < |UniqueByTitle(tips)| ensures UniqueByTitle(tips)[j] in tips {
        if j < |acc| {
          assert UniqueByTitle(tips)[j] == acc[j];
          assert acc[j] in init;
        }
      }
    }
  }

  /** Every title of the input is kept. */
  lemma {:induction false} UniqueKeepsTitles(tips: seq<Tip>)
    ensures forall i :: 0 <= i < |tips| ==> HasTitle(UniqueByTitle(tips), tips[i].title)
  {
    if |tips| > 0 {
      var init := tips[..|tips| - 1];
      UniqueKeepsTitles(init);
      var acc := UniqueByTitle(init);
      var r := UniqueByTitle(tips);
      forall i | 0 <= i < |tips| ensures HasTitle(r, tips[i].title) {
        if i < |init| {
          assert tips[i] == init[i];
          var j :| 0 <= j < |acc| && acc[j].title == init[i].title;
          assert r[j] == acc[j];
        } else if !HasTitle(acc, tips[i].title) {
          assert r[|acc|] == tips[i];
        }
      }
    }
  }

  function TitleOf(t: Tip): string {
    t.title
  }

  /** Every kept tip is the first tip of the input with its title, and the
      kept tips come in the order in which their titles are first seen. */
  lemma {:induction false} UniqueKeepsFirst(tips: seq<Tip>)
    ensures KeepsFirst(UniqueByTitle(tips), tips, TitleOf)
  {
    if |tips| > 0 {
      var n := |tips|;
      var init := tips[..n - 1];
      UniqueKeepsFirst(init);
      var acc := UniqueByTitle(init);
      if HasTitle(acc, tips[n - 1].title) {
        assert UniqueByTitle(tips) == acc;
        KeepsFirstExtend(acc, tips, TitleOf);
      } else {
        assert UniqueByTitle(tips) == acc + [tips[n - 1]];
        UniqueKeepsTitles(init);
        forall i | 0 <= i < n - 1 ensures TitleOf(tips[i]) != TitleOf(tips[n - 1]) {
          assert init[i] == tips[i];
        }
        KeepsFirstSnoc(acc, tips, TitleOf);
      }
    }
  }

  /** All the tips gathered before repeated titles are dropped. */
  function Gathered(ds: seq<MR.UserDisease>, ss: seq<S.Symptom>): seq<Tip> {
    TipsFromDiseases(HealthTips, ds) + TipsFromTypes(SymptomTips, RecentTypes(ss))
  }

  /** `getHealthTips`: the first tip of each title among those gathered, at
      most six. */
  function HealthTipsOf(ds: seq<MR.UserDisease>, ss: seq<S.Symptom>): seq<Tip> {
    Take(UniqueByTitle(Gathered(ds, ss)), 6)
  }

  /** A prefix of a list with distinct titles has distinct titles, and its
      tips are tips of the list. */
  lemma TakeFacts(u: seq<Tip>, n: nat)
    requires TitlesDistinct(u)
    ensures TitlesDistinct(Take(u, n))
    ensures forall j :: 0 <= j < |Take(u, n)| ==> Take(u, n)[j] in u
  {
    var r := Take(u, n);
    assert forall j :: 0 <= j < |r| ==> r[j] == u[j];
  }

  /** At most six tips with distinct titles, each one gathered from the
      diseases (at most two each) or the recent symptom types (one each). */
  lemma HealthTipsFacts(ds: seq<MR.UserDisease>, ss: seq<S.Symptom>)
    ensures |HealthTipsOf(ds, ss)| <= 6
    ensures TitlesDistinct(HealthTipsOf(ds, ss))
    ensures forall j :: 0 <= j < |HealthTipsOf(ds, ss)| ==> HealthTipsOf(ds, ss)[j] in Gathered(ds, ss)
    ensures |Gathered(ds, ss)| <= 2 * |ds| + 10
  {
    var g := Gathered(ds, ss);
    var u := UniqueByTitle(g);
    UniqueTitlesDistinct(g);
    UniqueFromInput(g);
    TakeFacts(u, 6);
  }

  /** Each tip is the first gathered tip with its title, in the order in
      which the titles are first gathered: a disease's tip wins over a later
      one with the same title. */
  lemma HealthTipsFirstSeen(ds: seq<MR.UserDisease>, ss: seq<S.Symptom>)
    ensures KeepsFirst(HealthTipsOf(ds, ss), Gathered(ds, ss), TitleOf)
  {
    var u := UniqueByTitle(Gathered(ds, ss));
    UniqueKeepsFirst(Gathered(ds, ss));
    KeepsFirstPrefix(u, Gathered(ds, ss), TitleOf, |HealthTipsOf(ds, ss)|);
  }

  /** When no more than six titles are gathered, every one of them is among
      the tips. */
  lemma HealthTipsComplete(ds: seq<MR.UserDisease>, ss: seq<S.Symptom>)
    requires |UniqueByTitle(Gathered(ds, ss))| <= 6
    ensures forall i :: 0 <= i < |Gathered(ds, ss)| ==> HasTitle(HealthTipsOf(ds, ss), Gathered(ds, ss)[i].title)
  {
    UniqueKeepsTitles(Gathered(ds, ss));
  }

  /** The first `forEach`: pushes the tips of each disease. */
  method CollectDiseaseTips(table: TipTable, ds: seq<MR.UserDisease>) returns (tips: seq<Tip>)
    ensures tips == TipsFromDiseases(table, ds)
  {
    tips := [];
    var i := 0;
    while i < |ds|
      invariant 0 <= i <= |ds|
      invariant tips == TipsFromDiseases(table, ds[..i])
    {
      assert ds[..i + 1][..i] == ds[..i];
      assert TipsFromDiseases(table, ds[..i + 1]) == tips + DiseaseTips(table, ds[i]);
      var diseaseTips := TipsFor(table, ds[i]);
      if diseaseTips.Some? {
        tips := tips + Map(Take(diseaseTips.value, 2), WithSource(ds[i].name));
      }
      i := i + 1;
    }
    assert i == |ds| && ds[..i] == ds;
  }

  /** The second `forEach`: pushes the first tip of each type. */
  method CollectTypeTips(table: TipTable, kinds: seq<string>) returns (tips: seq<Tip>)
    ensures tips == TipsFromTypes(table, kinds)
  {
    tips := [];
    var j := 0;
    while j < |kinds|
      invariant 0 <= j <= |kinds|
      invariant tips == TipsFromTypes(table, kinds[..j])
    {
      assert kinds[..j + 1][..j] == kinds[..j];
      if kinds[j] in table {
        tips := tips + Take(table[kinds[j]], 1);
      }
      j := j + 1;
    }
    assert j == |kinds| && kinds[..j] == kinds;
  }

  /** The `reduce` over the gathered tips. */
  method KeepFirstByTitle(tips: seq<Tip>) returns (unique: seq<Tip>)
    ensures unique == UniqueByTitle(tips)
  {
    unique := [];
    var k := 0;
    while k < |tips|
      invariant 0 <= k <= |tips|
      invariant unique == UniqueByTitle(tips[..k])
    {
      assert tips[..k + 1][..k] == tips[..k];
      if !HasTitle(unique, tips[k].title) {
        unique := unique + [tips[k]];
      }
      k := k + 1;
    }
    assert k == |tips| && tips[..k] == tips;
  }

  /** The imperative `getHealthTips`. */
  method GetHealthTips(ds: seq<MR.UserDisease>, ss: seq<S.Symptom>) returns (r: seq<Tip>)
    ensures r == HealthTipsOf(ds, ss)
  {
    var fromDiseases := CollectDiseaseTips(HealthTips, ds);
    var fromTypes := CollectTypeTips(SymptomTips, RecentTypes(ss));
    var unique := KeepFirstByTitle(fromDiseases + fromTypes);
    r := Take(unique, 6);
  }

  // ---------------------------------------------------------------------
  // checkMedicationCompatibility

  datatype Interaction = Interaction(
    drug1: string, drug2: string, severity: string, description: string, recommendation: string)

  /** `MEDICATION_INTERACTIONS`. */
  const Interactions: seq<Interaction> := [
    Interaction("Aspirina", "Ibuprofeno", "moderate",
      "Podem aumentar o risco de sangramento gastrointestinal.",
      "Evite tomar juntos ou consulte seu m\U{00E9}dico."),
    Interaction("Omeprazol", "Clopidogrel", "high",
      "Omeprazol pode reduzir a efic\U{00E1}cia do Clopidogrel.",
      "Consulte seu m\U{00E9}dico sobre alternativas."),
    Interaction("Fluoxetina", "Tramadol", "high",
      "Risco de s\U{00ED}ndrome serotonin\U{00E9}rgica.",
      "Evite essa combina\U{00E7}\U{00E3}o. Consulte seu m\U{00E9}dico."),
    Interaction("Metformina", "Contraste iodado", "high",
      "Risco de acidose l\U{00E1}tica.",
      "Suspenda Metformina antes de exames com contraste."),
    Interaction("Varfarina", "Vitamina K", "moderate",
      "Vitamina K pode reduzir o efeito anticoagulante.",
      "Mantenha consumo constante de vitamina K."),
    Interaction("Losartana", "Espironolactona", "moderate",
      "Risco de hipercalemia (pot\U{00E1}ssio alto).",
      "Monitore n\U{00ED}veis de pot\U{00E1}ssio regularmente."),
    Interaction("Sinvastatina", "Amiodarona", "high",
      "Risco aumentado de miopatia.",
      "Limite a dose de Sinvastatina ou use alternativa."),
    Interaction("Antidepressivo", "Anti-inflamat\U{00F3}rio", "moderate",
      "Podem aumentar risco de sangramento.",
      "Use com cautela e monitore sinais de sangramento.")
  ]

  /** Every entry of the table is of moderate or high severity and names
      two different drugs. */
  lemma InteractionsWellFormed()
    ensures forall k :: 0 <= k < |Interactions| ==>
      (Interactions[k].severity == "moderate" || Interactions[k].severity == "high")
      && Interactions[k].drug1 != Interactions[k].drug2
  {
  }

  datatype Warning = Warning(drugs: seq<string>, severity: string, description: string, recommendation: string)

  datatype Suggestion = Suggestion(title: string, description: string, icon: string)

  const Polypharmacy := Suggestion("Polifarm\U{00E1}cia",
    "Voc\U{00EA} usa 3 ou mais medicamentos. Converse com seu m\U{00E9}dico sobre poss\U{00ED}veis intera\U{00E7}\U{00F5}es.",
    "AlertTriangle")

  const SameSchedule := Suggestion("Hor\U{00E1}rios de medicamentos",
    "Alguns medicamentos s\U{00E3}o tomados no mesmo hor\U{00E1}rio. Verifique com seu m\U{00E9}dico se podem ser tomados juntos.",
    "Clock")

  /** The result; `totalMedications` is missing when there are fewer than
      two medications. */
  datatype Compatibility = Compatibility(
    hasIssues: bool, warnings: seq<Warning>, suggestions: seq<Suggestion>, totalMedications: Option<nat>)

  /** `medNames.some(m => m.includes(drug.toLowerCase()))`. */
  function Present(names: seq<string>, drug: string): (r: bool)
    ensures r <==> exists i :: 0 <= i < |names| && Contains(names[i], Lower(drug))
  {
    FirstIndex(names, (n: string) => Contains(n, Lower(drug))).Some?
  }

  function Triggered(names: seq<string>): Interaction -> bool {
    (x: Interaction) => Present(names, x.drug1) && Present(names, x.drug2)
  }

  function WarningOf(x: Interaction): Warning {
    Warning([x.drug1, x.drug2], x.severity, x.description, x.recommendation)
  }

  /** `medications.map(m => m.name.toLowerCase())`. */
  function MedNames(ms: seq<MR.Medication>): seq<string> {
    Map(ms, (m: MR.Medication) => Lower(m.name))
  }

  /** The warnings from an interaction table: one per entry, in table
      order, whose two drugs both occur in some name. */
  function WarningsFrom(table: seq<Interaction>, names: seq<string>): seq<Warning> {
    Map(Filter(table, Triggered(names)), WarningOf)
  }

  /** A warning is raised for an entry exactly when its two drugs occur. */
  lemma WarningsFromFacts(table: seq<Interaction>, names: seq<string>)
    ensures forall w :: w in WarningsFrom(table, names) ==>
      exists k :: 0 <= k < |table| && w == WarningOf(table[k]) && Triggered(names)(table[k])
    ensures forall k :: 0 <= k < |table| && Triggered(names)(table[k]) ==> WarningOf(table[k]) in WarningsFrom(table, names)
    ensures |WarningsFrom(table, names)| == Count(table, Triggered(names))
    ensures IsSubsequence(WarningsFrom(table, names), Map(table, WarningOf))
  {
    var t := Filter(table, Triggered(names));
    FilterMembers(table, Triggered(names));
    FilterOrderAndMultiplicity(table, Triggered(names));
    MapSubsequence(t, table, WarningOf);
    forall w | w in WarningsFrom(table, names)
      ensures exists k :: 0 <= k < |table| && w == WarningOf(table[k]) && Triggered(names)(table[k])
    {
      var m :| 0 <= m < |t| && WarningsFrom(table, names)[m] == w;
      assert t[m] in t;
      var k :| 0 <= k < |table| && table[k] == t[m];
    }
    forall k | 0 <= k < |table| && Triggered(names)(table[k])
      ensures WarningOf(table[k]) in WarningsFrom(table, names)
    {
      assert table[k] in t;
      var m :| 0 <= m < |t| && t[m] == table[k];
      assert WarningsFrom(table, names)[m] == WarningOf(table[k]);
    }
  }

  /** Another medication, with a different id, has the same frequency. */
  function SharesSchedule(ms: seq<MR.Medication>): MR.Medication -> bool {
    (m: MR.Medication) => FirstIndex(ms, (o: MR.Medication) => o.id != m.id && o.frequency == m.frequency).Some?
  }

  function SuggestionsFor(ms: seq<MR.Medication>): seq<Suggestion> {
    (if |ms| >= 3 then [Polypharmacy] else [])
    + (if |Filter(ms, SharesSchedule(ms))| > 0 then [SameSchedule] else [])
  }

  /** `checkMedicationCompatibility` against an interaction table; the
      source's table is `Interactions`. */
  function CompatibilityOf(table: seq<Interaction>, ms: seq<MR.Medication>): Compatibility {
    if |ms| < 2 then Compatibility(false, [], [], None)
    else
      var warnings := WarningsFrom(table, MedNames(ms));
      Compatibility(|warnings| > 0, warnings, SuggestionsFor(ms), Some(|ms|))
  }

  /** Two medications with different ids share a frequency. */
  ghost predicate ScheduleClash(ms: seq<MR.Medication>) {
    exists i, j :: 0 <= i < |ms| && 0 <= j < |ms| && ms[i].id != ms[j].id && ms[i].frequency == ms[j].frequency
  }

  lemma ScheduleClashIff(ms: seq<MR.Medication>)
    ensures |Filter(ms, SharesSchedule(ms))| > 0 <==> ScheduleClash(ms)
  {
    var f := Filter(ms, SharesSchedule(ms));
    if |f| > 0 {
      assert f[0] in f;
      var j :| 0 <= j < |ms| && ms[j] == f[0];
      var k := FirstIndex(ms, (o: MR.Medication) => o.id != f[0].id && o.frequency == f[0].frequency).value;
      assert ms[k].id != ms[j].id && ms[k].frequency == ms[j].frequency;
    }
    if ScheduleClash(ms) {
      var i, j :| 0 <= i < |ms| && 0 <= j < |ms| && ms[i].id != ms[j].id && ms[i].frequency == ms[j].frequency;
      var p := (o: MR.Medication) => o.id != ms[j].id && o.frequency == ms[j].frequency;
      assert p(ms[i]);
      assert FirstIndex(ms, p).Some?;
      assert SharesSchedule(ms)(ms[j]);
      FilterMembers(ms, SharesSchedule(ms));
      assert ms[j] in f;
    }
  }

  /** Fewer than two medications raise nothing. Otherwise there are issues
      exactly when there are warnings, the polypharmacy suggestion appears
      exactly from three medications and the schedule suggestion exactly
      when two medications with different ids share a frequency. */
  lemma CompatibilityFacts(table: seq<Interaction>, ms: seq<MR.Medication>)
    ensures |ms| < 2 ==> CompatibilityOf(table, ms) == Compatibility(false, [], [], None)
    ensures CompatibilityOf(table, ms).hasIssues <==> CompatibilityOf(table, ms).warnings != []
    ensures Polypharmacy in CompatibilityOf(table, ms).suggestions <==> |ms| >= 3
    ensures SameSchedule in CompatibilityOf(table, ms).suggestions <==> ScheduleClash(ms)
  {
    ScheduleClashIff(ms);
    assert Polypharmacy != SameSchedule;
    if |ms| < 2 {
      assert forall i, j :: 0 <= i < |ms| && 0 <= j < |ms| ==> ms[i] == ms[j];
    }
  }

  lemma WarningsFromSnoc(table: seq<Interaction>, i: nat, names: seq<string>)
    requires i < |table|
    ensures WarningsFrom(table[..i + 1], names)
         == WarningsFrom(table[..i], names) + (if Triggered(names)(table[i]) then [WarningOf(table[i])] else [])
  {
    FilterSnoc(table, i, Triggered(names));
    MapAppend(Filter(table[..i], Triggered(names)), if Triggered(names)(table[i]) then [table[i]] else [], WarningOf);
  }

  /** The loop over `MEDICATION_INTERACTIONS`. */
  method CollectWarnings(table: seq<Interaction>, names: seq<string>) returns (warnings: seq<Warning>)
    ensures warnings == WarningsFrom(table, names)
  {
    warnings := [];
    var i := 0;
    while i < |table|
      invariant 0 <= i <= |table|
      invariant warnings == WarningsFrom(table[..i], names)
    {
      WarningsFromSnoc(table, i, names);
      var x := table[i];
      if Present(names, x.drug1) && Present(names, x.drug2) {
        warnings := warnings + [WarningOf(x)];
      }
      i := i + 1;
    }
    assert i == |table| && table[..i] == table;
  }

  /** The imperative `checkMedicationCompatibility`, against an interaction
      table. */
  method CheckMedicationCompatibility(table: seq<Interaction>, ms: seq<MR.Medication>) returns (r: Compatibility)
    ensures r == CompatibilityOf(table, ms)
  {
    if |ms| < 2 {
      return Compatibility(false, [], [], None);
    }
    var warnings := CollectWarnings(table, MedNames(ms));
    var suggestions := [];
    if |ms| >= 3 {
      suggestions := suggestions + [Polypharmacy];
    }
    var sameTime := Filter(ms, SharesSchedule(ms));
    if |sameTime| > 0 {
      suggestions := suggestions + [SameSchedule];
    }
    r := Compatibility(|warnings| > 0, warnings, suggestions, Some(|ms|));
  }
}
