/** The medication-interaction engine: the pairwise scan over a medication
    list, the side-effect and interaction analysis of symptoms, and the store
    of active and acknowledged alerts. */
module MedicationInteractions {
  import opened Wrappers
  import opened Seqs
  import opened Text
  import opened MedicationData
  import PairScan

  /** What a lookup reports for one pair of drugs. Class records carry no
      symptom list, so `symptoms` is missing for them. */
  datatype Finding = Finding(
    severity: Severity, description: string, recommendation: string,
    symptoms: Option<seq<string>>)

  /** One entry of the scan result: a pair interaction or the polypharmacy notice. */
  datatype Detected = Detected(
    id: string, severity: Severity, description: string, recommendation: string,
    medications: seq<Option<string>>, symptoms: Option<seq<string>>,
    isPolypharmacy: bool)

  /** The reference tables the engine consults. Every operation takes them
      as a parameter; `Reference` holds the ones the application ships. */
  datatype Tables = Tables(
    interactions: seq<Interaction>, sideEffects: seq<SideEffects>,
    classes: seq<(string, seq<string>)>, classInteractions: map<string, Finding>)

  const Reference: Tables :=
    Tables(MedicationInteractions, MedicationSideEffects, MedicationClasses, ClassInteractions)

  // ---------------------------------------------------------------------
  // Direct lookup (`findDirectInteraction`)

  /** Each of the record's drugs is similar to one of the two names. */
  predicate DirectMatch(med1: Option<string>, med2: Option<string>, rec: Interaction) {
    (IsSameMedication(med1, Some(rec.drug1)) || IsSameMedication(med2, Some(rec.drug1)))
    && (IsSameMedication(med1, Some(rec.drug2)) || IsSameMedication(med2, Some(rec.drug2)))
  }

  function Matches(med1: Option<string>, med2: Option<string>): Interaction -> bool {
    (rec: Interaction) => DirectMatch(med1, med2, rec)
  }

  function FromRecord(rec: Interaction): Finding {
    Finding(rec.severity, rec.description, rec.recommendation, Some(rec.symptoms))
  }

  /** The first record of `table` that matches the pair, as a finding with its
      symptom list; missing when no record matches. */
  function FindDirectInteractionIn(table: seq<Interaction>, med1: Option<string>, med2: Option<string>)
    : (r: Option<Finding>)
    ensures r.None? <==> forall k :: 0 <= k < |table| ==> !DirectMatch(med1, med2, table[k])
    ensures r.Some? ==> r.value.symptoms.Some?
  {
    match FirstIndex(table, Matches(med1, med2))
    case None => None
    case Some(i) => Some(FromRecord(table[i]))
  }

  /** The finding is the one of the first matching record. */
  lemma FindDirectFirst(table: seq<Interaction>, med1: Option<string>, med2: Option<string>, i: nat)
    requires i < |table| && DirectMatch(med1, med2, table[i])
    requires forall k :: 0 <= k < i ==> !DirectMatch(med1, med2, table[k])
    ensures FindDirectInteractionIn(table, med1, med2) == Some(FromRecord(table[i]))
  {
    FirstIndexUnique(table, Matches(med1, med2), i);
  }

  /** The order of the two names does not matter. */
  lemma FindDirectSymmetric(table: seq<Interaction>, med1: Option<string>, med2: Option<string>)
    ensures FindDirectInteractionIn(table, med1, med2) == FindDirectInteractionIn(table, med2, med1)
  {
    FirstIndexAgree(table, Matches(med1, med2), Matches(med2, med1));
  }

  // ---------------------------------------------------------------------
  // Class lookup (`findClassInteraction`)

  const StatinKey := "estatina_antibiotico"

  /** The class-pair records, keyed by `class1 + "_" + class2`. */
  const ClassInteractions: map<string, Finding> := map[
    "anti-inflamatorio_anticoagulante" := Finding(High,
      "Anti-inflamatorios aumentam risco de sangramento com anticoagulantes.",
      "Evite essa combinacao ou use com muito cuidado.", None),
    "antidepressivo_anti-inflamatorio" := Finding(Moderate,
      "Podem aumentar risco de sangramento.",
      "Use com cautela.", None),
    "betabloqueador_antidiabetico" := Finding(Moderate,
      "Betabloqueadores podem mascarar sintomas de hipoglicemia.",
      "Monitore glicemia com frequencia.", None),
    StatinKey := Finding(Moderate,
      "Alguns antibioticos aumentam niveis de estatinas.",
      "Monitore dores musculares durante o tratamento.", None)
  ]

  function ClassKey(class1: string, class2: string): string {
    class1 + "_" + class2
  }

  /** The key under which the class lookup finds its record: the two
      classes joined in the given order, else in the other order. */
  function ClassRecordKey(tables: Tables, med1: Option<string>, med2: Option<string>): (r: Option<string>)
    ensures r.Some? ==> r.value in tables.classInteractions
  {
    KeyFor(tables.classInteractions,
      GetMedicationClassIn(tables.classes, med1), GetMedicationClassIn(tables.classes, med2))
  }

  /** The record key for two looked-up classes, when both were found. */
  function KeyFor(m: map<string, Finding>, c1: Option<string>, c2: Option<string>): (r: Option<string>)
    ensures r.Some? ==> r.value in m
  {
    if c1.None? || c2.None? then None
    else if ClassKey(c1.value, c2.value) in m then Some(ClassKey(c1.value, c2.value))
    else if ClassKey(c2.value, c1.value) in m then Some(ClassKey(c2.value, c1.value))
    else None
  }

  /** `findClassInteraction`: the record stored under either order of the
      two drugs' classes, or missing when either drug has no class. */
  function FindClassInteraction(tables: Tables, med1: Option<string>, med2: Option<string>)
    : (r: Option<Finding>)
    ensures var c1 := GetMedicationClassIn(tables.classes, med1);
      var c2 := GetMedicationClassIn(tables.classes, med2);
      var m := tables.classInteractions;
      (c1.None? || c2.None? ==> r.None?)
      && (c1.Some? && c2.Some? ==>
            (r.Some? <==> ClassKey(c1.value, c2.value) in m || ClassKey(c2.value, c1.value) in m)
            && (ClassKey(c1.value, c2.value) in m ==> r == Some(m[ClassKey(c1.value, c2.value)]))
            && (ClassKey(c1.value, c2.value) !in m && ClassKey(c2.value, c1.value) in m
                ==> r == Some(m[ClassKey(c2.value, c1.value)])))
  {
    match ClassRecordKey(tables, med1, med2)
    case None => None
    case Some(key) => Some(tables.classInteractions[key])
  }

  /** No class record carries a symptom list. */
  ghost predicate ClassRecordsBare(tables: Tables) {
    forall key :: key in tables.classInteractions ==> tables.classInteractions[key].symptoms.None?
  }

  /** The shipped class records carry no symptom list. */
  lemma ReferenceClassRecordsBare(tables: Tables)
    requires tables.classInteractions == ClassInteractions
    ensures ClassRecordsBare(tables)
  {
    forall key | key in ClassInteractions ensures ClassInteractions[key].symptoms.None? {
    }
  }

  /** `name` ends `key`. */
  predicate IsSuffix(name: string, key: string) {
    |name| <= |key| && key[|key| - |name|..] == name
  }

  /** A key ends with the second class it joins. */
  lemma KeyEndsWithSecondClass(c1: string, c2: string)
    ensures IsSuffix(c2, ClassKey(c1, c2))
  {
    var k := ClassKey(c1, c2);
    assert k[|k| - |c2|..] == c2;
  }

  /** A name that differs from the end of `key` at position `i` does not end it. */
  lemma NotSuffixAt(name: string, key: string, i: nat)
    requires i < |name| <= |key| && key[|key| - |name| + i] != name[i]
    ensures !IsSuffix(name, key)
  {
    assert key[|key| - |name|..][i] == key[|key| - |name| + i];
  }

  /** "antibiotico" is not a class, and no class name ends the statin key. */
  lemma NoClassEndsStatinKey(c: string)
    requires c in ClassList
    ensures !IsSuffix(c, StatinKey)
  {
    if c in ClassList[..5] {
      NoFirstClassEndsStatinKey(c);
    } else {
      assert c in ClassList[5..];
      NoLastClassEndsStatinKey(c);
    }
  }

  lemma NoFirstClassEndsStatinKey(c: string)
    requires c in ClassList[..5]
    ensures !IsSuffix(c, StatinKey)
  {
    var key := StatinKey;
    assert |key| == 20;
    if c == ClassList[0] {          // anti-inflamatorio against atina_antibiotico
      NotSuffixAt(c, key, 1);
    } else if c == ClassList[1] {   // antidepressivo against na_antibiotico
      NotSuffixAt(c, key, 0);
    } else if c == ClassList[2] {   // ansiolitico against antibiotico
      NotSuffixAt(c, key, 2);
    } else if c == ClassList[3] {   // antihipertensivo against tina_antibiotico
      NotSuffixAt(c, key, 0);
    } else {                        // betabloqueador against na_antibiotico
      assert c == ClassList[4];
      NotSuffixAt(c, key, 0);
    }
  }

  lemma NoLastClassEndsStatinKey(c: string)
    requires c in ClassList[5..]
    ensures !IsSuffix(c, StatinKey)
  {
    var key := StatinKey;
    assert |key| == 20;
    if c == ClassList[5] {          // estatina against ibiotico
      NotSuffixAt(c, key, 0);
    } else if c == ClassList[6] {   // diuretico against tibiotico
      NotSuffixAt(c, key, 0);
    } else if c == ClassList[7] {   // anticoagulante against na_antibiotico
      NotSuffixAt(c, key, 0);
    } else if c == ClassList[8] {   // antidiabetico against a_antibiotico
      NotSuffixAt(c, key, 1);
    } else {                        // inibidor_bomba_protons is longer than the key
      assert c == ClassList[9];
    }
  }

  /** When no class name ends a key, the class lookup never uses that key. */
  lemma KeyUnformable(tables: Tables, med1: Option<string>, med2: Option<string>, key: string)
    requires forall c :: c in ClassNames(tables.classes) ==> !IsSuffix(c, key)
    ensures ClassRecordKey(tables, med1, med2) != Some(key)
  {
    var c1 := GetMedicationClassIn(tables.classes, med1);
    var c2 := GetMedicationClassIn(tables.classes, med2);
    KeyForAvoids(tables.classInteractions, c1, c2, key);
  }

  /** Two found classes that do not end `key` never form it. */
  lemma KeyForAvoids(m: map<string, Finding>, c1: Option<string>, c2: Option<string>, key: string)
    requires c1.Some? ==> !IsSuffix(c1.value, key)
    requires c2.Some? ==> !IsSuffix(c2.value, key)
    ensures KeyFor(m, c1, c2) != Some(key)
  {
    if c1.Some? && c2.Some? {
      KeysAvoid(c1.value, c2.value, key);
    }
  }

  /** Neither order of two names that do not end `key` forms it. */
  lemma KeysAvoid(c1: string, c2: string, key: string)
    requires !IsSuffix(c1, key) && !IsSuffix(c2, key)
    ensures ClassKey(c1, c2) != key && ClassKey(c2, c1) != key
  {
    KeyEndsWithSecondClass(c1, c2);
    KeyEndsWithSecondClass(c2, c1);
  }

  /** With the shipped classes, the statin-and-antibiotic key is never the
      one the class lookup uses, so its record is never returned. */
  lemma StatinRecordUnreachable(tables: Tables, med1: Option<string>, med2: Option<string>)
    requires tables.classes == MedicationClasses
    ensures ClassRecordKey(tables, med1, med2) != Some(StatinKey)
  {
    ClassNamesValue();
    forall c | c in ClassNames(tables.classes) ensures !IsSuffix(c, StatinKey) {
      NoClassEndsStatinKey(c);
    }
    KeyUnformable(tables, med1, med2, StatinKey);
  }

  /** Direct lookup first; the class lookup only when it finds nothing. */
  function PairFinding(tables: Tables, med1: Option<string>, med2: Option<string>): Option<Finding> {
    match FindDirectInteractionIn(tables.interactions, med1, med2)
    case Some(f) => Some(f)
    case None => FindClassInteraction(tables, med1, med2)
  }

  // ---------------------------------------------------------------------
  // The scan (`checkInteractions`)

  /** The id of the entry for the pair `(med1, med2)`: the two normalised
      names joined in list order, so it is not symmetric. */
  function PairId(med1: Option<string>, med2: Option<string>): string {
    Normalize(med1) + "_" + Normalize(med2)
  }

  /** The entry pushed for a pair with a finding. */
  function PairEntry(id: string, med1: Option<string>, med2: Option<string>, f: Finding): Detected {
    Detected(id, f.severity, f.description, f.recommendation, [med1, med2], f.symptoms, false)
  }

  function PolypharmacyEntry(names: seq<Option<string>>): Detected {
    Detected("polypharmacy_alert", Low,
      "Voce esta usando " + NatToString(|names|) + " medicamentos. Polifarmacia aumenta risco de interacoes.",
      "Revise seus medicamentos com seu medico regularmente.",
      names, None, true)
  }

  /** What the scan pushes for a pair: the entry built from the pair's
      finding, or nothing when there is none. */
  function PairProbe(tables: Tables): (Option<string>, Option<string>) -> Option<Detected> {
    (med1: Option<string>, med2: Option<string>) =>
      match PairFinding(tables, med1, med2)
      case None => None
      case Some(f) => Some(PairEntry(PairId(med1, med2), med1, med2, f))
  }

  /** The scan of a name list: every pair `i < j` in loop order, then the
      polypharmacy notice for three or more names. */
  function ScanNames(tables: Tables, names: seq<Option<string>>): seq<Detected> {
    if |names| < 2 then []
    else PairScan.Scan(PairProbe(tables), names)
         + (if |names| >= 3 then [PolypharmacyEntry(names)] else [])
  }

  /** `checkInteractions`: a missing list scans to nothing. */
  function Scan(tables: Tables, meds: Option<seq<Option<string>>>): (r: seq<Detected>)
    ensures meds.None? || |meds.value| < 2 ==> r == []
  {
    match meds
    case None => []
    case Some(names) => ScanNames(tables, names)
  }

  /** `checkInteractions`. */
  method CheckInteractions(tables: Tables, meds: Option<seq<Option<string>>>)
    returns (interactions: seq<Detected>)
    ensures interactions == Scan(tables, meds)
  {
    if meds.None? || |meds.value| < 2 {
      return [];
    }
    var names := meds.value;
    interactions := PairScan.CheckPairs(PairProbe(tables), names);
    if |names| >= 3 {
      interactions := interactions + [PolypharmacyEntry(names)];
    }
  }

  /** The pairs that produce an entry, in scan order. */
  function HitPairs(tables: Tables, names: seq<Option<string>>): seq<PairScan.Pair> {
    PairScan.HitPairs(PairProbe(tables), names)
  }

  // Properties of the scan

  /** Entry `k` of the scan belongs to the `k`-th pair with a finding: its
      id is made of the two names' normal forms and it carries that pair's
      finding; the notice follows the pair entries. */
  lemma ScanEntries(tables: Tables, names: seq<Option<string>>)
    requires |names| >= 2
    ensures var ps := HitPairs(tables, names);
      var r := ScanNames(tables, names);
      |r| == |ps| + (if |names| >= 3 then 1 else 0)
      && (forall k :: 0 <= k < |ps| ==>
            0 <= ps[k].0 < |names| && 0 <= ps[k].1 < |names|
            && PairFinding(tables, names[ps[k].0], names[ps[k].1]).Some?
            && r[k] == PairEntry(PairId(names[ps[k].0], names[ps[k].1]), names[ps[k].0], names[ps[k].1],
                                 PairFinding(tables, names[ps[k].0], names[ps[k].1]).value))
      && (|names| >= 3 ==> r[|r| - 1] == PolypharmacyEntry(names))
  {
    var ps := HitPairs(tables, names);
    var es := PairScan.Scan(PairProbe(tables), names);
    var r := ScanNames(tables, names);
    PairScan.ScanEntries(PairProbe(tables), names);
    assert r == es + (if |names| >= 3 then [PolypharmacyEntry(names)] else []);
    forall k | 0 <= k < |ps|
      ensures 0 <= ps[k].0 < |names| && 0 <= ps[k].1 < |names|
        && PairFinding(tables, names[ps[k].0], names[ps[k].1]).Some?
        && r[k] == PairEntry(PairId(names[ps[k].0], names[ps[k].1]), names[ps[k].0], names[ps[k].1],
                             PairFinding(tables, names[ps[k].0], names[ps[k].1]).value)
    {
      assert r[k] == es[k];
    }
  }

  /** The polypharmacy notice is the last entry exactly when there are at
      least three medications, and no other entry is one. */
  lemma ScanPolypharmacy(tables: Tables, names: seq<Option<string>>)
    requires |names| >= 2
    ensures var r := ScanNames(tables, names);
      (|names| >= 3 ==> |r| > 0 && r[|r| - 1] == PolypharmacyEntry(names)
                        && forall k :: 0 <= k < |r| - 1 ==> !r[k].isPolypharmacy)
      && (|names| < 3 ==> forall k :: 0 <= k < |r| ==> !r[k].isPolypharmacy)
  {
    ScanEntries(tables, names);
  }

  /** The pairs with a finding come in strict `i < j` loop order, and a pair
      `a < b` is among them exactly when the lookup finds something for it. */
  lemma ScanPairs(tables: Tables, names: seq<Option<string>>)
    ensures var ps := HitPairs(tables, names);
      StrictlySorted(ps, PairScan.LexOrder())
      && (forall k :: 0 <= k < |ps| ==> 0 <= ps[k].0 < ps[k].1 < |names|)
      && (forall a, b :: 0 <= a < b < |names| ==>
            ((a, b) in ps <==> PairFinding(tables, names[a], names[b]).Some?))
  {
    PairScan.ScanOrder(PairProbe(tables), names);
    PairScan.ScanPairs(PairProbe(tables), names);
  }

  /** One entry per pair with a finding, plus the notice. */
  lemma ScanCount(tables: Tables, names: seq<Option<string>>)
    requires |names| >= 2
    ensures |ScanNames(tables, names)| == |HitPairs(tables, names)| + (if |names| >= 3 then 1 else 0)
  {
    PairScan.ScanEntries(PairProbe(tables), names);
  }

  /** At most one entry per pair, plus the notice. */
  lemma ScanLength(tables: Tables, names: seq<Option<string>>)
    ensures 2 * |ScanNames(tables, names)| <= |names| * (|names| - 1) + (if |names| >= 3 then 2 else 0)
  {
    if |names| >= 2 {
      ScanCount(tables, names);
      PairScan.ScanOrder(PairProbe(tables), names);
    }
  }

  /** A pair finding with a symptom list comes from the direct lookup. */
  lemma PairFindingSymptoms(tables: Tables, med1: Option<string>, med2: Option<string>)
    requires ClassRecordsBare(tables)
    ensures var f := PairFinding(tables, med1, med2);
      f.Some? && f.value.symptoms.Some? ==> FindDirectInteractionIn(tables.interactions, med1, med2).Some?
  {
  }

  /** Only entries found by the direct lookup carry a symptom list: class
      records have none, and neither has the polypharmacy notice. */
  lemma ScanSymptomsDirect(tables: Tables, names: seq<Option<string>>)
    requires ClassRecordsBare(tables)
    ensures forall e :: e in ScanNames(tables, names) && e.symptoms.Some? ==>
      !e.isPolypharmacy && |e.medications| == 2
      && FindDirectInteractionIn(tables.interactions, e.medications[0], e.medications[1]).Some?
  {
    if |names| >= 2 {
      var r := ScanNames(tables, names);
      var ps := HitPairs(tables, names);
      ScanEntries(tables, names);
      forall e | e in r && e.symptoms.Some?
        ensures !e.isPolypharmacy && |e.medications| == 2
             && FindDirectInteractionIn(tables.interactions, e.medications[0], e.medications[1]).Some?
      {
        var k :| 0 <= k < |r| && r[k] == e;
        if k < |ps| {
          var a, b := names[ps[k].0], names[ps[k].1];
          PairFindingSymptoms(tables, a, b);
          assert e.medications == [a, b];
        }
      }
    }
  }

  // ---------------------------------------------------------------------
  // Symptom causes (`getSideEffects`, `analyzeSymptomCauses`)

  /** `getSideEffects`: the effects of the first similar drug, or none. */
  function GetSideEffects(tables: Tables, name: Option<string>): seq<string> {
    match FindMedicationIn(tables.sideEffects, name)
    case None => []
    case Some(entry) => entry.1
  }

  /** A name with an empty normal form gets the first record's effects. */
  lemma GetSideEffectsEmptyName(tables: Tables, name: Option<string>)
    requires Normalize(name) == "" && |tables.sideEffects| > 0
    ensures GetSideEffects(tables, name) == tables.sideEffects[0].1
  {
    FindEmptyName(tables.sideEffects, name);
  }

  /** `getSymptomLabel`: the display label, or the type itself when unknown. */
  function SymptomLabel(symptomType: string): (r: string)
    ensures symptomType !in SymptomLabels ==> r == symptomType
    ensures symptomType in SymptomLabels ==> r == SymptomLabels[symptomType]
  {
    if symptomType in SymptomLabels then SymptomLabels[symptomType] else symptomType
  }

  const SymptomLabels: map<string, string> := map[
    "dor" := "Dor de cabeca", "febre" := "Febre", "enjoo" := "Enjoo", "nausea" := "Nausea",
    "fadiga" := "Fadiga", "ansiedade" := "Ansiedade", "insonia" := "Insonia", "tosse" := "Tosse",
    "tontura" := "Tontura", "dor_peito" := "Dor no peito", "falta_ar" := "Falta de ar",
    "dor_abdominal" := "Dor abdominal", "diarreia" := "Diarreia", "tremor" := "Tremores",
    "confusao" := "Confusao mental", "palpitacao" := "Palpitacoes", "fraqueza" := "Fraqueza muscular"
  ]

  datatype Likelihood = Possible | ViaInteraction

  /** A possible cause of a symptom: a single drug's side effect, or an
      interaction (which alone carries a severity). */
  datatype Cause = Cause(
    medication: Option<string>, likelihood: Likelihood, description: string,
    severity: Option<Severity>)

  /** A value in a template literal: a missing name prints as "undefined". */
  function Interpolate(name: Option<string>): string {
    match name
    case None => "undefined"
    case Some(s) => s
  }

  /** `names.join(sep)`: missing names join as empty strings. */
  function JoinNames(names: seq<Option<string>>, sep: string): string {
    Join(Map(names, (n: Option<string>) => n.GetOr("")), sep)
  }

  function SideEffectCause(symptomType: string, name: Option<string>): Cause {
    Cause(name, Possible,
      Interpolate(name) + " pode causar " + SymptomLabel(symptomType) + " como efeito colateral.",
      None)
  }

  function InteractionCause(symptomType: string, e: Detected): Cause {
    Cause(Some(JoinNames(e.medications, " + ")), ViaInteraction,
      "A combinacao de " + JoinNames(e.medications, " e ") + " pode causar " + SymptomLabel(symptomType) + ".",
      Some(e.severity))
  }

  function HasSideEffect(tables: Tables, symptomType: string): Option<string> -> bool {
    (name: Option<string>) => symptomType in GetSideEffects(tables, name)
  }

  function Carries(symptomType: string): Detected -> bool {
    (e: Detected) => e.symptoms.Some? && symptomType in e.symptoms.value
  }

  function SideEffectCauses(tables: Tables, symptomType: string, names: seq<Option<string>>): seq<Cause> {
    Map(Filter(names, HasSideEffect(tables, symptomType)),
        (name: Option<string>) => SideEffectCause(symptomType, name))
  }

  function InteractionCauses(symptomType: string, scan: seq<Detected>): seq<Cause> {
    Map(Filter(scan, Carries(symptomType)), (e: Detected) => InteractionCause(symptomType, e))
  }

  /** The causes `analyzeSymptomCauses` lists: side-effect causes in
      medication order, then interaction causes in scan order; none for a
      missing list or an empty symptom type. */
  function SymptomCauses(tables: Tables, symptomType: string, meds: Option<seq<Option<string>>>)
    : (r: seq<Cause>)
    ensures meds.None? || symptomType == "" ==> r == []
  {
    if meds.None? || symptomType == "" then []
    else SideEffectCauses(tables, symptomType, meds.value) + InteractionCauses(symptomType, Scan(tables, meds))
  }

  lemma SideEffectCausesStep(tables: Tables, symptomType: string, names: seq<Option<string>>, k: nat)
    requires k < |names|
    ensures SideEffectCauses(tables, symptomType, names[..k + 1])
         == SideEffectCauses(tables, symptomType, names[..k])
            + (if symptomType in GetSideEffects(tables, names[k])
               then [SideEffectCause(symptomType, names[k])] else [])
  {
    var f := (name: Option<string>) => SideEffectCause(symptomType, name);
    FilterSnoc(names, k, HasSideEffect(tables, symptomType));
    MapAppend(Filter(names[..k], HasSideEffect(tables, symptomType)),
              if symptomType in GetSideEffects(tables, names[k]) then [names[k]] else [], f);
  }

  lemma InteractionCausesStep(symptomType: string, scan: seq<Detected>, k: nat)
    requires k < |scan|
    ensures InteractionCauses(symptomType, scan[..k + 1])
         == InteractionCauses(symptomType, scan[..k])
            + (if Carries(symptomType)(scan[k]) then [InteractionCause(symptomType, scan[k])] else [])
  {
    var f := (e: Detected) => InteractionCause(symptomType, e);
    FilterSnoc(scan, k, Carries(symptomType));
    MapAppend(Filter(scan[..k], Carries(symptomType)),
              if Carries(symptomType)(scan[k]) then [scan[k]] else [], f);
  }

  /** `analyzeSymptomCauses`: the side-effect loop, then the loop over the scan. */
  method AnalyzeSymptomCauses(tables: Tables, symptomType: string, meds: Option<seq<Option<string>>>)
    returns (causes: seq<Cause>)
    ensures causes == SymptomCauses(tables, symptomType, meds)
  {
    if meds.None? || symptomType == "" {
      return [];
    }
    var possible := CollectSideEffectCauses(tables, symptomType, meds.value);
    var interactions := CheckInteractions(tables, meds);
    var combined := CollectInteractionCauses(symptomType, interactions);
    causes := possible + combined;
  }

  /** The first loop of `analyzeSymptomCauses`: a `possible` cause for each
      medication whose side effects list the symptom. */
  method CollectSideEffectCauses(tables: Tables, symptomType: string, names: seq<Option<string>>)
    returns (causes: seq<Cause>)
    ensures causes == SideEffectCauses(tables, symptomType, names)
  {
    causes := [];
    var k := 0;
    while k < |names|
      invariant 0 <= k <= |names|
      invariant causes == SideEffectCauses(tables, symptomType, names[..k])
    {
      var sideEffects := GetSideEffects(tables, names[k]);
      if symptomType in sideEffects {
        causes := causes + [SideEffectCause(symptomType, names[k])];
      }
      SideEffectCausesStep(tables, symptomType, names, k);
      k := k + 1;
    }
    assert names[..|names|] == names;
  }

  /** The second loop of `analyzeSymptomCauses`: an `interaction` cause for
      each scan entry whose symptom list holds the symptom. */
  method CollectInteractionCauses(symptomType: string, interactions: seq<Detected>)
    returns (causes: seq<Cause>)
    ensures causes == InteractionCauses(symptomType, interactions)
  {
    causes := [];
    var k := 0;
    while k < |interactions|
      invariant 0 <= k <= |interactions|
      invariant causes == InteractionCauses(symptomType, interactions[..k])
    {
      var e := interactions[k];
      if e.symptoms.Some? && symptomType in e.symptoms.value {
        causes := causes + [InteractionCause(symptomType, e)];
      }
      InteractionCausesStep(symptomType, interactions, k);
      k := k + 1;
    }
    assert interactions[..|interactions|] == interactions;
  }

  /** Side-effect causes come first; only interaction causes carry a
      severity; every interaction cause comes from a directly found pair
      whose symptom list holds the type. */
  lemma SymptomCausesShape(tables: Tables, symptomType: string, meds: Option<seq<Option<string>>>)
    ensures var r := SymptomCauses(tables, symptomType, meds);
      (forall a, b :: 0 <= a < b < |r| && r[b].likelihood == Possible ==> r[a].likelihood == Possible)
      && (forall a :: 0 <= a < |r| ==> (r[a].severity.Some? <==> r[a].likelihood == ViaInteraction))
  {
    if meds.Some? && symptomType != "" {
      var p := SideEffectCauses(tables, symptomType, meds.value);
      var q := InteractionCauses(symptomType, Scan(tables, meds));
      SideEffectCausesPossible(tables, symptomType, meds.value);
      InteractionCausesSevere(symptomType, Scan(tables, meds));
      CausesConcat(p, q);
    }
  }

  lemma SideEffectCausesPossible(tables: Tables, symptomType: string, names: seq<Option<string>>)
    ensures var p := SideEffectCauses(tables, symptomType, names);
      forall x :: 0 <= x < |p| ==> p[x].likelihood == Possible && p[x].severity.None?
  {
  }

  lemma InteractionCausesSevere(symptomType: string, scan: seq<Detected>)
    ensures var q := InteractionCauses(symptomType, scan);
      forall x :: 0 <= x < |q| ==> q[x].likelihood == ViaInteraction && q[x].severity.Some?
  {
  }

  /** Side-effect causes followed by interaction causes keep that shape. */
  lemma CausesConcat(p: seq<Cause>, q: seq<Cause>)
    requires forall x :: 0 <= x < |p| ==> p[x].likelihood == Possible && p[x].severity.None?
    requires forall x :: 0 <= x < |q| ==> q[x].likelihood == ViaInteraction && q[x].severity.Some?
    ensures var r := p + q;
      (forall a, b :: 0 <= a < b < |r| && r[b].likelihood == Possible ==> r[a].likelihood == Possible)
      && (forall a :: 0 <= a < |r| ==> (r[a].severity.Some? <==> r[a].likelihood == ViaInteraction))
  {
    var r := p + q;
    forall a | 0 <= a < |r| ensures (r[a].likelihood == Possible <==> a < |p|) && (r[a].severity.Some? <==> a >= |p|) {
      if a >= |p| {
        assert r[a] == q[a - |p|];
      }
    }
  }

  /** The number of interaction causes is the number of scan entries whose
      symptom list holds the type, and each of those is a direct pair entry. */
  lemma InteractionCausesFromDirect(tables: Tables, symptomType: string, names: seq<Option<string>>)
    requires ClassRecordsBare(tables)
    ensures var scan := ScanNames(tables, names);
      |InteractionCauses(symptomType, scan)| == Count(scan, Carries(symptomType))
      && forall e :: e in Filter(scan, Carries(symptomType)) ==>
           !e.isPolypharmacy && |e.medications| == 2
           && FindDirectInteractionIn(tables.interactions, e.medications[0], e.medications[1]).Some?
  {
    ScanSymptomsDirect(tables, names);
  }

  // ---------------------------------------------------------------------
  // All symptoms (`analyzeAllSymptoms`)

  /** One analysed symptom type. */
  datatype SymptomAnalysis = SymptomAnalysis(
    symptom: string, symptomLabel: string, possibleCauses: seq<Cause>, count: nat)

  function IsType(t: string): string -> bool {
    (x: string) => x == t
  }

  /** The causes of each symptom type, as one function value: the loop of
      `analyzeAllSymptoms` is stated and proved for any such function, and
      runs with `CausesFn(tables, meds)`. */
  type CausesOf = string -> seq<Cause>

  function CausesFn(tables: Tables, meds: Option<seq<Option<string>>>): CausesOf {
    (t: string) => SymptomCauses(tables, t, meds)
  }

  /** The entry for type `t`: its label, its causes and its number of occurrences. */
  function AnalysisOf(causesOf: CausesOf, t: string, types: seq<string>): SymptomAnalysis {
    SymptomAnalysis(t, SymptomLabel(t), causesOf(t), Count(types, IsType(t)))
  }

  function HasCause(causesOf: CausesOf): string -> bool {
    (t: string) => causesOf(t) != []
  }

  function CountOf(a: SymptomAnalysis): int {
    a.count
  }

  function SymptomOf(a: SymptomAnalysis): string {
    a.symptom
  }

  /** The analyses of the distinct types that have a cause, in first-seen order. */
  function Analyses(causesOf: CausesOf, distinct: seq<string>, types: seq<string>): seq<SymptomAnalysis> {
    Map(Filter(distinct, HasCause(causesOf)), (t: string) => AnalysisOf(causesOf, t, types))
  }

  /** `analyzeAllSymptoms`, on the symptoms' types: nothing for a missing or
      empty list, otherwise the analyses sorted by count, largest first. */
  function AnalyzeAll(tables: Tables, types: Option<seq<string>>, meds: Option<seq<Option<string>>>)
    : seq<SymptomAnalysis>
  {
    if types.None? || meds.None? || |types.value| == 0 || |meds.value| == 0 then []
    else SortDesc(Analyses(CausesFn(tables, meds), Distinct(types.value), types.value), CountOf)
  }

  lemma AnalysesStep(causesOf: CausesOf, distinct: seq<string>, types: seq<string>, k: nat)
    requires k < |distinct|
    ensures Analyses(causesOf, distinct[..k + 1], types)
         == Analyses(causesOf, distinct[..k], types)
            + (if causesOf(distinct[k]) != [] then [AnalysisOf(causesOf, distinct[k], types)] else [])
  {
    var f := (t: string) => AnalysisOf(causesOf, t, types);
    FilterSnoc(distinct, k, HasCause(causesOf));
    MapAppend(Filter(distinct[..k], HasCause(causesOf)),
              if causesOf(distinct[k]) != [] then [distinct[k]] else [], f);
  }

  /** One pass of the loop of `analyzeAllSymptoms`. */
  lemma CollectStep(causesOf: CausesOf, distinct: seq<string>, all: seq<string>, k: nat,
                    acc: seq<SymptomAnalysis>, causes: seq<Cause>)
    requires k < |distinct| && causes == causesOf(distinct[k])
    requires acc == Analyses(causesOf, distinct[..k], all)
    ensures (if |causes| > 0
             then acc + [SymptomAnalysis(distinct[k], SymptomLabel(distinct[k]), causes, Count(all, IsType(distinct[k])))]
             else acc)
         == Analyses(causesOf, distinct[..k + 1], all)
  {
    AnalysesStep(causesOf, distinct, all, k);
  }

  /** `analyzeAllSymptoms`: one loop over the distinct types, then the sort. */
  method AnalyzeAllSymptoms(tables: Tables, types: Option<seq<string>>, meds: Option<seq<Option<string>>>)
    returns (analysis: seq<SymptomAnalysis>)
    ensures analysis == AnalyzeAll(tables, types, meds)
  {
    if types.None? || meds.None? || |types.value| == 0 || |meds.value| == 0 {
      return [];
    }
    var acc := CollectAnalyses(tables, Distinct(types.value), types.value, meds);
    analysis := SortDesc(acc, CountOf);
  }

  /** The loop of `analyzeAllSymptoms`: an analysis for each distinct type
      that has a cause. */
  method CollectAnalyses(tables: Tables, distinct: seq<string>, all: seq<string>, meds: Option<seq<Option<string>>>)
    returns (acc: seq<SymptomAnalysis>)
    ensures acc == Analyses(CausesFn(tables, meds), distinct, all)
  {
    ghost var causesOf := CausesFn(tables, meds);
    acc := [];
    var k := 0;
    while k < |distinct|
      invariant 0 <= k <= |distinct|
      invariant acc == Analyses(causesOf, distinct[..k], all)
    {
      var t := distinct[k];
      var causes := AnalyzeSymptomCauses(tables, t, meds);
      CollectStep(causesOf, distinct, all, k, acc, causes);
      if |causes| > 0 {
        acc := acc + [SymptomAnalysis(t, SymptomLabel(t), causes, Count(all, IsType(t)))];
      }
      k := k + 1;
    }
    assert distinct[..|distinct|] == distinct;
  }

  // Properties of the batch analysis, for any causes function

  /** Sorted by count, largest first, and a permutation of the analyses in
      first-seen order. */
  lemma SortedAnalyses(causesOf: CausesOf, types: seq<string>)
    ensures var r := SortDesc(Analyses(causesOf, Distinct(types), types), CountOf);
      SortedDesc(r, CountOf) && multiset(r) == multiset(Analyses(causesOf, Distinct(types), types))
  {
    SortDescFacts(Analyses(causesOf, Distinct(types), types), CountOf);
  }

  /** Each symptom type has at most one entry. */
  lemma DistinctAnalyses(causesOf: CausesOf, types: seq<string>)
    ensures DistinctBy(SortDesc(Analyses(causesOf, Distinct(types), types), CountOf), SymptomOf)
  {
    var d := Distinct(types);
    var f := (t: string) => AnalysisOf(causesOf, t, types);
    var fl := Filter(d, HasCause(causesOf));
    DistinctIsDistinctBy(d);
    FilterDistinctBy(d, HasCause(causesOf), (x: string) => x);
    MapDistinctBy(fl, f, SymptomOf, (x: string) => x);
    SortDescDistinctBy(Analyses(causesOf, d, types), CountOf, SymptomOf);
  }

  /** Every type that occurs and has a cause gets its entry. */
  lemma CompleteAnalyses(causesOf: CausesOf, types: seq<string>)
    ensures forall t :: t in types && causesOf(t) != [] ==>
      AnalysisOf(causesOf, t, types) in SortDesc(Analyses(causesOf, Distinct(types), types), CountOf)
  {
    var d := Distinct(types);
    var fl := Filter(d, HasCause(causesOf));
    var pre := Analyses(causesOf, d, types);
    SortDescFacts(pre, CountOf);
    FilterMembers(d, HasCause(causesOf));
    forall t | t in types && causesOf(t) != [] ensures AnalysisOf(causesOf, t, types) in pre {
      assert t in fl;
      var k :| 0 <= k < |fl| && fl[k] == t;
      assert pre[k] == AnalysisOf(causesOf, t, types);
    }
  }

  /** Every entry is the analysis of a type that occurs: it holds that type's
      causes, of which there is at least one, and counts its occurrences, of
      which there is at least one. */
  lemma SoundAnalyses(causesOf: CausesOf, types: seq<string>)
    ensures forall a :: a in SortDesc(Analyses(causesOf, Distinct(types), types), CountOf) ==>
      a.symptom in types && a == AnalysisOf(causesOf, a.symptom, types)
      && a.possibleCauses != [] && a.count > 0
  {
    var pre := Analyses(causesOf, Distinct(types), types);
    SortDescFacts(pre, CountOf);
    forall a | a in pre
      ensures a.symptom in types && a == AnalysisOf(causesOf, a.symptom, types)
        && a.possibleCauses != [] && a.count > 0
    {
      var k :| 0 <= k < |pre| && pre[k] == a;
      SoundAnalysisAt(causesOf, types, k);
    }
  }

  lemma SoundAnalysisAt(causesOf: CausesOf, types: seq<string>, k: nat)
    requires k < |Analyses(causesOf, Distinct(types), types)|
    ensures var a := Analyses(causesOf, Distinct(types), types)[k];
      a.symptom in types && a == AnalysisOf(causesOf, a.symptom, types)
      && a.possibleCauses != [] && a.count > 0
  {
    var d := Distinct(types);
    var fl := Filter(d, HasCause(causesOf));
    var t := fl[k];
    FilterMembers(d, HasCause(causesOf));
    assert t in fl;
    FilterMembers(types, IsType(t));
    assert t in Filter(types, IsType(t));
  }

  // The same, for `analyzeAllSymptoms`

  /** Sorted by count, largest first; each type at most once; a type is
      there exactly when it occurs among the symptoms and has a cause, and its
      entry holds its causes and counts its occurrences. */
  lemma AnalyzeAllFacts(tables: Tables, types: seq<string>, meds: Option<seq<Option<string>>>)
    requires |types| > 0 && meds.Some? && |meds.value| > 0
    ensures var r := AnalyzeAll(tables, Some(types), meds);
      SortedDesc(r, CountOf)
      && DistinctBy(r, SymptomOf)
      && (forall t :: t in types && SymptomCauses(tables, t, meds) != [] ==>
            AnalysisOf(CausesFn(tables, meds), t, types) in r)
      && (forall a :: a in r ==>
            a.symptom in types && SymptomCauses(tables, a.symptom, meds) != []
            && a.possibleCauses == SymptomCauses(tables, a.symptom, meds)
            && a.count == Count(types, IsType(a.symptom)) && a.count > 0)
  {
    var causesOf := CausesFn(tables, meds);
    SortedAnalyses(causesOf, types);
    DistinctAnalyses(causesOf, types);
    CompleteAnalyses(causesOf, types);
    SoundAnalyses(causesOf, types);
  }

  /** Ties keep first-seen order: the entries sharing a count appear in the
      order their types were first seen. */
  lemma AnalyzeAllStable(tables: Tables, types: seq<string>, meds: Option<seq<Option<string>>>, c: int)
    requires |types| > 0 && meds.Some? && |meds.value| > 0
    ensures Filter(AnalyzeAll(tables, Some(types), meds), KeyIs(CountOf, c))
         == Filter(Analyses(CausesFn(tables, meds), Distinct(types), types), KeyIs(CountOf, c))
  {
    SortDescStable(Analyses(CausesFn(tables, meds), Distinct(types), types), CountOf, c);
  }

  // ---------------------------------------------------------------------
  // The alert store

  function NotAcknowledged(acknowledged: seq<string>): Detected -> bool {
    (a: Detected) => a.id !in acknowledged
  }

  function OtherId(id: string): Detected -> bool {
    (a: Detected) => a.id != id
  }

  function IsHigh(a: Detected): bool {
    a.severity == High
  }

  /** The module-level alert state: the active alerts and the ids the user
      has acknowledged. Saving to local storage is not modelled. */
  class AlertStore {
    var active: seq<Detected>
    var acknowledged: seq<string>

    /** No active alert is acknowledged, and no id is acknowledged twice. */
    ghost predicate Valid()
      reads this
    {
      (forall k :: 0 <= k < |active| ==> active[k].id !in acknowledged)
      && NoDuplicates(acknowledged)
    }

    constructor()
      ensures Valid() && active == [] && acknowledged == []
    {
      active := [];
      acknowledged := [];
    }

    /** `updateAlerts`: the scan results whose id is not acknowledged. */
    method UpdateAlerts(tables: Tables, meds: Option<seq<Option<string>>>)
      requires Valid()
      modifies this
      ensures Valid()
      ensures active == Filter(Scan(tables, meds), NotAcknowledged(acknowledged))
      ensures acknowledged == old(acknowledged)
    {
      var interactions := CheckInteractions(tables, meds);
      active := Filter(interactions, NotAcknowledged(acknowledged));
      FilterMembers(interactions, NotAcknowledged(acknowledged));
      forall k | 0 <= k < |active| ensures active[k].id !in acknowledged {
        assert active[k] in active;
      }
    }

    /** `acknowledgeAlert`: a new id is recorded once and its alerts leave
        the active list; an id already recorded changes nothing. */
    method AcknowledgeAlert(id: string)
      requires Valid()
      modifies this
      ensures Valid()
      ensures old(id in acknowledged) ==> active == old(active) && acknowledged == old(acknowledged)
      ensures old(id !in acknowledged) ==>
        acknowledged == old(acknowledged) + [id] && active == Filter(old(active), OtherId(id))
    {
      if id !in acknowledged {
        acknowledged := acknowledged + [id];
        var kept := Filter(active, OtherId(id));
        FilterMembers(active, OtherId(id));
        forall k | 0 <= k < |kept| ensures kept[k].id !in acknowledged {
          assert kept[k] in kept;
          assert kept[k] in active;
          var m :| 0 <= m < |active| && active[m] == kept[k];
        }
        active := kept;
      }
    }

    /** `resetAcknowledgedAlerts`: forgets every acknowledgement and leaves
        the active list as it is. */
    method ResetAcknowledgedAlerts()
      requires Valid()
      modifies this
      ensures Valid()
      ensures acknowledged == [] && active == old(active)
    {
      acknowledged := [];
    }

    /** `highSeverityAlerts`: every active alert of high severity, as often
        as it is active, in the order of the active list, and nothing else. */
    function HighSeverityAlerts(): (r: seq<Detected>)
      reads this
      ensures forall a :: a in r <==> a in active && a.severity == High
      ensures forall a: Detected :: a.severity == High ==> multiset(r)[a] == multiset(active)[a]
      ensures IsSubsequence(r, active)
    {
      FilterMembers(active, IsHigh);
      FilterOrderAndMultiplicity(active, IsHigh);
      Filter(active, IsHigh)
    }

    /** `hasActiveAlerts`. */
    function HasActiveAlerts(): (r: bool)
      reads this
      ensures r <==> |active| > 0
    {
      |active| > 0
    }

    /** `alertCount`. */
    function AlertCount(): nat
      reads this
    {
      |active|
    }
  }

  /** There are active alerts exactly when the count is positive, and the
      high-severity alerts and the others make up the count. */
  lemma AlertCountsAgree(store: AlertStore)
    ensures store.HasActiveAlerts() <==> store.AlertCount() > 0
    ensures |store.HighSeverityAlerts()| + Count(store.active, Negate(IsHigh)) == store.AlertCount()
  {
    FilterSplit(store.active, IsHigh);
  }

  /** Acknowledging the same id twice is acknowledging it once. */
  method AcknowledgeTwice(store: AlertStore, id: string)
    requires store.Valid()
    modifies store
    ensures store.Valid()
    ensures id in store.acknowledged
    ensures old(id !in store.acknowledged) ==> store.acknowledged == old(store.acknowledged) + [id]
    ensures old(id in store.acknowledged) ==> store.acknowledged == old(store.acknowledged)
    ensures forall k :: 0 <= k < |store.active| ==> store.active[k].id != id
  {
    store.AcknowledgeAlert(id);
    store.AcknowledgeAlert(id);
  }
}
