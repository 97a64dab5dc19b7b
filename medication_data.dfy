/** The medication reference data and the name matching built on it: the
    normaliser, the similarity test, the side-effect lookup and the
    drug-class lookup (all pure). */
module MedicationData {
  import opened Wrappers
  import opened Seqs
  import opened Text

  datatype Severity = Low | Moderate | High

  /** A known interaction between two drugs, with the symptoms it may cause. */
  datatype Interaction = Interaction(
    drug1: string, drug2: string, severity: Severity,
    description: string, recommendation: string, symptoms: seq<string>)

  /** A side-effect record: a drug name and the symptom types it may cause. */
  type SideEffects = (string, seq<string>)

  // ---------------------------------------------------------------------
  // Normalisation

  /** One character through `toLowerCase`, canonical decomposition (NFD) and
      removal of the combining marks U+0300..U+036F, for the Latin-1 range:
      capitals become small letters and accented letters lose the accent.
      Letters without a decomposition (æ, ø, ð, þ, ß) are kept as they are,
      and so is every character beyond U+00FF. */
  function FoldChar(c: char): (r: char)
    ensures IsAsciiUpper(c) ==> r == LowerChar(c)
    ensures IsAsciiLower(c) || IsDigit(c) ==> r == c
  {
    var l := LowerChar(c);
    if '\U{00E0}' <= l <= '\U{00E5}' then 'a'
    else if l == '\U{00E7}' then 'c'
    else if '\U{00E8}' <= l <= '\U{00EB}' then 'e'
    else if '\U{00EC}' <= l <= '\U{00EF}' then 'i'
    else if l == '\U{00F1}' then 'n'
    else if '\U{00F2}' <= l <= '\U{00F6}' then 'o'
    else if '\U{00F9}' <= l <= '\U{00FC}' then 'u'
    else if l == '\U{00FD}' || l == '\U{00FF}' then 'y'
    else l
  }

  /** The characters a normalised name is made of: `[a-z0-9]`. */
  predicate IsNameChar(c: char) {
    IsAsciiLower(c) || IsDigit(c)
  }

  /** The normaliser on a string: fold every character, then keep only
      `[a-z0-9]`. The final `trim` of the source has nothing left to remove. */
  function NormalizeString(s: string): (r: string)
    ensures |r| <= |s|
    ensures forall i :: 0 <= i < |r| ==> IsNameChar(r[i])
  {
    if |s| == 0 then ""
    else (if IsNameChar(FoldChar(s[0])) then [FoldChar(s[0])] else "") + NormalizeString(s[1..])
  }

  /** `normalizeMedicationName`: a missing name normalises to the empty string. */
  function Normalize(name: Option<string>): (r: string)
    ensures name.None? ==> r == ""
    ensures forall i :: 0 <= i < |r| ==> IsNameChar(r[i])
  {
    match name
    case None => ""
    case Some(s) => NormalizeString(s)
  }

  /** A string already made of `[a-z0-9]` is its own normal form. */
  lemma {:induction false} NormalizeStringFixes(s: string)
    requires forall i :: 0 <= i < |s| ==> IsNameChar(s[i])
    ensures NormalizeString(s) == s
  {
    if |s| > 0 {
      NormalizeStringFixes(s[1..]);
      assert s == [s[0]] + s[1..];
    }
  }

  /** Normalising twice is normalising once. */
  lemma NormalizeIdempotent(name: Option<string>)
    ensures NormalizeString(Normalize(name)) == Normalize(name)
  {
    NormalizeStringFixes(Normalize(name));
  }

  /** Folding a character that is already lower-case changes nothing more. */
  lemma FoldLowerChar(c: char)
    ensures FoldChar(LowerChar(c)) == FoldChar(c)
  {
    LowerCharIdempotent(c);
  }

  /** Letter case makes no difference to the normal form. */
  lemma {:induction false} NormalizeIgnoresCase(s: string)
    ensures NormalizeString(Lower(s)) == NormalizeString(s)
  {
    if |s| > 0 {
      NormalizeIgnoresCase(s[1..]);
      FoldLowerChar(s[0]);
      assert Lower(s)[1..] == Lower(s[1..]);
    }
  }

  /** Each accented letter of the Latin-1 range, capital or small, folds to
      the base letter canonical decomposition leaves once the combining
      marks: À..Å and à..å to "a", Ç and ç to "c", È..Ë and è..ë to "e",
      Ì..Ï and ì..ï to "i"; `FoldAccentsNtoY` has the rest. */
  lemma FoldAccents()
    ensures forall c :: c in "\U{00C0}\U{00C1}\U{00C2}\U{00C3}\U{00C4}\U{00C5}\U{00E0}\U{00E1}\U{00E2}\U{00E3}\U{00E4}\U{00E5}" ==> FoldChar(c) == 'a'
    ensures forall c :: c in "\U{00C7}\U{00E7}" ==> FoldChar(c) == 'c'
    ensures forall c :: c in "\U{00C8}\U{00C9}\U{00CA}\U{00CB}\U{00E8}\U{00E9}\U{00EA}\U{00EB}" ==> FoldChar(c) == 'e'
    ensures forall c :: c in "\U{00CC}\U{00CD}\U{00CE}\U{00CF}\U{00EC}\U{00ED}\U{00EE}\U{00EF}" ==> FoldChar(c) == 'i'
  {
  }

  /** Ñ and ñ fold to "n", Ò..Ö and ò..ö to "o", Ù..Ü and ù..ü to "u", and
      Ý, ý and ÿ to "y". */
  lemma FoldAccentsNtoY()
    ensures forall c :: c in "\U{00D1}\U{00F1}" ==> FoldChar(c) == 'n'
    ensures forall c :: c in "\U{00D2}\U{00D3}\U{00D4}\U{00D5}\U{00D6}\U{00F2}\U{00F3}\U{00F4}\U{00F5}\U{00F6}" ==> FoldChar(c) == 'o'
    ensures forall c :: c in "\U{00D9}\U{00DA}\U{00DB}\U{00DC}\U{00F9}\U{00FA}\U{00FB}\U{00FC}" ==> FoldChar(c) == 'u'
    ensures forall c :: c in "\U{00DD}\U{00FD}\U{00FF}" ==> FoldChar(c) == 'y'
  {
  }

  /** The rest of the range has no decomposition (Æ, Ð, ×, Ø, Þ, ß, æ, ð,
      ÷, ø, þ) and is only lower-cased. */
  lemma FoldUndecomposed()
    ensures forall c :: c in "\U{00C6}\U{00D0}\U{00D7}\U{00D8}\U{00DE}\U{00DF}\U{00E6}\U{00F0}\U{00F7}\U{00F8}\U{00FE}" ==> FoldChar(c) == LowerChar(c)
  {
  }

  // ---------------------------------------------------------------------
  // Similarity

  /** `isSameMedication`: the normalised names are equal or one contains the other. */
  predicate IsSameMedication(name1: Option<string>, name2: Option<string>) {
    var n1 := Normalize(name1);
    var n2 := Normalize(name2);
    n1 == n2 || Contains(n1, n2) || Contains(n2, n1)
  }

  /** Equal normal forms contain each other, so similarity is containment
      either way round; in particular it is symmetric. */
  lemma SameMedicationIff(name1: Option<string>, name2: Option<string>)
    ensures IsSameMedication(name1, name2)
        <==> Contains(Normalize(name1), Normalize(name2)) || Contains(Normalize(name2), Normalize(name1))
    ensures IsSameMedication(name1, name2) == IsSameMedication(name2, name1)
  {
    ContainsSelf(Normalize(name1));
  }

  /** A name that normalises to the empty string is similar to every name. */
  lemma EmptyNameMatchesAll(name1: Option<string>, name2: Option<string>)
    requires Normalize(name1) == ""
    ensures IsSameMedication(name1, name2) && IsSameMedication(name2, name1)
  {
    ContainsEmpty(Normalize(name2));
  }

  // ---------------------------------------------------------------------
  // Side-effect lookup

  /** `findMedicationInDatabase`: the first side-effect record, in table order,
      whose drug is similar to `name`. */
  function FindMedicationIn(table: seq<SideEffects>, name: Option<string>): (r: Option<SideEffects>)
    ensures r.Some? ==> r.value in table && IsSameMedication(name, Some(r.value.0))
    ensures r.None? <==> forall k :: 0 <= k < |table| ==> !IsSameMedication(name, Some(table[k].0))
  {
    match FirstIndex(table, SameAs(name))
    case None => None
    case Some(i) => Some(table[i])
  }

  function SameAs(name: Option<string>): SideEffects -> bool {
    (e: SideEffects) => IsSameMedication(name, Some(e.0))
  }

  function FindMedicationInDatabase(name: Option<string>): Option<SideEffects> {
    FindMedicationIn(MedicationSideEffects, name)
  }

  /** The record found is the first similar one: it is similar, and no earlier record is. */
  lemma FindMedicationFirst(table: seq<SideEffects>, name: Option<string>, i: nat)
    requires i < |table| && IsSameMedication(name, Some(table[i].0))
    requires forall k :: 0 <= k < i ==> !IsSameMedication(name, Some(table[k].0))
    ensures FindMedicationIn(table, name) == Some(table[i])
  {
    FirstIndexUnique(table, SameAs(name), i);
  }

  /** An empty normal form matches the table's first record. */
  lemma FindEmptyName(table: seq<SideEffects>, name: Option<string>)
    requires Normalize(name) == "" && |table| > 0
    ensures FindMedicationIn(table, name) == Some(table[0])
  {
    EmptyNameMatchesAll(name, Some(table[0].0));
    FindMedicationFirst(table, name, 0);
  }

  // ---------------------------------------------------------------------
  // Drug classes

  /** The drug classes of `getMedicationClass`, in declaration order, each
      with its members as normalised names. */
  const MedicationClasses: seq<(string, seq<string>)> := Zip(ClassList, ClassMembers)

  /** The members of each class, in the order of `ClassList`. */
  const ClassMembers: seq<seq<string>> := [
    ["ibuprofeno", "naproxeno", "diclofenaco", "aspirina", "nimesulida", "piroxicam"],
    ["fluoxetina", "sertralina", "escitalopram", "paroxetina", "venlafaxina", "duloxetina", "amitriptilina", "bupropiona"],
    ["alprazolam", "clonazepam", "diazepam", "lorazepam", "bromazepam"],
    ["losartana", "enalapril", "lisinopril", "captopril", "anlodipino", "valsartana"],
    ["atenolol", "propranolol", "metoprolol", "carvedilol"],
    ["sinvastatina", "atorvastatina", "rosuvastatina", "pravastatina"],
    ["hidroclorotiazida", "furosemida", "espironolactona", "indapamida"],
    ["varfarina", "rivaroxabana", "apixabana", "dabigatrana", "clopidogrel"],
    ["metformina", "glibenclamida", "glicazida", "sitagliptina"],
    ["omeprazol", "pantoprazol", "esomeprazol", "lansoprazol"]
  ]

  /** Pairs each name with the member list at the same position. */
  function Zip(names: seq<string>, members: seq<seq<string>>): (r: seq<(string, seq<string>)>)
    requires |names| == |members|
    ensures |r| == |names|
    ensures forall i :: 0 <= i < |r| ==> r[i] == (names[i], members[i])
  {
    seq(|names|, i requires 0 <= i < |names| => (names[i], members[i]))
  }

  /** The class names, in order. */
  function ClassNames(classes: seq<(string, seq<string>)>): (r: seq<string>)
    ensures |r| == |classes|
    ensures forall i :: 0 <= i < |r| ==> r[i] == classes[i].0
  {
    if |classes| == 0 then [] else [classes[0].0] + ClassNames(classes[1..])
  }

  /** Some member of the class contains the normalised name or is contained in it. */
  predicate InClass(name: string, members: seq<string>) {
    exists m :: m in members && (Contains(name, m) || Contains(m, name))
  }

  /** `getMedicationClass` over a class table: the first class one of whose
      members the normalised name contains or is contained in. */
  function GetMedicationClassIn(classes: seq<(string, seq<string>)>, name: Option<string>): (r: Option<string>)
    ensures r.Some? ==> r.value in ClassNames(classes)
    ensures r.None? <==> forall k :: 0 <= k < |classes| ==> !InClass(Normalize(name), classes[k].1)
  {
    match FirstIndex(classes, ClassMatches(Normalize(name)))
    case None => None
    case Some(i) => Some(classes[i].0)
  }

  function ClassMatches(n: string): ((string, seq<string>)) -> bool {
    (c: (string, seq<string>)) => InClass(n, c.1)
  }

  function GetMedicationClass(name: Option<string>): Option<string> {
    GetMedicationClassIn(MedicationClasses, name)
  }

  /** The class found is the first matching class in table order. */
  lemma GetMedicationClassFirst(classes: seq<(string, seq<string>)>, name: Option<string>, i: nat)
    requires i < |classes| && InClass(Normalize(name), classes[i].1)
    requires forall k :: 0 <= k < i ==> !InClass(Normalize(name), classes[k].1)
    ensures GetMedicationClassIn(classes, name) == Some(classes[i].0)
  {
    FirstIndexUnique(classes, ClassMatches(Normalize(name)), i);
  }

  /** Every class lookup yields one of the ten class names. */
  lemma GetMedicationClassRange(name: Option<string>)
    ensures GetMedicationClass(name).Some? ==> GetMedicationClass(name).value in ClassList
  {
    ClassNamesValue();
    var r := GetMedicationClassIn(MedicationClasses, name);
    assert r.Some? ==> r.value in ClassNames(MedicationClasses);
  }

  lemma ClassNamesValue()
    ensures ClassNames(MedicationClasses) == ClassList
  {
    var names := ClassNames(MedicationClasses);
    assert |names| == |ClassList|;
    forall i | 0 <= i < |names| ensures names[i] == ClassList[i] {
      assert names[i] == MedicationClasses[i].0;
    }
  }

  const ClassList: seq<string> :=
    ["anti-inflamatorio", "antidepressivo", "ansiolitico", "antihipertensivo", "betabloqueador",
     "estatina", "diuretico", "anticoagulante", "antidiabetico", "inibidor_bomba_protons"]

  /** A name with an empty normal form belongs to the first class, because
      every member contains the empty string. */
  lemma EmptyNameClass(name: Option<string>)
    requires Normalize(name) == ""
    ensures GetMedicationClass(name) == Some("anti-inflamatorio")
  {
    ContainsEmpty(MedicationClasses[0].1[0]);
    assert InClass(Normalize(name), MedicationClasses[0].1);
    GetMedicationClassFirst(MedicationClasses, name, 0);
  }

  // ---------------------------------------------------------------------
  // Tables

  /** `MEDICATION_INTERACTIONS`, in declaration order. */
  const MedicationInteractions: seq<Interaction> := [
      Interaction("Aspirina", "Ibuprofeno", Moderate,
        "Podem aumentar o risco de sangramento gastrointestinal.",
        "Evite tomar juntos. Se necessario, use com intervalo de 8 horas.",
        ["nausea", "dor_abdominal", "fadiga"]),
      Interaction("Aspirina", "Naproxeno", Moderate,
        "Risco aumentado de ulcera e sangramento gastrico.",
        "Evite combinar. Consulte seu medico.",
        ["nausea", "dor_abdominal"]),
      Interaction("Ibuprofeno", "Naproxeno", Moderate,
        "Duplica o risco de efeitos colaterais gastrointestinais.",
        "Nao use dois anti-inflamatorios juntos.",
        ["nausea", "dor_abdominal", "tontura"]),
      Interaction("Diclofenaco", "Ibuprofeno", Moderate,
        "Aumenta risco de problemas renais e gastrointestinais.",
        "Evite usar juntos.",
        ["nausea", "fadiga", "tontura"]),
      Interaction("Varfarina", "Aspirina", High,
        "Risco muito alto de sangramento.",
        "Combinacao perigosa. Requer monitoramento rigoroso.",
        ["fadiga", "tontura", "falta_ar"]),
      Interaction("Varfarina", "Ibuprofeno", High,
        "Anti-inflamatorios aumentam efeito anticoagulante.",
        "Consulte seu médico sobre alternativas seguras para dor.",
        ["fadiga", "tontura"]),
      Interaction("Varfarina", "Vitamina K", Moderate,
        "Vitamina K reduz o efeito anticoagulante.",
        "Mantenha consumo constante de vitamina K.",
        []),
      Interaction("Clopidogrel", "Omeprazol", High,
        "Omeprazol pode reduzir a eficacia do Clopidogrel em ate 50%.",
        "Consulte seu médico sobre alternativas compatíveis.",
        []),
      Interaction("Rivaroxabana", "Aspirina", High,
        "Risco significativo de sangramento.",
        "Use apenas sob orientacao medica rigorosa.",
        ["fadiga", "tontura"]),
      Interaction("Fluoxetina", "Tramadol", High,
        "Risco de sindrome serotoninergica - pode ser fatal.",
        "Evite essa combinacao. Consulte seu medico imediatamente.",
        ["febre", "ansiedade", "tremor", "confusao", "tontura"]),
      Interaction("Sertralina", "Tramadol", High,
        "Risco de sindrome serotoninergica.",
        "Combinacao perigosa. Busque alternativas.",
        ["febre", "ansiedade", "tremor", "confusao"]),
      Interaction("Fluoxetina", "IMAO", High,
        "Interacao potencialmente fatal.",
        "Nunca combine. Aguarde 5 semanas entre medicamentos.",
        ["febre", "ansiedade", "confusao", "tremor"]),
      Interaction("Paroxetina", "Tamoxifeno", High,
        "Paroxetina reduz eficacia do tamoxifeno.",
        "Use outro antidepressivo. Consulte oncologista.",
        []),
      Interaction("Antidepressivo", "Anti-inflamatorio", Moderate,
        "Aumenta risco de sangramento gastrointestinal.",
        "Use com cautela. Monitore sinais de sangramento.",
        ["nausea", "dor_abdominal"]),
      Interaction("Fluoxetina", "Alprazolam", Moderate,
        "Fluoxetina aumenta niveis de alprazolam no sangue.",
        "Pode ser necessario ajustar dose do alprazolam.",
        ["tontura", "fadiga", "confusao"]),
      Interaction("Losartana", "Espironolactona", Moderate,
        "Risco de hipercalemia (potassio alto).",
        "Monitore niveis de potassio regularmente.",
        ["fadiga", "fraqueza", "palpitacao", "nausea"]),
      Interaction("Enalapril", "Espironolactona", Moderate,
        "Risco de hipercalemia.",
        "Monitore potassio. Evite suplementos de potassio.",
        ["fadiga", "fraqueza", "palpitacao"]),
      Interaction("Sinvastatina", "Amiodarona", High,
        "Risco aumentado de miopatia e rabdomiolise.",
        "Limite dose de sinvastatina a 20mg ou use alternativa.",
        ["dor_muscular", "fadiga", "fraqueza"]),
      Interaction("Sinvastatina", "Diltiazem", Moderate,
        "Diltiazem aumenta niveis de sinvastatina.",
        "Limite dose de sinvastatina a 10mg.",
        ["dor_muscular", "fadiga"]),
      Interaction("Atenolol", "Verapamil", High,
        "Risco de bradicardia severa e bloqueio cardiaco.",
        "Combinacao perigosa. Monitoramento cardiaco necessario.",
        ["tontura", "fadiga", "falta_ar", "palpitacao"]),
      Interaction("Propranolol", "Insulina", Moderate,
        "Betabloqueadores mascaram sintomas de hipoglicemia.",
        "Monitore glicemia com mais frequencia.",
        ["tontura", "tremor", "confusao"]),
      Interaction("Digoxina", "Amiodarona", High,
        "Amiodarona aumenta niveis de digoxina em 70-100%.",
        "Reduza dose de digoxina pela metade.",
        ["nausea", "tontura", "palpitacao", "confusao"]),
      Interaction("Metformina", "Contraste iodado", High,
        "Risco de acidose latica - pode ser fatal.",
        "Suspenda metformina 48h antes e apos exames com contraste.",
        ["nausea", "fadiga", "dor_abdominal", "falta_ar"]),
      Interaction("Metformina", "Alcool", Moderate,
        "Alcool aumenta risco de acidose latica.",
        "Limite consumo de alcool.",
        ["nausea", "tontura", "fadiga"]),
      Interaction("Glibenclamida", "Fluconazol", Moderate,
        "Fluconazol aumenta efeito hipoglicemiante.",
        "Monitore glicemia frequentemente.",
        ["tontura", "tremor", "fadiga", "confusao"]),
      Interaction("Ciprofloxacino", "Antiácido", Moderate,
        "Antiacidos reduzem absorcao do antibiotico.",
        "Tome com intervalo de 2 horas.",
        []),
      Interaction("Metronidazol", "Alcool", High,
        "Causa reacao tipo dissulfiram - nausea severa, vomito.",
        "Evite alcool durante e 48h apos tratamento.",
        ["nausea", "dor_cabeca", "tontura", "palpitacao"]),
      Interaction("Eritromicina", "Sinvastatina", High,
        "Aumenta muito os niveis de sinvastatina.",
        "Suspenda estatina durante uso do antibiotico.",
        ["dor_muscular", "fadiga"]),
      Interaction("Claritromicina", "Colchicina", High,
        "Pode causar toxicidade fatal da colchicina.",
        "Evite combinacao. Use alternativa.",
        ["nausea", "dor_abdominal", "diarreia", "fadiga"]),
      Interaction("Paracetamol", "Alcool", Moderate,
        "Alcool aumenta risco de dano hepatico.",
        "Evite alcool se usar paracetamol regularmente.",
        ["nausea", "fadiga", "dor_abdominal"]),
      Interaction("Tramadol", "Carbamazepina", Moderate,
        "Carbamazepina reduz efeito do tramadol.",
        "Pode ser necessaria dose maior de tramadol.",
        []),
      Interaction("Litio", "Ibuprofeno", High,
        "AINEs aumentam niveis de litio - risco de toxicidade.",
        "Consulte seu médico sobre alternativas seguras para dor.",
        ["tremor", "nausea", "tontura", "confusao", "diarreia"]),
      Interaction("Litio", "Diuretico", High,
        "Diureticos aumentam niveis de litio.",
        "Monitore litemia frequentemente.",
        ["tremor", "nausea", "confusao"]),
      Interaction("Clozapina", "Carbamazepina", High,
        "Combinacao aumenta risco de agranulocitose.",
        "Contraindicacao absoluta. Nao combine.",
        ["febre", "fadiga", "infeccao"]),
      Interaction("Haloperidol", "Metoclopramida", Moderate,
        "Aumenta risco de sintomas extrapiramidais.",
        "Evite combinacao ou monitore de perto.",
        ["tremor", "rigidez", "inquietacao"]),
      Interaction("Levotiroxina", "Calcio", Low,
        "Calcio reduz absorcao da levotiroxina.",
        "Tome com intervalo de 4 horas.",
        ["fadiga"]),
      Interaction("Levotiroxina", "Omeprazol", Low,
        "IBPs podem reduzir absorcao da levotiroxina.",
        "Tome levotiroxina em jejum, 1h antes de outros medicamentos.",
        ["fadiga"]),
      Interaction("Anticoncepcional", "Rifampicina", High,
        "Rifampicina reduz muito a eficacia do anticoncepcional.",
        "Use metodo contraceptivo adicional.",
        []),
      Interaction("Anticoncepcional", "Carbamazepina", Moderate,
        "Carbamazepina reduz eficacia do anticoncepcional.",
        "Considere metodo adicional ou alternativa.",
        []),
      Interaction("Teofilina", "Ciprofloxacino", Moderate,
        "Ciprofloxacino aumenta niveis de teofilina.",
        "Reduza dose de teofilina ou use outro antibiotico.",
        ["nausea", "palpitacao", "ansiedade", "tremor"]),
      Interaction("Salbutamol", "Propranolol", Moderate,
        "Betabloqueadores reduzem efeito broncodilatador.",
        "Evite betabloqueadores nao seletivos em asmaticos.",
        ["falta_ar", "tosse"])
  ]

  /** `MEDICATION_SIDE_EFFECTS` as its `Object.entries`, in insertion order. */
  const MedicationSideEffects: seq<SideEffects> := [
      ("Ibuprofeno", ["nausea", "dor_abdominal", "tontura", "dor"]),
      ("Naproxeno", ["nausea", "dor_abdominal", "tontura"]),
      ("Diclofenaco", ["nausea", "dor_abdominal", "tontura", "dor"]),
      ("Aspirina", ["nausea", "dor_abdominal"]),
      ("Paracetamol", ["nausea"]),
      ("Losartana", ["tontura", "fadiga", "dor"]),
      ("Enalapril", ["tosse", "tontura", "fadiga"]),
      ("Lisinopril", ["tosse", "tontura", "fadiga"]),
      ("Captopril", ["tosse", "tontura"]),
      ("Atenolol", ["fadiga", "tontura", "insonia"]),
      ("Propranolol", ["fadiga", "tontura", "insonia", "falta_ar"]),
      ("Metoprolol", ["fadiga", "tontura"]),
      ("Anlodipino", ["tontura", "fadiga", "edema"]),
      ("Sinvastatina", ["dor", "fadiga"]),
      ("Atorvastatina", ["dor", "fadiga", "nausea"]),
      ("Hidroclorotiazida", ["tontura", "fadiga"]),
      ("Furosemida", ["tontura", "fadiga"]),
      ("Metformina", ["nausea", "diarreia", "dor_abdominal"]),
      ("Glibenclamida", ["tontura", "nausea"]),
      ("Insulina", ["tontura", "tremor"]),
      ("Fluoxetina", ["insonia", "ansiedade", "nausea", "dor", "fadiga"]),
      ("Sertralina", ["insonia", "nausea", "dor", "tontura"]),
      ("Escitalopram", ["insonia", "nausea", "fadiga"]),
      ("Paroxetina", ["insonia", "nausea", "tontura", "fadiga"]),
      ("Venlafaxina", ["nausea", "insonia", "tontura", "ansiedade"]),
      ("Duloxetina", ["nausea", "fadiga", "tontura", "insonia"]),
      ("Amitriptilina", ["tontura", "fadiga", "boca_seca"]),
      ("Bupropiona", ["insonia", "dor", "ansiedade"]),
      ("Alprazolam", ["tontura", "fadiga"]),
      ("Clonazepam", ["tontura", "fadiga"]),
      ("Diazepam", ["tontura", "fadiga"]),
      ("Lorazepam", ["tontura", "fadiga"]),
      ("Risperidona", ["tontura", "fadiga", "tremor"]),
      ("Quetiapina", ["tontura", "fadiga"]),
      ("Olanzapina", ["tontura", "fadiga"]),
      ("Haloperidol", ["tremor", "rigidez", "tontura"]),
      ("Litio", ["tremor", "nausea", "diarreia", "fadiga"]),
      ("Valproato", ["nausea", "tontura", "tremor"]),
      ("Carbamazepina", ["tontura", "fadiga", "nausea"]),
      ("Lamotrigina", ["tontura", "dor", "nausea"]),
      ("Omeprazol", ["dor", "nausea", "diarreia"]),
      ("Pantoprazol", ["dor", "nausea"]),
      ("Ranitidina", ["dor", "tontura"]),
      ("Amoxicilina", ["nausea", "diarreia"]),
      ("Azitromicina", ["nausea", "diarreia", "dor_abdominal"]),
      ("Ciprofloxacino", ["nausea", "tontura", "dor"]),
      ("Metronidazol", ["nausea", "dor_abdominal", "tontura"]),
      ("Levotiroxina", ["palpitacao", "ansiedade", "tremor", "insonia"]),
      ("Prednisona", ["insonia", "ansiedade", "fadiga"]),
      ("Tramadol", ["nausea", "tontura", "fadiga"]),
      ("Codeina", ["nausea", "tontura", "fadiga"]),
      ("Salbutamol", ["tremor", "palpitacao", "ansiedade"]),
      ("Teofilina", ["nausea", "palpitacao", "ansiedade", "tremor"])
  ]
}
