/** The disease catalogue, a simplified list of ICD-10 codes grouped by
    category, and its queries: lookup by id, by category and by search term,
    and the tally of common symptoms over a list of disease ids. */
module Diseases {
  import opened Wrappers
  import opened Seqs
  import opened Text
  import opened SymptomTally

  datatype Category = Category(id: string, name: string, color: string)

  /** `DISEASE_CATEGORIES`. */
  const DiseaseCategories: seq<Category> := [
    Category("mental", "Sa\U{00FA}de Mental", "teal"),
    Category("cardiovascular", "Cardiovascular", "red"),
    Category("respiratory", "Respirat\U{00F3}rio", "blue"),
    Category("endocrine", "End\U{00F3}crino/Metab\U{00F3}lico", "orange"),
    Category("neurological", "Neurol\U{00F3}gico", "indigo"),
    Category("musculoskeletal", "Musculoesquel\U{00E9}tico", "green"),
    Category("gastrointestinal", "Gastrointestinal", "yellow"),
    Category("dermatological", "Dermatol\U{00F3}gico", "pink"),
    Category("immunological", "Imunol\U{00F3}gico", "teal"),
    Category("other", "Outras", "gray")
  ]

  datatype Disease = Disease(
    id: string, code: string, name: string, category: string, commonSymptoms: seq<string>)

  /** One line of the table: the ICD-10 code, which is also the id, the
      name and the common symptoms. */
  datatype Row = Row(code: string, name: string, symptoms: seq<string>)

  /** The lines of one category, in table order. */
  datatype Block = Block(category: string, rows: seq<Row>)

  const Mental: seq<Row> := [
    Row("F32", "Depress\U{00E3}o", ["fadiga", "insonia", "ansiedade"]),
    Row("F41", "Transtorno de Ansiedade Generalizada", ["ansiedade", "insonia", "dor"]),
    Row("F41.0", "Transtorno de P\U{00E2}nico", ["ansiedade", "dor"]),
    Row("F41.1", "Ansiedade Generalizada", ["ansiedade", "insonia"]),
    Row("F31", "Transtorno Bipolar", ["insonia", "fadiga", "ansiedade"]),
    Row("F20", "Esquizofrenia", ["insonia", "ansiedade"]),
    Row("F42", "Transtorno Obsessivo-Compulsivo (TOC)", ["ansiedade", "insonia"]),
    Row("F43.1", "Transtorno de Estresse P\U{00F3}s-Traum\U{00E1}tico", ["ansiedade", "insonia", "fadiga"]),
    Row("F50.0", "Anorexia Nervosa", ["fadiga", "enjoo"]),
    Row("F50.2", "Bulimia Nervosa", ["enjoo", "fadiga"]),
    Row("F90", "TDAH - D\U{00E9}ficit de Aten\U{00E7}\U{00E3}o e Hiperatividade", ["ansiedade", "insonia"]),
    Row("F33", "Transtorno Depressivo Recorrente", ["fadiga", "insonia", "ansiedade"]),
    Row("F40", "Fobias", ["ansiedade"]),
    Row("F51", "Dist\U{00FA}rbios do Sono", ["insonia", "fadiga"])
  ]

  const Cardiovascular: seq<Row> := [
    Row("I10", "Hipertens\U{00E3}o Arterial", ["dor", "fadiga"]),
    Row("I25", "Doen\U{00E7}a Card\U{00ED}aca Isqu\U{00EA}mica", ["dor", "fadiga"]),
    Row("I50", "Insufici\U{00EA}ncia Card\U{00ED}aca", ["fadiga", "dor"]),
    Row("I20", "Angina", ["dor"]),
    Row("I48", "Arritmia Card\U{00ED}aca", ["fadiga", "ansiedade"]),
    Row("I83", "Varizes", ["dor", "fadiga"])
  ]

  const Respiratory: seq<Row> := [
    Row("J45", "Asma", ["fadiga", "ansiedade"]),
    Row("J44", "DPOC - Doen\U{00E7}a Pulmonar Obstrutiva Cr\U{00F4}nica", ["fadiga"]),
    Row("J30", "Rinite Al\U{00E9}rgica", ["dor", "fadiga"]),
    Row("J32", "Sinusite Cr\U{00F4}nica", ["dor"]),
    Row("J40", "Bronquite", ["fadiga", "febre"]),
    Row("G47.3", "Apneia do Sono", ["fadiga", "insonia"])
  ]

  const Endocrine: seq<Row> := [
    Row("E11", "Diabetes Tipo 2", ["fadiga", "enjoo"]),
    Row("E10", "Diabetes Tipo 1", ["fadiga", "enjoo"]),
    Row("E03", "Hipotireoidismo", ["fadiga", "dor"]),
    Row("E05", "Hipertireoidismo", ["ansiedade", "insonia", "fadiga"]),
    Row("E66", "Obesidade", ["fadiga", "dor"]),
    Row("E78", "Colesterol Alto", ["fadiga"]),
    Row("E28", "S\U{00ED}ndrome dos Ov\U{00E1}rios Polic\U{00ED}sticos", ["dor", "ansiedade"])
  ]

  const Neurological: seq<Row> := [
    Row("G43", "Enxaqueca", ["dor", "enjoo"]),
    Row("G40", "Epilepsia", ["fadiga"]),
    Row("G35", "Esclerose M\U{00FA}ltipla", ["fadiga", "dor"]),
    Row("G20", "Parkinson", ["fadiga", "insonia"]),
    Row("G30", "Alzheimer", ["insonia", "ansiedade"]),
    Row("G44", "Cefaleia Tensional", ["dor"]),
    Row("G25.81", "S\U{00ED}ndrome das Pernas Inquietas", ["insonia", "dor"])
  ]

  const Musculoskeletal: seq<Row> := [
    Row("M54", "Dor nas Costas (Lombalgia)", ["dor"]),
    Row("M79.7", "Fibromialgia", ["dor", "fadiga", "insonia"]),
    Row("M05", "Artrite Reumatoide", ["dor", "fadiga"]),
    Row("M15", "Artrose/Osteoartrite", ["dor"]),
    Row("M81", "Osteoporose", ["dor"]),
    Row("M75", "Tendinite/Bursite", ["dor"]),
    Row("M50", "H\U{00E9}rnia de Disco", ["dor"])
  ]

  const Gastrointestinal: seq<Row> := [
    Row("K21", "Refluxo Gastroesof\U{00E1}gico", ["dor", "enjoo"]),
    Row("K58", "S\U{00ED}ndrome do Intestino Irrit\U{00E1}vel", ["dor", "enjoo"]),
    Row("K29", "Gastrite", ["dor", "enjoo"]),
    Row("K50", "Doen\U{00E7}a de Crohn", ["dor", "fadiga", "enjoo"]),
    Row("K51", "Colite Ulcerativa", ["dor", "fadiga"]),
    Row("K80", "Pedra na Ves\U{00ED}cula", ["dor", "enjoo"]),
    Row("K90", "Doen\U{00E7}a Cel\U{00ED}aca", ["dor", "fadiga", "enjoo"]),
    Row("E73", "Intoler\U{00E2}ncia \U{00E0} Lactose", ["dor", "enjoo"])
  ]

  const Dermatological: seq<Row> := [
    Row("L40", "Psor\U{00ED}ase", ["dor", "ansiedade"]),
    Row("L20", "Dermatite At\U{00F3}pica/Eczema", ["dor", "insonia"]),
    Row("L50", "Urtic\U{00E1}ria", ["ansiedade"]),
    Row("L70", "Acne", ["ansiedade"]),
    Row("L63", "Alopecia", ["ansiedade"])
  ]

  const Immunological: seq<Row> := [
    Row("M32", "L\U{00FA}pus", ["fadiga", "dor", "febre"]),
    Row("D50", "Anemia", ["fadiga"]),
    Row("D69", "P\U{00FA}rpura", ["fadiga"]),
    Row("B20", "HIV/AIDS", ["fadiga", "febre"])
  ]

  const Other: seq<Row> := [
    Row("N18", "Doen\U{00E7}a Renal Cr\U{00F4}nica", ["fadiga", "enjoo"]),
    Row("N40", "Hiperplasia Prost\U{00E1}tica", ["dor"]),
    Row("N94", "Endometriose", ["dor", "fadiga"]),
    Row("R53", "Fadiga Cr\U{00F4}nica", ["fadiga", "dor", "insonia"]),
    Row("H81", "Labirintite/Vertigem", ["enjoo", "ansiedade"]),
    Row("H25", "Catarata", ["dor"]),
    Row("H40", "Glaucoma", ["dor"])
  ]

  /** The table, category by category, in the order of `DISEASES`. */
  const Blocks: seq<Block> := [
    Block("mental", Mental),
    Block("cardiovascular", Cardiovascular),
    Block("respiratory", Respiratory),
    Block("endocrine", Endocrine),
    Block("neurological", Neurological),
    Block("musculoskeletal", Musculoskeletal),
    Block("gastrointestinal", Gastrointestinal),
    Block("dermatological", Dermatological),
    Block("immunological", Immunological),
    Block("other", Other)
  ]

  function DiseaseOf(category: string, row: Row): Disease {
    Disease(row.code, row.code, row.name, category, row.symptoms)
  }

  function BlockDiseases(b: Block): (r: seq<Disease>)
    ensures |r| == |b.rows|
    ensures forall i :: 0 <= i < |r| ==> r[i] == DiseaseOf(b.category, b.rows[i])
  {
    seq(|b.rows|, i requires 0 <= i < |b.rows| => DiseaseOf(b.category, b.rows[i]))
  }

  function Flatten(bs: seq<Block>): seq<Disease> {
    if |bs| == 0 then [] else BlockDiseases(bs[0]) + Flatten(bs[1..])
  }

  /** `DISEASES`. */
  const Diseases: seq<Disease> := Flatten(Blocks)

  // ---------------------------------------------------------------------
  // Facts about the table, block by block

  /** The first letters of the codes of each block. */
  const Letters: seq<set<char>> := [
    {'F'}, {'I'}, {'J', 'G'}, {'E'}, {'G'}, {'M'}, {'K', 'E'}, {'L'}, {'M', 'D', 'B'}, {'N', 'R', 'H'}
  ]

  /** No two rows share a code. */
  ghost predicate CodesDistinct(rows: seq<Row>) {
    forall i, j :: 0 <= i < j < |rows| ==> rows[i].code != rows[j].code
  }

  /** No row of `a` has the code of a row of `b`. */
  ghost predicate CodesApart(a: seq<Row>, b: seq<Row>) {
    forall i, j :: 0 <= i < |a| && 0 <= j < |b| ==> a[i].code != b[j].code
  }

  /** Every code starts with one of the `letters`, and no row lists a
      symptom twice. */
  ghost predicate RowsShaped(rows: seq<Row>, letters: set<char>) {
    forall i :: 0 <= i < |rows| ==>
      |rows[i].code| > 0 && rows[i].code[0] in letters && NoDuplicates(rows[i].symptoms)
  }

  lemma MentalCodes()
    ensures CodesDistinct(Mental)
  {
  }

  lemma MentalRows()
    ensures RowsShaped(Mental, {'F'})
  {
  }

  lemma CardiovascularCodes()
    ensures CodesDistinct(Cardiovascular)
  {
  }

  lemma CardiovascularRows()
    ensures RowsShaped(Cardiovascular, {'I'})
  {
  }

  lemma RespiratoryCodes()
    ensures CodesDistinct(Respiratory)
  {
  }

  lemma RespiratoryRows()
    ensures RowsShaped(Respiratory, {'J', 'G'})
  {
  }

  lemma EndocrineCodes()
    ensures CodesDistinct(Endocrine)
  {
  }

  lemma EndocrineRows()
    ensures RowsShaped(Endocrine, {'E'})
  {
  }

  lemma NeurologicalCodes()
    ensures CodesDistinct(Neurological)
  {
  }

  lemma NeurologicalRows()
    ensures RowsShaped(Neurological, {'G'})
  {
  }

  lemma MusculoskeletalCodes()
    ensures CodesDistinct(Musculoskeletal)
  {
  }

  lemma MusculoskeletalRows()
    ensures RowsShaped(Musculoskeletal, {'M'})
  {
  }

  lemma GastrointestinalCodes()
    ensures CodesDistinct(Gastrointestinal)
  {
  }

  lemma GastrointestinalRows()
    ensures RowsShaped(Gastrointestinal, {'K', 'E'})
  {
  }

  lemma DermatologicalCodes()
    ensures CodesDistinct(Dermatological)
  {
  }

  lemma DermatologicalRows()
    ensures RowsShaped(Dermatological, {'L'})
  {
  }

  lemma ImmunologicalCodes()
    ensures CodesDistinct(Immunological)
  {
  }

  lemma ImmunologicalRows()
    ensures RowsShaped(Immunological, {'M', 'D', 'B'})
  {
  }

  lemma OtherCodes()
    ensures CodesDistinct(Other)
  {
  }

  lemma OtherRows()
    ensures RowsShaped(Other, {'N', 'R', 'H'})
  {
  }

  lemma BlockShaped(k: nat)
    requires k < |Blocks|
    ensures CodesDistinct(Blocks[k].rows) && RowsShaped(Blocks[k].rows, Letters[k])
  {
    if k == 0 {
      MentalCodes();
      MentalRows();
    } else if k == 1 {
      CardiovascularCodes();
      CardiovascularRows();
    } else if k == 2 {
      RespiratoryCodes();
      RespiratoryRows();
    } else if k == 3 {
      EndocrineCodes();
      EndocrineRows();
    } else if k == 4 {
      NeurologicalCodes();
      NeurologicalRows();
    } else if k == 5 {
      MusculoskeletalCodes();
      MusculoskeletalRows();
    } else if k == 6 {
      GastrointestinalCodes();
      GastrointestinalRows();
    } else if k == 7 {
      DermatologicalCodes();
      DermatologicalRows();
    } else if k == 8 {
      ImmunologicalCodes();
      ImmunologicalRows();
    } else {
      OtherCodes();
      OtherRows();
    }
  }

  /** The blocks whose first letters meet have no code in common either. */
  lemma RespiratoryNeurologicalApart()
    ensures CodesApart(Respiratory, Neurological)
  {
  }

  lemma EndocrineGastrointestinalApart()
    ensures CodesApart(Endocrine, Gastrointestinal)
  {
  }

  lemma MusculoskeletalImmunologicalApart()
    ensures CodesApart(Musculoskeletal, Immunological)
  {
  }

  lemma LettersApart(a: nat, b: nat)
    requires a < b < |Blocks|
    requires !(a == 2 && b == 4) && !(a == 3 && b == 6) && !(a == 5 && b == 8)
    ensures Letters[a] !! Letters[b]
  {
  }

  lemma CategoriesDistinct(a: nat, b: nat)
    requires a < b < |Blocks|
    ensures Blocks[a].category != Blocks[b].category
  {
  }

  lemma CategoriesListed()
    ensures |Blocks| == |DiseaseCategories|
    ensures forall k :: 0 <= k < |Blocks| ==> Blocks[k].category == DiseaseCategories[k].id
    ensures forall a, b :: 0 <= a < b < |DiseaseCategories| ==> DiseaseCategories[a].id != DiseaseCategories[b].id
  {
  }

  lemma BlocksApart(a: nat, b: nat)
    requires a < b < |Blocks|
    ensures CodesApart(Blocks[a].rows, Blocks[b].rows)
  {
    if a == 2 && b == 4 {
      RespiratoryNeurologicalApart();
    } else if a == 3 && b == 6 {
      EndocrineGastrointestinalApart();
    } else if a == 5 && b == 8 {
      MusculoskeletalImmunologicalApart();
    } else {
      LettersApart(a, b);
      BlockShaped(a);
      BlockShaped(b);
    }
  }

  // ---------------------------------------------------------------------
  // From the blocks to the flat table

  /** Where the `j`-th disease of the flat table comes from. */
  lemma {:induction false} FlattenMember(bs: seq<Block>, j: nat) returns (k: nat, i: nat)
    requires j < |Flatten(bs)|
    ensures k < |bs| && i < |bs[k].rows|
    ensures Flatten(bs)[j] == DiseaseOf(bs[k].category, bs[k].rows[i])
  {
    var head := BlockDiseases(bs[0]);
    if j < |head| {
      k, i := 0, j;
    } else {
      var k', i' := FlattenMember(bs[1..], j - |head|);
      k, i := k' + 1, i';
    }
  }

  ghost predicate IdsDistinct(ds: seq<Disease>) {
    forall i, j :: 0 <= i < j < |ds| ==> ds[i].id != ds[j].id
  }

  lemma {:induction false} FlattenIdsDistinct(bs: seq<Block>)
    requires forall k :: 0 <= k < |bs| ==> CodesDistinct(bs[k].rows)
    requires forall a, b :: 0 <= a < b < |bs| ==> CodesApart(bs[a].rows, bs[b].rows)
    ensures IdsDistinct(Flatten(bs))
  {
    if |bs| > 0 {
      var head := BlockDiseases(bs[0]);
      var rest := Flatten(bs[1..]);
      FlattenIdsDistinct(bs[1..]);
      forall i, j | 0 <= i < |head| && 0 <= j < |rest| ensures head[i].id != rest[j].id {
        var k, r := FlattenMember(bs[1..], j);
        assert CodesApart(bs[0].rows, bs[k + 1].rows);
      }
      assert Flatten(bs) == head + rest;
    }
  }

  /** Each disease of the table comes from a row of its category's block:
      its id is its code and is not empty, its category is listed in `DISEASE_CATEGORIES`,
      and it lists no symptom twice. */
  lemma TableMember(j: nat)
    requires j < |Diseases|
    ensures Diseases[j].id == Diseases[j].code && |Diseases[j].id| > 0
    ensures exists k :: 0 <= k < |DiseaseCategories| && DiseaseCategories[k].id == Diseases[j].category
    ensures NoDuplicates(Diseases[j].commonSymptoms)
  {
    var k, i := FlattenMember(Blocks, j);
    BlockShaped(k);
    CategoriesListed();
  }

  // ---------------------------------------------------------------------
  // getDiseaseById

  function IdIs(id: string): Disease -> bool {
    (d: Disease) => d.id == id
  }

  /** `getDiseaseById(id)`: the first disease with that id. */
  function GetDiseaseById(id: string): (r: Option<Disease>)
    ensures r.Some? ==> r.value in Diseases && r.value.id == id
    ensures r.None? <==> forall j :: 0 <= j < |Diseases| ==> Diseases[j].id != id
  {
    match FirstIndex(Diseases, IdIs(id))
    case Some(j) => Some(Diseases[j])
    case None => None
  }

  /** The ids of `DISEASES` are pairwise distinct. */
  lemma DiseaseIdsDistinct()
    ensures IdsDistinct(Diseases)
  {
    forall k | 0 <= k < |Blocks| ensures CodesDistinct(Blocks[k].rows) {
      BlockShaped(k);
    }
    forall a, b | 0 <= a < b < |Blocks| ensures CodesApart(Blocks[a].rows, Blocks[b].rows) {
      BlocksApart(a, b);
    }
    FlattenIdsDistinct(Blocks);
  }

  /** Every disease of the table is found by its own id. */
  lemma GetDiseaseByIdFinds(j: nat)
    requires j < |Diseases|
    ensures GetDiseaseById(Diseases[j].id) == Some(Diseases[j])
  {
    DiseaseIdsDistinct();
    FirstIndexUnique(Diseases, IdIs(Diseases[j].id), j);
  }

  // ---------------------------------------------------------------------
  // getDiseasesByCategory

  function InCategory(categoryId: string): Disease -> bool {
    (d: Disease) => d.category == categoryId
  }

  function BlockIn(categoryId: string): Block -> bool {
    (b: Block) => b.category == categoryId
  }

  /** `getDiseasesByCategory(categoryId)`: the diseases of that category, in
      table order. */
  function GetDiseasesByCategory(categoryId: string): (r: seq<Disease>)
    ensures forall d :: d in r <==> d in Diseases && d.category == categoryId
  {
    FilterMembers(Diseases, InCategory(categoryId));
    Filter(Diseases, InCategory(categoryId))
  }

  /** A block keeps all of its diseases under its own category and none
      under another. */
  lemma FilterBlock(b: Block, c: string)
    ensures Filter(BlockDiseases(b), InCategory(c)) == if b.category == c then BlockDiseases(b) else []
  {
    var head := BlockDiseases(b);
    if b.category == c {
      FilterKeepsAll(head, InCategory(c));
    } else {
      FilterNone(head, InCategory(c));
    }
  }

  lemma {:induction false} FilterFlatten(bs: seq<Block>, c: string)
    ensures Filter(Flatten(bs), InCategory(c)) == Flatten(Filter(bs, BlockIn(c)))
  {
    if |bs| > 0 {
      var head := BlockDiseases(bs[0]);
      var tail := Flatten(bs[1..]);
      var rest := Filter(bs[1..], BlockIn(c));
      assert Flatten(bs) == head + tail;
      FilterFlatten(bs[1..], c);
      FilterAppend(head, tail, InCategory(c));
      FilterBlock(bs[0], c);
      assert Filter(Flatten(bs), InCategory(c)) == Filter(head, InCategory(c)) + Flatten(rest);
      if bs[0].category == c {
        assert Filter(bs, BlockIn(c)) == [bs[0]] + rest;
        FlattenCons(bs[0], rest);
      } else {
        assert Filter(bs, BlockIn(c)) == [] + rest;
        assert [] + rest == rest;
      }
    }
  }

  lemma FlattenCons(b: Block, bs: seq<Block>)
    ensures Flatten([b] + bs) == BlockDiseases(b) + Flatten(bs)
  {
    assert ([b] + bs)[1..] == bs;
  }

  lemma {:induction false} FilterOneBlock(bs: seq<Block>, k: nat)
    requires k < |bs|
    requires forall a, b :: 0 <= a < b < |bs| ==> bs[a].category != bs[b].category
    ensures Filter(bs, BlockIn(bs[k].category)) == [bs[k]]
  {
    var p := BlockIn(bs[k].category);
    if k == 0 {
      FilterNone(bs[1..], p);
    } else {
      FilterOneBlock(bs[1..], k - 1);
      assert bs[1..][k - 1] == bs[k];
    }
  }

  /** The diseases of each listed category are exactly its block of the
      table, in table order. */
  lemma CategoryIsBlock(k: nat)
    requires k < |DiseaseCategories|
    ensures GetDiseasesByCategory(DiseaseCategories[k].id) == BlockDiseases(Blocks[k])
  {
    CategoriesListed();
    forall a, b | 0 <= a < b < |Blocks| ensures Blocks[a].category != Blocks[b].category {
      CategoriesDistinct(a, b);
    }
    FilterFlatten(Blocks, Blocks[k].category);
    FilterOneBlock(Blocks, k);
    assert Flatten([Blocks[k]]) == BlockDiseases(Blocks[k]) + [];
  }

  /** A category that is not listed has no disease. */
  lemma UnknownCategoryEmpty(categoryId: string)
    requires forall k :: 0 <= k < |DiseaseCategories| ==> DiseaseCategories[k].id != categoryId
    ensures GetDiseasesByCategory(categoryId) == []
  {
    forall j | 0 <= j < |Diseases| ensures !InCategory(categoryId)(Diseases[j]) {
      TableMember(j);
    }
    FilterNone(Diseases, InCategory(categoryId));
  }

  // ---------------------------------------------------------------------
  // searchDiseases

  /** Whether the lower-cased name or code contains `lowerTerm`. */
  function Matches(lowerTerm: string): Disease -> bool {
    (d: Disease) => Contains(Lower(d.name), lowerTerm) || Contains(Lower(d.code), lowerTerm)
  }

  /** `searchDiseases(term)`: the diseases, in table order, whose name or
      code contains the term, ignoring case. */
  function SearchDiseases(term: string): (r: seq<Disease>)
    ensures forall d :: d in r <==>
      d in Diseases && (Contains(Lower(d.name), Lower(term)) || Contains(Lower(d.code), Lower(term)))
    ensures IsSubsequence(r, Diseases)
    ensures forall d :: Matches(Lower(term))(d) ==> multiset(r)[d] == multiset(Diseases)[d]
  {
    FilterMembers(Diseases, Matches(Lower(term)));
    FilterOrderAndMultiplicity(Diseases, Matches(Lower(term)));
    Filter(Diseases, Matches(Lower(term)))
  }

  /** The empty term matches every disease. */
  lemma SearchEmptyIsAll()
    ensures SearchDiseases([]) == Diseases
  {
    forall j | 0 <= j < |Diseases| ensures Matches(Lower([]))(Diseases[j]) {
      ContainsEmpty(Lower(Diseases[j].name));
    }
    FilterKeepsAll(Diseases, Matches(Lower([])));
  }

  /** Searching ignores the case of the term. */
  lemma SearchIgnoresCase(term: string)
    ensures SearchDiseases(Lower(term)) == SearchDiseases(term)
  {
    LowerIdempotent(term);
  }

  /** A disease is found by its own code. */
  lemma SearchFindsByCode(j: nat)
    requires j < |Diseases|
    ensures Diseases[j] in SearchDiseases(Diseases[j].code)
  {
    ContainsSelf(Lower(Diseases[j].code));
  }

  // ---------------------------------------------------------------------
  // getCommonSymptomsForDiseases

  /** The common symptoms of the disease with that id; none for an unknown id. */
  function SymptomsOf(id: string): seq<string> {
    match GetDiseaseById(id)
    case None => []
    case Some(d) => d.commonSymptoms
  }

  /** The lookup the counting runs with. */
  function SymptomsFn(): Lookup {
    (id: string) => SymptomsOf(id)
  }

  function CommonSymptoms(ids: seq<string>): seq<SymptomCount> {
    SortDesc(Tally(Occurrences(SymptomsFn(), ids)), CountOf)
  }

  /** `getCommonSymptomsForDiseases(diseaseIds)`: counts the common symptoms
      of the known diseases into a `Map`, then sorts its entries by count,
      largest first. */
  method GetCommonSymptomsForDiseases(diseaseIds: seq<string>) returns (r: seq<SymptomCount>)
    ensures r == CommonSymptoms(diseaseIds)
  {
    var entries := TallyOf(SymptomsFn(), diseaseIds);
    r := SortDesc(entries, CountOf);
  }

  /** No disease lists a symptom twice, and an unknown id lists none. */
  lemma SymptomsOfUnique(id: string)
    ensures NoDuplicates(SymptomsOf(id))
  {
    var d := GetDiseaseById(id);
    if d.Some? {
      var j :| 0 <= j < |Diseases| && Diseases[j] == d.value;
      TableMember(j);
    }
  }

  /** The result is sorted by count, largest first, and is a permutation
      of the tally. */
  lemma CommonSymptomsSorted(ids: seq<string>)
    ensures SortedDesc(CommonSymptoms(ids), CountOf)
    ensures multiset(CommonSymptoms(ids)) == multiset(Tally(Occurrences(SymptomsFn(), ids)))
  {
    SortDescFacts(Tally(Occurrences(SymptomsFn(), ids)), CountOf);
  }

  /** Each symptom appears at most once. */
  lemma CommonSymptomsDistinct(ids: seq<string>)
    ensures DistinctBy(CommonSymptoms(ids), SymptomOf)
  {
    var occ := Occurrences(SymptomsFn(), ids);
    var d := Distinct(occ);
    DistinctIsDistinctBy(d);
    MapDistinctBy(d, (x: string) => SymptomCount(x, Count(occ, IsSymptom(x))), SymptomOf, (x: string) => x);
    SortDescDistinctBy(Tally(occ), CountOf, SymptomOf);
  }

  /** A symptom appears exactly when the disease of one of the ids lists
      it, and its count is the number of ids whose disease lists it: unknown
      ids add nothing and a repeated id counts again. */
  lemma CommonSymptomsCount(ids: seq<string>, s: string, n: nat)
    ensures SymptomCount(s, n) in CommonSymptoms(ids) <==>
      (exists i :: 0 <= i < |ids| && s in SymptomsOf(ids[i])) && n == Count(ids, Lists(SymptomsFn(), s))
  {
    var t := Tally(Occurrences(SymptomsFn(), ids));
    assert SymptomCount(s, n) in CommonSymptoms(ids) <==> SymptomCount(s, n) in t by {
      SortDescFacts(t, CountOf);
    }
    forall id ensures NoDuplicates(SymptomsFn()(id)) {
      SymptomsOfUnique(id);
    }
    TallyCount(SymptomsFn(), ids, s, n);
  }

  /** Symptoms with the same count keep their order of first occurrence. */
  lemma CommonSymptomsTies(ids: seq<string>, c: int)
    ensures Filter(CommonSymptoms(ids), KeyIs(CountOf, c))
         == Filter(Tally(Occurrences(SymptomsFn(), ids)), KeyIs(CountOf, c))
  {
    SortDescStable(Tally(Occurrences(SymptomsFn(), ids)), CountOf, c);
  }
}