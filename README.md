# Aurora Saúde — a verified model of the client's logic

Aurora Saúde is a personal health-tracking web client written in Vue.
Users log symptoms, medications, allergies, chronic conditions and daily
wellness check-ins. The client derives insights from these records:

- medication-interaction warnings, found pair by pair, by drug class and
  for polypharmacy;
- symptom-to-medication correlation;
- weekly symptom trends, a health score and personalised tips.

This project models that logic in Dafny, one module per source file:

| module | source file | what it covers |
|---|---|---|
| `MedicationData` | `src/data/medicationData.js` | name normaliser (case and accent folding), fuzzy "same medication" test, side-effect lookup, drug-class lookup |
| `MedicationInteractions` | `src/composables/useMedicationInteractions.js` | direct and class interaction lookup, the pairwise scanner, symptom-cause analysis, the alert store (active / acknowledged) |
| `PairScan` | `src/composables/useMedicationInteractions.js` | the two nested loops of `checkInteractions`, generic over the per-pair probe |
| `Symptoms` | `src/composables/useSymptoms.js` | symptom type table and backend id maps, pain-level and notes encodings, load / add / update / delete, filters and statistics |
| `MedicalRecord` | `src/composables/useMedicalRecord.js` | the record store: diseases, medications, allergies, blood type, emergency contact, notes; derived user diseases, stats and expected symptoms |
| `Diseases`, `SymptomTally` | `src/data/diseases.js` | the ICD-10 catalogue, lookups, search, and the common-symptom tally |
| `Wellness` | `src/composables/useWellness.js` | check-ins, wellness averages and trends, weekly symptom trends, health score, health tips, medication compatibility |
| `Notifications` | `src/composables/useNotifications.js` | the notification store, duplicate suppression, relative-time formatting |
| `Security`, `Calendar` | `src/utils/security.js` | sanitising, HTML escaping, e-mail / date / time / intensity validation, stored-data validators, rate limiting, and the calendar arithmetic `validateDate` relies on |
| `PasswordValidator` | `src/utils/passwordValidator.ts` | the strong-password rule |
| `Router` | `src/router/index.js` | route table and navigation guard |
| `BreathingTimer`, `StretchTimer`, `Hydration` | `src/composables/useBreathingTimer.js`, `useStretchTimer.js`, `useHydration.js` | the three timers as state machines |

Three modules are shared helpers:

- `Wrappers` holds `Option` and `Result`.
- `Seqs` holds `Filter`, `Count`, `Distinct`, `FirstIndex` and a stable descending sort.
- `Text` holds JavaScript's `trim` and `includes`, `toLowerCase` restricted to ASCII and Latin-1 letters, and decimal printing and parsing.

## How the model is shaped

- **Stores are classes.** A composable whose refs are updated in place is a
  `class`: `CheckinStore`, `SymptomStore`, `MedicalRecordStore`,
  `NotificationStore`, `AlertStore`, `RateLimiter`, `Timer`, `Countdown` and
  `Tracker`. Each method states its whole new state in terms of a pure
  function of the old state, and the properties are proved about those
  functions.
- **Persistence is a field.** A ref that is persisted to local storage gets
  a second field, `storage` or `stored`, holding what was last saved.
- **Outside effects are parameters.**
  - Backend calls are parameters describing the answer, such as
    `SaveOutcome`, `AddAnswer`, the `confirmed` flags and the `response`
    options.
  - The clock is a parameter: `now`, `today`, and a `Clock` value for `new Date()`.
  - Generated ids are parameters.
- **Loops are methods.** Source loops that build a result become methods
  with loop invariants, each proved equal to a specification function:
  - `PairScan.CheckPairs`
  - `MedicationInteractions.AnalyzeSymptomCauses` and `MedicationInteractions.AnalyzeAllSymptoms`
  - `SymptomTally.CountSymptoms`
  - `Wellness.GetHealthTips` and `Wellness.CheckMedicationCompatibility`
- **Tables are parameters of the proofs.** Data tables are Dafny constants.
  The algorithms over them take the table as a parameter, so their
  properties hold for any table; the top-level operation passes the constant.
  Examples: `Tables` in `MedicationInteractions`, and `TipTable` and the
  interaction table in `Wellness`.

Two places where the model follows what the code does rather than what its names and comments suggest:

- **Pair id.** An interaction's id is `normalize(med1) + "_" + normalize(med2)`,
  in list order, as `checkInteractions` builds it (lines 62 and 73). It is not a
  canonical id for the unordered pair, so `(A, B)` and `(B, A)` give
  different ids.
- **Expected symptoms.** `expectedSymptoms` and `isSymptomRelatedToConditions`
  pass whole disease entries where codes are expected. See "## Findings".

## Model

| member | source | states |
|---|---|---|
| MedicationData.FoldChar | src/data/medicationData.js:512-520 | upper-case ASCII folds to lower case; lower-case letters and digits are kept |
| MedicationData.NormalizeString | src/data/medicationData.js:512-520 | the result is no longer than the input and holds only lower-case letters and digits |
| MedicationData.Normalize | src/data/medicationData.js:512-520 | a missing name normalises to ""; the result holds only name characters |
| MedicationData.NormalizeIdempotent | src/data/medicationData.js:512-520 | normalising twice equals normalising once |
| MedicationData.NormalizeIgnoresCase | src/data/medicationData.js:512-520 | lower-casing first does not change the normal form |
| MedicationData.FoldAccents | src/data/medicationData.js:512-520 | every accented Latin-1 a, c, e and i, capital or small, folds to its base letter |
| MedicationData.FoldAccentsNtoY | src/data/medicationData.js:512-520 | every accented Latin-1 n, o, u and y, capital or small, folds to its base letter |
| MedicationData.FoldUndecomposed | src/data/medicationData.js:512-520 | the Latin-1 letters and signs without a decomposition (Æ, Ð, ×, Ø, Þ, ß, æ, ð, ÷, ø, þ) are only lower-cased |
| MedicationData.SameMedicationIff | src/data/medicationData.js:525-535 | two names are the same medication iff either normal form contains the other; the relation is symmetric |
| MedicationData.EmptyNameMatchesAll | src/data/medicationData.js:525-535 | a name that normalises to "" matches every name, in both argument orders |
| MedicationData.FindMedicationIn | src/data/medicationData.js:540-550 | a found entry is in the table and matches the name; nothing is found iff no entry matches |
| MedicationData.FindMedicationFirst | src/data/medicationData.js:540-550 | the lookup returns the first matching entry |
| MedicationData.FindEmptyName | src/data/medicationData.js:540-550 | an empty or missing name finds the first entry of the table |
| MedicationData.GetMedicationClassIn | src/data/medicationData.js:555-578 | a found class is one of the table's classes; none is found iff no class has a member that the normalised name contains or that contains the normalised name |
| MedicationData.GetMedicationClassFirst | src/data/medicationData.js:555-578 | the first class with a matching member is returned |
| MedicationData.GetMedicationClassRange | src/data/medicationData.js:555-578 | every class returned is one of the ten listed classes |
| MedicationData.EmptyNameClass | src/data/medicationData.js:555-578 | an empty name is classified as "anti-inflamatorio", the first class in the table |
| MedicationInteractions.FindDirectInteractionIn | src/composables/useMedicationInteractions.js:97-112 | nothing is found iff no record matches the pair in either order; a direct finding always carries its symptom list |
| MedicationInteractions.FindDirectFirst | src/composables/useMedicationInteractions.js:97-112 | the first matching record of the table is the one reported |
| MedicationInteractions.FindDirectSymmetric | src/composables/useMedicationInteractions.js:97-112 | swapping the two medications gives the same direct finding |
| MedicationInteractions.FindClassInteraction | src/composables/useMedicationInteractions.js:117-151 | no finding without both classes; otherwise found iff `c1_c2` or `c2_c1` is a key, with `c1_c2` preferred |
| MedicationInteractions.StatinRecordUnreachable | src/composables/useMedicationInteractions.js:117-151 | no two classes of the class table form the statin key, so that class record can never be returned |
| MedicationInteractions.Scan | src/composables/useMedicationInteractions.js:44-92 | a missing list or fewer than two medications gives no interactions |
| MedicationInteractions.CheckInteractions | src/composables/useMedicationInteractions.js:44-92 | the nested loops return exactly the scan of the list |
| MedicationInteractions.ScanEntries | src/composables/useMedicationInteractions.js:51-89 | the result is one entry per interacting pair `i < j`, in loop order, each carrying that pair's finding and id; a polypharmacy entry is added last |
| MedicationInteractions.ScanPolypharmacy | src/composables/useMedicationInteractions.js:80-89 | three or more medications add exactly one polypharmacy entry, at the end; fewer add none |
| MedicationInteractions.ScanPairs | src/composables/useMedicationInteractions.js:51-78 | the reported pairs are strictly lexicographically ordered and in range; a pair is reported iff it has a direct or class finding |
| MedicationInteractions.ScanCount | src/composables/useMedicationInteractions.js:44-92 | the count of entries is the count of interacting pairs, plus one for polypharmacy |
| MedicationInteractions.ScanLength | src/composables/useMedicationInteractions.js:44-92 | at most n(n-1)/2 pair entries, plus one |
| MedicationInteractions.ScanSymptomsDirect | src/composables/useMedicationInteractions.js:56-78 | every entry carrying symptoms comes from a direct record for its two medications |
| MedicationInteractions.SymptomLabel | src/composables/useMedicationInteractions.js:268-314 | a labelled symptom type is shown with its table label; an unlabelled one is shown as itself |
| MedicationInteractions.SymptomCauses | src/composables/useMedicationInteractions.js:169-199 | a missing medication list or an empty type gives no causes |
| MedicationInteractions.AnalyzeSymptomCauses | src/composables/useMedicationInteractions.js:169-199 | the two loops return exactly the side-effect causes followed by the interaction causes |
| MedicationInteractions.SymptomCausesShape | src/composables/useMedicationInteractions.js:169-199 | side-effect causes come before interaction causes, and a cause has a severity iff it is an interaction cause |
| MedicationInteractions.InteractionCausesFromDirect | src/composables/useMedicationInteractions.js:185-196 | one cause per scanned entry listing the symptom, and each of these comes from a direct record |
| MedicationInteractions.AnalyzeAllSymptoms | src/composables/useMedicationInteractions.js:207-229 | the loop returns exactly the specified analysis list |
| MedicationInteractions.AnalyzeAllFacts | src/composables/useMedicationInteractions.js:207-229 | the analyses are sorted by count, descending, one per symptom type; every type with causes is present with its causes and occurrence count, and nothing else is |
| MedicationInteractions.AnalyzeAllStable | src/composables/useMedicationInteractions.js:224-228 | analyses with equal counts keep their first-occurrence order |
| MedicationInteractions.AlertStore.UpdateAlerts | src/composables/useMedicationInteractions.js:234-247 | active alerts are the scan minus acknowledged ids; acknowledged ids are unchanged |
| MedicationInteractions.AlertStore.AcknowledgeAlert | src/composables/useMedicationInteractions.js:249-258 | a new id is appended to the acknowledged list and removed from the active list; a known id changes nothing |
| MedicationInteractions.AlertStore.ResetAcknowledgedAlerts | src/composables/useMedicationInteractions.js:260-263 | the acknowledged list is emptied and active alerts are kept |
| MedicationInteractions.AlertStore.HighSeverityAlerts | src/composables/useMedicationInteractions.js:316-330 | exactly the active high-severity alerts: each as often as it is active, in the order of the active list, and nothing else |
| MedicationInteractions.AlertStore.HasActiveAlerts | src/composables/useMedicationInteractions.js:316-330 | true iff an alert is active |
| MedicationInteractions.AlertCountsAgree | src/composables/useMedicationInteractions.js:316-330 | there are active alerts iff the count is positive; the high-severity alerts and the other alerts together make up the count |
| MedicationInteractions.AcknowledgeTwice | src/composables/useMedicationInteractions.js:249-258 | acknowledging is idempotent, and afterwards no active alert has that id |
| PairScan.CheckPairs | src/composables/useMedicationInteractions.js:51-78 | the nested `i < j` loops return the specified scan for any per-pair probe |
| PairScan.ScanEntries | src/composables/useMedicationInteractions.js:51-78 | the scan holds one entry per pair with a finding, namely the probe's value for that pair |
| PairScan.ScanOrder | src/composables/useMedicationInteractions.js:51-78 | the pairs visited are strictly ordered, in range, and at most n(n-1)/2 |
| PairScan.ScanPairs | src/composables/useMedicationInteractions.js:51-78 | a pair is reported iff its probe finds something |
| PairScan.LexPairsCount | src/composables/useMedicationInteractions.js:51-52 | the loops visit exactly n(n-1)/2 pairs |
| Symptoms.TypeIdsDistinct | src/composables/useSymptoms.js:17-31 | the twelve symptom type ids are distinct |
| Symptoms.TableBackendIds | src/composables/useSymptoms.js:36-39 | backend ids are distinct and non-zero |
| Symptoms.BackendMapsInverse | src/composables/useSymptoms.js:36-57 | the type-to-backend and backend-to-type maps are inverse on the table |
| Symptoms.UnknownBackendId | src/composables/useSymptoms.js:55-57 | an unknown backend id decodes to "outro" |
| Symptoms.TypeRoundTrip | src/composables/useSymptoms.js:36-57 | encoding a known type to its backend id and back gives the type |
| Symptoms.PainLevel | src/composables/useSymptoms.js:156 | the 1-5 intensity maps to pain 2..10, doubled |
| Symptoms.IntensityOfPain | src/composables/useSymptoms.js:86 | pain p decodes to the intensity i with 2i-1 <= p <= 2i |
| Symptoms.IntensityRoundTrip | src/composables/useSymptoms.js:86-156 | decoding an encoded intensity gives it back |
| Symptoms.PainRoundTrip | src/composables/useSymptoms.js:86-156 | an odd pain level comes back rounded up to even |
| Symptoms.NotesRoundTrip | src/composables/useSymptoms.js:69-80 | a custom label written as `[label] notes` is decoded back to the label and the trimmed notes |
| Symptoms.FromBackend | src/composables/useSymptoms.js:60-109 | a backend item maps to a symptom with its id, date, decoded type and intensity; an "outro" item's label is decoded from its notes when they carry one |
| Symptoms.ToBackend | src/composables/useSymptoms.js:150-170 | a request exists iff the type has a backend id; it carries the pain level, date, and encoded or plain notes |
| Symptoms.BackendRoundTrip | src/composables/useSymptoms.js:60-170 | saving a valid symptom and loading it back keeps its type, intensity, date, label and (trimmed) notes |
| Symptoms.NewSymptom | src/composables/useSymptoms.js:116-149 | the errors come in source order: invalid type, missing label, invalid date, invalid time; a success carries the clamped intensity, the label sanitised to 100 characters and the notes sanitised to 500 |
| Symptoms.MergeFacts | src/composables/useSymptoms.js:191-206 | each field the patch carries, the id and creation time included, replaces the old one and every other field is kept; non-empty notes are sanitised, empty or missing notes keep the old ones; an empty patch changes nothing; patching is idempotent |
| Symptoms.DayRange | src/composables/useSymptoms.js:225-237 | a one-day range selects exactly the symptoms of that date |
| Symptoms.FilteredMeets | src/composables/useSymptoms.js:239-261 | the chained filters keep exactly the symptoms meeting every given criterion, in order |
| Symptoms.TypeStatsOf | src/composables/useSymptoms.js:264-290 | one count per symptom type, in table order |
| Symptoms.StatsFacts | src/composables/useSymptoms.js:264-290 | the per-type counts sum to the total, day and week counts are bounded by it, and the average intensity lies in 1..5 |
| Symptoms.ReadStored | src/utils/security.js:254-290 | a saved list is read back as itself iff it has at most 10000 symptoms, and as `[]` when longer (`validateSymptomsData` fails and the key is removed) |
| Symptoms.SymptomStore.constructor | src/composables/useSymptoms.js:109 | the start-up list and cache are the validated read of local storage |
| Symptoms.SymptomStore.LoadSymptoms | src/composables/useSymptoms.js:60-109 | a backend answer replaces the list and the cache; a failure marks local-only mode and reads the cache through `validateSymptomsData`, which gives `[]` for more than 10000 symptoms |
| Symptoms.WithServerId | src/composables/useSymptoms.js:171-173 | a non-empty returned id replaces the generated one; a missing or empty id leaves the symptom as it is |
| Symptoms.LocalOnlyAfter | src/composables/useSymptoms.js:151-183 | local-only is set for an unmapped type or a failed call, cleared when a non-empty id came back, and otherwise unchanged |
| Symptoms.SymptomStore.AddSymptom | src/composables/useSymptoms.js:116-189 | invalid input changes nothing; a valid symptom, with the server's id only when it is non-empty, is put first and saved |
| Symptoms.SymptomStore.UpdateSymptom | src/composables/useSymptoms.js:191-206 | an unknown id fails; otherwise the first match is merged with the patch |
| Symptoms.SymptomStore.DeleteSymptom | src/composables/useSymptoms.js:208-223 | an unknown id fails; otherwise the first match is removed |
| SymptomTally.CountSymptoms | src/data/diseases.js:130-140 | the loops build the keys in first-occurrence order and the occurrence count of each symptom |
| SymptomTally.TallyOf | src/data/diseases.js:130-145 | the method returns the specified tally |
| SymptomTally.TallyCount | src/data/diseases.js:130-145 | `(s, n)` is in the tally iff some disease lists `s` and `n` diseases list it |
| Diseases.GetDiseaseById | src/data/diseases.js:116-118 | a found disease has that id; nothing is found iff no disease has it |
| Diseases.DiseaseIdsDistinct | src/data/diseases.js:17-108 | the catalogue's ids are distinct |
| Diseases.GetDiseaseByIdFinds | src/data/diseases.js:116-118 | every catalogue entry is found by its own id |
| Diseases.GetDiseasesByCategory | src/data/diseases.js:111-113 | exactly the diseases of the category are returned |
| Diseases.CategoryIsBlock | src/data/diseases.js:111-113 | each listed category returns its own block of the catalogue, in order |
| Diseases.UnknownCategoryEmpty | src/data/diseases.js:111-113 | an unlisted category returns nothing |
| Diseases.CategoriesListed | src/data/diseases.js:4-15 | the catalogue's blocks follow the ten listed categories in order, and the ten category ids are distinct |
| Diseases.SearchDiseases | src/data/diseases.js:121-127 | a disease is returned iff its name or code contains the term, ignoring case; the result is a subsequence of the catalogue (table order) holding each match as often as the catalogue does |
| Diseases.SearchEmptyIsAll | src/data/diseases.js:121-127 | the empty term returns the whole catalogue |
| Diseases.SearchIgnoresCase | src/data/diseases.js:121-127 | lower-casing the term does not change the result |
| Diseases.SearchFindsByCode | src/data/diseases.js:121-127 | every disease is found by its own code |
| Diseases.GetCommonSymptomsForDiseases | src/data/diseases.js:130-145 | the method returns the specified sorted tally |
| Diseases.CommonSymptomsSorted | src/data/diseases.js:142-144 | sorted by count, descending, and a permutation of the tally |
| Diseases.CommonSymptomsDistinct | src/data/diseases.js:130-145 | each symptom appears once |
| Diseases.CommonSymptomsCount | src/data/diseases.js:130-145 | `(s, n)` is listed iff a given disease lists `s` and `n` of them list it |
| Diseases.CommonSymptomsTies | src/data/diseases.js:142-144 | equal counts keep their first-occurrence order, since the sort is stable |
| MedicalRecord.Normalize | src/composables/useMedicalRecord.js:30-35 | a legacy code becomes an object entry with the same code and no database id; object entries are kept |
| MedicalRecord.HasDiseaseByCode | src/composables/useMedicalRecord.js:154-156 | true iff some entry's code is the given code |
| MedicalRecord.ValidateMedicalRecord | src/composables/useMedicalRecord.js:44-50 | true iff the value is an object with array-valued diseases, medications and allergies |
| MedicalRecord.WithDisease | src/composables/useMedicalRecord.js:158-189 | a present or unknown code changes nothing; otherwise one entry with the catalogue name is appended |
| MedicalRecord.WithDiseaseKeepsCodesDistinct | src/composables/useMedicalRecord.js:158-189 | adding keeps the codes distinct |
| MedicalRecord.RemoveConfirmed | src/composables/useMedicalRecord.js:191-216 | removal fails iff the item is stored on the server and the server did not confirm; otherwise the first match is removed |
| MedicalRecord.WithoutDiseaseFails | src/composables/useMedicalRecord.js:191-216 | failure iff the matching entry has a database id and the delete was not confirmed |
| MedicalRecord.WithoutDiseaseGone | src/composables/useMedicalRecord.js:191-216 | after a removal the code is no longer present and codes stay distinct |
| MedicalRecord.AddRemoveDisease | src/composables/useMedicalRecord.js:158-216 | adding and then removing a code gives back the original list |
| MedicalRecord.NewMedication | src/composables/useMedicalRecord.js:243-271 | the id is the server's when given; name, dosage, frequency and notes are `sanitizeInput` of the input (`|| ''`) at 100/50/50/200 characters |
| MedicalRecord.WithoutMedicationFacts | src/composables/useMedicalRecord.js:273-287 | an absent id changes nothing; failure iff the id is present and the delete was not confirmed |
| MedicalRecord.AddRemoveMedication | src/composables/useMedicalRecord.js:243-287 | removing a medication just added gives back the original list |
| MedicalRecord.Patched | src/composables/useMedicalRecord.js:289-298 | each field the updates carry, the id and creation time included, replaces the medication's; each field they leave out is kept; empty updates change nothing |
| MedicalRecord.PatchedIdempotent | src/composables/useMedicalRecord.js:289-298 | applying a patch twice equals applying it once |
| MedicalRecord.UpdatedMedications | src/composables/useMedicalRecord.js:289-298 | only the first medication with the id is patched |
| MedicalRecord.NewAllergy | src/composables/useMedicalRecord.js:301-327 | the server id is used when given; name and notes are `sanitizeInput` at 100/200 characters; a given severity is kept and a missing or empty one is 'moderate' |
| MedicalRecord.WithoutAllergyFacts | src/composables/useMedicalRecord.js:329-343 | an absent id changes nothing; failure iff the id is present and the delete was not confirmed |
| MedicalRecord.NewContact | src/composables/useMedicalRecord.js:362-380 | name, phone and relationship are `sanitizeInput` of the input (`|| ''`) at 100/20/50 characters |
| MedicalRecord.FromBackend | src/composables/useMedicalRecord.js:66-127 | each backend list is mapped entry by entry: diseases keep code, id and name; medications their fields with `|| ''`; allergies the allergen, notes and a 'moderate' default; the info block gives blood type, contact, notes and update time, or the defaults when missing |
| MedicalRecord.Lookup | src/composables/useMedicalRecord.js:218-240 | a found catalogue disease has the entry's code |
| MedicalRecord.Resolve | src/composables/useMedicalRecord.js:218-240 | a catalogue entry resolves to that disease's id, code, name, category and common symptoms with the entry's dbId; an unknown named entry resolves to category "other" with its code as id and code; an unnamed unknown entry is dropped |
| MedicalRecord.UserDiseasesFacts | src/composables/useMedicalRecord.js:218-240 | the user-disease list is exactly the resolvable entries |
| MedicalRecord.RelatedDiseases | src/composables/useMedicalRecord.js:414-418 | every disease returned is a user disease whose symptoms list the symptom |
| MedicalRecord.StatsOf | src/composables/useMedicalRecord.js:421-428 | the totals are the list lengths; mental health is flagged iff some entry resolves to the mental category, which implies a chronic condition |
| MedicalRecord.IsSymptomRelatedAsWritten | src/composables/useMedicalRecord.js:406-411 | as written, only legacy code entries can relate a symptom |
| MedicalRecord.IsSymptomRelated | src/composables/useMedicalRecord.js:406-411 | a symptom is related iff some entry's catalogue disease lists it |
| MedicalRecord.ExpectedSymptomsCount | src/composables/useMedicalRecord.js:401-404 | `(s, n)` is expected iff some entry's disease lists `s`, and `n` counts those entries |
| MedicalRecord.RelatedIffExpected | src/composables/useMedicalRecord.js:401-411 | a symptom is related iff it is among the expected symptoms |
| MedicalRecord.RelatedIffRelatedDiseases | src/composables/useMedicalRecord.js:406-418 | a symptom is related iff some related disease exists |
| MedicalRecord.ObjectEntriesIgnored | src/composables/useMedicalRecord.js:401-411 | as written, a record holding only an object entry for F32 expects no symptoms and relates no symptom |
| MedicalRecord.ObjectEntriesFound | src/composables/useMedicalRecord.js:401-411 | corrected, the same record expects "fadiga" once and relates it |
| MedicalRecord.MedicalRecordStore.Save | src/composables/useMedicalRecord.js:129-148 | the update time is stamped and the record is stored |
| MedicalRecord.MedicalRecordStore.Load | src/composables/useMedicalRecord.js:66-127 | a backend answer replaces the record; a failure keeps the local record and marks local-only mode |
| MedicalRecord.MedicalRecordStore.AddDisease | src/composables/useMedicalRecord.js:158-189 | diseases become `WithDisease` of the old list; when something is added the record is stamped and stored; codes stay distinct |
| MedicalRecord.MedicalRecordStore.RemoveDisease | src/composables/useMedicalRecord.js:191-216 | reports failure exactly as `WithoutDisease` does and otherwise removes the entry and stores |
| MedicalRecord.MedicalRecordStore.AddMedication | src/composables/useMedicalRecord.js:243-271 | appends the new medication, stamps and stores |
| MedicalRecord.MedicalRecordStore.RemoveMedication | src/composables/useMedicalRecord.js:273-287 | fails exactly when the server refused; otherwise removes, stamps and stores |
| MedicalRecord.MedicalRecordStore.UpdateMedication | src/composables/useMedicalRecord.js:289-298 | patches the first match; an unknown id changes nothing |
| MedicalRecord.MedicalRecordStore.AddAllergy | src/composables/useMedicalRecord.js:301-327 | appends the new allergy, stamps and stores |
| MedicalRecord.MedicalRecordStore.RemoveAllergy | src/composables/useMedicalRecord.js:329-343 | fails exactly when the server refused; otherwise removes, stamps and stores |
| MedicalRecord.MedicalRecordStore.UpdateBloodType | src/composables/useMedicalRecord.js:346-360 | stores the sanitised blood type, at most 10 characters |
| MedicalRecord.MedicalRecordStore.UpdateEmergencyContact | src/composables/useMedicalRecord.js:362-380 | stores the sanitised contact |
| MedicalRecord.MedicalRecordStore.UpdateNotes | src/composables/useMedicalRecord.js:382-399 | stores the sanitised notes, at most 1000 characters |
| MedicalRecord.MedicalRecordStore.Reset | src/composables/useMedicalRecord.js:436-438 | the record returns to the default and storage is untouched |
| Wellness.TodayCheckin | src/composables/useWellness.js:60-65 | the first check-in dated today is found; none is found iff no check-in is dated today |
| Wellness.CheckinPayloadOf | src/composables/useWellness.js:32-58 | mood and energy are carried over; sleep quality and sleep hours are sent as given, or as null iff missing or zero; missing notes become ""; the date is today |
| Wellness.CheckinStore.LoadCheckins | src/composables/useWellness.js:16-30 | a backend answer replaces the list; a failure keeps it |
| Wellness.CheckinStore.AddCheckin | src/composables/useWellness.js:32-58 | sends the payload and reloads the list only when the backend accepted it |
| Wellness.AvgBounds | src/composables/useWellness.js:191-194 | averages of levels in 0..5 lie in 0..5 |
| Wellness.TrendsSwap | src/composables/useWellness.js:213-219 | swapping the weeks turns improving into worsening, and the reverse |
| Wellness.WellnessAnalysis | src/composables/useWellness.js:185-228 | no analysis without check-ins; the recent averages are those of the first seven check-ins and days tracked is min(7, n); previous averages, those of the next seven, and the trends between the two exist iff there are more than 7 check-ins |
| Wellness.WeeksDisjoint | src/composables/useWellness.js:70-85 | no symptom falls in both weeks, so the two weekly totals sum to at most the symptom count |
| Wellness.TrendOf | src/composables/useWellness.js:103-137 | the six per-type rules in the source's priority order, each with its trend and description (mild, gone, fewer than 70%, intensity down by more than 0.5, more than 130%, intensity up by more than 0.5), and stable when none applies or the type was not seen |
| Wellness.TypeAnalysis | src/composables/useWellness.js:88-153 | exactly the table's non-"outro" types seen this week or last week appear; each entry carries the type's counts, mean intensities and change in the two weeks and the trend and description the per-type rules give |
| Wellness.TrendPartition | src/composables/useWellness.js:88-170 | the improving, worsening and stable counts sum to the number of analysed types |
| Wellness.Overall | src/composables/useWellness.js:156-170 | improving iff more types improve than worsen; worsening iff the reverse; each trend with its message, and the no-records message iff stable with both weeks empty |
| Wellness.WeeklyTrendFacts | src/composables/useWellness.js:69-182 | the weekly totals are bounded by the symptom count, and the stable count and overall trend agree with the per-type trends |
| Wellness.Round | src/composables/useWellness.js:240 | `Math.round`: the result is within half a unit, ties going up |
| Wellness.Adjusted | src/composables/useWellness.js:244-248 | +10 capped at 100 when improving, -10 floored at 0 when worsening, unchanged otherwise |
| Wellness.Grade | src/composables/useWellness.js:250-272 | the level is chosen by the thresholds 80/60/40, each with its message and colour; "regular" is never returned |
| Wellness.GradeMonotone | src/composables/useWellness.js:250-272 | a higher score never gets a worse level |
| Wellness.HealthScore | src/composables/useWellness.js:232-273 | the level, message and colour match the score; the score is the rounded wellness average of the recent check-ins times 20, or the base 70 without check-ins, adjusted by the overall trend |
| Wellness.HealthScoreBounds | src/composables/useWellness.js:232-248 | with levels in 0..5 the score lies in 0..100 |
| Wellness.DiseaseTips | src/composables/useWellness.js:281-289 | the first two tips of the disease's id, or else its category, each tagged with the disease name; none when the table has neither |
| Wellness.TypeTips | src/composables/useWellness.js:293-298 | the type's first tip, and one iff the table has tips for it |
| Wellness.RecentTypes | src/composables/useWellness.js:292 | the types of the ten most recent symptoms, each once, in the order in which they are first seen |
| Wellness.HealthTipsFacts | src/composables/useWellness.js:277-307 | at most six tips, with distinct titles, all drawn from the gathered tips |
| Wellness.UniqueKeepsFirst | src/composables/useWellness.js:300-304 | the dedupe by title keeps the first tip of each title, in the order in which the titles are first seen |
| Wellness.HealthTipsFirstSeen | src/composables/useWellness.js:277-307 | each tip shown is the first gathered tip with its title, so a disease's tip wins over a later one with the same title, and tips come in first-gathered order |
| Wellness.HealthTipsComplete | src/composables/useWellness.js:300-306 | when at most six titles were gathered, every gathered title is shown |
| Wellness.GetHealthTips | src/composables/useWellness.js:277-307 | the three loops return exactly the specified tip list |
| Wellness.InteractionsWellFormed | src/composables/useWellness.js:400-457 | every known interaction is moderate or high and names two different drugs |
| Wellness.WarningsFromFacts | src/composables/useWellness.js:324-336 | a warning is issued iff both drugs occur inside some lower-cased medication name; one warning per triggered record, in table order (a subsequence of the table's warnings) |
| Wellness.ScheduleClashIff | src/composables/useWellness.js:348-350 | some medication has a schedule-mate iff two medications with different ids share a frequency |
| Wellness.CompatibilityFacts | src/composables/useWellness.js:311-365 | fewer than two medications gives no issues; issues iff warnings; the polypharmacy suggestion iff three or more; the schedule suggestion iff a clash |
| Wellness.CheckMedicationCompatibility | src/composables/useWellness.js:311-365 | the loops return exactly the specified compatibility report |
| Notifications.ValidAction | src/composables/useNotifications.js:110-121 | an action is kept iff its route starts with "/" and its sanitised label is non-empty |
| Notifications.Build | src/composables/useNotifications.js:94-131 | rejected iff the type is unknown or the sanitised title is empty; otherwise unread, with the given id and clock, the title sanitised to at most 100 characters, the message to at most 500, and the validated action |
| Notifications.AddTo | src/composables/useNotifications.js:133-144 | a duplicate within five minutes leaves the list unchanged; otherwise the notification is put first |
| Notifications.AddTwiceWithinWindow | src/composables/useNotifications.js:133-144 | adding the same type and title twice within five minutes adds once |
| Notifications.MarkRead | src/composables/useNotifications.js:150-157 | only the first notification with the id becomes read |
| Notifications.MarkReadUnread | src/composables/useNotifications.js:82-84 | marking an unread notification as read lowers the unread count by one; anything else keeps it |
| Notifications.Remove | src/composables/useNotifications.js:167-174 | the first notification with the id is removed; the others keep their order |
| Notifications.Saved | src/composables/useNotifications.js:72-76 | at most the first 50 notifications are saved |
| Notifications.AllReadNoUnread | src/composables/useNotifications.js:159-165 | after every notification is read the unread count is zero |
| Notifications.NewestFacts | src/composables/useNotifications.js:87-91 | the sorted view is newest first, a permutation of the list, and keeps ties in list order |
| Notifications.NotificationStore.AddNotification | src/composables/useNotifications.js:94-148 | returns the built notification; puts it first and saves it unless it is invalid or a duplicate |
| Notifications.NotificationStore.MarkAsRead | src/composables/useNotifications.js:150-157 | marks the first match and saves only if there was one |
| Notifications.NotificationStore.MarkAllAsRead | src/composables/useNotifications.js:159-165 | every notification becomes read and the unread count is zero |
| Notifications.NotificationStore.RemoveNotification | src/composables/useNotifications.js:167-174 | removes the first match and saves only if there was one |
| Notifications.NotificationStore.ClearAll | src/composables/useNotifications.js:176-179 | empties the list and the saved copy |
| Notifications.BucketBounds | src/composables/useNotifications.js:182-194 | each relative-time bucket corresponds to its range of elapsed milliseconds |
| Notifications.FormatRelativeTime | src/composables/useNotifications.js:182-199 | under a minute reads "Agora mesmo"; one day reads "Ontem"; a week or more reads the locale date |
| Security.StripTags | src/utils/security.js:20 | no `<…>` tag survives, and only characters of the input remain |
| Security.SanitizeInput | src/utils/security.js:12-25 | a non-string gives ""; the result has no tags and no stripped control characters, respects the maximum length, and uses only input characters; it is the first `maxLength` characters of the trimmed, tag- and control-stripped text, all of it when that fits |
| Security.StripTagsKeepsPlain | src/utils/security.js:20 | text without a tag is left unchanged by the tag removal |
| Security.CleanKeepsPlain | src/utils/security.js:16-22 | text without surrounding white space, tags or stripped control characters is unchanged by trimming and the two replacements |
| Security.SanitizeKeepsPlain | src/utils/security.js:12-25 | such text within the length cap is returned exactly as given |
| Security.EscapeChar | src/utils/security.js:33-50 | an escaped character contains no markup character; other characters are unchanged |
| Security.Escape | src/utils/security.js:33-50 | the escaped string contains no markup character |
| Security.EscapeIdentity | src/utils/security.js:33-50 | a string without special characters is unchanged |
| Security.EscapeRoundTrip | src/utils/security.js:33-50 | unescaping the entities recovers the original string |
| Security.SplitTwo | src/utils/security.js:69-74 | `split('@')` gives two parts iff there is exactly one '@', and the parts are the text on either side |
| Security.ValidateEmailIff | src/utils/security.js:57-106 | valid iff at most 254 characters with exactly one '@', a 1..64-character local part of allowed characters, and a 1..253-character dotted domain not starting or ending with '.' or '-' |
| Security.ValidateTime | src/utils/security.js:165-183 | an accepted time is returned unchanged |
| Security.FormatClockAccepted | src/utils/security.js:165-183 | every `HH:MM` with hours 0..23 and minutes 0..59 is accepted |
| Security.AcceptedTimeIsFormatted | src/utils/security.js:165-183 | every accepted time is such an `HH:MM` |
| Security.ValidateIntensity | src/utils/security.js:190-194 | the result lies in 1..5, and is 3 when nothing parses |
| Security.IntensityOfNumeral | src/utils/security.js:190-194 | a decimal numeral parses to its value and is clamped to 1..5 |
| Security.IntensityOfNegative | src/utils/security.js:190-194 | a negative numeral is clamped to 1 |
| Security.IsAlphanumeric | src/utils/security.js:219-224 | true iff a non-empty string of ASCII letters and digits |
| Security.ValidateDate | src/utils/security.js:113-158 | an accepted date is returned unchanged |
| Security.ValidateDateIff | src/utils/security.js:113-158 | accepted iff `YYYY-MM-DD`, year 1900..2100, a real calendar date, and between ten years ago and one year ahead |
| Security.NoFebruary29 | src/utils/security.js:133-143 | February 29 of a non-leap year is rejected |
| Security.ValidateSymptomsData | src/utils/security.js:325-343 | true iff an array of at most 10000 objects with string id, string type and numeric intensity |
| Security.ValidateNotificationsData | src/utils/security.js:367-385 | true iff an array of at most 100 objects with string id, type and title |
| Security.ValidateUserData | src/utils/security.js:350-360 | only an object can be valid user data |
| Security.Admit | src/utils/security.js:396-403 | a call runs iff at least the minimum interval has passed; only then is the last-call time updated |
| Security.RateLimiter.Call | src/utils/security.js:393-404 | the limiter's state follows `Admit` |
| Security.AcceptedSpacing | src/utils/security.js:393-404 | accepted calls are spaced at least the minimum interval apart |
| Calendar.DaysInMonth | src/utils/security.js:133-143 | 28..31 days, and 29 exactly for February of a leap year |
| Calendar.MakeDate | src/utils/security.js:133-143 | `new Date(y, m-1, d)` keeps the date iff the day exists in that month, and otherwise rolls over to a real date |
| Calendar.ShiftYears | src/utils/security.js:146-151 | `setFullYear` keeps month and day except for February 29 in a non-leap target year |
| Calendar.TimestampOrder | src/utils/security.js:153 | timestamps compare as (day number, time of day) |
| Calendar.DayNumberOrder | src/utils/security.js:153 | day numbers follow calendar order |
| PasswordValidator.ValidatePassword | src/utils/passwordValidator.ts:1-7 | accepted iff at least 8 characters with a lower-case letter, an upper-case letter, a digit and a special character; a short password reports length first |
| PasswordValidator.ValidateIsFirstFailure | src/utils/passwordValidator.ts:1-7 | the message is the one for the first unmet requirement, in source order |
| PasswordValidator.UnderscoreNotSpecial | src/utils/passwordValidator.ts:6 | an underscore does not count as a special character |
| Router.Resolve | src/router/index.js:4-63 | a listed path resolves to its own route; any other path string falls to "/" (paths are matched exactly, see "## Left out") |
| Router.Guard | src/router/index.js:71-99 | login redirect when not signed in; a signed-in guest page goes to onboarding or home; redirects only ever go to "/login", "/onboarding" or "/" |
| Router.GuardPassIff | src/router/index.js:71-99 | navigation passes iff auth, guest and onboarding requirements are all met |
| Router.OnboardingRedirects | src/router/index.js:90-95 | an unfinished onboarding is forced to "/onboarding", and a finished one is kept out of it |
| Router.NoRedirectLoop | src/router/index.js:71-99 | every redirect lands on a route the guard lets through |
| BreathingTimer.Advance | src/composables/useBreathingTimer.js:64-81 | next step; after the last step the next cycle; completion after the last step of the last cycle |
| BreathingTimer.AdvanceRemaining | src/composables/useBreathingTimer.js:64-81 | each advance uses up exactly one remaining step |
| BreathingTimer.ExerciseLength | src/composables/useBreathingTimer.js:50-88 | an exercise completes after exactly steps × cycles step ends |
| BreathingTimer.Timer.Start | src/composables/useBreathingTimer.js:17-24 | loads the exercise at step 0 of cycle 1, inactive |
| BreathingTimer.Timer.Play | src/composables/useBreathingTimer.js:26-30 | active and unpaused; a step starts when an exercise is loaded |
| BreathingTimer.Timer.Pause | src/composables/useBreathingTimer.js:32-37 | paused, interval stopped, position kept |
| BreathingTimer.Timer.Reset | src/composables/useBreathingTimer.js:39-48 | back to step 0 of cycle 1, inactive, interval stopped |
| BreathingTimer.Timer.Tick | src/composables/useBreathingTimer.js:58-87 | a paused tick changes nothing; an unfinished step counts 50 ms and keeps running; a finished step advances and schedules the next step from zero, or completes the exercise |
| StretchTimer.Countdown.Start | src/composables/useStretchTimer.js:9-13 | loads the stretch with its full duration, inactive |
| StretchTimer.Countdown.Play | src/composables/useStretchTimer.js:15-28 | active with the countdown running |
| StretchTimer.Countdown.Tick | src/composables/useStretchTimer.js:17-27 | counts down by one second; at zero it completes and stops |
| StretchTimer.Countdown.Pause | src/composables/useStretchTimer.js:30-35 | inactive and stopped, time kept |
| StretchTimer.Countdown.Reset | src/composables/useStretchTimer.js:37-45 | stopped, and the time restored when a stretch is loaded |
| StretchTimer.CountdownLength | src/composables/useStretchTimer.js:15-28 | a d-second stretch completes on tick d + 1 |
| StretchTimer.FormatTimeRecovers | src/composables/useStretchTimer.js:67-71 | `m:ss` reads back as the seconds, with two-digit seconds below 60 |
| Hydration.GoalIsTenCups | src/composables/useHydration.js:3-8 | the goal is ceil(2500 / 250) = 10 cups |
| Hydration.AddStep | src/composables/useHydration.js:17-25 | below the goal a cup is added and the goal is reported when reached; at the goal nothing changes |
| Hydration.AfterAddsClosedForm | src/composables/useHydration.js:17-25 | repeated adds saturate at the goal, and the goal is reported exactly once |
| Hydration.Tracker.Add | src/composables/useHydration.js:17-25 | the tracker follows `AddStep` |
| Hydration.Tracker.Remove | src/composables/useHydration.js:27-31 | one cup fewer, never below zero |
| Hydration.Tracker.ToggleReminder | src/composables/useHydration.js:50-53 | the flag flips; the interval runs iff it is on |
| Hydration.Tracker.ReminderTick | src/composables/useHydration.js:36-40 | reminds iff below the goal |

## Left out

- Network calls to the backend: each is a parameter saying how it answered.
  Transport, authentication tokens and `isLoading`/`error` flags are not modelled.
  `src/services/api.js` and `src/composables/useAuth.js` are not part of this model.
- Local storage is a field holding the last saved value. The alert store's
  own persistence (`loadAlerts`/`saveAlerts`) is not modelled. JSON parsing is
  represented by the `Security.Json` value the validators inspect.
- The clock, `Date.now()`, `new Date()` and the locale date string are
  parameters. So is date-string parsing in the weekly trend analysis.
  Timestamps are integer milliseconds, and ISO strings compare as their
  timestamps.
- Randomness is not modelled: `generateId`, `Math.random` in tips, and the
  shuffling of tips. Generated ids are parameters.
- `setInterval`/`clearInterval` are explicit `Tick` methods and `running` flags.
  Callbacks (`onComplete`, `onGoalReached`, `onReminder`) are returned booleans.
- Floating point: averages, the 0.7/1.3 trend ratios, the ±0.3 trend
  threshold and the health-score formula use exact reals. `toFixed`
  display strings and the percent-change figure are not modelled.
- Unicode normalisation (NFD plus mark stripping) is a fixed folding table
  for the Latin-1 letters used in Portuguese names. JavaScript's UTF-16
  string length is modelled as one unit per character.
- Display-only label tables and icons are left out.
  `useAutoNotifications` and the `wellnessData.js` content tables are not
  part of this model.
- `Text.Lower`: lower-casing covers ASCII and the Latin-1 capitals
  U+00C0 to U+00DE only. JavaScript's `toLowerCase` also lowers other
  scripts (such as 'Ā' to 'ā') and maps 'İ' to two code units.
- `Router.Resolve`: paths are matched exactly. vue-router matches them
  case-insensitively and ignores a trailing slash by default, so
  `/Sintomas/` reaches the symptoms route there and "/" here.
- `BreathingTimer.Timer.Play` and `StretchTimer.Countdown.Play`: calling
  `play` while an interval is already scheduled starts a second one without
  clearing the first (useBreathingTimer.js:26-30 and 58, useStretchTimer.js:15-17).
  A single `running` flag cannot represent two overlapping intervals, so the
  faster ticking that follows is not modelled.
- After `resetMedicalRecord`, the default record shares its arrays with the
  reset state in the source. The model uses values, so this aliasing is not
  captured.
- `Wellness.WellnessAnalysis`: the source's empty `trends` object is `None`.
- `Wellness.InThisWeek` and `Wellness.InLastWeek`: a week is 7 × 86,400,000 ms.
  The source steps back seven local calendar days with `setDate`, so a
  window spanning a daylight-saving change is an hour longer or shorter
  there; that shift is not modelled.
- `Symptoms.ReadStored`: the model assumes the backend's symptom ids are
  strings, so `validateSymptomsData` can reject only an over-long list.
  `loadSymptoms` caches each backend `item.id` as it comes
  (useSymptoms.js:83, 95) and `addSymptom` stores `response.id` as it comes
  (useSymptoms.js:172, 185-186). If the backend answers with numeric ids, as
  the `dbId: 1` example at useMedicalRecord.js:14 suggests for its other
  tables, the next validated read fails the `typeof item.id !== 'string'`
  test (security.js:338), removes the key and empties the offline list.
  The model does not represent numeric ids, so it keeps such a list.
- `Security.ValidateUserData`: the contract states only that valid data is an
  object. The three string-field checks are in its body but are not
  restated as a contract.
- `Notifications.FormatRelativeTime`: the contract fixes three of the six
  buckets. The minute, hour and day buckets are stated by
  `Notifications.BucketBounds`, and their text is not restated.
- `Wellness.HealthTipsComplete`: it requires that at most six distinct titles
  were gathered. Beyond six, only the first six distinct titles are shown,
  which `Wellness.HealthTipsFacts` bounds.
- `Security.ValidateTime` and `Security.ValidateDate`: their own contracts
  say only that an accepted value is returned unchanged. What is accepted
  is stated by the lemmas beside them.

## Findings

| source | as written | input that shows it | evidently intended | confidence | as-written member | corrected member |
|---|---|---|---|---|---|---|
| src/composables/useMedicalRecord.js:401-411 | `expectedSymptoms` passes `medicalRecord.diseases` and `isSymptomRelatedToConditions` looks up each entry with `getDiseaseById(entry)`. Entries are objects, because `addDisease` pushes objects and loading maps the backend rows to objects, so no lookup matches and both find nothing. | diseases `[{cid_code: "F32", id: 1, name: "Depressão"}]` and symptom "fadiga": as written, nothing is expected and "fadiga" is unrelated | look up each entry's CID code (`getCidCode`), so F32's symptoms are expected and "fadiga" is related | high (reasoned from the code, not executed) | MedicalRecord.ObjectEntriesIgnored | MedicalRecord.ObjectEntriesFound |
