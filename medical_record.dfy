/** The medical record of `useMedicalRecord`: the user's diseases,
    medications, allergies, blood type, emergency contact and notes, the
    store whose operations change them, and what is derived from them. The
    backend's answers, the generated ids and the clock are inputs. */
module MedicalRecord {
  import opened Wrappers
  import opened Seqs
  import opened SymptomTally
  import D = Diseases
  import Security

  // ---------------------------------------------------------------------
  // Disease entries

  /** An entry of `diseases`: a legacy string holding the ICD-10 code, or an
      object with `cidCode`, possibly the backend's `cid_code`, the backend
      id `dbId` and the name. A missing or null field is `None`. */
  datatype DiseaseEntry =
    | Legacy(code: string)
    | Linked(cidCode: Option<string>, backendCode: Option<string>, dbId: Option<int>, name: Option<string>)

  /** `getCidCode(entry)`: a string is its own code; an object gives its
      `cidCode` unless that is missing or empty, and then its `cid_code`. */
  function CidCode(e: DiseaseEntry): Option<string> {
    match e
    case Legacy(code) => Some(code)
    case Linked(cidCode, backendCode, _, _) =>
      if cidCode.Some? && cidCode.value != "" then cidCode else backendCode
  }

  /** `normalizeDiseaseEntry(entry)`: a string becomes an object with that
      code and no backend id; an object is returned as it is. */
  function Normalize(e: DiseaseEntry): (r: DiseaseEntry)
    ensures r.Linked?
    ensures e.Linked? ==> r == e
    ensures e.Legacy? ==> r.dbId.None?
    ensures e.Legacy? && e.code == "" ==> CidCode(r).None?
    ensures !(e.Legacy? && e.code == "") ==> CidCode(r) == CidCode(e)
  {
    match e
    case Legacy(code) => Linked(Some(code), None, None, None)
    case Linked(_, _, _, _) => e
  }

  /** `entry.dbId` is truthy: the entry is linked to a backend row. */
  predicate HasDbId(e: DiseaseEntry) {
    e.Linked? && e.dbId.Some? && e.dbId.value != 0
  }

  function CodeIs(code: Option<string>): DiseaseEntry -> bool {
    (e: DiseaseEntry) => CidCode(e) == code
  }

  /** `hasDiseaseByCode(cidCode)`. */
  function HasDiseaseByCode(ds: seq<DiseaseEntry>, code: string): (r: bool)
    ensures r <==> exists i :: 0 <= i < |ds| && CidCode(ds[i]) == Some(code)
  {
    FirstIndex(ds, CodeIs(Some(code))).Some?
  }

  /** No two entries share a code; entries without a code are not compared. */
  ghost predicate CodesDistinct(ds: seq<DiseaseEntry>) {
    forall i, j :: 0 <= i < j < |ds| && CidCode(ds[i]).Some? ==> CidCode(ds[i]) != CidCode(ds[j])
  }

  /** A catalogue id is never empty. */
  lemma CatalogueIdNotEmpty(code: string)
    requires D.GetDiseaseById(code).Some?
    ensures code != ""
  {
    var d := D.GetDiseaseById(code).value;
    var j :| 0 <= j < |D.Diseases| && D.Diseases[j] == d;
    D.TableMember(j);
  }

  // ---------------------------------------------------------------------
  // validateMedicalRecord

  /** The value stored under `key`, when `data` is an object holding one. */
  function Field(data: Security.Json, key: string): Option<Security.Json> {
    if data.JObject? && key in data.fields then Some(data.fields[key]) else None
  }

  predicate IsArray(v: Option<Security.Json>) {
    v.Some? && v.value.JArray?
  }

  /** `validateMedicalRecord(data)`: the stored record is accepted exactly
      when it is an object (an array has no named fields) whose `diseases`,
      `medications` and `allergies` are arrays. */
  function ValidateMedicalRecord(data: Security.Json): (r: bool)
    ensures r <==> (data.JObject?
      && "diseases" in data.fields && data.fields["diseases"].JArray?
      && "medications" in data.fields && data.fields["medications"].JArray?
      && "allergies" in data.fields && data.fields["allergies"].JArray?)
  {
    if !Security.IsObject(data) then false
    else if !IsArray(Field(data, "diseases")) then false
    else if !IsArray(Field(data, "medications")) then false
    else if !IsArray(Field(data, "allergies")) then false
    else true
  }

  // ---------------------------------------------------------------------
  // The record

  datatype Medication = Medication(
    id: string, name: string, dosage: string, frequency: string, notes: string,
    active: Option<bool>, createdAt: Option<string>)

  datatype Allergy = Allergy(
    id: string, name: string, severity: string, notes: string, createdAt: Option<string>)

  datatype Contact = Contact(name: string, phone: string, relationship: string)

  datatype Record = Record(
    diseases: seq<DiseaseEntry>, medications: seq<Medication>, allergies: seq<Allergy>,
    bloodType: string, emergencyContact: Contact, notes: string, updatedAt: Option<string>)

  /** `defaultMedicalRecord`. */
  const Default := Record([], [], [], "", Contact("", "", ""), "", None)

  // ---------------------------------------------------------------------
  // addDisease

  /** What `api.addDiseaseToRecord` did: it threw, or it answered, with the
      new row's id when the answer is ok and holds a disease. */
  datatype AddAnswer = Unreachable | Answered(dbId: Option<int>)

  function DbIdOf(answer: AddAnswer): Option<int> {
    if answer.Answered? then answer.dbId else None
  }

  /** The diseases after `addDisease(code)`: unchanged when the code is
      already there or is not in the catalogue, and otherwise with one entry
      for it appended. */
  function WithDisease(ds: seq<DiseaseEntry>, code: string, dbId: Option<int>): (r: seq<DiseaseEntry>)
    ensures HasDiseaseByCode(ds, code) || D.GetDiseaseById(code).None? ==> r == ds
    ensures !HasDiseaseByCode(ds, code) && D.GetDiseaseById(code).Some? ==>
      r == ds + [Linked(Some(code), None, dbId, Some(D.GetDiseaseById(code).value.name))]
    ensures HasDiseaseByCode(r, code) <==> HasDiseaseByCode(ds, code) || D.GetDiseaseById(code).Some?
  {
    if HasDiseaseByCode(ds, code) then ds
    else match D.GetDiseaseById(code)
      case None => ds
      case Some(d) =>
        CatalogueIdNotEmpty(code);
        var r := ds + [Linked(Some(code), None, dbId, Some(d.name))];
        assert CidCode(r[|ds|]) == Some(code);
        r
  }

  /** Adding keeps the codes distinct. */
  lemma WithDiseaseKeepsCodesDistinct(ds: seq<DiseaseEntry>, code: string, dbId: Option<int>)
    requires CodesDistinct(ds)
    ensures CodesDistinct(WithDisease(ds, code, dbId))
  {
    var r := WithDisease(ds, code, dbId);
    if r != ds {
      CatalogueIdNotEmpty(code);
      assert CidCode(r[|ds|]) == Some(code);
      forall i, j | 0 <= i < j < |r| && CidCode(r[i]).Some? ensures CidCode(r[i]) != CidCode(r[j]) {
        if j == |ds| {
          assert r[i] == ds[i];
        } else {
          assert r[i] == ds[i] && r[j] == ds[j];
        }
      }
    }
  }

  // ---------------------------------------------------------------------
  // Removals confirmed by the backend

  /** The call threw: the backend did not confirm a removal it had to. */
  datatype RemoveFailed = RemoveFailed

  /** A removal of the first element `p` picks (`findIndex` then `splice`):
      nothing happens when there is none; when `needsBackend` holds of it the
      backend must confirm, and otherwise the call fails and the list stays
      as it is. */
  function RemoveConfirmed<T>(xs: seq<T>, p: T -> bool, needsBackend: T -> bool, confirmed: bool)
    : (r: Result<seq<T>, RemoveFailed>)
    ensures FirstIndex(xs, p).None? ==> r == Ok(xs)
    ensures r.Err? <==> FirstIndex(xs, p).Some? && needsBackend(xs[FirstIndex(xs, p).value]) && !confirmed
    ensures r.Ok? && FirstIndex(xs, p).Some? ==> r.value == RemoveAt(xs, FirstIndex(xs, p).value)
    ensures r.Ok? ==> |xs| - 1 <= |r.value| <= |xs| && multiset(r.value) <= multiset(xs)
  {
    match FirstIndex(xs, p)
    case None => Ok(xs)
    case Some(k) =>
      if needsBackend(xs[k]) && !confirmed then Err(RemoveFailed) else Ok(RemoveAt(xs, k))
  }

  /** At most one element satisfies `p`. */
  ghost predicate AtMostOne<T>(xs: seq<T>, p: T -> bool) {
    forall i, j :: 0 <= i < j < |xs| && p(xs[i]) ==> !p(xs[j])
  }

  /** When at most one element is picked, a removal that succeeds leaves
      none. */
  lemma RemoveConfirmedLeavesNone<T>(xs: seq<T>, p: T -> bool, needsBackend: T -> bool, confirmed: bool)
    requires AtMostOne(xs, p)
    requires RemoveConfirmed(xs, p, needsBackend, confirmed).Ok?
    ensures forall j :: 0 <= j < |RemoveConfirmed(xs, p, needsBackend, confirmed).value| ==>
      !p(RemoveConfirmed(xs, p, needsBackend, confirmed).value[j])
  {
    var r := RemoveConfirmed(xs, p, needsBackend, confirmed).value;
    var found := FirstIndex(xs, p);
    if found.Some? {
      var k := found.value;
      forall j | 0 <= j < |r| ensures !p(r[j]) {
        if j >= k {
          assert r[j] == xs[j + 1];
        }
      }
    }
  }

  /** Removing what was just appended, with the backend's confirmation when
      it is needed, gives the list back. */
  lemma RemoveAppended<T>(xs: seq<T>, x: T, p: T -> bool, needsBackend: T -> bool, confirmed: bool)
    requires p(x) && forall i :: 0 <= i < |xs| ==> !p(xs[i])
    requires needsBackend(x) ==> confirmed
    ensures RemoveConfirmed(xs + [x], p, needsBackend, confirmed) == Ok(xs)
  {
    var s := xs + [x];
    FirstIndexUnique(s, p, |xs|);
    assert RemoveAt(s, |xs|) == xs;
  }

  // ---------------------------------------------------------------------
  // removeDisease

  /** The code `removeDisease` looks for: a string argument is the code
      itself, and an object gives its `cidCode` (and not its `cid_code`). */
  function TargetCode(target: DiseaseEntry): Option<string> {
    match target
    case Legacy(code) => Some(code)
    case Linked(cidCode, _, _, _) => cidCode
  }

  /** The entry must be removed in the backend too: once normalised it has
      a truthy `dbId`. */
  function NeedsBackend(): DiseaseEntry -> bool {
    (e: DiseaseEntry) => HasDbId(Normalize(e))
  }

  /** The diseases after `removeDisease(target)`, or the error it throws. */
  function WithoutDisease(ds: seq<DiseaseEntry>, target: DiseaseEntry, confirmed: bool)
    : Result<seq<DiseaseEntry>, RemoveFailed>
  {
    RemoveConfirmed(ds, CodeIs(TargetCode(target)), NeedsBackend(), confirmed)
  }

  /** A legacy string entry or an object without a truthy `dbId` is always
      removed; one with a `dbId` only when the backend confirms. */
  lemma WithoutDiseaseFails(ds: seq<DiseaseEntry>, target: DiseaseEntry, confirmed: bool)
    ensures WithoutDisease(ds, target, confirmed).Err? <==>
      exists k :: FirstIndex(ds, CodeIs(TargetCode(target))) == Some(k) && HasDbId(ds[k]) && !confirmed
  {
    var found := FirstIndex(ds, CodeIs(TargetCode(target)));
    if found.Some? {
      assert HasDbId(Normalize(ds[found.value])) == HasDbId(ds[found.value]);
    }
  }

  /** With distinct codes, a removal by a code that succeeds leaves no entry
      with that code, and keeps the codes distinct. */
  lemma WithoutDiseaseGone(ds: seq<DiseaseEntry>, code: string, confirmed: bool)
    requires CodesDistinct(ds)
    requires WithoutDisease(ds, Legacy(code), confirmed).Ok?
    ensures !HasDiseaseByCode(WithoutDisease(ds, Legacy(code), confirmed).value, code)
    ensures CodesDistinct(WithoutDisease(ds, Legacy(code), confirmed).value)
  {
    var p := CodeIs(Some(code));
    assert AtMostOne(ds, p) by {
      forall i, j | 0 <= i < j < |ds| && p(ds[i]) ensures !p(ds[j]) {
        assert CidCode(ds[i]).Some?;
      }
    }
    RemoveConfirmedLeavesNone(ds, p, NeedsBackend(), confirmed);
    var r := WithoutDisease(ds, Legacy(code), confirmed).value;
    var found := FirstIndex(ds, p);
    if found.Some? {
      var k := found.value;
      forall i, j | 0 <= i < j < |r| && CidCode(r[i]).Some? ensures CidCode(r[i]) != CidCode(r[j]) {
        var i' := if i < k then i else i + 1;
        var j' := if j < k then j else j + 1;
        assert r[i] == ds[i'] && r[j] == ds[j'];
      }
    }
  }

  /** Adding a catalogue disease that is not there and then removing it,
      with the backend's confirmation when the new entry has a `dbId`,
      gives the diseases back. */
  lemma AddRemoveDisease(ds: seq<DiseaseEntry>, code: string, dbId: Option<int>, confirmed: bool)
    requires !HasDiseaseByCode(ds, code) && D.GetDiseaseById(code).Some?
    requires dbId.Some? && dbId.value != 0 ==> confirmed
    ensures WithoutDisease(WithDisease(ds, code, dbId), Legacy(code), confirmed) == Ok(ds)
  {
    CatalogueIdNotEmpty(code);
    var x := Linked(Some(code), None, dbId, Some(D.GetDiseaseById(code).value.name));
    RemoveAppended(ds, x, CodeIs(Some(code)), NeedsBackend(), confirmed);
  }

  // ---------------------------------------------------------------------
  // Medications

  /** The form `addMedication` receives; a missing field is `None`. */
  datatype MedicationInput = MedicationInput(
    name: Option<string>, dosage: Option<string>, frequency: Option<string>, notes: Option<string>)

  /** `value || ''`. */
  function OrEmpty(value: Option<string>): Option<string> {
    Some(value.GetOr(""))
  }

  /** The medication `addMedication` builds: the fields sanitised and capped,
      and the generated id replaced by the server's when it answers with one. */
  function NewMedication(input: MedicationInput, id: string, createdAt: string, serverId: Option<string>)
    : (m: Medication)
    ensures m.id == serverId.GetOr(id) && m.createdAt == Some(createdAt) && m.active.None?
    ensures |m.name| <= 100 && |m.dosage| <= 50 && |m.frequency| <= 50 && |m.notes| <= 200
    ensures input.name.None? ==> m.name == ""
    ensures input.dosage.None? ==> m.dosage == ""
    ensures m.name == Security.SanitizeInput(input.name, 100)
    ensures m.dosage == Security.SanitizeInput(OrEmpty(input.dosage), 50)
    ensures m.frequency == Security.SanitizeInput(OrEmpty(input.frequency), 50)
    ensures m.notes == Security.SanitizeInput(OrEmpty(input.notes), 200)
  {
    Medication(
      serverId.GetOr(id),
      Security.SanitizeInput(input.name, 100),
      Security.SanitizeInput(OrEmpty(input.dosage), 50),
      Security.SanitizeInput(OrEmpty(input.frequency), 50),
      Security.SanitizeInput(OrEmpty(input.notes), 200),
      None,
      Some(createdAt))
  }

  function MedicationIdIs(id: string): Medication -> bool {
    (m: Medication) => m.id == id
  }

  /** A medication is always removed in the backend first. */
  function Always<T>(): T -> bool {
    (x: T) => true
  }

  /** The medications after `removeMedication(id)`, or the error it throws. */
  function WithoutMedication(ms: seq<Medication>, id: string, confirmed: bool)
    : Result<seq<Medication>, RemoveFailed>
  {
    RemoveConfirmed(ms, MedicationIdIs(id), Always(), confirmed)
  }

  /** An unknown id changes nothing; a known one fails unless confirmed. */
  lemma WithoutMedicationFacts(ms: seq<Medication>, id: string, confirmed: bool)
    ensures (forall k :: 0 <= k < |ms| ==> ms[k].id != id) ==> WithoutMedication(ms, id, confirmed) == Ok(ms)
    ensures WithoutMedication(ms, id, confirmed).Err? <==> !confirmed && exists k :: 0 <= k < |ms| && ms[k].id == id
  {
  }

  /** A medication just added with an id no other has is removed again by
      that id once the backend confirms. */
  lemma AddRemoveMedication(ms: seq<Medication>, input: MedicationInput, id: string, createdAt: string,
                            serverId: Option<string>)
    requires forall k :: 0 <= k < |ms| ==> ms[k].id != serverId.GetOr(id)
    ensures WithoutMedication(ms + [NewMedication(input, id, createdAt, serverId)], serverId.GetOr(id), true) == Ok(ms)
  {
    RemoveAppended(ms, NewMedication(input, id, createdAt, serverId), MedicationIdIs(serverId.GetOr(id)),
                   Always(), true);
  }

  /** The `updates` of `updateMedication`: a field that is given replaces
      the medication's; the spread copies any key, the creation time
      included. */
  datatype MedicationPatch = MedicationPatch(
    id: Option<string>, name: Option<string>, dosage: Option<string>, frequency: Option<string>,
    notes: Option<string>, active: Option<bool>, createdAt: Option<string>)

  const NoPatch := MedicationPatch(None, None, None, None, None, None, None)

  /** `{ ...m, ...updates }`: each field the updates carry replaces the
      medication's and each one they leave out is kept. */
  function Patched(m: Medication, u: MedicationPatch): (r: Medication)
    ensures u == NoPatch ==> r == m
    ensures u.id.Some? ==> r.id == u.id.value
    ensures u.id.None? ==> r.id == m.id
    ensures u.name.Some? ==> r.name == u.name.value
    ensures u.name.None? ==> r.name == m.name
    ensures u.dosage.Some? ==> r.dosage == u.dosage.value
    ensures u.dosage.None? ==> r.dosage == m.dosage
    ensures u.frequency.Some? ==> r.frequency == u.frequency.value
    ensures u.frequency.None? ==> r.frequency == m.frequency
    ensures u.notes.Some? ==> r.notes == u.notes.value
    ensures u.notes.None? ==> r.notes == m.notes
    ensures u.active.Some? ==> r.active == u.active
    ensures u.active.None? ==> r.active == m.active
    ensures u.createdAt.Some? ==> r.createdAt == u.createdAt
    ensures u.createdAt.None? ==> r.createdAt == m.createdAt
  {
    Medication(
      u.id.GetOr(m.id), u.name.GetOr(m.name), u.dosage.GetOr(m.dosage), u.frequency.GetOr(m.frequency),
      u.notes.GetOr(m.notes), if u.active.Some? then u.active else m.active,
      if u.createdAt.Some? then u.createdAt else m.createdAt)
  }

  /** Applying the same updates twice is applying them once. */
  lemma PatchedIdempotent(m: Medication, u: MedicationPatch)
    ensures Patched(Patched(m, u), u) == Patched(m, u)
  {
  }

  /** The medications after `updateMedication(id, updates)`: the first with
      the id is patched, the others stay as they are, and an unknown id
      changes nothing. */
  function UpdatedMedications(ms: seq<Medication>, id: string, u: MedicationPatch): (r: seq<Medication>)
    ensures |r| == |ms|
    ensures (forall k :: 0 <= k < |ms| ==> ms[k].id != id) ==> r == ms
    ensures forall k :: 0 <= k < |ms| && ms[k].id != id ==> r[k] == ms[k]
    ensures forall k :: 0 <= k < |ms| && ms[k].id == id && (forall j :: 0 <= j < k ==> ms[j].id != id) ==>
      r[k] == Patched(ms[k], u)
  {
    match FirstIndex(ms, MedicationIdIs(id))
    case None => ms
    case Some(k) => ms[k := Patched(ms[k], u)]
  }

  // ---------------------------------------------------------------------
  // Allergies

  datatype AllergyInput = AllergyInput(name: Option<string>, severity: Option<string>, notes: Option<string>)

  const DefaultSeverity := "moderate"

  /** `value || fallback` for a string. */
  function OrElse(value: Option<string>, fallback: string): string {
    if value.Some? && value.value != "" then value.value else fallback
  }

  /** The allergy `addAllergy` builds: name and notes sanitised and capped,
      the severity as given (not sanitised) or `'moderate'`, and the
      generated id replaced by the server's when it answers with one. */
  function NewAllergy(input: AllergyInput, id: string, createdAt: string, serverId: Option<string>)
    : (a: Allergy)
    ensures a.id == serverId.GetOr(id) && a.createdAt == Some(createdAt)
    ensures |a.name| <= 100 && |a.notes| <= 200
    ensures a.severity != ""
    ensures input.severity.Some? && input.severity.value != "" ==> a.severity == input.severity.value
    ensures input.severity.None? || input.severity.value == "" ==> a.severity == DefaultSeverity
    ensures a.name == Security.SanitizeInput(input.name, 100)
    ensures a.notes == Security.SanitizeInput(OrEmpty(input.notes), 200)
  {
    Allergy(
      serverId.GetOr(id),
      Security.SanitizeInput(input.name, 100),
      OrElse(input.severity, DefaultSeverity),
      Security.SanitizeInput(OrEmpty(input.notes), 200),
      Some(createdAt))
  }

  function AllergyIdIs(id: string): Allergy -> bool {
    (a: Allergy) => a.id == id
  }

  /** The allergies after `removeAllergy(id)`, or the error it throws. */
  function WithoutAllergy(as_: seq<Allergy>, id: string, confirmed: bool): Result<seq<Allergy>, RemoveFailed> {
    RemoveConfirmed(as_, AllergyIdIs(id), Always(), confirmed)
  }

  /** An unknown id changes nothing; a known one fails unless confirmed. */
  lemma WithoutAllergyFacts(as_: seq<Allergy>, id: string, confirmed: bool)
    ensures (forall k :: 0 <= k < |as_| ==> as_[k].id != id) ==> WithoutAllergy(as_, id, confirmed) == Ok(as_)
    ensures WithoutAllergy(as_, id, confirmed).Err? <==> !confirmed && exists k :: 0 <= k < |as_| && as_[k].id == id
  {
  }

  // ---------------------------------------------------------------------
  // Other information

  datatype ContactInput = ContactInput(name: Option<string>, phone: Option<string>, relationship: Option<string>)

  /** The contact `updateEmergencyContact` stores. */
  function NewContact(c: ContactInput): (r: Contact)
    ensures |r.name| <= 100 && |r.phone| <= 20 && |r.relationship| <= 50
    ensures c.name.None? ==> r.name == ""
    ensures r.name == Security.SanitizeInput(OrEmpty(c.name), 100)
    ensures r.phone == Security.SanitizeInput(OrEmpty(c.phone), 20)
    ensures r.relationship == Security.SanitizeInput(OrEmpty(c.relationship), 50)
  {
    Contact(
      Security.SanitizeInput(OrEmpty(c.name), 100),
      Security.SanitizeInput(OrEmpty(c.phone), 20),
      Security.SanitizeInput(OrEmpty(c.relationship), 50))
  }

  // ---------------------------------------------------------------------
  // loadMedicalRecord

  datatype BackendDisease = BackendDisease(id: Option<int>, cidCode: Option<string>, diseaseName: Option<string>)

  datatype BackendMedication = BackendMedication(
    id: string, name: string, dosage: Option<string>, frequency: Option<string>, notes: Option<string>,
    active: Option<bool>)

  datatype BackendAllergy = BackendAllergy(
    id: string, allergen: string, severity: Option<string>, notes: Option<string>)

  /** `response.medical_record`. */
  datatype BackendInfo = BackendInfo(
    bloodType: Option<string>, contactName: Option<string>, contactPhone: Option<string>,
    contactRelationship: Option<string>, observations: Option<string>, updatedAt: Option<string>)

  /** An ok answer of `api.getMedicalRecord`; a missing part is `None`. */
  datatype BackendRecord = BackendRecord(
    info: Option<BackendInfo>, diseases: Option<seq<BackendDisease>>,
    medications: Option<seq<BackendMedication>>, allergies: Option<seq<BackendAllergy>>)

  function DiseaseFromBackend(d: BackendDisease): DiseaseEntry {
    Linked(d.cidCode, None, d.id, d.diseaseName)
  }

  function MedicationFromBackend(m: BackendMedication): Medication {
    Medication(m.id, m.name, m.dosage.GetOr(""), m.frequency.GetOr(""), m.notes.GetOr(""), m.active, None)
  }

  function AllergyFromBackend(a: BackendAllergy): Allergy {
    Allergy(a.id, a.allergen, OrElse(a.severity, DefaultSeverity), a.notes.GetOr(""), None)
  }

  /** The record `loadMedicalRecord` builds from an ok answer: one entry per
      row, in order, each disease linked to its backend id, and the other
      information defaulting to empty text. */
  function FromBackend(b: BackendRecord): (r: Record)
    ensures |r.diseases| == |b.diseases.GetOr([])| && |r.medications| == |b.medications.GetOr([])|
    ensures |r.allergies| == |b.allergies.GetOr([])|
    ensures forall i :: 0 <= i < |r.diseases| ==>
      r.diseases[i].Linked? && r.diseases[i].dbId == b.diseases.value[i].id
      && r.diseases[i].cidCode == b.diseases.value[i].cidCode
      && r.diseases[i].name == b.diseases.value[i].diseaseName && r.diseases[i].backendCode.None?
    ensures forall i :: 0 <= i < |r.medications| ==>
      var m, x := r.medications[i], b.medications.value[i];
      m.id == x.id && m.name == x.name && m.dosage == x.dosage.GetOr("") && m.frequency == x.frequency.GetOr("")
      && m.notes == x.notes.GetOr("") && m.active == x.active && m.createdAt.None?
    ensures forall i :: 0 <= i < |r.allergies| ==>
      var a, x := r.allergies[i], b.allergies.value[i];
      a.id == x.id && a.name == x.allergen && a.notes == x.notes.GetOr("") && a.createdAt.None?
      && (x.severity.Some? && x.severity.value != "" ==> a.severity == x.severity.value)
      && (x.severity.None? || x.severity.value == "" ==> a.severity == DefaultSeverity)
    ensures b.info.None? ==>
      r.bloodType == "" && r.emergencyContact == Contact("", "", "") && r.notes == "" && r.updatedAt.None?
    ensures b.info.Some? ==>
      var x := b.info.value;
      r.bloodType == x.bloodType.GetOr("") && r.notes == x.observations.GetOr("") && r.updatedAt == x.updatedAt
      && r.emergencyContact
         == Contact(x.contactName.GetOr(""), x.contactPhone.GetOr(""), x.contactRelationship.GetOr(""))
  {
    var info := b.info.GetOr(BackendInfo(None, None, None, None, None, None));
    Record(
      Map(b.diseases.GetOr([]), DiseaseFromBackend),
      Map(b.medications.GetOr([]), MedicationFromBackend),
      Map(b.allergies.GetOr([]), AllergyFromBackend),
      info.bloodType.GetOr(""),
      Contact(info.contactName.GetOr(""), info.contactPhone.GetOr(""), info.contactRelationship.GetOr("")),
      info.observations.GetOr(""),
      info.updatedAt)
  }

  // ---------------------------------------------------------------------
  // userDiseases

  /** An element of `userDiseases`: a catalogue disease with the entry's
      `dbId`, or a record built from a backend entry the catalogue does not
      know, which lists no symptoms. */
  datatype UserDisease = UserDisease(
    id: Option<string>, code: Option<string>, name: string, category: string,
    commonSymptoms: Option<seq<string>>, dbId: Option<int>)

  /** `getDiseaseById(getCidCode(entry))`. */
  function Lookup(e: DiseaseEntry): (r: Option<D.Disease>)
    ensures r.Some? ==> CidCode(e) == Some(r.value.id) && r.value in D.Diseases
  {
    match CidCode(e)
    case None => None
    case Some(code) => D.GetDiseaseById(code)
  }

  /** `entry.name` is truthy on an object entry. */
  predicate Named(e: DiseaseEntry) {
    e.Linked? && e.name.Some? && e.name.value != ""
  }

  /** `entry.dbId`: a string entry has none. */
  function EntryDbId(e: DiseaseEntry): Option<int> {
    if e.Linked? then e.dbId else None
  }

  /** What `userDiseases` makes of one entry: its catalogue disease when the
      code resolves, otherwise a category-`'other'` record for a named object,
      and otherwise nothing. */
  function Resolve(e: DiseaseEntry): (r: Option<UserDisease>)
    ensures r.None? <==> Lookup(e).None? && !Named(e)
    ensures r.Some? ==> r.value.dbId == EntryDbId(e)
    ensures r.Some? ==> (r.value.commonSymptoms.Some? <==> Lookup(e).Some?)
    ensures Lookup(e).Some? ==>
      r.Some? && r.value.id == CidCode(e) && r.value.commonSymptoms == Some(Lookup(e).value.commonSymptoms)
    ensures Lookup(e).Some? ==>
      var d := Lookup(e).value;
      r.Some? && r.value.name == d.name && r.value.code == Some(d.code) && r.value.category == d.category
    ensures Lookup(e).None? && r.Some? ==>
      r.value.category == "other" && r.value.name == e.name.value && r.value.code == e.cidCode
      && r.value.id == e.cidCode
  {
    match Lookup(e)
    case Some(d) => Some(UserDisease(Some(d.id), Some(d.code), d.name, d.category, Some(d.commonSymptoms), EntryDbId(e)))
    case None =>
      if Named(e) then Some(UserDisease(e.cidCode, e.cidCode, e.name.value, "other", None, e.dbId))
      else None
  }

  function ResolveFn(): DiseaseEntry -> Option<UserDisease> {
    (e: DiseaseEntry) => Resolve(e)
  }

  /** `userDiseases`. */
  function UserDiseases(ds: seq<DiseaseEntry>): seq<UserDisease> {
    FilterMap(ds, ResolveFn())
  }

  /** `userDiseases` holds the resolution of every entry that resolves and
      nothing else, and no more elements than there are entries. */
  lemma UserDiseasesFacts(ds: seq<DiseaseEntry>)
    ensures |UserDiseases(ds)| <= |ds|
    ensures forall i :: 0 <= i < |ds| && (Lookup(ds[i]).Some? || Named(ds[i])) ==>
      Resolve(ds[i]).value in UserDiseases(ds)
    ensures forall j :: 0 <= j < |UserDiseases(ds)| ==>
      exists i :: 0 <= i < |ds| && Resolve(ds[i]) == Some(UserDiseases(ds)[j])
  {
  }

  /** `commonSymptoms?.includes(symptom)`. */
  function ListsSymptom(symptom: string): UserDisease -> bool {
    (u: UserDisease) => u.commonSymptoms.Some? && symptom in u.commonSymptoms.value
  }

  /** `getRelatedDiseases(symptomType)`: the user's diseases that list the
      symptom, in order; the records built from backend entries list none. */
  function RelatedDiseases(ds: seq<DiseaseEntry>, symptom: string): (r: seq<UserDisease>)
    ensures forall u :: u in r ==> u in UserDiseases(ds) && u.commonSymptoms.Some? && symptom in u.commonSymptoms.value
  {
    Filter(UserDiseases(ds), ListsSymptom(symptom))
  }

  // ---------------------------------------------------------------------
  // stats

  datatype Stats = Stats(
    totalDiseases: nat, totalMedications: nat, totalAllergies: nat,
    hasMentalHealth: bool, hasChronicCondition: bool, lastUpdated: Option<string>)

  function IsMental(): UserDisease -> bool {
    (u: UserDisease) => u.category == "mental"
  }

  /** Some user disease is of category `'mental'` exactly when some entry
      resolves to one. */
  lemma MentalIff(ds: seq<DiseaseEntry>)
    ensures FirstIndex(UserDiseases(ds), IsMental()).Some? <==>
      exists i :: 0 <= i < |ds| && Resolve(ds[i]).Some? && Resolve(ds[i]).value.category == "mental"
  {
    var ud := UserDiseases(ds);
    UserDiseasesFacts(ds);
    if FirstIndex(ud, IsMental()).Some? {
      var j := FirstIndex(ud, IsMental()).value;
      var i :| 0 <= i < |ds| && Resolve(ds[i]) == Some(ud[j]);
    }
    if exists i :: 0 <= i < |ds| && Resolve(ds[i]).Some? && Resolve(ds[i]).value.category == "mental" {
      var i :| 0 <= i < |ds| && Resolve(ds[i]).Some? && Resolve(ds[i]).value.category == "mental";
      var u := Resolve(ds[i]).value;
      assert u in ud;
      var j :| 0 <= j < |ud| && ud[j] == u;
      assert IsMental()(ud[j]);
    }
  }

  /** `stats`: the totals are the list lengths; mental health is flagged
      exactly when an entry resolves to a disease of category `'mental'`, and
      then there is a chronic condition too. */
  function StatsOf(rec: Record): (r: Stats)
    ensures r.totalDiseases == |rec.diseases| && r.totalMedications == |rec.medications|
    ensures r.totalAllergies == |rec.allergies| && r.lastUpdated == rec.updatedAt
    ensures r.hasChronicCondition <==> |rec.diseases| > 0
    ensures r.hasMentalHealth <==>
      exists i :: 0 <= i < |rec.diseases| && Resolve(rec.diseases[i]).Some?
        && Resolve(rec.diseases[i]).value.category == "mental"
    ensures r.hasMentalHealth ==> r.hasChronicCondition
  {
    MentalIff(rec.diseases);
    var mental := FirstIndex(UserDiseases(rec.diseases), IsMental()).Some?;
    Stats(|rec.diseases|, |rec.medications|, |rec.allergies|, mental, |rec.diseases| > 0, rec.updatedAt)
  }

  // ---------------------------------------------------------------------
  // expectedSymptoms and isSymptomRelatedToConditions

  /** The common symptoms of the disease an entry resolves to. */
  function EntrySymptoms(e: DiseaseEntry): seq<string> {
    match Lookup(e)
    case None => []
    case Some(d) => d.commonSymptoms
  }

  function LegacyCode(e: DiseaseEntry): Option<string> {
    if e.Legacy? then Some(e.code) else None
  }

  function LegacyCodeFn(): DiseaseEntry -> Option<string> {
    (e: DiseaseEntry) => LegacyCode(e)
  }

  /** `expectedSymptoms` as written: the entries themselves go to
      `getCommonSymptomsForDiseases`, whose `getDiseaseById` compares each
      with `===` against the catalogue's string ids. Only a legacy string
      entry can be found; an object entry adds nothing, as if it were not
      there. */
  function ExpectedSymptomsAsWritten(ds: seq<DiseaseEntry>): seq<SymptomCount> {
    D.CommonSymptoms(FilterMap(ds, LegacyCodeFn()))
  }

  /** `isSymptomRelatedToConditions(symptom)` as written: the same lookup of
      the entries themselves. */
  function IsSymptomRelatedAsWritten(ds: seq<DiseaseEntry>, symptom: string): (r: bool)
    ensures r <==> exists i :: 0 <= i < |ds| && ds[i].Legacy? && symptom in D.SymptomsOf(ds[i].code)
  {
    FirstIndex(ds, (e: DiseaseEntry) => e.Legacy? && symptom in D.SymptomsOf(e.code)).Some?
  }

  function CidCodeFn(): DiseaseEntry -> Option<string> {
    (e: DiseaseEntry) => CidCode(e)
  }

  /** The codes of the entries, in order; an entry without one is skipped. */
  function CidCodes(ds: seq<DiseaseEntry>): seq<string> {
    FilterMap(ds, CidCodeFn())
  }

  /** `expectedSymptoms` as intended: the symptoms of the entries' codes. */
  function ExpectedSymptoms(ds: seq<DiseaseEntry>): seq<SymptomCount> {
    D.CommonSymptoms(CidCodes(ds))
  }

  /** `isSymptomRelatedToConditions(symptom)` as intended: some entry
      resolves to a disease that lists the symptom. */
  function IsSymptomRelated(ds: seq<DiseaseEntry>, symptom: string): (r: bool)
    ensures r <==> exists i :: 0 <= i < |ds| && symptom in EntrySymptoms(ds[i])
  {
    FirstIndex(ds, (e: DiseaseEntry) => symptom in EntrySymptoms(e)).Some?
  }

  /** The symptoms of an entry are those of its code. */
  lemma EntrySymptomsOfCode(e: DiseaseEntry)
    ensures CidCode(e).Some? ==> EntrySymptoms(e) == D.SymptomsOf(CidCode(e).value)
    ensures CidCode(e).None? ==> EntrySymptoms(e) == []
  {
  }

  /** Some code lists the symptom exactly when some entry does. */
  lemma CodesListIff(ds: seq<DiseaseEntry>, s: string)
    ensures (exists k :: 0 <= k < |CidCodes(ds)| && s in D.SymptomsOf(CidCodes(ds)[k])) <==>
      exists i :: 0 <= i < |ds| && s in EntrySymptoms(ds[i])
  {
    var ids := CidCodes(ds);
    if exists k :: 0 <= k < |ids| && s in D.SymptomsOf(ids[k]) {
      var k :| 0 <= k < |ids| && s in D.SymptomsOf(ids[k]);
      var i :| 0 <= i < |ds| && CidCodeFn()(ds[i]) == Some(ids[k]);
      EntrySymptomsOfCode(ds[i]);
    }
    if exists i :: 0 <= i < |ds| && s in EntrySymptoms(ds[i]) {
      var i :| 0 <= i < |ds| && s in EntrySymptoms(ds[i]);
      EntrySymptomsOfCode(ds[i]);
      var code := CidCode(ds[i]).value;
      assert CidCodeFn()(ds[i]).Some?;
      assert code in ids;
      var k :| 0 <= k < |ids| && ids[k] == code;
    }
  }

  /** A symptom is expected exactly when an entry resolves to a disease that
      lists it, and its count is the number of entries whose disease lists
      it. */
  lemma ExpectedSymptomsCount(ds: seq<DiseaseEntry>, s: string, n: nat)
    ensures SymptomCount(s, n) in ExpectedSymptoms(ds) <==>
      (exists i :: 0 <= i < |ds| && s in EntrySymptoms(ds[i]))
      && n == Count(CidCodes(ds), Lists(D.SymptomsFn(), s))
  {
    D.CommonSymptomsCount(CidCodes(ds), s, n);
    CodesListIff(ds, s);
  }

  /** A symptom is related to the conditions exactly when it is expected. */
  lemma RelatedIffExpected(ds: seq<DiseaseEntry>, s: string)
    ensures IsSymptomRelated(ds, s) <==> exists n: nat :: SymptomCount(s, n) in ExpectedSymptoms(ds)
  {
    if IsSymptomRelated(ds, s) {
      ExpectedSymptomsCount(ds, s, Count(CidCodes(ds), Lists(D.SymptomsFn(), s)));
    }
    if exists n: nat :: SymptomCount(s, n) in ExpectedSymptoms(ds) {
      var n: nat :| SymptomCount(s, n) in ExpectedSymptoms(ds);
      ExpectedSymptomsCount(ds, s, n);
    }
  }

  /** A related disease comes from an entry whose disease lists the symptom. */
  lemma RelatedDiseaseListed(ds: seq<DiseaseEntry>, s: string, u: UserDisease)
    requires u in RelatedDiseases(ds, s)
    ensures IsSymptomRelated(ds, s)
  {
    var ud := UserDiseases(ds);
    var j :| 0 <= j < |ud| && ud[j] == u;
    var i :| 0 <= i < |ds| && ResolveFn()(ds[i]) == Some(u);
    assert s in EntrySymptoms(ds[i]);
  }

  /** An entry whose disease lists the symptom gives a related disease. */
  lemma ListedRelatedDisease(ds: seq<DiseaseEntry>, s: string, i: nat)
    requires i < |ds| && s in EntrySymptoms(ds[i])
    ensures Resolve(ds[i]).Some? && Resolve(ds[i]).value in RelatedDiseases(ds, s)
  {
    var ud := UserDiseases(ds);
    var u := Resolve(ds[i]).value;
    assert ResolveFn()(ds[i]).Some?;
    assert u in ud && ListsSymptom(s)(u);
    FilterMembers(ud, ListsSymptom(s));
  }

  /** A symptom is related to the conditions exactly when some disease of
      `getRelatedDiseases(symptom)` is there. */
  lemma RelatedIffRelatedDiseases(ds: seq<DiseaseEntry>, s: string)
    ensures IsSymptomRelated(ds, s) <==> RelatedDiseases(ds, s) != []
  {
    if RelatedDiseases(ds, s) != [] {
      RelatedDiseaseListed(ds, s, RelatedDiseases(ds, s)[0]);
    }
    if IsSymptomRelated(ds, s) {
      var i :| 0 <= i < |ds| && s in EntrySymptoms(ds[i]);
      ListedRelatedDisease(ds, s, i);
    }
  }

  /** The first disease of the table is depression (F32). */
  lemma Depression()
    ensures D.GetDiseaseById("F32") == Some(D.Diseases[0])
    ensures D.Diseases[0].commonSymptoms == ["fadiga", "insonia", "ansiedade"]
  {
    assert D.Diseases[0] == D.DiseaseOf("mental", D.Mental[0]) by {
      assert D.Diseases == D.BlockDiseases(D.Blocks[0]) + D.Flatten(D.Blocks[1..]);
    }
    D.GetDiseaseByIdFinds(0);
  }

  /** The common symptoms of no disease at all are none. */
  lemma NoIdsNoSymptoms()
    ensures D.CommonSymptoms([]) == []
  {
    assert Occurrences(D.SymptomsFn(), []) == [];
  }

  /** A record whose one entry is an object for depression (F32): as
      written, neither `expectedSymptoms` nor `isSymptomRelatedToConditions`
      sees it. */
  lemma ObjectEntriesIgnored()
    ensures var ds := [Linked(Some("F32"), None, Some(1), Some("Depress\U{00E3}o"))];
      ExpectedSymptomsAsWritten(ds) == [] && !IsSymptomRelatedAsWritten(ds, "fadiga")
  {
    var ds := [Linked(Some("F32"), None, Some(1), Some("Depress\U{00E3}o"))];
    assert FilterMap(ds, LegacyCodeFn()) == [];
    NoIdsNoSymptoms();
  }

  /** The same record: the intended versions find its fatigue. */
  lemma ObjectEntriesFound()
    ensures var ds := [Linked(Some("F32"), None, Some(1), Some("Depress\U{00E3}o"))];
      SymptomCount("fadiga", 1) in ExpectedSymptoms(ds) && IsSymptomRelated(ds, "fadiga")
  {
    var ds := [Linked(Some("F32"), None, Some(1), Some("Depress\U{00E3}o"))];
    Depression();
    assert EntrySymptoms(ds[0]) == ["fadiga", "insonia", "ansiedade"];
    assert CidCodes(ds) == ["F32"];
    assert Count(["F32"], Lists(D.SymptomsFn(), "fadiga")) == 1;
    ExpectedSymptomsCount(ds, "fadiga", 1);
  }

  // ---------------------------------------------------------------------
  // The store

  /** The module's `medicalRecord`, its `useLocalStorage` flag and the copy
      saved under `aurora_medical_record`. */
  class MedicalRecordStore {
    var record: Record
    var localOnly: bool
    var stored: Option<Record>

    /** `loadFromLocalStorage`: the saved record when a valid one was read,
        and the default record otherwise. */
    constructor(saved: Option<Record>)
      ensures record == saved.GetOr(Default) && stored == saved && !localOnly
    {
      record := saved.GetOr(Default);
      stored := saved;
      localOnly := false;
    }

    /** `saveMedicalRecord`: stamps the record and saves it. */
    method Save(now: string)
      modifies this
      ensures record == old(record).(updatedAt := Some(now)) && stored == Some(record)
      ensures localOnly == old(localOnly)
    {
      record := record.(updatedAt := Some(now));
      stored := Some(record);
    }

    /** `loadMedicalRecord`: an ok answer replaces and saves the record and
        clears the local-only flag; a failure only sets the flag. */
    method Load(response: Option<BackendRecord>)
      modifies this
      ensures response.Some? ==> record == FromBackend(response.value) && stored == Some(record) && !localOnly
      ensures response.None? ==> record == old(record) && stored == old(stored) && localOnly
    {
      if response.Some? {
        record := FromBackend(response.value);
        localOnly := false;
        stored := Some(record);
      } else {
        localOnly := true;
      }
    }

    /** `addDisease(code)`: appends a catalogue disease that is not there
        yet, linked to the backend id when the backend answers, and keeps the
        codes distinct. */
    method AddDisease(code: string, answer: AddAnswer, now: string)
      modifies this
      ensures record.diseases == WithDisease(old(record.diseases), code, DbIdOf(answer))
      ensures record.diseases == old(record.diseases) ==>
        record == old(record) && stored == old(stored) && localOnly == old(localOnly)
      ensures record.diseases != old(record.diseases) ==>
        record == old(record).(diseases := record.diseases, updatedAt := Some(now))
        && stored == Some(record) && localOnly == answer.Unreachable?
      ensures CodesDistinct(old(record.diseases)) ==> CodesDistinct(record.diseases)
    {
      if CodesDistinct(record.diseases) {
        WithDiseaseKeepsCodesDistinct(record.diseases, code, DbIdOf(answer));
      }
      if !HasDiseaseByCode(record.diseases, code) {
        var disease := D.GetDiseaseById(code);
        if disease.Some? {
          var dbId := None;
          if answer.Answered? {
            dbId := answer.dbId;
            localOnly := false;
          } else {
            localOnly := true;
          }
          record := record.(diseases := record.diseases + [Linked(Some(code), None, dbId, Some(disease.value.name))]);
          Save(now);
        }
      }
    }

    /** `removeDisease(target)`: removes the first entry with the target's
        code, asking the backend first when the entry has a `dbId`; reports
        the failure when the backend does not confirm, and then nothing
        changes. */
    method RemoveDisease(target: DiseaseEntry, confirmed: bool, now: string) returns (failed: bool)
      modifies this
      ensures failed <==> WithoutDisease(old(record.diseases), target, confirmed).Err?
      ensures !failed ==> record.diseases == WithoutDisease(old(record.diseases), target, confirmed).value
      ensures failed || FirstIndex(old(record.diseases), CodeIs(TargetCode(target))).None? ==>
        record == old(record) && stored == old(stored)
      ensures !failed && FirstIndex(old(record.diseases), CodeIs(TargetCode(target))).Some? ==>
        record == old(record).(diseases := record.diseases, updatedAt := Some(now)) && stored == Some(record)
      ensures localOnly == old(localOnly)
    {
      failed := false;
      var found := FirstIndex(record.diseases, CodeIs(TargetCode(target)));
      if found.Some? {
        var k := found.value;
        var entry := Normalize(record.diseases[k]);
        if HasDbId(entry) {
          if confirmed {
            record := record.(diseases := RemoveAt(record.diseases, k));
            Save(now);
          } else {
            failed := true;
          }
        } else {
          record := record.(diseases := RemoveAt(record.diseases, k));
          Save(now);
        }
      }
    }

    /** `addMedication(input)`: appends exactly the medication it returns. */
    method AddMedication(input: MedicationInput, id: string, createdAt: string, serverId: Option<string>,
                         now: string)
      returns (m: Medication)
      modifies this
      ensures m == NewMedication(input, id, createdAt, serverId)
      ensures record == old(record).(medications := old(record.medications) + [m], updatedAt := Some(now))
      ensures stored == Some(record) && localOnly == old(localOnly)
    {
      m := NewMedication(input, id, createdAt, None);
      if serverId.Some? {
        m := m.(id := serverId.value);
      }
      record := record.(medications := record.medications + [m]);
      Save(now);
    }

    /** `removeMedication(id)`: removes the first medication with the id
        once the backend confirms, and reports the failure otherwise. */
    method RemoveMedication(id: string, confirmed: bool, now: string) returns (failed: bool)
      modifies this
      ensures failed <==> WithoutMedication(old(record.medications), id, confirmed).Err?
      ensures !failed ==> record.medications == WithoutMedication(old(record.medications), id, confirmed).value
      ensures failed || FirstIndex(old(record.medications), MedicationIdIs(id)).None? ==>
        record == old(record) && stored == old(stored)
      ensures !failed && FirstIndex(old(record.medications), MedicationIdIs(id)).Some? ==>
        record == old(record).(medications := record.medications, updatedAt := Some(now)) && stored == Some(record)
      ensures localOnly == old(localOnly)
    {
      failed := false;
      var found := FirstIndex(record.medications, MedicationIdIs(id));
      if found.Some? {
        if confirmed {
          record := record.(medications := RemoveAt(record.medications, found.value));
          Save(now);
        } else {
          failed := true;
        }
      }
    }

    /** `updateMedication(id, updates)`: patches the first medication with
        the id; an unknown id changes nothing. */
    method UpdateMedication(id: string, u: MedicationPatch, now: string)
      modifies this
      ensures record.medications == UpdatedMedications(old(record.medications), id, u)
      ensures FirstIndex(old(record.medications), MedicationIdIs(id)).None? ==>
        record == old(record) && stored == old(stored)
      ensures FirstIndex(old(record.medications), MedicationIdIs(id)).Some? ==>
        record == old(record).(medications := record.medications, updatedAt := Some(now)) && stored == Some(record)
      ensures localOnly == old(localOnly)
    {
      var found := FirstIndex(record.medications, MedicationIdIs(id));
      if found.Some? {
        var k := found.value;
        record := record.(medications := record.medications[k := Patched(record.medications[k], u)]);
        Save(now);
      }
    }

    /** `addAllergy(input)`: appends exactly the allergy it returns. */
    method AddAllergy(input: AllergyInput, id: string, createdAt: string, serverId: Option<string>, now: string)
      returns (a: Allergy)
      modifies this
      ensures a == NewAllergy(input, id, createdAt, serverId)
      ensures record == old(record).(allergies := old(record.allergies) + [a], updatedAt := Some(now))
      ensures stored == Some(record) && localOnly == old(localOnly)
    {
      a := NewAllergy(input, id, createdAt, None);
      if serverId.Some? {
        a := a.(id := serverId.value);
      }
      record := record.(allergies := record.allergies + [a]);
      Save(now);
    }

    /** `removeAllergy(id)`: removes the first allergy with the id once the
        backend confirms, and reports the failure otherwise. */
    method RemoveAllergy(id: string, confirmed: bool, now: string) returns (failed: bool)
      modifies this
      ensures failed <==> WithoutAllergy(old(record.allergies), id, confirmed).Err?
      ensures !failed ==> record.allergies == WithoutAllergy(old(record.allergies), id, confirmed).value
      ensures failed || FirstIndex(old(record.allergies), AllergyIdIs(id)).None? ==>
        record == old(record) && stored == old(stored)
      ensures !failed && FirstIndex(old(record.allergies), AllergyIdIs(id)).Some? ==>
        record == old(record).(allergies := record.allergies, updatedAt := Some(now)) && stored == Some(record)
      ensures localOnly == old(localOnly)
    {
      failed := false;
      var found := FirstIndex(record.allergies, AllergyIdIs(id));
      if found.Some? {
        if confirmed {
          record := record.(allergies := RemoveAt(record.allergies, found.value));
          Save(now);
        } else {
          failed := true;
        }
      }
    }

    /** `updateBloodType(bloodType)`: at most 10 characters are kept. */
    method UpdateBloodType(bloodType: Option<string>, now: string)
      modifies this
      ensures record == old(record).(bloodType := Security.SanitizeInput(bloodType, 10), updatedAt := Some(now))
      ensures |record.bloodType| <= 10 && stored == Some(record) && localOnly == old(localOnly)
    {
      record := record.(bloodType := Security.SanitizeInput(bloodType, 10));
      Save(now);
    }

    /** `updateEmergencyContact(contact)`. */
    method UpdateEmergencyContact(contact: ContactInput, now: string)
      modifies this
      ensures record == old(record).(emergencyContact := NewContact(contact), updatedAt := Some(now))
      ensures stored == Some(record) && localOnly == old(localOnly)
    {
      record := record.(emergencyContact := NewContact(contact));
      Save(now);
    }

    /** `updateNotes(notes)`: at most 1000 characters are kept. */
    method UpdateNotes(notes: Option<string>, now: string)
      modifies this
      ensures record == old(record).(notes := Security.SanitizeInput(notes, 1000), updatedAt := Some(now))
      ensures |record.notes| <= 1000 && stored == Some(record) && localOnly == old(localOnly)
    {
      record := record.(notes := Security.SanitizeInput(notes, 1000));
      Save(now);
    }

    /** `resetMedicalRecord`: back to the default record, not saved. */
    method Reset()
      modifies this
      ensures record == Default && stored == old(stored) && localOnly == old(localOnly)
    {
      record := Default;
    }
  }
}
