/** The symptom diary of `useSymptoms`: the symptom types and their backend
    ids, the conversions between a stored symptom and the backend's record
    (intensity 1-5 against pain level 1-10, a free-text label carried inside
    the notes as `[label] notes`), the store's add, update, delete and load
    operations, the filters and the statistics. API calls are parameters:
    the outcome of a save or a load is given, never performed. */
module Symptoms {
  import opened Wrappers
  import opened Seqs
  import opened Text
  import opened Calendar
  import Security

  datatype SymptomType = SymptomType(id: string, backendId: int, name: string)

  /** `SYMPTOM_TYPES` (icons and colours left out). */
  const SymptomTypes: seq<SymptomType> := [
    SymptomType("dor", 2, "Dor de cabeca"),
    SymptomType("febre", 1, "Febre"),
    SymptomType("enjoo", 6, "Enjoo"),
    SymptomType("fadiga", 5, "Fadiga"),
    SymptomType("ansiedade", 23, "Ansiedade"),
    SymptomType("insonia", 20, "Insonia"),
    SymptomType("nausea", 3, "Nausea"),
    SymptomType("tosse", 4, "Tosse"),
    SymptomType("tontura", 11, "Tontura"),
    SymptomType("dor_peito", 17, "Dor no peito"),
    SymptomType("falta_ar", 10, "Falta de ar"),
    SymptomType("outro", 99, "Outro")
  ]

  /** The type whose label is free text. */
  const Other := "outro"

  /** A symptom as the store keeps it; `kind` is the type id. */
  datatype Symptom = Symptom(
    id: string, kind: string, customLabel: Option<string>, intensity: int,
    notes: string, date: string, time: string, createdAt: string)

  // ---------------------------------------------------------------------
  // Type table and backend ids

  function HasTypeId(id: string): SymptomType -> bool {
    (t: SymptomType) => t.id == id
  }

  function HasBackendId(b: int): SymptomType -> bool {
    (t: SymptomType) => t.backendId == b
  }

  /** `VALID_SYMPTOM_IDS.has(kind)`. */
  predicate IsKnownType(kind: string) {
    InTable(SymptomTypes, kind)
  }

  predicate InTable(ts: seq<SymptomType>, kind: string) {
    exists k :: 0 <= k < |ts| && ts[k].id == kind
  }

  ghost predicate IdsDistinct(ts: seq<SymptomType>) {
    forall i, j :: 0 <= i < j < |ts| ==> ts[i].id != ts[j].id
  }

  ghost predicate BackendIdsDistinct(ts: seq<SymptomType>) {
    forall i, j :: 0 <= i < j < |ts| ==> ts[i].backendId != ts[j].backendId
  }

  /** Type ids are distinct, so `VALID_SYMPTOM_IDS` and
      `TYPE_TO_BACKEND_ID` keep every entry. */
  lemma TypeIdsDistinct()
    ensures IdsDistinct(SymptomTypes)
  {
  }

  /** Backend ids are distinct and never 0, so `BACKEND_ID_TO_TYPE` keeps
      every entry. */
  lemma TableBackendIds()
    ensures BackendIdsDistinct(SymptomTypes)
    ensures forall k :: 0 <= k < |SymptomTypes| ==> SymptomTypes[k].backendId != 0
  {
  }

  /** `TYPE_TO_BACKEND_ID[kind]`, built from the entries with a non-zero
      backend id. */
  function TypeToBackendId(kind: string): Option<int> {
    match FirstIndex(SymptomTypes, HasTypeId(kind))
    case None => None
    case Some(k) => if SymptomTypes[k].backendId != 0 then Some(SymptomTypes[k].backendId) else None
  }

  /** `BACKEND_ID_TO_TYPE[b] || 'outro'`. */
  function BackendIdToType(b: int): string {
    match FirstIndex(SymptomTypes, HasBackendId(b))
    case None => Other
    case Some(k) => if SymptomTypes[k].backendId != 0 then SymptomTypes[k].id else Other
  }

  /** The two maps are inverse on the table, and a backend id the table
      does not know loads as `outro`. */
  lemma BackendMapsInverse(k: int)
    requires 0 <= k < |SymptomTypes|
    ensures TypeToBackendId(SymptomTypes[k].id) == Some(SymptomTypes[k].backendId)
    ensures BackendIdToType(SymptomTypes[k].backendId) == SymptomTypes[k].id
  {
    TypeIdsDistinct();
    TableBackendIds();
    FirstIndexUnique(SymptomTypes, HasTypeId(SymptomTypes[k].id), k);
    FirstIndexUnique(SymptomTypes, HasBackendId(SymptomTypes[k].backendId), k);
  }

  lemma UnknownBackendId(b: int)
    requires forall k :: 0 <= k < |SymptomTypes| ==> SymptomTypes[k].backendId != b
    ensures BackendIdToType(b) == Other
  {
  }

  /** Every known type has a backend id, and mapping there and back gives
      the type again. */
  lemma TypeRoundTrip(kind: string)
    requires IsKnownType(kind)
    ensures TypeToBackendId(kind).Some?
    ensures BackendIdToType(TypeToBackendId(kind).value) == kind
  {
    var k :| 0 <= k < |SymptomTypes| && SymptomTypes[k].id == kind;
    BackendMapsInverse(k);
  }

  // ---------------------------------------------------------------------
  // Intensity and pain level

  /** `Math.min(10, Math.max(1, intensity * 2))`. */
  function PainLevel(intensity: int): (p: int)
    ensures 1 <= p <= 10
    ensures 1 <= intensity <= 5 ==> p == 2 * intensity
  {
    Security.Clamp(intensity * 2, 1, 10)
  }

  /** `Math.ceil(painLevel / 2)`. */
  function IntensityOfPain(painLevel: int): (i: int)
    ensures 2 * i - 1 <= painLevel <= 2 * i
  {
    -((-painLevel) / 2)
  }

  /** Intensities 1 to 5 survive the trip to the backend and back. */
  lemma IntensityRoundTrip(intensity: int)
    requires 1 <= intensity <= 5
    ensures IntensityOfPain(PainLevel(intensity)) == intensity
  {
  }

  /** A pain level 1 to 10 comes back rounded up to the next even level. */
  lemma PainRoundTrip(painLevel: int)
    requires 1 <= painLevel <= 10
    ensures 1 <= IntensityOfPain(painLevel) <= 5
    ensures PainLevel(IntensityOfPain(painLevel)) == painLevel + painLevel % 2
  {
  }

  // ---------------------------------------------------------------------
  // Free-text label inside the notes

  /** The notes sent for an `outro` symptom: `[label] notes`, trimmed. */
  function EncodeNotes(tag: string, notes: string): (r: string)
    ensures |r| > 0 && r[0] == '['
  {
    var x := "[" + tag + "] " + notes;
    assert TrimStart(x) == x;
    Trim(x)
  }

  predicate NoLineBreak(s: string) {
    forall i :: 0 <= i < |s| ==> !IsLineTerminator(s[i])
  }

  /** `notes.match(/^\[(.+?)\]\s*(.*)$/)`: the label and the rest of the
      notes when the pattern matches. */
  function DecodeNotes(notes: string): Option<(string, string)> {
    if |notes| > 1 && notes[0] == '[' then LabelEnd(notes, 2) else None
  }

  /** The lazy label `(.+?)` tried with `notes[1..k]` and then longer ones:
      the label cannot hold a line break, it must be followed by `]`, and
      what follows the whitespace after `]` must hold no line break. */
  function LabelEnd(notes: string, k: nat): Option<(string, string)>
    requires 2 <= k <= |notes|
    decreases |notes| - k
  {
    if IsLineTerminator(notes[k - 1]) || k == |notes| then None
    else if notes[k] == ']' && NoLineBreak(TrimStart(notes[k + 1..])) then
      Some((notes[1..k], TrimStart(notes[k + 1..])))
    else LabelEnd(notes, k + 1)
  }

  /** Before the first `]` after the label, the search moves on. */
  lemma {:induction false} LabelEndSkips(tag: string, tail: string, k: nat)
    requires 2 <= k <= |tag| + 1
    requires forall i :: 0 <= i < |tag| ==> tag[i] != ']' && !IsLineTerminator(tag[i])
    ensures LabelEnd("[" + tag + tail, k) == LabelEnd("[" + tag + tail, |tag| + 1)
    decreases |tag| + 1 - k
  {
    var s := "[" + tag + tail;
    if k < |tag| + 1 {
      assert s[k - 1] == tag[k - 2] && s[k] == tag[k - 1];
      LabelEndSkips(tag, tail, k + 1);
    }
  }

  /** Whitespace before the notes is dropped, and nothing but whitespace
      leaves nothing. */
  lemma TrimSpaceNotes(notes: string)
    ensures TrimStart(TrimEnd(" " + notes)) == TrimStart(TrimEnd(notes))
  {
    var m := TrimEnd(notes);
    if m == [] {
      assert forall i :: 0 <= i < |notes| ==> IsJsSpace(notes[i]);
      DropLastWhileAll(" " + notes, JsSpace());
    } else {
      DropLastWhileAppend(" ", notes, JsSpace());
      assert (" " + m)[1..] == m;
    }
  }

  lemma SliceNoLineBreak(s: string, lo: int, hi: int)
    requires NoLineBreak(s) && 0 <= lo <= hi <= |s|
    ensures NoLineBreak(s[lo..hi])
  {
  }

  /** Trimming brings in no line break. */
  lemma TrimmedNoLineBreak(s: string)
    requires NoLineBreak(s)
    ensures NoLineBreak(TrimStart(TrimEnd(s)))
  {
    var e := TrimEnd(s);
    SliceNoLineBreak(s, 0, |e|);
    assert NoLineBreak(e);
    var t := TrimStart(e);
    SliceNoLineBreak(e, |e| - |t|, |e|);
  }

  /** A label with no `]` and no line break, and notes with no line break,
      come back from their encoding; the notes lose their surrounding
      whitespace. */
  lemma NotesRoundTrip(tag: string, notes: string)
    requires |tag| > 0 && ']' !in tag && NoLineBreak(tag) && NoLineBreak(notes)
    ensures DecodeNotes(EncodeNotes(tag, notes)) == Some((tag, TrimStart(TrimEnd(notes))))
  {
    var x := "[" + tag + "]";
    var y := " " + notes;
    assert "[" + tag + "] " + notes == x + y;
    assert TrimStart(x + y) == x + y;
    DropLastWhileAppend(x, y, JsSpace());
    var e := x + TrimEnd(y);
    assert EncodeNotes(tag, notes) == e;
    assert e == "[" + tag + ("]" + TrimEnd(y));
    LabelEndSkips(tag, "]" + TrimEnd(y), 2);
    var k := |tag| + 1;
    assert e[k] == ']' && e[k - 1] == tag[k - 2];
    assert e[k + 1..] == TrimEnd(y) && e[1..k] == tag;
    TrimSpaceNotes(notes);
    TrimmedNoLineBreak(notes);
  }

  // ---------------------------------------------------------------------
  // Backend records

  /** A symptom record as the backend returns it. */
  datatype BackendItem = BackendItem(
    id: string, symptomId: int, symptomName: Option<string>, painLevel: int,
    notes: Option<string>, date: string)

  /** The body `addSymptom` posts. */
  datatype BackendRequest = BackendRequest(symptomId: int, painLevel: int, date: string, notes: Option<string>)

  /** The symptom `loadSymptoms` builds from a backend record. */
  function FromBackend(item: BackendItem): (s: Symptom)
    ensures s.id == item.id && s.kind == BackendIdToType(item.symptomId) && s.date == item.date
    ensures 2 * s.intensity - 1 <= item.painLevel <= 2 * s.intensity
    ensures s.kind != Other ==> s.customLabel.None? && s.notes == item.notes.GetOr("")
    ensures s.kind == Other && DecodeNotes(item.notes.GetOr("")).Some? ==>
      s.customLabel == Some(DecodeNotes(item.notes.GetOr("")).value.0)
      && s.notes == DecodeNotes(item.notes.GetOr("")).value.1
    ensures s.kind == Other && DecodeNotes(item.notes.GetOr("")).None? ==>
      s.customLabel == item.symptomName && s.notes == item.notes.GetOr("")
  {
    var kind := BackendIdToType(item.symptomId);
    var notes := item.notes.GetOr("");
    var decoded := if kind == Other then DecodeNotes(notes) else None;
    var customLabel := if decoded.Some? then Some(decoded.value.0)
                       else if kind == Other then item.symptomName else None;
    Symptom(item.id, kind, customLabel, IntensityOfPain(item.painLevel),
            if decoded.Some? then decoded.value.1 else notes, item.date, "00:00", item.date)
  }

  /** The body `addSymptom` posts for a symptom, or None when its type has
      no backend id. */
  function ToBackend(s: Symptom): (r: Option<BackendRequest>)
    ensures r.Some? <==> TypeToBackendId(s.kind).Some?
    ensures r.Some? ==>
      r.value.symptomId == TypeToBackendId(s.kind).value
      && r.value.painLevel == PainLevel(s.intensity) && r.value.date == s.date
    ensures r.Some? && s.kind == Other && s.customLabel.Some? && s.customLabel.value != "" ==>
      r.value.notes == Some(EncodeNotes(s.customLabel.value, s.notes))
    ensures r.Some? && !(s.kind == Other && s.customLabel.Some? && s.customLabel.value != "") ==>
      r.value.notes == if s.notes == "" then None else Some(s.notes)
  {
    match TypeToBackendId(s.kind)
    case None => None
    case Some(b) =>
      var content := if s.kind == Other && s.customLabel.Some? && s.customLabel.value != ""
                     then EncodeNotes(s.customLabel.value, s.notes) else s.notes;
      Some(BackendRequest(b, PainLevel(s.intensity), s.date, if content == "" then None else Some(content)))
  }

  /** The record the backend hands back for a posted body. */
  function Stored(req: BackendRequest, id: string, name: Option<string>): BackendItem {
    BackendItem(id, req.symptomId, name, req.painLevel, req.notes, req.date)
  }

  /** A symptom of a known type with intensity 1-5 comes back from the
      backend with its type, intensity and date; an `outro` label with no
      `]` and no line break comes back too, with its notes trimmed, and the
      notes of any other type come back unchanged. */
  lemma BackendRoundTrip(s: Symptom, id: string, name: Option<string>)
    requires IsKnownType(s.kind) && 1 <= s.intensity <= 5
    requires s.kind == Other ==>
      s.customLabel.Some? && |s.customLabel.value| > 0 && ']' !in s.customLabel.value
      && NoLineBreak(s.customLabel.value) && NoLineBreak(s.notes)
    ensures ToBackend(s).Some?
    ensures var t := FromBackend(Stored(ToBackend(s).value, id, name));
      t.kind == s.kind && t.intensity == s.intensity && t.date == s.date
      && (s.kind == Other ==> t.customLabel == s.customLabel && t.notes == TrimStart(TrimEnd(s.notes)))
      && (s.kind != Other ==> t.customLabel.None? && t.notes == s.notes)
  {
    TypeRoundTrip(s.kind);
    var req := ToBackend(s).value;
    var t := FromBackend(Stored(req, id, name));
    assert t.kind == s.kind;
    assert 2 * t.intensity - 1 <= 2 * s.intensity <= 2 * t.intensity;
    if s.kind == Other {
      NotesRoundTrip(s.customLabel.value, s.notes);
    }
  }

  // ---------------------------------------------------------------------
  // Adding

  datatype SymptomError = InvalidType | MissingLabel | InvalidDate | InvalidTime | NotFound

  /** What the caller passes to `addSymptom`; `intensity` in its string
      form. */
  datatype SymptomInput = SymptomInput(
    kind: string, customLabel: Option<string>, intensity: string,
    notes: Option<string>, date: Option<string>, time: Option<string>)

  /** `!symptomData.customLabel?.trim()`. */
  predicate BlankLabel(tag: Option<string>) {
    tag.None? || Trim(tag.value) == []
  }

  /** The symptom `addSymptom` builds (before the API may replace its id),
      or the error it throws. */
  function NewSymptom(input: SymptomInput, id: string, createdAt: string, now: Clock): (r: Result<Symptom, SymptomError>)
    requires ValidClock(now) && now.year >= 10
    ensures r == Err(InvalidType) <==> !IsKnownType(input.kind)
    ensures r == Err(MissingLabel) <==> IsKnownType(input.kind) && input.kind == Other && BlankLabel(input.customLabel)
    ensures r == Err(InvalidDate) <==>
      IsKnownType(input.kind) && !(input.kind == Other && BlankLabel(input.customLabel))
      && Security.ValidateDate(input.date, now).None?
    ensures r == Err(InvalidTime) <==>
      IsKnownType(input.kind) && !(input.kind == Other && BlankLabel(input.customLabel))
      && Security.ValidateDate(input.date, now).Some? && Security.ValidateTime(input.time).None?
    ensures r.Err? ==> r.error != NotFound
    ensures r.Ok? ==>
      var s := r.value;
      s.id == id && s.kind == input.kind && s.createdAt == createdAt
      && Some(s.date) == input.date && Some(s.time) == input.time
      && 1 <= s.intensity <= 5 && s.intensity == Security.ValidateIntensity(input.intensity)
      && |s.notes| <= 500 && s.notes == Security.SanitizeInput(input.notes, 500)
      && (s.kind == Other ==> s.customLabel == Some(Security.SanitizeInput(input.customLabel, 100)))
      && (s.kind != Other ==> s.customLabel.None?)
  {
    if !IsKnownType(input.kind) then Err(InvalidType)
    else if input.kind == Other && BlankLabel(input.customLabel) then Err(MissingLabel)
    else
      match Security.ValidateDate(input.date, now)
      case None => Err(InvalidDate)
      case Some(validDate) =>
        match Security.ValidateTime(input.time)
        case None => Err(InvalidTime)
        case Some(validTime) =>
          Ok(Symptom(
            id, input.kind,
            if input.kind == Other then Some(Security.SanitizeInput(input.customLabel, 100)) else None,
            Security.ValidateIntensity(input.intensity),
            Security.SanitizeInput(input.notes, 500),
            validDate, validTime, createdAt))
  }

  /** What became of the `api.addSymptom` call: it threw, or it answered
      with or without an id. */
  datatype SaveOutcome = SaveFailed | SaveAnswered(serverId: Option<string>)

  /** `if (response.id)`: the answer carries an id, and not an empty one. */
  predicate HasServerId(outcome: SaveOutcome) {
    outcome.SaveAnswered? && outcome.serverId.Some? && outcome.serverId.value != ""
  }

  /** The symptom after the save: a returned id replaces the local one, and
      nothing else changes. */
  function WithServerId(s: Symptom, outcome: SaveOutcome): (r: Symptom)
    ensures HasServerId(outcome) ==> r == s.(id := outcome.serverId.value)
    ensures !HasServerId(outcome) ==> r == s
  {
    if HasServerId(outcome) then s.(id := outcome.serverId.value) else s
  }

  /** `useLocalStorage` after the save attempt: set for a type the backend
      does not know or a failed call, cleared when an id came back, and
      otherwise (an answer without an id, or with an empty one) as before. */
  function LocalOnlyAfter(kind: string, outcome: SaveOutcome, before: bool): (r: bool)
    ensures TypeToBackendId(kind).None? || outcome.SaveFailed? ==> r
    ensures TypeToBackendId(kind).Some? && HasServerId(outcome) ==> !r
    ensures TypeToBackendId(kind).Some? && outcome.SaveAnswered? && !HasServerId(outcome) ==> r == before
  {
    if TypeToBackendId(kind).None? || outcome.SaveFailed? then true
    else if HasServerId(outcome) then false
    else before
  }

  // ---------------------------------------------------------------------
  // Updating

  /** The fields an `updates` object may carry; the spread copies any key,
      the id and the creation time included. */
  datatype SymptomPatch = SymptomPatch(
    id: Option<string>, kind: Option<string>, customLabel: Option<string>, intensity: Option<int>,
    notes: Option<string>, date: Option<string>, time: Option<string>, createdAt: Option<string>)

  const NoChange := SymptomPatch(None, None, None, None, None, None, None, None)

  /** `{ ...old, ...updates, notes }`: given fields replace the old ones,
      and non-empty notes are sanitised while empty or missing notes keep
      the old ones. */
  function Merge(old_: Symptom, patch: SymptomPatch): Symptom {
    Symptom(
      patch.id.GetOr(old_.id),
      patch.kind.GetOr(old_.kind),
      if patch.customLabel.Some? then patch.customLabel else old_.customLabel,
      patch.intensity.GetOr(old_.intensity),
      if patch.notes.Some? && patch.notes.value != ""
      then Security.SanitizeInput(patch.notes, Security.DefaultMaxLength) else old_.notes,
      patch.date.GetOr(old_.date),
      patch.time.GetOr(old_.time),
      patch.createdAt.GetOr(old_.createdAt))
  }

  /** Every field the patch carries replaces the old one, every field it
      leaves out is kept (the id and the creation time among them), notes
      are the exception: empty notes keep the old ones and given ones are
      sanitised. An empty patch changes nothing, and applying a patch twice
      is applying it once. */
  lemma MergeFacts(s: Symptom, patch: SymptomPatch)
    ensures Merge(s, NoChange) == s
    ensures Merge(s, patch).id == (if patch.id.Some? then patch.id.value else s.id)
    ensures Merge(s, patch).kind == (if patch.kind.Some? then patch.kind.value else s.kind)
    ensures patch.customLabel.Some? ==> Merge(s, patch).customLabel == patch.customLabel
    ensures patch.customLabel.None? ==> Merge(s, patch).customLabel == s.customLabel
    ensures Merge(s, patch).intensity == (if patch.intensity.Some? then patch.intensity.value else s.intensity)
    ensures Merge(s, patch).date == (if patch.date.Some? then patch.date.value else s.date)
    ensures Merge(s, patch).time == (if patch.time.Some? then patch.time.value else s.time)
    ensures Merge(s, patch).createdAt == (if patch.createdAt.Some? then patch.createdAt.value else s.createdAt)
    ensures patch.notes.None? || patch.notes == Some("") ==> Merge(s, patch).notes == s.notes
    ensures patch.notes.Some? && patch.notes != Some("") ==>
      Merge(s, patch).notes == Security.SanitizeInput(patch.notes, Security.DefaultMaxLength)
    ensures |Merge(s, patch).notes| <= Security.DefaultMaxLength || Merge(s, patch).notes == s.notes
    ensures Merge(Merge(s, patch), patch) == Merge(s, patch)
  {
  }

  // ---------------------------------------------------------------------
  // Queries

  function HasId(id: string): Symptom -> bool {
    (s: Symptom) => s.id == id
  }

  function DateIs(date: string): Symptom -> bool {
    (s: Symptom) => s.date == date
  }

  function KindIs(kind: string): Symptom -> bool {
    (s: Symptom) => s.kind == kind
  }

  function InRange(startDate: string, endDate: string): Symptom -> bool {
    (s: Symptom) => StrLe(startDate, s.date) && StrLe(s.date, endDate)
  }

  /** `getSymptomsByDate`. */
  function ByDate(ss: seq<Symptom>, date: string): seq<Symptom> {
    Filter(ss, DateIs(date))
  }

  /** `getSymptomsByType`. */
  function ByType(ss: seq<Symptom>, kind: string): seq<Symptom> {
    Filter(ss, KindIs(kind))
  }

  /** `getSymptomsByDateRange`, comparing dates as strings. */
  function ByDateRange(ss: seq<Symptom>, startDate: string, endDate: string): seq<Symptom> {
    Filter(ss, InRange(startDate, endDate))
  }

  /** A range of one day is that day. */
  lemma DayRange(ss: seq<Symptom>, date: string)
    ensures ByDateRange(ss, date, date) == ByDate(ss, date)
  {
    StrLeReflexive(date);
    forall i | 0 <= i < |ss| ensures InRange(date, date)(ss[i]) == DateIs(date)(ss[i]) {
      if InRange(date, date)(ss[i]) {
        StrLeAntisymmetric(ss[i].date, date);
      }
    }
    FilterAgree(ss, InRange(date, date), DateIs(date));
  }

  /** The `filters` argument of `filteredSymptoms`; an empty string or a
      zero intensity counts as not given. */
  datatype Filters = Filters(kind: Option<string>, startDate: Option<string>, endDate: Option<string>, intensity: Option<int>)

  predicate GivenText(f: Option<string>) {
    f.Some? && f.value != ""
  }

  predicate GivenNumber(f: Option<int>) {
    f.Some? && f.value != 0
  }

  /** One `if (filter) result = result.filter(p)` step. */
  function Stage(ss: seq<Symptom>, given: bool, p: Symptom -> bool): seq<Symptom> {
    if given then Filter(ss, p) else ss
  }

  function StartsBy(startDate: string): Symptom -> bool {
    (s: Symptom) => StrLe(startDate, s.date)
  }

  function EndsBy(endDate: string): Symptom -> bool {
    (s: Symptom) => StrLe(s.date, endDate)
  }

  function IntensityIs(intensity: int): Symptom -> bool {
    (s: Symptom) => s.intensity == intensity
  }

  /** `filteredSymptoms(filters)`. */
  function Filtered(ss: seq<Symptom>, f: Filters): seq<Symptom> {
    var byKind := Stage(ss, GivenText(f.kind), KindIs(f.kind.GetOr("")));
    var byStart := Stage(byKind, GivenText(f.startDate), StartsBy(f.startDate.GetOr("")));
    var byEnd := Stage(byStart, GivenText(f.endDate), EndsBy(f.endDate.GetOr("")));
    Stage(byEnd, GivenNumber(f.intensity), IntensityIs(f.intensity.GetOr(0)))
  }

  /** A symptom meets every filter that is given. */
  predicate Meets(f: Filters, s: Symptom) {
    (GivenText(f.kind) ==> s.kind == f.kind.value)
    && (GivenText(f.startDate) ==> StrLe(f.startDate.value, s.date))
    && (GivenText(f.endDate) ==> StrLe(s.date, f.endDate.value))
    && (GivenNumber(f.intensity) ==> s.intensity == f.intensity.value)
  }

  function MeetsAll(f: Filters): Symptom -> bool {
    (s: Symptom) => Meets(f, s)
  }

  function Guard(given: bool, p: Symptom -> bool): Symptom -> bool {
    (s: Symptom) => !given || p(s)
  }

  lemma StageIsFilter(ss: seq<Symptom>, given: bool, p: Symptom -> bool)
    ensures Stage(ss, given, p) == Filter(ss, Guard(given, p))
  {
    if !given {
      FilterKeepsAll(ss, Guard(given, p));
    } else {
      FilterAgree(ss, p, Guard(given, p));
    }
  }

  /** The four guards together say what `Meets` says. */
  lemma StagesMeet(ss: seq<Symptom>, f: Filters)
    ensures var a := Guard(GivenText(f.kind), KindIs(f.kind.GetOr("")));
      var b := Guard(GivenText(f.startDate), StartsBy(f.startDate.GetOr("")));
      var c := Guard(GivenText(f.endDate), EndsBy(f.endDate.GetOr("")));
      var d := Guard(GivenNumber(f.intensity), IntensityIs(f.intensity.GetOr(0)));
      forall i :: 0 <= i < |ss| ==> Both(Both(Both(a, b), c), d)(ss[i]) == MeetsAll(f)(ss[i])
  {
    var a := Guard(GivenText(f.kind), KindIs(f.kind.GetOr("")));
    var b := Guard(GivenText(f.startDate), StartsBy(f.startDate.GetOr("")));
    var c := Guard(GivenText(f.endDate), EndsBy(f.endDate.GetOr("")));
    var d := Guard(GivenNumber(f.intensity), IntensityIs(f.intensity.GetOr(0)));
    forall i | 0 <= i < |ss| ensures Both(Both(Both(a, b), c), d)(ss[i]) == MeetsAll(f)(ss[i]) {
      var x := ss[i];
      assert Both(Both(Both(a, b), c), d)(x) == (a(x) && b(x) && c(x) && d(x));
      assert a(x) == (GivenText(f.kind) ==> x.kind == f.kind.value);
      assert b(x) == (GivenText(f.startDate) ==> StrLe(f.startDate.value, x.date));
      assert c(x) == (GivenText(f.endDate) ==> StrLe(x.date, f.endDate.value));
      assert d(x) == (GivenNumber(f.intensity) ==> x.intensity == f.intensity.value);
    }
  }

  /** `filteredSymptoms` keeps exactly the symptoms that meet every given
      filter, in their order. */
  lemma FilteredMeets(ss: seq<Symptom>, f: Filters)
    ensures Filtered(ss, f) == Filter(ss, MeetsAll(f))
  {
    var a := Guard(GivenText(f.kind), KindIs(f.kind.GetOr("")));
    var b := Guard(GivenText(f.startDate), StartsBy(f.startDate.GetOr("")));
    var c := Guard(GivenText(f.endDate), EndsBy(f.endDate.GetOr("")));
    var d := Guard(GivenNumber(f.intensity), IntensityIs(f.intensity.GetOr(0)));
    var byKind := Stage(ss, GivenText(f.kind), KindIs(f.kind.GetOr("")));
    var byStart := Stage(byKind, GivenText(f.startDate), StartsBy(f.startDate.GetOr("")));
    var byEnd := Stage(byStart, GivenText(f.endDate), EndsBy(f.endDate.GetOr("")));
    StageIsFilter(ss, GivenText(f.kind), KindIs(f.kind.GetOr("")));
    StageIsFilter(byKind, GivenText(f.startDate), StartsBy(f.startDate.GetOr("")));
    StageIsFilter(byStart, GivenText(f.endDate), EndsBy(f.endDate.GetOr("")));
    StageIsFilter(byEnd, GivenNumber(f.intensity), IntensityIs(f.intensity.GetOr(0)));
    FilterFilter(ss, a, b);
    FilterFilter(ss, Both(a, b), c);
    FilterFilter(ss, Both(Both(a, b), c), d);
    StagesMeet(ss, f);
    FilterAgree(ss, Both(Both(Both(a, b), c), d), MeetsAll(f));
  }

  // ---------------------------------------------------------------------
  // Statistics

  /** `stats`; `avgIntensity` is kept as the exact quotient, before
      `toFixed(1)`. */
  datatype Stats = Stats(
    total: nat, todayCount: nat, weekCount: nat,
    typeStats: seq<(SymptomType, nat)>, averageIntensity: real)

  function IntensitySum(ss: seq<Symptom>): int {
    if |ss| == 0 then 0 else ss[0].intensity + IntensitySum(ss[1..])
  }

  /** `SYMPTOM_TYPES.map(type => ({ ...type, count }))` over a table. */
  function TypeStatsOf(ts: seq<SymptomType>, ss: seq<Symptom>): (r: seq<(SymptomType, nat)>)
    ensures |r| == |ts|
    ensures forall k :: 0 <= k < |ts| ==> r[k] == (ts[k], Count(ss, KindIs(ts[k].id)))
  {
    if |ts| == 0 then [] else [(ts[0], Count(ss, KindIs(ts[0].id)))] + TypeStatsOf(ts[1..], ss)
  }

  /** `stats` on the day `today`, with `weekStart` the date seven days
      before. */
  function ComputeStats(ss: seq<Symptom>, today: string, weekStart: string): Stats {
    Stats(
      |ss|, Count(ss, DateIs(today)), Count(ss, StartsBy(weekStart)),
      TypeStatsOf(SymptomTypes, ss),
      if |ss| > 0 then IntensitySum(ss) as real / |ss| as real else 0.0)
  }

  function SumCounts(stats: seq<(SymptomType, nat)>): int {
    if |stats| == 0 then 0 else stats[0].1 + SumCounts(stats[1..])
  }

  /** How many entries of a table have the type id. */
  function Hits(ts: seq<SymptomType>, kind: string): nat {
    if |ts| == 0 then 0 else (if ts[0].id == kind then 1 else 0) + Hits(ts[1..], kind)
  }

  lemma {:induction false} HitsOnce(ts: seq<SymptomType>, kind: string, k: int)
    requires IdsDistinct(ts) && 0 <= k < |ts| && ts[k].id == kind
    ensures Hits(ts, kind) == 1
  {
    if k == 0 {
      HitsNone(ts[1..], kind);
    } else {
      HitsOnce(ts[1..], kind, k - 1);
    }
  }

  lemma {:induction false} HitsNone(ts: seq<SymptomType>, kind: string)
    requires forall k :: 0 <= k < |ts| ==> ts[k].id != kind
    ensures Hits(ts, kind) == 0
  {
    if |ts| > 0 {
      HitsNone(ts[1..], kind);
    }
  }

  /** Dropping the first symptom lowers the sum by the entries of its
      type. */
  lemma {:induction false} SumCountsStep(ts: seq<SymptomType>, ss: seq<Symptom>)
    requires |ss| > 0
    ensures SumCounts(TypeStatsOf(ts, ss)) == SumCounts(TypeStatsOf(ts, ss[1..])) + Hits(ts, ss[0].kind)
  {
    if |ts| > 0 {
      SumCountsStep(ts[1..], ss);
    }
  }

  /** When every symptom has a type of the table, the per-type counts add
      up to the total. */
  lemma {:induction false} TypeStatsPartition(ts: seq<SymptomType>, ss: seq<Symptom>)
    requires IdsDistinct(ts)
    requires forall i :: 0 <= i < |ss| ==> InTable(ts, ss[i].kind)
    ensures SumCounts(TypeStatsOf(ts, ss)) == |ss|
  {
    if |ss| == 0 {
      SumZero(ts, ss);
    } else {
      assert forall i :: 0 <= i < |ss[1..]| ==> ss[1..][i] == ss[i + 1];
      TypeStatsPartition(ts, ss[1..]);
      SumCountsStep(ts, ss);
      var k :| 0 <= k < |ts| && ts[k].id == ss[0].kind;
      HitsOnce(ts, ss[0].kind, k);
    }
  }

  lemma {:induction false} SumZero(ts: seq<SymptomType>, ss: seq<Symptom>)
    requires |ss| == 0
    ensures SumCounts(TypeStatsOf(ts, ss)) == 0
  {
    if |ts| > 0 {
      SumZero(ts[1..], ss);
    }
  }

  /** Intensities within 1-5 keep the sum between the count and five times
      the count. */
  lemma {:induction false} IntensitySumBounds(ss: seq<Symptom>)
    requires forall i :: 0 <= i < |ss| ==> 1 <= ss[i].intensity <= 5
    ensures |ss| <= IntensitySum(ss) <= 5 * |ss|
  {
    if |ss| > 0 {
      IntensitySumBounds(ss[1..]);
    }
  }

  lemma DivMono(x: real, y: real, n: real)
    requires n > 0.0 && x <= y
    ensures x / n <= y / n
  {
    assert y / n - x / n == (y - x) / n;
  }

  /** A quotient of a sum between `n` and `5 n` by `n` lies within 1-5. */
  lemma AverageBounds(sum: int, n: int)
    requires 0 < n && n <= sum <= 5 * n
    ensures 1.0 <= sum as real / n as real <= 5.0
  {
    var m := n as real;
    DivMono(sum as real, 5.0 * m, m);
    DivMono(m, sum as real, m);
    assert 5.0 * m / m == 5.0;
    assert m / m == 1.0;
  }

  /** The statistics: the type counts add up to the total, the day and week
      counts do not exceed it, and the average of intensities within 1-5
      lies within 1-5. */
  lemma StatsFacts(ss: seq<Symptom>, today: string, weekStart: string)
    requires forall i :: 0 <= i < |ss| ==> IsKnownType(ss[i].kind) && 1 <= ss[i].intensity <= 5
    ensures ComputeStats(ss, today, weekStart).total == |ss|
    ensures SumCounts(ComputeStats(ss, today, weekStart).typeStats) == |ss|
    ensures ComputeStats(ss, today, weekStart).todayCount <= |ss|
    ensures ComputeStats(ss, today, weekStart).weekCount <= |ss|
    ensures |ss| > 0 ==> 1.0 <= ComputeStats(ss, today, weekStart).averageIntensity <= 5.0
  {
    TypeIdsDistinct();
    TypeStatsPartition(SymptomTypes, ss);
    IntensitySumBounds(ss);
    if |ss| > 0 {
      AverageBounds(IntensitySum(ss), |ss|);
    }
  }

  // ---------------------------------------------------------------------
  // The store

  /** The JSON object a symptom is saved as. */
  function ToJson(s: Symptom): Security.Json {
    Security.JObject(map[
      "id" := Security.JString(s.id),
      "type" := Security.JString(s.kind),
      "customLabel" := if s.customLabel.Some? then Security.JString(s.customLabel.value) else Security.JNull,
      "intensity" := Security.JNumber(s.intensity),
      "notes" := Security.JString(s.notes),
      "date" := Security.JString(s.date),
      "time" := Security.JString(s.time),
      "createdAt" := Security.JString(s.createdAt)])
  }

  /** `safeLocalStorageGet(STORAGE_KEY, [], validateSymptomsData)` on what
      was saved: the list when `validateSymptomsData` accepts it, otherwise
      `[]`, the key being removed. A saved symptom always has a string id
      and type and a numeric intensity, so only the 10000-item cap rejects. */
  function ReadStored(stored: seq<Symptom>): (r: seq<Symptom>)
    ensures r == stored <==> |stored| <= Security.MaxSymptoms
    ensures |stored| > Security.MaxSymptoms ==> r == []
  {
    ToJsonItems(stored);
    if Security.ValidateSymptomsData(Security.JArray(Map(stored, ToJson))) then stored else []
  }

  /** Every saved symptom has the shape `validateSymptomsData` asks for. */
  lemma ToJsonItems(stored: seq<Symptom>)
    ensures forall i :: 0 <= i < |stored| ==> Security.IsSymptomItem(Map(stored, ToJson)[i])
  {
    forall i | 0 <= i < |stored| ensures Security.IsSymptomItem(Map(stored, ToJson)[i]) {
      ToJsonIsItem(stored[i]);
    }
  }

  lemma ToJsonIsItem(s: Symptom)
    ensures Security.IsSymptomItem(ToJson(s))
  {
  }

  /** The module-level `symptoms` list, what local storage holds and the
      `useLocalStorage` flag. */
  class SymptomStore {
    var symptoms: seq<Symptom>
    var storage: seq<Symptom>
    var localOnly: bool

    /** The store after the start-up read of local storage. */
    constructor(stored: seq<Symptom>)
      ensures symptoms == ReadStored(stored) && storage == ReadStored(stored) && !localOnly
    {
      symptoms := ReadStored(stored);
      storage := ReadStored(stored);
      localOnly := false;
    }

    /** `loadSymptoms`: a valid API answer replaces the list (and the
        stored copy) with the converted records; otherwise the list is read
        back from local storage through the validator. */
    method LoadSymptoms(response: Option<seq<BackendItem>>)
      modifies this
      ensures response.Some? ==>
        symptoms == Map(response.value, FromBackend)
        && storage == symptoms && !localOnly
      ensures response.None? ==>
        symptoms == ReadStored(old(storage)) && storage == ReadStored(old(storage)) && localOnly
    {
      if response.Some? {
        symptoms := Map(response.value, FromBackend);
        localOnly := false;
        storage := symptoms;
      } else {
        localOnly := true;
        storage := ReadStored(storage);
        symptoms := storage;
      }
    }

    /** `addSymptom`: a rejected input changes nothing; an accepted one is
        put first, with the server's id when the save answered with one,
        and the list is saved. */
    method AddSymptom(input: SymptomInput, id: string, createdAt: string, now: Clock, outcome: SaveOutcome)
      returns (r: Result<Symptom, SymptomError>)
      requires ValidClock(now) && now.year >= 10
      modifies this
      ensures NewSymptom(input, id, createdAt, now).Err? ==>
        r == NewSymptom(input, id, createdAt, now)
        && symptoms == old(symptoms) && storage == old(storage) && localOnly == old(localOnly)
      ensures NewSymptom(input, id, createdAt, now).Ok? ==>
        r == Ok(WithServerId(NewSymptom(input, id, createdAt, now).value, outcome))
        && symptoms == [r.value] + old(symptoms) && storage == symptoms
        && localOnly == LocalOnlyAfter(input.kind, outcome, old(localOnly))
    {
      r := NewSymptom(input, id, createdAt, now);
      if r.Ok? {
        var newSymptom := WithServerId(r.value, outcome);
        localOnly := LocalOnlyAfter(input.kind, outcome, localOnly);
        symptoms := [newSymptom] + symptoms;
        storage := symptoms;
        r := Ok(newSymptom);
      }
    }

    /** `updateSymptom`: throws when no symptom has the id; otherwise merges
        the patch into the first one with the id, saves, and returns it. */
    method UpdateSymptom(id: string, patch: SymptomPatch) returns (r: Result<Symptom, SymptomError>)
      modifies this
      ensures FirstIndex(old(symptoms), HasId(id)).None? ==>
        r == Err(NotFound) && symptoms == old(symptoms) && storage == old(storage)
      ensures FirstIndex(old(symptoms), HasId(id)).Some? ==>
        var k := FirstIndex(old(symptoms), HasId(id)).value;
        r == Ok(Merge(old(symptoms)[k], patch))
        && symptoms == old(symptoms)[k := Merge(old(symptoms)[k], patch)] && storage == symptoms
      ensures localOnly == old(localOnly)
    {
      var found := FirstIndex(symptoms, HasId(id));
      if found.None? {
        return Err(NotFound);
      }
      var k := found.value;
      symptoms := symptoms[k := Merge(symptoms[k], patch)];
      storage := symptoms;
      r := Ok(symptoms[k]);
    }

    /** `deleteSymptom`: throws when no symptom has the id; otherwise the
        first one with the id is removed and the list saved, whether or not
        the API call succeeded. */
    method DeleteSymptom(id: string) returns (error: Option<SymptomError>)
      modifies this
      ensures FirstIndex(old(symptoms), HasId(id)).None? ==>
        error == Some(NotFound) && symptoms == old(symptoms) && storage == old(storage)
      ensures FirstIndex(old(symptoms), HasId(id)).Some? ==>
        error.None? && symptoms == RemoveAt(old(symptoms), FirstIndex(old(symptoms), HasId(id)).value)
        && storage == symptoms
      ensures localOnly == old(localOnly)
    {
      var found := FirstIndex(symptoms, HasId(id));
      if found.None? {
        return Some(NotFound);
      }
      symptoms := RemoveAt(symptoms, found.value);
      storage := symptoms;
      error := None;
    }
  }
}
