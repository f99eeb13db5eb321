// The document table `resources_inc` that the psql delivery writes, and the
// SQL statements that `FHIRBundle.execute` issues against it, one function
// per statement.  A row is keyed by `(fhir_id, type)`; its JSON document is
// reduced to the fields that some statement or read-back query looks at.

module Store {
  import opened Common

  /** The parts of a stored FHIR document that the SQL of the pipeline reads or writes. */
  datatype Doc = Doc(
    subjectRef: Option<string>,       // data->'subject'->'reference'
    encounterRef: Option<string>,     // data->'encounter'->'reference'
    contextRef: Option<string>,       // data->'context'->'reference'
    partOfRef: Option<string>,        // data->'partOf'->'reference'
    diagnosisRefs: seq<string>,       // data->'diagnosis'->i->'condition'->'reference'; [] when absent
    code: Option<string>,             // data->'code'->'coding'->0->>'code'
    source: Option<string>,           // data->'meta'->>'source'
    identifierSystem: Option<string>) // data->'identifier'->0->>'system'

  /** What `execute` takes from one bundle entry: `resource.id`, `resource.resourceType` and the body. */
  datatype Resource = Resource(resType: string, id: string, body: Doc)

  datatype Key = Key(fhirId: string, resType: string)

  datatype Row = Row(data: Doc, isDeleted: bool, createdAt: int, lastUpdatedAt: Option<int>)

  type Table = map<Key, Row>

  const Unknown := "UNKNOWN"

  function KeyOf(r: Resource): Key
  {
    Key(r.id, r.resType)
  }

  // ---------------------------------------------------------------------
  // Upsert: INSERT ... ON CONFLICT (fhir_id, type) DO UPDATE SET data,
  // last_updated_at = NOW(), is_deleted = false.  A fresh row gets
  // created_at = now and no last_updated_at.

  function Upsert(t: Table, r: Resource, now: int): (t': Table)
    ensures t'.Keys == t.Keys + {KeyOf(r)}
    ensures t'[KeyOf(r)].data == r.body && !t'[KeyOf(r)].isDeleted
    ensures KeyOf(r) in t ==> t'[KeyOf(r)].createdAt == t[KeyOf(r)].createdAt && t'[KeyOf(r)].lastUpdatedAt == Some(now)
    ensures KeyOf(r) !in t ==> t'[KeyOf(r)].createdAt == now && t'[KeyOf(r)].lastUpdatedAt == None
    ensures forall k :: k in t && k != KeyOf(r) ==> t'[k] == t[k]
  {
    var k := KeyOf(r);
    if k in t then t[k := t[k].(data := r.body, lastUpdatedAt := Some(now), isDeleted := false)]
    else t[k := Row(r.body, false, now, None)]
  }

  /** One INSERT statement per entry, in bundle order. */
  function UpsertAll(t: Table, rs: seq<Resource>, now: int): Table
  {
    if rs == [] then t else Upsert(UpsertAll(t, rs[..|rs| - 1], now), rs[|rs| - 1], now)
  }

  /** `j` is the position of the last resource in `rs` with key `k`. */
  predicate LastWithKey(rs: seq<Resource>, k: Key, j: int)
  {
    0 <= j < |rs| && KeyOf(rs[j]) == k && forall j' :: j < j' < |rs| ==> KeyOf(rs[j']) != k
  }

  predicate HasKey(rs: seq<Resource>, k: Key)
  {
    exists j :: 0 <= j < |rs| && KeyOf(rs[j]) == k
  }

  /** After the upserts there is one row per key, holding the body of the last entry with that key. */
  lemma {:induction false} UpsertAllLast(t: Table, rs: seq<Resource>, now: int, k: Key, j: int)
    requires LastWithKey(rs, k, j)
    ensures k in UpsertAll(t, rs, now)
    ensures UpsertAll(t, rs, now)[k].data == rs[j].body
    ensures !UpsertAll(t, rs, now)[k].isDeleted
  {
    var n := |rs|;
    if j < n - 1 {
      assert LastWithKey(rs[..n - 1], k, j);
      UpsertAllLast(t, rs[..n - 1], now, k, j);
    }
  }

  /** Keys not named by any entry keep their row exactly; no other key appears. */
  lemma {:induction false} UpsertAllOthers(t: Table, rs: seq<Resource>, now: int)
    ensures forall k :: k in UpsertAll(t, rs, now) <==> k in t || HasKey(rs, k)
    ensures forall k :: k in t && !HasKey(rs, k) ==> UpsertAll(t, rs, now)[k] == t[k]
  {
    var n := |rs|;
    if n > 0 {
      var init := rs[..n - 1];
      UpsertAllOthers(t, init, now);
      forall k ensures HasKey(rs, k) <==> HasKey(init, k) || KeyOf(rs[n - 1]) == k {
        if HasKey(init, k) {
          var j :| 0 <= j < |init| && KeyOf(init[j]) == k;
          assert KeyOf(rs[j]) == k;
        }
        if HasKey(rs, k) {
          var j :| 0 <= j < |rs| && KeyOf(rs[j]) == k;
          if j < n - 1 { assert KeyOf(init[j]) == k; }
        }
      }
    }
  }

  // ---------------------------------------------------------------------
  // Cancellation statements.

  /** UPDATE ... SET is_deleted = TRUE WHERE fhir_id = id AND type = ty. */
  function MarkDeleted(t: Table, id: string, ty: string): (t': Table)
    ensures t'.Keys == t.Keys
  {
    var k := Key(id, ty);
    if k in t then t[k := t[k].(isDeleted := true)] else t
  }

  // Every UPDATE of a cascade selects rows by a condition on the row itself
  // and rewrites only that row, so a cascade is one row function per
  // statement, applied to every row in statement order.

  /** The three statements of `_rm_canceled_encounters`, as seen by one row. */
  function EncounterCascadeRow(k: Key, r: Row, e: string): Row
  {
    var ref := Some("Encounter/" + e);
    var r1 := if k == Key(e, "Encounter") then r.(isDeleted := true) else r;
    var r2 := if r1.data.encounterRef == ref then r1.(data := r1.data.(encounterRef := Some(Unknown))) else r1;
    if r2.data.contextRef == ref then r2.(data := r2.data.(contextRef := Some(Unknown))) else r2
  }

  /** `_rm_canceled_encounters`. */
  function CancelEncounter(t: Table, e: string): (t': Table)
    ensures t'.Keys == t.Keys
  {
    map k | k in t :: EncounterCascadeRow(k, t[k], e)
  }

  predicate IsPatientChildType(ty: string)
  {
    ty == "Condition" || ty == "Procedure" || ty == "Observation"
  }

  predicate IsPatientRefHolderType(ty: string)
  {
    ty == "Encounter" || ty == "MedicationStatement"
  }

  /**
   * The three statements of `_rm_canceled_patients`, as seen by one row:
   * delete the Patient, delete its Condition/Procedure/Observation children,
   * blank the subject of its Encounter/MedicationStatement rows; each
   * refreshes `last_updated_at`.
   */
  function PatientCascadeRow(k: Key, r: Row, p: string, now: int): Row
  {
    var ref := Some("Patient/" + p);
    var r1 := if k == Key(p, "Patient") then r.(isDeleted := true, lastUpdatedAt := Some(now)) else r;
    var r2 := if r1.data.subjectRef == ref && IsPatientChildType(k.resType)
              then r1.(isDeleted := true, lastUpdatedAt := Some(now)) else r1;
    if r2.data.subjectRef == ref && IsPatientRefHolderType(k.resType)
    then r2.(data := r2.data.(subjectRef := Some(Unknown)), lastUpdatedAt := Some(now)) else r2
  }

  /** `_rm_canceled_patients`. */
  function CancelPatient(t: Table, p: string, now: int): (t': Table)
    ensures t'.Keys == t.Keys
  {
    map k | k in t :: PatientCascadeRow(k, t[k], p, now)
  }

  /**
   * The index query of `_rm_canceled_conditions`: every `index - 1` of a
   * diagnosis element of an Encounter row (deleted or not) whose condition
   * reference is "Condition/c".
   */
  function DiagnosisMatches(t: Table, c: string): set<nat>
  {
    set k, i | k in t && k.resType == "Encounter" && 0 <= i < |t[k].data.diagnosisRefs|
                 && t[k].data.diagnosisRefs[i] == "Condition/" + c :: i
  }

  /**
   * jsonb_set(data, {diagnosis, i, condition, reference}, "UNKNOWN", false)
   * on every Encounter row; only rows that have an element `i` change.
   */
  function ClearDiagnosisAt(t: Table, i: nat): (t': Table)
    ensures t'.Keys == t.Keys
  {
    map k | k in t ::
      if k.resType == "Encounter" && i < |t[k].data.diagnosisRefs|
      then t[k].(data := t[k].data.(diagnosisRefs := t[k].data.diagnosisRefs[i := Unknown]))
      else t[k]
  }

  /**
   * `fetchone()` returns some row of the index query; `pick` is that row's
   * index, or None when the query was empty.
   */
  ghost predicate PickOk(t: Table, c: string, pick: Option<nat>)
  {
    var matches := DiagnosisMatches(MarkDeleted(t, c, "Condition"), c);
    if matches == {} then pick == None else pick.Some? && pick.value in matches
  }

  /** `_rm_canceled_conditions`, for the index picked by `fetchone()`. */
  function CancelCondition(t: Table, c: string, pick: Option<nat>): Table
  {
    var t1 := MarkDeleted(t, c, "Condition");
    if pick.Some? then ClearDiagnosisAt(t1, pick.value) else t1
  }

  // ---------------------------------------------------------------------
  // The per-id loops of `execute`, one fold per cancellation list.

  function CancelEncounters(t: Table, ids: seq<string>): Table
  {
    if ids == [] then t else CancelEncounter(CancelEncounters(t, ids[..|ids| - 1]), ids[|ids| - 1])
  }

  function CancelPatients(t: Table, ids: seq<string>, now: int): Table
  {
    if ids == [] then t else CancelPatient(CancelPatients(t, ids[..|ids| - 1], now), ids[|ids| - 1], now)
  }

  function CancelConditions(t: Table, ids: seq<string>, picks: seq<Option<nat>>): Table
    requires |picks| == |ids|
  {
    if ids == [] then t
    else
      var n := |ids|;
      CancelCondition(CancelConditions(t, ids[..n - 1], picks[..n - 1]), ids[n - 1], picks[n - 1])
  }

  /** Each pick is a row that `fetchone()` could have returned at its point in the loop. */
  ghost predicate PicksOk(t: Table, ids: seq<string>, picks: seq<Option<nat>>)
    requires |picks| == |ids|
  {
    ids == [] ||
    (var n := |ids|;
     PicksOk(t, ids[..n - 1], picks[..n - 1]) &&
     PickOk(CancelConditions(t, ids[..n - 1], picks[..n - 1]), ids[n - 1], picks[n - 1]))
  }

  /** Procedure, MedicationStatement and Observation ids only mark themselves. */
  function MarkAllDeleted(t: Table, ids: seq<string>, ty: string): Table
  {
    if ids == [] then t else MarkDeleted(MarkAllDeleted(t, ids[..|ids| - 1], ty), ids[|ids| - 1], ty)
  }

  // ---------------------------------------------------------------------
  // What each cascade does to one row.

  /** Cancelling Encounter e deletes only e and renames the two reference fields; nothing else changes. */
  lemma CancelEncounterRow(t: Table, e: string, k: Key)
    requires k in t
    ensures k in CancelEncounter(t, e)
    ensures var r := t[k]; var r' := CancelEncounter(t, e)[k];
      && r'.isDeleted == (r.isDeleted || k == Key(e, "Encounter"))
      && r'.createdAt == r.createdAt && r'.lastUpdatedAt == r.lastUpdatedAt
      && r'.data.encounterRef == (if r.data.encounterRef == Some("Encounter/" + e) then Some(Unknown) else r.data.encounterRef)
      && r'.data.contextRef == (if r.data.contextRef == Some("Encounter/" + e) then Some(Unknown) else r.data.contextRef)
      && r'.data == r.data.(encounterRef := r'.data.encounterRef, contextRef := r'.data.contextRef)
  {
  }

  /** Cancelling Patient p: the patient and its C/P/O children are deleted, E/MS subjects blanked, all refreshed. */
  lemma CancelPatientRow(t: Table, p: string, now: int, k: Key)
    requires k in t
    ensures k in CancelPatient(t, p, now)
    ensures var r := t[k]; var r' := CancelPatient(t, p, now)[k];
      var refers := r.data.subjectRef == Some("Patient/" + p);
      var child := refers && IsPatientChildType(k.resType);
      var holder := refers && IsPatientRefHolderType(k.resType);
      && r'.isDeleted == (r.isDeleted || k == Key(p, "Patient") || child)
      && r'.data == (if holder then r.data.(subjectRef := Some(Unknown)) else r.data)
      && r'.lastUpdatedAt == (if k == Key(p, "Patient") || child || holder then Some(now) else r.lastUpdatedAt)
      && r'.createdAt == r.createdAt
  {
  }

  /** Cancelling Condition c with picked index i: c deleted, element i of every Encounter's diagnosis blanked. */
  lemma CancelConditionRow(t: Table, c: string, pick: Option<nat>, k: Key)
    requires k in t
    ensures k in CancelCondition(t, c, pick)
    ensures var r := t[k]; var r' := CancelCondition(t, c, pick)[k];
      var hit := pick.Some? && k.resType == "Encounter" && pick.value < |r.data.diagnosisRefs|;
      && r'.isDeleted == (r.isDeleted || k == Key(c, "Condition"))
      && r'.createdAt == r.createdAt && r'.lastUpdatedAt == r.lastUpdatedAt
      && r'.data == (if hit then r.data.(diagnosisRefs := r.data.diagnosisRefs[pick.value := Unknown]) else r.data)
  {
  }

  /** With no matching diagnosis element, the Condition cascade only marks c. */
  lemma CancelConditionNoMatch(t: Table, c: string, pick: Option<nat>)
    requires PickOk(t, c, pick) && DiagnosisMatches(t, c) == {}
    ensures CancelCondition(t, c, pick) == MarkDeleted(t, c, "Condition")
  {
    DiagnosisMatchesIgnoreFlags(t, c);
  }

  /** A picked index really is one where some Encounter refers to c. */
  lemma PickedIndexMatches(t: Table, c: string, pick: Option<nat>)
    requires PickOk(t, c, pick) && pick.Some?
    ensures exists k :: k in t && k.resType == "Encounter" && pick.value < |t[k].data.diagnosisRefs|
                        && t[k].data.diagnosisRefs[pick.value] == "Condition/" + c
  {
    DiagnosisMatchesIgnoreFlags(t, c);
  }

  /** Soft-deleting does not change the result of the diagnosis index query. */
  lemma DiagnosisMatchesIgnoreFlags(t: Table, c: string)
    ensures DiagnosisMatches(MarkDeleted(t, c, "Condition"), c) == DiagnosisMatches(t, c)
  {
    var t1 := MarkDeleted(t, c, "Condition");
    assert forall k :: k in t ==> k in t1 && t1[k].data == t[k].data;
  }

  // ---------------------------------------------------------------------
  // Every cascade keeps the key set and never revives a deleted row.

  ghost predicate NoRevival(t: Table, t': Table)
  {
    t'.Keys == t.Keys && forall k :: k in t && t[k].isDeleted ==> t'[k].isDeleted
  }

  lemma NoRevivalTrans(t1: Table, t2: Table, t3: Table)
    requires NoRevival(t1, t2) && NoRevival(t2, t3)
    ensures NoRevival(t1, t3)
  {
  }

  lemma {:induction false} CancelEncountersNoRevival(t: Table, ids: seq<string>)
    ensures NoRevival(t, CancelEncounters(t, ids))
  {
    if ids != [] {
      var n := |ids|;
      var m := CancelEncounters(t, ids[..n - 1]);
      CancelEncountersNoRevival(t, ids[..n - 1]);
      forall k | k in m ensures k in CancelEncounter(m, ids[n - 1]) && (m[k].isDeleted ==> CancelEncounter(m, ids[n - 1])[k].isDeleted) {
        CancelEncounterRow(m, ids[n - 1], k);
      }
    }
  }

  lemma {:induction false} CancelPatientsNoRevival(t: Table, ids: seq<string>, now: int)
    ensures NoRevival(t, CancelPatients(t, ids, now))
  {
    if ids != [] {
      var n := |ids|;
      var m := CancelPatients(t, ids[..n - 1], now);
      CancelPatientsNoRevival(t, ids[..n - 1], now);
      forall k | k in m ensures k in CancelPatient(m, ids[n - 1], now) && (m[k].isDeleted ==> CancelPatient(m, ids[n - 1], now)[k].isDeleted) {
        CancelPatientRow(m, ids[n - 1], now, k);
      }
    }
  }

  lemma {:induction false} CancelConditionsNoRevival(t: Table, ids: seq<string>, picks: seq<Option<nat>>)
    requires |picks| == |ids|
    ensures NoRevival(t, CancelConditions(t, ids, picks))
  {
    if ids != [] {
      var n := |ids|;
      var m := CancelConditions(t, ids[..n - 1], picks[..n - 1]);
      CancelConditionsNoRevival(t, ids[..n - 1], picks[..n - 1]);
      forall k | k in m ensures k in CancelCondition(m, ids[n - 1], picks[n - 1]) && (m[k].isDeleted ==> CancelCondition(m, ids[n - 1], picks[n - 1])[k].isDeleted) {
        CancelConditionRow(m, ids[n - 1], picks[n - 1], k);
      }
    }
  }

  lemma {:induction false} MarkAllDeletedNoRevival(t: Table, ids: seq<string>, ty: string)
    ensures NoRevival(t, MarkAllDeleted(t, ids, ty))
  {
    if ids != [] {
      MarkAllDeletedNoRevival(t, ids[..|ids| - 1], ty);
    }
  }

  // ---------------------------------------------------------------------
  // A cancelled id whose row exists ends deleted.

  lemma {:induction false} CancelEncountersDeletes(t: Table, ids: seq<string>, e: string)
    requires e in ids && Key(e, "Encounter") in t
    ensures Key(e, "Encounter") in CancelEncounters(t, ids)
    ensures CancelEncounters(t, ids)[Key(e, "Encounter")].isDeleted
  {
    var n := |ids|;
    var m := CancelEncounters(t, ids[..n - 1]);
    CancelEncountersNoRevival(t, ids[..n - 1]);
    CancelEncounterRow(m, ids[n - 1], Key(e, "Encounter"));
    if ids[n - 1] != e {
      assert e in ids[..n - 1];
      CancelEncountersDeletes(t, ids[..n - 1], e);
    }
  }

  lemma {:induction false} CancelPatientsDeletes(t: Table, ids: seq<string>, now: int, p: string)
    requires p in ids && Key(p, "Patient") in t
    ensures Key(p, "Patient") in CancelPatients(t, ids, now)
    ensures CancelPatients(t, ids, now)[Key(p, "Patient")].isDeleted
  {
    var n := |ids|;
    var k := Key(p, "Patient");
    var m := CancelPatients(t, ids[..n - 1], now);
    CancelPatientsNoRevival(t, ids[..n - 1], now);
    assert k in m;
    if ids[n - 1] != p {
      assert p in ids[..n - 1];
      CancelPatientsDeletes(t, ids[..n - 1], now, p);
      assert m[k].isDeleted;
    }
  }

  lemma CancelPatientFlag(t: Table, p: string, now: int, k: Key)
    requires k in t
    ensures k in CancelPatient(t, p, now)
    ensures CancelPatient(t, p, now)[k].isDeleted == (t[k].isDeleted || k == Key(p, "Patient") ||
              (t[k].data.subjectRef == Some("Patient/" + p) && IsPatientChildType(k.resType)))
  {
  }

  lemma {:induction false} CancelConditionsDeletes(t: Table, ids: seq<string>, picks: seq<Option<nat>>, c: string)
    requires |picks| == |ids|
    requires c in ids && Key(c, "Condition") in t
    ensures Key(c, "Condition") in CancelConditions(t, ids, picks)
    ensures CancelConditions(t, ids, picks)[Key(c, "Condition")].isDeleted
  {
    var n := |ids|;
    var m := CancelConditions(t, ids[..n - 1], picks[..n - 1]);
    CancelConditionsNoRevival(t, ids[..n - 1], picks[..n - 1]);
    CancelConditionRow(m, ids[n - 1], picks[n - 1], Key(c, "Condition"));
    if ids[n - 1] != c {
      assert c in ids[..n - 1];
      CancelConditionsDeletes(t, ids[..n - 1], picks[..n - 1], c);
    }
  }

  lemma {:induction false} MarkAllDeletedDeletes(t: Table, ids: seq<string>, ty: string, id: string)
    requires id in ids && Key(id, ty) in t
    ensures Key(id, ty) in MarkAllDeleted(t, ids, ty)
    ensures MarkAllDeleted(t, ids, ty)[Key(id, ty)].isDeleted
  {
    var n := |ids|;
    MarkAllDeletedNoRevival(t, ids[..n - 1], ty);
    if ids[n - 1] != id {
      assert id in ids[..n - 1];
      MarkAllDeletedDeletes(t, ids[..n - 1], ty, id);
    }
  }
}
