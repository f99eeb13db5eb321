// The read-back statistics of `umm_db_lib`: counting queries over the
// document table that each pass runs after delivery.  A query result is a
// cardinality of a set of keys (or of fhir ids, for COUNT(DISTINCT ...)).

module DbStats {
  import opened Common
  import opened Store
  import opened Bundle

  /** The extra condition a query adds to `type = ...`. */
  datatype Filter =
    | AnyRow
    | CodeIs(code: string)                          // data->'code'->'coding'->0->>'code' = code
    | SourceIs(source: string)                      // data->'meta'->>'source' = source
    | SourceAndCode(source: string, code: string)   // both of the above

  datatype Selection = Selection(resType: string, filter: Filter)

  predicate Passes(f: Filter, d: Doc)
  {
    match f
    case AnyRow => true
    case CodeIs(c) => d.code == Some(c)
    case SourceIs(s) => d.source == Some(s)
    case SourceAndCode(s, c) => d.source == Some(s) && d.code == Some(c)
  }

  const VentCode := "74201-5"
  const DialysisCode := "intercurrent-dialysis"
  const IcuCode := "74200-7"
  const LufuSource := "#lufu-cwd"
  const LabSource := "#laboratory"
  const P21Source := "#p21"
  const SubEncounterSystem := "https://miracum.org/fhir/NamingSystem/identifier/SubEncounterId"

  const ObsAliases: set<string> := {"Obs_vent", "Obs_dial", "Obs_icu", "Obs_lufu", "Obs_lab"}

  /**
   * The alias chain of `get_ups_rm_num_fhir`: five names select an
   * Observation subtype, by code or by `meta.source`; any other name is
   * used as the resource type itself, with no extra condition.
   */
  function Alias(name: string): (s: Selection)
    ensures name in ObsAliases <==> s.filter != AnyRow
    ensures name in ObsAliases ==> s.resType == "Observation"
    ensures name !in ObsAliases ==> s == Selection(name, AnyRow)
  {
    if name == "Obs_vent" then Selection("Observation", CodeIs(VentCode))
    else if name == "Obs_dial" then Selection("Observation", CodeIs(DialysisCode))
    else if name == "Obs_icu" then Selection("Observation", CodeIs(IcuCode))
    else if name == "Obs_lufu" then Selection("Observation", SourceIs(LufuSource))
    else if name == "Obs_lab" then Selection("Observation", SourceIs(LabSource))
    else Selection(name, AnyRow)
  }

  /** GREATEST(created_at, last_updated_at): PostgreSQL's GREATEST skips a NULL argument. */
  function Stamp(r: Row): (s: int)
    ensures s >= r.createdAt
    ensures r.lastUpdatedAt.Some? ==> s >= r.lastUpdatedAt.value
    ensures s == r.createdAt || (r.lastUpdatedAt.Some? && s == r.lastUpdatedAt.value)
  {
    if r.lastUpdatedAt.Some? && r.lastUpdatedAt.value > r.createdAt then r.lastUpdatedAt.value else r.createdAt
  }

  /** An upserted row is stamped no earlier than the upsert, so a read-back from any `ts <= now` sees it. */
  lemma UpsertStampedNow(t: Table, r: Resource, now: int)
    ensures Stamp(Upsert(t, r, now)[KeyOf(r)]) >= now
  {
  }

  /** The rows both counting queries look at: the type, the filter, and a stamp at or after `ts`. */
  function Selected(t: Table, sel: Selection, ts: int): set<Key>
  {
    set k | k in t && k.resType == sel.resType && Passes(sel.filter, t[k].data) && Stamp(t[k]) >= ts
  }

  function SelectedWith(t: Table, sel: Selection, ts: int, deleted: bool): set<Key>
  {
    set k | k in t && k.resType == sel.resType && Passes(sel.filter, t[k].data) && Stamp(t[k]) >= ts
              && t[k].isDeleted == deleted
  }

  /**
   * `get_ups_rm_num_fhir(name, ts)`: the number of selected rows that are
   * live (upserted) and that are soft-deleted (removed).  Every selected row
   * is counted exactly once.
   */
  function UpsRmNum(name: string, ts: int, t: Table): (r: (nat, nat))
    ensures r.0 + r.1 == |Selected(t, Alias(name), ts)|
  {
    var sel := Alias(name);
    PartitionSelected(t, sel, ts);
    (|SelectedWith(t, sel, ts, false)|, |SelectedWith(t, sel, ts, true)|)
  }

  /** `get_ups_rm_num_fhir` as a pass calls it: the upserted and the removed count. */
  method GetUpsRmNum(name: string, ts: int, t: Table) returns (ups: nat, rm: nat)
    ensures (ups, rm) == UpsRmNum(name, ts, t)
    ensures ups + rm == |Selected(t, Alias(name), ts)|
  {
    var r := UpsRmNum(name, ts, t);
    ups, rm := r.0, r.1;
  }

  lemma PartitionSelected(t: Table, sel: Selection, ts: int)
    ensures |SelectedWith(t, sel, ts, false)| + |SelectedWith(t, sel, ts, true)| == |Selected(t, sel, ts)|
  {
    var live := SelectedWith(t, sel, ts, false);
    var gone := SelectedWith(t, sel, ts, true);
    assert live * gone == {};
    assert live + gone == Selected(t, sel, ts);
  }

  lemma SubsetCard<T>(a: set<T>, b: set<T>)
    requires a <= b
    ensures |a| <= |b|
  {
    assert b == a + (b - a);
  }

  /** Both counts are non-increasing as the timestamp moves later (the stamp test is `>=`). */
  lemma UpsRmNumMonotone(name: string, ts1: int, ts2: int, t: Table)
    requires ts1 <= ts2
    ensures UpsRmNum(name, ts2, t).0 <= UpsRmNum(name, ts1, t).0
    ensures UpsRmNum(name, ts2, t).1 <= UpsRmNum(name, ts1, t).1
  {
    var sel := Alias(name);
    SubsetCard(SelectedWith(t, sel, ts2, false), SelectedWith(t, sel, ts1, false));
    SubsetCard(SelectedWith(t, sel, ts2, true), SelectedWith(t, sel, ts1, true));
  }

  // ---------------------------------------------------------------------
  // get_pat_num_fhir and get_case_num_fhir: distinct referenced ids.

  /** The left side of the join in `get_pat_num_fhir` and `get_case_num_fhir`. */
  function RefSelection(name: string): (s: Selection)
    ensures name == "lab_obs" ==> s == Selection("Observation", SourceIs(LabSource))
    ensures name in {"vent_obs", "dia_obs", "icu_obs"} ==> s.resType == "Observation" && s.filter.SourceAndCode?
    ensures name !in {"lab_obs", "vent_obs", "dia_obs", "icu_obs"} ==> s == Selection(name, AnyRow)
  {
    if name == "lab_obs" then Selection("Observation", SourceIs(LabSource))
    else if name == "vent_obs" then Selection("Observation", SourceAndCode(P21Source, VentCode))
    else if name == "dia_obs" then Selection("Observation", SourceAndCode(P21Source, DialysisCode))
    else if name == "icu_obs" then Selection("Observation", SourceAndCode(P21Source, IcuCode))
    else Selection(name, AnyRow)
  }

  /** Some live row of the selection has `subject.reference` "Patient/<id>". */
  predicate RefersToPatient(t: Table, sel: Selection, id: string)
  {
    exists k | k in t :: k.resType == sel.resType && Passes(sel.filter, t[k].data) && !t[k].isDeleted
                         && t[k].data.subjectRef == Some("Patient/" + id)
  }

  /** The distinct live Patient ids referenced by live rows of the named selection. */
  function PatIds(t: Table, name: string): (ids: set<string>)
    ensures forall id :: id in ids ==> Key(id, "Patient") in t && !t[Key(id, "Patient")].isDeleted
    ensures forall id :: id in ids ==> RefersToPatient(t, RefSelection(name), id)
  {
    set k | k in t && k.resType == "Patient" && !t[k].isDeleted && RefersToPatient(t, RefSelection(name), k.fhirId)
      :: k.fhirId
  }

  /** `get_pat_num_fhir(name)`. */
  function PatNum(t: Table, name: string): (n: nat)
    ensures n <= |set k | k in t && k.resType == "Patient" && !t[k].isDeleted|
  {
    PatIdsOfLive(t, name);
    |PatIds(t, name)|
  }

  lemma PatIdsOfLive(t: Table, name: string)
    ensures |PatIds(t, name)| <= |set k | k in t && k.resType == "Patient" && !t[k].isDeleted|
  {
    var live := set k | k in t && k.resType == "Patient" && !t[k].isDeleted;
    var ids := PatIds(t, name);
    var keys := set id | id in ids :: Key(id, "Patient");
    assert keys <= live;
    SubsetCard(keys, live);
    InjectiveCard(ids);
  }

  lemma {:induction false} InjectiveCard(ids: set<string>)
    ensures |set id | id in ids :: Key(id, "Patient")| == |ids|
  {
    if ids != {} {
      var x :| x in ids;
      var rest := ids - {x};
      InjectiveCard(rest);
      assert (set id | id in ids :: Key(id, "Patient")) == (set id | id in rest :: Key(id, "Patient")) + {Key(x, "Patient")};
    }
  }

  /** Some live row of the selection has `encounter.reference` "Encounter/<id>". */
  predicate RefersToEncounter(t: Table, sel: Selection, id: string)
  {
    exists k | k in t :: k.resType == sel.resType && Passes(sel.filter, t[k].data) && !t[k].isDeleted
                         && t[k].data.encounterRef == Some("Encounter/" + id)
  }

  /**
   * The ids `get_case_num_fhir(name)` counts.  'Encounter' counts every
   * Encounter row, deleted or not; 'sub_enc' joins through `partOf` from
   * rows carrying the sub-encounter identifier system; the others join
   * through `encounter.reference` and need both sides live.
   */
  function CaseIds(t: Table, name: string): (ids: set<string>)
    ensures name != "Encounter" ==> forall id :: id in ids ==> Key(id, "Encounter") in t && !t[Key(id, "Encounter")].isDeleted
    ensures name == "Encounter" ==> forall id :: id in ids <==> Key(id, "Encounter") in t
  {
    if name == "Encounter" then
      set k | k in t && k.resType == "Encounter" :: k.fhirId
    else if name == "sub_enc" then
      set k | k in t && k.resType == "Encounter" && !t[k].isDeleted
                && SubEncounterFrom(t, k.fhirId)
        :: k.fhirId
    else
      set k | k in t && k.resType == "Encounter" && !t[k].isDeleted
                && RefersToEncounter(t, RefSelection(name), k.fhirId)
        :: k.fhirId
  }

  /** Some live sub-encounter (by its identifier system) is part of "Encounter/<id>". */
  predicate SubEncounterFrom(t: Table, id: string)
  {
    exists k | k in t :: k.resType == "Encounter" && !t[k].isDeleted
                         && t[k].data.identifierSystem == Some(SubEncounterSystem)
                         && t[k].data.partOfRef == Some("Encounter/" + id)
  }

  function CaseNum(t: Table, name: string): nat
  {
    |CaseIds(t, name)|
  }

  // ---------------------------------------------------------------------
  // What delivery does to the counts.

  /** Cancelling Patient p removes p from every patient count. */
  lemma CancelPatientUncounted(t: Table, p: string, now: int, name: string)
    ensures p !in PatIds(CancelPatient(t, p, now), name)
  {
    var t' := CancelPatient(t, p, now);
    if Key(p, "Patient") in t {
      CancelPatientRow(t, p, now, Key(p, "Patient"));
    }
  }

  /** `get_case_num_fhir('Encounter')` only depends on the Encounter keys, which cancellations never remove. */
  lemma EncounterCaseNumKeys(t: Table, t': Table)
    requires t.Keys == t'.Keys
    ensures CaseNum(t, "Encounter") == CaseNum(t', "Encounter")
  {
    assert CaseIds(t, "Encounter") == CaseIds(t', "Encounter");
  }

  /** A bundle without cancellations, delivered: only the upserts happen. */
  lemma DeliverUpsertsOnly(t: Table, entries: seq<Entry>, none: map<string, seq<string>>, now: int)
    requires WellKeyed(none) && forall ty :: ty in none ==> none[ty] == []
    ensures Deliver(t, entries, none, now, []) == UpsertAll(t, ResourcesOf(entries), now)
  {
    assert none["Encounter"] == [] && none["Patient"] == [] && none["Condition"] == [];
    assert none["Procedure"] == [] && none["MedicationStatement"] == [] && none["Observation"] == [];
  }

  /** A bundle with only Patient cancellations and no entries, delivered: only the Patient cascades happen. */
  lemma DeliverPatientCancelsOnly(t: Table, rm: map<string, seq<string>>, now: int)
    requires WellKeyed(rm) && forall ty :: ty in rm && ty != "Patient" ==> rm[ty] == []
    ensures Deliver(t, [], rm, now, []) == CancelPatients(t, rm["Patient"], now)
  {
    assert rm["Encounter"] == [] && rm["Condition"] == [];
    assert rm["Procedure"] == [] && rm["MedicationStatement"] == [] && rm["Observation"] == [];
    assert ResourcesOf([]) == [];
  }

  /** Upserting Patient p into a table with no counted Patient row counts exactly p, as live. */
  lemma UpsertOnePatient(t: Table, p: Resource, ts: int, now: int)
    requires p.resType == "Patient" && Selected(t, Alias("Patient"), ts) == {} && ts <= now
    ensures var t1 := Upsert(t, p, now);
      KeyOf(p) in t1 && Selected(t1, Alias("Patient"), ts) == {KeyOf(p)} && UpsRmNum("Patient", ts, t1) == (1, 0)
  {
    var sel := Selection("Patient", AnyRow);
    var k := KeyOf(p);
    var t1 := Upsert(t, p, now);
    assert Stamp(t1[k]) >= now;
    forall k' | k' in t1 && k' != k
      ensures k' !in Selected(t1, sel, ts)
    {
      assert k' !in Selected(t, sel, ts);
    }
    assert SelectedWith(t1, sel, ts, false) == {k};
    assert SelectedWith(t1, sel, ts, true) == {};
  }

  /** Cancelling the only counted Patient turns its count from live to removed. */
  lemma CancelOnlyPatient(t: Table, id: string, ts: int, now: int)
    requires Key(id, "Patient") in t && Selected(t, Alias("Patient"), ts) == {Key(id, "Patient")} && ts <= now
    ensures UpsRmNum("Patient", ts, CancelPatient(t, id, now)) == (0, 1)
  {
    var sel := Selection("Patient", AnyRow);
    var k := Key(id, "Patient");
    var t2 := CancelPatient(t, id, now);
    CancelPatientRow(t, id, now, k);
    assert Stamp(t2[k]) >= now;
    forall k' | k' in t2 && k' != k
      ensures k' !in Selected(t2, sel, ts)
    {
      CancelPatientRow(t, id, now, k');
      if k'.resType == "Patient" {
        assert k' !in Selected(t, sel, ts);
      }
    }
    assert SelectedWith(t2, sel, ts, false) == {};
    assert SelectedWith(t2, sel, ts, true) == {k};
  }

  /**
   * Upserting one Patient and then, in a fresh bundle, cancelling it moves
   * the Patient counts from (1, 0) to (0, 1), given that no Patient row
   * was counted before.
   */
  lemma UpsertThenCancelPatient(t: Table, p: Resource, ts: int, now1: int, now2: int,
                                none: map<string, seq<string>>, rm: map<string, seq<string>>)
    requires p.resType == "Patient" && Selected(t, Alias("Patient"), ts) == {}
    requires ts <= now1 && ts <= now2
    requires WellKeyed(none) && forall ty :: ty in none ==> none[ty] == []
    requires WellKeyed(rm) && rm["Patient"] == [p.id] && forall ty :: ty in rm && ty != "Patient" ==> rm[ty] == []
    ensures var t1 := Deliver(t, [EntryOf(p)], none, now1, []);
      UpsRmNum("Patient", ts, t1) == (1, 0) && UpsRmNum("Patient", ts, Deliver(t1, [], rm, now2, [])) == (0, 1)
  {
    DeliverUpsertsOnly(t, [EntryOf(p)], none, now1);
    assert ResourcesOf([EntryOf(p)]) == [p];
    var t1 := Upsert(t, p, now1);
    assert UpsertAll(t, [p], now1) == t1;
    UpsertOnePatient(t, p, ts, now1);
    DeliverPatientCancelsOnly(t1, rm, now2);
    assert CancelPatients(t1, [p.id], now2) == CancelPatient(t1, p.id, now2);
    CancelOnlyPatient(t1, p.id, ts, now2);
  }
}
