// `FHIRBundle`: the transaction accumulator of one pass.  It collects
// resource entries and per-type cancellation requests, and `Execute`
// delivers them to the document table (the PostgreSQL destination): first
// one upsert per entry, then the cascade of every cancelled id, grouped by
// type in a fixed order.

module Bundle {
  import opened Common
  import opened Store

  /** A transaction entry: full URL, resource, and the conditional-create request. */
  datatype Entry = Entry(fullUrl: string, resource: Resource, method_: string, url: string, ifNoneExist: string)

  /** The six resource types that can be cancelled, in the order `execute` processes them. */
  const CancelOrder: seq<string> := ["Encounter", "Patient", "Condition", "Procedure", "MedicationStatement", "Observation"]

  const CancelTypes: set<string> := {"Patient", "Encounter", "Condition", "Procedure", "MedicationStatement", "Observation"}

  const NoCancellations: map<string, seq<string>> :=
    map["Patient" := [], "Encounter" := [], "Condition" := [], "Procedure" := [],
        "MedicationStatement" := [], "Observation" := []]

  predicate WellKeyed(canceled: map<string, seq<string>>)
  {
    canceled.Keys == CancelTypes
  }

  /** The entry `add_resources` builds for one resource; a missing identifier system renders as "None". */
  function EntryOf(r: Resource): (e: Entry)
    ensures e.resource == r && e.method_ == "POST" && e.url == r.resType
    ensures e.fullUrl == r.resType + "/" + r.id
  {
    Entry(r.resType + "/" + r.id, r, "POST", r.resType,
          "identifier=" + r.body.identifierSystem.GetOr("None") + "|" + r.id)
  }

  function EntriesOf(rs: seq<Resource>): (es: seq<Entry>)
    ensures |es| == |rs|
  {
    if rs == [] then [] else EntriesOf(rs[..|rs| - 1]) + [EntryOf(rs[|rs| - 1])]
  }

  function ResourcesOf(es: seq<Entry>): (rs: seq<Resource>)
    ensures |rs| == |es| && forall i :: 0 <= i < |es| ==> rs[i] == es[i].resource
  {
    if es == [] then [] else ResourcesOf(es[..|es| - 1]) + [es[|es| - 1].resource]
  }

  function IdsOf(rs: seq<Resource>): (ids: seq<string>)
    ensures |ids| == |rs| && forall i :: 0 <= i < |rs| ==> ids[i] == rs[i].id
  {
    if rs == [] then [] else IdsOf(rs[..|rs| - 1]) + [rs[|rs| - 1].id]
  }

  /** The resources one `add_resources` call keeps: each id's first occurrence, in input order. */
  function DedupById(rs: seq<Resource>): seq<Resource>
  {
    if rs == [] then []
    else
      var init := rs[..|rs| - 1];
      var last := rs[|rs| - 1];
      if last.id in IdsOf(init) then DedupById(init) else DedupById(init) + [last]
  }

  /** One more resource: `add_resources` keeps it iff its id was not seen earlier in the call. */
  lemma DedupStep(rs: seq<Resource>, i: int)
    requires 0 <= i < |rs|
    ensures DedupById(rs[..i + 1]) ==
      if rs[i].id in IdsOf(rs[..i]) then DedupById(rs[..i]) else DedupById(rs[..i]) + [rs[i]]
  {
    assert rs[..i + 1][..i] == rs[..i];
  }

  /** One iteration of the `add_resources` loop, on the seen-id list and on the entry list. */
  lemma AddStep(base: seq<Entry>, rs: seq<Resource>, i: int)
    requires 0 <= i < |rs|
    ensures rs[i].id !in IdsOf(DedupById(rs[..i])) ==>
      base + EntriesOf(DedupById(rs[..i + 1])) == base + EntriesOf(DedupById(rs[..i])) + [EntryOf(rs[i])] &&
      IdsOf(DedupById(rs[..i + 1])) == IdsOf(DedupById(rs[..i])) + [rs[i].id]
    ensures rs[i].id in IdsOf(DedupById(rs[..i])) ==> DedupById(rs[..i + 1]) == DedupById(rs[..i])
  {
    var kept := DedupById(rs[..i]);
    DedupStep(rs, i);
    DedupSameIds(rs[..i], rs[i].id);
    if rs[i].id !in IdsOf(kept) {
      IdsOfAppend(kept, rs[i]);
      EntriesOfAppend(kept, rs[i]);
    }
  }

  lemma EntriesOfAppend(rs: seq<Resource>, r: Resource)
    ensures EntriesOf(rs + [r]) == EntriesOf(rs) + [EntryOf(r)]
  {
    assert (rs + [r])[..|rs|] == rs;
  }

  /** The resources of the entries built from `rs` are `rs` again. */
  lemma {:induction false} ResourcesOfEntries(rs: seq<Resource>)
    ensures ResourcesOf(EntriesOf(rs)) == rs
  {
    if rs != [] {
      ResourcesOfEntries(rs[..|rs| - 1]);
      assert rs == rs[..|rs| - 1] + [rs[|rs| - 1]];
    }
  }

  lemma IdsOfAppend(rs: seq<Resource>, r: Resource)
    ensures IdsOf(rs + [r]) == IdsOf(rs) + [r.id]
  {
    assert (rs + [r])[..|rs|] == rs;
  }

  /** The kept ids are exactly the ids seen. */
  lemma {:induction false} DedupSameIds(rs: seq<Resource>, x: string)
    ensures x in IdsOf(DedupById(rs)) <==> x in IdsOf(rs)
  {
    if rs != [] {
      var init := rs[..|rs| - 1];
      DedupSameIds(init, x);
      assert IdsOf(rs) == IdsOf(init) + [rs[|rs| - 1].id];
      if rs[|rs| - 1].id !in IdsOf(init) {
        assert IdsOf(DedupById(rs)) == IdsOf(DedupById(init)) + [rs[|rs| - 1].id];
      }
    }
  }

  /** De-duplication never lengthens the list. */
  lemma {:induction false} DedupShorter(rs: seq<Resource>)
    ensures |DedupById(rs)| <= |rs|
  {
    if rs != [] {
      DedupShorter(rs[..|rs| - 1]);
    }
  }

  /** No two kept resources share an id. */
  lemma {:induction false} DedupDistinct(rs: seq<Resource>)
    ensures var d := DedupById(rs); forall i, j :: 0 <= i < j < |d| ==> d[i].id != d[j].id
  {
    if rs != [] {
      var init := rs[..|rs| - 1];
      var last := rs[|rs| - 1];
      DedupDistinct(init);
      if last.id !in IdsOf(init) {
        var d := DedupById(init);
        forall i | 0 <= i < |d| ensures d[i].id != last.id {
          DedupSameIds(init, last.id);
          assert IdsOf(d)[i] == d[i].id;
        }
      }
    }
  }

  /** Every kept resource is the first resource of the input with its id. */
  lemma {:induction false} DedupFirstOccurrences(rs: seq<Resource>, i: int)
    requires 0 <= i < |DedupById(rs)|
    ensures exists j :: FirstWithId(rs, DedupById(rs)[i], j)
  {
    var init := rs[..|rs| - 1];
    var last := rs[|rs| - 1];
    var d := DedupById(init);
    if i < |d| {
      assert DedupById(rs)[i] == d[i];
      DedupFirstOccurrences(init, i);
      var j :| FirstWithId(init, d[i], j);
      assert FirstWithId(rs, d[i], j);
    } else {
      assert last.id !in IdsOf(init) && DedupById(rs)[i] == last;
      var j := |rs| - 1;
      forall j' | 0 <= j' < j ensures rs[j'].id != last.id {
        assert IdsOf(init)[j'] == rs[j'].id;
      }
      assert FirstWithId(rs, last, j);
    }
  }

  predicate FirstWithId(rs: seq<Resource>, r: Resource, j: int)
  {
    0 <= j < |rs| && rs[j] == r && forall j' :: 0 <= j' < j ==> rs[j'].id != r.id
  }

  /** A call whose ids are already distinct keeps every resource. */
  lemma {:induction false} DedupDistinctIdentity(rs: seq<Resource>)
    requires forall i, j :: 0 <= i < j < |rs| ==> rs[i].id != rs[j].id
    ensures DedupById(rs) == rs
  {
    if rs != [] {
      var init := rs[..|rs| - 1];
      DedupDistinctIdentity(init);
      forall k | 0 <= k < |init| ensures IdsOf(init)[k] != rs[|rs| - 1].id {
        assert rs[k].id != rs[|rs| - 1].id;
      }
    }
  }

  /**
   * The state of the psql delivery: every entry upserted in order, then the
   * cascades of the cancellation lists in the order of `CancelOrder`.
   * `picks` are the rows `fetchone()` returned for the Condition cascades.
   */
  function Deliver(t: Table, entries: seq<Entry>, canceled: map<string, seq<string>>, now: int,
                   picks: seq<Option<nat>>): Table
    requires WellKeyed(canceled) && |picks| == |canceled["Condition"]|
  {
    var t0 := UpsertAll(t, ResourcesOf(entries), now);
    var t1 := CancelEncounters(t0, canceled["Encounter"]);
    var t2 := CancelPatients(t1, canceled["Patient"], now);
    var t3 := CancelConditions(t2, canceled["Condition"], picks);
    var t4 := MarkAllDeleted(t3, canceled["Procedure"], "Procedure");
    var t5 := MarkAllDeleted(t4, canceled["MedicationStatement"], "MedicationStatement");
    MarkAllDeleted(t5, canceled["Observation"], "Observation")
  }

  ghost predicate DeliverPicksOk(t: Table, entries: seq<Entry>, canceled: map<string, seq<string>>, now: int,
                                 picks: seq<Option<nat>>)
    requires WellKeyed(canceled) && |picks| == |canceled["Condition"]|
  {
    var t0 := UpsertAll(t, ResourcesOf(entries), now);
    var t2 := CancelPatients(CancelEncounters(t0, canceled["Encounter"]), canceled["Patient"], now);
    PicksOk(t2, canceled["Condition"], picks)
  }

  /** The table row of `k` exists and is soft-deleted. */
  ghost predicate DeletedIn(t: Table, k: Key)
  {
    k in t && t[k].isDeleted
  }

  lemma EncountersKeepKeys(t: Table, ids: seq<string>)
    ensures CancelEncounters(t, ids).Keys == t.Keys
  {
    CancelEncountersNoRevival(t, ids);
  }

  lemma PatientsKeepKeys(t: Table, ids: seq<string>, now: int)
    ensures CancelPatients(t, ids, now).Keys == t.Keys
  {
    CancelPatientsNoRevival(t, ids, now);
  }

  lemma ConditionsKeepKeys(t: Table, ids: seq<string>, picks: seq<Option<nat>>)
    requires |picks| == |ids|
    ensures CancelConditions(t, ids, picks).Keys == t.Keys
  {
    CancelConditionsNoRevival(t, ids, picks);
  }

  lemma MarksKeepKeys(t: Table, ids: seq<string>, ty: string)
    ensures MarkAllDeleted(t, ids, ty).Keys == t.Keys
  {
    MarkAllDeletedNoRevival(t, ids, ty);
  }

  lemma EncountersKeepDeleted(t: Table, ids: seq<string>, k: Key)
    requires DeletedIn(t, k)
    ensures DeletedIn(CancelEncounters(t, ids), k)
  {
    CancelEncountersNoRevival(t, ids);
  }

  lemma PatientsKeepDeleted(t: Table, ids: seq<string>, now: int, k: Key)
    requires DeletedIn(t, k)
    ensures DeletedIn(CancelPatients(t, ids, now), k)
  {
    CancelPatientsNoRevival(t, ids, now);
  }

  lemma ConditionsKeepDeleted(t: Table, ids: seq<string>, picks: seq<Option<nat>>, k: Key)
    requires |picks| == |ids| && DeletedIn(t, k)
    ensures DeletedIn(CancelConditions(t, ids, picks), k)
  {
    CancelConditionsNoRevival(t, ids, picks);
  }

  lemma MarksKeepDeleted(t: Table, ids: seq<string>, ty: string, k: Key)
    requires DeletedIn(t, k)
    ensures DeletedIn(MarkAllDeleted(t, ids, ty), k)
  {
    MarkAllDeletedNoRevival(t, ids, ty);
  }

  /** The last three cascades of `execute`, which only mark rows deleted. */
  function MarkStages(t3: Table, canceled: map<string, seq<string>>): Table
    requires WellKeyed(canceled)
  {
    var t4 := MarkAllDeleted(t3, canceled["Procedure"], "Procedure");
    var t5 := MarkAllDeleted(t4, canceled["MedicationStatement"], "MedicationStatement");
    MarkAllDeleted(t5, canceled["Observation"], "Observation")
  }

  lemma MarkStagesKeepDeleted(t3: Table, canceled: map<string, seq<string>>, k: Key)
    requires WellKeyed(canceled) && DeletedIn(t3, k)
    ensures DeletedIn(MarkStages(t3, canceled), k)
  {
    var t4 := MarkAllDeleted(t3, canceled["Procedure"], "Procedure");
    var t5 := MarkAllDeleted(t4, canceled["MedicationStatement"], "MedicationStatement");
    MarksKeepDeleted(t3, canceled["Procedure"], "Procedure", k);
    MarksKeepDeleted(t4, canceled["MedicationStatement"], "MedicationStatement", k);
    MarksKeepDeleted(t5, canceled["Observation"], "Observation", k);
  }

  lemma MarkStagesDelete(t3: Table, canceled: map<string, seq<string>>, ty: string, id: string)
    requires WellKeyed(canceled) && ty in {"Procedure", "MedicationStatement", "Observation"}
    requires id in canceled[ty] && Key(id, ty) in t3
    ensures DeletedIn(MarkStages(t3, canceled), Key(id, ty))
  {
    var k := Key(id, ty);
    var t4 := MarkAllDeleted(t3, canceled["Procedure"], "Procedure");
    MarksKeepKeys(t3, canceled["Procedure"], "Procedure");
    var t5 := MarkAllDeleted(t4, canceled["MedicationStatement"], "MedicationStatement");
    MarksKeepKeys(t4, canceled["MedicationStatement"], "MedicationStatement");
    if ty == "Procedure" {
      MarkAllDeletedDeletes(t3, canceled["Procedure"], ty, id);
      MarksKeepDeleted(t4, canceled["MedicationStatement"], "MedicationStatement", k);
      MarksKeepDeleted(t5, canceled["Observation"], "Observation", k);
    } else if ty == "MedicationStatement" {
      MarkAllDeletedDeletes(t4, canceled["MedicationStatement"], ty, id);
      MarksKeepDeleted(t5, canceled["Observation"], "Observation", k);
    } else {
      MarkAllDeletedDeletes(t5, canceled["Observation"], ty, id);
    }
  }

  /** The Encounter, Patient and Condition cascades of `execute`. */
  function CascadeStages(t0: Table, canceled: map<string, seq<string>>, now: int, picks: seq<Option<nat>>): Table
    requires WellKeyed(canceled) && |picks| == |canceled["Condition"]|
  {
    var t1 := CancelEncounters(t0, canceled["Encounter"]);
    var t2 := CancelPatients(t1, canceled["Patient"], now);
    CancelConditions(t2, canceled["Condition"], picks)
  }

  lemma CascadeStagesReach(t0: Table, canceled: map<string, seq<string>>, now: int, picks: seq<Option<nat>>,
                           ty: string, id: string)
    requires WellKeyed(canceled) && |picks| == |canceled["Condition"]|
    requires ty in CancelTypes && id in canceled[ty] && Key(id, ty) in t0
    ensures Key(id, ty) in CascadeStages(t0, canceled, now, picks)
    ensures ty in {"Encounter", "Patient", "Condition"} ==> DeletedIn(CascadeStages(t0, canceled, now, picks), Key(id, ty))
  {
    var k := Key(id, ty);
    var t1 := CancelEncounters(t0, canceled["Encounter"]);
    EncountersKeepKeys(t0, canceled["Encounter"]);
    var t2 := CancelPatients(t1, canceled["Patient"], now);
    PatientsKeepKeys(t1, canceled["Patient"], now);
    ConditionsKeepKeys(t2, canceled["Condition"], picks);
    if ty == "Encounter" {
      CancelEncountersDeletes(t0, canceled["Encounter"], id);
      PatientsKeepDeleted(t1, canceled["Patient"], now, k);
      ConditionsKeepDeleted(t2, canceled["Condition"], picks, k);
    } else if ty == "Patient" {
      CancelPatientsDeletes(t1, canceled["Patient"], now, id);
      ConditionsKeepDeleted(t2, canceled["Condition"], picks, k);
    } else if ty == "Condition" {
      CancelConditionsDeletes(t2, canceled["Condition"], picks, id);
    }
  }

  /**
   * Cancellations run after all upserts: an id that is cancelled in a bundle
   * ends soft-deleted whenever its row exists, even if the same bundle
   * upserted it.
   */
  lemma CancelledEndsDeleted(t: Table, entries: seq<Entry>, canceled: map<string, seq<string>>, now: int,
                             picks: seq<Option<nat>>, ty: string, id: string)
    requires WellKeyed(canceled) && |picks| == |canceled["Condition"]|
    requires ty in CancelTypes && id in canceled[ty]
    requires Key(id, ty) in t || HasKey(ResourcesOf(entries), Key(id, ty))
    ensures DeletedIn(Deliver(t, entries, canceled, now, picks), Key(id, ty))
  {
    var t0 := UpsertAll(t, ResourcesOf(entries), now);
    UpsertAllOthers(t, ResourcesOf(entries), now);
    var t3 := CascadeStages(t0, canceled, now, picks);
    assert Deliver(t, entries, canceled, now, picks) == MarkStages(t3, canceled);
    CascadeStagesReach(t0, canceled, now, picks, ty, id);
    if ty in {"Encounter", "Patient", "Condition"} {
      MarkStagesKeepDeleted(t3, canceled, Key(id, ty));
    } else {
      MarkStagesDelete(t3, canceled, ty, id);
    }
  }

  /** Without cancellations, delivery is the upserts alone: the last body per key, not deleted. */
  lemma UpsertOnlyDelivery(t: Table, entries: seq<Entry>, canceled: map<string, seq<string>>, now: int,
                           k: Key, j: int)
    requires WellKeyed(canceled) && forall ty :: ty in canceled ==> canceled[ty] == []
    requires LastWithKey(ResourcesOf(entries), k, j)
    ensures var t' := Deliver(t, entries, canceled, now, []);
      k in t' && t'[k].data == entries[j].resource.body && !t'[k].isDeleted
  {
    UpsertAllLast(t, ResourcesOf(entries), now, k, j);
    assert canceled["Encounter"] == [] && canceled["Patient"] == [] && canceled["Condition"] == [];
    assert canceled["Procedure"] == [] && canceled["MedicationStatement"] == [] && canceled["Observation"] == [];
  }

  class FHIRBundle {
    var entries: seq<Entry>
    var canceled: map<string, seq<string>>

    ghost predicate Valid()
      reads this
    {
      WellKeyed(canceled)
    }

    constructor ()
      ensures Valid() && entries == [] && canceled == NoCancellations
    {
      entries := [];
      canceled := NoCancellations;
    }

    /** Start a new, empty transaction. */
    method Reset()
      modifies this
      ensures Valid() && entries == [] && canceled == NoCancellations
    {
      entries := [];
      canceled := NoCancellations;
    }

    /** Append one entry per resource whose id has not appeared earlier in this call. */
    method AddResources(rs: seq<Resource>)
      requires Valid()
      modifies this`entries
      ensures Valid() && canceled == old(canceled)
      ensures entries == old(entries) + EntriesOf(DedupById(rs))
    {
      var resIds: seq<string> := [];
      var i := 0;
      while i < |rs|
        invariant 0 <= i <= |rs|
        invariant resIds == IdsOf(DedupById(rs[..i]))
        invariant entries == old(entries) + EntriesOf(DedupById(rs[..i]))
      {
        var r := rs[i];
        AddStep(old(entries), rs, i);
        if r.id !in resIds {
          resIds := resIds + [r.id];
          entries := entries + [EntryOf(r)];
        }
        i := i + 1;
      }
      assert rs[..i] == rs;
    }

    /** Request the cancellation of `id` as a resource of type `ty`; a type outside the six is a KeyError. */
    method RmResources(ty: string, id: string) returns (err: Option<Error>)
      requires Valid()
      modifies this
      ensures Valid() && entries == old(entries)
      ensures err.None? <==> ty in CancelTypes
      ensures canceled == if ty in CancelTypes then old(canceled)[ty := old(canceled)[ty] + [id]] else old(canceled)
    {
      if ty in canceled {
        canceled := canceled[ty := canceled[ty] + [id]];
        err := None;
      } else {
        err := Some(KeyError(ty));
      }
    }

    /** `execute` to the psql destination: upserts, then the six cancellation loops. */
    method Execute(t: Table, now: int) returns (t': Table, ghost picks: seq<Option<nat>>)
      requires Valid()
      ensures |picks| == |canceled["Condition"]|
      ensures t' == Deliver(t, entries, canceled, now, picks)
      ensures DeliverPicksOk(t, entries, canceled, now, picks)
    {
      t' := UpsertEach(t, entries, now);
      t' := CancelEncounterEach(t', canceled["Encounter"]);
      t' := CancelPatientEach(t', canceled["Patient"], now);
      t', picks := CancelConditionEach(t', canceled["Condition"]);
      t' := MarkEach(t', canceled["Procedure"], "Procedure");
      t' := MarkEach(t', canceled["MedicationStatement"], "MedicationStatement");
      t' := MarkEach(t', canceled["Observation"], "Observation");
    }
  }

  /** The upsert loop of `execute`: one INSERT ... ON CONFLICT per entry. */
  method UpsertEach(t: Table, entries: seq<Entry>, now: int) returns (t': Table)
    ensures t' == UpsertAll(t, ResourcesOf(entries), now)
  {
    var rs := ResourcesOf(entries);
    t' := t;
    var i := 0;
    while i < |entries|
      invariant 0 <= i <= |entries|
      invariant t' == UpsertAll(t, rs[..i], now)
    {
      UpsertAllPrefix(t, rs, i, now);
      t' := Upsert(t', entries[i].resource, now);
      i := i + 1;
    }
    assert rs[..i] == rs;
  }

  lemma UpsertAllPrefix(t: Table, rs: seq<Resource>, i: int, now: int)
    requires 0 <= i < |rs|
    ensures UpsertAll(t, rs[..i + 1], now) == Upsert(UpsertAll(t, rs[..i], now), rs[i], now)
  {
    assert rs[..i + 1][..i] == rs[..i];
  }

  method CancelEncounterEach(t: Table, ids: seq<string>) returns (t': Table)
    ensures t' == CancelEncounters(t, ids)
  {
    t' := t;
    var i := 0;
    while i < |ids|
      invariant 0 <= i <= |ids|
      invariant t' == CancelEncounters(t, ids[..i])
    {
      assert ids[..i + 1][..i] == ids[..i];
      t' := CancelEncounter(t', ids[i]);
      i := i + 1;
    }
    assert ids[..i] == ids;
  }

  method CancelPatientEach(t: Table, ids: seq<string>, now: int) returns (t': Table)
    ensures t' == CancelPatients(t, ids, now)
  {
    t' := t;
    var i := 0;
    while i < |ids|
      invariant 0 <= i <= |ids|
      invariant t' == CancelPatients(t, ids[..i], now)
    {
      assert ids[..i + 1][..i] == ids[..i];
      t' := CancelPatient(t', ids[i], now);
      i := i + 1;
    }
    assert ids[..i] == ids;
  }

  method CancelConditionEach(t: Table, ids: seq<string>) returns (t': Table, ghost picks: seq<Option<nat>>)
    ensures |picks| == |ids|
    ensures t' == CancelConditions(t, ids, picks)
    ensures PicksOk(t, ids, picks)
  {
    t' := t;
    picks := [];
    var i := 0;
    while i < |ids|
      invariant 0 <= i <= |ids| && |picks| == i
      invariant t' == CancelConditions(t, ids[..i], picks)
      invariant PicksOk(t, ids[..i], picks)
    {
      assert ids[..i + 1][..i] == ids[..i];
      ghost var pick;
      t', pick := RmCanceledCondition(t', ids[i]);
      assert (picks + [pick])[..i] == picks;
      picks := picks + [pick];
      i := i + 1;
    }
    assert ids[..i] == ids;
  }

  /** `_rm_canceled_conditions`: mark c, query the diagnosis index, rewrite it if a row came back. */
  method RmCanceledCondition(t: Table, c: string) returns (t': Table, ghost pick: Option<nat>)
    ensures PickOk(t, c, pick)
    ensures t' == CancelCondition(t, c, pick)
  {
    t' := MarkDeleted(t, c, "Condition");
    var matches := DiagnosisMatches(t', c);
    if matches != {} {
      var i :| i in matches;
      t' := ClearDiagnosisAt(t', i);
      pick := Some(i);
    } else {
      pick := None;
    }
  }

  /** The loops over the Procedure, MedicationStatement and Observation lists. */
  method MarkEach(t: Table, ids: seq<string>, ty: string) returns (t': Table)
    ensures t' == MarkAllDeleted(t, ids, ty)
  {
    t' := t;
    var i := 0;
    while i < |ids|
      invariant 0 <= i <= |ids|
      invariant t' == MarkAllDeleted(t, ids[..i], ty)
    {
      assert ids[..i + 1][..i] == ids[..i];
      t' := MarkDeleted(t', ids[i], ty);
      i := i + 1;
    }
    assert ids[..i] == ids;
  }
}
