// `UMMonFHIR.process_encounters`: each updated case yields its Conditions,
// one sub-encounter (with its Locations) per department it passed through, a
// ventilation Observation and the main Encounter that ranks the Conditions.
// The children of a case are added only when its main Encounter validates.
// A mapping error of a sub-encounter or of the main Encounter is raised
// outside any handler and ends the pass before the bundle is delivered.  A
// cancelled case asks to remove its Encounter and `<psn>_vent`.

module EncounterPass {
  import opened Common
  import opened Fhir
  import opened Store
  import opened Bundle
  import opened DbStats
  import opened PassRows
  import opened ConditionMapper
  import opened SubEncounterMapper
  import V = VentilationMapper
  import E = EncounterMapper

  // The names this pass hands to `get_ups_rm_num_fhir`.
  const ConditionName := "Condition"
  const EncounterName := "Encounter"
  const VentName := "Obs_vent"

  /**
   * The update side of a row: the two keys as sent to the pseudonymizer, the
   * columns the ventilation mapper reads and the columns the encounter mapper
   * reads.
   */
  datatype EncounterUpdate = EncounterUpdate(patientId: string, encounterId: string,
                                             vent: V.EncounterRecord, rec: E.EncounterRecord)

  /** The cancellation side: `falnr` of `q_nfal`, as text. */
  datatype EncounterCancel = EncounterCancel(falnr: string)

  type EncounterRow = JoinRow<EncounterUpdate, EncounterCancel>

  /**
   * The pass's collaborators.  The three per-case queries become functions
   * of the case key: its diagnoses, its distinct department codes, and its
   * transfers within one department.
   */
  datatype Context = Context(
    sys: Systems,
    psn: Pseudonymizer,
    tables: E.ReasonTables,
    env: Env,
    diagnoses: string -> seq<DiagnosisRecord>,
    departments: string -> seq<string>,
    transfers: (string, string) -> seq<TransferRow>,
    validCondition: Condition -> bool,
    validSub: SubEncounter -> bool,
    validVent: V.Observation -> bool,
    validEncounter: E.Encounter -> bool)

  /**
   * The eleven counters of `res_stats` before the read-back.  The valid
   * Condition, sub-encounter and Location counters are decremented in the
   * source, so they are integers.
   */
  datatype Counts = Counts(validCon: int, invalidCon: nat, validEnc: nat, invalidEnc: nat,
                           validSub: int, invalidSub: nat, validLoc: int, invalidLoc: int,
                           validObs: nat, invalidObs: nat, rmReqEnc: nat)

  const NoCounts := Counts(0, 0, 0, 0, 0, 0, 0, 0, 0, 0, 0)

  datatype Run = Run(entries: seq<Entry>, removedEncounters: seq<string>, removedObservations: seq<string>,
                     counts: Counts)

  const Start := Run([], [], [], NoCounts)

  /** `res_stats` of the psql branch: the counters and the read-back numbers. */
  datatype Stats = Stats(counts: Counts, upsCon: nat, rmCon: nat, upsEnc: nat, rmEnc: nat, upsObs: nat, rmObs: nat)

  /** One `add_resources` call: the call's resources, de-duplicated within the call, appended. */
  function AddCall(es: seq<Entry>, rs: seq<Resource>): (es': seq<Entry>)
    ensures |es| <= |es'| <= |es| + |rs| && es'[..|es|] == es
  {
    DedupShorter(rs);
    es + EntriesOf(DedupById(rs))
  }

  // ---------------------------------------------------------------------
  // The Conditions of a case.

  /** The `[condition, rank]` pairs that validated, and the invalid count. */
  datatype Diagnoses = Diagnoses(kept: seq<(Condition, int)>, invalid: nat)

  function DiagnosisStep(ctx: Context, encPsn: string, patPsn: string, d: Diagnoses, rec: DiagnosisRecord): Diagnoses
  {
    var c := MapCondition(ctx.sys, encPsn, patPsn, rec);
    if ctx.validCondition(c.0) then d.(kept := d.kept + [c]) else d.(invalid := d.invalid + 1)
  }

  /** The diagnosis loop: every diagnosis of the case is kept or counted invalid. */
  function DiagnosesOf(ctx: Context, encPsn: string, patPsn: string, recs: seq<DiagnosisRecord>): (d: Diagnoses)
    ensures |d.kept| + d.invalid == |recs|
  {
    if recs == [] then Diagnoses([], 0)
    else DiagnosisStep(ctx, encPsn, patPsn, DiagnosesOf(ctx, encPsn, patPsn, recs[..|recs| - 1]), recs[|recs| - 1])
  }

  /** Every kept condition validates and is the mapping of one of the case's diagnoses. */
  lemma {:induction false} KeptDiagnosesValid(ctx: Context, encPsn: string, patPsn: string, recs: seq<DiagnosisRecord>,
                                              i: int)
    requires 0 <= i < |DiagnosesOf(ctx, encPsn, patPsn, recs).kept|
    ensures var c := DiagnosesOf(ctx, encPsn, patPsn, recs).kept[i];
            ctx.validCondition(c.0) && exists j :: 0 <= j < |recs| && c == MapCondition(ctx.sys, encPsn, patPsn, recs[j])
  {
    var init := recs[..|recs| - 1];
    var before := DiagnosesOf(ctx, encPsn, patPsn, init);
    if i < |before.kept| {
      KeptDiagnosesValid(ctx, encPsn, patPsn, init, i);
      var c := before.kept[i];
      var j :| 0 <= j < |init| && c == MapCondition(ctx.sys, encPsn, patPsn, init[j]);
      assert recs[j] == init[j];
    }
  }

  /** `ranked_cond_ref`: a reference to each kept Condition with its rank. */
  function RankedRefs(kept: seq<(Condition, int)>): (refs: seq<E.RankedRef>)
    ensures |refs| == |kept|
    ensures forall i :: 0 <= i < |kept| ==> refs[i] == E.RankedRef(Reference("Condition", kept[i].0.id), kept[i].1)
  {
    seq(|kept|, i requires 0 <= i < |kept| => E.RankedRef(Reference("Condition", kept[i].0.id), kept[i].1))
  }

  /** `condition_list_2` as stored documents. */
  function ConditionResources(kept: seq<(Condition, int)>): (rs: seq<Resource>)
    ensures |rs| == |kept| && forall i :: 0 <= i < |kept| ==> rs[i] == ConditionResource(kept[i].0)
  {
    seq(|kept|, i requires 0 <= i < |kept| => ConditionResource(kept[i].0))
  }

  // ---------------------------------------------------------------------
  // The sub-encounters of a case, one per department.

  /**
   * The sub-encounters that validated, every Location the mapper returned
   * (`location_list_total`), the invalid sub-encounter count, and what the
   * department loop adds to the two Location counters.
   */
  datatype Departments = Departments(subs: seq<SubEncounter>, locations: seq<Location>, invalidSub: nat,
                                     validLoc: int, invalidLoc: int)

  const NoDepartments := Departments([], [], 0, 0, 0)

  /**
   * One department as the source books it: the Locations join the case's
   * list and the counters before the sub-encounter is validated; an invalid
   * sub-encounter takes its counts back but leaves its Locations in the list.
   */
  function DepartmentStep(d: Departments, m: Mapped, subValid: bool): Departments
  {
    var d1 := d.(validLoc := d.validLoc + m.added, invalidLoc := d.invalidLoc + m.invalid,
                 locations := d.locations + m.locations);
    if subValid then d1.(subs := d1.subs + [m.sub])
    else d1.(invalidSub := d1.invalidSub + 1, validLoc := d1.validLoc - m.added, invalidLoc := d1.invalidLoc - m.invalid)
  }

  function MappedOf(ctx: Context, patPsn: string, encPsn: string, encounterId: string, code: string): Result<Mapped>
  {
    SubEncounterOf(ctx.sys, ctx.env, patPsn, encPsn, code, ctx.transfers(encounterId, code))
  }

  /**
   * The department loop, ending at the first mapping error.  When it
   * completes, every department is one valid or invalid sub-encounter, the
   * invalid Location counter is never negative, and the valid Location
   * counter never exceeds the number of Locations in the list.
   */
  function DepartmentsOf(ctx: Context, patPsn: string, encPsn: string, encounterId: string, codes: seq<string>)
    : (r: Result<Departments>)
    ensures r.Success? ==>
              |r.value.subs| + r.value.invalidSub == |codes| &&
              0 <= r.value.validLoc <= |r.value.locations| && r.value.invalidLoc >= 0
  {
    if codes == [] then Success(NoDepartments)
    else
      var r := DepartmentsOf(ctx, patPsn, encPsn, encounterId, codes[..|codes| - 1]);
      if r.Failure? then r
      else
        var m := MappedOf(ctx, patPsn, encPsn, encounterId, codes[|codes| - 1]);
        if m.Failure? then Failure(m.error)
        else
          MappedCounts(ctx, patPsn, encPsn, encounterId, codes[|codes| - 1]);
          Success(DepartmentStep(r.value, m.value, ctx.validSub(m.value.sub)))
  }

  /** The mapper returns one Location per added link. */
  lemma MappedCounts(ctx: Context, patPsn: string, encPsn: string, encounterId: string, code: string)
    ensures var m := MappedOf(ctx, patPsn, encPsn, encounterId, code);
            m.Success? ==> m.value.added == |m.value.locations|
  {
  }

  function SubResources(subs: seq<SubEncounter>): (rs: seq<Resource>)
    ensures |rs| == |subs| && forall i :: 0 <= i < |subs| ==> rs[i] == SubEncounterResource(subs[i])
  {
    seq(|subs|, i requires 0 <= i < |subs| => SubEncounterResource(subs[i]))
  }

  function LocationResources(locs: seq<Location>): (rs: seq<Resource>)
    ensures |rs| == |locs| && forall i :: 0 <= i < |locs| ==> rs[i] == LocationResource(locs[i])
  {
    seq(|locs|, i requires 0 <= i < |locs| => LocationResource(locs[i]))
  }

  // ---------------------------------------------------------------------
  // One row.

  /** The ventilation Observation: added in a call of its own when it validates. */
  function VentCounts(c: Counts, ventValid: bool): Counts
  {
    if ventValid then c.(validObs := c.validObs + 1) else c.(invalidObs := c.invalidObs + 1)
  }

  /**
   * The main Encounter: when it validates it is counted, else the case's
   * Conditions, sub-encounters and every Location of its list are taken
   * back from the valid counters.
   */
  function MainCounts(c: Counts, dg: Diagnoses, dp: Departments, mainValid: bool): Counts
  {
    if mainValid then c.(validEnc := c.validEnc + 1)
    else c.(invalidEnc := c.invalidEnc + 1, validCon := c.validCon - |dg.kept|,
            validSub := c.validSub - |dp.subs|, validLoc := c.validLoc - |dp.locations|)
  }

  /** The counters after the diagnosis loop and the department loop of a case. */
  function ChildCounts(c: Counts, dg: Diagnoses, dp: Departments): Counts
  {
    c.(validCon := c.validCon + |dg.kept|, invalidCon := c.invalidCon + dg.invalid,
       validSub := c.validSub + |dp.subs|, invalidSub := c.invalidSub + dp.invalidSub,
       validLoc := c.validLoc + dp.validLoc, invalidLoc := c.invalidLoc + dp.invalidLoc)
  }

  function RowCounts(c: Counts, dg: Diagnoses, dp: Departments, ventValid: bool, mainValid: bool): Counts
  {
    MainCounts(VentCounts(ChildCounts(c, dg, dp), ventValid), dg, dp, mainValid)
  }

  /** The entries of the ventilation call. */
  function VentEntries(ctx: Context, es: seq<Entry>, vent: V.Observation): seq<Entry>
  {
    if ctx.validVent(vent) then AddCall(es, [V.VentilationResource(vent)]) else es
  }

  /** The four calls of a valid main Encounter: itself, its Conditions, its sub-encounters, its Locations. */
  function MainEntries(ctx: Context, es: seq<Entry>, main: E.Encounter, dg: Diagnoses, dp: Departments): seq<Entry>
  {
    if ctx.validEncounter(main) then
      AddCall(AddCall(AddCall(AddCall(es, [E.EncounterResource(main)]), ConditionResources(dg.kept)),
                      SubResources(dp.subs)), LocationResources(dp.locations))
    else es
  }

  function VentOf(ctx: Context, u: EncounterUpdate): V.Observation
  {
    V.MapVentilation(ctx.sys, ctx.psn.encounter(u.encounterId), ctx.psn.patient(u.patientId), u.vent)
  }

  function DiagnosesOfCase(ctx: Context, u: EncounterUpdate): Diagnoses
  {
    DiagnosesOf(ctx, ctx.psn.encounter(u.encounterId), ctx.psn.patient(u.patientId), ctx.diagnoses(u.encounterId))
  }

  function DepartmentsOfCase(ctx: Context, u: EncounterUpdate): Result<Departments>
  {
    DepartmentsOf(ctx, ctx.psn.patient(u.patientId), ctx.psn.encounter(u.encounterId), u.encounterId,
                  ctx.departments(u.encounterId))
  }

  function MainOf(ctx: Context, u: EncounterUpdate, dg: Diagnoses): Result<E.Encounter>
  {
    E.EncounterOf(ctx.sys, ctx.tables, RankedRefs(dg.kept), ctx.psn.patient(u.patientId), ctx.psn.encounter(u.encounterId), u.rec)
  }

  /** The update branch of one row; a mapping error of a department or of the main Encounter ends the pass. */
  function UpsertStep(ctx: Context, s: Run, u: EncounterUpdate): Result<Run>
  {
    var dg := DiagnosesOfCase(ctx, u);
    var dp := DepartmentsOfCase(ctx, u);
    if dp.Failure? then Failure(dp.error)
    else
      var main := MainOf(ctx, u, dg);
      if main.Failure? then Failure(main.error)
      else
        var vent := VentOf(ctx, u);
        Success(s.(entries := MainEntries(ctx, VentEntries(ctx, s.entries, vent), main.value, dg, dp.value),
                   counts := RowCounts(s.counts, dg, dp.value, ctx.validVent(vent), ctx.validEncounter(main.value))))
  }

  function CancelEncounterId(ctx: Context, d: EncounterCancel): string
  {
    ctx.psn.encounter(d.falnr)
  }

  /** `encounter_psn + '_vent'`. */
  function CancelVentId(ctx: Context, d: EncounterCancel): string
  {
    CancelEncounterId(ctx, d) + "_vent"
  }

  function CancelStep(ctx: Context, s: Run, d: EncounterCancel): Run
  {
    s.(removedEncounters := s.removedEncounters + [CancelEncounterId(ctx, d)],
       removedObservations := s.removedObservations + [CancelVentId(ctx, d)],
       counts := s.counts.(rmReqEnc := s.counts.rmReqEnc + 1))
  }

  function Step(ctx: Context, s: Run, row: EncounterRow): Result<Run>
  {
    if IsUpsert(row) then UpsertStep(ctx, s, row.upsert) else Success(CancelStep(ctx, s, row.cancel))
  }

  /**
   * The loop over all rows, ending at the first mapping error.  When it
   * completes, every update row is counted once as a valid or invalid main
   * Encounter and once as a valid or invalid ventilation Observation, and
   * every cancellation row is one request for an Encounter id and one for
   * an Observation id.
   */
  function RunOf(ctx: Context, rows: seq<EncounterRow>): (r: Result<Run>)
    ensures r.Success? ==>
              var c := r.value.counts;
              c.validEnc + c.invalidEnc == |Upserts(rows)| == c.validObs + c.invalidObs &&
              c.rmReqEnc == |Cancels(rows)| == |r.value.removedEncounters| == |r.value.removedObservations|
  {
    if rows == [] then Success(Start)
    else
      var r := RunOf(ctx, rows[..|rows| - 1]);
      if r.Failure? then r
      else
        StepCounts(ctx, r.value, rows[|rows| - 1]);
        Step(ctx, r.value, rows[|rows| - 1])
  }

  /**
   * What one row adds to the counters: an update row one main Encounter and
   * one ventilation Observation, a cancellation row one request and one id
   * in each removal list.
   */
  lemma StepCounts(ctx: Context, s: Run, row: EncounterRow)
    ensures Step(ctx, s, row).Success? ==>
            var c, s' := s.counts, Step(ctx, s, row).value;
            var u, d := if IsUpsert(row) then 1 else 0, if IsUpsert(row) then 0 else 1;
            s'.counts.validEnc + s'.counts.invalidEnc == c.validEnc + c.invalidEnc + u &&
            s'.counts.validObs + s'.counts.invalidObs == c.validObs + c.invalidObs + u &&
            s'.counts.rmReqEnc == c.rmReqEnc + d &&
            |s'.removedEncounters| == |s.removedEncounters| + d &&
            |s'.removedObservations| == |s.removedObservations| + d
  {
    if IsUpsert(row) && Step(ctx, s, row).Success? {
      UpsertStepCounts(ctx, s, row.upsert);
    }
  }

  lemma UpsertStepCounts(ctx: Context, s: Run, u: EncounterUpdate)
    requires UpsertStep(ctx, s, u).Success?
    ensures var c, s' := s.counts, UpsertStep(ctx, s, u).value;
            s'.counts.validEnc + s'.counts.invalidEnc == c.validEnc + c.invalidEnc + 1 &&
            s'.counts.validObs + s'.counts.invalidObs == c.validObs + c.invalidObs + 1 &&
            s'.counts.rmReqEnc == c.rmReqEnc &&
            s'.removedEncounters == s.removedEncounters && s'.removedObservations == s.removedObservations
    ensures var dp := DepartmentsOfCase(ctx, u);
            var c, c' := s.counts, UpsertStep(ctx, s, u).value.counts;
            dp.Success? && c'.validCon - c.validCon >= 0 && c'.validSub - c.validSub >= 0 &&
            c'.invalidLoc == c.invalidLoc + dp.value.invalidLoc
  {
    var dg, dp := DiagnosesOfCase(ctx, u), DepartmentsOfCase(ctx, u).value;
    var main, vent := MainOf(ctx, u, dg).value, VentOf(ctx, u);
    RowCountsTotals(s.counts, dg, dp, ctx.validVent(vent), ctx.validEncounter(main));
  }

  /** One case counts one main Encounter and one ventilation Observation; its children never lower the valid counters. */
  lemma RowCountsTotals(c: Counts, dg: Diagnoses, dp: Departments, ventValid: bool, mainValid: bool)
    ensures var c' := RowCounts(c, dg, dp, ventValid, mainValid);
            c'.validEnc + c'.invalidEnc == c.validEnc + c.invalidEnc + 1 &&
            c'.validObs + c'.invalidObs == c.validObs + c.invalidObs + 1 &&
            c'.rmReqEnc == c.rmReqEnc && c'.validCon - c.validCon >= 0 && c'.validSub - c.validSub >= 0 &&
            c'.invalidLoc == c.invalidLoc + dp.invalidLoc
  {
  }

  function Cancelled(removedEncounters: seq<string>, removedObservations: seq<string>): (m: map<string, seq<string>>)
    ensures WellKeyed(m) && m["Encounter"] == removedEncounters && m["Observation"] == removedObservations
    ensures m["Condition"] == []
  {
    NoCancellations["Encounter" := removedEncounters]["Observation" := removedObservations]
  }

  // ---------------------------------------------------------------------
  // The pass as a program.

  /**
   * `process_encounters` with a PostgreSQL destination.  A mapping error is
   * returned as the error the pass raises, and nothing is delivered.
   */
  method ProcessEncounters(ctx: Context, rows: seq<EncounterRow>, t: Table, ts: int, now: int)
    returns (r: Result<Stats>, t': Table, ghost picks: seq<Option<nat>>)
    ensures r.Success? <==> RunOf(ctx, rows).Success?
    ensures r.Failure? ==> r.error == RunOf(ctx, rows).error && t' == t
    ensures r.Success? ==>
              var s := RunOf(ctx, rows).value;
              r.value.counts == s.counts && |picks| == 0 &&
              t' == Deliver(t, s.entries, Cancelled(s.removedEncounters, s.removedObservations), now, picks) &&
              (r.value.upsCon, r.value.rmCon) == UpsRmNum(ConditionName, ts, t') &&
              (r.value.upsEnc, r.value.rmEnc) == UpsRmNum(EncounterName, ts, t') &&
              (r.value.upsObs, r.value.rmObs) == UpsRmNum(VentName, ts, t')
  {
    var bundle := new FHIRBundle();
    var collected := CollectRows(ctx, rows, bundle);
    if collected.Failure? {
      return Failure(collected.error), t, [];
    }
    t', picks := bundle.Execute(t, now);
    var upsCon, rmCon := GetUpsRmNum(ConditionName, ts, t');
    var upsEnc, rmEnc := GetUpsRmNum(EncounterName, ts, t');
    var upsObs, rmObs := GetUpsRmNum(VentName, ts, t');
    r := Success(Stats(collected.value, upsCon, rmCon, upsEnc, rmEnc, upsObs, rmObs));
  }

  /** The loop of `process_encounters` over the rows, into an empty bundle; it stops at the first mapping error. */
  method CollectRows(ctx: Context, rows: seq<EncounterRow>, bundle: FHIRBundle) returns (r: Result<Counts>)
    requires bundle.Valid() && bundle.entries == [] && bundle.canceled == NoCancellations
    modifies bundle
    ensures r.Success? <==> RunOf(ctx, rows).Success?
    ensures r.Failure? ==> r.error == RunOf(ctx, rows).error
    ensures bundle.Valid()
    ensures r.Success? ==>
              var s := RunOf(ctx, rows).value;
              r.value == s.counts && bundle.entries == s.entries &&
              bundle.canceled == Cancelled(s.removedEncounters, s.removedObservations)
  {
    var counts := NoCounts;
    for i := 0 to |rows|
      invariant bundle.Valid()
      invariant RunOf(ctx, rows[..i]).Success?
      invariant var s := RunOf(ctx, rows[..i]).value;
                bundle.entries == s.entries &&
                bundle.canceled == Cancelled(s.removedEncounters, s.removedObservations) && counts == s.counts
    {
      PrefixStep(ctx, rows, i);
      var next := ProcessRow(ctx, bundle, rows[i], counts, RunOf(ctx, rows[..i]).value);
      if next.Failure? {
        FailureSticks(ctx, rows, i + 1);
        return Failure(next.error);
      }
      counts := next.value;
    }
    assert rows[..|rows|] == rows;
    r := Success(counts);
  }

  /** One row of the loop: the update branch or the cancellation branch. */
  method ProcessRow(ctx: Context, bundle: FHIRBundle, row: EncounterRow, before: Counts, ghost s: Run)
    returns (r: Result<Counts>)
    requires bundle.Valid() && before == s.counts
    requires bundle.entries == s.entries && bundle.canceled == Cancelled(s.removedEncounters, s.removedObservations)
    modifies bundle
    ensures bundle.Valid()
    ensures var st := Step(ctx, s, row);
            r.Success? == st.Success? && (r.Failure? ==> r.error == st.error) &&
            (r.Success? ==>
               r.value == st.value.counts && bundle.entries == st.value.entries &&
               bundle.canceled == Cancelled(st.value.removedEncounters, st.value.removedObservations))
  {
    if !Truthy(row.stdat) {
      r := UpsertRow(ctx, bundle, row.upsert, before, s);
    } else {
      CancelRow(ctx, bundle, row.cancel, s);
      r := Success(before.(rmReqEnc := before.rmReqEnc + 1));
    }
  }

  /**
   * The update branch of one row: the diagnosis loop, the department loop,
   * the ventilation Observation and the main Encounter, in the source's
   * order.
   */
  method UpsertRow(ctx: Context, bundle: FHIRBundle, u: EncounterUpdate, before: Counts, ghost s: Run)
    returns (r: Result<Counts>)
    requires bundle.Valid() && bundle.entries == s.entries && before == s.counts
    modifies bundle`entries
    ensures bundle.Valid() && bundle.canceled == old(bundle.canceled)
    ensures var st := UpsertStep(ctx, s, u);
            r.Success? == st.Success? && (r.Failure? ==> r.error == st.error) &&
            (r.Success? ==> r.value == st.value.counts && bundle.entries == st.value.entries &&
                            st.value.removedEncounters == s.removedEncounters &&
                            st.value.removedObservations == s.removedObservations)
  {
    var patientPsn := ctx.psn.patient(u.patientId);
    var encounterPsn := ctx.psn.encounter(u.encounterId);
    var kept, invalidCon := MapDiagnoses(ctx, encounterPsn, patientPsn, ctx.diagnoses(u.encounterId));
    ghost var dg := Diagnoses(kept, invalidCon);
    var refs, conditions := RankConditions(kept);
    var departments := MapDepartments(ctx, patientPsn, encounterPsn, u.encounterId, ctx.departments(u.encounterId));
    if departments.Failure? {
      return Failure(departments.error);
    }
    var dp := departments.value;
    var counts := ChildCounts(before, Diagnoses(kept, invalidCon), dp);
    var vent := V.MapVentilation(ctx.sys, encounterPsn, patientPsn, u.vent);
    counts := AddVentilation(ctx, bundle, vent, counts, s.entries);
    ghost var es := bundle.entries;
    var main := E.MapEncounter(ctx.sys, ctx.tables, refs, patientPsn, encounterPsn, u.rec);
    if main.Failure? {
      return Failure(main.error);
    }
    counts := AddMain(ctx, bundle, main.value, conditions, dp, counts, dg, es);
    r := Success(counts);
  }

  /** `vent_observation.as_json()`, then `add_resources([vent_observation])` or the invalid count. */
  method AddVentilation(ctx: Context, bundle: FHIRBundle, vent: V.Observation, before: Counts, ghost es: seq<Entry>)
    returns (counts: Counts)
    requires bundle.Valid() && bundle.entries == es
    modifies bundle`entries
    ensures bundle.Valid() && bundle.canceled == old(bundle.canceled)
    ensures counts == VentCounts(before, ctx.validVent(vent)) && bundle.entries == VentEntries(ctx, es, vent)
  {
    if ctx.validVent(vent) {
      bundle.AddResources([V.VentilationResource(vent)]);
      counts := before.(validObs := before.validObs + 1);
    } else {
      counts := before.(invalidObs := before.invalidObs + 1);
    }
  }

  /**
   * `main_encounter.as_json()`, then the four `add_resources` calls, or the
   * invalid count and the take-back of the case's children.
   */
  method AddMain(ctx: Context, bundle: FHIRBundle, main: E.Encounter, conditions: seq<Resource>, dp: Departments,
                 before: Counts, ghost dg: Diagnoses, ghost es: seq<Entry>)
    returns (counts: Counts)
    requires bundle.Valid() && bundle.entries == es && conditions == ConditionResources(dg.kept)
    modifies bundle`entries
    ensures bundle.Valid() && bundle.canceled == old(bundle.canceled)
    ensures counts == MainCounts(before, dg, dp, ctx.validEncounter(main))
    ensures bundle.entries == MainEntries(ctx, es, main, dg, dp)
  {
    if ctx.validEncounter(main) {
      AddCase(bundle, E.EncounterResource(main), conditions, SubResources(dp.subs), LocationResources(dp.locations));
      counts := before.(validEnc := before.validEnc + 1);
    } else {
      counts := before.(invalidEnc := before.invalidEnc + 1, validCon := before.validCon - |conditions|,
                        validSub := before.validSub - |dp.subs|, validLoc := before.validLoc - |dp.locations|);
    }
  }

  /** The four `add_resources` calls of a valid case, in the source's order. */
  method AddCase(bundle: FHIRBundle, main: Resource, conditions: seq<Resource>, subs: seq<Resource>,
                 locations: seq<Resource>)
    requires bundle.Valid()
    modifies bundle`entries
    ensures bundle.Valid() && bundle.canceled == old(bundle.canceled)
    ensures bundle.entries == AddCall(AddCall(AddCall(AddCall(old(bundle.entries), [main]), conditions), subs), locations)
  {
    bundle.AddResources([main]);
    bundle.AddResources(conditions);
    bundle.AddResources(subs);
    bundle.AddResources(locations);
  }

  /** The diagnosis loop of one case. */
  method MapDiagnoses(ctx: Context, encPsn: string, patPsn: string, recs: seq<DiagnosisRecord>)
    returns (kept: seq<(Condition, int)>, invalid: nat)
    ensures Diagnoses(kept, invalid) == DiagnosesOf(ctx, encPsn, patPsn, recs)
  {
    kept, invalid := [], 0;
    for i := 0 to |recs|
      invariant Diagnoses(kept, invalid) == DiagnosesOf(ctx, encPsn, patPsn, recs[..i])
    {
      assert recs[..i + 1][..i] == recs[..i];
      var condition := MapCondition(ctx.sys, encPsn, patPsn, recs[i]);
      if ctx.validCondition(condition.0) {
        kept := kept + [condition];
      } else {
        invalid := invalid + 1;
      }
    }
    assert recs[..|recs|] == recs;
  }

  /** The loop that builds `ranked_cond_ref` and `condition_list_2` from the kept pairs. */
  method RankConditions(kept: seq<(Condition, int)>) returns (refs: seq<E.RankedRef>, conditions: seq<Resource>)
    ensures refs == RankedRefs(kept) && conditions == ConditionResources(kept)
  {
    refs, conditions := [], [];
    for i := 0 to |kept|
      invariant refs == RankedRefs(kept[..i]) && conditions == ConditionResources(kept[..i])
    {
      var (condition, rank) := kept[i];
      refs := refs + [E.RankedRef(Reference("Condition", condition.id), rank)];
      conditions := conditions + [ConditionResource(condition)];
    }
    assert kept[..|kept|] == kept;
  }

  /** The department loop of one case; it stops at the first mapping error. */
  method MapDepartments(ctx: Context, patPsn: string, encPsn: string, encounterId: string, codes: seq<string>)
    returns (r: Result<Departments>)
    ensures r == DepartmentsOf(ctx, patPsn, encPsn, encounterId, codes)
  {
    var d := NoDepartments;
    for i := 0 to |codes|
      invariant DepartmentsOf(ctx, patPsn, encPsn, encounterId, codes[..i]) == Success(d)
    {
      DepartmentPrefix(ctx, patPsn, encPsn, encounterId, codes, i);
      var m := MapSubEncounter(ctx.sys, ctx.env, patPsn, encPsn, codes[i], ctx.transfers(encounterId, codes[i]));
      if m.Failure? {
        DepartmentFailureSticks(ctx, patPsn, encPsn, encounterId, codes, i + 1);
        return Failure(m.error);
      }
      d := BookDepartment(d, m.value, ctx.validSub(m.value.sub));
    }
    assert codes[..|codes|] == codes;
    r := Success(d);
  }

  /** One department's counters and lists, as the loop body updates them. */
  method BookDepartment(d: Departments, m: Mapped, subValid: bool) returns (d': Departments)
    ensures d' == DepartmentStep(d, m, subValid)
  {
    var (sub, locations, added, invalid) := (m.sub, m.locations, m.added, m.invalid);
    d' := d.(validLoc := d.validLoc + added, invalidLoc := d.invalidLoc + invalid, locations := d.locations + locations);
    if subValid {
      d' := d'.(subs := d'.subs + [sub]);
    } else {
      d' := d'.(invalidSub := d'.invalidSub + 1, validLoc := d'.validLoc - added, invalidLoc := d'.invalidLoc - invalid);
    }
  }

  /** The cancellation branch of one row. */
  method CancelRow(ctx: Context, bundle: FHIRBundle, d: EncounterCancel, ghost s: Run)
    requires bundle.Valid() && bundle.canceled == Cancelled(s.removedEncounters, s.removedObservations)
    modifies bundle
    ensures bundle.Valid() && bundle.entries == old(bundle.entries)
    ensures var s' := CancelStep(ctx, s, d); bundle.canceled == Cancelled(s'.removedEncounters, s'.removedObservations)
  {
    var encounterPsn := ctx.psn.encounter(d.falnr);
    var _ := bundle.RmResources("Encounter", encounterPsn);
    var obsId := encounterPsn + "_vent";
    var _ := bundle.RmResources("Observation", obsId);
  }

  // ---------------------------------------------------------------------
  // Properties.

  lemma PrefixStep(ctx: Context, rows: seq<EncounterRow>, i: int)
    requires 0 <= i < |rows|
    ensures RunOf(ctx, rows[..i + 1]) ==
            if RunOf(ctx, rows[..i]).Failure? then RunOf(ctx, rows[..i]) else Step(ctx, RunOf(ctx, rows[..i]).value, rows[i])
  {
    assert rows[..i + 1][..i] == rows[..i];
  }

  /** Once a prefix of the rows fails, the whole pass fails with the same error. */
  lemma {:induction false} FailureSticks(ctx: Context, rows: seq<EncounterRow>, i: int)
    requires 0 <= i <= |rows| && RunOf(ctx, rows[..i]).Failure?
    ensures RunOf(ctx, rows) == RunOf(ctx, rows[..i])
    decreases |rows| - i
  {
    if i < |rows| {
      PrefixStep(ctx, rows, i);
      FailureSticks(ctx, rows, i + 1);
    } else {
      assert rows[..i] == rows;
    }
  }

  lemma DepartmentPrefix(ctx: Context, patPsn: string, encPsn: string, encounterId: string, codes: seq<string>, i: int)
    requires 0 <= i < |codes|
    ensures var prev := DepartmentsOf(ctx, patPsn, encPsn, encounterId, codes[..i]);
            var m := MappedOf(ctx, patPsn, encPsn, encounterId, codes[i]);
            DepartmentsOf(ctx, patPsn, encPsn, encounterId, codes[..i + 1]) ==
              if prev.Failure? then prev
              else if m.Failure? then Failure(m.error)
              else Success(DepartmentStep(prev.value, m.value, ctx.validSub(m.value.sub)))
  {
    assert codes[..i + 1][..i] == codes[..i];
  }

  /** Once a department of a case fails, the case's department loop fails with the same error. */
  lemma {:induction false} DepartmentFailureSticks(ctx: Context, patPsn: string, encPsn: string, encounterId: string,
                                                   codes: seq<string>, i: int)
    requires 0 <= i <= |codes| && DepartmentsOf(ctx, patPsn, encPsn, encounterId, codes[..i]).Failure?
    ensures DepartmentsOf(ctx, patPsn, encPsn, encounterId, codes) == DepartmentsOf(ctx, patPsn, encPsn, encounterId, codes[..i])
    decreases |codes| - i
  {
    if i < |codes| {
      assert codes[..i + 1][..i] == codes[..i];
      DepartmentFailureSticks(ctx, patPsn, encPsn, encounterId, codes, i + 1);
    } else {
      assert codes[..i] == codes;
    }
  }

  /** A department maps without error: it has a transfer row, a numeric code and a begin time on every transfer. */
  predicate DepartmentMaps(ctx: Context, encounterId: string, code: string)
  {
    var rows := ctx.transfers(encounterId, code);
    rows != [] && ParseInt(code).Success? && AllBegun(rows)
  }

  lemma MappedSucceedsIff(ctx: Context, patPsn: string, encPsn: string, encounterId: string, code: string)
    ensures MappedOf(ctx, patPsn, encPsn, encounterId, code).Success? <==> DepartmentMaps(ctx, encounterId, code)
  {
  }

  /** The department loop over one more code completes iff the shorter loop and the new department do. */
  lemma DepartmentsLastStep(ctx: Context, patPsn: string, encPsn: string, encounterId: string, codes: seq<string>)
    requires codes != []
    ensures DepartmentsOf(ctx, patPsn, encPsn, encounterId, codes).Success? <==>
              DepartmentsOf(ctx, patPsn, encPsn, encounterId, codes[..|codes| - 1]).Success? &&
              MappedOf(ctx, patPsn, encPsn, encounterId, codes[|codes| - 1]).Success?
  {
  }

  /**
   * The department loop of a case completes exactly when every department
   * has a transfer row, a numeric code and a begin time on every transfer.
   */
  lemma {:induction false} DepartmentsSucceedIff(ctx: Context, patPsn: string, encPsn: string, encounterId: string,
                                                 codes: seq<string>)
    ensures DepartmentsOf(ctx, patPsn, encPsn, encounterId, codes).Success? <==>
              forall i :: 0 <= i < |codes| ==> DepartmentMaps(ctx, encounterId, codes[i])
  {
    if codes != [] {
      var init := codes[..|codes| - 1];
      DepartmentsSucceedIff(ctx, patPsn, encPsn, encounterId, init);
      DepartmentsLastStep(ctx, patPsn, encPsn, encounterId, codes);
      MappedSucceedsIff(ctx, patPsn, encPsn, encounterId, codes[|codes| - 1]);
      AllDepartmentsMapSplit(ctx, encounterId, codes, init);
    }
  }

  lemma AllDepartmentsMapSplit(ctx: Context, encounterId: string, codes: seq<string>, init: seq<string>)
    requires codes != [] && init == codes[..|codes| - 1]
    ensures (forall i :: 0 <= i < |codes| ==> DepartmentMaps(ctx, encounterId, codes[i])) <==>
              (forall i :: 0 <= i < |init| ==> DepartmentMaps(ctx, encounterId, init[i])) &&
              DepartmentMaps(ctx, encounterId, codes[|codes| - 1])
  {
    assert forall i :: 0 <= i < |init| ==> init[i] == codes[i];
  }

  /**
   * The cancellations of a completed pass: the i-th cancellation row asks to
   * remove the Encounter named by the pseudonym of its case key and the
   * Observation `<pseudonym>_vent`.
   */
  lemma {:induction false} RunCancels(ctx: Context, rows: seq<EncounterRow>, i: int)
    requires RunOf(ctx, rows).Success? && 0 <= i < |Cancels(rows)|
    ensures var s := RunOf(ctx, rows).value;
            s.removedEncounters[i] == CancelEncounterId(ctx, Cancels(rows)[i]) &&
            s.removedObservations[i] == CancelVentId(ctx, Cancels(rows)[i])
  {
    var init, last := rows[..|rows| - 1], rows[|rows| - 1];
    assert Cancels(rows) == Cancels(init) + (if IsUpsert(last) then [] else [last.cancel]);
    var s0 := RunOf(ctx, init).value;
    var s := RunOf(ctx, rows).value;
    assert RunOf(ctx, rows) == Step(ctx, s0, last);
    if IsUpsert(last) {
      assert s.removedEncounters == s0.removedEncounters && s.removedObservations == s0.removedObservations;
      assert Cancels(rows) == Cancels(init) + [] == Cancels(init);
      RunCancels(ctx, init, i);
    } else if i < |Cancels(init)| {
      assert s.removedEncounters == s0.removedEncounters + [CancelEncounterId(ctx, last.cancel)];
      assert s.removedObservations == s0.removedObservations + [CancelVentId(ctx, last.cancel)];
      RunCancels(ctx, init, i);
    }
  }

  /**
   * A cancellation of the same case key removes the main Encounter the pass
   * built for it, but asks for `<psn>_vent` while the ventilation
   * Observation is `<psn>-vent`: the ventilation Observation is never
   * removed.
   */
  lemma CancelMissesVentilation(ctx: Context, u: EncounterUpdate, d: EncounterCancel, dg: Diagnoses)
    requires d.falnr == u.encounterId && MainOf(ctx, u, dg).Success?
    ensures CancelEncounterId(ctx, d) == MainOf(ctx, u, dg).value.id
    ensures CancelVentId(ctx, d) != VentOf(ctx, u).id
  {
    DifferentSuffixes(ctx.psn.encounter(d.falnr), ctx.psn.encounter(u.encounterId), "_vent", "-vent");
  }

  /**
   * Within a case, every Condition, sub-encounter and the ventilation
   * Observation refer to the main Encounter, and the main Encounter's
   * diagnosis list refers to each Condition handed to `add_resources`, in
   * order and with its rank.
   */
  lemma CaseReferencesMain(ctx: Context, u: EncounterUpdate)
    requires DepartmentsOfCase(ctx, u).Success? && MainOf(ctx, u, DiagnosesOfCase(ctx, u)).Success?
    ensures var dg := DiagnosesOfCase(ctx, u);
            var main := MainOf(ctx, u, dg).value;
            var conditions := ConditionResources(dg.kept);
            main.diagnosis.Some? <==> conditions != []
    ensures var dg := DiagnosesOfCase(ctx, u);
            var main := MainOf(ctx, u, dg).value;
            var conditions := ConditionResources(dg.kept);
            main.diagnosis.Some? ==>
              |main.diagnosis.value| == |conditions| &&
              forall i :: 0 <= i < |conditions| ==>
                main.diagnosis.value[i].condition == Reference("Condition", conditions[i].id) &&
                main.diagnosis.value[i].rank == dg.kept[i].1 &&
                conditions[i].body.encounterRef == Some(Reference("Encounter", main.id))
    ensures var main := MainOf(ctx, u, DiagnosesOfCase(ctx, u)).value;
            var dp := DepartmentsOfCase(ctx, u).value;
            forall sub :: sub in dp.subs ==> sub.partOf == Reference("Encounter", main.id)
    ensures var main := MainOf(ctx, u, DiagnosesOfCase(ctx, u)).value;
            VentOf(ctx, u).encounter == Reference("Encounter", main.id)
  {
    var encPsn, patPsn := ctx.psn.encounter(u.encounterId), ctx.psn.patient(u.patientId);
    var dg := DiagnosesOfCase(ctx, u);
    forall i | 0 <= i < |dg.kept|
      ensures dg.kept[i].0.encounter == Reference("Encounter", encPsn)
    {
      KeptDiagnosesValid(ctx, encPsn, patPsn, ctx.diagnoses(u.encounterId), i);
    }
    SubsPartOf(ctx, patPsn, encPsn, u.encounterId, ctx.departments(u.encounterId));
  }

  /** Every sub-encounter of a completed department loop is part of the case's Encounter. */
  lemma {:induction false} SubsPartOf(ctx: Context, patPsn: string, encPsn: string, encounterId: string, codes: seq<string>)
    requires DepartmentsOf(ctx, patPsn, encPsn, encounterId, codes).Success?
    ensures forall sub :: sub in DepartmentsOf(ctx, patPsn, encPsn, encounterId, codes).value.subs ==>
              sub.partOf == Reference("Encounter", encPsn)
  {
    if codes != [] {
      SubsPartOf(ctx, patPsn, encPsn, encounterId, codes[..|codes| - 1]);
    }
  }

  /**
   * A case whose main Encounter does not validate adds at most its
   * ventilation Observation, and its Conditions and sub-encounters leave the
   * valid counters as they were.
   */
  lemma InvalidMainAddsNoChildren(ctx: Context, s: Run, u: EncounterUpdate)
    requires UpsertStep(ctx, s, u).Success?
    requires !ctx.validEncounter(MainOf(ctx, u, DiagnosesOfCase(ctx, u)).value)
    ensures var s' := UpsertStep(ctx, s, u).value;
            s'.entries == VentEntries(ctx, s.entries, VentOf(ctx, u)) &&
            s'.counts.validCon == s.counts.validCon && s'.counts.validSub == s.counts.validSub &&
            s'.counts.validEnc == s.counts.validEnc && s'.counts.invalidEnc == s.counts.invalidEnc + 1
  {
  }

  /**
   * The Conditions and sub-encounters of a case count as valid exactly when
   * its main Encounter does, so the valid Condition and sub-encounter
   * counters of a completed pass are never negative.
   */
  lemma {:induction false} ValidCountersNonNegative(ctx: Context, rows: seq<EncounterRow>)
    requires RunOf(ctx, rows).Success?
    ensures RunOf(ctx, rows).value.counts.validCon >= 0 && RunOf(ctx, rows).value.counts.validSub >= 0
    ensures RunOf(ctx, rows).value.counts.invalidLoc >= 0
  {
    if rows != [] {
      ValidCountersNonNegative(ctx, rows[..|rows| - 1]);
      StepKeepsNonNegative(ctx, RunOf(ctx, rows[..|rows| - 1]).value, rows[|rows| - 1]);
    }
  }

  /** One row keeps the valid Condition and sub-encounter counters and the invalid Location counter non-negative. */
  lemma StepKeepsNonNegative(ctx: Context, s: Run, row: EncounterRow)
    requires Step(ctx, s, row).Success?
    requires s.counts.validCon >= 0 && s.counts.validSub >= 0 && s.counts.invalidLoc >= 0
    ensures var c := Step(ctx, s, row).value.counts; c.validCon >= 0 && c.validSub >= 0 && c.invalidLoc >= 0
  {
    if IsUpsert(row) {
      UpsertStepCounts(ctx, s, row.upsert);
    }
  }

  // ---------------------------------------------------------------------
  // The Location counter.

  /**
   * As written, a case with one department whose sub-encounter is invalid
   * and whose single transfer yields a valid Location, and whose main
   * Encounter is invalid too, leaves `valid_loc` at -1: the Location is
   * taken back once for the sub-encounter and once more for the main
   * Encounter, because it stayed in `location_list_total`.
   */
  lemma LocationCounterGoesNegative(m: Mapped)
    requires m.added == |m.locations| == 1 && m.invalid == 0
    ensures var dp := DepartmentStep(NoDepartments, m, false);
            RowCounts(NoCounts, Diagnoses([], 0), dp, true, false).validLoc == -1
  {
  }

  /**
   * As written, a valid case with an invalid sub-encounter hands that
   * sub-encounter's Locations to `add_resources` without counting them.
   */
  lemma LocationsAddedUncounted(m: Mapped)
    requires m.added == |m.locations| == 1
    ensures var dp := DepartmentStep(NoDepartments, m, false);
            |LocationResources(dp.locations)| == 1 && RowCounts(NoCounts, Diagnoses([], 0), dp, true, true).validLoc == 0
  {
  }

  /**
   * The evidently intended bookkeeping: the Locations of an invalid
   * sub-encounter are dropped with it, so the case's list holds exactly
   * the Locations the valid counter counts.
   */
  function DepartmentStepCorrected(d: Departments, m: Mapped, subValid: bool): Departments
  {
    if subValid then
      d.(subs := d.subs + [m.sub], locations := d.locations + m.locations,
         validLoc := d.validLoc + m.added, invalidLoc := d.invalidLoc + m.invalid)
    else d.(invalidSub := d.invalidSub + 1)
  }

  /** The corrected step keeps the valid Location counter equal to the Locations in the list. */
  lemma CorrectedStepCountsLocations(d: Departments, m: Mapped, subValid: bool)
    requires d.validLoc == |d.locations| && d.invalidLoc >= 0 && m.added == |m.locations|
    ensures var d' := DepartmentStepCorrected(d, m, subValid);
            d'.validLoc == |d'.locations| && d'.invalidLoc >= 0
    ensures var d' := DepartmentStepCorrected(d, m, subValid);
            (subValid <==> d'.subs == d.subs + [m.sub]) && (!subValid ==> d'.locations == d.locations)
  {
  }

  /** The corrected department loop over the mapped departments of a case and their validity. */
  function CorrectedDepartments(ms: seq<(Mapped, bool)>): Departments
  {
    if ms == [] then NoDepartments
    else var last := ms[|ms| - 1]; DepartmentStepCorrected(CorrectedDepartments(ms[..|ms| - 1]), last.0, last.1)
  }

  /**
   * With the corrected loop, a case adds to `valid_loc` exactly the number of
   * Locations it hands to `add_resources`: the list's length when the main
   * Encounter validates, nothing otherwise.
   */
  lemma {:induction false} CorrectedLocationsCounted(ms: seq<(Mapped, bool)>, c: Counts, dg: Diagnoses,
                                                     ventValid: bool, mainValid: bool)
    requires forall i :: 0 <= i < |ms| ==> ms[i].0.added == |ms[i].0.locations|
    ensures var dp := CorrectedDepartments(ms);
            RowCounts(c, dg, dp, ventValid, mainValid).validLoc ==
              c.validLoc + (if mainValid then |LocationResources(dp.locations)| else 0)
    ensures var dp := CorrectedDepartments(ms); dp.invalidLoc >= 0
  {
    CorrectedInvariant(ms);
  }

  lemma {:induction false} CorrectedInvariant(ms: seq<(Mapped, bool)>)
    requires forall i :: 0 <= i < |ms| ==> ms[i].0.added == |ms[i].0.locations|
    ensures var dp := CorrectedDepartments(ms); dp.validLoc == |dp.locations| && dp.invalidLoc >= 0
  {
    if ms != [] {
      CorrectedInvariant(ms[..|ms| - 1]);
      var last := ms[|ms| - 1];
      CorrectedStepCountsLocations(CorrectedDepartments(ms[..|ms| - 1]), last.0, last.1);
    }
  }
}
