// `UMMonFHIR.process_patients`: updated data-mart patients become Patient
// resources, cancelled SAP patients become Patient cancellations; one bundle
// is delivered and the Patient read-back counts are taken.

module PatientPass {
  import opened Common
  import opened Fhir
  import opened Store
  import opened Bundle
  import opened DbStats
  import opened PassRows
  import opened PatientMapper

  // The names this pass hands to `get_ups_rm_num_fhir`.
  const PatientName := "Patient"

  /** The update side of a row: `patient_id` as sent to the pseudonymizer, and the mapper's columns. */
  datatype PatientUpdate = PatientUpdate(patientId: string, rec: PatientRecord)

  /** The cancellation side of a row: `patnr` of `q_npat`. */
  datatype PatientCancel = PatientCancel(patnr: string)

  type PatientRow = JoinRow<PatientUpdate, PatientCancel>

  /** The configuration and the oracles of the pass; `valid` stands for `as_json()` not raising. */
  datatype Context = Context(sys: Systems, psn: Pseudonymizer, valid: Patient -> bool)

  /** What the loop has done after some rows: the added resources, the cancelled ids and the three counters. */
  datatype Run = Run(added: seq<Resource>, removed: seq<string>, valid: nat, invalid: nat, rmReq: nat)

  /** `res_stats` of the psql branch. */
  datatype Stats = Stats(validPat: nat, invalidPat: nat, rmReqPat: nat, upsPat: nat, rmPat: nat)

  function PatientOf(ctx: Context, u: PatientUpdate): Patient
  {
    MapPatient(ctx.sys, ctx.psn.patient(u.patientId), u.rec)
  }

  /** One row of the loop. */
  function Step(ctx: Context, s: Run, row: PatientRow): Run
  {
    if IsUpsert(row) then
      var p := PatientOf(ctx, row.upsert);
      if ctx.valid(p) then s.(added := s.added + [PatientResource(p)], valid := s.valid + 1)
      else s.(invalid := s.invalid + 1)
    else s.(removed := s.removed + [ctx.psn.patient(row.cancel.patnr)], rmReq := s.rmReq + 1)
  }

  /**
   * The loop over all rows.  Every update row is counted once as valid or
   * invalid and every cancellation row once as a removal request; the
   * resources are the valid Patients in row order and the cancelled ids the
   * pseudonyms of the cancellation rows in row order.
   */
  function RunOf(ctx: Context, rows: seq<PatientRow>): (s: Run)
    ensures s.valid + s.invalid == |Upserts(rows)|
    ensures s.rmReq == |Cancels(rows)| == |s.removed|
    ensures forall i :: 0 <= i < |s.removed| ==> s.removed[i] == ctx.psn.patient(Cancels(rows)[i].patnr)
    ensures |s.added| == s.valid
    ensures forall r :: r in s.added ==> r.resType == "Patient" && r.body.source == Some(SapIsh)
  {
    if rows == [] then Run([], [], 0, 0, 0) else Step(ctx, RunOf(ctx, rows[..|rows| - 1]), rows[|rows| - 1])
  }

  /** The Patient cancellations of the bundle: the six lists with only the Patient list filled. */
  function Cancelled(removed: seq<string>): (m: map<string, seq<string>>)
    ensures WellKeyed(m) && m["Patient"] == removed
  {
    NoCancellations["Patient" := removed]
  }

  /**
   * `process_patients` with a PostgreSQL destination.  `ts` is `current_ts`,
   * taken before `execute`; `now` is the database clock during `execute`.
   */
  method ProcessPatients(ctx: Context, rows: seq<PatientRow>, t: Table, ts: int, now: int)
    returns (stats: Stats, t': Table, ghost picks: seq<Option<nat>>)
    ensures var s := RunOf(ctx, rows);
            stats.validPat == s.valid && stats.invalidPat == s.invalid && stats.rmReqPat == s.rmReq &&
            |picks| == 0 && t' == Deliver(t, EntriesOf(s.added), Cancelled(s.removed), now, picks)
    ensures (stats.upsPat, stats.rmPat) == UpsRmNum(PatientName, ts, t')
  {
    var bundle := new FHIRBundle();
    var valid, invalid, rmReq := 0, 0, 0;
    for i := 0 to |rows|
      invariant bundle.Valid()
      invariant var s := RunOf(ctx, rows[..i]);
                bundle.entries == EntriesOf(s.added) && bundle.canceled == Cancelled(s.removed) &&
                valid == s.valid && invalid == s.invalid && rmReq == s.rmReq
    {
      PrefixStep(ctx, rows, i);
      valid, invalid, rmReq := ProcessRow(ctx, bundle, rows[i], RunOf(ctx, rows[..i]), valid, invalid, rmReq);
    }
    assert rows[..|rows|] == rows;
    t', picks := bundle.Execute(t, now);
    var ups, rm := GetUpsRmNum(PatientName, ts, t');
    stats := Stats(valid, invalid, rmReq, ups, rm);
  }

  /** One iteration of the row loop: the upsert branch or the cancellation branch. */
  method ProcessRow(ctx: Context, bundle: FHIRBundle, row: PatientRow, ghost s: Run, valid: nat, invalid: nat, rmReq: nat)
    returns (valid': nat, invalid': nat, rmReq': nat)
    requires bundle.Valid() && bundle.entries == EntriesOf(s.added) && bundle.canceled == Cancelled(s.removed)
    requires valid == s.valid && invalid == s.invalid && rmReq == s.rmReq
    modifies bundle
    ensures var s' := Step(ctx, s, row);
            bundle.Valid() && bundle.entries == EntriesOf(s'.added) && bundle.canceled == Cancelled(s'.removed) &&
            valid' == s'.valid && invalid' == s'.invalid && rmReq' == s'.rmReq
  {
    valid', invalid', rmReq' := valid, invalid, rmReq;
    if !Truthy(row.stdat) {
      var patientPsn := ctx.psn.patient(row.upsert.patientId);
      var patient := MapPatient(ctx.sys, patientPsn, row.upsert.rec);
      if ctx.valid(patient) {
        var resource := PatientResource(patient);
        SingleAdd(s.added, resource);
        bundle.AddResources([resource]);
        valid' := valid + 1;
      } else {
        invalid' := invalid + 1;
      }
    } else {
      var patientPsn := ctx.psn.patient(row.cancel.patnr);
      CancelledAppend(s.removed, patientPsn);
      var _ := bundle.RmResources("Patient", patientPsn);
      rmReq' := rmReq + 1;
    }
  }

  lemma PrefixStep(ctx: Context, rows: seq<PatientRow>, i: int)
    requires 0 <= i < |rows|
    ensures RunOf(ctx, rows[..i + 1]) == Step(ctx, RunOf(ctx, rows[..i]), rows[i])
  {
    assert rows[..i + 1][..i] == rows[..i];
  }

  lemma CancelledAppend(removed: seq<string>, id: string)
    ensures Cancelled(removed)["Patient" := Cancelled(removed)["Patient"] + [id]] == Cancelled(removed + [id])
  {
  }

  /** Each cancelled patient that is stored or upserted in the same pass ends soft-deleted. */
  lemma CancelledPatientDeleted(ctx: Context, rows: seq<PatientRow>, t: Table, now: int, i: int)
    requires 0 <= i < |Cancels(rows)|
    requires var id := ctx.psn.patient(Cancels(rows)[i].patnr);
             Key(id, "Patient") in t || HasKey(RunOf(ctx, rows).added, Key(id, "Patient"))
    ensures var s := RunOf(ctx, rows);
            DeletedIn(Deliver(t, EntriesOf(s.added), Cancelled(s.removed), now, []),
                      Key(ctx.psn.patient(Cancels(rows)[i].patnr), "Patient"))
  {
    var s := RunOf(ctx, rows);
    var id := ctx.psn.patient(Cancels(rows)[i].patnr);
    assert s.removed[i] == id;
    ResourcesOfEntries(s.added);
    CancelledEndsDeleted(t, EntriesOf(s.added), Cancelled(s.removed), now, [], "Patient", id);
  }
}
