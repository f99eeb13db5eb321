// `UMMonFHIR.process_conditions`: updated diagnoses become Condition
// resources, cancelled SAP diagnoses become Condition cancellations whose id
// is built from the case pseudonym and the diagnosis number.

module ConditionPass {
  import opened Common
  import opened Fhir
  import opened Store
  import opened Bundle
  import opened DbStats
  import opened PassRows
  import opened ConditionMapper

  // The names this pass hands to `get_ups_rm_num_fhir`.
  const ConditionName := "Condition"

  /** The update side of a row: the two keys as sent to the pseudonymizer, and the diagnosis columns. */
  datatype ConditionUpdate = ConditionUpdate(patientId: string, encounterId: string, rec: DiagnosisRecord)

  /** The cancellation side: `falnr` and `lfdnr` of `q_ndia`, as text. */
  datatype ConditionCancel = ConditionCancel(falnr: string, lfdnr: string)

  type ConditionRow = JoinRow<ConditionUpdate, ConditionCancel>

  datatype Context = Context(sys: Systems, psn: Pseudonymizer, valid: Condition -> bool)

  datatype Run = Run(added: seq<Resource>, removed: seq<string>, valid: nat, invalid: nat, rmReq: nat)

  /** `res_stats` of the psql branch. */
  datatype Stats = Stats(validCon: nat, invalidCon: nat, rmReqCon: nat, upsCon: nat, rmCon: nat)

  function ConditionOf(ctx: Context, u: ConditionUpdate): Condition
  {
    MapCondition(ctx.sys, ctx.psn.encounter(u.encounterId), ctx.psn.patient(u.patientId), u.rec).0
  }

  /** The id a cancellation row asks to remove: the case pseudonym, '_', the diagnosis number. */
  function CancelId(ctx: Context, d: ConditionCancel): string
  {
    ctx.psn.encounter(d.falnr) + "_" + d.lfdnr
  }

  function Step(ctx: Context, s: Run, row: ConditionRow): Run
  {
    if IsUpsert(row) then
      var c := ConditionOf(ctx, row.upsert);
      if ctx.valid(c) then s.(added := s.added + [ConditionResource(c)], valid := s.valid + 1)
      else s.(invalid := s.invalid + 1)
    else s.(removed := s.removed + [CancelId(ctx, row.cancel)], rmReq := s.rmReq + 1)
  }

  /**
   * The loop over all rows: each update row counted once as valid or
   * invalid, each cancellation row once as a request for its Condition id.
   */
  function RunOf(ctx: Context, rows: seq<ConditionRow>): (s: Run)
    ensures s.valid + s.invalid == |Upserts(rows)|
    ensures s.rmReq == |Cancels(rows)| == |s.removed|
    ensures forall i :: 0 <= i < |s.removed| ==> s.removed[i] == CancelId(ctx, Cancels(rows)[i])
    ensures |s.added| == s.valid
    ensures forall r :: r in s.added ==> r.resType == "Condition" && r.body.source == Some(SapIsh)
  {
    if rows == [] then Run([], [], 0, 0, 0) else Step(ctx, RunOf(ctx, rows[..|rows| - 1]), rows[|rows| - 1])
  }

  function Cancelled(removed: seq<string>): (m: map<string, seq<string>>)
    ensures WellKeyed(m) && m["Condition"] == removed
  {
    NoCancellations["Condition" := removed]
  }

  /** `process_conditions` with a PostgreSQL destination. */
  method ProcessConditions(ctx: Context, rows: seq<ConditionRow>, t: Table, ts: int, now: int)
    returns (stats: Stats, t': Table, ghost picks: seq<Option<nat>>)
    ensures var s := RunOf(ctx, rows);
            stats.validCon == s.valid && stats.invalidCon == s.invalid && stats.rmReqCon == s.rmReq &&
            |picks| == |s.removed| && t' == Deliver(t, EntriesOf(s.added), Cancelled(s.removed), now, picks) &&
            DeliverPicksOk(t, EntriesOf(s.added), Cancelled(s.removed), now, picks)
    ensures (stats.upsCon, stats.rmCon) == UpsRmNum(ConditionName, ts, t')
  {
    var bundle := new FHIRBundle();
    var valid, invalid, rmReq := 0, 0, 0;
    for i := 0 to |rows|
      invariant bundle.Valid()
      invariant var s := RunOf(ctx, rows[..i]);
                bundle.entries == EntriesOf(s.added) && bundle.canceled == Cancelled(s.removed) &&
                valid == s.valid && invalid == s.invalid && rmReq == s.rmReq
    {
      var row := rows[i];
      PrefixStep(ctx, rows, i);
      ghost var s := RunOf(ctx, rows[..i]);
      if !Truthy(row.stdat) {
        var patientPsn := ctx.psn.patient(row.upsert.patientId);
        var encounterPsn := ctx.psn.encounter(row.upsert.encounterId);
        var condition := MapCondition(ctx.sys, encounterPsn, patientPsn, row.upsert.rec).0;
        if ctx.valid(condition) {
          var resource := ConditionResource(condition);
          SingleAdd(s.added, resource);
          bundle.AddResources([resource]);
          valid := valid + 1;
        } else {
          invalid := invalid + 1;
        }
      } else {
        var encounterPsn := ctx.psn.encounter(row.cancel.falnr);
        var condId := encounterPsn + "_" + row.cancel.lfdnr;
        CancelledAppend(s.removed, condId);
        var _ := bundle.RmResources("Condition", condId);
        rmReq := rmReq + 1;
      }
    }
    assert rows[..|rows|] == rows;
    t', picks := bundle.Execute(t, now);
    var ups, rm := GetUpsRmNum(ConditionName, ts, t');
    stats := Stats(valid, invalid, rmReq, ups, rm);
  }

  lemma PrefixStep(ctx: Context, rows: seq<ConditionRow>, i: int)
    requires 0 <= i < |rows|
    ensures RunOf(ctx, rows[..i + 1]) == Step(ctx, RunOf(ctx, rows[..i]), rows[i])
  {
    assert rows[..i + 1][..i] == rows[..i];
  }

  lemma CancelledAppend(removed: seq<string>, id: string)
    ensures Cancelled(removed)["Condition" := Cancelled(removed)["Condition"] + [id]] == Cancelled(removed + [id])
  {
  }

  /**
   * A cancellation hits the Condition the mapper built for the same diagnosis
   * exactly when the cancelled case key is sent to the pseudonymizer as the
   * same text and `lfdnr` is the decimal text of `diagnosis_nr`; a
   * zero-padded `lfdnr` names a different id.
   */
  lemma CancelIdMatchesConditionId(ctx: Context, u: ConditionUpdate, d: ConditionCancel)
    requires d.falnr == u.encounterId
    ensures CancelId(ctx, d) == ConditionOf(ctx, u).id <==> d.lfdnr == IntToString(u.rec.diagnosisNr)
  {
    var prefix := ctx.psn.encounter(d.falnr) + "_";
    if CancelId(ctx, d) == ConditionOf(ctx, u).id {
      assert d.lfdnr == CancelId(ctx, d)[|prefix|..];
      assert IntToString(u.rec.diagnosisNr) == ConditionOf(ctx, u).id[|prefix|..];
    }
  }
}
