// `UMMonFHIR.process_procedures`: each updated OPS procedure yields a
// Procedure and, for a drug administration, a Medication and a
// MedicationStatement, each validated on its own.  A mapping error (an empty
// or missing OPS code) is raised outside any handler and ends the pass before
// the bundle is delivered.  A cancelled procedure removes the
// MedicationStatement when its OPS code is a drug code, the Procedure
// otherwise.

module ProcedurePass {
  import opened Common
  import opened Fhir
  import opened Store
  import opened Bundle
  import opened DbStats
  import opened PassRows
  import opened ProcedureMapper

  // The names this pass hands to `get_ups_rm_num_fhir`.
  const ProcedureName := "Procedure"
  const MedicationName := "Medication"
  const MedicationStatementName := "MedicationStatement"

  datatype ProcedureUpdate = ProcedureUpdate(patientId: string, encounterId: string, rec: ProcedureRecord)

  /** The cancellation side: `falnr`, `lnric` and `icpml` of `q_nicp`. */
  datatype ProcedureCancel = ProcedureCancel(falnr: string, lnric: string, opsCode: Option<string>)

  type ProcedureRow = JoinRow<ProcedureUpdate, ProcedureCancel>

  datatype Context = Context(sys: Systems, tables: DrugTables, psn: Pseudonymizer,
                             validProcedure: Procedure -> bool, validMedication: Medication -> bool,
                             validStatement: Statement -> bool)

  /** The seven counters of the loop, which become the first part of `res_stats`. */
  datatype Counts = Counts(validProd: nat, invalidProd: nat, validMed: nat, invalidMed: nat,
                           validMedStm: nat, invalidMedStm: nat, rmReqProd: nat)

  datatype Run = Run(added: seq<Resource>, removedProcedures: seq<string>, removedStatements: seq<string>, counts: Counts)

  /** `res_stats` of the psql branch: the counters and the read-back numbers. */
  datatype Stats = Stats(counts: Counts, upsProd: nat, rmProd: nat, upsMed: nat, rmMed: nat, upsMedStm: nat, rmMedStm: nat)

  function MappedOf(ctx: Context, u: ProcedureUpdate): Result<Mapped>
  {
    ProcedureOf(ctx.sys, ctx.tables, ctx.psn.encounter(u.encounterId), ctx.psn.patient(u.patientId), u.rec)
  }

  function CountProcedure(ctx: Context, s: Run, p: Procedure): Run
  {
    if ctx.validProcedure(p) then s.(added := s.added + [ProcedureResource(p)], counts := s.counts.(validProd := s.counts.validProd + 1))
    else s.(counts := s.counts.(invalidProd := s.counts.invalidProd + 1))
  }

  /** `if medication:` — an absent Medication is neither valid nor invalid. */
  function CountMedication(ctx: Context, s: Run, m: Option<Medication>): Run
  {
    if m.None? then s
    else if ctx.validMedication(m.value) then s.(added := s.added + [MedicationResource(m.value)], counts := s.counts.(validMed := s.counts.validMed + 1))
    else s.(counts := s.counts.(invalidMed := s.counts.invalidMed + 1))
  }

  function CountStatement(ctx: Context, s: Run, m: Option<Statement>): Run
  {
    if m.None? then s
    else if ctx.validStatement(m.value) then s.(added := s.added + [StatementResource(m.value)], counts := s.counts.(validMedStm := s.counts.validMedStm + 1))
    else s.(counts := s.counts.(invalidMedStm := s.counts.invalidMedStm + 1))
  }

  /** The three validations of one mapped procedure, in the source's order. */
  function Counted(ctx: Context, s: Run, m: Mapped): Run
  {
    CountStatement(ctx, CountMedication(ctx, CountProcedure(ctx, s, m.procedure), m.medication), m.statement)
  }

  /** `ops_code_delete and ops_code_delete[0] == '6'`: the cancelled procedure is a drug administration. */
  predicate IsDrugCancel(d: ProcedureCancel)
  {
    Truthy(d.opsCode) && d.opsCode.value[0] == '6'
  }

  function CancelProcedureId(ctx: Context, d: ProcedureCancel): string
  {
    ctx.psn.encounter(d.falnr) + "_" + d.lnric
  }

  function CancelStatementId(ctx: Context, d: ProcedureCancel): string
  {
    CancelProcedureId(ctx, d) + "_med_stat"
  }

  function CancelStep(ctx: Context, s: Run, d: ProcedureCancel): Run
  {
    if IsDrugCancel(d) then s.(removedStatements := s.removedStatements + [CancelStatementId(ctx, d)], counts := s.counts.(rmReqProd := s.counts.rmReqProd + 1))
    else s.(removedProcedures := s.removedProcedures + [CancelProcedureId(ctx, d)], counts := s.counts.(rmReqProd := s.counts.rmReqProd + 1))
  }

  function Step(ctx: Context, s: Run, row: ProcedureRow): Result<Run>
  {
    if IsUpsert(row) then
      var m := MappedOf(ctx, row.upsert);
      if m.Failure? then Failure(m.error) else Success(Counted(ctx, s, m.value))
    else Success(CancelStep(ctx, s, row.cancel))
  }

  const Start := Run([], [], [], Counts(0, 0, 0, 0, 0, 0, 0))

  /**
   * The loop over all rows, ending at the first mapping error.  When it
   * completes, every update row is counted once as a valid or invalid
   * Procedure, Medication and MedicationStatement are counted equally often
   * (the mapper builds both or neither), and every cancellation row is one
   * request for exactly one id.
   */
  function RunOf(ctx: Context, rows: seq<ProcedureRow>): (r: Result<Run>)
    ensures r.Success? ==>
              var s := r.value;
              s.counts.validProd + s.counts.invalidProd == |Upserts(rows)| &&
              s.counts.validMed + s.counts.invalidMed == s.counts.validMedStm + s.counts.invalidMedStm <= s.counts.validProd + s.counts.invalidProd &&
              s.counts.rmReqProd == |Cancels(rows)| == |s.removedProcedures| + |s.removedStatements| &&
              |s.added| == s.counts.validProd + s.counts.validMed + s.counts.validMedStm
  {
    if rows == [] then Success(Start)
    else
      var r := RunOf(ctx, rows[..|rows| - 1]);
      if r.Failure? then r
      else
        StepCounts(ctx, r.value, rows[|rows| - 1]);
        Step(ctx, r.value, rows[|rows| - 1])
  }

  /** One mapped procedure counts one Procedure, and a Medication exactly when it counts a MedicationStatement. */
  predicate CountsOneProcedure(c: Counts, c': Counts, added: nat)
  {
    c'.validProd + c'.invalidProd == c.validProd + c.invalidProd + 1 &&
    c'.validMed + c'.invalidMed - c.validMed - c.invalidMed == c'.validMedStm + c'.invalidMedStm - c.validMedStm - c.invalidMedStm <= 1 &&
    c'.validMed + c'.invalidMed >= c.validMed + c.invalidMed &&
    c'.validProd >= c.validProd && c'.validMed >= c.validMed && c'.validMedStm >= c.validMedStm &&
    added == c'.validProd - c.validProd + c'.validMed - c.validMed + c'.validMedStm - c.validMedStm &&
    c'.rmReqProd == c.rmReqProd
  }

  lemma CountedCounts(ctx: Context, s: Run, m: Mapped)
    requires m.statement.Some? <==> m.medication.Some?
    ensures var s' := Counted(ctx, s, m);
            |s'.added| >= |s.added| && CountsOneProcedure(s.counts, s'.counts, |s'.added| - |s.added|) &&
            s'.removedProcedures == s.removedProcedures && s'.removedStatements == s.removedStatements
  {
  }

  /** How one row moves the counters, the added resources and the cancelled ids. */
  lemma StepCounts(ctx: Context, s: Run, row: ProcedureRow)
    ensures var r := Step(ctx, s, row);
            r.Success? ==>
              var s' := r.value;
              if IsUpsert(row) then
                |s'.added| >= |s.added| && CountsOneProcedure(s.counts, s'.counts, |s'.added| - |s.added|) &&
                s'.removedProcedures == s.removedProcedures && s'.removedStatements == s.removedStatements
              else
                s'.counts == s.counts.(rmReqProd := s.counts.rmReqProd + 1) && s'.added == s.added &&
                |s'.removedProcedures| + |s'.removedStatements| == |s.removedProcedures| + |s.removedStatements| + 1
  {
    if IsUpsert(row) {
      var m := MappedOf(ctx, row.upsert);
      if m.Success? {
        CountedCounts(ctx, s, m.value);
      }
    }
  }

  function Cancelled(removedProcedures: seq<string>, removedStatements: seq<string>): (m: map<string, seq<string>>)
    ensures WellKeyed(m) && m["Procedure"] == removedProcedures && m["MedicationStatement"] == removedStatements
  {
    NoCancellations["Procedure" := removedProcedures]["MedicationStatement" := removedStatements]
  }

  /**
   * `process_procedures` with a PostgreSQL destination.  A mapping error is
   * returned as the error the pass raises, and nothing is delivered.
   */
  method ProcessProcedures(ctx: Context, rows: seq<ProcedureRow>, t: Table, ts: int, now: int)
    returns (r: Result<Stats>, t': Table, ghost picks: seq<Option<nat>>)
    ensures r.Success? <==> RunOf(ctx, rows).Success?
    ensures r.Failure? ==> r.error == RunOf(ctx, rows).error && t' == t
    ensures r.Success? ==>
              var s := RunOf(ctx, rows).value;
              r.value.counts == s.counts && |picks| == 0 &&
              t' == Deliver(t, EntriesOf(s.added), Cancelled(s.removedProcedures, s.removedStatements), now, picks) &&
              (r.value.upsProd, r.value.rmProd) == UpsRmNum(ProcedureName, ts, t') &&
              (r.value.upsMed, r.value.rmMed) == UpsRmNum(MedicationName, ts, t') &&
              (r.value.upsMedStm, r.value.rmMedStm) == UpsRmNum(MedicationStatementName, ts, t')
  {
    var bundle := new FHIRBundle();
    var collected := CollectRows(ctx, rows, bundle);
    if collected.Failure? {
      return Failure(collected.error), t, [];
    }
    t', picks := bundle.Execute(t, now);
    var upsProd, rmProd := GetUpsRmNum(ProcedureName, ts, t');
    var upsMed, rmMed := GetUpsRmNum(MedicationName, ts, t');
    var upsMedStm, rmMedStm := GetUpsRmNum(MedicationStatementName, ts, t');
    r := Success(Stats(collected.value, upsProd, rmProd, upsMed, rmMed, upsMedStm, rmMedStm));
  }

  /** The loop of `process_procedures` over the rows, into an empty bundle; it stops at the first mapping error. */
  method CollectRows(ctx: Context, rows: seq<ProcedureRow>, bundle: FHIRBundle) returns (r: Result<Counts>)
    requires bundle.Valid() && bundle.entries == [] && bundle.canceled == NoCancellations
    modifies bundle
    ensures r.Success? <==> RunOf(ctx, rows).Success?
    ensures r.Failure? ==> r.error == RunOf(ctx, rows).error
    ensures bundle.Valid()
    ensures r.Success? ==>
              var s := RunOf(ctx, rows).value;
              r.value == s.counts && bundle.entries == EntriesOf(s.added) &&
              bundle.canceled == Cancelled(s.removedProcedures, s.removedStatements)
  {
    var counts := Counts(0, 0, 0, 0, 0, 0, 0);
    for i := 0 to |rows|
      invariant bundle.Valid()
      invariant RunOf(ctx, rows[..i]).Success?
      invariant var s := RunOf(ctx, rows[..i]).value;
                bundle.entries == EntriesOf(s.added) &&
                bundle.canceled == Cancelled(s.removedProcedures, s.removedStatements) && counts == s.counts
    {
      PrefixStep(ctx, rows, i);
      var next := ProcessRow(ctx, bundle, rows[i], counts, RunOf(ctx, rows[..i]).value);
      if next.Failure? {
        FailureSticks(ctx, rows, i + 1);
        return Failure(next.error);
      }
      counts := next.value;
    }
    assert rows[..|rows|] == rows;
    r := Success(counts);
  }

  /** One row of the loop: the update branch or the cancellation branch. */
  method ProcessRow(ctx: Context, bundle: FHIRBundle, row: ProcedureRow, before: Counts, ghost s: Run)
    returns (r: Result<Counts>)
    requires bundle.Valid() && before == s.counts
    requires bundle.entries == EntriesOf(s.added) && bundle.canceled == Cancelled(s.removedProcedures, s.removedStatements)
    modifies bundle
    ensures bundle.Valid()
    ensures var st := Step(ctx, s, row);
            r.Success? == st.Success? && (r.Failure? ==> r.error == st.error) &&
            (r.Success? ==>
               r.value == st.value.counts && bundle.entries == EntriesOf(st.value.added) &&
               bundle.canceled == Cancelled(st.value.removedProcedures, st.value.removedStatements))
  {
    if !Truthy(row.stdat) {
      r := UpsertRow(ctx, bundle, row.upsert, before, s);
    } else {
      CancelRow(ctx, bundle, row.cancel, s);
      r := Success(before.(rmReqProd := before.rmReqProd + 1));
    }
  }

  /** The update branch of one row: pseudonymize, `read` and `map`, then the three validations. */
  method UpsertRow(ctx: Context, bundle: FHIRBundle, u: ProcedureUpdate, before: Counts, ghost s: Run)
    returns (r: Result<Counts>)
    requires bundle.Valid() && bundle.entries == EntriesOf(s.added) && before == s.counts
    modifies bundle`entries
    ensures bundle.Valid() && bundle.canceled == old(bundle.canceled)
    ensures var m := MappedOf(ctx, u);
            r.Success? == m.Success? && (r.Failure? ==> r.error == m.error) &&
            (r.Success? ==>
               var s' := Counted(ctx, s, m.value);
               r.value == s'.counts && bundle.entries == EntriesOf(s'.added) &&
               s'.removedProcedures == s.removedProcedures && s'.removedStatements == s.removedStatements)
  {
    var patientPsn := ctx.psn.patient(u.patientId);
    var encounterPsn := ctx.psn.encounter(u.encounterId);
    var mapped := MapProcedure(ctx.sys, ctx.tables, encounterPsn, patientPsn, u.rec);
    if mapped.Failure? {
      return Failure(mapped.error);
    }
    CountedCounts(ctx, s, mapped.value);
    var counts := AddMapped(ctx, bundle, mapped.value, before, s);
    r := Success(counts);
  }

  /**
   * The three validations of one mapped procedure, each valid part added in
   * an `add_resources` call of its own; returns the counters after them.
   */
  method AddMapped(ctx: Context, bundle: FHIRBundle, m: Mapped, before: Counts, ghost s: Run) returns (counts: Counts)
    requires bundle.Valid() && bundle.entries == EntriesOf(s.added) && before == s.counts
    modifies bundle`entries
    ensures bundle.Valid() && bundle.canceled == old(bundle.canceled)
    ensures counts == Counted(ctx, s, m).counts && bundle.entries == EntriesOf(Counted(ctx, s, m).added)
  {
    counts := AddProcedure(ctx, bundle, m.procedure, before, s);
    ghost var s1 := CountProcedure(ctx, s, m.procedure);
    counts := AddMedication(ctx, bundle, m.medication, counts, s1);
    ghost var s2 := CountMedication(ctx, s1, m.medication);
    counts := AddStatement(ctx, bundle, m.statement, counts, s2);
  }

  /** `procedure.as_json()`, then `add_resources([procedure])` or the invalid count. */
  method AddProcedure(ctx: Context, bundle: FHIRBundle, p: Procedure, before: Counts, ghost s: Run) returns (counts: Counts)
    requires bundle.Valid() && bundle.entries == EntriesOf(s.added) && before == s.counts
    modifies bundle`entries
    ensures bundle.Valid() && bundle.canceled == old(bundle.canceled)
    ensures var s' := CountProcedure(ctx, s, p); counts == s'.counts && bundle.entries == EntriesOf(s'.added)
  {
    if ctx.validProcedure(p) {
      AddSingle(bundle, ProcedureResource(p), s.added);
      counts := before.(validProd := before.validProd + 1);
    } else {
      counts := before.(invalidProd := before.invalidProd + 1);
    }
  }

  /** `if medication:` `medication.as_json()`, then `add_resources([medication])` or the invalid count. */
  method AddMedication(ctx: Context, bundle: FHIRBundle, m: Option<Medication>, before: Counts, ghost s: Run)
    returns (counts: Counts)
    requires bundle.Valid() && bundle.entries == EntriesOf(s.added) && before == s.counts
    modifies bundle`entries
    ensures bundle.Valid() && bundle.canceled == old(bundle.canceled)
    ensures var s' := CountMedication(ctx, s, m); counts == s'.counts && bundle.entries == EntriesOf(s'.added)
  {
    counts := before;
    if m.Some? {
      if ctx.validMedication(m.value) {
        AddSingle(bundle, MedicationResource(m.value), s.added);
        counts := before.(validMed := before.validMed + 1);
      } else {
        counts := before.(invalidMed := before.invalidMed + 1);
      }
    }
  }

  /** `if medication_stm:` `medication_stm.as_json()`, then `add_resources([medication_stm])` or the invalid count. */
  method AddStatement(ctx: Context, bundle: FHIRBundle, m: Option<Statement>, before: Counts, ghost s: Run)
    returns (counts: Counts)
    requires bundle.Valid() && bundle.entries == EntriesOf(s.added) && before == s.counts
    modifies bundle`entries
    ensures bundle.Valid() && bundle.canceled == old(bundle.canceled)
    ensures var s' := CountStatement(ctx, s, m); counts == s'.counts && bundle.entries == EntriesOf(s'.added)
  {
    counts := before;
    if m.Some? {
      if ctx.validStatement(m.value) {
        AddSingle(bundle, StatementResource(m.value), s.added);
        counts := before.(validMedStm := before.validMedStm + 1);
      } else {
        counts := before.(invalidMedStm := before.invalidMedStm + 1);
      }
    }
  }

  /** The cancellation branch of one row. */
  method CancelRow(ctx: Context, bundle: FHIRBundle, d: ProcedureCancel, ghost s: Run)
    requires bundle.Valid() && bundle.canceled == Cancelled(s.removedProcedures, s.removedStatements)
    modifies bundle
    ensures bundle.Valid() && bundle.entries == old(bundle.entries)
    ensures var s' := CancelStep(ctx, s, d); bundle.canceled == Cancelled(s'.removedProcedures, s'.removedStatements)
  {
    var encounterPsn := ctx.psn.encounter(d.falnr);
    if Truthy(d.opsCode) && d.opsCode.value[0] == '6' {
      var medId := encounterPsn + "_" + d.lnric + "_med_stat";
      var _ := bundle.RmResources("MedicationStatement", medId);
    } else {
      var prodId := encounterPsn + "_" + d.lnric;
      var _ := bundle.RmResources("Procedure", prodId);
    }
  }

  lemma PrefixStep(ctx: Context, rows: seq<ProcedureRow>, i: int)
    requires 0 <= i < |rows|
    ensures RunOf(ctx, rows[..i + 1]) ==
            if RunOf(ctx, rows[..i]).Failure? then RunOf(ctx, rows[..i]) else Step(ctx, RunOf(ctx, rows[..i]).value, rows[i])
  {
    assert rows[..i + 1][..i] == rows[..i];
  }

  /** Once a prefix of the rows fails, the whole pass fails with the same error. */
  lemma {:induction false} FailureSticks(ctx: Context, rows: seq<ProcedureRow>, i: int)
    requires 0 <= i <= |rows| && RunOf(ctx, rows[..i]).Failure?
    ensures RunOf(ctx, rows) == RunOf(ctx, rows[..i])
    decreases |rows| - i
  {
    if i < |rows| {
      PrefixStep(ctx, rows, i);
      FailureSticks(ctx, rows, i + 1);
    } else {
      assert rows[..i] == rows;
    }
  }

  /** The pass completes exactly when every updated procedure carries a non-empty OPS code. */
  lemma {:induction false} RunSucceedsIffOpsCodes(ctx: Context, rows: seq<ProcedureRow>)
    ensures RunOf(ctx, rows).Success? <==> forall u :: u in Upserts(rows) ==> Truthy(u.rec.opsCode)
  {
    if rows != [] {
      var init, last := rows[..|rows| - 1], rows[|rows| - 1];
      RunSucceedsIffOpsCodes(ctx, init);
      assert Upserts(rows) == Upserts(init) + (if IsUpsert(last) then [last.upsert] else []);
      if IsUpsert(last) && !Truthy(last.upsert.rec.opsCode) {
        assert last.upsert in Upserts(rows);
      }
    }
  }

  /**
   * A cancellation of the same case and procedure number names the
   * MedicationStatement the mapper built when the code is a drug code, and the
   * Procedure otherwise, provided `lnric` is the decimal text of the
   * procedure number.  The Medication is never cancelled, and the Procedure of
   * a drug administration stays in place.
   */
  lemma CancelNamesMappedId(ctx: Context, u: ProcedureUpdate, d: ProcedureCancel)
    requires d.falnr == u.encounterId && d.lnric == IntToString(u.rec.procedureNr)
    ensures var encPsn := ctx.psn.encounter(u.encounterId);
            (IsDrugCancel(d) ==> CancelStatementId(ctx, d) == StatementId(encPsn, u.rec.procedureNr)) &&
            (!IsDrugCancel(d) ==> CancelProcedureId(ctx, d) == ProcedureId(encPsn, u.rec.procedureNr))
    ensures var encPsn := ctx.psn.encounter(u.encounterId);
            CancelStatementId(ctx, d) != MedicationId(encPsn, u.rec.procedureNr) &&
            CancelProcedureId(ctx, d) != MedicationId(encPsn, u.rec.procedureNr)
  {
    DrugIdsDistinct(ctx.psn.encounter(u.encounterId), u.rec.procedureNr);
  }
}
