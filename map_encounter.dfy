// MapperDMEnc2Enc: a data-mart encounter record, its pseudonyms and the
// ranked Condition references of its diagnoses become the main FHIR
// Encounter.  The admission and discharge reasons are decoded through four
// code tables; `int()` of a malformed code slice raises, and the exception
// leaves the mapper.

module EncounterMapper {
  import opened Common
  import opened Fhir
  import Store

  /**
   * The four tables of `map_table[0]`, keyed by their integer `code` column.
   * A value is what pandas renders for the selected column; `missing` is its
   * rendering of an empty selection.
   */
  datatype DischargeRow = DischargeRow(display: string, dispositionCode: string, dispositionDisplay: string)

  datatype ReasonTables = ReasonTables(
    admission1: map<int, string>,
    admission2: map<int, string>,
    discharge1: map<int, DischargeRow>,
    discharge2: map<int, string>,
    missing: string)

  datatype EncounterRecord = EncounterRecord(
    admissionReason: Option<string>,  // admission_event_reason
    dischargeReason: Option<string>,  // discharge_event_reason
    admission: Option<int>,           // admission_timestamp
    discharge: Option<int>)           // discharge_timestamp

  /** `[condition reference, rank]` as the encounter pass builds it. */
  datatype RankedRef = RankedRef(reference: string, rank: int)

  datatype Diagnosis = Diagnosis(condition: string, rank: int, use: string)

  datatype Encounter = Encounter(
    id: string,
    identifier: Identifier,
    subject: string,
    status: string,
    period: Option<Period>,
    extensions: seq<Extension>,
    dischargeDisposition: Option<Coding>,
    diagnosis: Option<seq<Diagnosis>>,
    source: string)

  const DispositionSystem := "http://terminology.hl7.org/CodeSystem/discharge-disposition"

  /** Python's `s[i]` on a string: an `IndexError` past the end. */
  function CharAt(s: string, i: nat): (r: Result<string>)
    ensures r.Success? <==> i < |s|
    ensures i < |s| ==> r.value == [s[i]]
  {
    if i < |s| then Success([s[i]]) else Failure(IndexError(s))
  }

  /** Display text of two table entries: the first without its leading character, then " -", then the second. */
  function JoinDisplays(first: string, second: string): string
  {
    DropFirst(first) + " -" + second
  }

  /** `_admission_reason_lookup`: table 0 at `int(code[:2])`, table 1 at `int(code[2:4])`. */
  function AdmissionReasonLookup(tables: ReasonTables, code: string): (r: Result<seq<string>>)
    ensures r.Success? <==> |code| >= 3 && AllDigits(Slice(code, 0, 2)) && AllDigits(Slice(code, 2, 4))
    ensures r.Success? ==>
              (|r.value| == 1 && ParseInt(code[..2]).Success? &&
               r.value[0] == JoinDisplays(Lookup(tables.admission1, ParseInt(code[..2]).value, tables.missing),
                                          Lookup(tables.admission2, ParseInt(Slice(code, 2, 4)).value, tables.missing)))
  {
    var first := ParseInt(Slice(code, 0, 2));
    if first.Failure? then Failure(first.error)
    else
      var second := ParseInt(Slice(code, 2, 4));
      if second.Failure? then Failure(second.error)
      else
        Success([JoinDisplays(Lookup(tables.admission1, first.value, tables.missing),
                              Lookup(tables.admission2, second.value, tables.missing))])
  }

  /** `_discharge_reason_lookup`: table 2 at `int(code[:2])`, table 3 at `int(code[2])`. */
  function DischargeReasonLookup(tables: ReasonTables, code: string): (r: Result<seq<string>>)
    ensures r.Success? <==> |code| >= 3 && AllDigits(code[..2]) && IsDigit(code[2])
    ensures code != [] && AllDigits(Slice(code, 0, 2)) && |code| < 3 ==> r.Failure? && r.error.IndexError?
    ensures r.Success? ==>
              var row := Lookup(tables.discharge1, ParseInt(code[..2]).value, DischargeRow(tables.missing, tables.missing, tables.missing));
              r.value == [JoinDisplays(row.display, Lookup(tables.discharge2, ParseInt(code[2..3]).value, tables.missing)),
                          row.dispositionCode, row.dispositionDisplay]
  {
    var first := ParseInt(Slice(code, 0, 2));
    if first.Failure? then Failure(first.error)
    else
      var row := Lookup(tables.discharge1, first.value, DischargeRow(tables.missing, tables.missing, tables.missing));
      var third := CharAt(code, 2);
      if third.Failure? then Failure(third.error)
      else
        var second := ParseInt(third.value);
        if second.Failure? then Failure(second.error)
        else
          assert code[2..3] == third.value;
          Success([JoinDisplays(row.display, Lookup(tables.discharge2, second.value, tables.missing)),
                   row.dispositionCode, row.dispositionDisplay])
  }

  /** The diagnosis entry for one ranked reference. */
  function DiagnosisOf(ref: RankedRef): Diagnosis
  {
    Diagnosis(ref.reference, ref.rank, "billing")
  }

  /** Status and period of the main encounter. */
  function EncounterStatus(rec: EncounterRecord): (s: string)
    ensures s == "finished" <==> rec.discharge.Some?
    ensures s == "in-progress" <==> rec.discharge.None?
  {
    if rec.discharge.Some? then "finished" else "in-progress"
  }

  /** The main Encounter, or the exception a reason lookup raised. */
  function EncounterOf(sys: Systems, tables: ReasonTables, refs: seq<RankedRef>, patPsn: string, encPsn: string,
                       rec: EncounterRecord): (r: Result<Encounter>)
    ensures r.Success? <==>
              (Truthy(rec.admissionReason) ==> AdmissionReasonLookup(tables, rec.admissionReason.value).Success?) &&
              (Truthy(rec.dischargeReason) ==> DischargeReasonLookup(tables, rec.dischargeReason.value).Success?)
    ensures r.Success? ==> r.value.id == encPsn && r.value.identifier == Identifier(Some("usual"), sys.encounterId, encPsn)
    ensures r.Success? ==> r.value.subject == Reference("Patient", patPsn) && r.value.source == SapIsh
    ensures r.Success? ==> r.value.status == EncounterStatus(rec)
    ensures r.Success? ==>
              var reasons := ReasonsOf(sys, tables, rec);
              reasons.Success? && r.value.extensions == reasons.value.0 && r.value.dischargeDisposition == reasons.value.1
    ensures r.Success? ==> (r.value.period.Some? <==> rec.admission.Some?)
    ensures r.Success? && rec.admission.Some? ==> r.value.period == Some(Period(rec.admission, rec.discharge))
    ensures r.Success? ==>
              |r.value.extensions| == (if Truthy(rec.admissionReason) then 1 else 0) + (if Truthy(rec.dischargeReason) then 1 else 0)
    ensures r.Success? && Truthy(rec.admissionReason) ==>
              r.value.extensions[0] == Extension(sys.admissionReasonUrl,
                Coding(sys.admissionReason, rec.admissionReason.value, Some(AdmissionReasonLookup(tables, rec.admissionReason.value).value[0])))
    ensures r.Success? && Truthy(rec.dischargeReason) ==>
              var reason := DischargeReasonLookup(tables, rec.dischargeReason.value).value;
              r.value.extensions[|r.value.extensions| - 1] ==
                Extension(sys.dischargeReasonUrl, Coding(sys.dischargeReason, rec.dischargeReason.value, Some(reason[0]))) &&
              r.value.dischargeDisposition == Some(Coding(DispositionSystem, reason[1], Some(reason[2])))
    ensures r.Success? && !Truthy(rec.dischargeReason) ==> r.value.dischargeDisposition.None?
    ensures r.Success? ==> (r.value.diagnosis.None? <==> refs == [])
    ensures r.Success? && refs != [] ==>
              |r.value.diagnosis.value| == |refs| &&
              forall i :: 0 <= i < |refs| ==> r.value.diagnosis.value[i] == DiagnosisOf(refs[i])
  {
    var reasons := ReasonsOf(sys, tables, rec);
    if reasons.Failure? then Failure(reasons.error)
    else
      Success(Encounter(encPsn, Identifier(Some("usual"), sys.encounterId, encPsn), Reference("Patient", patPsn),
                        EncounterStatus(rec), if rec.admission.Some? then Some(Period(rec.admission, rec.discharge)) else None,
                        reasons.value.0, reasons.value.1, DiagnosisList(refs), SapIsh))
  }

  /**
   * The admission and discharge extensions, in that order, and the discharge
   * disposition, or the exception a reason lookup raised.
   */
  function ReasonsOf(sys: Systems, tables: ReasonTables, rec: EncounterRecord): (r: Result<(seq<Extension>, Option<Coding>)>)
    ensures r.Success? <==>
              (Truthy(rec.admissionReason) ==> AdmissionReasonLookup(tables, rec.admissionReason.value).Success?) &&
              (Truthy(rec.dischargeReason) ==> DischargeReasonLookup(tables, rec.dischargeReason.value).Success?)
    ensures r.Success? ==>
              |r.value.0| == (if Truthy(rec.admissionReason) then 1 else 0) + (if Truthy(rec.dischargeReason) then 1 else 0)
    ensures r.Success? && Truthy(rec.admissionReason) ==>
              r.value.0[0] == Extension(sys.admissionReasonUrl,
                Coding(sys.admissionReason, rec.admissionReason.value, Some(AdmissionReasonLookup(tables, rec.admissionReason.value).value[0])))
    ensures r.Success? && Truthy(rec.dischargeReason) ==>
              var reason := DischargeReasonLookup(tables, rec.dischargeReason.value).value;
              r.value.0[|r.value.0| - 1] ==
                Extension(sys.dischargeReasonUrl, Coding(sys.dischargeReason, rec.dischargeReason.value, Some(reason[0]))) &&
              r.value.1 == Some(Coding(DispositionSystem, reason[1], Some(reason[2])))
    ensures r.Success? && !Truthy(rec.dischargeReason) ==> r.value.1.None?
  {
    var admission := if Truthy(rec.admissionReason) then AdmissionReasonLookup(tables, rec.admissionReason.value) else Success([]);
    var discharge := if Truthy(rec.dischargeReason) then DischargeReasonLookup(tables, rec.dischargeReason.value) else Success([]);
    if admission.Failure? then Failure(admission.error)
    else if discharge.Failure? then Failure(discharge.error)
    else
      var admissionExt := if Truthy(rec.admissionReason) then
        [Extension(sys.admissionReasonUrl, Coding(sys.admissionReason, rec.admissionReason.value, Some(admission.value[0])))]
        else [];
      var dischargeExt := if Truthy(rec.dischargeReason) then
        [Extension(sys.dischargeReasonUrl, Coding(sys.dischargeReason, rec.dischargeReason.value, Some(discharge.value[0])))]
        else [];
      var disposition := if Truthy(rec.dischargeReason) then
        Some(Coding(DispositionSystem, discharge.value[1], Some(discharge.value[2]))) else None;
      Success((admissionExt + dischargeExt, disposition))
  }

  /** The `diagnosis` field: absent for no references, else one entry per ranked reference in order. */
  function DiagnosisList(refs: seq<RankedRef>): (d: Option<seq<Diagnosis>>)
    ensures d.None? <==> refs == []
    ensures d.Some? ==> |d.value| == |refs| && forall i :: 0 <= i < |refs| ==> d.value[i] == DiagnosisOf(refs[i])
  {
    if refs == [] then None else Some(seq(|refs|, i requires 0 <= i < |refs| => DiagnosisOf(refs[i])))
  }

  /** The loop over `ranked_cond_ref`. */
  method DiagnosisEntries(refs: seq<RankedRef>) returns (d: Option<seq<Diagnosis>>)
    ensures d == DiagnosisList(refs)
  {
    d := None;
    if refs != [] {
      var entries: seq<Diagnosis> := [];
      for i := 0 to |refs|
        invariant |entries| == i
        invariant forall j :: 0 <= j < i ==> entries[j] == DiagnosisOf(refs[j])
      {
        entries := entries + [DiagnosisOf(refs[i])];
      }
      assert entries == DiagnosisList(refs).value;
      d := Some(entries);
    }
  }

  /** `map`, proved to build the encounter `EncounterOf` describes. */
  method MapEncounter(sys: Systems, tables: ReasonTables, refs: seq<RankedRef>, patPsn: string, encPsn: string,
                      rec: EncounterRecord) returns (r: Result<Encounter>)
    ensures r == EncounterOf(sys, tables, refs, patPsn, encPsn, rec)
  {
    var period: Option<Period> := None;
    if rec.admission.Some? {
      period := Some(Period(rec.admission, rec.discharge));
    }
    var reasons := MapReasons(sys, tables, rec);
    if reasons.Failure? {
      return Failure(reasons.error);
    }
    var (extensions, disposition) := reasons.value;
    var diagnosis := DiagnosisEntries(refs);
    r := Success(Encounter(encPsn, Identifier(Some("usual"), sys.encounterId, encPsn), Reference("Patient", patPsn),
                           EncounterStatus(rec), period, extensions, disposition, diagnosis, SapIsh));
  }

  /** The two reason branches of `map`: each appends its extension, the discharge one also sets the disposition. */
  method MapReasons(sys: Systems, tables: ReasonTables, rec: EncounterRecord)
    returns (r: Result<(seq<Extension>, Option<Coding>)>)
    ensures r == ReasonsOf(sys, tables, rec)
  {
    var extensions: seq<Extension> := [];
    var disposition: Option<Coding> := None;
    if Truthy(rec.admissionReason) {
      var reason := AdmissionReasonLookup(tables, rec.admissionReason.value);
      if reason.Failure? {
        return Failure(reason.error);
      }
      extensions := extensions + [Extension(sys.admissionReasonUrl,
                                            Coding(sys.admissionReason, rec.admissionReason.value, Some(reason.value[0])))];
    }
    if Truthy(rec.dischargeReason) {
      var reason := DischargeReasonLookup(tables, rec.dischargeReason.value);
      if reason.Failure? {
        return Failure(reason.error);
      }
      extensions := extensions + [Extension(sys.dischargeReasonUrl,
                                            Coding(sys.dischargeReason, rec.dischargeReason.value, Some(reason.value[0])))];
      disposition := Some(Coding(DispositionSystem, reason.value[1], Some(reason.value[2])));
    }
    r := Success((extensions, disposition));
    assert ReasonsOf(sys, tables, rec).Success? && ReasonsOf(sys, tables, rec).value.0 == extensions;
  }

  /** The condition references of the diagnosis list, in order; [] when there is none. */
  function DiagnosisRefs(e: Encounter): (refs: seq<string>)
    ensures e.diagnosis.None? ==> refs == []
    ensures e.diagnosis.Some? ==>
              (|refs| == |e.diagnosis.value| && forall i :: 0 <= i < |refs| ==> refs[i] == e.diagnosis.value[i].condition)
  {
    if e.diagnosis.None? then [] else DiagnosisRefsOf(e.diagnosis.value)
  }

  function DiagnosisRefsOf(ds: seq<Diagnosis>): (refs: seq<string>)
    ensures |refs| == |ds| && forall i :: 0 <= i < |ds| ==> refs[i] == ds[i].condition
  {
    if ds == [] then [] else DiagnosisRefsOf(ds[..|ds| - 1]) + [ds[|ds| - 1].condition]
  }

  /** The stored-document view of the main encounter. */
  function EncounterResource(e: Encounter): (r: Store.Resource)
    ensures r.resType == "Encounter" && r.id == e.id
    ensures r.body.subjectRef == Some(e.subject) && r.body.diagnosisRefs == DiagnosisRefs(e)
    ensures r.body.partOfRef == None && r.body.source == Some(e.source)
  {
    Store.Resource("Encounter", e.id,
      Store.Doc(Some(e.subject), None, None, None, DiagnosisRefs(e), None, Some(e.source), Some(e.identifier.system)))
  }

  /** A two-digit admission code is rejected: `code[2:4]` is empty and `int("")` raises. */
  lemma ShortAdmissionCodeFails(tables: ReasonTables, code: string)
    requires |code| == 2
    ensures AdmissionReasonLookup(tables, code).Failure?
  {
  }

  /** A two-character discharge code of digits raises `IndexError` at `code[2]`. */
  lemma ShortDischargeCodeFails(tables: ReasonTables, code: string)
    requires |code| == 2 && IsDigit(code[0]) && IsDigit(code[1])
    ensures DischargeReasonLookup(tables, code) == Failure(IndexError(code))
  {
    assert Slice(code, 0, 2) == code;
  }
}
