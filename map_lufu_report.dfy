// MapperLuFuFall2Rep: one lung-function examination becomes a FHIR
// DiagnosticReport whose conclusion joins the assessment, remark and
// recommendation texts of the record.

module LufuReportMapper {
  import opened Common
  import opened Fhir
  import opened LufuRecord
  import Store

  /** The report mapper's `data` after `read`; `fields` are the record's columns in order. */
  datatype ReportData = ReportData(
    encPsn: string,
    patPsn: string,
    examId: string,                 // str(untersuchung_id)
    examDate: Option<string>,       // untersuchungsdatum
    examTime: Option<string>,       // untersuchungsuhrzeit
    assessment: Option<string>,     // beurteilung
    remark: Option<string>,         // anmerkung
    recommendation: Option<string>, // empfehlung
    fields: seq<Field>)

  datatype DiagnosticReport = DiagnosticReport(
    id: string,
    identifier: Identifier,
    effective: string,
    subject: string,
    encounter: string,
    code: Coding,
    status: string,
    conclusion: string)

  const OpsSystem := "https://www.dimdi.de/static/de/klassifikationen/ops"
  const ReportCoding := Coding(OpsSystem, "1-71", Some("Pneumologische Funktionsuntersuchunge"))

  const AssessmentLabel := "Beurteilung: "
  const RemarkLabel := "|\n Anmerkung: "
  const RecommendationLabel := " |\n Empfehlung: "

  /** A part of the conclusion: the label and the text, only for a text that is neither None nor "". */
  function Part(tag: string, text: Option<string>): string
  {
    if Truthy(text) then tag + text.value else ""
  }

  /** The conclusion of `map`: the three labelled parts in order. */
  function Conclusion(d: ReportData): (c: string)
    ensures Truthy(d.assessment) ==> StartsWith(c, AssessmentLabel + d.assessment.value)
    ensures !Truthy(d.assessment) && Truthy(d.remark) ==> StartsWith(c, RemarkLabel + d.remark.value)
    ensures Truthy(d.recommendation) ==> EndsWith(c, RecommendationLabel + d.recommendation.value)
    ensures |c| == |Part(AssessmentLabel, d.assessment)| + |Part(RemarkLabel, d.remark)| +
                   |Part(RecommendationLabel, d.recommendation)|
  {
    var c := Part(AssessmentLabel, d.assessment) + Part(RemarkLabel, d.remark) + Part(RecommendationLabel, d.recommendation);
    assert Truthy(d.assessment) ==> c[..|AssessmentLabel + d.assessment.value|] == AssessmentLabel + d.assessment.value;
    assert !Truthy(d.assessment) && Truthy(d.remark) ==>
             c[..|RemarkLabel + d.remark.value|] == RemarkLabel + d.remark.value;
    assert Truthy(d.recommendation) ==>
             c[|c| - |RecommendationLabel + d.recommendation.value|..] == RecommendationLabel + d.recommendation.value;
    c
  }

  /** The text the report id hashes: both pseudonyms, then every column, the source year included. */
  function ReportConcat(d: ReportData): string
  {
    d.encPsn + d.patPsn + Joined(d.fields, false)
  }

  /** `map`; joining date and time raises a `TypeError` when either is missing (parsing is not modelled). */
  function MapReport(sys: Systems, hash: string -> string, d: ReportData): (r: Result<DiagnosticReport>)
    ensures r.Success? <==> d.examDate.Some? && d.examTime.Some?
    ensures r.Success? ==>
              r.value.id == hash(ReportConcat(d)) &&
              r.value.identifier == Identifier(Some("official"), sys.lufuObsId, d.examId) &&
              r.value.effective == d.examDate.value + " " + d.examTime.value &&
              r.value.subject == Reference("Patient", d.patPsn) && r.value.encounter == Reference("Encounter", d.encPsn) &&
              r.value.code == ReportCoding && r.value.status == "final" && r.value.conclusion == Conclusion(d)
  {
    if d.examDate.None? || d.examTime.None? then Failure(TypeError("untersuchungsdatum"))
    else
      Success(DiagnosticReport(hash(ReportConcat(d)), Identifier(Some("official"), sys.lufuObsId, d.examId),
                               d.examDate.value + " " + d.examTime.value, Reference("Patient", d.patPsn),
                               Reference("Encounter", d.encPsn), ReportCoding, "final", Conclusion(d)))
  }

  function ReportResource(rep: DiagnosticReport): (r: Store.Resource)
    ensures r.resType == "DiagnosticReport" && r.id == rep.id
    ensures r.body.subjectRef == Some(rep.subject) && r.body.encounterRef == Some(rep.encounter)
  {
    Store.Resource("DiagnosticReport", rep.id,
      Store.Doc(Some(rep.subject), Some(rep.encounter), None, None, [], Some(rep.code.code), None, Some(rep.identifier.system)))
  }

  /** The conclusion is empty exactly when none of the three texts is given. */
  lemma ConclusionEmpty(d: ReportData)
    ensures Conclusion(d) == "" <==> !Truthy(d.assessment) && !Truthy(d.remark) && !Truthy(d.recommendation)
  {
  }

  /** With all three texts the conclusion reads assessment, remark, recommendation. */
  lemma ConclusionAllParts(d: ReportData, a: string, m: string, e: string)
    requires d.assessment == Some(a) && d.remark == Some(m) && d.recommendation == Some(e)
    requires a != "" && m != "" && e != ""
    ensures Conclusion(d) == "Beurteilung: " + a + "|\n Anmerkung: " + m + " |\n Empfehlung: " + e
  {
  }
}
