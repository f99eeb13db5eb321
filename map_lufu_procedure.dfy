// MapperLuFuFall2Proc: one lung-function examination section becomes a FHIR
// Procedure coded with OPS 1-710 (body plethysmography) for section "B" and
// with the OPS group 1-71 otherwise.

module LufuProcedureMapper {
  import opened Common
  import opened Fhir
  import opened LufuRecord
  import OpsLookup
  import Store

  /** The procedure mapper's `data` after `read`. */
  datatype ProcedureData = ProcedureData(encPsn: string, patPsn: string, examDate: Option<string>, fields: seq<Field>)

  datatype Procedure = Procedure(
    id: string,
    identifier: Identifier,
    performed: string,
    subject: string,
    encounter: string,
    code: Coding,
    status: string)

  const OpsSystem := "https://www.dimdi.de/static/de/klassifikationen/ops"

  /** The OPS code of a section: "1-710" for "B", "1-71" for any other. */
  function OpsCode(section: string): (code: string)
    ensures code == "1-710" <==> section == "B"
    ensures code == "1-71" <==> section != "B"
  {
    if section == "B" then "1-710" else "1-71"
  }

  /** The text the procedure id hashes: both pseudonyms, then every column but the source year. */
  function ProcedureConcat(d: ProcedureData): string
  {
    d.encPsn + d.patPsn + Joined(d.fields, true)
  }

  /** `map`; parsing the date fails with a `TypeError` when it is missing (the format is not modelled). */
  function MapProcedure(sys: Systems, hash: string -> string, d: ProcedureData, section: string): (r: Result<Procedure>)
    ensures r.Success? <==> d.examDate.Some?
    ensures r.Success? ==>
              r.value.id == hash(section + ProcedureConcat(d)) &&
              r.value.identifier == Identifier(Some("official"), sys.prodId, r.value.id) &&
              r.value.performed == d.examDate.value &&
              r.value.subject == Reference("Patient", d.patPsn) && r.value.encounter == Reference("Encounter", d.encPsn) &&
              r.value.code == Coding(OpsSystem, OpsCode(section), Some(OpsLookup.CodeLookup(OpsCode(section)))) &&
              r.value.status == "completed"
  {
    var code := OpsCode(section);
    var id := hash(section + ProcedureConcat(d));
    if d.examDate.None? then Failure(TypeError("untersuchungsdatum"))
    else
      Success(Procedure(id, Identifier(Some("official"), sys.prodId, id), d.examDate.value,
                        Reference("Patient", d.patPsn), Reference("Encounter", d.encPsn),
                        Coding(OpsSystem, code, Some(OpsLookup.CodeLookup(code))), "completed"))
  }

  function LufuProcedureResource(p: Procedure): (r: Store.Resource)
    ensures r.resType == "Procedure" && r.id == p.id
    ensures r.body.subjectRef == Some(p.subject) && r.body.encounterRef == Some(p.encounter)
  {
    Store.Resource("Procedure", p.id,
      Store.Doc(Some(p.subject), Some(p.encounter), None, None, [], Some(p.code.code), None, Some(p.identifier.system)))
  }

  /** Both chosen codes are listed in the OPS table, so the display is never the "No Text" default. */
  lemma DisplayAlwaysListed(section: string)
    ensures OpsCode(section) in OpsLookup.CodeTable
    ensures OpsLookup.CodeLookup(OpsCode(section)) != OpsLookup.NoText
    ensures section == "B" ==> OpsLookup.CodeLookup(OpsCode(section)) == "Ganzkörperplethysmographie"
    ensures section != "B" ==> OpsLookup.CodeLookup(OpsCode(section)) == "Pneumologische Funktionsuntersuchungen"
  {
    OpsLookup.ProcedureTexts();
  }

  /** The procedure id does not depend on the source-year column. */
  lemma IdIgnoresYear(sys: Systems, hash: string -> string, a: ProcedureData, b: ProcedureData, section: string)
    requires a.encPsn == b.encPsn && a.patPsn == b.patPsn && a.examDate == b.examDate && a.examDate.Some?
    requires |a.fields| == |b.fields|
    requires forall i :: 0 <= i < |a.fields| ==> a.fields[i].column == b.fields[i].column
    requires forall i :: 0 <= i < |a.fields| ==> a.fields[i].column != SourceYear ==> a.fields[i].rendered == b.fields[i].rendered
    ensures MapProcedure(sys, hash, a, section).value.id == MapProcedure(sys, hash, b, section).value.id
  {
    YearIgnored(a.fields, b.fields);
  }
}
