// FHIR building blocks shared by the mappers: the configured identifier
// systems, identifiers, codings, periods and references.  A mapped resource
// keeps only the fields that the mapping rules decide; `Resource` values for
// the bundle are projections of these records.

module Fhir {
  import opened Common

  /** The `systems` dictionary of the configuration: identifier systems and extension URLs. */
  datatype Systems = Systems(
    patientId: string,
    encounterId: string,
    conditionId: string,
    subencounterId: string,
    p21obsId: string,
    prodId: string,
    medId: string,
    medStmId: string,
    labId: string,
    lufuObsId: string,
    admissionReason: string,
    admissionReasonUrl: string,
    dischargeReason: string,
    dischargeReasonUrl: string)

  datatype Identifier = Identifier(use: Option<string>, system: string, value: string)

  datatype Coding = Coding(system: string, code: string, display: Option<string>)

  datatype Extension = Extension(url: string, value: Coding)

  /** A period; timestamps are instants, absent for a missing (NaT) value. */
  datatype Period = Period(start: Option<int>, end: Option<int>)

  /** `meta.source` of every resource built from the SAP-ISH data mart. */
  const SapIsh := "#sap-ish"

  /** A FHIR reference string `"<type>/<id>"`. */
  function Reference(resType: string, id: string): string
  {
    resType + "/" + id
  }

  /** A reference determines the id it points to. */
  lemma ReferenceInjective(resType: string, a: string, b: string)
    requires Reference(resType, a) == Reference(resType, b)
    ensures a == b
  {
    assert a == Reference(resType, a)[|resType| + 1..];
  }

  /** Laterality codes a body-site list is built from: 'L' -> left, 'R' -> right, 'B' -> both. */
  datatype Side = Left | Right

  function Sides(loc: string): (sides: seq<Side>)
    ensures Left in sides <==> loc == "L" || loc == "B"
    ensures Right in sides <==> loc == "R" || loc == "B"
    ensures |sides| <= 2 && (|sides| == 2 ==> sides == [Left, Right])
  {
    (if loc == "L" || loc == "B" then [Left] else []) + (if loc == "R" || loc == "B" then [Right] else [])
  }
}
