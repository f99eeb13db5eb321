// MapperDMPat2Pat: one data-mart patient record and its pseudonym become a
// FHIR Patient.  `read` and `map` together are one function of the record.

module PatientMapper {
  import opened Common
  import opened Fhir
  import Store

  datatype PatientRecord = PatientRecord(
    insuranceId: Option<string>,   // patient_insurance_identifier
    sex: Option<string>,           // patient_sex
    deceasedFlag: Option<string>,  // patient_deceased_flag
    familyName: Option<string>,    // patient_lastname
    givenName: Option<string>)     // patient_firstname

  datatype HumanName = HumanName(use: string, family: Option<string>, given: seq<Option<string>>)

  datatype Patient = Patient(
    id: string,
    identifiers: seq<Identifier>,
    gender: string,
    deceased: bool,
    names: seq<HumanName>,
    source: string)

  const GkvSystem := "http://fhir.de/NamingSystem/gkv/kvid-10"

  /** `read`: the gender field is "" unless the sex column is truthy, then its lower-case form. */
  function GenderField(sex: Option<string>): (g: string)
    ensures g == "" <==> !Truthy(sex)
    ensures forall i :: 0 <= i < |g| ==> !('A' <= g[i] <= 'Z')
    ensures Truthy(sex) ==> |g| == |sex.value| && forall i :: 0 <= i < |g| ==> g[i] == sex.value[i] || 'A' <= sex.value[i] <= 'Z'
  {
    if Truthy(sex) then ToLower(sex.value) else ""
  }

  /** The administrative gender for the lower-cased field. */
  function GenderCode(g: string): (code: string)
    ensures code == "male" <==> g == "m"
    ensures code == "female" <==> g == "w"
    ensures code == "other" <==> g == "x"
    ensures code == "unknown" <==> g != "m" && g != "w" && g != "x"
  {
    if g == "m" then "male"
    else if g == "w" then "female"
    else if g == "x" then "other"
    else "unknown"
  }

  function MapPatient(sys: Systems, psn: string, rec: PatientRecord): (p: Patient)
    ensures p.id == psn && |p.identifiers| >= 1
    ensures p.identifiers[0] == Identifier(Some("official"), sys.patientId, psn)
    ensures |p.identifiers| == 2 <==> Truthy(rec.insuranceId)
    ensures |p.identifiers| == 1 <==> !Truthy(rec.insuranceId)
    ensures Truthy(rec.insuranceId) ==>
              p.identifiers[1] == Identifier(Some("official"), GkvSystem, rec.insuranceId.value)
    ensures p.gender == GenderCode(GenderField(rec.sex))
    ensures p.deceased <==> Truthy(rec.deceasedFlag)
    ensures p.names == [HumanName("official", rec.familyName, [rec.givenName])]
    ensures p.source == SapIsh
  {
    var official := Identifier(Some("official"), sys.patientId, psn);
    var ids := if Truthy(rec.insuranceId)
               then [official, Identifier(Some("official"), GkvSystem, rec.insuranceId.value)]
               else [official];
    Patient(psn, ids, GenderCode(GenderField(rec.sex)), Truthy(rec.deceasedFlag),
            [HumanName("official", rec.familyName, [rec.givenName])], SapIsh)
  }

  /** The stored-document view of a mapped patient. */
  function PatientResource(p: Patient): (r: Store.Resource)
    requires |p.identifiers| >= 1
    ensures r.resType == "Patient" && r.id == p.id
    ensures r.body.subjectRef == None && r.body.source == Some(p.source)
  {
    Store.Resource("Patient", p.id,
      Store.Doc(None, None, None, None, [], None, Some(p.source), Some(p.identifiers[0].system)))
  }

  /** The sex column is case-insensitive: "M" and "m" both give male, "W" and "w" female. */
  lemma GenderIgnoresCase(sex: string)
    requires sex in {"M", "m", "W", "w"}
    ensures sex == "M" || sex == "m" ==> GenderCode(GenderField(Some(sex))) == "male"
    ensures sex == "W" || sex == "w" ==> GenderCode(GenderField(Some(sex))) == "female"
  {
    assert ToLower(sex) == [LowerChar(sex[0])] by {
      assert ToLower(sex)[0] == LowerChar(sex[0]);
    }
  }

  /** Lower-casing the sex column beforehand changes nothing: the field depends on the letters only up to case. */
  lemma GenderFieldIgnoresCase(sex: string)
    ensures GenderField(Some(ToLower(sex))) == GenderField(Some(sex))
  {
    var l := ToLower(sex);
    assert ToLower(l) == l by {
      forall i | 0 <= i < |l|
        ensures ToLower(l)[i] == l[i]
      {
      }
    }
  }

  /** A missing or empty sex column gives "unknown". */
  lemma NoSexUnknown(sex: Option<string>)
    requires !Truthy(sex)
    ensures GenderCode(GenderField(sex)) == "unknown"
  {
  }

  /** Two patients mapped from two pseudonyms are keyed apart exactly when the pseudonyms differ. */
  lemma PatientKeyIsPseudonym(sys: Systems, a: string, b: string, ra: PatientRecord, rb: PatientRecord)
    ensures Store.KeyOf(PatientResource(MapPatient(sys, a, ra))) == Store.KeyOf(PatientResource(MapPatient(sys, b, rb)))
            <==> a == b
  {
  }
}
