// MapperDMDiag2Cond: one diagnosis record of an encounter becomes a FHIR
// Condition with an ICD-10-GM coding, returned together with its rank.

module ConditionMapper {
  import opened Common
  import opened Fhir
  import Store

  datatype DiagnosisRecord = DiagnosisRecord(
    diagnosisNr: int,               // diagnosis_nr
    documented: Option<int>,        // diagnosis_documentation_timestamp
    icdCode: string,                // icd_code
    secCode: Option<string>,        // supplementary_icd_code
    icdVersion: string,             // icd_id
    laterality: Option<string>,     // diagnosis_laterality
    principalFlag: Option<int>)     // principal_diagnosis_flag

  datatype Condition = Condition(
    id: string,
    identifier: Identifier,
    code: string,
    codeExtensions: seq<Extension>,
    encounter: string,
    subject: string,
    recorded: Option<int>,
    bodySite: Option<seq<Coding>>,
    source: string)

  const IcdSystem := "http://fhir.de/CodeSystem/dimdi/icd-10-gm"
  const MainCrossUrl := "http://fhir.de/StructureDefinition/icd-10-gm-haupt-kreuz"
  const ExclamationUrl := "http://fhir.de/StructureDefinition/icd-10-gm-ausrufezeichen"
  const StarUrl := "http://fhir.de/StructureDefinition/icd-10-gm-stern"
  const SideSystem := "http://fhir.de/CodeSystem/kbv/s_icd_seitenlokalisation"

  /** The character class stripped from the main code: '+', and the bytes of a mis-decoded dagger. */
  const CrossChars: set<char> := {'+', '\U{00E2}', '\U{20AC}', '\U{00A0}'}

  /** The Condition id, also the id a diagnosis cancellation requests. */
  function ConditionId(encPsn: string, diagnosisNr: int): string
  {
    encPsn + "_" + IntToString(diagnosisNr)
  }

  /** The ICD code with the supplementary code appended after a blank when that is truthy. */
  function FullCode(rec: DiagnosisRecord): string
  {
    if Truthy(rec.secCode) then rec.icdCode + " " + rec.secCode.value else rec.icdCode
  }

  /**
   * The ICD code reads back as the first blank-separated word of the full code, and the
   * supplementary code, when truthy, as the words after it.
   */
  lemma FullCodeSplits(rec: DiagnosisRecord)
    requires ' ' !in rec.icdCode
    ensures Split(FullCode(rec), ' ') == [rec.icdCode] + (if Truthy(rec.secCode) then Split(rec.secCode.value, ' ') else [])
  {
    if Truthy(rec.secCode) {
      SplitFirst(rec.icdCode, rec.secCode.value, ' ');
      assert FullCode(rec) == rec.icdCode + [' '] + rec.secCode.value;
    } else {
      SplitNoSeparator(rec.icdCode, ' ');
    }
  }

  /** The coding extensions: main-cross, then '!' and '*' markers, each only with a supplementary code. */
  function CodeExtensions(rec: DiagnosisRecord): (exts: seq<Extension>)
    ensures !Truthy(rec.secCode) ==> exts == []
    ensures Truthy(rec.secCode) ==>
              var sec := rec.secCode.value;
              |exts| == 1 + (if '!' in sec then 1 else 0) + (if '*' in sec then 1 else 0) &&
              exts[0] == Extension(MainCrossUrl, Coding(IcdSystem, RemoveChars(rec.icdCode, CrossChars), None)) &&
              ('!' in sec ==> exts[1] == Extension(ExclamationUrl, Coding(IcdSystem, RemoveChars(sec, {'!'}), None))) &&
              ('*' in sec ==> exts[|exts| - 1] == Extension(StarUrl, Coding(IcdSystem, RemoveChars(sec, {'*'}), None)))
  {
    if !Truthy(rec.secCode) then []
    else
      var sec := rec.secCode.value;
      [Extension(MainCrossUrl, Coding(IcdSystem, RemoveChars(rec.icdCode, CrossChars), None))]
      + (if '!' in sec then [Extension(ExclamationUrl, Coding(IcdSystem, RemoveChars(sec, {'!'}), None))] else [])
      + (if '*' in sec then [Extension(StarUrl, Coding(IcdSystem, RemoveChars(sec, {'*'}), None))] else [])
  }

  function SideCoding(side: Side): Coding
  {
    match side
    case Left => Coding(SideSystem, "L", Some("links"))
    case Right => Coding(SideSystem, "R", Some("rechts"))
  }

  /** Body sites: none for a falsy laterality, otherwise left and/or right as the code says. */
  function BodySite(laterality: Option<string>): (sites: Option<seq<Coding>>)
    ensures sites.None? <==> !Truthy(laterality)
    ensures Truthy(laterality) ==>
              var loc := laterality.value;
              (loc == "L" ==> sites.value == [SideCoding(Left)]) &&
              (loc == "R" ==> sites.value == [SideCoding(Right)]) &&
              (loc == "B" ==> sites.value == [SideCoding(Left), SideCoding(Right)]) &&
              (loc != "L" && loc != "R" && loc != "B" ==> sites.value == [])
  {
    if !Truthy(laterality) then None
    else
      var sides := Sides(laterality.value);
      Some(seq(|sides|, i requires 0 <= i < |sides| => SideCoding(sides[i])))
  }

  /** Rank 1 for the principal diagnosis (flag equal to 1), 2 for any other. */
  function Rank(flag: Option<int>): (rank: int)
    ensures rank == 1 <==> flag == Some(1)
    ensures rank == 2 <==> flag != Some(1)
  {
    if flag == Some(1) then 1 else 2
  }

  /** `map`: `[condition, rank]`. */
  function MapCondition(sys: Systems, encPsn: string, patPsn: string, rec: DiagnosisRecord): (r: (Condition, int))
    ensures r.0.id == ConditionId(encPsn, rec.diagnosisNr) && r.0.identifier == Identifier(None, sys.conditionId, r.0.id)
    ensures r.0.code == FullCode(rec) && r.0.codeExtensions == CodeExtensions(rec)
    ensures r.0.encounter == Reference("Encounter", encPsn) && r.0.subject == Reference("Patient", patPsn)
    ensures r.0.recorded == rec.documented && r.0.bodySite == BodySite(rec.laterality)
    ensures r.0.source == SapIsh
    ensures r.1 == Rank(rec.principalFlag)
  {
    var id := ConditionId(encPsn, rec.diagnosisNr);
    (Condition(id, Identifier(None, sys.conditionId, id), FullCode(rec), CodeExtensions(rec),
               Reference("Encounter", encPsn), Reference("Patient", patPsn), rec.documented,
               BodySite(rec.laterality), SapIsh),
     Rank(rec.principalFlag))
  }

  /** The stored-document view of a mapped condition. */
  function ConditionResource(c: Condition): (r: Store.Resource)
    ensures r.resType == "Condition" && r.id == c.id
    ensures r.body.subjectRef == Some(c.subject) && r.body.encounterRef == Some(c.encounter)
    ensures r.body.code == Some(c.code) && r.body.source == Some(c.source)
  {
    Store.Resource("Condition", c.id,
      Store.Doc(Some(c.subject), Some(c.encounter), None, None, [], Some(c.code), Some(c.source), Some(c.identifier.system)))
  }

  /**
   * The main-cross code carries none of the stripped characters and keeps every other one; a code
   * without them is kept verbatim, and a cross mark between two clean parts is cut out in place.
   */
  lemma MainCrossCode(rec: DiagnosisRecord, head: string, tail: string)
    requires Truthy(rec.secCode)
    ensures forall c :: c in CodeExtensions(rec)[0].value.code <==> c in rec.icdCode && c !in CrossChars
    ensures (forall i :: 0 <= i < |rec.icdCode| ==> rec.icdCode[i] !in CrossChars) ==>
              CodeExtensions(rec)[0].value.code == rec.icdCode
    ensures (forall i :: 0 <= i < |head| ==> head[i] !in CrossChars) &&
            (forall i :: 0 <= i < |tail| ==> tail[i] !in CrossChars) &&
            rec.icdCode == head + "+" + tail ==>
              CodeExtensions(rec)[0].value.code == head + tail
  {
    var code := CodeExtensions(rec)[0].value.code;
    assert code == RemoveChars(rec.icdCode, CrossChars);
    RemoveCharsMembers(rec.icdCode, CrossChars);
    if forall i :: 0 <= i < |rec.icdCode| ==> rec.icdCode[i] !in CrossChars {
      RemoveCharsClean(rec.icdCode, CrossChars);
    }
    if rec.icdCode == head + "+" + tail {
      if (forall i :: 0 <= i < |head| ==> head[i] !in CrossChars) &&
         (forall i :: 0 <= i < |tail| ==> tail[i] !in CrossChars) {
        RemoveCharsBetween(head, '+', tail, CrossChars);
      }
    }
  }

  /** Conditions of one encounter with different diagnosis numbers get different ids. */
  lemma {:induction false} ConditionIdsDistinct(encPsn: string, a: int, b: int)
    requires a != b
    ensures ConditionId(encPsn, a) != ConditionId(encPsn, b)
  {
    IntToStringInjective(a, b);
    var p := encPsn + "_";
    assert ConditionId(encPsn, a)[|p|..] == IntToString(a);
    assert ConditionId(encPsn, b)[|p|..] == IntToString(b);
  }

  lemma {:induction false} IntToStringInjective(a: int, b: int)
    requires a != b
    ensures IntToString(a) != IntToString(b)
  {
    if a < 0 && b < 0 {
      NatToStringInjective(-a, -b);
      assert IntToString(a)[1..] == NatToString(-a);
      assert IntToString(b)[1..] == NatToString(-b);
    } else if a >= 0 && b >= 0 {
      NatToStringInjective(a, b);
    } else if a < 0 {
      assert IntToString(a)[0] == '-' && !IsDigit('-') && IsDigit(IntToString(b)[0]);
    } else {
      assert IntToString(b)[0] == '-' && !IsDigit('-') && IsDigit(IntToString(a)[0]);
    }
  }

  lemma {:induction false} NatToStringInjective(a: nat, b: nat)
    requires a != b
    ensures NatToString(a) != NatToString(b)
  {
    DigitsOfNatToString(a);
    DigitsOfNatToString(b);
  }
}
