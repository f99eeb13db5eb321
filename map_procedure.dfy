// MapperDMPro2ProMed: one OPS procedure record becomes a FHIR Procedure and,
// for drug-administration codes (chapter 6) listed in the OPS-to-drug table,
// a Medication and a MedicationStatement.  Table cells are what pandas
// renders for the selected column; the mapper strips their first character.

module ProcedureMapper {
  import opened Common
  import opened Fhir
  import Store

  datatype ProcedureRecord = ProcedureRecord(
    procedureNr: int,             // procedure_nr
    opsCode: Option<string>,      // ops_code
    opsVersion: string,           // ops_id
    laterality: Option<string>,   // procedure_laterality
    performed: Option<int>,       // procedure_begin_timestamp
    admission: Option<int>,       // the pass passes procedure_begin_timestamp
    discharge: Option<int>)       // the pass passes procedure_end_timestamp

  /** The rendered cells of the OPS-to-drug row for one OPS code. */
  datatype DrugRow = DrugRow(medication: string, atc: string, text: string, ucumShort: string, ucumFull: string,
                             dosageMin: string, dosageMax: string, combi: string)

  /** The rendered UNII, ASK and CAS cells of a substance row. */
  datatype SubstanceRow = SubstanceRow(unii: string, ask: string, cas: string)

  datatype DrugTables = DrugTables(
    drugs: map<string, DrugRow>,               // keyed by ops_code
    substances: map<string, SubstanceRow>,     // keyed by Substanzangabe_aus_OPS-Code
    missing: string)                           // rendering of an empty selection

  datatype Ingredient = Ingredient(codings: seq<Coding>)

  datatype Medication = Medication(id: string, identifier: Identifier, code: Coding, status: string,
                                   ingredients: seq<Ingredient>, source: string)

  /** Dose bounds keep the rendered text with ',' replaced by '.'; parsing it as a float is not modelled. */
  datatype Dosage = Dosage(text: string, low: Option<string>, high: Option<string>, unit: string, code: string)

  datatype Statement = Statement(id: string, identifier: Identifier, medication: string, context: string,
                                 subject: string, status: string, period: Option<Period>, dosage: Dosage,
                                 source: string)

  datatype Procedure = Procedure(id: string, identifier: Identifier, status: string, encounter: string,
                                 subject: string, code: Coding, performed: Option<int>,
                                 bodySite: Option<seq<Coding>>, source: string)

  /** `[procedure, medication, statement]`; an absent drug part is `[]` in the source. */
  datatype Mapped = Mapped(procedure: Procedure, medication: Option<Medication>, statement: Option<Statement>)

  const OpsSystem := "http://fhir.de/CodeSystem/dimdi/ops"
  const AtcSystem := "http://fhir.de/CodeSystem/dimdi/atc"
  const SnomedSystem := "http://snomed.info/sct"
  const Unclear := "UNKLAR"

  function ProcedureId(encPsn: string, nr: int): string
  {
    encPsn + "_" + IntToString(nr)
  }

  function MedicationId(encPsn: string, nr: int): string
  {
    ProcedureId(encPsn, nr) + "_med"
  }

  function StatementId(encPsn: string, nr: int): string
  {
    ProcedureId(encPsn, nr) + "_med_stat"
  }

  function Spaces(n: nat): (s: string)
    ensures |s| == n && forall i :: 0 <= i < n ==> s[i] == ' '
  {
    if n == 0 then "" else Spaces(n - 1) + " "
  }

  /** The SNOMED body-site codings; the displays keep the line break of the source's string literals. */
  function SideCoding(side: Side): Coding
  {
    match side
    case Left => Coding(SnomedSystem, "31156008", Some("Structure of left half\n" + Spaces(64) + "of body (body structure)"))
    case Right => Coding(SnomedSystem, "85421007", Some("Structure of right half\n" + Spaces(65) + "of body (body structure)"))
  }

  function BodySite(laterality: Option<string>): (sites: Option<seq<Coding>>)
    ensures sites.None? <==> !Truthy(laterality)
    ensures Truthy(laterality) ==>
              var loc := laterality.value;
              (loc == "L" ==> sites.value == [SideCoding(Left)]) &&
              (loc == "R" ==> sites.value == [SideCoding(Right)]) &&
              (loc == "B" ==> sites.value == [SideCoding(Left), SideCoding(Right)]) &&
              (loc != "L" && loc != "R" && loc != "B" ==> sites.value == [])
  {
    if !Truthy(laterality) then None
    else
      var sides := Sides(laterality.value);
      Some(seq(|sides|, i requires 0 <= i < |sides| => SideCoding(sides[i])))
  }

  /** The drug name split on '-' when the combination cell is non-empty, else the name alone. */
  function Substances(row: DrugRow): (subs: seq<string>)
    ensures row.combi == "" ==> subs == [DropFirst(row.medication)]
    ensures row.combi != "" ==> subs == Split(DropFirst(row.medication), '-')
    ensures |subs| >= 1
  {
    if row.combi != "" then Split(DropFirst(row.medication), '-') else [DropFirst(row.medication)]
  }

  function IngredientOf(tables: DrugTables, substance: string): Ingredient
  {
    var row := Lookup(tables.substances, substance, SubstanceRow(tables.missing, tables.missing, tables.missing));
    Ingredient([Coding("http://fdasis.nlm.nih.gov", DropFirst(row.unii), Some(substance)),
                Coding("http://fhir.de/CodeSystem/ask", DropFirst(row.ask), Some(substance)),
                Coding("urn:oid:2.16.840.1.113883.6.61", DropFirst(row.cas), Some(substance))])
  }

  /** The ingredient loop: none for the single substance "UNKLAR", else one per substance in order. */
  function IngredientsOf(tables: DrugTables, subs: seq<string>): seq<Ingredient>
  {
    if subs == [Unclear] then [] else seq(|subs|, i requires 0 <= i < |subs| => IngredientOf(tables, subs[i]))
  }

  method Ingredients(tables: DrugTables, subs: seq<string>) returns (ings: seq<Ingredient>)
    ensures ings == IngredientsOf(tables, subs)
    ensures subs == [Unclear] ==> ings == []
    ensures subs != [Unclear] ==>
              |ings| == |subs| && forall i :: 0 <= i < |subs| ==> ings[i] == IngredientOf(tables, subs[i])
  {
    ings := [];
    if subs != [Unclear] {
      for i := 0 to |subs|
        invariant |ings| == i && forall j :: 0 <= j < i ==> ings[j] == IngredientOf(tables, subs[j])
      {
        ings := ings + [IngredientOf(tables, subs[i])];
      }
    }
  }

  /** "completed" iff admission and discharge are both present, else "active". */
  function StatementStatus(rec: ProcedureRecord): (s: string)
    ensures s == "completed" <==> rec.admission.Some? && rec.discharge.Some?
    ensures s == "active" <==> !(rec.admission.Some? && rec.discharge.Some?)
  {
    if rec.admission.Some? && rec.discharge.Some? then "completed" else "active"
  }

  function DoseBound(cell: string): (b: Option<string>)
    ensures b.None? <==> DropFirst(cell) == "NaN"
  {
    if DropFirst(cell) == "NaN" then None else Some(ReplaceAll(DropFirst(cell), ",", "."))
  }

  /** `_map_dmpro2medi`: both parts only when the OPS code has a drug row. */
  function MedicationOf(sys: Systems, tables: DrugTables, encPsn: string, patPsn: string, rec: ProcedureRecord)
    : (r: (Option<Medication>, Option<Statement>))
    requires rec.opsCode.Some?
    ensures r.0.Some? <==> rec.opsCode.value in tables.drugs
    ensures r.1.Some? <==> rec.opsCode.value in tables.drugs
    ensures r.0.Some? ==>
              var row := tables.drugs[rec.opsCode.value];
              var subs := Substances(row);
              r.0.value.id == MedicationId(encPsn, rec.procedureNr) && r.0.value.identifier == Identifier(None, sys.medId, r.0.value.id) &&
              r.0.value.code == Coding(AtcSystem, DropFirst(row.atc), Some(DropFirst(row.medication))) &&
              r.0.value.status == "active" && r.0.value.source == SapIsh &&
              (subs == [Unclear] ==> r.0.value.ingredients == []) &&
              (subs != [Unclear] ==> (|r.0.value.ingredients| == |subs| &&
                 forall i :: 0 <= i < |subs| ==> r.0.value.ingredients[i] == IngredientOf(tables, subs[i])))
    ensures r.1.Some? ==>
              r.1.value.id == StatementId(encPsn, rec.procedureNr) && r.1.value.identifier == Identifier(None, sys.medStmId, r.1.value.id) &&
              r.1.value.medication == Reference("Medication", MedicationId(encPsn, rec.procedureNr)) &&
              r.1.value.context == Reference("Encounter", encPsn) && r.1.value.subject == Reference("Patient", patPsn) &&
              r.1.value.status == StatementStatus(rec) &&
              (r.1.value.period.Some? <==> rec.admission.Some?) &&
              (r.1.value.period.Some? ==> r.1.value.period.value == Period(rec.admission, if rec.admission.Some? then rec.discharge else None)) &&
              r.1.value.source == SapIsh
  {
    var ops := rec.opsCode.value;
    if ops !in tables.drugs then (None, None)
    else
      var row := tables.drugs[ops];
      var medId := MedicationId(encPsn, rec.procedureNr);
      var stmId := StatementId(encPsn, rec.procedureNr);
      var dosage := Dosage(DropFirst(row.text), DoseBound(row.dosageMin), DoseBound(row.dosageMax),
                           DropFirst(row.ucumFull), DropFirst(row.ucumShort));
      (Some(Medication(medId, Identifier(None, sys.medId, medId), Coding(AtcSystem, DropFirst(row.atc), Some(DropFirst(row.medication))),
                       "active", IngredientsOf(tables, Substances(row)), SapIsh)),
       Some(Statement(stmId, Identifier(None, sys.medStmId, stmId), Reference("Medication", medId),
                      Reference("Encounter", encPsn), Reference("Patient", patPsn), StatementStatus(rec),
                      if rec.admission.Some? then Some(Period(rec.admission, rec.discharge)) else None, dosage, SapIsh)))
  }

  /** `_map_dmpro2medi`, proved to build what `MedicationOf` describes. */
  method MapMedication(sys: Systems, tables: DrugTables, encPsn: string, patPsn: string, rec: ProcedureRecord)
    returns (med: Option<Medication>, stm: Option<Statement>)
    requires rec.opsCode.Some?
    ensures (med, stm) == MedicationOf(sys, tables, encPsn, patPsn, rec)
  {
    var ops := rec.opsCode.value;
    if ops !in tables.drugs {
      return None, None;
    }
    var row := tables.drugs[ops];
    var medId := MedicationId(encPsn, rec.procedureNr);
    var ings := Ingredients(tables, Substances(row));
    med := Some(Medication(medId, Identifier(None, sys.medId, medId), Coding(AtcSystem, DropFirst(row.atc), Some(DropFirst(row.medication))),
                           "active", ings, SapIsh));
    var stmId := StatementId(encPsn, rec.procedureNr);
    var period := if rec.admission.Some? then Some(Period(rec.admission, rec.discharge)) else None;
    var dosage := Dosage(DropFirst(row.text), DoseBound(row.dosageMin), DoseBound(row.dosageMax),
                         DropFirst(row.ucumFull), DropFirst(row.ucumShort));
    stm := Some(Statement(stmId, Identifier(None, sys.medStmId, stmId), Reference("Medication", medId),
                          Reference("Encounter", encPsn), Reference("Patient", patPsn), StatementStatus(rec),
                          period, dosage, SapIsh));
  }

  /** `ops_kode[0]`: a `TypeError` for a missing code, an `IndexError` for the empty one. */
  function FirstOpsChar(ops: Option<string>): (r: Result<char>)
    ensures r.Success? <==> ops.Some? && ops.value != ""
    ensures r.Success? ==> r.value == ops.value[0]
  {
    if ops.None? then Failure(TypeError("ops_code"))
    else if ops.value == "" then Failure(IndexError("ops_code"))
    else Success(ops.value[0])
  }

  /** `map`: the Procedure and, for a drug procedure with a mapping row, its Medication and MedicationStatement. */
  function ProcedureOf(sys: Systems, tables: DrugTables, encPsn: string, patPsn: string, rec: ProcedureRecord)
    : (r: Result<Mapped>)
    ensures r.Success? <==> rec.opsCode.Some? && rec.opsCode.value != ""
    ensures r.Success? ==>
              var p := r.value.procedure;
              p.id == ProcedureId(encPsn, rec.procedureNr) && p.identifier == Identifier(None, sys.prodId, p.id) &&
              p.status == "completed" && p.encounter == Reference("Encounter", encPsn) &&
              p.subject == Reference("Patient", patPsn) &&
              p.code == Coding(OpsSystem, rec.opsCode.value, None) && p.performed == rec.performed &&
              p.bodySite == BodySite(rec.laterality) && p.source == SapIsh
    ensures r.Success? ==>
              (r.value.medication.Some? <==> rec.opsCode.value[0] == '6' && rec.opsCode.value in tables.drugs) &&
              (r.value.statement.Some? <==> r.value.medication.Some?)
  {
    var first := FirstOpsChar(rec.opsCode);
    if first.Failure? then Failure(first.error)
    else
      var id := ProcedureId(encPsn, rec.procedureNr);
      var drug := if first.value == '6' then MedicationOf(sys, tables, encPsn, patPsn, rec) else (None, None);
      Success(Mapped(Procedure(id, Identifier(None, sys.prodId, id), "completed", Reference("Encounter", encPsn),
                               Reference("Patient", patPsn), Coding(OpsSystem, rec.opsCode.value, None), rec.performed,
                               BodySite(rec.laterality), SapIsh), drug.0, drug.1))
  }

  /** `map`, proved to build what `ProcedureOf` describes. */
  method MapProcedure(sys: Systems, tables: DrugTables, encPsn: string, patPsn: string, rec: ProcedureRecord)
    returns (r: Result<Mapped>)
    ensures r == ProcedureOf(sys, tables, encPsn, patPsn, rec)
  {
    var first := FirstOpsChar(rec.opsCode);
    if first.Failure? {
      return Failure(first.error);
    }
    var id := ProcedureId(encPsn, rec.procedureNr);
    var med: Option<Medication> := None;
    var stm: Option<Statement> := None;
    if first.value == '6' {
      med, stm := MapMedication(sys, tables, encPsn, patPsn, rec);
    }
    var procedure := Procedure(id, Identifier(None, sys.prodId, id), "completed", Reference("Encounter", encPsn),
                               Reference("Patient", patPsn), Coding(OpsSystem, rec.opsCode.value, None), rec.performed,
                               BodySite(rec.laterality), SapIsh);
    r := Success(Mapped(procedure, med, stm));
  }

  function ProcedureResource(p: Procedure): (r: Store.Resource)
    ensures r.resType == "Procedure" && r.id == p.id && r.body.subjectRef == Some(p.subject)
  {
    Store.Resource("Procedure", p.id,
      Store.Doc(Some(p.subject), Some(p.encounter), None, None, [], Some(p.code.code), Some(p.source), Some(p.identifier.system)))
  }

  function MedicationResource(m: Medication): (r: Store.Resource)
    ensures r.resType == "Medication" && r.id == m.id && r.body.subjectRef == None
  {
    Store.Resource("Medication", m.id,
      Store.Doc(None, None, None, None, [], Some(m.code.code), Some(m.source), Some(m.identifier.system)))
  }

  function StatementResource(s: Statement): (r: Store.Resource)
    ensures r.resType == "MedicationStatement" && r.id == s.id
    ensures r.body.subjectRef == Some(s.subject) && r.body.contextRef == Some(s.context)
  {
    Store.Resource("MedicationStatement", s.id,
      Store.Doc(Some(s.subject), None, Some(s.context), None, [], None, Some(s.source), Some(s.identifier.system)))
  }

  /** A combination product "a-b" of two names without '-' has exactly the substances a and b. */
  lemma {:induction false} CombinationSplits(row: DrugRow, a: string, b: string)
    requires row.combi != "" && DropFirst(row.medication) == a + "-" + b
    requires '-' !in a && '-' !in b
    ensures Substances(row) == [a, b]
  {
    SplitFirst(a, b, '-');
    SplitNoSeparator(b, '-');
  }

  /** The three ids built for one procedure number are pairwise different. */
  lemma DrugIdsDistinct(encPsn: string, nr: int)
    ensures ProcedureId(encPsn, nr) != MedicationId(encPsn, nr)
    ensures ProcedureId(encPsn, nr) != StatementId(encPsn, nr)
    ensures MedicationId(encPsn, nr) != StatementId(encPsn, nr)
  {
    assert |MedicationId(encPsn, nr)| != |StatementId(encPsn, nr)|;
  }
}
