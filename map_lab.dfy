// MapperDMLab2Obs: one laboratory result becomes a FHIR Observation.  The
// mapper keeps the record it read in `data` and `map` rewrites the unit, the
// LOINC code, the numeric value and the comparator there before it builds the
// Observation from the rewritten record.  The LOINC conversion service is an
// external function; an HTTP failure of it is not modelled.

module LabMapper {
  import opened Common
  import opened Fhir
  import Store

  datatype LabRecord = LabRecord(
    loincCode: Option<string>,   // loinc_code
    valueNum: Option<real>,      // result_value_num; None for NaN
    valueText: Option<string>,   // result_value
    comparator: Option<string>,  // result_value_comparator
    unit: Option<string>,        // result_unit
    refLow: Option<real>,        // result_reference_low
    refHigh: Option<real>,       // result_reference_high
    methodName: string,              // str(method_id)
    intFlag: Option<string>,     // result_interpretation_flag
    collected: Option<int>,      // collection_timestamp
    resultId: int)               // result_id

  /** The mapper's `data` dictionary after `read`. */
  datatype LabData = LabData(encPsn: string, patPsn: string, rec: LabRecord)

  /** The first element of the conversion service's answer; `value` None stands for a falsy value. */
  datatype ConvEntry = ConvEntry(hasError: bool, loinc: Option<string>, value: Option<real>, unit: Option<string>)

  /** The service's reply to `[{loinc, unit, value}]`: None when the JSON is not a list. */
  type Converter = (string, string, real) -> Option<seq<ConvEntry>>

  datatype LabValue =
    | NoValue
    | QuantityValue(value: real, unit: Option<string>, comparator: Option<string>)
    | StringValue(text: string)

  datatype ReferenceRange = ReferenceRange(low: real, high: real, unit: Option<string>)

  datatype Observation = Observation(
    id: string,
    identifier: Identifier,
    encounter: string,
    subject: string,
    status: string,
    effective: Option<int>,
    value: LabValue,
    code: Option<string>,
    referenceRange: Option<ReferenceRange>,
    methodName: string,
    interpretation: Option<Coding>,
    source: string)

  const LabSource := "#laboratory"
  const InterpretationSystem := "http://terminology.hl7.org/CodeSystem/v3-ObservationInterpretation"
  const MicroGramPerLitre := "\U{00B5}g/l"

  /** The units the data mart writes that are replaced by their UCUM spelling. */
  const LegacyUnits: set<string> := {"10E12/L", "10E9/L", "mE/l", "ug/l", MicroGramPerLitre}

  /** The fixed unit rewriting; any other unit is kept. */
  function NormalizeUnit(u: string): (v: string)
    ensures u == "10E12/L" ==> v == "10*6/uL"
    ensures u == "10E9/L" ==> v == "10*3/uL"
    ensures u == "mE/l" ==> v == "m[IU]/L"
    ensures u == "ug/l" || u == MicroGramPerLitre ==> v == "ng/mL"
    ensures u !in LegacyUnits ==> v == u
  {
    if u == "10E12/L" then "10*6/uL"
    else if u == "10E9/L" then "10*3/uL"
    else if u == "mE/l" then "m[IU]/L"
    else if u == "ug/l" || u == MicroGramPerLitre then "ng/mL"
    else u
  }

  /** A numeric value with a real LOINC code and a unit: the condition for rewriting the unit. */
  predicate Convertible(d: LabRecord)
  {
    d.valueNum.Some? && Truthy(d.loincCode) && d.loincCode.value != "noLoinc" && Truthy(d.unit)
  }

  /** The service's answer is used when it is a non-empty list whose first entry has no error and all three fields set. */
  predicate Accepted(result: Option<seq<ConvEntry>>)
  {
    result.Some? && result.value != [] && !result.value[0].hasError &&
    Truthy(result.value[0].loinc) && result.value[0].value.Some? && result.value[0].value.value != 0.0 &&
    Truthy(result.value[0].unit)
  }

  /** The comparators that mean plain equality are dropped. */
  predicate EqualityComparator(c: Option<string>)
  {
    c == Some("!=") || c == Some("=") || c == Some("==")
  }

  /** The unit rewriting step of `map`. */
  function NormalizeStep(d: LabRecord): (e: LabRecord)
    ensures Convertible(d) ==> e == d.(unit := Some(NormalizeUnit(d.unit.value)))
    ensures !Convertible(d) ==> e == d
    ensures Convertible(e) <==> Convertible(d)
  {
    if Convertible(d) then d.(unit := Some(NormalizeUnit(d.unit.value))) else d
  }

  /** The conversion step: an accepted answer replaces code, value and unit, with quotes doubled in the unit. */
  function ConvertStep(converter: Option<Converter>, d: LabRecord): (e: LabRecord)
    ensures (converter.Some? && Convertible(d) &&
             Accepted(converter.value(d.loincCode.value, d.unit.value, d.valueNum.value))) ==>
              var entry := converter.value(d.loincCode.value, d.unit.value, d.valueNum.value).value[0];
              e == d.(loincCode := entry.loinc, valueNum := entry.value, unit := Some(ReplaceAll(entry.unit.value, "'", "''")))
    ensures (!(converter.Some? && Convertible(d) &&
               Accepted(converter.value(d.loincCode.value, d.unit.value, d.valueNum.value)))) ==> e == d
    ensures e.valueNum.Some? <==> d.valueNum.Some?
  {
    if converter.Some? && Convertible(d) then
      var result := converter.value(d.loincCode.value, d.unit.value, d.valueNum.value);
      if Accepted(result) then
        var entry := result.value[0];
        d.(loincCode := entry.loinc, valueNum := entry.value, unit := Some(ReplaceAll(entry.unit.value, "'", "''")))
      else d
    else d
  }

  /** The comparator step, applied only to numeric results. */
  function ComparatorStep(d: LabRecord): (e: LabRecord)
    ensures d.valueNum.Some? && EqualityComparator(d.comparator) ==> e == d.(comparator := None)
    ensures !(d.valueNum.Some? && EqualityComparator(d.comparator)) ==> e == d
  {
    if d.valueNum.Some? && EqualityComparator(d.comparator) then d.(comparator := None) else d
  }

  /** The record as `map` leaves it in `data`. */
  function Prepared(converter: Option<Converter>, d: LabRecord): (e: LabRecord)
    ensures d.valueNum.None? ==> e == d
    ensures e.valueNum.Some? <==> d.valueNum.Some?
    ensures e.valueText == d.valueText && e.refLow == d.refLow && e.refHigh == d.refHigh
    ensures e.methodName == d.methodName && e.intFlag == d.intFlag && e.collected == d.collected && e.resultId == d.resultId
    ensures e.valueNum.Some? ==> !EqualityComparator(e.comparator)
  {
    ComparatorStep(ConvertStep(converter, NormalizeStep(d)))
  }

  /** The interpretation coding: none for a falsy flag, else N, L, H spelled out and anything else "Unknown". */
  function Interpretation(flag: Option<string>): (c: Option<Coding>)
    ensures c.None? <==> !Truthy(flag)
    ensures c.Some? ==> c.value.system == InterpretationSystem && c.value.code == flag.value
    ensures c.Some? ==> (c.value.display == Some("Normal") <==> flag.value == "N")
    ensures c.Some? ==> (c.value.display == Some("Low") <==> flag.value == "L")
    ensures c.Some? ==> (c.value.display == Some("High") <==> flag.value == "H")
    ensures c.Some? ==> (c.value.display == Some("Unknown") <==> flag.value !in {"N", "L", "H"})
  {
    if !Truthy(flag) then None
    else
      var long := if flag.value == "N" then "Normal"
                  else if flag.value == "L" then "Low"
                  else if flag.value == "H" then "High"
                  else "Unknown";
      Some(Coding(InterpretationSystem, flag.value, Some(long)))
  }

  /** The value: a quantity for a numeric result, else the text when it is truthy, else none. */
  function ValueOf(d: LabRecord): (v: LabValue)
    ensures v.QuantityValue? <==> d.valueNum.Some?
    ensures v.QuantityValue? ==> v == QuantityValue(d.valueNum.value, d.unit, d.comparator)
    ensures v.StringValue? <==> d.valueNum.None? && Truthy(d.valueText)
    ensures v.StringValue? ==> v.text == d.valueText.value
  {
    if d.valueNum.Some? then QuantityValue(d.valueNum.value, d.unit, d.comparator)
    else if Truthy(d.valueText) then StringValue(d.valueText.value)
    else NoValue
  }

  /** The reference range, present only when both bounds are. */
  function RangeOf(d: LabRecord): (r: Option<ReferenceRange>)
    ensures r.Some? <==> d.refLow.Some? && d.refHigh.Some?
    ensures r.Some? ==> r.value == ReferenceRange(d.refLow.value, d.refHigh.value, d.unit)
  {
    if d.refLow.Some? && d.refHigh.Some? then Some(ReferenceRange(d.refLow.value, d.refHigh.value, d.unit)) else None
  }

  /** The Observation built from a prepared record. */
  function ObservationOf(sys: Systems, data: LabData): (o: Observation)
    ensures o.id == IntToString(data.rec.resultId) && o.identifier == Identifier(None, sys.labId, o.id)
    ensures o.encounter == Reference("Encounter", data.encPsn) && o.subject == Reference("Patient", data.patPsn)
    ensures o.status == "final" && o.effective == data.rec.collected && o.source == LabSource
    ensures o.value == ValueOf(data.rec) && o.code == data.rec.loincCode && o.referenceRange == RangeOf(data.rec)
    ensures o.methodName == data.rec.methodName && o.interpretation == Interpretation(data.rec.intFlag)
  {
    var id := IntToString(data.rec.resultId);
    Observation(id, Identifier(None, sys.labId, id), Reference("Encounter", data.encPsn), Reference("Patient", data.patPsn),
                "final", data.rec.collected, ValueOf(data.rec), data.rec.loincCode, RangeOf(data.rec), data.rec.methodName,
                Interpretation(data.rec.intFlag), LabSource)
  }

  class LabMapper {
    const systems: Systems
    /** The conversion service; None when no service URL is configured. */
    const converter: Option<Converter>
    /** The record read last; None before the first `read`. */
    var data: Option<LabData>

    constructor (systems: Systems, converter: Option<Converter>)
      ensures this.systems == systems && this.converter == converter && data.None?
    {
      this.systems := systems;
      this.converter := converter;
      data := None;
    }

    method Read(encPsn: string, patPsn: string, rec: LabRecord)
      modifies this
      ensures data == Some(LabData(encPsn, patPsn, rec))
    {
      data := Some(LabData(encPsn, patPsn, rec));
    }

    /**
     * `map`: rewrites the stored record step by step and builds the
     * Observation from it.  Before any `read` the lookup of a key raises.
     */
    method Map() returns (r: Result<Observation>)
      modifies this
      ensures old(data).None? ==> r.Failure? && r.error.KeyError? && data == old(data)
      ensures old(data).Some? ==>
                data == Some(old(data).value.(rec := Prepared(converter, old(data).value.rec))) &&
                r == Success(ObservationOf(systems, data.value))
    {
      if data.None? {
        return Failure(KeyError("result_id"));
      }
      var d := data.value.rec;
      if d.valueNum.Some? {
        if Truthy(d.loincCode) && d.loincCode.value != "noLoinc" && Truthy(d.unit) {
          d := d.(unit := Some(NormalizeUnit(d.unit.value)));
          if converter.Some? {
            var result := converter.value(d.loincCode.value, d.unit.value, d.valueNum.value);
            if Accepted(result) {
              var entry := result.value[0];
              d := d.(loincCode := entry.loinc, valueNum := entry.value, unit := Some(ReplaceAll(entry.unit.value, "'", "''")));
            }
          }
        }
        if EqualityComparator(d.comparator) {
          d := d.(comparator := None);
        }
      }
      data := Some(data.value.(rec := d));
      r := Success(ObservationOf(systems, data.value));
    }
  }

  function LabResource(o: Observation): (r: Store.Resource)
    ensures r.resType == "Observation" && r.id == o.id
    ensures r.body.code == o.code && r.body.source == Some(o.source)
    ensures r.body.subjectRef == Some(o.subject) && r.body.encounterRef == Some(o.encounter)
  {
    Store.Resource("Observation", o.id,
      Store.Doc(Some(o.subject), Some(o.encounter), None, None, [], o.code, Some(o.source), Some(o.identifier.system)))
  }

  /** Rewriting a unit twice is rewriting it once. */
  lemma NormalizeUnitIdempotent(u: string)
    ensures NormalizeUnit(NormalizeUnit(u)) == NormalizeUnit(u)
  {
  }

  /** A rewritten unit is never one of the legacy spellings. */
  lemma NormalizedNotLegacy(u: string)
    ensures NormalizeUnit(u) !in LegacyUnits
  {
  }

  /**
   * Without a conversion service, mapping the same record again changes
   * neither the stored record nor the Observation.
   */
  lemma {:induction false} PreparedIdempotent(d: LabRecord)
    ensures Prepared(None, Prepared(None, d)) == Prepared(None, d)
  {
    var n := NormalizeStep(d);
    if Convertible(d) {
      NormalizeUnitIdempotent(d.unit.value);
    }
    assert ConvertStep(None, n) == n;
    var e := ComparatorStep(n);
    assert NormalizeStep(e) == e by {
      if Convertible(e) {
        NormalizeUnitIdempotent(d.unit.value);
      }
    }
  }

  /** The reference range is given in the same unit as the value quantity. */
  lemma RangeInValueUnit(sys: Systems, data: LabData)
    requires ObservationOf(sys, data).value.QuantityValue? && ObservationOf(sys, data).referenceRange.Some?
    ensures ObservationOf(sys, data).referenceRange.value.unit == ObservationOf(sys, data).value.unit
  {
  }

  /** Without a service, a legacy unit of a numeric LOINC-coded result reaches the Observation in its UCUM spelling. */
  lemma LegacyUnitReplaced(sys: Systems, data: LabData)
    requires Convertible(data.rec) && data.rec.unit.value in LegacyUnits
    ensures var o := ObservationOf(sys, data.(rec := Prepared(None, data.rec)));
            o.value.QuantityValue? && o.value.unit.Some? && o.value.unit.value !in LegacyUnits &&
            o.value.unit.value == NormalizeUnit(data.rec.unit.value)
  {
    NormalizedNotLegacy(data.rec.unit.value);
  }
}
