// The Observations built from the P21 fields of an encounter:
// MapperDMEnc2Obs (days on ventilator) and MapperDMTrans2Obs (intercurrent
// dialysis and days in intensive care).  Both mappers derive status and
// effective period from the admission and discharge timestamps the same way.

module P21Timing {
  import opened Common
  import opened Fhir

  /** Start only with an admission; end only when admission and discharge are both present. */
  function EffectivePeriod(admission: Option<int>, discharge: Option<int>): (p: Period)
    ensures p.start == admission
    ensures p.end.Some? <==> admission.Some? && discharge.Some?
    ensures p.end.Some? ==> p.end == discharge
  {
    Period(admission, if admission.Some? then discharge else None)
  }

  /** "final" iff admission and discharge are both present, else "preliminary". */
  function ObservationStatus(admission: Option<int>, discharge: Option<int>): (s: string)
    ensures s == "final" <==> admission.Some? && discharge.Some?
    ensures s == "preliminary" <==> !(admission.Some? && discharge.Some?)
  {
    if admission.Some? && discharge.Some? then "final" else "preliminary"
  }

  /** The period is closed exactly when the observation is final. */
  lemma ClosedIffFinal(admission: Option<int>, discharge: Option<int>)
    ensures EffectivePeriod(admission, discharge).end.Some? <==> ObservationStatus(admission, discharge) == "final"
  {
  }
}

module VentilationMapper {
  import opened Common
  import opened Fhir
  import opened P21Timing
  import Store

  datatype EncounterRecord = EncounterRecord(
    ventilationHours: Option<int>,   // int(ventilation_hours); None for NaN
    admission: Option<int>,
    discharge: Option<int>)

  /** The ventilation quantity in days; the value is the hour count the source divides by 24 and rounds. */
  datatype DaysQuantity = DaysQuantity(hours: int, unit: string)

  datatype Observation = Observation(
    id: string,
    identifier: Identifier,
    encounter: string,
    subject: string,
    code: Coding,
    value: Option<DaysQuantity>,
    status: string,
    period: Period,
    source: string)

  const LoincSystem := "http://loinc.org"
  const VentCoding := Coding(LoincSystem, "74201-5", Some("Days on Ventilator"))

  /** The ventilation observation id: the encounter pseudonym followed by "-vent". */
  function VentId(encPsn: string): string
  {
    encPsn + "-vent"
  }

  /**
   * `read` then `map`.  `round(hours / 24, 2)` is zero exactly when the
   * integer hour count is zero, so the quantity is set iff the hours are
   * present and non-zero.
   */
  function MapVentilation(sys: Systems, encPsn: string, patPsn: string, rec: EncounterRecord): (o: Observation)
    ensures o.id == VentId(encPsn) && o.identifier == Identifier(None, sys.p21obsId, o.id)
    ensures o.encounter == Reference("Encounter", encPsn) && o.subject == Reference("Patient", patPsn)
    ensures o.code == VentCoding && o.source == SapIsh
    ensures o.value.Some? <==> TruthyInt(rec.ventilationHours)
    ensures o.value.Some? ==> o.value.value == DaysQuantity(rec.ventilationHours.value, "d")
    ensures o.status == ObservationStatus(rec.admission, rec.discharge)
    ensures o.period == EffectivePeriod(rec.admission, rec.discharge)
  {
    var id := VentId(encPsn);
    Observation(id, Identifier(None, sys.p21obsId, id), Reference("Encounter", encPsn), Reference("Patient", patPsn),
                VentCoding,
                if TruthyInt(rec.ventilationHours) then Some(DaysQuantity(rec.ventilationHours.value, "d")) else None,
                ObservationStatus(rec.admission, rec.discharge), EffectivePeriod(rec.admission, rec.discharge), SapIsh)
  }

  function VentilationResource(o: Observation): (r: Store.Resource)
    ensures r.resType == "Observation" && r.id == o.id
    ensures r.body.code == Some(o.code.code) && r.body.source == Some(o.source)
    ensures r.body.subjectRef == Some(o.subject) && r.body.encounterRef == Some(o.encounter)
  {
    Store.Resource("Observation", o.id,
      Store.Doc(Some(o.subject), Some(o.encounter), None, None, [], Some(o.code.code), Some(o.source), Some(o.identifier.system)))
  }
}

module TransferMapper {
  import opened Common
  import opened Fhir
  import opened P21Timing
  import Store

  datatype TransferRecord = TransferRecord(
    dialyses: Option<int>,     // int(intercurrent_dialyses); None for NaN
    icuDays: Option<real>,     // round(icu_days, 2); None for NaN
    admission: Option<int>,
    discharge: Option<int>)

  datatype Observation = Observation(
    id: string,
    identifier: Identifier,
    encounter: string,
    subject: string,
    code: Coding,
    valueInteger: Option<int>,
    valueDays: Option<real>,
    status: string,
    period: Period,
    source: string)

  const DialysisCoding := Coding("https://miracum.org/fhir/CodeSystem/core/observations", "intercurrent-dialysis",
                                 Some("Intercurrent dialysis"))
  const IcuCoding := Coding("http://loinc.org", "74200-7", Some("Days in intensive care unit"))

  function DialysisId(encPsn: string): string
  {
    encPsn + "-dia"
  }

  function IcuId(encPsn: string): string
  {
    encPsn + "-icu"
  }

  /** One observation of the pair: everything but the id, code and value is shared. */
  function P21Observation(sys: Systems, id: string, encPsn: string, patPsn: string, rec: TransferRecord, code: Coding,
                          valueInteger: Option<int>, valueDays: Option<real>): Observation
  {
    Observation(id, Identifier(None, sys.p21obsId, id), Reference("Encounter", encPsn), Reference("Patient", patPsn),
                code, valueInteger, valueDays, ObservationStatus(rec.admission, rec.discharge),
                EffectivePeriod(rec.admission, rec.discharge), SapIsh)
  }

  /** `read` then `map`: `[dialysis, icu]`. */
  function MapTransfer(sys: Systems, encPsn: string, patPsn: string, rec: TransferRecord): (obs: seq<Observation>)
    ensures |obs| == 2
    ensures obs[0].id == DialysisId(encPsn) && obs[0].identifier.value == obs[0].id
    ensures obs[1].id == IcuId(encPsn) && obs[1].identifier.value == obs[1].id
    ensures obs[0].code == DialysisCoding && obs[1].code == IcuCoding
    ensures obs[0].valueInteger == rec.dialyses && obs[0].valueDays.None?
    ensures obs[1].valueInteger.None? && (obs[1].valueDays.Some? <==> rec.icuDays.Some? && rec.icuDays.value != 0.0)
    ensures obs[1].valueDays.Some? ==> obs[1].valueDays == rec.icuDays
    ensures obs[0].status == obs[1].status == ObservationStatus(rec.admission, rec.discharge)
    ensures obs[0].period == obs[1].period == EffectivePeriod(rec.admission, rec.discharge)
    ensures forall i :: 0 <= i < 2 ==>
              obs[i].encounter == Reference("Encounter", encPsn) && obs[i].subject == Reference("Patient", patPsn) &&
              obs[i].source == SapIsh && obs[i].identifier.system == sys.p21obsId
  {
    var icuValue := if rec.icuDays.Some? && rec.icuDays.value != 0.0 then rec.icuDays else None;
    [P21Observation(sys, DialysisId(encPsn), encPsn, patPsn, rec, DialysisCoding, rec.dialyses, None),
     P21Observation(sys, IcuId(encPsn), encPsn, patPsn, rec, IcuCoding, None, icuValue)]
  }

  function TransferResource(o: Observation): (r: Store.Resource)
    ensures r.resType == "Observation" && r.id == o.id
    ensures r.body.code == Some(o.code.code) && r.body.source == Some(o.source)
    ensures r.body.subjectRef == Some(o.subject) && r.body.encounterRef == Some(o.encounter)
  {
    Store.Resource("Observation", o.id,
      Store.Doc(Some(o.subject), Some(o.encounter), None, None, [], Some(o.code.code), Some(o.source), Some(o.identifier.system)))
  }

  /** The two observations of one encounter never share an id. */
  lemma DialysisIcuDistinct(encPsn: string)
    ensures DialysisId(encPsn) != IcuId(encPsn)
  {
    DifferentSuffixes(encPsn, encPsn, "-dia", "-icu");
  }
}
