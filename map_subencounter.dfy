// MapperDMDep2Enc: the transfer rows of one department of an encounter
// become a department-level sub-Encounter plus one Location per transfer
// row that validates.  Ids are sha256 hex digests, modelled by an abstract
// hash function; `str()` of a timestamp is another abstract function.

module SubEncounterMapper {
  import opened Common
  import opened Fhir
  import Store

  /** One transfer row: unit_name, event_begin_timestamp, event_end_timestamp. */
  datatype TransferRow = TransferRow(unitName: string, begin: Option<int>, end: Option<int>)

  datatype Location = Location(id: string, identifier: Identifier, name: string)

  /** `EncounterLocation`: the sub-encounter's link to a Location. */
  datatype LocationLink = LocationLink(status: string, period: Period, location: string)

  datatype SubEncounter = SubEncounter(
    id: string,
    identifier: Identifier,
    status: string,
    subject: string,
    partOf: string,
    serviceType: Coding,
    period: Period,
    locations: seq<LocationLink>,
    source: string)

  /** What `map` returns: the sub-encounter, its locations and the two location counters. */
  datatype Mapped = Mapped(sub: SubEncounter, locations: seq<Location>, added: nat, invalid: nat)

  /** External functions the mapper depends on. */
  datatype Env = Env(
    hash: string -> string,             // sha256(...).hexdigest()
    showTime: Option<int> -> string,    // str() of a timestamp or NaT
    depNames: map<int, string>,         // dep_name column of the department table, by code
    missing: string,                    // pandas rendering of an empty selection
    validLink: LocationLink -> bool)    // loc.as_json() succeeds

  const OrganisationSystem := "https://diz.mii.de/fhir/CodeSystem/TestOrganisationAbteilungen"
  const ServiceTypeSystem := "http://terminology.hl7.org/CodeSystem/service-type"

  /** `read`'s concatenation that the sub-encounter id hashes. */
  function Concat(env: Env, patPsn: string, encPsn: string, depCode: string, rows: seq<TransferRow>): string
    requires rows != []
  {
    encPsn + patPsn + depCode + env.showTime(rows[0].begin) + env.showTime(rows[|rows| - 1].end)
  }

  /** `_dep_name_lookup`: `int(code)` then the department name. */
  function DepNameLookup(env: Env, code: string): (r: Result<string>)
    ensures r.Success? <==> ParseInt(code).Success?
    ensures r.Success? ==> r.value == Lookup(env.depNames, ParseInt(code).value, env.missing)
  {
    var n := ParseInt(code);
    if n.Failure? then Failure(n.error) else Success(Lookup(env.depNames, n.value, env.missing))
  }

  /** The Location a transfer row names; its id depends on the unit name only. */
  function LocationOf(env: Env, row: TransferRow): (loc: Location)
    ensures loc.id == env.hash(row.unitName) && loc.identifier.value == loc.id && loc.name == row.unitName
  {
    var id := env.hash(row.unitName);
    Location(id, Identifier(Some("usual"), OrganisationSystem, id), row.unitName)
  }

  /** Status "completed" iff the transfer has ended, else "active". */
  function LinkStatus(row: TransferRow): (s: string)
    ensures s == "completed" <==> row.end.Some?
    ensures s == "active" <==> row.end.None?
  {
    if row.end.Some? then "completed" else "active"
  }

  function LinkOf(env: Env, row: TransferRow): (link: LocationLink)
    ensures link.location == Reference("Location", LocationOf(env, row).id)
  {
    LocationLink(LinkStatus(row), Period(row.begin, row.end), Reference("Location", env.hash(row.unitName)))
  }

  /** The transfer rows whose location link validates, in order. */
  function ValidRows(env: Env, rows: seq<TransferRow>): (vs: seq<TransferRow>)
    ensures |vs| <= |rows|
  {
    if rows == [] then []
    else
      var last := rows[|rows| - 1];
      ValidRows(env, rows[..|rows| - 1]) + (if env.validLink(LinkOf(env, last)) then [last] else [])
  }

  function Links(env: Env, rows: seq<TransferRow>): (ls: seq<LocationLink>)
    ensures |ls| == |rows| && forall i :: 0 <= i < |rows| ==> ls[i] == LinkOf(env, rows[i])
  {
    seq(|rows|, i requires 0 <= i < |rows| => LinkOf(env, rows[i]))
  }

  function Locations(env: Env, rows: seq<TransferRow>): (ls: seq<Location>)
    ensures |ls| == |rows| && forall i :: 0 <= i < |rows| ==> ls[i] == LocationOf(env, rows[i])
  {
    seq(|rows|, i requires 0 <= i < |rows| => LocationOf(env, rows[i]))
  }

  lemma ValidRowsStep(env: Env, rows: seq<TransferRow>, i: int)
    requires 0 <= i < |rows|
    ensures ValidRows(env, rows[..i + 1]) ==
              ValidRows(env, rows[..i]) + (if env.validLink(LinkOf(env, rows[i])) then [rows[i]] else [])
    ensures Links(env, ValidRows(env, rows[..i]) + [rows[i]]) == Links(env, ValidRows(env, rows[..i])) + [LinkOf(env, rows[i])]
    ensures Locations(env, ValidRows(env, rows[..i]) + [rows[i]]) ==
              Locations(env, ValidRows(env, rows[..i])) + [LocationOf(env, rows[i])]
  {
    assert rows[..i + 1][..i] == rows[..i];
  }

  predicate AllBegun(rows: seq<TransferRow>)
  {
    forall i :: 0 <= i < |rows| ==> rows[i].begin.Some?
  }

  /** The location loop of `map`: one attempt per transfer row, counted as added or invalid. */
  method LinkLocations(env: Env, rows: seq<TransferRow>)
    returns (r: Result<(seq<LocationLink>, seq<Location>, nat, nat)>)
    ensures r.Success? <==> AllBegun(rows)
    ensures r.Failure? ==> r.error == ValueError("NaT")
    ensures r.Success? ==>
              var (links, locations, added, invalid) := r.value;
              var kept := ValidRows(env, rows);
              links == Links(env, kept) && locations == Locations(env, kept) &&
              added == |kept| && added + invalid == |rows|
  {
    var links: seq<LocationLink> := [];
    var locations: seq<Location> := [];
    var added, invalid := 0, 0;
    for i := 0 to |rows|
      invariant forall j :: 0 <= j < i ==> rows[j].begin.Some?
      invariant links == Links(env, ValidRows(env, rows[..i]))
      invariant locations == Locations(env, ValidRows(env, rows[..i]))
      invariant added == |ValidRows(env, rows[..i])| && added + invalid == i
    {
      var row := rows[i];
      ValidRowsStep(env, rows, i);
      if row.begin.None? {
        return Failure(ValueError("NaT"));
      }
      links, locations, added, invalid := LinkRow(env, row, links, locations, added, invalid, ValidRows(env, rows[..i]));
    }
    assert rows[..|rows|] == rows;
    r := Success((links, locations, added, invalid));
  }

  /** One transfer row of the location loop: its link and Location are kept when the link validates, else counted invalid. */
  method LinkRow(env: Env, row: TransferRow, links: seq<LocationLink>, locations: seq<Location>, added: nat, invalid: nat,
                 ghost kept: seq<TransferRow>)
    returns (links': seq<LocationLink>, locations': seq<Location>, added': nat, invalid': nat)
    requires links == Links(env, kept) && locations == Locations(env, kept) && added == |kept|
    ensures var kept' := kept + (if env.validLink(LinkOf(env, row)) then [row] else []);
            links' == Links(env, kept') && locations' == Locations(env, kept') && added' == |kept'| &&
            added' + invalid' == added + invalid + 1
  {
    var link := LinkOf(env, row);
    if env.validLink(link) {
      links', locations', added', invalid' := links + [link], locations + [LocationOf(env, row)], added + 1, invalid;
      assert links' == Links(env, kept + [row]);
      assert locations' == Locations(env, kept + [row]);
    } else {
      links', locations', added', invalid' := links, locations, added, invalid + 1;
      assert kept + [] == kept;
    }
  }

  /**
   * `read` then `map` as a value.  It fails when there is no transfer row
   * (`iloc[0]`), when the department code is not a number, or when a begin
   * timestamp is missing (`strftime` of NaT).
   */
  function SubEncounterOf(sys: Systems, env: Env, patPsn: string, encPsn: string, depCode: string,
                          rows: seq<TransferRow>): (r: Result<Mapped>)
    ensures r.Success? <==> rows != [] && ParseInt(depCode).Success? && AllBegun(rows)
    ensures r.Success? ==>
              var m := r.value;
              m.sub.id == env.hash(Concat(env, patPsn, encPsn, depCode, rows)) &&
              m.sub.identifier == Identifier(Some("usual"), sys.subencounterId, m.sub.id) &&
              m.sub.subject == Reference("Patient", patPsn) && m.sub.partOf == Reference("Encounter", encPsn) &&
              m.sub.serviceType == Coding(ServiceTypeSystem, depCode, Some(DepNameLookup(env, depCode).value)) &&
              m.sub.period == Period(rows[0].begin, rows[|rows| - 1].end) &&
              (m.sub.status == "finished" <==> rows[|rows| - 1].end.Some?) &&
              (m.sub.status == "in-progress" <==> rows[|rows| - 1].end.None?) &&
              m.sub.source == SapIsh
    ensures r.Success? ==>
              var m := r.value;
              var kept := ValidRows(env, rows);
              m.sub.locations == Links(env, kept) && m.locations == Locations(env, kept) &&
              m.added == |kept| && m.added + m.invalid == |rows|
  {
    if rows == [] then Failure(IndexError("iloc[0]"))
    else
      var depName := DepNameLookup(env, depCode);
      if depName.Failure? then Failure(depName.error)
      else if !AllBegun(rows) then Failure(ValueError("NaT"))
      else
        var discharge := rows[|rows| - 1].end;
        var id := env.hash(Concat(env, patPsn, encPsn, depCode, rows));
        var kept := ValidRows(env, rows);
        var sub := SubEncounter(id, Identifier(Some("usual"), sys.subencounterId, id),
                                if discharge.Some? then "finished" else "in-progress",
                                Reference("Patient", patPsn), Reference("Encounter", encPsn),
                                Coding(ServiceTypeSystem, depCode, Some(depName.value)),
                                Period(rows[0].begin, discharge), Links(env, kept), SapIsh);
        Success(Mapped(sub, Locations(env, kept), |kept|, |rows| - |kept|))
  }

  /** `read` then `map`, proved to build what `SubEncounterOf` describes. */
  method MapSubEncounter(sys: Systems, env: Env, patPsn: string, encPsn: string, depCode: string,
                         rows: seq<TransferRow>) returns (r: Result<Mapped>)
    ensures r == SubEncounterOf(sys, env, patPsn, encPsn, depCode, rows)
  {
    if rows == [] {
      return Failure(IndexError("iloc[0]"));
    }
    var admission := rows[0].begin;
    var discharge := rows[|rows| - 1].end;
    var id := env.hash(Concat(env, patPsn, encPsn, depCode, rows));
    var depName := DepNameLookup(env, depCode);
    if depName.Failure? {
      return Failure(depName.error);
    }
    if admission.None? {
      return Failure(ValueError("NaT"));
    }
    var status := if discharge.Some? then "finished" else "in-progress";
    var linked := LinkLocations(env, rows);
    if linked.Failure? {
      return Failure(linked.error);
    }
    var (links, locations, added, invalid) := linked.value;
    var sub := SubEncounter(id, Identifier(Some("usual"), sys.subencounterId, id), status,
                            Reference("Patient", patPsn), Reference("Encounter", encPsn),
                            Coding(ServiceTypeSystem, depCode, Some(depName.value)),
                            Period(admission, discharge), links, SapIsh);
    r := Success(Mapped(sub, locations, added, invalid));
  }

  function SubEncounterResource(s: SubEncounter): (r: Store.Resource)
    ensures r.resType == "Encounter" && r.id == s.id
    ensures r.body.partOfRef == Some(s.partOf) && r.body.identifierSystem == Some(s.identifier.system)
  {
    Store.Resource("Encounter", s.id,
      Store.Doc(Some(s.subject), None, None, Some(s.partOf), [], None, Some(s.source), Some(s.identifier.system)))
  }

  function LocationResource(l: Location): (r: Store.Resource)
    ensures r.resType == "Location" && r.id == l.id
  {
    Store.Resource("Location", l.id,
      Store.Doc(None, None, None, None, [], None, None, Some(l.identifier.system)))
  }

  /** Transfers through the same unit name a Location with the same id. */
  lemma SameUnitSameLocation(env: Env, a: TransferRow, b: TransferRow)
    requires a.unitName == b.unitName
    ensures Store.KeyOf(LocationResource(LocationOf(env, a))) == Store.KeyOf(LocationResource(LocationOf(env, b)))
  {
  }

  /** Every kept row is a transfer row whose link validates. */
  lemma {:induction false} ValidRowsValid(env: Env, rows: seq<TransferRow>)
    ensures forall v :: v in ValidRows(env, rows) ==> v in rows && env.validLink(LinkOf(env, v))
  {
    if rows != [] {
      ValidRowsValid(env, rows[..|rows| - 1]);
      forall v | v in ValidRows(env, rows[..|rows| - 1])
        ensures v in rows
      {
        assert v in rows[..|rows| - 1];
      }
    }
  }

  /** When every link validates, every transfer row yields a location, in order. */
  lemma {:induction false} AllValidKept(env: Env, rows: seq<TransferRow>)
    requires forall i :: 0 <= i < |rows| ==> env.validLink(LinkOf(env, rows[i]))
    ensures ValidRows(env, rows) == rows
  {
    if rows != [] {
      AllValidKept(env, rows[..|rows| - 1]);
    }
  }

  /** When no link validates, no location is produced and every row counts as invalid. */
  lemma {:induction false} NoneValidDropped(env: Env, rows: seq<TransferRow>)
    requires forall i :: 0 <= i < |rows| ==> !env.validLink(LinkOf(env, rows[i]))
    ensures ValidRows(env, rows) == []
  {
    if rows != [] {
      NoneValidDropped(env, rows[..|rows| - 1]);
    }
  }
}
