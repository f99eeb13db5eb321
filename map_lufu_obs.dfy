// MapperLuFuFall2Obs: one lung-function examination becomes up to five
// Observations, one per measured section (body plethysmography before and
// after broncholysis, spirometry before and after, transfer factor).  `map`
// scans the measurement items of the record for sections with values;
// `mapLufuItems2Obs` turns the items of one section into Observation
// components coded through the LOINC and i2b2 tables.

module LufuObservationMapper {
  import opened Common
  import opened Fhir
  import LoincLookup
  import I2b2Lookup
  import SnomedLookup
  import Store
  import LufuRecord

  /** One measurement item of `data`; the value is None for None or NaN.  Keys are distinct, as in a dictionary. */
  datatype Item = Item(key: string, value: Option<real>)

  /** The mapper's `data` after `read`: pseudonyms, examination date and time, the items in order, the record's columns. */
  datatype LufuData = LufuData(encPsn: string, patPsn: string, examDate: Option<string>, examTime: Option<string>,
                               items: seq<Item>, fields: seq<LufuRecord.Field>)

  /** `concat_elements`: the record's column renderings joined without the source year. */
  function RecordText(d: LufuData): string
  {
    LufuRecord.Joined(d.fields, true)
  }

  /** The `Unit` column of the mapping table, by its `RELMA` and by its `I2B2 Basecode` column. */
  datatype UnitTables = UnitTables(byLoinc: map<string, string>, byI2b2: map<string, string>)

  datatype Context = Context(sys: Systems, hash: string -> string, units: UnitTables, data: LufuData)

  datatype Quantity = Quantity(value: Option<real>, unit: string)

  datatype Component = Component(codings: seq<Coding>, value: Quantity, low: Quantity, high: Quantity)

  datatype Observation = Observation(
    id: string,
    identifier: Identifier,
    code: Coding,
    encounter: string,
    subject: string,
    effective: Option<string>,
    components: seq<Component>,
    status: string,
    source: string)

  const LufuSource := "#lufu-cwd"
  const LoincSystem := "http://loinc.org"
  const MdrSystem := "http://mdr.miracum.org"
  const SnomedSystem := "http://snomed.info/sct"

  /** The section keys an Observation can be built for. */
  const SectionKeys: set<string> := {"B_", "B_PRE", "B_POST", "SP_", "SP_PRE", "SP_POST", "TRA_"}

  /** The items whose key contains `pat` and whose value is present, in order. */
  function Present(items: seq<Item>, pat: string): (ps: seq<Item>)
    ensures |ps| <= |items|
  {
    if items == [] then []
    else
      var last := items[|items| - 1];
      Present(items[..|items| - 1], pat) + (if Contains(last.key, pat) && last.value.Some? then [last] else [])
  }

  lemma PresentStep(items: seq<Item>, pat: string, i: int)
    requires 0 <= i < |items|
    ensures Present(items[..i + 1], pat) ==
              Present(items[..i], pat) + (if Contains(items[i].key, pat) && items[i].value.Some? then [items[i]] else [])
  {
    assert items[..i + 1][..i] == items[..i];
  }

  /** Every selected item is an item of the record with the pattern in its key and a value. */
  lemma {:induction false} PresentSelects(items: seq<Item>, pat: string)
    ensures forall it :: it in Present(items, pat) ==> it in items && Contains(it.key, pat) && it.value.Some?
  {
    if items != [] {
      PresentSelects(items[..|items| - 1], pat);
      forall it | it in Present(items[..|items| - 1], pat)
        ensures it in items
      {
        assert it in items[..|items| - 1];
      }
    }
  }

  /** No item with the pattern and a value: nothing is selected. */
  lemma {:induction false} PresentNone(items: seq<Item>, pat: string)
    requires forall i :: 0 <= i < |items| ==> items[i].value.Some? ==> !Contains(items[i].key, pat)
    ensures Present(items, pat) == []
  {
    if items != [] {
      PresentNone(items[..|items| - 1], pat);
    }
  }

  /** The per-section lists and flags that `map`'s scan collects. */
  datatype Scan = Scan(bPre: seq<Item>, bPost: seq<Item>, spPre: seq<Item>, spPost: seq<Item>, tra: seq<Item>,
                       hasBga: bool, hasFe: bool)

  function ScanOf(items: seq<Item>): Scan
  {
    Scan(Present(items, "B_PRE"), Present(items, "B_POST"), Present(items, "SP_PRE"), Present(items, "SP_POST"),
         Present(items, "TRA_"), Present(items, "BGA_") != [], Present(items, "FE_") != [])
  }

  /** The scan loop of `map`: each item is checked against every section pattern. */
  method ScanItems(items: seq<Item>) returns (s: Scan)
    ensures s == ScanOf(items)
  {
    var bPre, bPost, spPre, spPost, tra: seq<Item> := [], [], [], [], [];
    var hasBga, hasFe := false, false;
    for i := 0 to |items|
      invariant bPre == Present(items[..i], "B_PRE") && bPost == Present(items[..i], "B_POST")
      invariant spPre == Present(items[..i], "SP_PRE") && spPost == Present(items[..i], "SP_POST")
      invariant tra == Present(items[..i], "TRA_")
      invariant hasBga == (Present(items[..i], "BGA_") != []) && hasFe == (Present(items[..i], "FE_") != [])
    {
      var it := items[i];
      PresentStep(items, "B_PRE", i);
      PresentStep(items, "B_POST", i);
      PresentStep(items, "SP_PRE", i);
      PresentStep(items, "SP_POST", i);
      PresentStep(items, "TRA_", i);
      PresentStep(items, "BGA_", i);
      PresentStep(items, "FE_", i);
      if it.value.Some? {
        if Contains(it.key, "B_PRE") { bPre := bPre + [it]; }
        if Contains(it.key, "B_POST") { bPost := bPost + [it]; }
        if Contains(it.key, "SP_PRE") { spPre := spPre + [it]; }
        if Contains(it.key, "SP_POST") { spPost := spPost + [it]; }
        if Contains(it.key, "BGA_") { hasBga := true; }
        if Contains(it.key, "TRA_") { tra := tra + [it]; }
        if Contains(it.key, "FE_") { hasFe := true; }
      }
    }
    assert items[..|items|] == items;
    s := Scan(bPre, bPost, spPre, spPost, tra, hasBga, hasFe);
  }

  /** One section: before-only values under the plain key, before and after under PRE and POST keys. */
  function PrePost(plain: string, pre: string, post: string, preItems: seq<Item>, postItems: seq<Item>)
    : (ps: seq<(string, seq<Item>)>)
    ensures preItems != [] && postItems == [] ==> ps == [(plain, preItems)]
    ensures preItems != [] && postItems != [] ==> ps == [(pre, preItems), (post, postItems)]
    ensures preItems == [] && postItems != [] ==> ps == [(post, postItems)]
    ensures preItems == [] && postItems == [] ==> ps == []
  {
    (if preItems != [] && postItems == [] then [(plain, preItems)] else [])
    + (if preItems != [] && postItems != [] then [(pre, preItems)] else [])
    + (if postItems != [] then [(post, postItems)] else [])
  }

  /** The sections `map` builds Observations for, in B, SP, TRA order; BGA and FE values give none. */
  function SectionParams(s: Scan): (ps: seq<(string, seq<Item>)>)
    ensures ps == PrePost("B_", "B_PRE", "B_POST", s.bPre, s.bPost) + PrePost("SP_", "SP_PRE", "SP_POST", s.spPre, s.spPost)
                  + (if s.tra != [] then [("TRA_", s.tra)] else [])
    ensures |ps| <= 5
    ensures forall i :: 0 <= i < |ps| ==> ps[i].0 in SectionKeys && ps[i].1 != []
  {
    PrePost("B_", "B_PRE", "B_POST", s.bPre, s.bPost) + PrePost("SP_", "SP_PRE", "SP_POST", s.spPre, s.spPost)
    + (if s.tra != [] then [("TRA_", s.tra)] else [])
  }

  /** The lookup key of an item: sections without PRE or POST in their key drop "PRE_" from the item name. */
  function LookupKey(param: string, key: string): (k: string)
    ensures Contains(param, "PRE") || Contains(param, "POST") ==> k == key
    ensures !Contains(param, "PRE") && !Contains(param, "POST") ==> k == ReplaceAll(key, "PRE_", "")
  {
    if !Contains(param, "PRE") && !Contains(param, "POST") then ReplaceAll(key, "PRE_", "") else key
  }

  /** `data[key]`: the value of the first item with that key, or None for a missing key. */
  function Find(items: seq<Item>, key: string): (v: Option<Option<real>>)
    ensures v.Some? <==> exists i :: 0 <= i < |items| && items[i].key == key
    ensures v.Some? ==> exists i :: 0 <= i < |items| && items[i].key == key && v.value == items[i].value
  {
    if items == [] then None
    else if items[0].key == key then Some(items[0].value)
    else
      var v := Find(items[1..], key);
      assert v.Some? ==> exists i :: 1 <= i < |items| && items[i].key == key && v.value == items[i].value by {
        if v.Some? {
          var j :| 0 <= j < |items[1..]| && items[1..][j].key == key && v.value == items[1..][j].value;
          assert items[j + 1] == items[1..][j];
        }
      }
      assert (exists i :: 1 <= i < |items| && items[i].key == key) ==> v.Some? by {
        if exists i :: 1 <= i < |items| && items[i].key == key {
          var i :| 1 <= i < |items| && items[i].key == key;
          assert items[1..][i - 1] == items[i];
        }
      }
      v
  }

  /** The codings of an item: the LOINC coding when the LOINC table lists it, then the i2b2 coding when that table does. */
  function CodingsOf(lookupKey: string): (cs: seq<Coding>)
    ensures |cs| <= 2
    ensures cs == [] <==> LoincLookup.CodeLookup(lookupKey) == LoincLookup.NoCode && I2b2Lookup.CodeLookup(lookupKey) == I2b2Lookup.NoCode
  {
    var loinc := LoincLookup.CodeLookup(lookupKey);
    var i2b2 := I2b2Lookup.CodeLookup(lookupKey);
    (if loinc != LoincLookup.NoCode then [Coding(LoincSystem, loinc, Some(LoincLookup.DisplayLookup(loinc)))] else [])
    + (if i2b2 != I2b2Lookup.NoCode then [Coding(MdrSystem, i2b2, None)] else [])
  }

  /**
   * The component of one item: none for a target item or an item neither
   * table codes; the unit from the mapping table (an `IndexError` when the
   * code has no row, the i2b2 row winning); the reference range from the
   * matching target item (a `KeyError` when there is none).
   */
  function ComponentOf(ctx: Context, param: string, it: Item): (r: Result<Option<Component>>)
    ensures !Contains(it.key, "actual") ==> r == Success(None)
    ensures r.Success? && r.value.Some? ==>
              var c := r.value.value;
              Contains(it.key, "actual") && c.codings == CodingsOf(LookupKey(param, it.key)) && c.codings != [] &&
              c.value.value == it.value && c.value.unit == c.low.unit &&
              c.low == c.high && Find(ctx.data.items, ReplaceAll(it.key, "actual", "target")) == Some(c.low.value)
    ensures r.Success? && r.value.None? && Contains(it.key, "actual") ==> CodingsOf(LookupKey(param, it.key)) == []
  {
    if !Contains(it.key, "actual") then Success(None)
    else
      var k := LookupKey(param, it.key);
      var loinc := LoincLookup.CodeLookup(k);
      var i2b2 := I2b2Lookup.CodeLookup(k);
      var codings := CodingsOf(k);
      if codings == [] then Success(None)
      else if loinc != LoincLookup.NoCode && loinc !in ctx.units.byLoinc then Failure(IndexError(loinc))
      else if i2b2 != I2b2Lookup.NoCode && i2b2 !in ctx.units.byI2b2 then Failure(IndexError(i2b2))
      else
        var unit := if i2b2 != I2b2Lookup.NoCode then Lookup(ctx.units.byI2b2, i2b2, "")
                    else Lookup(ctx.units.byLoinc, loinc, "");
        var target := Find(ctx.data.items, ReplaceAll(it.key, "actual", "target"));
        if target.None? then Failure(KeyError(ReplaceAll(it.key, "actual", "target")))
        else
          var ref := Quantity(target.value, unit);
          Success(Some(Component(codings, Quantity(it.value, unit), ref, ref)))
  }

  /** The components of a section's items, in order; the first failing item's exception otherwise. */
  function ComponentsOf(ctx: Context, param: string, items: seq<Item>): (r: Result<seq<Component>>)
    ensures r.Success? ==> |r.value| <= |items|
  {
    if items == [] then Success([])
    else
      var init := ComponentsOf(ctx, param, items[..|items| - 1]);
      if init.Failure? then init
      else
        var c := ComponentOf(ctx, param, items[|items| - 1]);
        if c.Failure? then Failure(c.error)
        else Success(init.value + (if c.value.Some? then [c.value.value] else []))
  }

  lemma ComponentsStep(ctx: Context, param: string, items: seq<Item>, i: int)
    requires 0 <= i < |items|
    ensures ComponentsOf(ctx, param, items[..i + 1]) ==
              var init := ComponentsOf(ctx, param, items[..i]);
              if init.Failure? then init
              else
                var c := ComponentOf(ctx, param, items[i]);
                if c.Failure? then Failure(c.error)
                else Success(init.value + (if c.value.Some? then [c.value.value] else []))
  {
    assert items[..i + 1][..i] == items[..i];
  }

  /** The examination time: date and time joined when both are present (parsing and time zone are not modelled). */
  function Effective(data: LufuData): (e: Option<string>)
    ensures e.Some? <==> data.examDate.Some? && data.examTime.Some?
    ensures e.Some? ==> e.value == data.examDate.value + " " + data.examTime.value
  {
    if data.examDate.Some? && data.examTime.Some? then Some(data.examDate.value + " " + data.examTime.value) else None
  }

  /** The section coding: the SNOMED code of the section key and that code's display. */
  function SectionCoding(param: string): (c: Coding)
    ensures c.system == SnomedSystem && c.code == SnomedLookup.CodeLookup(param)
    ensures c.display == Some(SnomedLookup.DisplayLookup(SnomedLookup.CodeLookup(param)))
  {
    var code := SnomedLookup.CodeLookup(param);
    Coding(SnomedSystem, code, Some(SnomedLookup.DisplayLookup(code)))
  }

  /** Every section an Observation is built for has a listed SNOMED code, and that code a listed display. */
  lemma SectionCodingListed(param: string)
    requires param in SectionKeys
    ensures SectionCoding(param).code != SnomedLookup.NoText
    ensures SectionCoding(param).display != Some(SnomedLookup.NoDisplay)
  {
    assert param in SnomedLookup.CodeTable;
    SnomedLookup.DisplayCoversCodes(param);
  }

  /** What `mapLufuItems2Obs` returns: an exception, no Observation (`[]`), or the Observation. */
  function SectionObservation(ctx: Context, param: string, items: seq<Item>): (r: Result<Option<Observation>>)
    ensures r.Failure? <==> ComponentsOf(ctx, param, items).Failure?
    ensures r.Success? ==> (r.value.None? <==> ComponentsOf(ctx, param, items).value == [])
    ensures r.Success? && r.value.Some? ==>
              var o := r.value.value;
              var id := ctx.hash(RecordText(ctx.data) + param);
              o.id == id && o.identifier == Identifier(None, ctx.sys.lufuObsId, id) &&
              o.code == SectionCoding(param) &&
              o.encounter == Reference("Encounter", ctx.data.encPsn) && o.subject == Reference("Patient", ctx.data.patPsn) &&
              o.effective == Effective(ctx.data) && o.components == ComponentsOf(ctx, param, items).value &&
              o.components != [] && o.status == "final" && o.source == LufuSource
  {
    var cs := ComponentsOf(ctx, param, items);
    if cs.Failure? then Failure(cs.error)
    else if cs.value == [] then Success(None)
    else
      var id := ctx.hash(RecordText(ctx.data) + param);
      Success(Some(Observation(id, Identifier(None, ctx.sys.lufuObsId, id), SectionCoding(param),
                               Reference("Encounter", ctx.data.encPsn), Reference("Patient", ctx.data.patPsn),
                               Effective(ctx.data), cs.value, "final", LufuSource)))
  }

  /** `mapLufuItems2Obs`: the component loop over a section's items. */
  method MapItems(ctx: Context, param: string, items: seq<Item>) returns (r: Result<Option<Observation>>)
    ensures r == SectionObservation(ctx, param, items)
  {
    var components: seq<Component> := [];
    for i := 0 to |items|
      invariant ComponentsOf(ctx, param, items[..i]) == Success(components)
    {
      ComponentsStep(ctx, param, items, i);
      var c := ComponentOf(ctx, param, items[i]);
      if c.Failure? {
        ComponentsFailurePersists(ctx, param, items, i + 1);
        assert items[..|items|] == items;
        return Failure(c.error);
      }
      if c.value.Some? {
        components := components + [c.value.value];
      } else {
        assert components + [] == components;
      }
      assert ComponentsOf(ctx, param, items[..i + 1]) == Success(components);
    }
    assert items[..|items|] == items;
    if components == [] {
      return Success(None);
    }
    var id := ctx.hash(RecordText(ctx.data) + param);
    r := Success(Some(Observation(id, Identifier(None, ctx.sys.lufuObsId, id), SectionCoding(param),
                                  Reference("Encounter", ctx.data.encPsn), Reference("Patient", ctx.data.patPsn),
                                  Effective(ctx.data), components, "final", LufuSource)));
  }

  /** Once a prefix fails, every longer prefix fails with the same exception. */
  lemma {:induction false} ComponentsFailurePersists(ctx: Context, param: string, items: seq<Item>, i: int)
    requires 0 <= i <= |items| && ComponentsOf(ctx, param, items[..i]).Failure?
    ensures ComponentsOf(ctx, param, items) == ComponentsOf(ctx, param, items[..i])
    decreases |items| - i
  {
    if i < |items| {
      ComponentsStep(ctx, param, items, i);
      ComponentsFailurePersists(ctx, param, items, i + 1);
    } else {
      assert items[..i] == items;
    }
  }

  /** The Observations of a list of sections, without the empty placeholders. */
  function ObservationsOf(ctx: Context, params: seq<(string, seq<Item>)>): (r: Result<seq<Observation>>)
    ensures r.Success? ==> |r.value| <= |params|
    ensures r.Success? ==> forall o :: o in r.value ==> o.components != [] && o.source == LufuSource
  {
    if params == [] then Success([])
    else
      var init := ObservationsOf(ctx, params[..|params| - 1]);
      if init.Failure? then init
      else
        var last := params[|params| - 1];
        var o := SectionObservation(ctx, last.0, last.1);
        if o.Failure? then Failure(o.error)
        else Success(init.value + (if o.value.Some? then [o.value.value] else []))
  }

  /** `map`: scan, then one `mapLufuItems2Obs` per section with values, the `[]` results filtered out. */
  function MapSpec(ctx: Context): (r: Result<seq<Observation>>)
    ensures r.Success? ==> |r.value| <= 5
    ensures r.Success? ==> forall o :: o in r.value ==> o.components != [] && o.source == LufuSource
  {
    ObservationsOf(ctx, SectionParams(ScanOf(ctx.data.items)))
  }

  method Map(ctx: Context) returns (r: Result<seq<Observation>>)
    ensures r == MapSpec(ctx)
  {
    var scan := ScanItems(ctx.data.items);
    r := MapSections(ctx, SectionParams(scan));
  }

  /** The section loop of `map`. */
  method MapSections(ctx: Context, params: seq<(string, seq<Item>)>) returns (r: Result<seq<Observation>>)
    ensures r == ObservationsOf(ctx, params)
  {
    var observations: seq<Observation> := [];
    for i := 0 to |params|
      invariant ObservationsOf(ctx, params[..i]) == Success(observations)
    {
      var o := MapItems(ctx, params[i].0, params[i].1);
      ObservationsStep(ctx, params, i);
      if o.Failure? {
        ObservationsFailurePersists(ctx, params, i + 1);
        return Failure(o.error);
      }
      if o.value.Some? {
        observations := observations + [o.value.value];
      } else {
        assert observations + [] == observations;
      }
    }
    assert params[..|params|] == params;
    r := Success(observations);
  }

  lemma ObservationsStep(ctx: Context, params: seq<(string, seq<Item>)>, i: int)
    requires 0 <= i < |params|
    ensures ObservationsOf(ctx, params[..i + 1]) ==
              var init := ObservationsOf(ctx, params[..i]);
              if init.Failure? then init
              else
                var o := SectionObservation(ctx, params[i].0, params[i].1);
                if o.Failure? then Failure(o.error)
                else Success(init.value + (if o.value.Some? then [o.value.value] else []))
  {
    assert params[..i + 1][..i] == params[..i];
  }

  lemma {:induction false} ObservationsFailurePersists(ctx: Context, params: seq<(string, seq<Item>)>, i: int)
    requires 0 <= i <= |params| && ObservationsOf(ctx, params[..i]).Failure?
    ensures ObservationsOf(ctx, params) == ObservationsOf(ctx, params[..i])
    decreases |params| - i
  {
    if i < |params| {
      ObservationsStep(ctx, params, i);
      ObservationsFailurePersists(ctx, params, i + 1);
    } else {
      assert params[..i] == params;
    }
  }

  function LufuResource(o: Observation): (r: Store.Resource)
    ensures r.resType == "Observation" && r.id == o.id
    ensures r.body.source == Some(o.source) && r.body.code == Some(o.code.code)
    ensures r.body.subjectRef == Some(o.subject) && r.body.encounterRef == Some(o.encounter)
  {
    Store.Resource("Observation", o.id,
      Store.Doc(Some(o.subject), Some(o.encounter), None, None, [], Some(o.code.code), Some(o.source), Some(o.identifier.system)))
  }

  /** A record whose only values are blood-gas or exhaled-NO items (or none at all) yields no Observation. */
  lemma OnlyUnmappedSections(ctx: Context)
    requires forall i :: 0 <= i < |ctx.data.items| ==> ctx.data.items[i].value.Some? ==>
               !Contains(ctx.data.items[i].key, "B_PRE") && !Contains(ctx.data.items[i].key, "B_POST") &&
               !Contains(ctx.data.items[i].key, "SP_PRE") && !Contains(ctx.data.items[i].key, "SP_POST") &&
               !Contains(ctx.data.items[i].key, "TRA_")
    ensures MapSpec(ctx) == Success([])
  {
    var items := ctx.data.items;
    PresentNone(items, "B_PRE");
    PresentNone(items, "B_POST");
    PresentNone(items, "SP_PRE");
    PresentNone(items, "SP_POST");
    PresentNone(items, "TRA_");
  }

  /** Pre values without post values are mapped under the plain "B_" key, from the pre items. */
  lemma PreOnlyUsesPlainKey(ctx: Context)
    requires ScanOf(ctx.data.items).bPre != [] && ScanOf(ctx.data.items).bPost == []
    ensures SectionParams(ScanOf(ctx.data.items))[0] == ("B_", Present(ctx.data.items, "B_PRE"))
  {
  }

  /** A section made only of target items has no component, so it produces no Observation. */
  lemma {:induction false} TargetsOnly(ctx: Context, param: string, items: seq<Item>)
    requires forall i :: 0 <= i < |items| ==> !Contains(items[i].key, "actual")
    ensures SectionObservation(ctx, param, items) == Success(None)
  {
    TargetsGiveNoComponents(ctx, param, items);
  }

  lemma {:induction false} TargetsGiveNoComponents(ctx: Context, param: string, items: seq<Item>)
    requires forall i :: 0 <= i < |items| ==> !Contains(items[i].key, "actual")
    ensures ComponentsOf(ctx, param, items) == Success([])
  {
    if items != [] {
      TargetsGiveNoComponents(ctx, param, items[..|items| - 1]);
    }
  }

  /** Every Observation id of one record is the hash of the record text followed by its section key. */
  lemma ObservationIds(ctx: Context)
    requires MapSpec(ctx).Success?
    ensures forall o :: o in MapSpec(ctx).value ==> exists p :: p in SectionKeys && o.id == ctx.hash(RecordText(ctx.data) + p)
  {
    ObservationIdsOf(ctx, SectionParams(ScanOf(ctx.data.items)));
  }

  lemma {:induction false} ObservationIdsOf(ctx: Context, params: seq<(string, seq<Item>)>)
    requires ObservationsOf(ctx, params).Success?
    requires forall i :: 0 <= i < |params| ==> params[i].0 in SectionKeys
    ensures forall o :: o in ObservationsOf(ctx, params).value ==>
              exists p :: p in SectionKeys && o.id == ctx.hash(RecordText(ctx.data) + p)
  {
    if params != [] {
      ObservationIdsOf(ctx, params[..|params| - 1]);
    }
  }

  /** The Observation ids do not depend on the source-year column: they hash the same text whatever the year. */
  lemma ObservationIdsIgnoreYear(ctx: Context, fields: seq<LufuRecord.Field>)
    requires |fields| == |ctx.data.fields|
    requires forall i :: 0 <= i < |fields| ==> fields[i].column == ctx.data.fields[i].column
    requires forall i :: 0 <= i < |fields| ==>
               fields[i].column != LufuRecord.SourceYear ==> fields[i].rendered == ctx.data.fields[i].rendered
    requires MapSpec(ctx.(data := ctx.data.(fields := fields))).Success?
    ensures forall o :: o in MapSpec(ctx.(data := ctx.data.(fields := fields))).value ==>
              exists p :: p in SectionKeys && o.id == ctx.hash(RecordText(ctx.data) + p)
  {
    LufuRecord.YearIgnored(fields, ctx.data.fields);
    ObservationIds(ctx.(data := ctx.data.(fields := fields)));
  }
}
