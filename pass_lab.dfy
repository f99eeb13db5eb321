// `UMMonFHIR.process_lab_results`: one `MapperDMLab2Obs` reads and maps every
// selected laboratory result in turn; the valid Observations are collected in
// a list that is handed to a single `add_resources` call, so duplicate result
// ids are dropped across the whole pass.  The pass issues no cancellations.

module LabPass {
  import opened Common
  import opened Fhir
  import opened Store
  import opened Bundle
  import opened DbStats
  import opened PassRows
  import opened LabMapper

  // The names this pass hands to `get_ups_rm_num_fhir`.
  const LabName := "Obs_lab"

  /** One row of `f_med_lab_result`: the two keys as sent to the pseudonymizer, and the mapper's columns. */
  datatype LabRow = LabRow(patientId: string, encounterId: string, rec: LabRecord)

  datatype Context = Context(sys: Systems, converter: Option<Converter>, psn: Pseudonymizer,
                             valid: Observation -> bool)

  /** The observation list and the invalid counter after some rows. */
  datatype Run = Run(kept: seq<Observation>, invalid: nat)

  /** `res_stats` of the psql branch. */
  datatype Stats = Stats(validObs: nat, invalidObs: nat, upsObs: nat, rmObs: nat)

  /** What `read` followed by `map` returns for one row. */
  function LabObservationOf(ctx: Context, row: LabRow): Observation
  {
    ObservationOf(ctx.sys, LabData(ctx.psn.encounter(row.encounterId), ctx.psn.patient(row.patientId),
                                   Prepared(ctx.converter, row.rec)))
  }

  function Step(ctx: Context, s: Run, row: LabRow): Run
  {
    var o := LabObservationOf(ctx, row);
    if ctx.valid(o) then s.(kept := s.kept + [o]) else s.(invalid := s.invalid + 1)
  }

  /** The loop over all rows: every row is kept or counted invalid, never both. */
  function RunOf(ctx: Context, rows: seq<LabRow>): (s: Run)
    ensures |s.kept| + s.invalid == |rows|
  {
    if rows == [] then Run([], 0) else Step(ctx, RunOf(ctx, rows[..|rows| - 1]), rows[|rows| - 1])
  }

  function LabResources(obs: seq<Observation>): (rs: seq<Resource>)
    ensures |rs| == |obs| && forall i :: 0 <= i < |obs| ==> rs[i] == LabResource(obs[i])
  {
    seq(|obs|, i requires 0 <= i < |obs| => LabResource(obs[i]))
  }

  /** `process_lab_results` with a PostgreSQL destination. */
  method ProcessLabResults(ctx: Context, rows: seq<LabRow>, t: Table, ts: int, now: int)
    returns (stats: Stats, t': Table, ghost picks: seq<Option<nat>>)
    ensures var s := RunOf(ctx, rows);
            stats.validObs == |s.kept| && stats.invalidObs == s.invalid && |picks| == 0 &&
            t' == Deliver(t, EntriesOf(DedupById(LabResources(s.kept))), NoCancellations, now, picks)
    ensures (stats.upsObs, stats.rmObs) == UpsRmNum(LabName, ts, t')
  {
    var mapper := new LabMapper(ctx.sys, ctx.converter);
    var observations, invalid := CollectObservations(ctx, mapper, rows);
    t', picks := DeliverObservations(observations, t, now);
    var ups, rm := GetUpsRmNum(LabName, ts, t');
    stats := Stats(|observations|, invalid, ups, rm);
  }

  /** A fresh bundle, one `add_resources` call with the whole list, and `execute`. */
  method DeliverObservations(observations: seq<Observation>, t: Table, now: int)
    returns (t': Table, ghost picks: seq<Option<nat>>)
    ensures |picks| == 0 && t' == Deliver(t, EntriesOf(DedupById(LabResources(observations))), NoCancellations, now, picks)
  {
    var bundle := new FHIRBundle();
    bundle.AddResources(LabResources(observations));
    assert bundle.entries == [] + EntriesOf(DedupById(LabResources(observations))) == EntriesOf(DedupById(LabResources(observations)));
    t', picks := bundle.Execute(t, now);
  }

  /** The loop of `process_lab_results` over the rows: map each, keep the valid ones, count the others. */
  method CollectObservations(ctx: Context, mapper: LabMapper, rows: seq<LabRow>)
    returns (observations: seq<Observation>, invalid: nat)
    requires mapper.systems == ctx.sys && mapper.converter == ctx.converter
    modifies mapper
    ensures RunOf(ctx, rows) == Run(observations, invalid)
  {
    observations, invalid := [], 0;
    for i := 0 to |rows|
      invariant mapper.systems == ctx.sys && mapper.converter == ctx.converter
      invariant RunOf(ctx, rows[..i]) == Run(observations, invalid)
    {
      var row := rows[i];
      assert rows[..i + 1][..i] == rows[..i];
      var observation := MapRow(ctx, mapper, row);
      if ctx.valid(observation) {
        observations := observations + [observation];
      } else {
        invalid := invalid + 1;
      }
    }
    assert rows[..|rows|] == rows;
  }

  /** Pseudonymize the keys, then `read` and `map` the row with the pass's mapper. */
  method MapRow(ctx: Context, mapper: LabMapper, row: LabRow) returns (o: Observation)
    requires mapper.systems == ctx.sys && mapper.converter == ctx.converter
    modifies mapper
    ensures o == LabObservationOf(ctx, row)
  {
    var patientPsn := ctx.psn.patient(row.patientId);
    var encounterPsn := ctx.psn.encounter(row.encounterId);
    mapper.Read(encounterPsn, patientPsn, row.rec);
    var mapped := mapper.Map();
    o := mapped.value;
  }

  /** Every kept observation is valid and is what the mapper builds for one of the rows. */
  lemma {:induction false} KeptAreValidMappings(ctx: Context, rows: seq<LabRow>, o: Observation)
    requires o in RunOf(ctx, rows).kept
    ensures ctx.valid(o) && exists i :: 0 <= i < |rows| && o == LabObservationOf(ctx, rows[i])
  {
    var init := rows[..|rows| - 1];
    if o in RunOf(ctx, init).kept {
      KeptAreValidMappings(ctx, init, o);
      var i :| 0 <= i < |init| && o == LabObservationOf(ctx, init[i]);
      assert rows[i] == init[i];
    } else {
      assert o == LabObservationOf(ctx, rows[|rows| - 1]);
    }
  }

  /**
   * The bundle holds at most one entry per valid observation, one for each
   * when the valid observations have distinct result ids; `valid_obs` counts
   * the list, not the entries.
   */
  lemma EntriesAtMostValid(ctx: Context, rows: seq<LabRow>)
    ensures var kept := RunOf(ctx, rows).kept;
            |EntriesOf(DedupById(LabResources(kept)))| <= |kept|
    ensures var kept := RunOf(ctx, rows).kept;
            (forall i, j :: 0 <= i < j < |kept| ==> kept[i].id != kept[j].id) ==>
              |EntriesOf(DedupById(LabResources(kept)))| == |kept|
  {
    var rs := LabResources(RunOf(ctx, rows).kept);
    DedupShorter(rs);
    if forall i, j :: 0 <= i < j < |rs| ==> rs[i].id != rs[j].id {
      DedupDistinctIdentity(rs);
    }
  }

}
