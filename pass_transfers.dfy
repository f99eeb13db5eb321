// `UMMonFHIR.process_transfers`: each updated transfer row yields the
// dialysis and the intensive-care Observation of its case, each validated on
// its own; a cancelled transfer asks to remove `<psn>_icu` and `<psn>_dia`,
// ids the mapper never builds.

module TransferPass {
  import opened Common
  import opened Fhir
  import opened Store
  import opened Bundle
  import opened DbStats
  import opened PassRows
  import opened TransferMapper

  // The names this pass hands to `get_ups_rm_num_fhir`.
  const DialysisName := "Obs_dial"
  const IcuName := "Obs_icu"

  datatype TransferUpdate = TransferUpdate(encounterId: string, patientId: string, rec: TransferRecord)

  /** The cancellation side: `falnr_delete` of `q_nbew`, as text. */
  datatype TransferCancel = TransferCancel(falnr: string)

  type TransferRow = JoinRow<TransferUpdate, TransferCancel>

  datatype Context = Context(sys: Systems, psn: Pseudonymizer, valid: Observation -> bool)

  datatype Run = Run(added: seq<Resource>, removed: seq<string>, validDial: nat, invalidDial: nat,
                     validIcu: nat, invalidIcu: nat, rmReq: nat)

  /** `res_stats` of the psql branch. */
  datatype Stats = Stats(validDial: nat, invalidDial: nat, validIcu: nat, invalidIcu: nat, rmReqRes: nat,
                         upsDial: nat, rmDial: nat, upsIcu: nat, rmIcu: nat)

  function CancelIcuId(encPsn: string): string
  {
    encPsn + "_icu"
  }

  function CancelDialysisId(encPsn: string): string
  {
    encPsn + "_dia"
  }

  function ObservationsOf(ctx: Context, u: TransferUpdate): (obs: seq<Observation>)
    ensures |obs| == 2
  {
    MapTransfer(ctx.sys, ctx.psn.encounter(u.encounterId), ctx.psn.patient(u.patientId), u.rec)
  }

  /** The dialysis half of an update row. */
  function CountDialysis(ctx: Context, s: Run, o: Observation): Run
  {
    if ctx.valid(o) then s.(added := s.added + [TransferResource(o)], validDial := s.validDial + 1)
    else s.(invalidDial := s.invalidDial + 1)
  }

  /** The intensive-care half of an update row. */
  function CountIcu(ctx: Context, s: Run, o: Observation): Run
  {
    if ctx.valid(o) then s.(added := s.added + [TransferResource(o)], validIcu := s.validIcu + 1)
    else s.(invalidIcu := s.invalidIcu + 1)
  }

  function Step(ctx: Context, s: Run, row: TransferRow): Run
  {
    if IsUpsert(row) then
      var obs := ObservationsOf(ctx, row.upsert);
      CountIcu(ctx, CountDialysis(ctx, s, obs[0]), obs[1])
    else
      var encPsn := ctx.psn.encounter(row.cancel.falnr);
      s.(removed := s.removed + [CancelIcuId(encPsn), CancelDialysisId(encPsn)], rmReq := s.rmReq + 1)
  }

  /**
   * The loop over all rows: both observations of every update row are
   * counted, each as valid or invalid; every cancellation row is one request
   * and contributes its `_icu` and `_dia` ids, in that order.
   */
  function RunOf(ctx: Context, rows: seq<TransferRow>): (s: Run)
    ensures s.validDial + s.invalidDial == |Upserts(rows)| && s.validIcu + s.invalidIcu == |Upserts(rows)|
    ensures s.rmReq == |Cancels(rows)| && |s.removed| == 2 * s.rmReq
    ensures |s.added| == s.validDial + s.validIcu
  {
    if rows == [] then Run([], [], 0, 0, 0, 0, 0)
    else
      StepCounts(ctx, RunOf(ctx, rows[..|rows| - 1]), rows[|rows| - 1]);
      Step(ctx, RunOf(ctx, rows[..|rows| - 1]), rows[|rows| - 1])
  }

  /** An update row counts each observation once and adds the valid ones; a cancellation row is one request for two ids. */
  lemma StepCounts(ctx: Context, s: Run, row: TransferRow)
    ensures var s', u := Step(ctx, s, row), if IsUpsert(row) then 1 else 0;
            s'.validDial + s'.invalidDial == s.validDial + s.invalidDial + u &&
            s'.validIcu + s'.invalidIcu == s.validIcu + s.invalidIcu + u &&
            s'.rmReq == s.rmReq + 1 - u && |s'.removed| == |s.removed| + 2 * (1 - u) &&
            |s'.added| - |s.added| == s'.validDial - s.validDial + s'.validIcu - s.validIcu
  {
  }

  /** The cancelled ids are those of the cancellation rows, `_icu` then `_dia`, in row order. */
  lemma {:induction false} RunRemovesCancelIds(ctx: Context, rows: seq<TransferRow>)
    ensures RunOf(ctx, rows).removed == CancelIds(ctx, Cancels(rows))
  {
    if rows != [] {
      var init, last := rows[..|rows| - 1], rows[|rows| - 1];
      RunRemovesCancelIds(ctx, init);
      StepRemoved(ctx, RunOf(ctx, init), last);
      assert RunOf(ctx, rows) == Step(ctx, RunOf(ctx, init), last);
      assert Cancels(rows) == Cancels(init) + (if IsUpsert(last) then [] else [last.cancel]);
      if IsUpsert(last) {
        assert Cancels(rows) == Cancels(init) + [] == Cancels(init);
      } else {
        CancelIdsAppend(ctx, Cancels(init), last.cancel);
      }
    }
  }

  lemma StepRemoved(ctx: Context, s: Run, row: TransferRow)
    ensures var encPsn := ctx.psn.encounter(row.cancel.falnr);
            Step(ctx, s, row).removed ==
            if IsUpsert(row) then s.removed else s.removed + [CancelIcuId(encPsn), CancelDialysisId(encPsn)]
  {
  }

  /** Every added resource is an Observation sourced from SAP IS-H. */
  lemma {:induction false} RunAddsSapIshObservations(ctx: Context, rows: seq<TransferRow>)
    ensures forall r :: r in RunOf(ctx, rows).added ==> r.resType == "Observation" && r.body.source == Some(SapIsh)
  {
    if rows != [] {
      RunAddsSapIshObservations(ctx, rows[..|rows| - 1]);
      StepAddsSapIshObservations(ctx, RunOf(ctx, rows[..|rows| - 1]), rows[|rows| - 1]);
    }
  }

  /** One row adds only SAP IS-H Observations. */
  lemma StepAddsSapIshObservations(ctx: Context, s: Run, row: TransferRow)
    ensures forall r :: r in Step(ctx, s, row).added ==>
              r in s.added || (r.resType == "Observation" && r.body.source == Some(SapIsh))
  {
    if IsUpsert(row) {
      MapTransferSapIsh(ctx, row.upsert);
    }
  }

  lemma MapTransferSapIsh(ctx: Context, u: TransferUpdate)
    ensures forall o :: o in ObservationsOf(ctx, u) ==> o.source == SapIsh
  {
  }

  /** The ids the cancellation rows ask to remove: `_icu` then `_dia` for each, in row order. */
  function CancelIds(ctx: Context, ds: seq<TransferCancel>): (ids: seq<string>)
    ensures |ids| == 2 * |ds|
  {
    if ds == [] then []
    else
      var encPsn := ctx.psn.encounter(ds[|ds| - 1].falnr);
      CancelIds(ctx, ds[..|ds| - 1]) + [CancelIcuId(encPsn), CancelDialysisId(encPsn)]
  }

  lemma CancelIdsAppend(ctx: Context, ds: seq<TransferCancel>, d: TransferCancel)
    ensures var encPsn := ctx.psn.encounter(d.falnr);
            CancelIds(ctx, ds + [d]) == CancelIds(ctx, ds) + [CancelIcuId(encPsn), CancelDialysisId(encPsn)]
  {
    assert (ds + [d])[..|ds|] == ds;
  }

  /** The two ids of the i-th cancellation row sit at positions 2i and 2i+1. */
  lemma {:induction false} CancelIdsAt(ctx: Context, ds: seq<TransferCancel>, i: int)
    requires 0 <= i < |ds|
    ensures var encPsn := ctx.psn.encounter(ds[i].falnr);
            CancelIds(ctx, ds)[2 * i] == CancelIcuId(encPsn) && CancelIds(ctx, ds)[2 * i + 1] == CancelDialysisId(encPsn)
  {
    if i < |ds| - 1 {
      CancelIdsAt(ctx, ds[..|ds| - 1], i);
    }
  }

  function Cancelled(removed: seq<string>): (m: map<string, seq<string>>)
    ensures WellKeyed(m) && m["Observation"] == removed
  {
    NoCancellations["Observation" := removed]
  }

  /** `process_transfers` with a PostgreSQL destination. */
  method ProcessTransfers(ctx: Context, rows: seq<TransferRow>, t: Table, ts: int, now: int)
    returns (stats: Stats, t': Table, ghost picks: seq<Option<nat>>)
    ensures var s := RunOf(ctx, rows);
            stats.validDial == s.validDial && stats.invalidDial == s.invalidDial &&
            stats.validIcu == s.validIcu && stats.invalidIcu == s.invalidIcu && stats.rmReqRes == s.rmReq &&
            |picks| == 0 && t' == Deliver(t, EntriesOf(s.added), Cancelled(s.removed), now, picks)
    ensures (stats.upsDial, stats.rmDial) == UpsRmNum(DialysisName, ts, t')
    ensures (stats.upsIcu, stats.rmIcu) == UpsRmNum(IcuName, ts, t')
  {
    var bundle := new FHIRBundle();
    var validDial, invalidDial, validIcu, invalidIcu, rmReq := 0, 0, 0, 0, 0;
    for i := 0 to |rows|
      invariant bundle.Valid()
      invariant var s := RunOf(ctx, rows[..i]);
                bundle.entries == EntriesOf(s.added) && bundle.canceled == Cancelled(s.removed) &&
                validDial == s.validDial && invalidDial == s.invalidDial &&
                validIcu == s.validIcu && invalidIcu == s.invalidIcu && rmReq == s.rmReq
    {
      PrefixStep(ctx, rows, i);
      validDial, invalidDial, validIcu, invalidIcu, rmReq :=
        ProcessRow(ctx, bundle, rows[i], validDial, invalidDial, validIcu, invalidIcu, rmReq, RunOf(ctx, rows[..i]));
    }
    assert rows[..|rows|] == rows;
    t', picks := bundle.Execute(t, now);
    var upsDial, rmDial := GetUpsRmNum(DialysisName, ts, t');
    var upsIcu, rmIcu := GetUpsRmNum(IcuName, ts, t');
    stats := Stats(validDial, invalidDial, validIcu, invalidIcu, rmReq, upsDial, rmDial, upsIcu, rmIcu);
  }

  /** One row of the loop: the update branch or the cancellation branch, with its counters. */
  method ProcessRow(ctx: Context, bundle: FHIRBundle, row: TransferRow,
                    validDial: nat, invalidDial: nat, validIcu: nat, invalidIcu: nat, rmReq: nat, ghost s: Run)
    returns (validDial': nat, invalidDial': nat, validIcu': nat, invalidIcu': nat, rmReq': nat)
    requires bundle.Valid() && bundle.entries == EntriesOf(s.added) && bundle.canceled == Cancelled(s.removed)
    requires validDial == s.validDial && invalidDial == s.invalidDial && validIcu == s.validIcu &&
             invalidIcu == s.invalidIcu && rmReq == s.rmReq
    modifies bundle
    ensures var s' := Step(ctx, s, row);
            bundle.Valid() && bundle.entries == EntriesOf(s'.added) && bundle.canceled == Cancelled(s'.removed) &&
            validDial' == s'.validDial && invalidDial' == s'.invalidDial && validIcu' == s'.validIcu &&
            invalidIcu' == s'.invalidIcu && rmReq' == s'.rmReq
  {
    validDial', invalidDial', validIcu', invalidIcu', rmReq' := validDial, invalidDial, validIcu, invalidIcu, rmReq;
    if !Truthy(row.stdat) {
      var dial, icu := AddObservations(ctx, bundle, row.upsert, s);
      if dial { validDial' := validDial + 1; } else { invalidDial' := invalidDial + 1; }
      if icu { validIcu' := validIcu + 1; } else { invalidIcu' := invalidIcu + 1; }
    } else {
      CancelObservations(ctx, bundle, row.cancel, s.removed);
      rmReq' := rmReq + 1;
    }
  }

  /**
   * The update branch of one row: map, validate and add the dialysis
   * observation, then the intensive-care one; `dial` and `icu` say which of
   * the two were valid.
   */
  method AddObservations(ctx: Context, bundle: FHIRBundle, u: TransferUpdate, ghost s: Run) returns (dial: bool, icu: bool)
    requires bundle.Valid() && bundle.entries == EntriesOf(s.added)
    modifies bundle`entries
    ensures bundle.Valid() && bundle.canceled == old(bundle.canceled)
    ensures var obs := ObservationsOf(ctx, u);
            dial == ctx.valid(obs[0]) && icu == ctx.valid(obs[1]) &&
            bundle.entries == EntriesOf(CountIcu(ctx, CountDialysis(ctx, s, obs[0]), obs[1]).added)
  {
    var patientPsn := ctx.psn.patient(u.patientId);
    var encounterPsn := ctx.psn.encounter(u.encounterId);
    var obs := MapTransfer(ctx.sys, encounterPsn, patientPsn, u.rec);
    var dialysis, intensive := obs[0], obs[1];
    dial := ctx.valid(dialysis);
    if dial {
      SingleAdd(s.added, TransferResource(dialysis));
      bundle.AddResources([TransferResource(dialysis)]);
    }
    ghost var mid := CountDialysis(ctx, s, dialysis);
    icu := ctx.valid(intensive);
    if icu {
      SingleAdd(mid.added, TransferResource(intensive));
      bundle.AddResources([TransferResource(intensive)]);
    }
  }

  /** The cancellation branch of one row: ask to remove the `_icu` and the `_dia` observation of the case. */
  method CancelObservations(ctx: Context, bundle: FHIRBundle, d: TransferCancel, ghost removed: seq<string>)
    requires bundle.Valid() && bundle.canceled == Cancelled(removed)
    modifies bundle
    ensures bundle.Valid() && bundle.entries == old(bundle.entries)
    ensures var encPsn := ctx.psn.encounter(d.falnr);
            bundle.canceled == Cancelled(removed + [CancelIcuId(encPsn), CancelDialysisId(encPsn)])
  {
    var encounterPsn := ctx.psn.encounter(d.falnr);
    CancelledAppend(removed, CancelIcuId(encounterPsn));
    var _ := bundle.RmResources("Observation", encounterPsn + "_icu");
    CancelledAppend(removed + [CancelIcuId(encounterPsn)], CancelDialysisId(encounterPsn));
    var _ := bundle.RmResources("Observation", encounterPsn + "_dia");
    assert removed + [CancelIcuId(encounterPsn)] + [CancelDialysisId(encounterPsn)] ==
           removed + [CancelIcuId(encounterPsn), CancelDialysisId(encounterPsn)];
  }

  lemma PrefixStep(ctx: Context, rows: seq<TransferRow>, i: int)
    requires 0 <= i < |rows|
    ensures RunOf(ctx, rows[..i + 1]) == Step(ctx, RunOf(ctx, rows[..i]), rows[i])
  {
    assert rows[..i + 1][..i] == rows[..i];
  }

  lemma CancelledAppend(removed: seq<string>, id: string)
    ensures Cancelled(removed)["Observation" := Cancelled(removed)["Observation"] + [id]] == Cancelled(removed + [id])
  {
  }

  /**
   * The cancellation ids end in "_icu" and "_dia" while the mapper's ids end
   * in "-icu" and "-dia": whatever the pseudonyms, a cancellation never names
   * an observation this pass creates.
   */
  lemma CancelIdsNeverMapped(ctx: Context, u: TransferUpdate, d: TransferCancel)
    ensures forall o :: o in ObservationsOf(ctx, u) ==>
              o.id != CancelIcuId(ctx.psn.encounter(d.falnr)) && o.id != CancelDialysisId(ctx.psn.encounter(d.falnr))
  {
    var obs := ObservationsOf(ctx, u);
    var mapped := ctx.psn.encounter(u.encounterId);
    var cancelled := ctx.psn.encounter(d.falnr);
    DifferentSuffixes(mapped, cancelled, "-dia", "_icu");
    DifferentSuffixes(mapped, cancelled, "-dia", "_dia");
    DifferentSuffixes(mapped, cancelled, "-icu", "_icu");
    DifferentSuffixes(mapped, cancelled, "-icu", "_dia");
    assert obs == [obs[0], obs[1]];
  }
}
