// What the passes of `UMMonFHIR` share: the rows of the full outer join of
// updated records and cancellation records, the time window every query
// selects on, the pseudonymizer, and the entries that a sequence of
// `add_resources` calls leaves in a bundle.

module PassRows {
  import opened Common
  import opened Store
  import opened Bundle

  /**
   * One row of a pass query: the cancellation stamp `stdat`, the columns of
   * the updated record and the columns of the cancellation record.  In a
   * full outer join either side may be empty; the pass only looks at the side
   * its branch needs.
   */
  datatype JoinRow<U, D> = JoinRow(stdat: Option<string>, upsert: U, cancel: D)

  /** `not record.stdat`: the row takes the upsert branch. */
  predicate IsUpsert<U, D>(row: JoinRow<U, D>)
  {
    !Truthy(row.stdat)
  }

  /** The update columns of the rows that take the upsert branch, in order. */
  function Upserts<U, D>(rows: seq<JoinRow<U, D>>): (us: seq<U>)
    ensures |us| <= |rows|
  {
    if rows == [] then []
    else
      var last := rows[|rows| - 1];
      Upserts(rows[..|rows| - 1]) + (if IsUpsert(last) then [last.upsert] else [])
  }

  /** The cancellation columns of the rows that take the cancellation branch, in order. */
  function Cancels<U, D>(rows: seq<JoinRow<U, D>>): (ds: seq<D>)
    ensures |ds| <= |rows|
  {
    if rows == [] then []
    else
      var last := rows[|rows| - 1];
      Cancels(rows[..|rows| - 1]) + (if IsUpsert(last) then [] else [last.cancel])
  }

  /** One more row extends exactly one of the two branches. */
  lemma RowStep<U, D>(rows: seq<JoinRow<U, D>>, i: int)
    requires 0 <= i < |rows|
    ensures Upserts(rows[..i + 1]) == Upserts(rows[..i]) + (if IsUpsert(rows[i]) then [rows[i].upsert] else [])
    ensures Cancels(rows[..i + 1]) == Cancels(rows[..i]) + (if IsUpsert(rows[i]) then [] else [rows[i].cancel])
  {
    assert rows[..i + 1][..i] == rows[..i];
  }

  /** Every row takes exactly one of the two branches. */
  lemma {:induction false} BranchesPartition<U, D>(rows: seq<JoinRow<U, D>>)
    ensures |Upserts(rows)| + |Cancels(rows)| == |rows|
  {
    if rows != [] {
      BranchesPartition(rows[..|rows| - 1]);
    }
  }

  /** The pseudonymizer: a deterministic function of the text sent for a patient or an encounter key. */
  datatype Pseudonymizer = Pseudonymizer(patient: string -> string, encounter: string -> string)

  /** The bundle entries after these `add_resources` calls; each call de-duplicates only within itself. */
  function Added(calls: seq<seq<Resource>>): (es: seq<Entry>)
  {
    if calls == [] then [] else Added(calls[..|calls| - 1]) + EntriesOf(DedupById(calls[|calls| - 1]))
  }

  lemma AddedStep(calls: seq<seq<Resource>>, c: seq<Resource>)
    ensures Added(calls + [c]) == Added(calls) + EntriesOf(DedupById(c))
  {
    assert (calls + [c])[..|calls|] == calls;
  }

  /** `add_resources([r])` appends exactly the entry of `r`. */
  lemma SingleAdd(added: seq<Resource>, r: Resource)
    ensures EntriesOf(added) + EntriesOf(DedupById([r])) == EntriesOf(added + [r])
  {
    assert [r][..0] == [];
    assert DedupById([r]) == [r];
    EntriesOfAppend([], r);
    EntriesOfAppend(added, r);
  }

  /** `add_resources([r])` on a bundle that holds the entries of `added`. */
  method AddSingle(bundle: FHIRBundle, r: Resource, ghost added: seq<Resource>)
    requires bundle.Valid() && bundle.entries == EntriesOf(added)
    modifies bundle`entries
    ensures bundle.Valid() && bundle.canceled == old(bundle.canceled)
    ensures bundle.entries == EntriesOf(added + [r])
  {
    SingleAdd(added, r);
    bundle.AddResources([r]);
  }

  // ---------------------------------------------------------------------
  // The query window: every pass selects `start < stamp < end`.

  datatype Window = Window(start: int, end: int)

  predicate InWindow(w: Window, stamp: int)
  {
    w.start < stamp < w.end
  }

  /** The records a windowed query selects, in their original order. */
  function Within<R>(records: seq<R>, stamp: R -> int, w: Window): (sel: seq<R>)
    ensures |sel| <= |records|
    ensures forall r :: r in sel ==> r in records && InWindow(w, stamp(r))
  {
    if records == [] then []
    else
      var last := records[|records| - 1];
      Within(records[..|records| - 1], stamp, w) + (if InWindow(w, stamp(last)) then [last] else [])
  }

  /** Every record strictly inside the window is selected. */
  lemma {:induction false} WithinComplete<R>(records: seq<R>, stamp: R -> int, w: Window, r: R)
    requires r in records && InWindow(w, stamp(r))
    ensures r in Within(records, stamp, w)
  {
    var init := records[..|records| - 1];
    if r != records[|records| - 1] {
      assert r in init;
      WithinComplete(init, stamp, w, r);
    }
  }

  /**
   * Two adjacent windows (a, b) and (b, c): a record stamped at the shared
   * bound b is selected by neither; any other record strictly between a and
   * c is selected by exactly one.
   */
  lemma AdjacentWindows<R>(records: seq<R>, stamp: R -> int, a: int, b: int, c: int, r: R)
    requires r in records && a < b < c
    ensures stamp(r) == b ==> r !in Within(records, stamp, Window(a, b)) && r !in Within(records, stamp, Window(b, c))
    ensures a < stamp(r) < c && stamp(r) != b ==>
              (r in Within(records, stamp, Window(a, b)) <==> r !in Within(records, stamp, Window(b, c)))
  {
    if a < stamp(r) < b {
      WithinComplete(records, stamp, Window(a, b), r);
    } else if b < stamp(r) < c {
      WithinComplete(records, stamp, Window(b, c), r);
    }
  }
}
