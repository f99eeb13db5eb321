// The concatenated record text the lung-function mappers hash into ids.
// `read` appends `str()` of every column value of the examination record in
// column order; the Observation and Procedure mappers skip the source-year
// column, the DiagnosticReport mapper does not.

module LufuRecord {
  import opened Common

  /** One column of the examination record with its `str()` rendering. */
  datatype Field = Field(column: string, rendered: string)

  const SourceYear := "quelldatenjahr"

  /** The joined renderings, in column order, optionally without the source-year column. */
  function Joined(fields: seq<Field>, skipYear: bool): (s: string)
  {
    if fields == [] then ""
    else
      var last := fields[|fields| - 1];
      Joined(fields[..|fields| - 1], skipYear) + (if skipYear && last.column == SourceYear then "" else last.rendered)
  }

  /** The total length of the source-year renderings. */
  function YearLength(fields: seq<Field>): nat
  {
    if fields == [] then 0
    else
      var last := fields[|fields| - 1];
      YearLength(fields[..|fields| - 1]) + (if last.column == SourceYear then |last.rendered| else 0)
  }

  /** The loop of `read` over the record's items. */
  method JoinFields(fields: seq<Field>, skipYear: bool) returns (s: string)
    ensures s == Joined(fields, skipYear)
  {
    s := "";
    for i := 0 to |fields|
      invariant s == Joined(fields[..i], skipYear)
    {
      assert fields[..i + 1][..i] == fields[..i];
      if !(skipYear && fields[i].column == SourceYear) {
        s := s + fields[i].rendered;
      }
    }
    assert fields[..|fields|] == fields;
  }

  /** With the source year skipped, records that differ only in that column give the same text. */
  lemma {:induction false} YearIgnored(a: seq<Field>, b: seq<Field>)
    requires |a| == |b|
    requires forall i :: 0 <= i < |a| ==> a[i].column == b[i].column
    requires forall i :: 0 <= i < |a| ==> a[i].column != SourceYear ==> a[i].rendered == b[i].rendered
    ensures Joined(a, true) == Joined(b, true)
  {
    if a != [] {
      YearIgnored(a[..|a| - 1], b[..|b| - 1]);
    }
  }

  /** Without a source-year column both renderings agree. */
  lemma {:induction false} NoYearColumn(fields: seq<Field>)
    requires forall i :: 0 <= i < |fields| ==> fields[i].column != SourceYear
    ensures Joined(fields, true) == Joined(fields, false)
  {
    if fields != [] {
      NoYearColumn(fields[..|fields| - 1]);
    }
  }

  /** A non-empty source-year rendering makes the unskipped text strictly longer. */
  lemma {:induction false} YearCounted(fields: seq<Field>, i: int)
    requires 0 <= i < |fields| && fields[i].column == SourceYear && fields[i].rendered != ""
    ensures Joined(fields, true) != Joined(fields, false)
  {
    YearLengthPositive(fields, i);
    JoinedLength(fields);
  }

  /** The unskipped text is longer by exactly the source-year renderings. */
  lemma {:induction false} JoinedLength(fields: seq<Field>)
    ensures |Joined(fields, false)| == |Joined(fields, true)| + YearLength(fields)
  {
    if fields != [] {
      JoinedLength(fields[..|fields| - 1]);
    }
  }

  lemma {:induction false} YearLengthPositive(fields: seq<Field>, i: int)
    requires 0 <= i < |fields| && fields[i].column == SourceYear && fields[i].rendered != ""
    ensures YearLength(fields) > 0
  {
    if i < |fields| - 1 {
      YearLengthPositive(fields[..|fields| - 1], i);
    }
  }
}
