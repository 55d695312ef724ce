/**
 * The header-to-column map both CSV ingestion loops build, and how a row's
 * cell is looked up through it.
 */
module CsvColumns {
  import opened Common

  /**
   * The map the header loop leaves behind: every header name, sent to the
   * position of its last occurrence.
   */
  function ColumnIndex(headers: seq<string>): (m: map<string, nat>)
    ensures m.Keys == set h | h in headers
    ensures forall h :: h in m ==> m[h] < |headers| && headers[m[h]] == h
    ensures forall h, j :: h in m && m[h] < j < |headers| ==> headers[j] != h
  {
    if |headers| == 0 then map[]
    else
      var init := headers[..|headers| - 1];
      assert headers == init + [headers[|headers| - 1]];
      ColumnIndex(init)[headers[|headers| - 1] := |headers| - 1]
  }

  /** The header loop: `colIdx[col] = i` for each header in turn. */
  method BuildColumnIndex(headers: seq<string>) returns (colIdx: map<string, nat>)
    ensures colIdx == ColumnIndex(headers)
  {
    colIdx := map[];
    var i := 0;
    while i < |headers|
      invariant 0 <= i <= |headers|
      invariant colIdx == ColumnIndex(headers[..i])
    {
      assert headers[..i + 1][..i] == headers[..i];
      colIdx := colIdx[headers[i] := i];
      i := i + 1;
    }
    assert headers[..i] == headers;
  }

  /** A map lookup in Go: an absent name reads as the zero value, column 0. */
  function Lookup(colIdx: map<string, nat>, name: string): (i: nat)
    ensures name in colIdx ==> i == colIdx[name]
    ensures name !in colIdx ==> i == 0
  {
    if name in colIdx then colIdx[name] else 0
  }

  /** `row[i]`: `None` stands for the index-out-of-range panic. */
  function Cell(row: Row, i: nat): (r: Option<string>)
    ensures r.Some? <==> i < |row|
    ensures r.Some? ==> r.value == row[i]
  {
    if i < |row| then Some(row[i]) else None
  }

  /**
   * A required column missing from the header is not an error: it silently
   * reads the row's first cell.
   */
  lemma MissingColumnReadsFirstCell(headers: seq<string>, row: Row, name: string)
    requires name !in headers && |row| > 0
    ensures Cell(row, Lookup(ColumnIndex(headers), name)) == Some(row[0])
  {
  }

  /** A name that occurs twice in the header is read from its later column. */
  lemma DuplicateHeaderReadsLast(headers: seq<string>, i: nat, j: nat)
    requires i < j < |headers| && headers[i] == headers[j]
    ensures Lookup(ColumnIndex(headers), headers[i]) != i
  {
  }

  /** The library parsers, whose results are used whether or not they failed. */
  datatype Parsers = Parsers(parseUuid: string -> Uuid, parseFloat: string -> real, atoi: string -> int)
}
