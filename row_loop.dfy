/**
 * What a CSV ingestion run does with its rows, stated once for both loops:
 * the fate of each row, the progress the loop accumulates, where the batch
 * reader stops, and whether the side file of invalid rows is written.
 */
module RowLoop {
  import opened Common
  import opened OrderStore
  import opened EventProducer

  /** What the batch reader returns on one call. */
  datatype Batch = Rows(rows: seq<Row>) | ReadError

  /** The reader as opened: a failure at one of the three opening steps, or the header and the batches up to end of file. */
  datatype CsvSource =
    | ReaderCreateError
    | ReaderInitError
    | HeaderError
    | Opened(headers: seq<string>, batches: seq<Batch>)

  /** The rows the loop sees: every batch up to the first read error. */
  function ReadableRows(batches: seq<Batch>): (r: seq<Row>) {
    if |batches| == 0 then []
    else match batches[0]
      case ReadError => []
      case Rows(rows) => rows + ReadableRows(batches[1..])
  }

  /** All rows of batches that were read, in order. */
  function Concat(batches: seq<Batch>): (r: seq<Row>)
    requires forall j :: 0 <= j < |batches| ==> batches[j].Rows?
  {
    if |batches| == 0 then []
    else Concat(batches[..|batches| - 1]) + batches[|batches| - 1].rows
  }

  /** One more batch read. */
  lemma ConcatNext(batches: seq<Batch>, b: nat)
    requires b < |batches| && forall j :: 0 <= j <= b ==> batches[j].Rows?
    ensures Concat(batches[..b + 1]) == Concat(batches[..b]) + batches[b].rows
  {
    assert batches[..b + 1][..b] == batches[..b];
  }

  /**
   * Up to the first read error, the readable rows are the concatenation of
   * the batches read so far followed by what the rest yields.
   */
  lemma {:induction false} ReadableSplit(batches: seq<Batch>, b: nat)
    requires b <= |batches| && forall j :: 0 <= j < b ==> batches[j].Rows?
    ensures ReadableRows(batches) == Concat(batches[..b]) + ReadableRows(batches[b..])
  {
    if b > 0 {
      ReadableSplit(batches, b - 1);
      var pre := batches[..b];
      assert pre[..b - 1] == batches[..b - 1];
      assert batches[b - 1..][1..] == batches[b..];
    }
  }

  /** A batch that was read contributes its rows, then the batches after it follow. */
  lemma ReadableNext(batches: seq<Batch>, b: nat)
    requires b < |batches| && batches[b].Rows?
    ensures ReadableRows(batches[b..]) == batches[b].rows + ReadableRows(batches[b + 1..])
  {
    assert batches[b..][0] == batches[b] && batches[b..][1..] == batches[b + 1..];
  }

  /** A read error ends the rows: nothing after it is ever seen. */
  lemma ReadErrorStops(batches: seq<Batch>, b: nat)
    requires b < |batches| && batches[b].ReadError? && forall j :: 0 <= j < b ==> batches[j].Rows?
    ensures ReadableRows(batches) == Concat(batches[..b])
  {
    ReadableSplit(batches, b);
  }

  /** Without a read error, every row of every batch is seen. */
  lemma AllBatchesRead(batches: seq<Batch>)
    requires forall j :: 0 <= j < |batches| ==> batches[j].Rows?
    ensures ReadableRows(batches) == Concat(batches)
  {
    ReadableSplit(batches, |batches|);
    assert batches[..|batches|] == batches;
  }

  /** How one row ends. */
  datatype Fate =
    | IndexPanic                                   // a column index was out of range
    | Rejected                                     // validation or insert failed
    | Saved(order: Order, outcome: PublishOutcome) // inserted, then published

  /** The loop's state: invalid rows, inserted documents, events, and whether it panicked. */
  datatype Progress = Progress(invalid: seq<Row>, inserted: seq<Document>, messages: seq<Message>, panicked: bool)

  const Start: Progress := Progress([], [], [], false)

  /** One row; a panic ends the run, so later rows change nothing. */
  function Step(p: Progress, row: Row, fate: Fate): (q: Progress) {
    if p.panicked then p
    else match fate
      case IndexPanic => p.(panicked := true)
      case Rejected => p.(invalid := p.invalid + [row])
      case Saved(o, outcome) =>
        Progress(p.invalid, p.inserted + [Document(o, true)],
                 p.messages + (if outcome == Delivered then [BuildMessage(o)] else []),
                 outcome == PublishPanicked)
  }

  /** What one step before any panic adds to each part of the progress. */
  lemma StepEffects(p: Progress, row: Row, fate: Fate)
    requires !p.panicked
    ensures Step(p, row, fate).invalid == p.invalid + (if fate.Rejected? then [row] else [])
    ensures Step(p, row, fate).inserted == p.inserted + (if fate.Saved? then [Document(fate.order, true)] else [])
    ensures Step(p, row, fate).messages ==
              p.messages + (if fate.Saved? && fate.outcome == Delivered then [BuildMessage(fate.order)] else [])
    ensures Step(p, row, fate).panicked <==> fate.IndexPanic? || (fate.Saved? && fate.outcome == PublishPanicked)
  {
  }

  function Run(rows: seq<Row>, fateOf: Row -> Fate): (p: Progress) {
    if |rows| == 0 then Start
    else Step(Run(rows[..|rows| - 1], fateOf), rows[|rows| - 1], fateOf(rows[|rows| - 1]))
  }

  lemma RunSnoc(rows: seq<Row>, row: Row, fateOf: Row -> Fate)
    ensures Run(rows + [row], fateOf) == Step(Run(rows, fateOf), row, fateOf(row))
  {
    assert (rows + [row])[..|rows|] == rows;
  }

  /** The run over the first `i + 1` rows of `records` after `prefix` is one step past the first `i`. */
  lemma RowSnoc(prefix: seq<Row>, records: seq<Row>, i: nat, fateOf: Row -> Fate)
    requires i < |records|
    ensures Run(prefix + records[..i + 1], fateOf) == Step(Run(prefix + records[..i], fateOf), records[i], fateOf(records[i]))
  {
    assert prefix + records[..i + 1] == (prefix + records[..i]) + [records[i]];
    RunSnoc(prefix + records[..i], records[i], fateOf);
  }

  /** Once the run has panicked, no further row has any effect. */
  lemma {:induction false} PanicAbsorbs(xs: seq<Row>, ys: seq<Row>, fateOf: Row -> Fate)
    requires Run(xs, fateOf).panicked
    ensures Run(xs + ys, fateOf) == Run(xs, fateOf)
  {
    if |ys| > 0 {
      var init := ys[..|ys| - 1];
      PanicAbsorbs(xs, init, fateOf);
      assert xs + ys == (xs + init) + [ys[|ys| - 1]];
      RunSnoc(xs + init, ys[|ys| - 1], fateOf);
    } else {
      assert xs + ys == xs;
    }
  }

  /**
   * A panic on row `i` of batch `b` is where the whole run ends: the rows
   * after it, in this batch and in later ones, are never processed.
   */
  lemma PanicEndsRun(batches: seq<Batch>, b: nat, i: nat, seen: seq<Row>, fateOf: Row -> Fate)
    requires b < |batches| && batches[b].Rows? && forall j :: 0 <= j < b ==> batches[j].Rows?
    requires seen == Concat(batches[..b]) && i < |batches[b].rows|
    requires Run(seen + batches[b].rows[..i + 1], fateOf).panicked
    ensures Run(ReadableRows(batches), fateOf) == Run(seen + batches[b].rows[..i + 1], fateOf)
  {
    var records := batches[b].rows;
    ReadableSplit(batches, b);
    ReadableNext(batches, b);
    assert ReadableRows(batches) == seen + (records + ReadableRows(batches[b + 1..]));
    PanicInside(seen, records, ReadableRows(batches[b + 1..]), i, fateOf);
  }

  /** A panic at row `i` of a batch hides the rest of that batch and everything after it. */
  lemma PanicInside(seen: seq<Row>, records: seq<Row>, rest: seq<Row>, i: nat, fateOf: Row -> Fate)
    requires i < |records| && Run(seen + records[..i + 1], fateOf).panicked
    ensures Run(seen + (records + rest), fateOf) == Run(seen + records[..i + 1], fateOf)
  {
    assert records == records[..i + 1] + records[i + 1..];
    assert seen + (records + rest) == (seen + records[..i + 1]) + (records[i + 1..] + rest);
    PanicAbsorbs(seen + records[..i + 1], records[i + 1..] + rest, fateOf);
  }

  /** A row that does not stop the run. */
  predicate Completes(f: Fate) {
    f.Rejected? || (f.Saved? && f.outcome != PublishPanicked)
  }

  /** The rows rejected, as an independent filter over the input. */
  function RejectedRows(rows: seq<Row>, fateOf: Row -> Fate): (r: seq<Row>) {
    if |rows| == 0 then []
    else (if fateOf(rows[0]).Rejected? then [rows[0]] else []) + RejectedRows(rows[1..], fateOf)
  }

  /** The documents inserted, as an independent filter over the input. */
  function SavedDocuments(rows: seq<Row>, fateOf: Row -> Fate): (r: seq<Document>) {
    if |rows| == 0 then []
    else (if fateOf(rows[0]).Saved? then [Document(fateOf(rows[0]).order, true)] else [])
         + SavedDocuments(rows[1..], fateOf)
  }

  /** The events published, as an independent filter over the input. */
  function Events(rows: seq<Row>, fateOf: Row -> Fate): (r: seq<Message>) {
    if |rows| == 0 then []
    else (if fateOf(rows[0]).Saved? && fateOf(rows[0]).outcome == Delivered
          then [BuildMessage(fateOf(rows[0]).order)] else [])
         + Events(rows[1..], fateOf)
  }

  lemma RejectedRowsSnoc(rows: seq<Row>, row: Row, fateOf: Row -> Fate)
    ensures RejectedRows(rows + [row], fateOf) ==
            RejectedRows(rows, fateOf) + (if fateOf(row).Rejected? then [row] else [])
  {
    if |rows| > 0 {
      assert (rows + [row])[1..] == rows[1..] + [row];
      RejectedRowsSnoc(rows[1..], row, fateOf);
    }
  }

  lemma SavedDocumentsSnoc(rows: seq<Row>, row: Row, fateOf: Row -> Fate)
    ensures SavedDocuments(rows + [row], fateOf) ==
            SavedDocuments(rows, fateOf) + (if fateOf(row).Saved? then [Document(fateOf(row).order, true)] else [])
  {
    if |rows| > 0 {
      assert (rows + [row])[1..] == rows[1..] + [row];
      SavedDocumentsSnoc(rows[1..], row, fateOf);
    }
  }

  lemma EventsSnoc(rows: seq<Row>, row: Row, fateOf: Row -> Fate)
    ensures Events(rows + [row], fateOf) ==
            Events(rows, fateOf) +
            (if fateOf(row).Saved? && fateOf(row).outcome == Delivered then [BuildMessage(fateOf(row).order)] else [])
  {
    if |rows| > 0 {
      assert (rows + [row])[1..] == rows[1..] + [row];
      EventsSnoc(rows[1..], row, fateOf);
    }
  }

  /**
   * A run in which no row panics keeps every rejected row, raw and in input
   * order, inserts every saved order and publishes every delivered event,
   * in input order.
   */
  lemma {:induction false} RunWithoutPanic(rows: seq<Row>, fateOf: Row -> Fate)
    requires forall i :: 0 <= i < |rows| ==> Completes(fateOf(rows[i]))
    ensures Run(rows, fateOf) ==
            Progress(RejectedRows(rows, fateOf), SavedDocuments(rows, fateOf), Events(rows, fateOf), false)
  {
    if |rows| > 0 {
      var init := rows[..|rows| - 1];
      var last := rows[|rows| - 1];
      assert rows == init + [last];
      RunWithoutPanic(init, fateOf);
      RejectedRowsSnoc(init, last, fateOf);
      SavedDocumentsSnoc(init, last, fateOf);
      EventsSnoc(init, last, fateOf);
    }
  }

  /**
   * Every row ends in exactly one way: in a run that did not panic each row
   * is either an invalid row or an inserted order, never both.
   */
  lemma {:induction false} EachRowOnce(rows: seq<Row>, fateOf: Row -> Fate)
    requires !Run(rows, fateOf).panicked
    ensures |Run(rows, fateOf).invalid| + |Run(rows, fateOf).inserted| == |rows|
    ensures |Run(rows, fateOf).messages| <= |Run(rows, fateOf).inserted|
  {
    if |rows| > 0 {
      var init := rows[..|rows| - 1];
      EachRowOnce(init, fateOf);
    }
  }

  /** How the loop's caller sees the run end. */
  datatype ParseResult = Returned(error: Option<CsvError>) | Panicked

  datatype CsvError =
    | ReaderCreateFailed
    | ReaderInitFailed
    | HeaderReadFailed
    | WriterCreateFailed
    | WriterInitFailed
    | WriteFailed

  /** The side-file writer's oracle: which step, if any, fails. */
  datatype WriterFault = NoFault | CreateFails | InitFails | WriteFails

  /** The side file of invalid rows: the input header, then the rows. */
  datatype CsvFile = CsvFile(headers: seq<string>, rows: seq<Row>)

  function OpenError(source: CsvSource): (e: CsvError)
    requires !source.Opened?
  {
    match source
    case ReaderCreateError => ReaderCreateFailed
    case ReaderInitError => ReaderInitFailed
    case HeaderError => HeaderReadFailed
  }

  function WriterError(writer: WriterFault): (e: Option<CsvError>) {
    match writer
    case NoFault => None
    case CreateFails => Some(WriterCreateFailed)
    case InitFails => Some(WriterInitFailed)
    case WriteFails => Some(WriteFailed)
  }

  /** The return value after the loop: only the writer can fail it. */
  function ResultOf(p: Progress, writer: WriterFault): (r: ParseResult) {
    if p.panicked then Panicked
    else if |p.invalid| == 0 then Returned(None)
    else Returned(WriterError(writer))
  }

  /** The side file, present only when there were invalid rows and the writer succeeded. */
  function SideFileOf(headers: seq<string>, p: Progress, writer: WriterFault): (f: Option<CsvFile>) {
    if !p.panicked && |p.invalid| > 0 && writer == NoFault then Some(CsvFile(headers, p.invalid)) else None
  }

  /**
   * The side file is written exactly when at least one row was invalid and
   * the writer did not fail; it then holds the input header and the invalid
   * rows. Otherwise, a run without panic returns no error at all, and with
   * invalid rows it returns only the writer's error.
   */
  lemma SideFileIff(headers: seq<string>, p: Progress, writer: WriterFault)
    ensures SideFileOf(headers, p, writer).Some? <==> !p.panicked && |p.invalid| > 0 && writer == NoFault
    ensures SideFileOf(headers, p, writer).Some? ==> SideFileOf(headers, p, writer).value == CsvFile(headers, p.invalid)
    ensures !p.panicked && |p.invalid| == 0 ==> ResultOf(p, writer) == Returned(None)
    ensures ResultOf(p, writer) == Returned(None) <==> !p.panicked && (|p.invalid| == 0 || writer == NoFault)
    ensures ResultOf(p, writer).Returned? && ResultOf(p, writer).error.Some? ==>
              ResultOf(p, writer).error.value in {WriterCreateFailed, WriterInitFailed, WriteFailed}
  {
  }
}
