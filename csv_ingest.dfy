/**
 * `ParseCSV` of the newer ingestion path: build the column map, walk the
 * batches, validate, save and publish each row, collect the rows that fail,
 * and write them to a side file.
 */
module CsvIngest {
  import opened Common
  import opened OrderStore
  import opened OrderValidation
  import opened EventProducer
  import opened CsvColumns
  import opened RowLoop

  /** Every column the row is read from lies inside the row. */
  predicate CellsPresent(colIdx: map<string, nat>, row: Row) {
    Lookup(colIdx, "order_id") < |row| && Lookup(colIdx, "sku_id") < |row| &&
    Lookup(colIdx, "hub_id") < |row| && Lookup(colIdx, "seller_id") < |row| &&
    Lookup(colIdx, "tenant_id") < |row| && Lookup(colIdx, "price") < |row| &&
    Lookup(colIdx, "quantity") < |row|
  }

  /**
   * The order record built from one row; `None` when a column index lies
   * past the end of the row, which panics. Parse errors are discarded, and
   * the status is left empty.
   */
  function BuildOrder(colIdx: map<string, nat>, parsers: Parsers, row: Row): (r: Option<Order>)
    ensures r.Some? <==> CellsPresent(colIdx, row)
    ensures r.Some? ==>
              r.value.orderId == parsers.parseUuid(row[Lookup(colIdx, "order_id")]) &&
              r.value.tenantId == parsers.parseUuid(row[Lookup(colIdx, "tenant_id")]) &&
              r.value.skuId == parsers.parseUuid(row[Lookup(colIdx, "sku_id")]) &&
              r.value.hubId == parsers.parseUuid(row[Lookup(colIdx, "hub_id")]) &&
              r.value.sellerId == parsers.parseUuid(row[Lookup(colIdx, "seller_id")]) &&
              r.value.quantity == parsers.atoi(row[Lookup(colIdx, "quantity")]) &&
              r.value.price == parsers.parseFloat(row[Lookup(colIdx, "price")]) &&
              r.value.status == ""
  {
    if CellsPresent(colIdx, row) then
      Some(Order(
        orderId := parsers.parseUuid(row[Lookup(colIdx, "order_id")]),
        skuId := parsers.parseUuid(row[Lookup(colIdx, "sku_id")]),
        hubId := parsers.parseUuid(row[Lookup(colIdx, "hub_id")]),
        sellerId := parsers.parseUuid(row[Lookup(colIdx, "seller_id")]),
        tenantId := parsers.parseUuid(row[Lookup(colIdx, "tenant_id")]),
        quantity := parsers.atoi(row[Lookup(colIdx, "quantity")]),
        price := parsers.parseFloat(row[Lookup(colIdx, "price")]),
        status := ""))
    else None
  }

  /** How one row ends, given the oracles of the inventory master, the store and the producer. */
  function RowFate(colIdx: map<string, nat>, parsers: Parsers, ims: ImsRequest -> ImsResponse,
                   insertAccepts: Order -> bool, marshals: Order -> bool, accepts: bool, row: Row): (f: Fate)
  {
    match BuildOrder(colIdx, parsers, row)
    case None => IndexPanic
    case Some(o) =>
      if ValidateOrder(o, ims).error.Some? then Rejected
      else if !insertAccepts(OnHoldCopy(o)) then Rejected
      else Saved(OnHoldCopy(o), PublishOutcomeOf(marshals(OnHoldCopy(o)), accepts))
  }

  function FateOf(colIdx: map<string, nat>, parsers: Parsers, ims: ImsRequest -> ImsResponse,
                  insertAccepts: Order -> bool, marshals: Order -> bool, accepts: bool): Row -> Fate
  {
    row => RowFate(colIdx, parsers, ims, insertAccepts, marshals, accepts, row)
  }

  /**
   * `fateOf` gives each row the fate `RowFate` gives it. The trigger keeps
   * the loops that carry `fateOf` from unfolding `RowFate` at every row.
   */
  ghost predicate FatesAgree(fateOf: Row -> Fate, colIdx: map<string, nat>, parsers: Parsers,
                       ims: ImsRequest -> ImsResponse, insertAccepts: Order -> bool, marshals: Order -> bool,
                       accepts: bool)
  {
    forall row {:trigger RowFate(colIdx, parsers, ims, insertAccepts, marshals, accepts, row)} ::
      fateOf(row) == RowFate(colIdx, parsers, ims, insertAccepts, marshals, accepts, row)
  }

  lemma FateOfAgrees(colIdx: map<string, nat>, parsers: Parsers, ims: ImsRequest -> ImsResponse,
                     insertAccepts: Order -> bool, marshals: Order -> bool, accepts: bool)
    ensures FatesAgree(FateOf(colIdx, parsers, ims, insertAccepts, marshals, accepts), colIdx, parsers, ims,
                       insertAccepts, marshals, accepts)
  {
  }

  /**
   * A row is invalid exactly when its order fails validation or its insert
   * fails; a row whose order is saved is published with status on hold.
   */
  lemma RowOutcomes(colIdx: map<string, nat>, parsers: Parsers, ims: ImsRequest -> ImsResponse,
                    insertAccepts: Order -> bool, marshals: Order -> bool, accepts: bool, row: Row)
    requires BuildOrder(colIdx, parsers, row).Some?
    ensures var o := BuildOrder(colIdx, parsers, row).value;
            var f := RowFate(colIdx, parsers, ims, insertAccepts, marshals, accepts, row);
            (f.Rejected? <==> ValidateOrder(o, ims).error.Some? || !insertAccepts(OnHoldCopy(o))) &&
            (f.Saved? <==> !f.Rejected?) &&
            (f.Saved? ==> f.order == OnHoldCopy(o) && f.order.status == OnHold)
  {
  }

  /** Every saved order carries a tenant: a row whose tenant cell parses to the nil id is rejected. */
  lemma SavedOrdersHaveTenant(colIdx: map<string, nat>, parsers: Parsers, ims: ImsRequest -> ImsResponse,
                              insertAccepts: Order -> bool, marshals: Order -> bool, accepts: bool, row: Row)
    requires RowFate(colIdx, parsers, ims, insertAccepts, marshals, accepts, row).Saved?
    ensures RowFate(colIdx, parsers, ims, insertAccepts, marshals, accepts, row).order.tenantId != NilUuid
  {
  }

  /** The body of the row loop: build, validate, save, publish. */
  method IngestRow(colIdx: map<string, nat>, parsers: Parsers, ims: ImsRequest -> ImsResponse,
                   collection: OrderCollection, producer: KafkaProducer, row: Row) returns (fate: Fate)
    modifies collection, producer
    ensures fate == RowFate(colIdx, parsers, ims, collection.insertAccepts, producer.marshals, producer.accepts, row)
    ensures collection.docs == old(collection.docs) + (if fate.Saved? then [Document(fate.order, true)] else [])
    ensures collection.updates == old(collection.updates)
    ensures producer.published == old(producer.published) +
              (if fate.Saved? && fate.outcome == Delivered then [BuildMessage(fate.order)] else [])
  {
    var built := BuildOrder(colIdx, parsers, row);
    if built.None? {
      return IndexPanic;
    }
    var order := built.value;
    var verdict := ValidateOrder(order, ims);
    if verdict.error.Some? {
      return Rejected;
    }
    var saved, e := SaveOrder(order, collection);
    if e.Some? {
      return Rejected;
    }
    // the tenant id is not part of the event; see the producer
    var outcome := producer.PublishOrder(saved);
    return Saved(saved, outcome);
  }

  /** One row on a run that has not panicked: what it adds, and whether it stops the loop. */
  method IngestStep(colIdx: map<string, nat>, parsers: Parsers, ims: ImsRequest -> ImsResponse,
                    collection: OrderCollection, producer: KafkaProducer, row: Row, invalidBefore: seq<Row>,
                    ghost run: Progress, ghost docsBase: seq<Document>, ghost sentBase: seq<Message>,
                    ghost fateOf: Row -> Fate)
    returns (invalid: seq<Row>, stop: bool, ghost next: Progress)
    requires FatesAgree(fateOf, colIdx, parsers, ims, collection.insertAccepts, producer.marshals, producer.accepts)
    requires !run.panicked && invalidBefore == run.invalid
    requires collection.docs == docsBase + run.inserted && producer.published == sentBase + run.messages
    modifies collection, producer
    ensures next == Step(run, row, fateOf(row))
    ensures stop == next.panicked && invalid == next.invalid
    ensures collection.docs == docsBase + next.inserted && producer.published == sentBase + next.messages
    ensures collection.updates == old(collection.updates)
  {
    var fate := IngestRow(colIdx, parsers, ims, collection, producer, row);
    StepEffects(run, row, fate);
    next := Step(run, row, fate);
    stop := fate.IndexPanic? || (fate.Saved? && fate.outcome == PublishPanicked);
    invalid := if fate.Rejected? then invalidBefore + [row] else invalidBefore;
  }

  /**
   * The row loop over one batch, continuing a run over `prefix`. It stops
   * early only on a panic, after the row that panicked.
   */
  method IngestRecords(records: seq<Row>, colIdx: map<string, nat>, parsers: Parsers,
                       ims: ImsRequest -> ImsResponse, collection: OrderCollection, producer: KafkaProducer,
                       invalidBefore: seq<Row>, ghost prefix: seq<Row>,
                       ghost docsBase: seq<Document>, ghost sentBase: seq<Message>, ghost fateOf: Row -> Fate)
    returns (invalid: seq<Row>, panicked: bool, ghost taken: nat)
    requires FatesAgree(fateOf, colIdx, parsers, ims, collection.insertAccepts, producer.marshals, producer.accepts)
    requires var p := Run(prefix, fateOf);
             !p.panicked && invalidBefore == p.invalid &&
             collection.docs == docsBase + p.inserted && producer.published == sentBase + p.messages
    modifies collection, producer
    ensures taken <= |records| && (!panicked ==> taken == |records|) && (panicked ==> taken > 0)
    ensures var p := Run(prefix + records[..taken], fateOf);
            invalid == p.invalid && panicked == p.panicked &&
            collection.docs == docsBase + p.inserted && producer.published == sentBase + p.messages
    ensures collection.updates == old(collection.updates)
  {
    invalid := invalidBefore;
    var i := 0;
    assert prefix + records[..i] == prefix;
    ghost var run := Run(prefix, fateOf);
    while i < |records|
      invariant 0 <= i <= |records|
      invariant run == Run(prefix + records[..i], fateOf)
      invariant !run.panicked && invalid == run.invalid
      invariant collection.docs == docsBase + run.inserted && producer.published == sentBase + run.messages
      invariant collection.updates == old(collection.updates)
    {
      RowSnoc(prefix, records, i, fateOf);
      var stop;
      invalid, stop, run := IngestStep(colIdx, parsers, ims, collection, producer, records[i], invalid, run,
                                       docsBase, sentBase, fateOf);
      if stop {
        return invalid, true, i + 1;
      }
      i := i + 1;
    }
    return invalid, false, i;
  }

  /**
   * The batch loop over an opened reader: a read error ends it, and a panic
   * ends it with the rest of the rows unprocessed.
   */
  method IngestBatches(batches: seq<Batch>, colIdx: map<string, nat>, parsers: Parsers,
                       ims: ImsRequest -> ImsResponse, collection: OrderCollection, producer: KafkaProducer,
                       ghost fateOf: Row -> Fate)
    returns (invalid: seq<Row>, panicked: bool)
    requires FatesAgree(fateOf, colIdx, parsers, ims, collection.insertAccepts, producer.marshals, producer.accepts)
    modifies collection, producer
    ensures var p := Run(ReadableRows(batches), fateOf);
            invalid == p.invalid && panicked == p.panicked &&
            collection.docs == old(collection.docs) + p.inserted &&
            producer.published == old(producer.published) + p.messages
    ensures collection.updates == old(collection.updates)
  {
    invalid := [];
    ghost var seen: seq<Row> := [];
    ghost var run := Run(seen, fateOf);
    var b := 0;
    assert collection.docs == old(collection.docs) + [];
    assert producer.published == old(producer.published) + [];
    while b < |batches|
      invariant 0 <= b <= |batches|
      invariant forall j :: 0 <= j < b ==> batches[j].Rows?
      invariant seen == Concat(batches[..b]) && run == Run(seen, fateOf)
      invariant !run.panicked && invalid == run.invalid
      invariant collection.docs == old(collection.docs) + run.inserted
      invariant producer.published == old(producer.published) + run.messages
      invariant collection.updates == old(collection.updates)
    {
      if batches[b].ReadError? {
        ReadErrorStops(batches, b);
        break;
      }
      var records := batches[b].rows;
      ghost var taken;
      invalid, panicked, taken := IngestRecords(records, colIdx, parsers, ims, collection, producer,
                                                invalid, seen, old(collection.docs), old(producer.published), fateOf);
      if panicked {
        PanicEndsRun(batches, b, taken - 1, seen, fateOf);
        return;
      }
      assert records[..taken] == records;
      ConcatNext(batches, b);
      seen := seen + records;
      run := Run(seen, fateOf);
      b := b + 1;
    }
    if b == |batches| {
      AllBatchesRead(batches);
      assert batches[..b] == batches;
    }
    return invalid, false;
  }

  /**
   * `ParseCSV`: reader failures return before any row; afterwards the
   * invalid rows, if any, go to the side file with the input header.
   */
  method ParseCSV(source: CsvSource, parsers: Parsers, ims: ImsRequest -> ImsResponse,
                  collection: OrderCollection, producer: KafkaProducer, writer: WriterFault)
    returns (result: ParseResult, sideFile: Option<CsvFile>)
    modifies collection, producer
    ensures !source.Opened? ==>
              result == Returned(Some(OpenError(source))) && sideFile.None? &&
              collection.docs == old(collection.docs) && producer.published == old(producer.published)
    ensures source.Opened? ==>
              var p := Run(ReadableRows(source.batches),
                           FateOf(ColumnIndex(source.headers), parsers, ims,
                                  collection.insertAccepts, producer.marshals, producer.accepts));
              result == ResultOf(p, writer) && sideFile == SideFileOf(source.headers, p, writer) &&
              collection.docs == old(collection.docs) + p.inserted &&
              producer.published == old(producer.published) + p.messages
    ensures collection.updates == old(collection.updates)
  {
    if !source.Opened? {
      return Returned(Some(OpenError(source))), None;
    }
    var headers := source.headers;
    var colIdx := BuildColumnIndex(headers);
    ghost var fateOf := FateOf(colIdx, parsers, ims, collection.insertAccepts, producer.marshals, producer.accepts);
    FateOfAgrees(colIdx, parsers, ims, collection.insertAccepts, producer.marshals, producer.accepts);
    var invalid, panicked := IngestBatches(source.batches, colIdx, parsers, ims, collection, producer, fateOf);
    if panicked {
      return Panicked, None;
    }
    if |invalid| > 0 {
      match writer
      case CreateFails => return Returned(Some(WriterCreateFailed)), None;
      case InitFails => return Returned(Some(WriterInitFailed)), None;
      case WriteFails => return Returned(Some(WriteFailed)), None;
      case NoFault => return Returned(None), Some(CsvFile(headers, invalid));
    }
    return Returned(None), None;
  }
}
