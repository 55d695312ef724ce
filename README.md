# Order ingestion service: a verified model

This project models the decision logic of an order-management service written
in Go. The service:

- accepts bulk CSV uploads of orders through an `s3://bucket/key` path, checks
  that the object exists, and queues an intake message;
- parses the CSV row by row, validating each order against structural rules
  and the inventory master (IMS), saving valid orders `on_hold` and publishing
  an `order.created` event for each;
- writes the invalid rows to a side file;
- on each event, or on a periodic sweep of the on-hold orders, asks the
  inventory service whether the order can be fulfilled and moves it to
  `new_order` or leaves it `on_hold`;
- notifies the tenant's registered webhook, which is cached under
  `webhook:<tenant>`.

Every store and transport is replaced by an in-memory stand-in:

- the object store, the queue, the document store, the cache, the event
  broker and the HTTP clients;
- each is a class whose fields are its contents, the calls made to it, and
  `const` oracles that decide whether each call succeeds.

Step-by-step code is written as methods with `modifies` clauses and loop
invariants. Each method is proved against a specification function, and the
properties the service promises are lemmas about those functions.

The modules follow the source:

- `S3Path`: the `s3://` path check and first-`/` split. It is shared, line
  for line, by the three bulk-intake copies.
- `IntakeMessage`: the unescaped queue payload and a decoder for flat JSON
  objects.
- `BulkIntake`, `EntitiesIntake`, `ModelsCsvIntake`, `ModelsOrdersIntake`: the
  three bulk-intake copies, each with its package-level `err`.
- `OrderStore`: the orders collection and its targeted status update.
- `OrderValidation`, `LegacyOrderValidation`: the validator and persister, and
  the older validator without the tenant check.
- `CsvColumns`: the header map and the Go-map lookup that reads a missing
  name as column 0.
- `RowLoop`: what a run does with its rows, stated once for both CSV loops.
  It covers:
  - the fate of a row;
  - the progress;
  - where the reader stops;
  - the side-file gate.
- `CsvIngest`, `LegacyCsvIngest`: the two `ParseCSV` loops.
- `EventProducer`: the `order.created` event and `PublishOrder`.
- `Lifecycle`: the inventory check and status update, the on-hold query, the
  listing filter, and the SKU/hub catalog check.
- `EventConsumer`: the event handler.
- `Retrier`: the on-hold sweep.
- `WebhookNotifier`, `WebhookRegistry`: the cache-first notifier and the
  registration endpoint.

Where the CSV loop calls a publisher with two arguments
(`pkg/utils/csv.go:104`), the producer shown takes one. The model follows the
producer that is shown. Its event carries no `X-Tenant-ID` header, although the
order in its value still holds the tenant id.

## Model

| member | source | states |
|---|---|---|
| S3Path.TrimPrefix | pkg/entities/csv.go:85 | with the prefix present, the prefix followed by the result is the input; otherwise the input is unchanged |
| S3Path.IndexOf | pkg/entities/csv.go:86 | the first position of the character, or none exactly when it does not occur |
| S3Path.SplitN2 | pkg/entities/csv.go:86 | one part (the input) exactly when there is no separator; otherwise two parts that rejoin to the input around the first separator |
| S3Path.Resolve | pkg/entities/csv.go:81-92 | rejected for the missing scheme exactly when `s3://` is absent; rejected for the shape exactly when no `/` follows the scheme; a resolved path is scheme + bucket + `/` + key with no `/` in the bucket |
| S3Path.ResolveRoundTrip | pkg/entities/csv.go:85-92 | for every bucket without `/` and every key, the joined path resolves back to exactly that bucket and key; empty parts and keys holding `/` included |
| S3Path.JoinRoundTrip | pkg/entities/csv.go:85-92 | a resolved path is rebuilt by joining its bucket and key |
| S3Path.SplitUnique | pkg/entities/csv.go:86 | two writings of one string around a first `/` agree on both sides |
| S3Path.ResolveAcceptsPlainKey | pkg/entities/csv_test.go:15 | `s3://my-bucket/file.csv` resolves to (`my-bucket`, `file.csv`) |
| S3Path.ResolveAcceptsNestedKey | pkg/entities/csv_test.go:16 | `s3://bucket/path/to/file.csv` resolves to (`bucket`, `path/to/file.csv`) |
| S3Path.ResolveAcceptsEmptyParts | pkg/entities/csv.go:85-92 | `s3:///` is accepted, with an empty bucket and an empty key |
| S3Path.ResolveRejectsExamples | pkg/entities/csv_test.go:17-19 | `http://…` and `""` lack the scheme; `s3://onlybucket` lacks a key |
| IntakeMessage.SkipWs | pkg/configs/sqsConsumer.go:62 | the result is a suffix no longer than the input and starts with no blank |
| IntakeMessage.BodyLength | pkg/configs/sqsConsumer.go:62 | a found body length points at the closing quote, and the body before it needs no escape |
| IntakeMessage.DecodeIntakePayload | pkg/entities/csv.go:118 | the consumer's decode of the payload for plain bucket and key names gives back exactly that bucket and key |
| IntakeMessage.DecodePayload | pkg/entities/csv.go:118 | the payload decodes to the object with exactly the members `bucket` and `key` |
| IntakeMessage.PayloadNeedsPlainNames | pkg/entities/csv.go:118 | a bucket or key holding a quote, a backslash or a control character does not come back from the payload |
| IntakeMessage.DecodedFieldsArePlain | pkg/configs/sqsConsumer.go:57-64 | whatever the model's escape-free decoder accepts carries plain bucket and key text |
| IntakeMessage.MembersArePlain | pkg/configs/sqsConsumer.go:62 | parsing members into a map of plain values keeps every value plain |
| IntakeMessage.ParseMemberOf | pkg/entities/csv.go:118 | one `"name":"value"` member parses back to its name, value and rest |
| IntakeMessage.DecodeIntakeExample | pkg/entities/csv_test.go:34-53 | the message for `test-bucket` and `orders/orders.csv` decodes to that bucket and key |
| BulkIntake.ObjectStore.HeadObject | pkg/entities/csv.go:96-104 | succeeds exactly when the object exists; the request is logged |
| BulkIntake.Queue.Publish | pkg/entities/csv.go:124-128 | the message is appended exactly when the queue accepts; otherwise an error |
| BulkIntake.RejectedBeforeObjectStore | pkg/entities/csv.go:81-83 | a path without `s3://` is rejected with its own error, no existence check is made and nothing is published |
| BulkIntake.RejectedWithoutKey | pkg/entities/csv.go:86-89 | a remainder without `/` is rejected before the object store, and nothing is published |
| BulkIntake.MissingObjectPublishesNothing | pkg/entities/csv.go:96-104 | a well-formed path gets exactly one existence check for its bucket and key; a missing object is an error and publishes nothing |
| BulkIntake.PushFailureSwallowed | pkg/entities/csv.go:108-113 | once the object exists the request succeeds even when the publish fails; only `err` records the failure |
| BulkIntake.PublishedIff | pkg/entities/csv.go:96-128 | at most one message; one exactly when the path resolves, the object exists and the queue accepts; it is the payload for that bucket and key, and it decodes back to them when they are plain |
| BulkIntake.SucceedsIff | pkg/entities/csv.go:77-114 | success exactly for a well-formed path to an existing object |
| EntitiesIntake.Intake.PushToSQS | pkg/entities/csv.go:116-131 | publishes the unescaped payload, returns the publisher's error and assigns it to `err` |
| EntitiesIntake.Intake.ValidateAndPushToSQS | pkg/entities/csv.go:77-114 | the result, the existence checks, the queue contents and `err` are those of the intake specification functions |
| ModelsCsvIntake.Intake.PushToSQS | pkg/models/csv.go:131-146 | as in the entities copy: unescaped payload, error returned and assigned to `err` |
| ModelsCsvIntake.Intake.ValidateAndPushToSQS | pkg/models/csv.go:92-129 | the same specification as the entities copy: rejection before the object store, existence gate, swallowed push failure |
| ModelsOrdersIntake.Intake.PushToSQS | pkg/models/orders.go:134-149 | as in the entities copy |
| ModelsOrdersIntake.Intake.ValidateS3PathPushToSQS | pkg/models/orders.go:94-132 | the same specification as the entities copy |
| OrderStore.FirstMatch | pkg/helpers/order.go:77-80 | the first document with the id, or none exactly when no document has it |
| OrderStore.SetStatus | pkg/helpers/order.go:77-80 | same length; every document keeps every field but the status; only the first match can change, and it gets the new status; with no match nothing changes |
| OrderStore.SetStatusKeepsUnique | pkg/helpers/order.go:77-80 | a status update keeps the order ids, so unique ids stay unique |
| OrderStore.FirstMatchUnique | pkg/helpers/order.go:77 | with unique ids, the filter by a document's id selects that document |
| OrderStore.OnHoldOrders | pkg/helpers/order.go:101-113 | only on-hold documents that decode, and every such document's order |
| OrderStore.OrderCollection.InsertOne | pkg/utils/order.go:101 | the document is appended exactly when the insert succeeds |
| OrderStore.OrderCollection.UpdateOne | pkg/helpers/order.go:72-80 | the status update is applied when the collection can be reached and accepts it; every attempt is logged, one whose collection lookup fails included |
| OrderValidation.ValidateWithIMS | pkg/utils/order.go:46-63 | fails closed: valid exactly when the call succeeded and answered valid (the copy at `pkg/utils/parseCSV.go:50-67` is the same function) |
| OrderValidation.StructuralError | pkg/utils/order.go:67-87 | each error exactly when the checks before it pass and its own fails, in the order OrderID, SKUID, HubID, SellerID, TenantID, Quantity > 0, Price >= 0; none exactly when all pass |
| OrderValidation.ValidateOrder | pkg/utils/order.go:66-95 | a structural failure returns its own error with no IMS call; otherwise exactly one IMS call for (hub, SKU); valid exactly when all checks pass and IMS answers valid |
| OrderValidation.BoundaryValues | pkg/utils/order.go:82-87 | quantity 0 is rejected; price 0 is accepted |
| OrderValidation.StatusIrrelevant | pkg/utils/order.go:66-95 | the verdict does not see the status |
| OrderValidation.OnHoldCopy | pkg/utils/order.go:100 | the saved record is the order with status `on_hold` and nothing else changed |
| OrderValidation.SaveOrder | pkg/utils/order.go:98-108 | the order is marked on hold before the insert; the document is added exactly when the insert succeeds, else an insert error; no status update is issued (the copy at `pkg/utils/parseCSV.go:97-107` is the same) |
| OrderValidation.ValidateAndSaveOrder | pkg/utils/order.go:111-119 | an invalid order is never inserted and its error is returned unchanged; a valid one is inserted on hold exactly when the insert succeeds; no status update is issued |
| LegacyOrderValidation.StructuralError | pkg/utils/parseCSV.go:70-87 | the same chain without the tenant check: OrderID, SKUID, HubID, SellerID, Quantity, Price |
| LegacyOrderValidation.ValidateOrder | pkg/utils/parseCSV.go:69-95 | IMS is asked once, only after the structural checks; valid exactly when they pass and IMS answers valid |
| LegacyOrderValidation.AgreesWithTenantCheck | pkg/utils/parseCSV.go:69-95 | the two validators agree on every order with a tenant, and differ only on tenant-less orders whose ids are set |
| CsvColumns.ColumnIndex | pkg/utils/csv.go:55-58 | its keys are exactly the header names; each maps to a position holding that name, and no later position holds it |
| CsvColumns.BuildColumnIndex | pkg/utils/csv.go:55-58 | the header loop builds exactly the column map (the loop at `pkg/utils/parseCSV.go:134-137` is the same) |
| CsvColumns.Lookup | pkg/utils/csv.go:72-78 | a present name gives its column; an absent one reads as 0 |
| CsvColumns.Cell | pkg/utils/csv.go:72 | a cell exactly when the index lies inside the row |
| CsvColumns.MissingColumnReadsFirstCell | pkg/utils/csv.go:55-58 | a required column absent from the header silently reads the row's first cell |
| CsvColumns.DuplicateHeaderReadsLast | pkg/utils/csv.go:55-58 | a repeated header name is never read from its earlier column |
| RowLoop.ReadableSplit | pkg/utils/csv.go:62-67 | up to the first read error, the rows the loop sees are the batches read so far followed by what the rest yields |
| RowLoop.ReadErrorStops | pkg/utils/csv.go:63-67 | a read error ends the rows: nothing after it is seen |
| RowLoop.AllBatchesRead | pkg/utils/csv.go:62-106 | without a read error every row of every batch is seen |
| RowLoop.ConcatNext | pkg/utils/csv.go:62-106 | one more batch read adds its rows at the end |
| RowLoop.StepEffects | pkg/utils/csv.go:92-104 | before a panic, one row adds to the invalid rows only if rejected, to the documents only if saved, to the events only if delivered, and panics exactly on an index panic or a refused publish |
| RowLoop.PanicAbsorbs | pkg/services/kafkaProducer.go:58-62 | once the run has panicked no further row has any effect |
| RowLoop.PanicEndsRun | pkg/utils/csv.go:69-105 | a panic at a row is where the whole run ends: the rest of that batch and every later batch are never processed |
| RowLoop.RunWithoutPanic | pkg/utils/csv.go:92-104 | a run without panic keeps every rejected row raw and in input order, inserts every saved order and publishes every delivered event, in input order; each is an independent filter over the input |
| RowLoop.EachRowOnce | pkg/utils/csv.go:92-104 | in a run without panic each row is either invalid or inserted, never both; there are no more events than inserts |
| RowLoop.SideFileIff | pkg/utils/csv.go:108-143 | the side file exists exactly when some row was invalid and the writer did not fail, and holds the input header and the invalid rows; with no invalid row the result is nil; only writer errors come back |
| CsvIngest.BuildOrder | pkg/utils/csv.go:72-90 | an order exactly when every column index is inside the row; order, SKU, hub, seller and tenant ids, quantity and price are the parsers' results on their columns, and the status is empty |
| CsvIngest.RowOutcomes | pkg/utils/csv.go:92-104 | a row is rejected exactly when validation or the insert fails; otherwise it is saved with status `on_hold` |
| CsvIngest.SavedOrdersHaveTenant | pkg/utils/csv.go:76-104 | every saved order carries a non-nil tenant |
| CsvIngest.FateOfAgrees | pkg/utils/csv.go:69-105 | the row-fate function gives every row the fate of the loop body |
| CsvIngest.IngestRow | pkg/utils/csv.go:72-104 | the row's fate is its specified fate; the document is added only if saved, the event only if delivered; no status update is issued |
| CsvIngest.IngestStep | pkg/utils/csv.go:92-104 | one row is one step of the run: its invalid rows, documents and events, and whether the loop stops; no status update is issued |
| CsvIngest.IngestRecords | pkg/utils/csv.go:69-105 | the row loop over one batch extends the run; it stops early only on a panic, after the row that panicked; no status update is issued |
| CsvIngest.IngestBatches | pkg/utils/csv.go:60-106 | the invalid rows, documents, events and panic are those of the run over the readable rows; no status update is issued |
| CsvIngest.ParseCSV | pkg/utils/csv.go:30-144 | a reader failure returns its error before any row; otherwise the result, the side file, the documents and the events are those of the run over the readable rows; no status update is issued |
| LegacyCsvIngest.BuildOrder | pkg/utils/parseCSV.go:151-165 | an order exactly when every column index is inside the row; order, SKU, hub and seller ids, quantity and price are the parsers' results on their columns; the tenant is always nil and the status empty |
| LegacyCsvIngest.RowOutcomes | pkg/utils/parseCSV.go:167-179 | a row is rejected exactly when the older validation or the insert fails; otherwise it is saved on hold |
| LegacyCsvIngest.SavedOrdersLackTenant | pkg/utils/parseCSV.go:158-179 | every order the older loop saves has a nil tenant |
| LegacyCsvIngest.FateOfAgrees | pkg/utils/parseCSV.go:148-180 | the row-fate function gives every row the fate of the loop body |
| LegacyCsvIngest.IngestRow | pkg/utils/parseCSV.go:151-179 | the row's fate is its specified fate, with the matching document and event; no status update is issued |
| LegacyCsvIngest.IngestStep | pkg/utils/parseCSV.go:167-179 | one row is one step of the run; no status update is issued |
| LegacyCsvIngest.IngestRecords | pkg/utils/parseCSV.go:148-180 | the row loop over one batch extends the run and stops only on a panic; no status update is issued |
| LegacyCsvIngest.IngestBatches | pkg/utils/parseCSV.go:139-181 | the loop's effects are those of the run over the readable rows; no status update is issued |
| LegacyCsvIngest.ParseCSV | pkg/utils/parseCSV.go:109-219 | reader failures return first; otherwise the result, side file, documents and events are those of the run; no status update is issued |
| EventProducer.EventFields | pkg/services/kafkaProducer.go:48-55 | topic `order.created`, key `order-` + order id, the whole order as the value, and exactly the header `source: order-service` |
| EventProducer.KeyIdentifiesOrder | pkg/services/kafkaProducer.go:50 | two events share a key exactly when their order ids match |
| EventProducer.NoTenantHeader | pkg/services/kafkaProducer.go:52-54 | no event the one-argument producer builds carries an `X-Tenant-ID` header |
| EventProducer.KafkaProducer.PublishOrder | pkg/services/kafkaProducer.go:38-64 | a marshal failure publishes nothing; a refused publish panics; otherwise the event is appended |
| EventProducer.DeliveredIff | pkg/services/kafkaProducer.go:42-62 | delivered exactly when both the encoder and the broker succeed; a panic exactly when only the broker fails |
| Lifecycle.EvaluateInventoryResponse | pkg/helpers/order.go:48-61 | `error` exactly for a body that does not decode into the struct (not JSON, or a wrong-typed field); `new_order` exactly for `available: true`; `on_hold` for any other object, a missing or null field included |
| Lifecycle.InventoryService.Send | pkg/helpers/order.go:26-46 | the reply is the service's answer to the request, which is logged |
| Lifecycle.CheckOutcome | pkg/helpers/order.go:63-69 | always one of the three statuses; `error` exactly for a failed call or an unparseable body |
| Lifecycle.CheckOrder | pkg/helpers/order.go:63-69 | sends one request for the order's SKU, hub and quantity and returns the evaluated outcome |
| Lifecycle.UpdateOrderStatus | pkg/helpers/order.go:71-85 | one update by order id that sets only the status, applied exactly when the collection accepts it |
| Lifecycle.CheckAndUpdateCalls | pkg/helpers/order.go:87-96 | no update on `error`; otherwise exactly one, for that order id, writing `new_order` or `on_hold` |
| Lifecycle.CheckAndUpdateOrder | pkg/helpers/order.go:87-96 | one inventory request; the documents and the updates are those of the check-and-update specification |
| Lifecycle.ErrorWritesNothing | pkg/helpers/order.go:88-91 | an inventory error leaves every document as it was |
| Lifecycle.CheckAndUpdateTargets | pkg/helpers/order.go:77-96 | at most the status of the first document with the order's id changes, and only to `new_order` or `on_hold` |
| OrderStore.CursorRead | pkg/helpers/order.go:107 | the documents a cursor reads are a prefix of the store, cut where `Next` fails, all of it when it never fails |
| OrderStore.OnHoldOrdersPrefix | pkg/helpers/order.go:107-113 | reading fewer documents yields a prefix of the on-hold orders |
| OrderStore.FetchedIsPrefix | pkg/helpers/order.go:107-115 | a successful query returns a prefix of the on-hold orders, and all of them when the cursor never fails |
| Lifecycle.GetOnHoldOrders | pkg/helpers/order.go:98-116 | a failed query is an error with no orders; otherwise no error and the on-hold documents that decode, in store order, up to where the cursor fails, since its error is never checked; a prefix of all on-hold orders, and all of them when the cursor does not fail |
| Lifecycle.FetchFilter | pkg/helpers/order.go:119-136 | `seller_id` exactly for a non-nil seller, `status` exactly for a non-empty status, `created_at` exactly when a date is non-zero, holding `$gte` exactly for a non-zero start and `$lte` exactly for a non-zero end, and nothing else |
| Lifecycle.ValidateSKUAndHubs | pkg/helpers/order.go:164-204 | valid exactly when both answer 200; the hub is asked only after the SKU answered 200; an error exactly when a request does not build; nothing is sent when the SKU request does not build, otherwise the SKU request first; both requests are sent exactly when the SKU answered 200 and the hub request builds; every request sent carries the tenant header |
| EventConsumer.HeaderTenant | pkg/services/kafkaConsumer.go:78 | the header's value, or `""` when it is absent |
| EventConsumer.Handle | pkg/services/kafkaConsumer.go:68-87 | an undecodable value returns an error and touches nothing; otherwise one check-and-update, then a notification exactly when the tenant header is non-empty, whatever the check found; nil returned |
| EventConsumer.Process | pkg/services/kafkaConsumer.go:22-24 | delegates to `Handle`, with the same result and effects |
| EventConsumer.ProducedEventsNeverNotify | pkg/services/kafkaProducer.go:52-54 | a message built by the one-argument producer has no `X-Tenant-ID` header, so handling it updates the status but never notifies a webhook; the order in its value still carries its tenant id |
| Retrier.Requests | pkg/services/Retrier.go:37-41 | one inventory request per fetched order |
| Retrier.EachOrderCheckedOnce | pkg/services/Retrier.go:37-41 | the sweep's i-th request is the check of the i-th order |
| Retrier.ProcessOnHoldOrders | pkg/services/Retrier.go:28-42 | a failed fetch touches nothing; otherwise every fetched order (those read before a cursor failure) gets one check-and-update, in list order, whatever became of the ones before it |
| Retrier.SweepChangesOnlyStatus | pkg/services/Retrier.go:37-41 | a sweep deletes nothing and changes only statuses, each to `new_order` or `on_hold` |
| Retrier.OnHoldSettles | pkg/services/Retrier.go:37-41 | every order on hold before a sweep is on hold or a new order after it, wherever the cursor fails |
| Retrier.SweepSkips | pkg/services/Retrier.go:37-41 | a document whose id no swept order carries is left as it was |
| Retrier.UniqueIdsSweepOnlyOnHold | pkg/services/Retrier.go:28-42 | with unique order ids, no document that is not an on-hold document that decodes is ever written, wherever the cursor fails |
| Retrier.SweepBelow | pkg/helpers/order.go:77-80 | a document is left as it was when every swept order's id is carried by an earlier document, duplicate ids included |
| Retrier.UnreadLeftAlone | pkg/helpers/order.go:107-115 | every document past the point where the cursor failed is left as it was, duplicate ids included |
| Retrier.DuplicateIdsRewriteSettledOrder | pkg/helpers/order.go:77-80 | with a duplicated order id, the sweep's update lands on an earlier `new_order` copy and puts it back on hold |
| WebhookNotifier.CacheKeyInjective | pkg/services/webhook.go:38 | distinct tenants never share a cache key |
| WebhookNotifier.RedisCache.Set | pkg/services/webhook.go:38 | a successful write stores the value with no expiry |
| WebhookNotifier.RedisCache.Get | pkg/services/webhook.go:45-50 | a value exactly when the cache is readable and holds the key; otherwise `""` |
| WebhookNotifier.WebhookStore.FindOne | pkg/services/webhook.go:59 | the tenant's record when the store is readable and has one; the lookup is logged |
| WebhookNotifier.WebhookStore.Upsert | pkg/controllers/webhook.go:88-90 | replaces or adds the tenant's URL exactly when the store accepts the write |
| WebhookNotifier.StoredURL | pkg/services/webhook.go:59-64 | the stored URL exactly when the store is readable and has the tenant |
| WebhookNotifier.CachedURL | pkg/services/webhook.go:44-51 | a non-empty answer is the cached value; a failed read or a miss is `""` |
| WebhookNotifier.CacheWebhookURL | pkg/services/webhook.go:37-42 | writes the URL under `webhook:<tenant>` when the cache accepts; a failure is only logged |
| WebhookNotifier.GetCachedWebhookURL | pkg/services/webhook.go:44-51 | returns the cache's answer, with `""` for an error |
| WebhookNotifier.NotifyURL | pkg/services/webhook.go:56-64 | the cached URL when there is one, else what the store holds |
| WebhookNotifier.NotifyPosts | pkg/services/webhook.go:68-88 | at most one POST, to the target, exactly when there is a target and its request builds |
| WebhookNotifier.HttpOutbox.Send | pkg/services/webhook.go:85-88 | the attempt is recorded; its failure is not retried |
| WebhookNotifier.NotifyTenantWebhook | pkg/services/webhook.go:53-91 | posts, lookups and cache writes are those of the notification specification; the store is never written |
| WebhookNotifier.CacheHitSkipsStore | pkg/services/webhook.go:56-57 | a cache hit posts to the cached URL and leaves the cache alone |
| WebhookNotifier.MissWithoutRecordDoesNothing | pkg/services/webhook.go:57-63 | a miss with no stored record posts nothing and writes no cache entry |
| WebhookNotifier.MissWithRecordBackfills | pkg/services/webhook.go:64-65 | a miss with a stored record targets that URL and back-fills the cache with it |
| WebhookRegistry.RegisterStatus | pkg/controllers/webhook.go:68-99 | 400 exactly for a body that does not bind or a missing tenant header; 500 exactly for a failed upsert after both pass; 200 otherwise |
| WebhookRegistry.RegisterWebhook | pkg/controllers/webhook.go:68-99 | the code, the store and the cache after a registration are those of the registration specification; no store lookup is made |
| WebhookRegistry.FailureWritesNothing | pkg/controllers/webhook.go:70-95 | a rejected or failed registration writes neither the store nor the cache |
| WebhookRegistry.RegistrationIsUpsert | pkg/controllers/webhook.go:88-90 | registering twice for a tenant leaves one record, the later URL |
| WebhookRegistry.RegisterThenNotify | pkg/controllers/webhook.go:90-97 | after a successful registration, a notification for the tenant targets the new URL |
| WebhookRegistry.StaleCacheAfterFailedCacheWrite | pkg/controllers/webhook.go:90-97 | when the cache write fails after the upsert, an earlier cached URL keeps being used |

## Left out

- Transports and stores are in-memory stand-ins: S3, SQS, Kafka, MongoDB, Redis and the HTTP clients. Whether each call succeeds is a `const` oracle of the stand-in, and no wire behaviour is modelled.
- The inventory service's reply is a fixed function of the request, so the same request always gets the same answer within one run of the model.
- Concurrency and long-running loops are not modelled: the retry ticker goroutine, the subscription loop of `ReceiveOrder`, and the sleep-then-start start-up.
- The CSV reader and writer library and its sanitizers are not modelled. Headers and rows are taken as already sanitised, batches are a sequence of rows or read errors, and the writer's failure is an input.
- The string parsers (`uuid.Parse`, `strconv.Atoi`, `strconv.ParseFloat`) are abstract functions whose results are used whether or not they failed.
- `Price` is a `real`; only its sign matters to the validator.
- JSON is not modelled in general. Order bodies and inventory replies are datatypes. The intake decoder handles flat objects of string members without escapes.
- Clock values and timestamped file names are left out, including `CreatedAt`/`UpdatedAt`. The `Webhook` record's id and creation time are also left out.
- `FetchOrders` is modelled only as far as the filter it builds. The query it then runs is not modelled.
- `StoreInS3` in both model packages uploads a file and holds no decision logic.
- The SQS consumer is download and temp-file plumbing. Only its decode of the intake message is modelled.
- Both `saveOrder` copies set the status through the caller's reference. The model returns the on-hold copy instead, and the loops use that copy. Aliasing is not modelled.
- A side-file write that fails part-way is a single writer error.
- Retrier.ProcessOnHoldOrders: the sweep's query and its status updates go to one collection in the model. In the source they need not. `GetOnHoldOrders` queries the package variable `database.Collection` (`pkg/helpers/order.go:101`), and every `GetMongoCollection` call overwrites it (`pkg/database/db.go:46`). Start-up opens the webhook collection last (`pkg/initializers/init.go:37`). So the sweep reads the webhook collection until an `UpdateOrderStatus` or `FetchOrders` call reopens `oms/orders` (`pkg/helpers/order.go:72,138`). The updates always go to `oms/orders`. The model does not capture this wiring.
- WebhookNotifier.NotifyTenantWebhook: the model gives the notifier a working webhook store. In the files shown, `services.WebhookCollection` (`pkg/services/webhook.go:19`) is never assigned, so the fallback lookup after a cache miss (`pkg/services/webhook.go:59`) runs against a nil collection.
- The registration endpoint uses an injected store, which is wired at package initialisation from a collection that is still nil. The model gives the endpoint a working store.
- Request binding, including the URL check, is an input: the bound URL, or none.
- The HTTP client set-up and the inventory request builder's ignored error are not modelled.
- The model has no path from a CSV upload to a webhook notification. The two-argument call at `pkg/utils/csv.go:104` passes the tenant id, evidently to be sent as the `X-Tenant-ID` header that routes notifications, but the producer taking it is not part of this model.
- The two-argument `PublishOrder` call (`pkg/utils/csv.go:104`) does not match the one-argument producer shown (`pkg/services/kafkaProducer.go:38`). The model uses the one shown.
- IntakeMessage.DecodedFieldsArePlain: holds of the model's decoder only. Go's `json.Unmarshal` into the `{Bucket, Key string}` struct differs in three ways. It decodes escapes, so a bucket can hold a tab. It matches member names case-insensitively, so `"Bucket"` fills the bucket. It ignores members of any type, where the model decoder accepts only string members.
- Retrier.UniqueIdsSweepOnlyOnHold: proves that no other document is written only when order ids are unique. With duplicate ids the targeted update hits the first match. Retrier.DuplicateIdsRewriteSettledOrder shows the counterexample.
- IntakeMessage.DecodeIntakePayload: holds only for bucket and key names without quotes, backslashes or control characters, because the payload is formatted without escaping. IntakeMessage.PayloadNeedsPlainNames shows that the other names do not come back.
