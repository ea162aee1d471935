# autoBilanceo core, modelled in Dafny

autoBilanceo fills in invoices on AFIP's "Comprobantes en línea" portal, many
at a time, with one browser session per invoice. This project models the
deterministic part underneath the browser work and proves what it promises:

- **The batch processor** (`InvoiceBatchProcessor`), in `batch_schedule.dfy` and `batch_processor.dfy`:
  - Invoices are grouped by issuer CUIT, keeping dictionary insertion order.
  - Batches are built so that no batch holds two invoices of one issuer. Each pass starts again from the first issuer that still has invoices.
  - Each invoice runs through the fail-fast chain of stages: browser setup, authentication, service navigation, then six form steps.
  - All results are concatenated in batch order, with a wait between consecutive batches.
  - The class's methods are imperative, with loop invariants. They are proved equal to the functions `Groups`, `Schedule` and `RunStages`, and the lemmas about those functions carry the properties: partition, issuer-disjoint batches, batch bounds, first-seen order and per-issuer order.
- **The domain validators** (pydantic models):
  - CUIT normalisation;
  - punto de venta padding;
  - the issuer / invoice-type table and its older copy under `src/models`;
  - the recipient IVA-condition table;
  - issuance dates and billing periods;
  - the service line: code, unit price, discount, IVA rate and derived amounts;
  - payment methods and currencies.
- **Small control helpers:**
  - the retry loop of `AFIPOperator.execute_batch_operations`;
  - fixed-size chunking in `InvoiceInputHandler`;
  - the validation prelude of step 2;
  - the classification of the portal's error markers in step 6.

Browser actions are oracles, passed in as functions:
- `Browser` gives each stage's outcome.
- `Closer` gives the outcome of closing the browser.
- `execute_operation`'s operation is indexed by item and attempt.
- Step 2's page work and step 6's confirmation page are oracles too.

Decimal amounts are a sign, a coefficient and a scale (`Decimals.Dec`), with their exact value as a `real`. `str()` of a decimal is modelled, including its switch to scientific notation.

Some behaviours of the code worth knowing, all of them modelled as written:
- Each batch takes one invoice from each of the first `max_concurrent` issuers that still have invoices, in dictionary order. For issuers A,A,B,C,B and two at a time this gives `[a1,b1],[a2,b2],[c1]`.
- The issuance date is only checked to be a real date from 2000-01-01 on. It is not compared with today.
- When step 6 sees the PDF marker, the invoice's recorded error is "Invoice generation failed". The classified message is only printed.
- The currency enumeration has 48 codes besides the placeholder, and every one of them has a description.

## Model

| member | source | states |
|---|---|---|
| BatchProcessor.InvoiceBatchProcessor.constructor | src/autoBilanceo/lib/services/comprobantes/batch_processor.py:15-45 | keeps `max_concurrent` and `delay_between_batches` as given; the results list starts empty |
| BatchProcessor.InvoiceBatchProcessor.CreateIssuerGroups | src/autoBilanceo/lib/services/comprobantes/batch_processor.py:47-61 | the keys are the issuers in first-seen order, without repeats; each issuer maps to exactly its invoices in input order; there are no other keys |
| BatchProcessor.InvoiceBatchProcessor.FillBatch | src/autoBilanceo/lib/services/comprobantes/batch_processor.py:88-105 | one pass of the `while` loop yields the head invoices of the first min(`max_concurrent`, issuers left) issuers, and the dictionary and key order that `pop(0)` and `del` leave |
| BatchProcessor.InvoiceBatchProcessor.VisitIssuer | src/autoBilanceo/lib/services/comprobantes/batch_processor.py:92-105 | one iteration of the `for` loop keeps the pass invariant: the issuers taken are a prefix of the snapshot, an issuer is skipped only once the batch is full, and the batch, keys and lists match the issuers taken |
| BatchProcessor.InvoiceBatchProcessor.TakeHead | src/autoBilanceo/lib/services/comprobantes/batch_processor.py:98-105 | an issuer with invoices moves its first invoice into the batch and is marked used; an issuer whose list runs empty loses its entry and its key; an empty list changes nothing |
| BatchProcessor.InvoiceBatchProcessor.CreateBatches | src/autoBilanceo/lib/services/comprobantes/batch_processor.py:63-111 | the batches are `CreateBatchesSpec`; together they hold exactly the input invoices (as a multiset); every batch has 1 to `max_concurrent` invoices, all of different issuers |
| BatchProcessor.InvoiceBatchProcessor.ProcessSingleInvoice | src/autoBilanceo/lib/services/comprobantes/batch_processor.py:113-227 | the result is `SingleInvoiceResult`, and the stages called are those `RunStages` starts: each stage only while none before it failed |
| BatchProcessor.InvoiceBatchProcessor.RunStage | src/autoBilanceo/lib/services/comprobantes/batch_processor.py:130-217 | running the k-th stage after the first k extends the run exactly as `RunStages` over the first k+1 stages; after a failure it is not called |
| BatchProcessor.InvoiceBatchProcessor.ProcessBatch | src/autoBilanceo/lib/services/comprobantes/batch_processor.py:229-240 | one result per invoice of the batch, in the batch's order |
| BatchProcessor.InvoiceBatchProcessor.ProcessAll | src/autoBilanceo/lib/services/comprobantes/batch_processor.py:242-272 | the results are the per-batch results concatenated in batch order, one per input invoice; the wait happens len(batches)-1 times, or never with no batches |
| BatchProcessor.ResultsOf | src/autoBilanceo/lib/services/comprobantes/batch_processor.py:239-240 | the i-th result is the i-th invoice's result, and there are as many results as invoices |
| BatchProcessor.ResultsOfAppend | src/autoBilanceo/lib/services/comprobantes/batch_processor.py:265-266 | the results of two lists run one after the other are the two result lists concatenated |
| BatchProcessor.ResultsOfNextBatch | src/autoBilanceo/lib/services/comprobantes/batch_processor.py:255-266 | processing one more batch extends the results by exactly that batch's results |
| BatchSchedule.Filter | src/autoBilanceo/lib/services/comprobantes/batch_processor.py:58-60 | an issuer's invoices: a selection of the input's invoices, all of that issuer |
| BatchSchedule.FilterAppend | src/autoBilanceo/lib/services/comprobantes/batch_processor.py:58-60 | selecting one issuer's invoices distributes over concatenation |
| BatchSchedule.IssuerOrder | src/autoBilanceo/lib/services/comprobantes/batch_processor.py:57-61 | the dictionary's key order has no repeats and holds exactly the issuers that have an invoice |
| BatchSchedule.IssuerOrderPrefix | src/autoBilanceo/lib/services/comprobantes/batch_processor.py:57-61 | later invoices only append issuers: the first-seen order of a prefix is kept |
| BatchSchedule.GroupsKeys | src/autoBilanceo/lib/services/comprobantes/batch_processor.py:57-61 | an issuer is a key exactly when it was seen, and its list is its invoices in input order |
| BatchSchedule.GroupingStep | src/autoBilanceo/lib/services/comprobantes/batch_processor.py:58-60 | appending one invoice adds a key only for a new issuer and extends that issuer's list by the invoice |
| BatchSchedule.GroupsWellFormed | src/autoBilanceo/lib/services/comprobantes/batch_processor.py:57-61 | grouping gives a valid starting state for batching: distinct keys, equal to the dictionary's, each list non-empty and holding only its issuer's invoices |
| BatchSchedule.Taken | src/autoBilanceo/lib/services/comprobantes/batch_processor.py:92-95 | a pass takes the first min(`max_concurrent`, issuers left) issuers in key order |
| BatchSchedule.Heads | src/autoBilanceo/lib/services/comprobantes/batch_processor.py:99-100 | one invoice per issuer taken |
| BatchSchedule.KeepLive | src/autoBilanceo/lib/services/comprobantes/batch_processor.py:103-105 | the issuers kept after a pass are exactly those taken that had more than one invoice; their order has no repeats |
| BatchSchedule.RemoveKey | src/autoBilanceo/lib/services/comprobantes/batch_processor.py:104-105 | `del` removes that issuer, and only it, from the key order |
| BatchSchedule.NextWellFormed | src/autoBilanceo/lib/services/comprobantes/batch_processor.py:88-105 | a pass leaves a valid state and removes exactly as many invoices as issuers it took, so the `while` loop ends |
| BatchSchedule.ScheduleUnfold | src/autoBilanceo/lib/services/comprobantes/batch_processor.py:87-109 | the batches are this pass's batch followed by the batches of the state it leaves |
| BatchSchedule.ScheduleStep | src/autoBilanceo/lib/services/comprobantes/batch_processor.py:87-109 | one loop round appends a non-empty batch, keeps "batches so far + batches still to come" unchanged, and lowers the invoice count |
| BatchSchedule.WorkLeft | src/autoBilanceo/lib/services/comprobantes/batch_processor.py:87 | in a valid state, `any(remaining_invoices.values())` holds exactly when some issuer is left |
| BatchSchedule.HeadsIssuers | src/autoBilanceo/lib/services/comprobantes/batch_processor.py:99-101 | the i-th invoice of a batch is the first invoice of the i-th issuer taken, and is from that issuer |
| BatchSchedule.FilterHeads | src/autoBilanceo/lib/services/comprobantes/batch_processor.py:99-101 | an issuer contributes its first invoice to the batch if it was taken, and nothing otherwise |
| BatchSchedule.HeadsFilter | src/autoBilanceo/lib/services/comprobantes/batch_processor.py:99-105 | for each issuer, what a pass puts in the batch followed by what it leaves is what the issuer had |
| BatchSchedule.PassFilter | src/autoBilanceo/lib/services/comprobantes/batch_processor.py:92-105 | the same for a whole pass from a valid state |
| BatchSchedule.ScheduleFilter | src/autoBilanceo/lib/services/comprobantes/batch_processor.py:87-109 | each issuer's invoices, read across all batches, are exactly its list in order |
| BatchSchedule.ScheduleBatches | src/autoBilanceo/lib/services/comprobantes/batch_processor.py:87-109 | every batch has 1 to `max_concurrent` invoices, no two of one issuer |
| BatchSchedule.HeadsShape | src/autoBilanceo/lib/services/comprobantes/batch_processor.py:92-101 | a pass over issuers that are left gives 1 to `max_concurrent` invoices of different issuers |
| BatchSchedule.FirstBatch | src/autoBilanceo/lib/services/comprobantes/batch_processor.py:92-101 | the first batch has min(`max_concurrent`, issuers) invoices: the first invoice of each of the first issuers, in key order |
| BatchSchedule.CreateBatchesIssuerOrder | src/autoBilanceo/lib/services/comprobantes/batch_processor.py:82-109 | one issuer's invoices appear across successive batches in their input order, none lost or repeated |
| BatchSchedule.CreateBatchesPartition | src/autoBilanceo/lib/services/comprobantes/batch_processor.py:82-109 | every input invoice is in exactly one batch: the batches' multiset union is the input |
| BatchSchedule.CreateBatchesShape | src/autoBilanceo/lib/services/comprobantes/batch_processor.py:87-109 | every batch is non-empty, has at most `max_concurrent` invoices and no two invoices of one issuer |
| BatchSchedule.PassStep | src/autoBilanceo/lib/services/comprobantes/batch_processor.py:97-100 | the j-th issuer of a pass is not among those before it, still has its whole list, and adds its first invoice to the batch |
| BatchSchedule.PassStepLive | src/autoBilanceo/lib/services/comprobantes/batch_processor.py:99-101 | taking from an issuer with more than one invoice keeps its key and shortens its list by the head |
| BatchSchedule.PassStepExhausted | src/autoBilanceo/lib/services/comprobantes/batch_processor.py:99-105 | taking an issuer's last invoice deletes its entry and its key |
| BatchSchedule.PassEnd | src/autoBilanceo/lib/services/comprobantes/batch_processor.py:92-95 | when the `for` loop ends, the issuers taken are exactly `Taken` |
| BatchSchedule.VisitSkip | src/autoBilanceo/lib/services/comprobantes/batch_processor.py:94-95 | an issuer is skipped only because the batch is full: issuers in one pass are distinct |
| BatchSchedule.VisitTake | src/autoBilanceo/lib/services/comprobantes/batch_processor.py:97-105 | when the batch has room, taking the j-th issuer's head moves the state to the one for the first j+1 issuers |
| BatchSchedule.NextKeysOrder | src/autoBilanceo/lib/services/comprobantes/batch_processor.py:103-105 | deleting exhausted issuers keeps the others in their relative order |
| BatchSchedule.ScheduleOrder | src/autoBilanceo/lib/services/comprobantes/batch_processor.py:87-101 | within every batch the issuers follow the key order |
| BatchSchedule.CreateBatchesFirstSeen | src/autoBilanceo/lib/services/comprobantes/batch_processor.py:82-101 | within every batch the issuers appear in first-seen order |
| BatchSchedule.ExampleGroups | src/autoBilanceo/lib/services/comprobantes/batch_processor.py:57-61 | issuers A,A,B,C,B group as A:[a1,a2], B:[b1,b2], C:[c1] |
| BatchSchedule.ExampleOrder | src/autoBilanceo/lib/services/comprobantes/batch_processor.py:57-61 | for issuers A,A,B,C,B the key order is A,B,C |
| BatchSchedule.ExamplePasses | src/autoBilanceo/lib/services/comprobantes/batch_processor.py:87-109 | from A:[a1,a2], B:[b1,b2], C:[c1], two at a time, the passes give [a1,b1],[a2,b2],[c1] |
| BatchSchedule.CreateBatchesExample | src/autoBilanceo/lib/services/comprobantes/batch_processor.py:63-111 | invoices of issuers A,A,B,C,B with `max_concurrent` 2 are batched as [a1,b1],[a2,b2],[c1] |
| Pipeline.StageFailure | src/autoBilanceo/lib/services/comprobantes/batch_processor.py:131-217 | a form step fails exactly when `execute_operation` returns False, with that step's message. Setup, authentication and navigation pass only on a true result; a false result gives the stage's message and a raise gives the exception's message |
| Pipeline.RunStages | src/autoBilanceo/lib/services/comprobantes/batch_processor.py:130-217 | no more stages are started than the chain has, and when none failed every stage was started |
| Pipeline.RunStagesPrefix | src/autoBilanceo/lib/services/comprobantes/batch_processor.py:130-217 | the stages started are a prefix of the chain: all of it when none failed, at least one otherwise |
| Pipeline.RunStagesPassed | src/autoBilanceo/lib/services/comprobantes/batch_processor.py:130-217 | every stage before the last one started passed; with no failure, every stage passed |
| Pipeline.RunStagesFailFast | src/autoBilanceo/lib/services/comprobantes/batch_processor.py:130-217 | the failure recorded is the last started stage's own failure |
| Pipeline.RunStagesSucceedsIff | src/autoBilanceo/lib/services/comprobantes/batch_processor.py:130-219 | the chain ends without failure exactly when every stage passes |
| Pipeline.RunStagesStops | src/autoBilanceo/lib/services/comprobantes/batch_processor.py:130-217 | once a stage failed, the stages after it change nothing |
| Pipeline.InitialResult | src/autoBilanceo/lib/services/comprobantes/batch_processor.py:123-128 | the result copies the issuer CUIT and invoice type and starts as "failed" with no error |
| Pipeline.SingleInvoiceResult | src/autoBilanceo/lib/services/comprobantes/batch_processor.py:113-227 | a failed invoice always carries an error message; a successful one carries only the error raised by closing the browser, if any |
| Pipeline.SingleInvoiceIdentifies | src/autoBilanceo/lib/services/comprobantes/batch_processor.py:123-128 | the final result still names the invoice's issuer and type, and its status is "success" or "failed" |
| Pipeline.SingleInvoiceSuccessIff | src/autoBilanceo/lib/services/comprobantes/batch_processor.py:130-219 | the status is "success" exactly when all nine stages pass |
| Pipeline.SingleInvoiceFirstFailure | src/autoBilanceo/lib/services/comprobantes/batch_processor.py:130-225 | when closing succeeds, the error is the first failing stage's message; every earlier stage passed and no later one ran |
| Pipeline.SetupFailureStopsAll | src/autoBilanceo/lib/services/comprobantes/batch_processor.py:131-135 | a browser setup without a page fails the invoice with "⨯ Browser setup failed", and no other stage runs |
| Operations.ExecuteOperation | src/autoBilanceo/lib/operations.py:29-39 | the result is True only when the operation returned True; a raise becomes False |
| Operations.FirstSuccess | src/autoBilanceo/lib/operations.py:69-75 | the first attempt that succeeds, with all earlier ones failed; none when every permitted attempt fails |
| Operations.ItemSucceedsIff | src/autoBilanceo/lib/operations.py:68-81 | an item's result is True exactly when one of its first `max_retries` attempts succeeds |
| Operations.AttemptCountBounds | src/autoBilanceo/lib/operations.py:68-79 | at most `max_retries` attempts, at least one when `max_retries` ≥ 1, stopping at the first success |
| Operations.NoRetriesNoCalls | src/autoBilanceo/lib/operations.py:66-81 | with `max_retries` ≤ 0 the operation is never called and the result is False |
| Operations.ExecuteBatchOperations | src/autoBilanceo/lib/operations.py:41-87 | one result per input item, in order; each is whether the item succeeded within its retries, after exactly the attempts counted |
| Cuit.ValidateCuit | src/autoBilanceo/models/cuit.py:8-17 | a number is accepted exactly when it has 11 characters, all digits; length errors come first |
| Cuit.FromString | src/autoBilanceo/models/cuit.py:19-27 | keeps only the digits, in order; accepted exactly when 11 remain; never refused for non-digits |
| Cuit.CreateCuitNumber | src/autoBilanceo/models/cuit.py:29-42 | accepts and refuses what `from_string` does, with the same number and the length error |
| Cuit.KeepDigitsOfDigits | src/autoBilanceo/models/cuit.py:26 | filtering leaves a string of digits unchanged |
| Cuit.KeepDigitsConcat | src/autoBilanceo/models/cuit.py:26 | the digits of a concatenation are the digits of each part, in order |
| Cuit.FromStringIdempotent | src/autoBilanceo/models/cuit.py:19-27 | parsing an accepted number again gives the same number |
| Cuit.FromStringWithDashes | src/autoBilanceo/models/cuit.py:25-27 | a dashed form such as "20-32861954-8" gives its digit groups run together |
| InvoiceTypes.IssuerTypeFromName | src/autoBilanceo/models/invoice_types.py:5-10 | a name is found exactly when some issuer type has it, and that type's name is the one looked up |
| InvoiceTypes.InvoiceTypeFromName | src/autoBilanceo/models/invoice_types.py:38-72 | a found invoice type has the name looked up |
| InvoiceTypes.InvoiceTypeFromNameNone | src/autoBilanceo/models/invoice_types.py:38-72 | the lookup fails exactly when no invoice type has that name |
| InvoiceTypes.AllInvoiceTypesComplete | src/autoBilanceo/models/invoice_types.py:38-72 | the list of the 24 invoice types misses none |
| InvoiceTypes.AllowedSetsDisjoint | src/autoBilanceo/models/invoice_types.py:115-144 | no invoice type is allowed for both issuer types |
| InvoiceTypes.AllowedSetsCover | src/autoBilanceo/models/invoice_types.py:38-72 | every invoice type is allowed for one of the issuer types |
| InvoiceTypes.MonotributoAllowedSize | src/autoBilanceo/models/invoice_types.py:116-124 | Monotributo may issue 7 invoice types |
| InvoiceTypes.ResponsableInscriptoAllowedSize | src/autoBilanceo/models/invoice_types.py:125-143 | Responsable Inscripto may issue 17 invoice types |
| InvoiceTypes.ValidateInvoiceTypeForIssuer | src/autoBilanceo/models/invoice_types.py:114-150 | a type is allowed for Monotributo exactly when its letter is C, and for Responsable Inscripto exactly when it is not |
| InvoiceTypes.ExactlyOneIssuer | src/autoBilanceo/models/invoice_types.py:146-150 | each invoice type passes `validate_invoice_type_for_issuer` for exactly one issuer type |
| InvoiceTypes.ValidatePuntoVenta | src/autoBilanceo/models/invoice_types.py:21-30 | the model accepts exactly five characters, all digits, unchanged |
| InvoiceTypes.PuntoVentaFromString | src/autoBilanceo/models/invoice_types.py:32-36 | accepted exactly when the input is at most five digits; the number is the input left-padded with zeros to five |
| InvoiceTypes.PuntoVentaValue | src/autoBilanceo/models/invoice_types.py:35 | padding keeps the number's value |
| InvoiceTypes.PuntoVentaExamples | src/autoBilanceo/models/invoice_types.py:21-36 | "7" gives "00007", "" gives "00000"; six digits and a sign are refused |
| InvoiceTypes.CreateInvoiceTypeInfo | src/autoBilanceo/models/invoice_types.py:152-173 | None exactly when the type is not allowed for the issuer or the punto de venta is refused; otherwise the table's description and the padded punto de venta |
| LegacyInvoiceTypes.DescriptionsAgree | src/models/invoice_types.py:57-85 | every invoice type has a description, the same as in the current table |
| LegacyInvoiceTypes.AllowedAgrees | src/models/invoice_types.py:88-117 | the older allowed-types table is the current one |
| LegacyInvoiceTypes.ValidateForIssuer | src/models/invoice_types.py:119-123 | validation is membership in the issuer's allowed set |
| LegacyInvoiceTypes.ExactlyOneIssuerLegacy | src/models/invoice_types.py:88-123 | each invoice type is allowed for exactly one issuer type |
| LegacyInvoiceTypes.CreateInvoiceTypeInfo | src/models/invoice_types.py:126-136 | None exactly when the type is not allowed; otherwise the code, the table's description and the issuer type given |
| LegacyInvoiceTypes.AgreesWithCurrent | src/models/invoice_types.py:126-136 | with a valid punto de venta, the older constructor succeeds when the current one does, with the same code, description and issuer type |
| RecipientData.ConditionCodeInjective | src/autoBilanceo/models/invoice_recipient_data.py:7-24 | the 11 IVA conditions have distinct codes |
| RecipientData.ValidConditionCodes | src/autoBilanceo/models/invoice_recipient_data.py:46-78 | Responsable Inscripto with Factura A admits codes {1, 6, 13, 16}; with any other type it admits {4, 5, 7, 8, 9, 10, 15}; Monotributo admits all |
| RecipientData.ResponsableInscriptoSplit | src/autoBilanceo/models/invoice_recipient_data.py:46-63 | for Responsable Inscripto each condition is legal for exactly one of Factura A and any other type |
| RecipientData.MonotributoAcceptsAll | src/autoBilanceo/models/invoice_recipient_data.py:65-78 | Monotributo accepts every condition, whatever the invoice type |
| RecipientData.CreateIvaConditionInfo | src/autoBilanceo/models/invoice_recipient_data.py:40-122 | succeeds exactly when the condition is admitted, holding the three inputs unchanged; a refusal's message names the issuer type and the invoice type |
| RecipientData.DescriptionDefined | src/autoBilanceo/models/invoice_recipient_data.py:87-99 | every condition has a non-empty description |
| IssuanceData.ValidateIssuanceDate | src/autoBilanceo/models/invoice_issuance_data.py:20-25 | a date is accepted exactly when it is not before 1 January 2000 |
| IssuanceData.StrptimeDate | src/autoBilanceo/models/invoice_issuance_data.py:37 | `strptime` with "%d/%m/%Y" only yields real calendar dates |
| IssuanceData.StrptimeParts | src/autoBilanceo/models/invoice_issuance_data.py:37 | text of the form day/month/year is read field by field |
| IssuanceData.IssuanceDateFromString | src/autoBilanceo/models/invoice_issuance_data.py:31-40 | accepted exactly when the text parses as dd/mm/yyyy to a date from 2000 on; every refusal, the pre-2000 one included, gives "Date must be in dd/mm/yyyy format" |
| IssuanceData.FormatForAfip | src/autoBilanceo/models/invoice_issuance_data.py:27-29 | for a real date from 2000 on, ten characters, with slashes at positions 2 and 5 |
| IssuanceData.FormatRoundTrip | src/autoBilanceo/models/invoice_issuance_data.py:27-40 | parsing the AFIP format of an accepted date gives that date back |
| IssuanceData.ParsesTwoDigitFields | src/autoBilanceo/models/invoice_issuance_data.py:37 | zero-padded dd/mm/yyyy text parses to that day, month and year exactly when they form a real date |
| IssuanceData.ShortFieldsExample | src/autoBilanceo/models/invoice_issuance_data.py:37 | `strptime` also accepts unpadded fields: " 5/3/2024" is 5 March 2024 |
| IssuanceData.Before2000Example | src/autoBilanceo/models/invoice_issuance_data.py:20-40 | "31/12/1999" is refused with the format message |
| IssuanceData.NoSuchDayExample | src/autoBilanceo/models/invoice_issuance_data.py:36-40 | "30/02/2024" is refused |
| IssuanceData.ValidateBillingPeriod | src/autoBilanceo/models/invoice_issuance_data.py:50-71 | accepted exactly when start ≤ end ≤ due, due ≥ today and start ≤ today; each refusal gives the message of the first check that fails |
| IssuanceData.BillingPeriodOrdered | src/autoBilanceo/models/invoice_issuance_data.py:59-69 | an accepted period is ordered, with today between start and due date |
| IssuanceData.BillingPeriodAsWritten | src/autoBilanceo/models/invoice_issuance_data.py:59-69 | as written the validator always raises: a ValueError from the first two checks, or else a TypeError |
| IssuanceData.ValidateIssuanceData | src/autoBilanceo/models/invoice_issuance_data.py:81-89 | a concept with services needs a billing period; products alone do not |
| IssuanceData.ParsePeriodDates | src/autoBilanceo/models/invoice_issuance_data.py:121-125 | the three dates of a period parse exactly when each does |
| IssuanceData.CreateIssuanceData | src/autoBilanceo/models/invoice_issuance_data.py:98-135 | with day comparisons, a result exactly when the issuance date parses and either all three period dates are non-empty and form an accepted period, or they are not all given and the concept has no services; a period is built exactly when all three are given, and it holds the three parsed dates in order (start, end, due) |
| IssuanceData.CreateIssuanceDataAsWritten | src/autoBilanceo/models/invoice_issuance_data.py:98-135 | as written, a TypeError escapes exactly when a period is given whose dates parse and are ordered; any result it returns has no billing period |
| IssuanceData.AsWrittenNeverIssuesServices | src/autoBilanceo/models/invoice_issuance_data.py:65-135 | as written, no issuance data with services is ever created |
| IssuanceData.BillingPeriodAsWrittenRaises | src/autoBilanceo/models/invoice_issuance_data.py:65-69 | a well-ordered January 2024 service period makes the as-written code raise |
| IssuanceData.BillingPeriodIntendedAccepts | src/autoBilanceo/models/invoice_issuance_data.py:59-131 | the same period is accepted with day comparisons, taking 5 February 2024 as today |
| IssuanceData.ExampleDatesParse | src/autoBilanceo/models/invoice_issuance_data.py:31-40 | "05/02/2024", "01/01/2024", "31/01/2024" and "10/02/2024" parse to those days |
| IssuanceData.ConceptDescriptionDefined | src/autoBilanceo/models/invoice_issuance_data.py:92-96 | every concept type has a description |
| ContentServices.IvaRateInfoDefined | src/autoBilanceo/models/invoice_content_services.py:21-30 | every IVA rate has an entry; its percentage is between 0 and 27, and is 0 exactly for no gravado, exento and 0% |
| ContentServices.IvaRateCodeInjective | src/autoBilanceo/models/invoice_content_services.py:7-18 | the rates have distinct codes |
| ContentServices.RatePercent | src/autoBilanceo/models/invoice_content_services.py:176 | the percentage looked up is between 0 and 27, and 0 exactly for the three untaxed rates |
| ContentServices.ServiceCodeFromString | src/autoBilanceo/models/invoice_content_services.py:54-62 | accepted exactly when the stripped text is one to four digits; the code is it left-padded with zeros to four; the refusal names the failed check |
| ContentServices.ServiceCodeValue | src/autoBilanceo/models/invoice_content_services.py:62 | padding keeps the code's value |
| ContentServices.ServiceCodeTwoDigits | src/autoBilanceo/models/invoice_content_services.py:54-62 | a two-digit code such as "12" becomes "0012" |
| ContentServices.CheckRendering | src/autoBilanceo/models/invoice_content_services.py:80-87 | a rendering passes exactly when it has at most the allowed digits once points are removed, and at most two characters after the last point |
| ContentServices.ValidateUnitPrice | src/autoBilanceo/models/invoice_content_services.py:70-89 | a price is accepted exactly when it is not negative, has at most 19 digits and at most 2 decimal places |
| ContentServices.ValidateUnitPriceAsWritten | src/autoBilanceo/models/invoice_content_services.py:76-89 | reading the counts off `str(v)` agrees with that whenever `str` does not use scientific notation |
| ContentServices.UnitPriceFromString | src/autoBilanceo/models/invoice_content_services.py:91-99 | accepted exactly when the stripped text is a decimal the validator accepts, with that amount; every failure is "Invalid unit price format" |
| ContentServices.UnitPriceFromStringAsWritten | src/autoBilanceo/models/invoice_content_services.py:91-99 | as written, every failure is "Invalid unit price format" |
| ContentServices.UnitPriceRoundTrip | src/autoBilanceo/models/invoice_content_services.py:91-99 | a valid price written out positionally is read back as the same price |
| ContentServices.UnitPriceFromPlainStr | src/autoBilanceo/models/invoice_content_services.py:91-99 | a positional text is accepted exactly when its amount passes the validator |
| ContentServices.TinyScientific | src/autoBilanceo/models/invoice_content_services.py:80-85 | `str` of 0.0000001 is "1E-7": four characters and no point |
| ContentServices.TinyAsWrittenValid | src/autoBilanceo/models/invoice_content_services.py:76-127 | as written, both amount validators accept 0.0000001 |
| ContentServices.UnitPriceAsWrittenSevenPlaces | src/autoBilanceo/models/invoice_content_services.py:84-99 | as written, "0.0000001" is accepted as a unit price despite its seven places |
| ContentServices.UnitPriceThreePlacesRefused | src/autoBilanceo/models/invoice_content_services.py:84-87 | "100.999" has three decimal places and is refused with "Invalid unit price format" |
| ContentServices.UnitPriceSevenPlacesRefused | src/autoBilanceo/models/invoice_content_services.py:84-87 | with places counted on the value, "0.0000001" is refused |
| ContentServices.ValidateDiscount | src/autoBilanceo/models/invoice_content_services.py:107-127 | a discount is accepted exactly when it is between 0 and 100, with at most 6 digits and at most 2 decimal places |
| ContentServices.ValidateDiscountAsWritten | src/autoBilanceo/models/invoice_content_services.py:114-127 | reading the counts off `str(v)` agrees with that whenever `str` does not use scientific notation |
| ContentServices.DiscountFromString | src/autoBilanceo/models/invoice_content_services.py:129-140 | empty or blank text is 0; otherwise accepted exactly when the stripped text is a decimal the validator accepts; every failure is "Invalid discount percentage format" |
| ContentServices.DiscountFromText | src/autoBilanceo/models/invoice_content_services.py:138-140 | non-empty stripped text: accepted exactly when it parses and validates, within 0 to 100 |
| ContentServices.DiscountFromStringAsWritten | src/autoBilanceo/models/invoice_content_services.py:129-140 | as written, every failure is "Invalid discount percentage format" |
| ContentServices.DiscountRoundTrip | src/autoBilanceo/models/invoice_content_services.py:129-140 | a valid discount written out positionally is read back as the same discount |
| ContentServices.DiscountAsWrittenSevenPlaces | src/autoBilanceo/models/invoice_content_services.py:122-140 | as written, "0.0000001" is accepted as a discount despite its seven places |
| ContentServices.DiscountSevenPlacesRefused | src/autoBilanceo/models/invoice_content_services.py:122-125 | with places counted on the value, "0.0000001" is refused |
| ContentServices.ValidateServiceInvoiceLine | src/autoBilanceo/models/invoice_content_services.py:153-159 | a line is accepted exactly when an IVA rate is given for Responsable Inscripto and none for Monotributo; each refusal has its message |
| ContentServices.DiscountedPrice | src/autoBilanceo/models/invoice_content_services.py:161-168 | within the field bounds, the discounted price lies between 0 and the unit price; a 100% discount leaves 0 |
| ContentServices.DiscountedPriceProperties | src/autoBilanceo/models/invoice_content_services.py:161-168 | the discounted price is unit × (100 − d)/100, and equals the unit price when d = 0 |
| ContentServices.IvaAmount | src/autoBilanceo/models/invoice_content_services.py:170-177 | within the field bounds, the IVA is at least 0 and at most 27% of the discounted price |
| ContentServices.IvaAmountProperties | src/autoBilanceo/models/invoice_content_services.py:170-177 | IVA is 0 for Monotributo and for the three untaxed rates; otherwise the discounted price × rate/100 |
| ContentServices.TotalPrice | src/autoBilanceo/models/invoice_content_services.py:179-182 | within the field bounds, the total lies between the discounted price and 127% of it |
| ContentServices.TotalPriceAtLeastDiscounted | src/autoBilanceo/models/invoice_content_services.py:179-182 | the total is at least the discounted price, and equal to it for Monotributo |
| ContentServices.AmountsExample | src/autoBilanceo/models/invoice_content_services.py:161-182 | 100.99 at 10% discount gives 90.891, and 109.97811 with 21% IVA |
| ContentServices.CreateServiceInvoiceLine | src/autoBilanceo/models/invoice_content_services.py:184-217 | succeeds exactly when code, price and discount parse (a missing discount reads as "0") and the IVA rule holds, with those values; the first failing parse's error is the one raised |
| ContentServices.DefaultDiscount | src/autoBilanceo/models/invoice_content_services.py:209 | the default "0" reads as a zero discount |
| ContentServices.NoDiscountMeansZero | src/autoBilanceo/models/invoice_content_services.py:209 | a line created without a discount has a zero discount |
| Decimals.Parse | src/autoBilanceo/models/invoice_content_services.py:97 | a parsed decimal is negative exactly when the text starts with a minus sign |
| Decimals.ValueSign | src/autoBilanceo/models/invoice_content_services.py:72 | a decimal is below zero exactly when it has a minus sign and a non-zero coefficient |
| Decimals.PlainStrMeasures | src/autoBilanceo/models/invoice_content_services.py:80-85 | the positional text of a decimal has as many characters after the point as its scale, and `TotalDigits` characters once the point is removed |
| Decimals.ParsePlainStr | src/autoBilanceo/models/invoice_content_services.py:97 | reading a decimal's positional text gives the decimal back |
| Decimals.PyStr | src/autoBilanceo/models/invoice_content_services.py:80 | the text has an exponent marker exactly in the scientific form; otherwise it reads back as the same decimal |
| Decimals.PyStrPlain | src/autoBilanceo/models/invoice_content_services.py:80 | `str` is the positional text unless the scientific form applies |
| PaymentMethods.PaymentMethodCodeInjective | src/autoBilanceo/models/invoice_payment_methods.py:5-16 | the payment methods have distinct codes |
| PaymentMethods.DescriptionDefined | src/autoBilanceo/models/invoice_payment_methods.py:47-56 | every payment method has a non-empty description |
| PaymentMethods.PaymentMethodInfo.HasPaymentMethod | src/autoBilanceo/models/invoice_payment_methods.py:36-38 | true for a selected method, and a selected card method means card data is needed |
| PaymentMethods.PaymentMethodInfo.RequiresCardData | src/autoBilanceo/models/invoice_payment_methods.py:40-44 | true exactly when debit or credit card is selected |
| PaymentMethods.AnyCardMethodIff | src/autoBilanceo/models/invoice_payment_methods.py:40-44 | card data is needed exactly when debit or credit card is selected |
| PaymentMethods.PaymentMethodInfo.constructor | src/autoBilanceo/models/invoice_payment_methods.py:18-26 | the selection holds the methods given |
| PaymentMethods.PaymentMethodInfo.AddPaymentMethod | src/autoBilanceo/models/invoice_payment_methods.py:28-30 | afterwards the method is selected and every other method is as before |
| PaymentMethods.PaymentMethodInfo.RemovePaymentMethod | src/autoBilanceo/models/invoice_payment_methods.py:32-34 | afterwards the method is not selected, every other method is as before, and removing an absent method changes nothing |
| PaymentMethods.DistinctMethods | src/autoBilanceo/models/invoice_payment_methods.py:74 | `set(methods)` holds exactly the arguments, no more elements than arguments, and is non-empty for non-empty arguments |
| PaymentMethods.PaymentSelection | src/autoBilanceo/models/invoice_payment_methods.py:58-74 | no arguments give "At least one payment method must be selected"; otherwise the selection is the set of arguments |
| PaymentMethods.CreatePaymentMethodInfo | src/autoBilanceo/models/invoice_payment_methods.py:58-74 | fails exactly for no arguments; otherwise a new object whose selection is the set of arguments |
| PaymentMethods.DuplicatesCollapse | src/autoBilanceo/models/invoice_payment_methods.py:74 | repeated arguments count once |
| Currency.CurrencyValue | src/autoBilanceo/models/invoice_currency.py:4-73 | the value is empty exactly for the placeholder; every other value has three characters |
| Currency.CurrencyFromValue | src/autoBilanceo/models/invoice_currency.py:4-73 | a code found for a value has exactly that value |
| Currency.CurrencyDescription | src/autoBilanceo/models/invoice_currency.py:83-147 | the table has an entry, non-empty, for every code except the placeholder |
| Currency.CurrencyValueRoundTrip | src/autoBilanceo/models/invoice_currency.py:4-73 | looking up a code's value gives that code back |
| Currency.CurrencyValuesDistinct | src/autoBilanceo/models/invoice_currency.py:9-73 | no two currency codes share a value |
| Currency.CreateCurrencyInfo | src/autoBilanceo/models/invoice_currency.py:83-159 | the placeholder is refused with "Currency must be selected"; every one of the other 48 codes has a table entry and gets its description |
| InputHandler.NumChunksIsCeiling | src/autoBilanceo/lib/services/comprobantes/input_handler.py:47-50 | the number of batches is the ceiling of n / b, and 0 for no invoices |
| InputHandler.Chunks | src/autoBilanceo/lib/services/comprobantes/input_handler.py:47-50 | there are `NumChunks` batches |
| InputHandler.ChunkAt | src/autoBilanceo/lib/services/comprobantes/input_handler.py:47-50 | the k-th batch is the slice from k·b to k·b + b, cut at the end of the list |
| InputHandler.FlattenChunks | src/autoBilanceo/lib/services/comprobantes/input_handler.py:47-50 | concatenating the batches gives back the list exactly |
| InputHandler.ChunkSizes | src/autoBilanceo/lib/services/comprobantes/input_handler.py:47-50 | every batch but the last holds b invoices, the last 1 to b; no batches exactly for no invoices |
| InputHandler.InvoiceInputHandler.constructor | src/autoBilanceo/lib/services/comprobantes/input_handler.py:6-13 | a handler without a file holds no invoices |
| InputHandler.InvoiceInputHandler.LoadInvoiceData | src/autoBilanceo/lib/services/comprobantes/input_handler.py:15-31 | the invoices become the file's contents |
| InputHandler.InvoiceInputHandler.GetInvoiceCount | src/autoBilanceo/lib/services/comprobantes/input_handler.py:33-35 | the count is the number of invoices |
| InputHandler.InvoiceInputHandler.GetInvoiceBatch | src/autoBilanceo/lib/services/comprobantes/input_handler.py:37-50 | a positive size gives batches that concatenate back to the invoices; size 0 raises; a negative size gives no batches |
| InputHandler.InvoiceInputHandler.GetInvoiceData | src/autoBilanceo/lib/services/comprobantes/input_handler.py:52-62 | the element at that index, negative indices counting from the end; an error outside the list |
| InputHandler.SevenInBatchesOfFive | src/autoBilanceo/lib/services/comprobantes/input_handler.py:47-50 | seven invoices in batches of five are one batch of five and one of two |
| SelectInvoiceTypeStep.PuntoVentaOption | src/autoBilanceo/lib/services/comprobantes/step2_select_invoice_type.py:35 | the option is the punto de venta's value without leading zeros ("0" for zero) |
| SelectInvoiceTypeStep.ValidateSelection | src/autoBilanceo/lib/services/comprobantes/step2_select_invoice_type.py:31-51 | in order: a refused punto de venta, then unknown issuer or invoice type names, then a type not allowed for the issuer (message naming both); on success the names match, and the options are the unpadded punto de venta and the type's code |
| SelectInvoiceTypeStep.SelectInvoiceType | src/autoBilanceo/lib/services/comprobantes/step2_select_invoice_type.py:27-90 | True exactly when the checks pass and the page work succeeds; a failed check gives False whatever the page would do |
| SelectInvoiceTypeStep.NotAllowedFails | src/autoBilanceo/lib/services/comprobantes/step2_select_invoice_type.py:47-49 | a type the issuer may not emit fails with the message naming both, before the page is touched |
| SelectInvoiceTypeStep.PuntoVentaOptionExamples | src/autoBilanceo/lib/services/comprobantes/step2_select_invoice_type.py:33-35 | "00007" selects "7" and "00000" selects "0" |
| GenerateInvoiceStep.ClassifyGenerationError | src/autoBilanceo/lib/services/comprobantes/step6_generate_invoice.py:115-123 | the PDF marker wins, then the authorization-code marker, then the additional-data marker; with no marker, "Unknown error: " and the raw message |
| GenerateInvoiceStep.PdfMarkerWins | src/autoBilanceo/lib/services/comprobantes/step6_generate_invoice.py:116-117 | a message holding the PDF marker anywhere is a PDF Generation Error |
| GenerateInvoiceStep.UnknownKeepsMessage | src/autoBilanceo/lib/services/comprobantes/step6_generate_invoice.py:122-123 | an unclassified message is reported whole after the prefix |
| GenerateInvoiceStep.ConfirmInvoiceGeneration | src/autoBilanceo/lib/services/comprobantes/step6_generate_invoice.py:34-134 | an invoice counts as generated exactly when the success block shows a numeric id and the PDF is saved; an error div is classified; nothing shown, or a raise, is a failure |
| GenerateInvoiceStep.ErrorsReturnFalse | src/autoBilanceo/lib/services/comprobantes/step6_generate_invoice.py:106-134 | every error-div outcome, and every exception, makes the step return False |

## Left out

- Browser work is not modelled; it becomes oracles: the `Browser` and `Closer` functions, step 2's `pageSucceeds`, and step 6's `ConfirmationPage`. This covers setup, authentication, navigation, `verify_rcel_page`, the bodies of steps 1 and 3 to 5, and the PDF download. So the argument-passing slips around those calls are not seen either: step 1 gets no company name, and step 4 is given an `invoice_type` it does not take.
- `asyncio.gather` runs each batch's invoices one after another in the model. The results are the same list in the same order; the interleaving of concurrent sessions is not modelled.
- `asyncio.sleep` is counted, not timed: `ProcessAll` returns the number of waits between batches. The random delays inside `execute_operation`, its retries and the steps are left out.
- `verbose` printing, `headless`, `downloads_path` and `delay_between_batches`' length have no effect on the modelled results, so they are left out.
- The invoice dictionaries are reduced to the four fields the processor reads (`InvoiceRequest`). A missing key (a KeyError) is not modelled.
- BatchProcessor.InvoiceBatchProcessor.CreateBatches: requires `max_concurrent` ≥ 1 or no invoices. With 0 or less, `_create_batches` takes nothing in a pass and never leaves its `while` loop (src/autoBilanceo/lib/services/comprobantes/batch_processor.py:88-107). The command line passes `--max-concurrent` through unchecked (src/autoBilanceo/__init__.py:52-56), so `--max-concurrent 0` with any invoice hangs. That run is not modelled, because the batching functions are defined by a measure that must decrease.
- BatchProcessor.InvoiceBatchProcessor.ProcessAll: requires the same, for the same reason.
- BatchProcessor.InvoiceBatchProcessor.ProcessSingleInvoice: the exception message of a raising form step is never seen, because `execute_operation` turns every raise into False. Its printed text is left out.
- `InvoiceInputHandler.load_invoice_file` reads JSON from disk. `LoadInvoiceData` takes the parsed contents instead, and the missing-file error is left out.
- Decimal arithmetic is exact (`real`). The 28-digit context rounding of the derived amounts is not modelled.
- Decimal text is read in positional form only: an optional sign, digits, and an optional point with digits. Exponents, underscores, NaN and Infinity are not accepted by the model's parser, where Python's `Decimal` accepts them.
- `str.isdigit`, `str.isspace` and `strip` are modelled on ASCII characters only.
- `datetime.now()` becomes the `today` parameter of the billing-period check.
- The description tables are modelled as constants, with lemmas that every key is present. The printed `Invalid punto de venta` / `Invalid issuance data` messages are left out; the `None` results are kept.
- pydantic's `ValidationError` wrapping is left out. A refusal carries the validator's own message or an error tag for the field bound that failed.
- RecipientData.CreateIvaConditionInfo: the source's refusal message renders the condition by its integer code. The contract only promises that the message names the issuer and invoice types.

## Findings

| source | as written | input that shows it | evidently intended | confidence | as-written member | corrected member |
|---|---|---|---|---|---|---|
| src/autoBilanceo/models/invoice_issuance_data.py:65-69 | `BillingPeriod` compares each date's `datetime` with `datetime.now().date()`, which Python refuses with a TypeError. `create_issuance_data` catches only ValueError, so the TypeError escapes. Every well-ordered billing period raises, and no invoice with services can be created. | `create_issuance_data("05/02/2024", SERVICIOS, "01/01/2024", "31/01/2024", "10/02/2024")` | compare calendar days: the due date is not before today and the start is not after today | not executed | IssuanceData.CreateIssuanceDataAsWritten, IssuanceData.BillingPeriodAsWrittenRaises | IssuanceData.CreateIssuanceData, IssuanceData.BillingPeriodIntendedAccepts |
| src/autoBilanceo/models/invoice_content_services.py:80-87, 118-125 | The digit and decimal-place limits are read off `str(v)`. For values below 10⁻⁶ this is scientific notation ("1E-7"), which has no point, so seven decimal places pass the two-place check. | `UnitPrice.from_string("0.0000001")` and `DiscountPercentage.from_string("0.0000001")` are accepted | at most two decimal places, whatever the magnitude | not executed | ContentServices.UnitPriceAsWrittenSevenPlaces, ContentServices.DiscountAsWrittenSevenPlaces | ContentServices.UnitPriceSevenPlacesRefused, ContentServices.DiscountSevenPlacesRefused |
