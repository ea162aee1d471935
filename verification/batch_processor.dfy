/** `InvoiceBatchProcessor`: splits the invoices into batches that never
    hold two invoices of one issuer (one AFIP session per issuer at a time),
    runs each invoice through the step chain, and collects the results. */
module BatchProcessor {
  import opened Common
  import opened Requests
  import opened Operations
  import opened BatchSchedule
  import opened Pipeline

  /** The results of a list of invoices, in the same order. */
  function ResultsOf(browser: Browser, close: Closer, invoices: seq<InvoiceRequest>): (r: seq<InvoiceResult>)
    ensures |r| == |invoices|
    ensures forall i :: 0 <= i < |r| ==> r[i] == SingleInvoiceResult(browser, close, invoices[i])
  {
    if invoices == [] then []
    else [SingleInvoiceResult(browser, close, invoices[0])] + ResultsOf(browser, close, invoices[1..])
  }

  lemma {:induction false} ResultsOfAppend(browser: Browser, close: Closer, a: seq<InvoiceRequest>,
                                           b: seq<InvoiceRequest>)
    ensures ResultsOf(browser, close, a + b) == ResultsOf(browser, close, a) + ResultsOf(browser, close, b)
  {
    if a == [] {
      assert a + b == b;
    } else {
      assert (a + b)[1..] == a[1..] + b;
      ResultsOfAppend(browser, close, a[1..], b);
    }
  }

  /** Processing one more batch extends the results by that batch's. */
  lemma ResultsOfNextBatch(browser: Browser, close: Closer, batches: seq<seq<InvoiceRequest>>, i: nat)
    requires i < |batches|
    ensures ResultsOf(browser, close, Flatten(batches[..i + 1]))
         == ResultsOf(browser, close, Flatten(batches[..i])) + ResultsOf(browser, close, batches[i])
  {
    PrefixExtend(batches, i);
    FlattenAppend(batches[..i], [batches[i]]);
    assert Flatten([batches[i]]) == batches[i] + Flatten([]);
    ResultsOfAppend(browser, close, Flatten(batches[..i]), batches[i]);
  }

  class InvoiceBatchProcessor {
    var maxConcurrent: int
    var delayBetweenBatches: int
    /** Initialised empty; no method of the source writes to it. */
    var results: seq<InvoiceResult>

    constructor(maxConcurrent: int, delayBetweenBatches: int)
      ensures this.maxConcurrent == maxConcurrent && this.delayBetweenBatches == delayBetweenBatches
      ensures results == []
    {
      this.maxConcurrent := maxConcurrent;
      this.delayBetweenBatches := delayBetweenBatches;
      results := [];
    }

    /** `_create_issuer_groups`: a dictionary from issuer to invoices, filled
        by appending each invoice to its issuer's list. `keys` is the
        dictionary's key order. */
    method CreateIssuerGroups(invoices: seq<InvoiceRequest>)
      returns (keys: seq<string>, groups: map<string, seq<InvoiceRequest>>)
      ensures keys == IssuerOrder(invoices) && groups == Groups(invoices)
      ensures Distinct(keys)
      ensures forall c :: c in groups <==> c in keys
      ensures forall c :: c in groups ==> groups[c] == Filter(invoices, c)
    {
      keys, groups := [], map[];
      var i := 0;
      while i < |invoices|
        invariant 0 <= i <= |invoices|
        invariant keys == IssuerOrder(invoices[..i]) && groups == Groups(invoices[..i])
      {
        var invoice := invoices[i];
        var cuit := invoice.issuerCuit;
        PrefixExtend(invoices, i);
        GroupingStep(invoices[..i], invoice);
        if cuit !in groups {
          keys := keys + [cuit];
          groups := groups[cuit := []];
        }
        groups := groups[cuit := groups[cuit] + [invoice]];
        i := i + 1;
      }
      assert invoices[..i] == invoices;
      forall c
        ensures c in groups <==> c in keys
        ensures c in groups ==> groups[c] == Filter(invoices, c)
      {
        GroupsKeys(invoices, c);
      }
    }

    /** One pass of the `while` loop of `_create_batches`: the `for` loop over
        a snapshot of the dictionary's items, taking the head invoice of each
        issuer not yet used while the batch has room, and deleting issuers
        whose list runs empty. */
    method FillBatch(keys0: seq<string>, remaining0: map<string, seq<InvoiceRequest>>)
      returns (batch: seq<InvoiceRequest>, keys: seq<string>, remaining: map<string, seq<InvoiceRequest>>)
      requires WellFormed(keys0, remaining0) && maxConcurrent >= 1
      ensures batch == Heads(Taken(keys0, maxConcurrent), remaining0)
      ensures keys == NextKeys(keys0, remaining0, maxConcurrent)
      ensures remaining == Advance(remaining0, Taken(keys0, maxConcurrent))
    {
      var max := maxConcurrent;
      batch, keys, remaining := [], keys0, remaining0;
      var usedIssuers: set<string> := {};
      var snapshot := keys0;
      ghost var taken: seq<string> := [];
      var j := 0;
      assert remaining0 == Advance(remaining0, []);
      while j < |snapshot|
        invariant 0 <= j <= |snapshot|
        invariant |taken| <= max && |taken| <= j
        invariant |taken| < max ==> |taken| == j
        invariant taken == snapshot[..|taken|]
        invariant batch == Heads(taken, remaining0)
        invariant forall k :: k in usedIssuers ==> k in taken
        invariant keys == KeepLive(taken, remaining0) + snapshot[|taken|..]
        invariant remaining == Advance(remaining0, taken)
      {
        batch, keys, remaining, usedIssuers, taken :=
          VisitIssuer(snapshot, remaining0, max, j, taken, batch, keys, remaining, usedIssuers);
        j := j + 1;
      }
      PassEnd(snapshot, taken, max);
    }

    /** One iteration of the `for` loop of `_create_batches`, at the
        snapshot's `j`-th issuer: skipped when already used or when the
        batch is full, otherwise its head is taken. `taken` lists the
        issuers taken so far in this pass. */
    static method VisitIssuer(snapshot: seq<string>, ghost remaining0: map<string, seq<InvoiceRequest>>,
                              max: int, j: nat, ghost taken0: seq<string>,
                              batch0: seq<InvoiceRequest>, keys0: seq<string>,
                              current: map<string, seq<InvoiceRequest>>, usedIssuers0: set<string>)
      returns (batch: seq<InvoiceRequest>, keys: seq<string>,
               remaining: map<string, seq<InvoiceRequest>>, usedIssuers: set<string>, ghost taken: seq<string>)
      requires WellFormed(snapshot, remaining0) && max >= 1 && j < |snapshot|
      requires |taken0| <= max && |taken0| <= j
      requires |taken0| < max ==> |taken0| == j
      requires taken0 == snapshot[..|taken0|]
      requires batch0 == Heads(taken0, remaining0)
      requires forall k :: k in usedIssuers0 ==> k in taken0
      requires keys0 == KeepLive(taken0, remaining0) + snapshot[|taken0|..]
      requires current == Advance(remaining0, taken0)
      ensures |taken| <= max && |taken| <= j + 1
      ensures |taken| < max ==> |taken| == j + 1
      ensures taken == snapshot[..|taken|]
      ensures batch == Heads(taken, remaining0)
      ensures forall k :: k in usedIssuers ==> k in taken
      ensures keys == KeepLive(taken, remaining0) + snapshot[|taken|..]
      ensures remaining == Advance(remaining0, taken)
    {
      var cuit := snapshot[j];
      if cuit in usedIssuers0 || |batch0| >= max {
        // the batch is full: later issuers wait for the next pass
        VisitSkip(snapshot, j, taken0, max);
        batch, keys, remaining, usedIssuers, taken := batch0, keys0, current, usedIssuers0, taken0;
      } else {
        assert |taken0| == |batch0| == j < max;
        assert taken0 == snapshot[..j];
        VisitTake(snapshot, remaining0, j, taken0, batch0, keys0, current);
        batch, keys, remaining, usedIssuers := TakeHead(cuit, batch0, keys0, current, usedIssuers0);
        taken := taken0 + [cuit];
      }
    }

    /** One issuer's turn in a pass: if it still has invoices, its first
        one moves into the batch and the issuer is marked used; an issuer
        whose list runs empty is deleted with its key. */
    static method TakeHead(cuit: string, batch0: seq<InvoiceRequest>, keys0: seq<string>,
                           remaining0: map<string, seq<InvoiceRequest>>, usedIssuers0: set<string>)
      returns (batch: seq<InvoiceRequest>, keys: seq<string>,
               remaining: map<string, seq<InvoiceRequest>>, usedIssuers: set<string>)
      requires cuit in remaining0
      ensures remaining0[cuit] == [] ==>
                batch == batch0 && keys == keys0 && remaining == remaining0 && usedIssuers == usedIssuers0
      ensures remaining0[cuit] != [] ==>
                && batch == batch0 + [remaining0[cuit][0]]
                && usedIssuers == usedIssuers0 + {cuit}
                && (remaining0[cuit][1..] != [] ==>
                      keys == keys0 && remaining == remaining0[cuit := remaining0[cuit][1..]])
                && (remaining0[cuit][1..] == [] ==>
                      keys == RemoveKey(keys0, cuit) && remaining == remaining0[cuit := []] - {cuit})
    {
      batch, keys, remaining, usedIssuers := batch0, keys0, remaining0, usedIssuers0;
      // the snapshot's list is the dictionary's own list object, so
      // popping from it changes the dictionary's entry
      var invoices := remaining[cuit];
      if invoices != [] {
        var invoice := invoices[0];
        invoices := invoices[1..];
        remaining := remaining[cuit := invoices];
        batch := batch + [invoice];
        usedIssuers := usedIssuers + {cuit};
        if invoices == [] {
          remaining := remaining - {cuit};
          keys := RemoveKey(keys, cuit);
        }
      }
    }

    /** `_create_batches`: while any issuer has invoices left, fill one batch
        and append it. With `max_concurrent` below 1 and invoices present the
        source never leaves this loop, so such a call is excluded. */
    method CreateBatches(invoices: seq<InvoiceRequest>) returns (batches: seq<seq<InvoiceRequest>>)
      requires maxConcurrent >= 1 || invoices == []
      ensures batches == CreateBatchesSpec(invoices, maxConcurrent)
      ensures multiset(Flatten(batches)) == multiset(invoices)
      ensures forall b :: b in batches ==> 1 <= |b| <= maxConcurrent && DistinctIssuers(b)
    {
      var keys, groups := CreateIssuerGroups(invoices);
      GroupsWellFormed(invoices);
      var remaining := groups;
      batches := [];
      while AnyValues(keys, remaining)
        invariant WellFormed(keys, remaining) && (maxConcurrent >= 1 || keys == [])
        invariant batches + Schedule(keys, remaining, maxConcurrent) == CreateBatchesSpec(invoices, maxConcurrent)
        decreases Total(keys, remaining)
      {
        WorkLeft(keys, remaining);
        var currentBatch, nextKeys, nextRemaining := FillBatch(keys, remaining);
        ScheduleStep(batches, keys, remaining, maxConcurrent, currentBatch, nextKeys, nextRemaining);
        if currentBatch != [] {
          batches := batches + [currentBatch];
        }
        keys, remaining := nextKeys, nextRemaining;
      }
      WorkLeft(keys, remaining);
      CreateBatchesPartition(invoices, maxConcurrent);
      CreateBatchesShape(invoices, maxConcurrent);
    }

    /** `process_single_invoice`: the result starts as failed with no error;
        setup, authentication and service navigation are awaited directly,
        the six steps go through `execute_operation`, and the first failure
        raises. Closing the browser happens only after setup produced a
        page, whether or not a later stage failed. `started` lists the
        stages that were called. */
    method ProcessSingleInvoice(browser: Browser, close: Closer, req: InvoiceRequest)
      returns (result: InvoiceResult, started: seq<Stage>)
      ensures result == SingleInvoiceResult(browser, close, req)
      ensures started == RunStages(browser, req, AllStages).started
    {
      result := InitialResult(req);
      var failure: Option<string>;
      AllStagesFacts();
      started, failure := RunStage(browser, req, AllStages, 0, [], None, BrowserSetup);
      FirstStageRun(browser, req);
      if failure.None? {
        started, failure := RunInnerStages(browser, req, started, failure);
        if failure.None? {
          result := result.(status := StatusSuccess);
        }
        // the `finally` clause: an error from closing replaces the steps' error
        var closeError := close(req);
        if closeError.Some? {
          result := result.(error := closeError);
        } else if failure.Some? {
          result := result.(error := failure);
        }
      } else {
        // setup raised before the inner `try`, so nothing is closed
        result := result.(error := failure);
        RunStagesStops(browser, req, AllStages[..1], AllStages[1..]);
      }
    }

    /** The inner `try` of `process_single_invoice`: authentication,
        navigation and the six steps, each awaited only while none before it
        has raised. */
    static method RunInnerStages(browser: Browser, req: InvoiceRequest, started0: seq<Stage>, failure0: Option<string>)
      returns (started: seq<Stage>, failure: Option<string>)
      requires Run(started0, failure0) == RunStages(browser, req, AllStages[..1])
      ensures Run(started, failure) == RunStages(browser, req, AllStages)
    {
      started, failure := RunLoginStages(browser, req, started0, failure0);
      started, failure := RunFormStages(browser, req, started, failure);
    }

    /** Authentication, the two navigations and step 2 (invoice type). */
    static method RunLoginStages(browser: Browser, req: InvoiceRequest, started0: seq<Stage>, failure0: Option<string>)
      returns (started: seq<Stage>, failure: Option<string>)
      requires Run(started0, failure0) == RunStages(browser, req, AllStages[..1])
      ensures Run(started, failure) == RunStages(browser, req, AllStages[..5])
    {
      AllStagesFacts();
      started, failure := RunStage(browser, req, AllStages, 1, started0, failure0, Authentication);
      started, failure := RunStage(browser, req, AllStages, 2, started, failure, ServiceNavigation);
      started, failure := RunStage(browser, req, AllStages, 3, started, failure, NavigateToGenerator);
      started, failure := RunStage(browser, req, AllStages, 4, started, failure, SelectInvoiceType);
    }

    /** Steps 3 to 6: the three forms and the generation. */
    static method RunFormStages(browser: Browser, req: InvoiceRequest, started0: seq<Stage>, failure0: Option<string>)
      returns (started: seq<Stage>, failure: Option<string>)
      requires Run(started0, failure0) == RunStages(browser, req, AllStages[..5])
      ensures Run(started, failure) == RunStages(browser, req, AllStages)
    {
      AllStagesFacts();
      started, failure := RunStage(browser, req, AllStages, 5, started0, failure0, FillIssuanceData);
      started, failure := RunStage(browser, req, AllStages, 6, started, failure, FillRecipient);
      started, failure := RunStage(browser, req, AllStages, 7, started, failure, FillContent);
      started, failure := RunStage(browser, req, AllStages, 8, started, failure, GenerateInvoice);
    }

    /** One awaited stage of `process_single_invoice`, the `k`-th of the
        chain `stages`: it is called only while no earlier stage has raised. */
    static method RunStage(browser: Browser, req: InvoiceRequest, ghost stages: seq<Stage>, k: nat,
                           started0: seq<Stage>, failure0: Option<string>, stage: Stage)
      returns (started: seq<Stage>, failure: Option<string>)
      requires k < |stages| && stages[k] == stage
      requires Run(started0, failure0) == RunStages(browser, req, stages[..k])
      ensures Run(started, failure) == RunStages(browser, req, stages[..k + 1])
    {
      assert stages[..k + 1][..k] == stages[..k];
      started, failure := started0, failure0;
      if failure.None? {
        started := started + [stage];
        failure := StageFailure(browser, req, stage);
      }
    }

    /** `process_batch`: one result per invoice, in the batch's order (what
        `asyncio.gather` returns); the batch is run one invoice after another. */
    method ProcessBatch(browser: Browser, close: Closer, batch: seq<InvoiceRequest>)
      returns (batchResults: seq<InvoiceResult>)
      ensures batchResults == ResultsOf(browser, close, batch)
    {
      batchResults := [];
      var i := 0;
      while i < |batch|
        invariant 0 <= i <= |batch|
        invariant batchResults == ResultsOf(browser, close, batch[..i])
      {
        var result, _ := ProcessSingleInvoice(browser, close, batch[i]);
        ResultsOfAppend(browser, close, batch[..i], [batch[i]]);
        PrefixExtend(batch, i);
        batchResults := batchResults + [result];
        i := i + 1;
      }
      assert batch[..i] == batch;
    }

    /** `process_all`: batch the invoices, process the batches in order,
        concatenating their results, and wait between consecutive batches.
        `delays` counts the waits. */
    method ProcessAll(browser: Browser, close: Closer, invoices: seq<InvoiceRequest>)
      returns (allResults: seq<InvoiceResult>, delays: nat)
      requires maxConcurrent >= 1 || invoices == []
      ensures var batches := CreateBatchesSpec(invoices, maxConcurrent);
              && allResults == ResultsOf(browser, close, Flatten(batches))
              && delays == if batches == [] then 0 else |batches| - 1
      ensures |allResults| == |invoices|
    {
      allResults, delays := [], 0;
      var batches := CreateBatches(invoices);
      var i := 0;
      while i < |batches|
        invariant 0 <= i <= |batches|
        invariant allResults == ResultsOf(browser, close, Flatten(batches[..i]))
        invariant delays == if i == |batches| && i > 0 then i - 1 else i
      {
        var batchResults := ProcessBatch(browser, close, batches[i]);
        ResultsOfNextBatch(browser, close, batches, i);
        allResults := allResults + batchResults;
        if i < |batches| - 1 {
          delays := delays + 1;
        }
        i := i + 1;
      }
      assert batches[..i] == batches;
      CreateBatchesPartition(invoices, maxConcurrent);
    }
  }
}
