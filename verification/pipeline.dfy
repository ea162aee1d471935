/** What `process_single_invoice` does with one invoice: set up a browser,
    authenticate, open the service, run the six form steps, and record
    the first thing that fails. Every browser action is an oracle. */
module Pipeline {
  import opened Common
  import opened Requests
  import opened Operations

  /** The calls `process_single_invoice` makes, in order. The first three
      are awaited directly; the last six go through `execute_operation`. */
  datatype Stage =
    | BrowserSetup
    | Authentication
    | ServiceNavigation
    | NavigateToGenerator
    | SelectInvoiceType
    | FillIssuanceData
    | FillRecipient
    | FillContent
    | GenerateInvoice

  const AllStages: seq<Stage> := [
    BrowserSetup, Authentication, ServiceNavigation, NavigateToGenerator,
    SelectInvoiceType, FillIssuanceData, FillRecipient, FillContent, GenerateInvoice]

  /** The message of the exception raised when a stage reports failure. */
  function FailureMessage(stage: Stage): string {
    match stage
    case BrowserSetup => "⨯ Browser setup failed"
    case Authentication => "Authentication failed"
    case ServiceNavigation => "Service navigation failed"
    case NavigateToGenerator => "Navigation to invoice generator failed"
    case SelectInvoiceType => "Invoice type selection failed"
    case FillIssuanceData => "Issuance data form filling failed"
    case FillRecipient => "Recipient form filling failed"
    case FillContent => "Invoice content form filling failed"
    case GenerateInvoice => "Invoice generation failed"
  }

  predicate ThroughOperator(stage: Stage) {
    !(stage.BrowserSetup? || stage.Authentication? || stage.ServiceNavigation?)
  }

  /** What the browser does when a stage is run for an invoice. */
  type Browser = (InvoiceRequest, Stage) -> Outcome

  /** The message a stage stops the chain with, or None when it passes.
      A stage awaited directly passes on a truthy result, stops with the
      stage's own message on a falsy one and with the exception's message
      when it raises; `execute_operation` turns a raise into False, so a
      step run through it can only stop with its own message. */
  function StageFailure(browser: Browser, req: InvoiceRequest, stage: Stage): (r: Option<string>)
    ensures ThroughOperator(stage) ==>
              r == if ExecuteOperation(browser(req, stage)) then None else Some(FailureMessage(stage))
    ensures !ThroughOperator(stage) ==>
              (r.None? <==> browser(req, stage) == Returned(true))
              && (browser(req, stage).Raised? ==> r == Some(browser(req, stage).message))
              && (browser(req, stage) == Returned(false) ==> r == Some(FailureMessage(stage)))
  {
    var outcome := browser(req, stage);
    if ThroughOperator(stage) then
      if ExecuteOperation(outcome) then None else Some(FailureMessage(stage))
    else
      match outcome
      case Returned(ok) => if ok then None else Some(FailureMessage(stage))
      case Raised(message) => Some(message)
  }

  /** Running a chain of stages: the stages that were started, and the
      message of the one that failed, if any. A failure skips the rest. */
  datatype Run = Run(started: seq<Stage>, failure: Option<string>)

  function RunStages(browser: Browser, req: InvoiceRequest, stages: seq<Stage>): (r: Run)
    ensures |r.started| <= |stages|
    ensures r.failure.None? ==> r.started == stages
  {
    if stages == [] then Run([], None)
    else
      var r := RunStages(browser, req, stages[..|stages| - 1]);
      if r.failure.Some? then r
      else
        var last := stages[|stages| - 1];
        Run(r.started + [last], StageFailure(browser, req, last))
  }

  /** The stages started are a prefix of the chain; all of it when none
      failed, and at least the first stage otherwise. */
  lemma {:induction false} RunStagesPrefix(browser: Browser, req: InvoiceRequest, stages: seq<Stage>)
    ensures var r := RunStages(browser, req, stages);
            && |r.started| <= |stages| && r.started == stages[..|r.started|]
            && (r.failure.None? ==> r.started == stages)
            && (r.failure.Some? ==> |r.started| > 0)
    decreases |stages|
  {
    if stages != [] {
      var p := stages[..|stages| - 1];
      RunStagesPrefix(browser, req, p);
      var r := RunStages(browser, req, p);
      var n := |r.started|;
      if r.failure.Some? {
        assert RunStages(browser, req, stages) == r;
        assert n <= |p| && p[..n] == r.started;
        assert stages[..n] == p[..n];
      } else {
        var last := stages[|stages| - 1];
        assert RunStages(browser, req, stages).started == r.started + [last];
        assert r.started == p;
        assert stages == p + [last];
      }
    }
  }

  /** Every stage started before the last one passed; when nothing
      failed, every stage passed. */
  lemma {:induction false} RunStagesPassed(browser: Browser, req: InvoiceRequest, stages: seq<Stage>)
    ensures var r := RunStages(browser, req, stages);
            && (forall i :: 0 <= i < |r.started| - 1 && i < |stages| ==> StageFailure(browser, req, stages[i]).None?)
            && (r.failure.None? ==> forall i :: 0 <= i < |stages| ==> StageFailure(browser, req, stages[i]).None?)
    decreases |stages|
  {
    if stages != [] {
      var p := stages[..|stages| - 1];
      RunStagesPassed(browser, req, p);
      RunStagesPrefix(browser, req, p);
      var r := RunStages(browser, req, p);
      if r.failure.None? {
        assert forall i :: 0 <= i < |p| ==> stages[i] == p[i];
      } else {
        assert forall i :: 0 <= i < |r.started| - 1 ==> stages[i] == p[i];
      }
    }
  }

  /** The failure, if any, is the last started stage's. */
  lemma {:induction false} RunStagesFailFast(browser: Browser, req: InvoiceRequest, stages: seq<Stage>)
    ensures var r := RunStages(browser, req, stages);
            r.failure.Some? ==> 0 < |r.started| <= |stages|
                                && r.failure == StageFailure(browser, req, stages[|r.started| - 1])
    decreases |stages|
  {
    if stages != [] {
      var p := stages[..|stages| - 1];
      RunStagesFailFast(browser, req, p);
      RunStagesPrefix(browser, req, p);
      var r := RunStages(browser, req, p);
      if r.failure.Some? {
        assert stages[|r.started| - 1] == p[|r.started| - 1];
      }
    }
  }

  /** No stage failed exactly when every stage passes. */
  lemma RunStagesSucceedsIff(browser: Browser, req: InvoiceRequest, stages: seq<Stage>)
    ensures RunStages(browser, req, stages).failure.None?
        <==> forall i :: 0 <= i < |stages| ==> StageFailure(browser, req, stages[i]).None?
  {
    RunStagesFailFast(browser, req, stages);
    RunStagesPassed(browser, req, stages);
    var r := RunStages(browser, req, stages);
    if r.failure.Some? {
      var k := |r.started| - 1;
      assert StageFailure(browser, req, stages[k]).Some?;
    }
  }

  /** Once a stage has failed, further stages change nothing. */
  lemma {:induction false} RunStagesStops(browser: Browser, req: InvoiceRequest, stages: seq<Stage>,
                                          more: seq<Stage>)
    requires RunStages(browser, req, stages).failure.Some?
    ensures RunStages(browser, req, stages + more) == RunStages(browser, req, stages)
    decreases |more|
  {
    if more == [] {
      assert stages + more == stages;
    } else {
      var s := stages + more;
      assert s[..|s| - 1] == stages + more[..|more| - 1];
      RunStagesStops(browser, req, stages, more[..|more| - 1]);
    }
  }

  const StatusFailed: string := "failed"
  const StatusSuccess: string := "success"

  /** The dictionary `process_single_invoice` returns. */
  datatype InvoiceResult = InvoiceResult(
    issuerCuit: string,
    invoiceType: string,
    status: string,
    error: Option<string>)

  function InitialResult(req: InvoiceRequest): (r: InvoiceResult)
    ensures r.issuerCuit == req.issuerCuit && r.invoiceType == req.invoiceType
    ensures r.status == StatusFailed && r.error.None?
  {
    InvoiceResult(req.issuerCuit, req.invoiceType, StatusFailed, None)
  }

  /** `setup.close()`: None when it returns, the message when it raises. */
  type Closer = InvoiceRequest -> Option<string>

  /** The record `process_single_invoice` returns. The browser is closed
      only once setup produced a page; an exception from closing replaces
      whatever error the steps left, even after success. */
  function SingleInvoiceResult(browser: Browser, close: Closer, req: InvoiceRequest): (r: InvoiceResult)
    ensures r.status == StatusFailed ==> r.error.Some?
    ensures r.status == StatusSuccess ==> r.error == close(req)
  {
    var run := RunStages(browser, req, AllStages);
    RunStagesSucceedsIff(browser, req, AllStages);
    AllStagesFacts();
    if StageFailure(browser, req, BrowserSetup).Some? then
      InitialResult(req).(error := run.failure)
    else
      var status := if run.failure.None? then StatusSuccess else StatusFailed;
      var error := if close(req).Some? then close(req) else run.failure;
      InitialResult(req).(status := status, error := error)
  }

  /** The chain, stage by stage. */
  lemma AllStagesFacts()
    ensures |AllStages| == 9 && AllStages[0] == BrowserSetup && AllStages[1] == Authentication
    ensures AllStages[2] == ServiceNavigation && AllStages[3] == NavigateToGenerator
    ensures AllStages[4] == SelectInvoiceType && AllStages[5] == FillIssuanceData
    ensures AllStages[6] == FillRecipient && AllStages[7] == FillContent && AllStages[8] == GenerateInvoice
    ensures AllStages[..1] == [BrowserSetup] && AllStages[..9] == AllStages && AllStages[..0] == []
    ensures AllStages[..1] + AllStages[1..] == AllStages
  {
  }

  /** The chain's first stage alone: browser setup, always started. */
  lemma FirstStageRun(browser: Browser, req: InvoiceRequest)
    ensures RunStages(browser, req, AllStages[..1]) == Run([BrowserSetup], StageFailure(browser, req, BrowserSetup))
  {
    AllStagesFacts();
    assert AllStages[..1][..0] == [];
  }

  /** The record names the invoice it is about, and its status is one of
      the two the source writes. */
  lemma SingleInvoiceIdentifies(browser: Browser, close: Closer, req: InvoiceRequest)
    ensures var r := SingleInvoiceResult(browser, close, req);
            && r.issuerCuit == req.issuerCuit && r.invoiceType == req.invoiceType
            && (r.status == StatusSuccess || r.status == StatusFailed)
  {
  }

  /** The status is "success" exactly when every stage passed. */
  lemma SingleInvoiceSuccessIff(browser: Browser, close: Closer, req: InvoiceRequest)
    ensures SingleInvoiceResult(browser, close, req).status == StatusSuccess
        <==> forall i :: 0 <= i < |AllStages| ==> StageFailure(browser, req, AllStages[i]).None?
  {
    RunStagesSucceedsIff(browser, req, AllStages);
    AllStagesFacts();
    assert StatusSuccess != StatusFailed;
  }

  /** When closing the browser does not raise, the error is the message of
      the first stage that failed (none if all passed), and no stage after
      it was started. */
  lemma SingleInvoiceFirstFailure(browser: Browser, close: Closer, req: InvoiceRequest)
    requires close(req).None?
    ensures var r := SingleInvoiceResult(browser, close, req);
            var run := RunStages(browser, req, AllStages);
            && r.error == run.failure
            && (r.error.Some? ==>
                  && 0 < |run.started| <= |AllStages|
                  && run.started == AllStages[..|run.started|]
                  && r.error == StageFailure(browser, req, AllStages[|run.started| - 1])
                  && forall i :: 0 <= i < |run.started| - 1 ==> StageFailure(browser, req, AllStages[i]).None?)
  {
    RunStagesFailFast(browser, req, AllStages);
    RunStagesPassed(browser, req, AllStages);
    RunStagesPrefix(browser, req, AllStages);
  }

  /** A failed setup is reported with its own message and nothing else is
      started. */
  lemma SetupFailureStopsAll(browser: Browser, close: Closer, req: InvoiceRequest)
    requires browser(req, BrowserSetup) == Returned(false)
    ensures SingleInvoiceResult(browser, close, req).error == Some("⨯ Browser setup failed")
    ensures SingleInvoiceResult(browser, close, req).status == StatusFailed
    ensures RunStages(browser, req, AllStages).started == [BrowserSetup]
  {
    AllStagesFacts();
    assert RunStages(browser, req, [BrowserSetup]) == Run([BrowserSetup], Some(FailureMessage(BrowserSetup)));
    RunStagesStops(browser, req, [BrowserSetup], AllStages[1..]);
    assert [BrowserSetup] + AllStages[1..] == AllStages;
  }
}
