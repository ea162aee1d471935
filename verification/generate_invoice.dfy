/** Confirming an invoice on the summary page: the outcome the page shows,
    and how an error message from the portal is classified. */
module GenerateInvoiceStep {
  import opened Common

  const PdfMarker := "<!--pdferror-->"
  const CaeMarker := "<!--caeerror-->"
  const AdditionalDataMarker := "<!--datosadicionaleserror-->"

  const PdfErrorType := "PDF Generation Error: Invoice created but cannot be printed at this time"
  const CaeErrorType := "Authorization Code Error: Invalid invoice - could not generate authorization code"
  const AdditionalDataErrorType := "Additional Data Error: Failed to load additional invoice data"
  const UnknownErrorPrefix := "Unknown error: "

  /** The if/elif chain over the portal's error message: the first marker
      found, in the order PDF, authorization code, additional data, decides;
      a message with no marker is reported verbatim. */
  function ClassifyGenerationError(errorMsg: string): (r: string)
    ensures Contains(errorMsg, PdfMarker) ==> r == PdfErrorType
    ensures !Contains(errorMsg, PdfMarker) && Contains(errorMsg, CaeMarker) ==> r == CaeErrorType
    ensures (!Contains(errorMsg, PdfMarker) && !Contains(errorMsg, CaeMarker)
             && Contains(errorMsg, AdditionalDataMarker)) ==> r == AdditionalDataErrorType
    ensures (!Contains(errorMsg, PdfMarker) && !Contains(errorMsg, CaeMarker)
             && !Contains(errorMsg, AdditionalDataMarker)) ==> r == UnknownErrorPrefix + errorMsg
  {
    if Contains(errorMsg, PdfMarker) then PdfErrorType
    else if Contains(errorMsg, CaeMarker) then CaeErrorType
    else if Contains(errorMsg, AdditionalDataMarker) then AdditionalDataErrorType
    else UnknownErrorPrefix + errorMsg
  }

  /** The PDF marker wins wherever it appears, whatever else the message holds. */
  lemma PdfMarkerWins(before: string, after: string)
    ensures ClassifyGenerationError(before + PdfMarker + after) == PdfErrorType
  {
    ContainsInfix(before, PdfMarker, after);
  }

  /** An unclassified message is kept whole after the prefix, so it can be
      read back from the report. */
  lemma UnknownKeepsMessage(errorMsg: string)
    requires !Contains(errorMsg, PdfMarker) && !Contains(errorMsg, CaeMarker)
    requires !Contains(errorMsg, AdditionalDataMarker)
    ensures Contains(ClassifyGenerationError(errorMsg), errorMsg)
    ensures ClassifyGenerationError(errorMsg)[|UnknownErrorPrefix|..] == errorMsg
  {
    ContainsInfix(UnknownErrorPrefix, errorMsg, []);
    assert UnknownErrorPrefix + errorMsg + [] == UnknownErrorPrefix + errorMsg;
  }

  /** What the page does once the confirm button is clicked. `Raised`
      stands for every exception on the way (a missing button, a timeout, a
      failed download). */
  datatype ConfirmationPage =
    | SuccessShown(invoiceIdValid: bool, pdfSaved: bool, errorShownAfter: Option<string>)
    | ErrorShown(message: string)
    | NothingShown
    | Raised(message: string)

  /** What `confirm_invoice_generation` ends in. */
  datatype Confirmation =
    | Generated
    | GenerationError(errorType: string)
    | Failed

  /** `confirm_invoice_generation`. A success block whose invoice id is not
      a number falls through to the error check. */
  function ConfirmInvoiceGeneration(page: ConfirmationPage): (r: Confirmation)
    ensures page.ErrorShown? ==> r == GenerationError(ClassifyGenerationError(page.message))
    ensures page.NothingShown? || page.Raised? ==> r == Failed
    ensures r.Generated? <==> page.SuccessShown? && page.invoiceIdValid && page.pdfSaved
  {
    match page
    case SuccessShown(idValid, saved, errorAfter) =>
      if idValid then (if saved then Generated else Failed)
      else (match errorAfter
            case Some(msg) => GenerationError(ClassifyGenerationError(msg))
            case None => Failed)
    case ErrorShown(msg) => GenerationError(ClassifyGenerationError(msg))
    case NothingShown => Failed
    case Raised(_) => Failed
  }

  /** The boolean the step returns: true only for a generated invoice;
      every error outcome and every exception is false. */
  function Succeeded(c: Confirmation): bool {
    c.Generated?
  }

  lemma ErrorsReturnFalse(page: ConfirmationPage)
    requires page.ErrorShown? || page.NothingShown? || page.Raised?
    ensures !Succeeded(ConfirmInvoiceGeneration(page))
  {
  }
}
