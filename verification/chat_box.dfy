/**
 * The chat box's decisions outside rendering: the blank-query guard of
 * `handleSubmit`, the guards and CSV branch of `handleExport`, and the
 * `ExportButton` click.
 */
module ChatBox {
  import opened Wrappers
  import opened Text
  import opened Entries
  import opened CsvExport

  /** The component state the handlers touch; `R` is the backend's reply. */
  datatype ChatState<R> = ChatState(query: string, loading: bool, error: string, response: Option<R>)

  const FetchFailedMsg: string := "Failed to fetch response."
  const UpgradeMsg: string := "Please upgrade to use the export feature"

  /**
   * The synchronous part of `handleSubmit`: a blank query (empty after
   * `trim`) sends nothing and changes nothing; otherwise loading starts, the
   * error and previous response are cleared, and the query is sent as typed.
   */
  function HandleSubmit<R>(st: ChatState<R>): (r: (ChatState<R>, Option<string>))
    ensures Trim(st.query) == "" ==> r == (st, None)
    ensures Trim(st.query) != "" ==>
      && r.1 == Some(st.query)
      && r.0 == ChatState(st.query, true, "", None)
  {
    if Trim(st.query) == "" then (st, None)
    else (st.(loading := true, error := "", response := None), Some(st.query))
  }

  /**
   * The completion of the request: the reply is stored, or the error's
   * message (the fixed fallback when it is empty) is shown; loading ends.
   */
  function FinishSubmit<R>(st: ChatState<R>, outcome: Result<R, string>): (r: ChatState<R>)
    ensures !r.loading && r.query == st.query
    ensures outcome.Success? ==> r.response == Some(outcome.value) && r.error == st.error
    ensures outcome.Failure? ==> r.response == st.response && r.error != ""
    ensures outcome.Failure? && outcome.error != "" ==> r.error == outcome.error
    ensures outcome.Failure? && outcome.error == "" ==> r.error == FetchFailedMsg
  {
    match outcome
    case Success(reply) => st.(response := Some(reply), loading := false)
    case Failure(m) => st.(error := if m != "" then m else FetchFailedMsg, loading := false)
  }

  /**
   * A non-blank submit followed by the request's completion: the query is
   * sent as typed and loading ends. A reply replaces the previous response
   * and leaves no error. A failure leaves no response at all (the old one was
   * cleared on submit) and a non-empty error.
   */
  lemma SubmitThenFinish<R>(st: ChatState<R>, outcome: Result<R, string>)
    requires Trim(st.query) != ""
    ensures HandleSubmit(st).1 == Some(st.query)
    ensures
      var done := FinishSubmit(HandleSubmit(st).0, outcome);
      && !done.loading && done.query == st.query
      && (outcome.Success? ==> done.response == Some(outcome.value) && done.error == "")
      && (outcome.Failure? ==> done.response == None && done.error != "")
  {
  }

  /** What an export does. The Excel path goes to the backend and is not modelled further. */
  datatype ExportEffect = NoEffect | ShowError(message: string) | DownloadCsv(content: string) | ExcelRequest

  /**
   * `handleExport`: nothing without rows; in the simple version an upgrade
   * error and no file; otherwise the CSV of the rows for the "csv" type.
   */
  function HandleExport(rows: Option<seq<Row>>, isSimpleVersion: bool, kind: string): (e: ExportEffect)
    ensures rows.None? || |rows.value| == 0 ==> e == NoEffect
    ensures e.DownloadCsv? <==> rows.Some? && |rows.value| > 0 && !isSimpleVersion && kind == "csv"
    ensures e.DownloadCsv? ==> e.content == Csv(rows.value)
    ensures e.ShowError? <==> rows.Some? && |rows.value| > 0 && isSimpleVersion
    ensures e.ShowError? ==> e.message == UpgradeMsg
  {
    if rows.None? || |rows.value| == 0 then NoEffect
    else if isSimpleVersion then ShowError(UpgradeMsg)
    else if kind == "csv" then DownloadCsv(Csv(rows.value))
    else ExcelRequest
  }

  /** What clicking `ExportButton` does. */
  datatype ButtonEffect = OpenUpgradeDialog | CallExport(kind: string)

  function ExportButtonClick(isSimpleVersion: bool): (b: ButtonEffect)
    ensures b.OpenUpgradeDialog? <==> isSimpleVersion
    ensures b.CallExport? ==> b.kind == "csv"
  {
    if isSimpleVersion then OpenUpgradeDialog else CallExport("csv")
  }

  /** The export effect of a button click, given the same `isSimpleVersion` flag for both. */
  function ClickExport(rows: Option<seq<Row>>, isSimpleVersion: bool): Option<ExportEffect> {
    match ExportButtonClick(isSimpleVersion)
    case OpenUpgradeDialog => None
    case CallExport(kind) => Some(HandleExport(rows, isSimpleVersion, kind))
  }

  /**
   * Through the button, the simple version only ever opens the upgrade
   * dialog, so the upgrade error of `handleExport` is never shown; otherwise
   * the click downloads the CSV exactly when there are rows.
   */
  lemma ButtonNeverShowsUpgradeError(rows: Option<seq<Row>>, isSimpleVersion: bool)
    ensures isSimpleVersion <==> ClickExport(rows, isSimpleVersion).None?
    ensures ClickExport(rows, isSimpleVersion).Some? ==> !ClickExport(rows, isSimpleVersion).value.ShowError?
    ensures !isSimpleVersion && rows.Some? && |rows.value| > 0 ==>
      ClickExport(rows, isSimpleVersion) == Some(DownloadCsv(Csv(rows.value)))
  {
  }
}
