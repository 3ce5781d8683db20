/**
 * The page's upload workflow: four pieces of component state (the selected
 * file, the loading flag, the last analysis result and the error message)
 * and the handlers that change them. The asynchronous upload handler is
 * split at its `await`: BeginUpload runs up to the request, FinishUpload
 * runs the rest once the service's answer (or a transport failure) is known.
 */
module UploadWorkflow {
  import opened Wrappers
  import opened AnalysisResults

  /** The spreadsheet chosen in the file input. */
  datatype File = File(name: string, contents: seq<bv8>)

  /** What the awaited request delivers to the rest of the upload handler. */
  datatype Outcome =
    | Ok(data: AnalysisResult)            // a 2xx response whose body is the result
    | HttpError(detail: Option<string>)   // a non-2xx response; its body's `detail`, if any
    | Failure(message: string)            // the request or the body parsing threw this message

  const NoFileMessage: string := "Por favor, selecione um arquivo primeiro."
  const ProcessingErrorMessage: string := "Erro ao processar arquivo"

  /**
   * `errorData.detail || "Erro ao processar arquivo"`: a missing or empty
   * detail is falsy and falls back to the fixed message, so the message shown
   * for a non-2xx response is never empty.
   */
  function HttpErrorMessage(detail: Option<string>): (message: string)
    ensures message != ""
    ensures message == ProcessingErrorMessage <==> detail.None? || detail.value in {"", ProcessingErrorMessage}
    ensures detail.Some? && detail.value != "" ==> message == detail.value
  {
    match detail
    case Some(d) => if d != "" then d else ProcessingErrorMessage
    case None => ProcessingErrorMessage
  }

  class App {
    var file: Option<File>
    var loading: bool
    var result: Option<AnalysisResult>
    var error: Option<string>
    /** Requests issued whose outcome has not been delivered yet. */
    ghost var pending: nat

    /** At most one request is in flight, exactly while the page shows it is loading. */
    ghost predicate Valid()
      reads this
    {
      pending <= 1 && (loading <==> pending == 1)
    }

    /** The initial `useState` values. */
    constructor ()
      ensures Valid()
      ensures file == None && !loading && result == None && error == None && pending == 0
    {
      file, loading, result, error := None, false, None, None;
      pending := 0;
    }

    /** The button's guard: disabled when no file is selected or a request is loading. */
    function UploadEnabled(): (enabled: bool)
      reads this
      ensures enabled <==> file.Some? && !loading
      ensures enabled && Valid() ==> pending == 0
    {
      file.Some? && !loading
    }

    /** handleFileChange: a chosen file replaces the selection and clears error and result. */
    method SelectFile(selected: Option<File>)
      modifies this
      ensures selected.Some? ==> file == selected && error == None && result == None
      ensures selected.None? ==> file == old(file) && error == old(error) && result == old(result)
      ensures loading == old(loading) && pending == old(pending)
    {
      if selected.Some? {
        file := selected;
        error := None;
        result := None;
      }
    }

    /**
     * handleUpload up to the request. Without a file it only sets the error
     * message and issues nothing; with one it sets the loading flag, clears
     * the error, and issues the request for that file.
     */
    method BeginUpload() returns (request: Option<File>)
      modifies this
      ensures request == old(file)
      ensures file == old(file) && result == old(result)
      ensures old(file).None? ==> error == Some(NoFileMessage) && loading == old(loading) && pending == old(pending)
      ensures old(file).Some? ==> error == None && loading && pending == old(pending) + 1
      ensures old(Valid()) && !old(loading) ==> Valid()
    {
      if file.None? {
        error := Some(NoFileMessage);
        request := None;
        return;
      }
      loading := true;
      error := None;
      request := file;
      pending := pending + 1;
    }

    /**
     * handleUpload after the request: a result replaces the previous one; an
     * error response or a failure sets the error message and keeps whatever
     * result was there; in every case loading ends.
     */
    method FinishUpload(outcome: Outcome)
      requires pending > 0
      modifies this
      ensures file == old(file) && !loading && pending == old(pending) - 1
      ensures outcome.Ok? ==> result == Some(outcome.data) && error == old(error)
      ensures outcome.HttpError? ==> result == old(result) && error == Some(HttpErrorMessage(outcome.detail))
      ensures outcome.Failure? ==> result == old(result) && error == Some(outcome.message)
      ensures old(Valid()) ==> Valid()
    {
      match outcome {
        case Ok(data) =>
          result := Some(data);
        case HttpError(detail) =>
          error := Some(HttpErrorMessage(detail));
        case Failure(message) =>
          error := Some(message);
      }
      loading := false;
      pending := pending - 1;
    }

    /**
     * A click on the upload button: a disabled button does nothing, an
     * enabled one runs the handler, which then always issues the request.
     */
    method PressUploadButton() returns (request: Option<File>)
      requires Valid()
      modifies this
      ensures Valid()
      ensures request.Some? <==> old(UploadEnabled())
      ensures old(UploadEnabled()) ==>
        request == old(file) && file == old(file) && result == old(result) &&
        loading && error == None && pending == 1
      ensures !old(UploadEnabled()) ==> unchanged(this)
    {
      if !UploadEnabled() {
        request := None;
        return;
      }
      request := BeginUpload();
    }
  }

  /** Calling the handler directly with nothing selected: the message appears and no request is made. */
  method UploadWithoutFile() returns (request: Option<File>, shown: Option<string>, busy: bool)
    ensures request == None && shown == Some(NoFileMessage) && !busy
  {
    var app := new App();
    request := app.BeginUpload();
    shown, busy := app.error, app.loading;
  }

  /** A server error's detail is shown verbatim, and the button is usable again afterwards. */
  method ServerErrorShown(f: File, detail: string) returns (shown: Option<string>, enabled: bool)
    requires detail != ""
    ensures shown == Some(detail) && enabled
  {
    var app := new App();
    app.SelectFile(Some(f));
    var request := app.PressUploadButton();
    app.FinishUpload(HttpError(Some(detail)));
    shown, enabled := app.error, app.UploadEnabled();
  }

  /**
   * Analysing the same file again after a success, when that second attempt
   * fails: the page keeps the earlier result and shows the failure beside it.
   */
  method FailedRetryKeepsResult(f: File, data: AnalysisResult, message: string)
    returns (kept: Option<AnalysisResult>, shown: Option<string>, second: Option<File>)
    ensures second == Some(f) && kept == Some(data) && shown == Some(message)
  {
    var app := new App();
    app.SelectFile(Some(f));
    var first := app.PressUploadButton();
    app.FinishUpload(Ok(data));
    second := app.PressUploadButton();
    app.FinishUpload(Failure(message));
    kept, shown := app.result, app.error;
  }
}
