/**
 * The contract upload widget: drag-and-drop and file-picker selection, the
 * upload lifecycle flags, and the message shown for each way an upload can
 * end. The network round trip is the parameter `outcome`; the texts a
 * browser puts into the errors it raises are parameters too.
 */
module UploadZone {
  import opened Wrappers
  import opened Js
  import opened Types

  /** A `File` the user picked; only its identity matters here. */
  datatype FileRef = FileRef(name: string)

  /** What a `throw` inside `handleUpload` carries. */
  datatype Thrown = ErrorThrown(message: string) | NonErrorThrown

  /** How `fetch(uploadUrl, ...)` ends: rejected with an error, or with a response. */
  datatype FetchOutcome = Rejected(thrown: Thrown) | Responded(response: HttpResponse)

  /** How the `try` block ends: with a result to show, or by throwing. */
  datatype Attempt = Succeeded(result: UploadResponse) | Threw(thrown: Thrown)

  const GENERIC_ERROR: string := "Upload failed. Please try again."
  const CONNECT_ERROR: string :=
    "Cannot connect to backend server. Please ensure the backend is running on http://localhost:8000"
  const CORS_ERROR: string := "CORS error: Please check that FRONTEND_URL is set correctly in your backend .env file"
  const STATUS_PREFIX: string := "Upload failed with status "

  /** `${apiUrl}/upload`; a trailing slash on the configured URL is not removed. */
  function UploadUrl(env: Option<string>): (u: string)
    ensures u == ApiUrl(env) + "/upload"
    ensures env.None? ==> u == "http://localhost:8000/upload"
  {
    ApiUrl(env) + "/upload"
  }

  function StatusFallback(status: nat): (m: string)
    ensures STATUS_PREFIX <= m && AllDigits(m[|STATUS_PREFIX|..])
    ensures ParseDigits(m[|STATUS_PREFIX|..]) == status
  {
    var m := STATUS_PREFIX + NatToString(status);
    assert m[|STATUS_PREFIX|..] == NatToString(status);
    ParseNatToString(status);
    m
  }

  /**
   * The message of the error thrown for a non-ok response: the body's
   * `detail`, else its `message`, else the status fallback; when the body is
   * not JSON, or is JSON `null`, reading it fails and the status text is used
   * instead, else the fallback.
   */
  function NonOkMessage(res: HttpResponse, numText: real -> string): (m: string)
    ensures (res.body.None? || IsNullish(res.body.value)) && res.statusText != "" ==> m == res.statusText
    ensures (res.body.None? || IsNullish(res.body.value)) && res.statusText == "" ==> m == StatusFallback(res.status)
    ensures res.body.Some? && !IsNullish(res.body.value) && Truthy(Get(res.body.value, "detail")) ==>
              m == ToJsString(Get(res.body.value, "detail"), numText)
    ensures (res.body.Some? && !IsNullish(res.body.value) && !Truthy(Get(res.body.value, "detail"))
             && Truthy(Get(res.body.value, "message"))) ==>
              m == ToJsString(Get(res.body.value, "message"), numText)
    ensures (res.body.Some? && !IsNullish(res.body.value) && !Truthy(Get(res.body.value, "detail"))
             && !Truthy(Get(res.body.value, "message"))) ==>
              m == StatusFallback(res.status)
  {
    var fallback := StatusFallback(res.status);
    if res.body.None? || IsNullish(res.body.value) then
      if res.statusText != "" then res.statusText else fallback
    else
      var data := res.body.value;
      ToJsString(Or(Or(Get(data, "detail"), Get(data, "message")), Str(fallback)), numText)
  }

  /** The result built from the JSON body of an ok response. */
  function SuccessResult(data: JsValue, numText: real -> string): (r: UploadResponse)
    ensures r.success && r.contractId.None?
    ensures r.message == "File \"" + ToJsString(Get(data, "filename"), numText) + "\" uploaded and processed successfully"
    ensures r.extractedData == Some(ExtractedData("Processing...", Get(data, "filename"), 0))
  {
    var filename := Get(data, "filename");
    UploadResponse(true, None, "File \"" + ToJsString(filename, numText) + "\" uploaded and processed successfully",
                   Some(ExtractedData("Processing...", filename, 0)))
  }

  /**
   * The `try` block after the request: a non-ok response throws an `Error`
   * with `NonOkMessage`; an ok response whose body is not JSON throws the
   * parser's SyntaxError with message `jsonError`, one whose body is `null`
   * throws a TypeError with message `typeError` on reading `filename`; any
   * other ok response gives `SuccessResult`.
   */
  function UploadAttempt(outcome: FetchOutcome, numText: real -> string, jsonError: string, typeError: string)
    : (a: Attempt)
    ensures outcome.Rejected? ==> a == Threw(outcome.thrown)
    ensures outcome.Responded? && !outcome.response.ok ==>
              a == Threw(ErrorThrown(NonOkMessage(outcome.response, numText)))
    ensures outcome.Responded? && outcome.response.ok && outcome.response.body.None? ==> a == Threw(ErrorThrown(jsonError))
    ensures (outcome.Responded? && outcome.response.ok && outcome.response.body.Some?
             && IsNullish(outcome.response.body.value)) ==> a == Threw(ErrorThrown(typeError))
    ensures a.Succeeded? <==> (outcome.Responded? && outcome.response.ok && outcome.response.body.Some?
                               && !IsNullish(outcome.response.body.value))
    ensures a.Succeeded? ==> a.result == SuccessResult(outcome.response.body.value, numText) && a.result.success
    ensures a.Threw? && a.thrown.NonErrorThrown? ==> outcome.Rejected?
  {
    match outcome
    case Rejected(thrown) => Threw(thrown)
    case Responded(res) =>
      if !res.ok then Threw(ErrorThrown(NonOkMessage(res, numText)))
      else if res.body.None? then Threw(ErrorThrown(jsonError))
      else if IsNullish(res.body.value) then Threw(ErrorThrown(typeError))
      else Succeeded(SuccessResult(res.body.value, numText))
  }

  /**
   * The message shown for a caught error: network failures first, then
   * CORS, otherwise the error's own message; a thrown non-`Error` gets the
   * generic text.
   */
  function ClassifyUploadError(thrown: Thrown): (m: string)
    ensures thrown.NonErrorThrown? ==> m == GENERIC_ERROR
    ensures (thrown.ErrorThrown? && (Includes(thrown.message, "Failed to fetch")
             || Includes(thrown.message, "NetworkError"))) ==> m == CONNECT_ERROR
    ensures (thrown.ErrorThrown? && !Includes(thrown.message, "Failed to fetch")
             && !Includes(thrown.message, "NetworkError") && Includes(thrown.message, "CORS")) ==> m == CORS_ERROR
    ensures (thrown.ErrorThrown? && !Includes(thrown.message, "Failed to fetch")
             && !Includes(thrown.message, "NetworkError") && !Includes(thrown.message, "CORS")) ==> m == thrown.message
  {
    match thrown
    case NonErrorThrown => GENERIC_ERROR
    case ErrorThrown(message) =>
      if Includes(message, "Failed to fetch") || Includes(message, "NetworkError") then CONNECT_ERROR
      else if Includes(message, "CORS") then CORS_ERROR
      else message
  }

  /** The `uploadResult` an attempt leaves behind. */
  function ResultOf(a: Attempt): (r: UploadResponse)
    ensures a.Succeeded? ==> r == a.result
    ensures a.Threw? ==> r == UploadResponse(false, None, ClassifyUploadError(a.thrown), None)
  {
    match a
    case Succeeded(result) => result
    case Threw(thrown) => UploadResponse(false, None, ClassifyUploadError(thrown), None)
  }

  /** Network failures are reported as such even when the text also mentions CORS. */
  lemma NetworkBeforeCors(message: string)
    requires Includes(message, "CORS")
    ensures ClassifyUploadError(ErrorThrown("Failed to fetch: " + message)) == CONNECT_ERROR
  {
    var m := "Failed to fetch: " + message;
    assert "Failed to fetch" <= m;
  }

  /**
   * A backend error reply `{"detail": d}` (the shape of an HTTP exception)
   * is shown as `d` itself, as long as `d` mentions none of the classifier's
   * keywords.
   */
  lemma BackendDetailShown(status: nat, statusText: string, detail: string, numText: real -> string,
                           jsonError: string, typeError: string)
    requires detail != ""
    requires !Includes(detail, "Failed to fetch") && !Includes(detail, "NetworkError") && !Includes(detail, "CORS")
    ensures var res := HttpResponse(false, status, statusText, Some(Obj(map["detail" := Str(detail)])));
            ResultOf(UploadAttempt(Responded(res), numText, jsonError, typeError))
            == UploadResponse(false, None, detail, None)
  {
    var body := Obj(map["detail" := Str(detail)]);
    var res := HttpResponse(false, status, statusText, Some(body));
    assert Get(body, "detail") == Str(detail);
    assert NonOkMessage(res, numText) == detail;
    assert UploadAttempt(Responded(res), numText, jsonError, typeError) == Threw(ErrorThrown(detail));
  }

  /**
   * The backend's success reply carries only `message`, so the widget
   * reports the file as "undefined" and keeps `undefined` as the contract
   * number.
   */
  lemma BackendSuccessShowsUndefined(status: nat, statusText: string, numText: real -> string,
                                     jsonError: string, typeError: string)
    ensures var body := Obj(map["message" := Str("Document uploaded successfully")]);
            var res := HttpResponse(true, status, statusText, Some(body));
            ResultOf(UploadAttempt(Responded(res), numText, jsonError, typeError))
            == UploadResponse(true, None, "File \"" + "undefined" + "\" uploaded and processed successfully",
                              Some(ExtractedData("Processing...", Undefined, 0)))
  {
    var body := Obj(map["message" := Str("Document uploaded successfully")]);
    assert "filename" != "message";
    assert Get(body, "filename") == Undefined;
    var res := HttpResponse(true, status, statusText, Some(body));
    assert UploadAttempt(Responded(res), numText, jsonError, typeError) == Succeeded(SuccessResult(body, numText));
    assert ToJsString(Undefined, numText) == "undefined";
  }

  /** The widget's state. */
  class UploadZone {
    var isDragging: bool
    var selectedFile: Option<FileRef>
    var isUploading: bool
    var uploadResult: Option<UploadResponse>

    constructor()
      ensures !isDragging && selectedFile.None? && !isUploading && uploadResult.None?
    {
      isDragging := false;
      selectedFile := None;
      isUploading := false;
      uploadResult := None;
    }

    method HandleDragOver()
      modifies this
      ensures isDragging
      ensures selectedFile == old(selectedFile) && isUploading == old(isUploading) && uploadResult == old(uploadResult)
    {
      isDragging := true;
    }

    method HandleDragLeave()
      modifies this
      ensures !isDragging
      ensures selectedFile == old(selectedFile) && isUploading == old(isUploading) && uploadResult == old(uploadResult)
    {
      isDragging := false;
    }

    /** A drop ends the drag; a non-empty drop selects its first file and clears the last result. */
    method HandleDrop(files: seq<FileRef>)
      modifies this
      ensures !isDragging && isUploading == old(isUploading)
      ensures files != [] ==> selectedFile == Some(files[0]) && uploadResult.None?
      ensures files == [] ==> selectedFile == old(selectedFile) && uploadResult == old(uploadResult)
    {
      isDragging := false;
      if |files| > 0 {
        selectedFile := Some(files[0]);
        uploadResult := None;
      }
    }

    /** The file input's `change` event; its `files` list may be null. */
    method HandleFileSelect(files: Option<seq<FileRef>>)
      modifies this
      ensures isDragging == old(isDragging) && isUploading == old(isUploading)
      ensures files.Some? && files.value != [] ==> selectedFile == Some(files.value[0]) && uploadResult.None?
      ensures files.None? || files.value == [] ==> selectedFile == old(selectedFile) && uploadResult == old(uploadResult)
    {
      if files.Some? && |files.value| > 0 {
        selectedFile := Some(files.value[0]);
        uploadResult := None;
      }
    }

    /**
     * `handleUpload`. With no selected file nothing happens and no request
     * is made (`request` is None). Otherwise the file is posted to
     * `request`; `busy` records `isUploading` while the request is pending,
     * and once it settles the flag is down again and `uploadResult` holds
     * what the attempt produced.
     */
    method HandleUpload(env: Option<string>, outcome: FetchOutcome, numText: real -> string,
                        jsonError: string, typeError: string)
      returns (request: Option<string>, ghost busy: bool)
      modifies this
      ensures old(selectedFile).None? ==> request.None? && !busy
      ensures old(selectedFile).None? ==>
                isDragging == old(isDragging) && isUploading == old(isUploading) && uploadResult == old(uploadResult)
      ensures old(selectedFile).Some? ==> request == Some(UploadUrl(env)) && busy
      ensures old(selectedFile).Some? ==>
                !isUploading && uploadResult == Some(ResultOf(UploadAttempt(outcome, numText, jsonError, typeError)))
      ensures selectedFile == old(selectedFile) && isDragging == old(isDragging)
    {
      if selectedFile.None? {
        return None, false;
      }
      isUploading := true;
      request := Some(UploadUrl(env));
      busy := isUploading;
      var attempt := UploadAttempt(outcome, numText, jsonError, typeError);
      uploadResult := Some(ResultOf(attempt));
      isUploading := false;
    }

    /** The close button: forget the file and the result. */
    method ClearFile()
      modifies this
      ensures selectedFile.None? && uploadResult.None?
      ensures isDragging == old(isDragging) && isUploading == old(isUploading)
    {
      selectedFile := None;
      uploadResult := None;
    }
  }
}
