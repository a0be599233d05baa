/** The client's session controller: the chat-send handler, the video
    upload handler and the reset, as pure transitions of the component's
    state.

    Each handler reads the state it was created with (the pre-turn state)
    and its `setX` calls are applied in order, the last one to a field
    winning; the two functional transcript updates of the send handler
    compose. The network is a parameter: the send handler receives the chat
    endpoint's response, the upload handler the upload endpoint's response,
    and `JSON.parse` is the function `parse`. */
module Controller {
  import opened Wrappers
  import opened Reply
  import opened Normalize

  /** The selected file, as far as the handler uses it: its name, and its
      size in megabytes as the two-decimal text the browser formats. */
  datatype VideoFile = VideoFile(name: string, sizeText: string)

  /** The component's state variables. */
  datatype Session = Session(
    messages: seq<Message>,
    input: string,
    selectedVideo: Option<VideoFile>,
    videoPath: Option<string>,
    error: Option<string>,
    loading: bool,
    analysisResults: ResultsObject,
    processedVideoUrl: Option<string>,
    isUploading: bool,
    analysisComplete: bool)

  /** The state the component mounts with. */
  const Initial: Session := Session([], "", None, None, None, false, NoResults, None, false, false)

  /** What holds of every state the handlers reach from `Initial`: a
      completed analysis has results, and a processed-video URL is never
      empty. */
  predicate Coherent(s: Session) {
    && (s.analysisComplete ==> s.analysisResults != NoResults)
    && (s.processedVideoUrl.Some? ==> s.processedVideoUrl.value != "")
  }

  // ---------------------------------------------------------------------
  // Sending a chat message (handleSendMessage)
  // ---------------------------------------------------------------------

  /** The characters `String.prototype.trim` removes: white space and line
      terminators. */
  predicate IsWhitespace(c: char) {
    || c == '\t' || c == '\n' || c == '\U{000B}' || c == '\U{000C}' || c == '\r' || c == ' '
    || c == '\U{00A0}' || c == '\U{1680}' || ('\U{2000}' <= c <= '\U{200A}')
    || c == '\U{2028}' || c == '\U{2029}' || c == '\U{202F}' || c == '\U{205F}'
    || c == '\U{3000}' || c == '\U{FEFF}'
  }

  /** `!input.trim()`: the input is empty once trimmed, that is, it holds
      nothing but white space. */
  predicate Blank(s: string) {
    forall i :: 0 <= i < |s| ==> IsWhitespace(s[i])
  }

  /** White space removed from the front. */
  function TrimStart(s: string): (t: string)
    ensures |t| <= |s| && t == s[|s| - |t|..]
    ensures |t| > 0 ==> !IsWhitespace(t[0])
    ensures forall i :: 0 <= i < |s| - |t| ==> IsWhitespace(s[i])
  {
    if |s| > 0 && IsWhitespace(s[0]) then TrimStart(s[1..]) else s
  }

  /** White space removed from the back. */
  function TrimEnd(s: string): (t: string)
    ensures |t| <= |s| && t == s[..|t|]
    ensures |t| > 0 ==> !IsWhitespace(t[|t| - 1])
    ensures forall i :: |t| <= i < |s| ==> IsWhitespace(s[i])
  {
    if |s| > 0 && IsWhitespace(s[|s| - 1]) then TrimEnd(s[..|s| - 1]) else s
  }

  /** `String.prototype.trim`. */
  function Trim(s: string): string {
    TrimEnd(TrimStart(s))
  }

  /** The guard's reading of `!input.trim()`: the trimmed input is empty
      exactly when every character is white space. */
  lemma BlankIffTrimmedEmpty(s: string)
    ensures Trim(s) == "" <==> Blank(s)
  {
  }

  const EmptyInputError: string := "Please enter a message"
  const NoVideoError: string := "Please upload a video first"
  const CompleteError: string := "Analysis complete. Please upload a new video to continue."
  const ErrorPrefix: string := "❌ **Error**: "
  const ProcessingFailed: string := "Processing failed"
  const RequestFailed: string := "An error occurred during processing"
  const UploadFailed: string := "Upload failed"
  const UploadThrewError: string := "Failed to upload video"

  /** JavaScript's `a || b` on strings: `a` unless it is falsy. */
  function Or(a: string, b: string): (r: string)
    ensures b != "" ==> r != ""
    ensures r == a || r == b
  {
    if a != "" then a else b
  }

  /** The handler passes its three guards. */
  predicate Accepts(s: Session) {
    !Blank(s.input) && Truthy(s.videoPath) && !s.analysisComplete
  }

  /** The first guard that rejects the send, checked in the handler's order. */
  function Rejection(s: Session): (e: Option<string>)
    ensures e.None? <==> Accepts(s)
    ensures Blank(s.input) ==> e == Some(EmptyInputError)
    ensures !Blank(s.input) && !Truthy(s.videoPath) ==> e == Some(NoVideoError)
    ensures !Blank(s.input) && Truthy(s.videoPath) && s.analysisComplete ==> e == Some(CompleteError)
  {
    if Blank(s.input) then Some(EmptyInputError)
    else if !Truthy(s.videoPath) then Some(NoVideoError)
    else if s.analysisComplete then Some(CompleteError)
    else None
  }

  /** The error a turn fails with, or None when it delivers normalised
      messages: a non-OK status fails with `error || details || "Processing
      failed"`, a thrown error with its message or a generic one, and a reply
      whose top-level intermediate outputs hold `null` with the TypeError
      that raises. */
  function TurnFailure(s: Session, resp: ChatResponse, parse: string -> ParseResult): (f: Option<string>)
    ensures f.Some? ==> f.value != ""
    ensures resp.NotOk? ==> f == Some(Or(resp.error, Or(resp.details, ProcessingFailed)))
    ensures resp.Thrown? ==> f == Some(Or(resp.message, RequestFailed))
    ensures resp.Delivered? ==> (f.Some? <==> TopStepThrows(resp.body))
  {
    match resp
    case NotOk(error, details) => Some(Or(error, Or(details, ProcessingFailed)))
    case Thrown(message) => Some(Or(message, RequestFailed))
    case Delivered(body) =>
      match NormalizeReply(s.processedVideoUrl, body, parse)
      case NormalizeThrew(message) => Some(message)
      case Normalized(_) => None
  }

  /** The state after a failed turn: the user message and one error
      message are appended and the error is set; results, the processed
      video and the completion flag stay as they were. */
  function FailTurn(s: Session, text: string): (r: Session)
    ensures r.messages == s.messages + [Message(User, s.input, None), Message(Assistant, ErrorPrefix + text, None)]
    ensures r.error == Some(text) && r.input == "" && !r.loading
    ensures r.analysisComplete == s.analysisComplete && r.analysisResults == s.analysisResults
    ensures r.processedVideoUrl == s.processedVideoUrl
    ensures r.selectedVideo == s.selectedVideo && r.videoPath == s.videoPath
    ensures r.isUploading == s.isUploading
  {
    s.(messages := s.messages + [Message(User, s.input, None), Message(Assistant, ErrorPrefix + text, None)],
       input := "", error := Some(text), loading := false)
  }

  /** The state after a delivered turn: the user message and the normalised
      messages are appended, and the setters the normaliser called are
      applied, the last call to each winning. */
  function DeliverTurn(s: Session, acc: Acc): (r: Session)
    requires Good(acc)
    ensures |r.messages| == |s.messages| + 1 + |acc.out|
    ensures r.messages[..|s.messages|] == s.messages
    ensures r.messages[|s.messages|] == Message(User, s.input, None)
    ensures forall i :: |s.messages| < i < |r.messages| ==> r.messages[i] == acc.out[i - |s.messages| - 1].msg
    ensures forall i :: |s.messages| < i < |r.messages| ==> r.messages[i].role == Assistant
    ensures r.error.None? && r.input == "" && !r.loading
    ensures r.selectedVideo == s.selectedVideo && r.videoPath == s.videoPath
    ensures r.analysisComplete <==> s.analysisComplete || acc.writes.complete
    ensures acc.writes.results.Some? ==> r.analysisResults == acc.writes.results.value
    ensures acc.writes.results.None? ==> r.analysisResults == s.analysisResults
    ensures acc.writes.videoUrl.Some? ==> r.processedVideoUrl == acc.writes.videoUrl
    ensures acc.writes.videoUrl.None? ==> r.processedVideoUrl == s.processedVideoUrl
    ensures r.isUploading == s.isUploading
    ensures Coherent(s) ==> Coherent(r)
  {
    var user := Message(User, s.input, None);
    var r := s.(
      messages := s.messages + [user] + Messages(acc.out),
      input := "",
      error := None,
      processedVideoUrl := if acc.writes.videoUrl.Some? then acc.writes.videoUrl else s.processedVideoUrl,
      analysisResults := if acc.writes.results.Some? then acc.writes.results.value else s.analysisResults,
      analysisComplete := s.analysisComplete || acc.writes.complete,
      loading := false);
    assert r.messages[..|s.messages|] == s.messages;
    r
  }

  /** One send: the guards, then the user message, then either the failure
      message or the normalised reply. */
  function SendMessage(s: Session, resp: ChatResponse, parse: string -> ParseResult): (r: Session)
    // guards: a fixed error and nothing else changes
    ensures !Accepts(s) ==> r == s.(error := Rejection(s))
    // an accepted turn appends the user message first, then only assistant messages
    ensures Accepts(s) ==>
              && |r.messages| > |s.messages|
              && r.messages[..|s.messages|] == s.messages
              && r.messages[|s.messages|] == Message(User, s.input, None)
              && (forall i :: |s.messages| < i < |r.messages| ==> r.messages[i].role == Assistant)
              && r.input == "" && !r.loading && r.selectedVideo == s.selectedVideo && r.videoPath == s.videoPath
    // a failed turn: exactly one error message, and it is FailTurn's state
    ensures Accepts(s) && TurnFailure(s, resp, parse).Some? ==>
              r == FailTurn(s, TurnFailure(s, resp, parse).value)
    ensures Accepts(s) && TurnFailure(s, resp, parse).Some? ==>
              && r.messages == s.messages + [Message(User, s.input, None),
                                             Message(Assistant, ErrorPrefix + TurnFailure(s, resp, parse).value, None)]
              && r.error == TurnFailure(s, resp, parse)
              && r.analysisComplete == s.analysisComplete
              && r.analysisResults == s.analysisResults
              && r.processedVideoUrl == s.processedVideoUrl
    // a delivered turn: completion exactly when the reply completes the analysis
    ensures Accepts(s) && TurnFailure(s, resp, parse).None? ==>
              && resp.Delivered?
              && r.error.None?
              && (r.analysisComplete <==> ReplyCompletes(resp.body, parse))
    // ... and it is the delivery of what the normaliser made of the reply,
    // read against the processed-video URL held before the turn
    ensures Accepts(s) && TurnFailure(s, resp, parse).None? ==>
              && NormalizeReply(s.processedVideoUrl, resp.body, parse).Normalized?
              && r == DeliverTurn(s, NormalizeReply(s.processedVideoUrl, resp.body, parse).acc)
    // no send starts or ends an upload
    ensures r.isUploading == s.isUploading
    ensures Coherent(s) ==> Coherent(r)
  {
    match Rejection(s)
    case Some(e) => s.(error := Some(e))
    case None =>
      match TurnFailure(s, resp, parse)
      case Some(text) => FailTurn(s, text)
      case None => DeliverTurn(s, NormalizeReply(s.processedVideoUrl, resp.body, parse).acc)
  }

  /** A completed analysis blocks every further send until an upload or a
      reset: the transcript stays as it is. */
  lemma CompleteBlocksSend(s: Session, resp: ChatResponse, parse: string -> ParseResult)
    requires s.analysisComplete
    ensures SendMessage(s, resp, parse).messages == s.messages
    ensures SendMessage(s, resp, parse).analysisComplete
    ensures !Blank(s.input) && Truthy(s.videoPath) ==> SendMessage(s, resp, parse).error == Some(CompleteError)
  {
  }

  /** The transcript only grows during a send, and what was there stays. */
  lemma SendAppendOnly(s: Session, resp: ChatResponse, parse: string -> ParseResult)
    ensures var r := SendMessage(s, resp, parse);
            |s.messages| <= |r.messages| && r.messages[..|s.messages|] == s.messages
  {
  }

  // ---------------------------------------------------------------------
  // Uploading a video (handleVideoChange)
  // ---------------------------------------------------------------------

  /** What the upload request yields: an OK status with the stored path, a
      non-OK status with its `error` field ("" when falsy), or an error thrown
      by `fetch` or by reading the body as JSON. */
  datatype UploadResponse = Uploaded(videoPath: string) | UploadRejected(error: string) | UploadThrew(message: string)

  function UploadedText(file: VideoFile): string {
    "✅ Video uploaded successfully! File: " + file.name + " (" + file.sizeText + " MB)\n"
    + "Ready for biomechanical analysis. Try: \"analyze batting posture\" or \"assess injury risk\""
  }

  /** The setters before the request: the previous session's transcript,
      results, completion flag and processed video are dropped. A selection
      without a file, or while an upload is running, is ignored. */
  function BeginUpload(s: Session, file: Option<VideoFile>): (r: Session)
    ensures file.None? || s.isUploading ==> r == s
    ensures file.Some? && !s.isUploading ==>
              && r.isUploading && r.loading
              && r.selectedVideo == file
              && r.messages == [] && r.analysisResults == NoResults && !r.analysisComplete
              && r.processedVideoUrl.None? && r.error.None?
              && r.videoPath == s.videoPath && r.input == s.input
    ensures Coherent(s) ==> Coherent(r)
  {
    if file.None? || s.isUploading then s
    else s.(isUploading := true, selectedVideo := file, error := None, analysisResults := NoResults,
            messages := [], analysisComplete := false, processedVideoUrl := None, loading := true)
  }

  /** The error a failed upload shows: the response's `error` or "Upload
      failed" for a non-OK status, the thrown message or "Failed to upload
      video" for a thrown error. */
  function UploadError(resp: UploadResponse): (e: Option<string>)
    ensures e.None? <==> resp.Uploaded?
    ensures e.Some? ==> e.value != ""
    ensures resp.UploadRejected? ==> e == Some(Or(resp.error, UploadFailed))
    ensures resp.UploadThrew? ==> e == Some(Or(resp.message, UploadThrewError))
  {
    match resp
    case Uploaded(_) => None
    case UploadRejected(error) => Some(Or(error, UploadFailed))
    case UploadThrew(message) => Some(Or(message, UploadThrewError))
  }

  /** The setters after the request. On success the transcript is the one
      system message and the video path is the stored one; on failure the
      error is set, the selection is dropped and the previous video path is
      kept. */
  function FinishUpload(s: Session, file: VideoFile, resp: UploadResponse): (r: Session)
    ensures !r.isUploading && !r.loading
    ensures resp.Uploaded? ==>
              && r.messages == [Message(System, UploadedText(file), None)]
              && r.videoPath == Some(resp.videoPath)
              && r.error == s.error && r.selectedVideo == s.selectedVideo
    ensures !resp.Uploaded? ==>
              && r.error == UploadError(resp)
              && r.selectedVideo.None? && r.videoPath == s.videoPath && r.messages == s.messages
    ensures r.analysisResults == s.analysisResults && r.analysisComplete == s.analysisComplete
    ensures r.processedVideoUrl == s.processedVideoUrl && r.input == s.input
  {
    match UploadError(resp)
    case None =>
      s.(videoPath := Some(resp.videoPath), messages := [Message(System, UploadedText(file), None)],
         loading := false, isUploading := false)
    case Some(text) =>
      s.(error := Some(text), selectedVideo := None, loading := false, isUploading := false)
  }

  /** The whole upload handler. */
  function SelectVideo(s: Session, file: Option<VideoFile>, resp: UploadResponse): (r: Session)
    ensures file.None? || s.isUploading ==> r == s
    ensures file.Some? && !s.isUploading ==>
              && !r.isUploading && !r.analysisComplete && r.analysisResults == NoResults
              && r.processedVideoUrl.None?
    ensures file.Some? && !s.isUploading && resp.Uploaded? ==>
              r.messages == [Message(System, UploadedText(file.value), None)] && r.videoPath == Some(resp.videoPath)
              && r.selectedVideo == file && r.error.None?
    ensures file.Some? && !s.isUploading && !resp.Uploaded? ==>
              r.messages == [] && r.videoPath == s.videoPath && r.selectedVideo.None? && r.error == UploadError(resp)
    ensures file.Some? && !s.isUploading ==> !r.loading && r.input == s.input
    // the handler is the pre-request setters followed by the post-request ones
    ensures file.Some? && !s.isUploading ==> r == FinishUpload(BeginUpload(s, file), file.value, resp)
    ensures Coherent(s) ==> Coherent(r)
  {
    if file.None? || s.isUploading then s
    else FinishUpload(BeginUpload(s, file), file.value, resp)
  }

  /** A second selection made while the first upload is running changes
      nothing. */
  lemma UploadIgnoredWhileUploading(s: Session, first: VideoFile, second: Option<VideoFile>)
    requires !s.isUploading
    ensures var pending := BeginUpload(s, Some(first));
            BeginUpload(pending, second) == pending
  {
  }

  /** After a successful upload of a truthy path the next non-blank message
      is accepted, whatever the previous session held. */
  lemma UploadEnablesSend(s: Session, file: VideoFile, path: string, text: string)
    requires !s.isUploading && path != "" && !Blank(text)
    ensures Accepts(SelectVideo(s, Some(file), Uploaded(path)).(input := text))
  {
  }

  // ---------------------------------------------------------------------
  // Resetting (resetForNewVideo)
  // ---------------------------------------------------------------------

  function ResetForNewVideo(s: Session): (r: Session)
    ensures r.messages == [] && r.videoPath.None? && r.selectedVideo.None?
    ensures r.analysisResults == NoResults && r.processedVideoUrl.None? && !r.analysisComplete && r.error.None?
    ensures r.input == s.input && r.loading == s.loading && r.isUploading == s.isUploading
    ensures Coherent(r)
  {
    s.(selectedVideo := None, videoPath := None, messages := [], analysisResults := NoResults,
       processedVideoUrl := None, analysisComplete := false, error := None)
  }

  /** After a reset no message can be sent until a video is uploaded. */
  lemma ResetBlocksSend(s: Session, resp: ChatResponse, parse: string -> ParseResult)
    ensures var r := ResetForNewVideo(s);
            var after := SendMessage(r, resp, parse);
            && after.messages == []
            && after.error == Some(if Blank(s.input) then EmptyInputError else NoVideoError)
  {
  }

  /** Only an upload or a reset clears the completion flag. */
  lemma OnlyUploadOrResetClearsCompletion(s: Session, resp: ChatResponse, parse: string -> ParseResult)
    requires s.analysisComplete
    ensures SendMessage(s, resp, parse).analysisComplete
    ensures !ResetForNewVideo(s).analysisComplete
  {
  }
}
