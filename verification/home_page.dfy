/**
 * The upload page's client state and its event handlers, as pure transitions.
 * Network replies, clipboard writes and timer firings arrive as inputs; what a
 * handler asks the outside world to do is returned as a list of effects.
 */
module HomePage {
  import opened Wrappers
  import UploadRoute

  const MsgCredentialFailed: string := "Failed to get upload URL"
  const MsgUploadFailed: string := "Upload failed"
  /** Toast text when the thrown value is not an `Error` object. */
  const MsgUnknownFailure: string := "Upload failed. Please try again."
  /** Delay after which the "copied" indicator is cleared. */
  const CopyResetDelayMs: nat := 2000

  /** A selected or dropped file: its MIME type (possibly empty) and size in bytes. */
  datatype File = File(mimeType: string, size: nat)

  /** The page's upload-related state. `uploadedUrl` is `None` for null/undefined. */
  datatype UiState = UiState(dragActive: bool, uploading: bool, uploadedUrl: Option<string>, copied: bool)

  const Initial: UiState := UiState(false, false, None, false)

  /** `uploadedUrl` is truthy: present and not the empty string. */
  predicate HasUrl(s: UiState)
  {
    s.uploadedUrl.Some? && s.uploadedUrl.value != ""
  }

  /** A value thrown inside `uploadFile`: an `Error` with its message, or anything else. */
  datatype Thrown = ErrorObject(message: string) | NonError

  /**
   * The credential request's outcome: the fetch or JSON parsing threw, or a
   * reply arrived with its `ok` flag and the body fields the client reads.
   */
  datatype CredentialReply =
    | CredentialThrew(thrown: Thrown)
    | CredentialReplied(ok: bool, error: Option<string>, uploadUrl: Option<string>, url: Option<string>)

  /** The direct PUT's outcome: the fetch threw, or a reply arrived with its `ok` flag. */
  datatype PutReply = PutThrew(thrown: Thrown) | PutReplied(ok: bool)

  /** The direct PUT: its target URL (as read from the credential), content type header and body. */
  datatype PutRequest = PutRequest(target: Option<string>, contentType: string, file: File)

  /** How an upload attempt ends: the URL to show, or the message of the error toast. */
  datatype Settlement = Uploaded(url: Option<string>) | Failed(message: string)

  /** One upload attempt: the credential request sent, the PUT attempted (if any), its settlement. */
  datatype UploadRun = UploadRun(request: UploadRoute.Payload, put: Option<PutRequest>, settlement: Settlement)

  /** The JSON body the client posts for a file: its type and size. */
  function RequestPayload(f: File): UploadRoute.Payload
  {
    UploadRoute.Fields(UploadRoute.Text(f.mimeType), UploadRoute.Number(f.size as real))
  }

  /** The text the catch block shows for a thrown value. */
  function ToastMessage(t: Thrown): string
  {
    match t
    case ErrorObject(message) => message
    case NonError => MsgUnknownFailure
  }

  /**
   * The asynchronous body of `uploadFile` for file `f`: request a credential,
   * then PUT the file to the credential's upload URL, and settle.
   */
  function RunUpload(f: File, cred: CredentialReply, put: PutReply): (r: UploadRun)
    ensures r.request == RequestPayload(f)
    // the PUT is attempted exactly when the credential reply is ok, against its upload URL
    ensures r.put.Some? <==> cred.CredentialReplied? && cred.ok
    ensures r.put.Some? ==> r.put.value == PutRequest(cred.uploadUrl, f.mimeType, f)
    // a URL is surfaced exactly when both requests succeed, and it is the credential's url
    ensures r.settlement.Uploaded? <==> r.put.Some? && put == PutReplied(true)
    ensures r.settlement.Uploaded? ==> r.settlement.url == cred.url
    // failure messages
    ensures cred.CredentialThrew? ==> r.settlement == Failed(ToastMessage(cred.thrown))
    ensures cred.CredentialReplied? && !cred.ok && cred.error.Some? && cred.error.value != "" ==>
              r.settlement == Failed(cred.error.value)
    ensures cred.CredentialReplied? && !cred.ok && cred.error in {None, Some("")} ==>
              r.settlement == Failed(MsgCredentialFailed)
    ensures r.put.Some? && put == PutReplied(false) ==> r.settlement == Failed(MsgUploadFailed)
    ensures r.put.Some? && put.PutThrew? ==> r.settlement == Failed(ToastMessage(put.thrown))
  {
    var request := RequestPayload(f);
    match cred
    case CredentialThrew(thrown) => UploadRun(request, None, Failed(ToastMessage(thrown)))
    case CredentialReplied(ok, error, uploadUrl, url) =>
      if !ok then UploadRun(request, None, Failed(OrElse(error, MsgCredentialFailed)))
      else
        var putRequest := PutRequest(uploadUrl, f.mimeType, f);
        match put
        case PutThrew(thrown) => UploadRun(request, Some(putRequest), Failed(ToastMessage(thrown)))
        case PutReplied(putOk) =>
          if !putOk then UploadRun(request, Some(putRequest), Failed(MsgUploadFailed))
          else UploadRun(request, Some(putRequest), Uploaded(url))
  }

  datatype Event =
    | Drag(kind: string)                 // dragenter, dragover, dragleave (or any other drag type)
    | Drop(files: Option<seq<File>>)
    | Change(files: Option<seq<File>>)   // the file input's selection
    | Settled(settlement: Settlement)    // an upload started earlier completes
    | Copy                               // copy button pressed
    | ClipboardSettled(ok: bool)         // the awaited clipboard write resolved (`ok`) or rejected
    | CopyTimerFired
    | Reset

  datatype Effect =
    | BeginUpload(file: File)            // the asynchronous part of `uploadFile` starts
    | ShowError(message: string)         // error toast
    | WriteClipboard(text: string)       // the clipboard write starts; it settles later
    | ScheduleCopyReset(delayMs: nat)

  datatype Transition = Transition(state: UiState, effects: seq<Effect>)

  /** `files && files[0]`: the first file, when there is one. */
  function FirstFile(files: Option<seq<File>>): Option<File>
  {
    if files.Some? && |files.value| > 0 then Some(files.value[0]) else None
  }

  function HandleDrag(s: UiState, kind: string): (r: UiState)
    ensures r == s.(dragActive := r.dragActive)
    ensures kind == "dragenter" || kind == "dragover" ==> r.dragActive
    ensures kind == "dragleave" ==> !r.dragActive
    ensures kind !in {"dragenter", "dragover", "dragleave"} ==> r == s
  {
    if kind == "dragenter" || kind == "dragover" then s.(dragActive := true)
    else if kind == "dragleave" then s.(dragActive := false)
    else s
  }

  /** The synchronous start of `uploadFile`: show the spinner and clear any previous URL. */
  function StartUpload(s: UiState, f: File): (t: Transition)
    ensures t.state.uploading && t.state.uploadedUrl == None
    ensures t.state.dragActive == s.dragActive && t.state.copied == s.copied
    ensures t.effects == [BeginUpload(f)]
  {
    Transition(s.(uploading := true, uploadedUrl := None), [BeginUpload(f)])
  }

  function HandleDrop(s: UiState, files: Option<seq<File>>): (t: Transition)
    ensures !t.state.dragActive && t.state.copied == s.copied
    ensures FirstFile(files).None? ==> t == Transition(s.(dragActive := false), [])
    ensures FirstFile(files).Some? ==>
              t.state.uploading && t.state.uploadedUrl == None && t.effects == [BeginUpload(files.value[0])]
  {
    var s' := s.(dragActive := false);
    match FirstFile(files)
    case None => Transition(s', [])
    case Some(f) => StartUpload(s', f)
  }

  function HandleChange(s: UiState, files: Option<seq<File>>): (t: Transition)
    ensures t.state.dragActive == s.dragActive && t.state.copied == s.copied
    ensures FirstFile(files).None? ==> t == Transition(s, [])
    ensures FirstFile(files).Some? ==>
              t.state.uploading && t.state.uploadedUrl == None && t.effects == [BeginUpload(files.value[0])]
  {
    match FirstFile(files)
    case None => Transition(s, [])
    case Some(f) => StartUpload(s, f)
  }

  /** The end of `uploadFile`: record the URL or toast the error, then always clear the spinner. */
  function FinishUpload(s: UiState, settlement: Settlement): (t: Transition)
    ensures !t.state.uploading
    ensures t.state.dragActive == s.dragActive && t.state.copied == s.copied
    ensures settlement.Uploaded? ==> t.state.uploadedUrl == settlement.url && t.effects == []
    ensures settlement.Failed? ==>
              t.state.uploadedUrl == s.uploadedUrl && t.effects == [ShowError(settlement.message)]
  {
    match settlement
    case Uploaded(url) => Transition(s.(uploadedUrl := url, uploading := false), [])
    case Failed(message) => Transition(s.(uploading := false), [ShowError(message)])
  }

  /**
   * The copy button: with a (truthy) URL shown, start writing it to the
   * clipboard; nothing changes until that write settles.
   */
  function CopyToClipboard(s: UiState): (t: Transition)
    ensures t.state == s
    ensures !HasUrl(s) ==> t.effects == []
    ensures HasUrl(s) ==> t.effects == [WriteClipboard(s.uploadedUrl.value)]
  {
    if !HasUrl(s) then Transition(s, [])
    else Transition(s, [WriteClipboard(s.uploadedUrl.value)])
  }

  /**
   * The rest of `copyToClipboard` once the awaited write settles: on success
   * set `copied` and schedule its reset, whatever the page shows by then; on
   * rejection the function stops and nothing changes.
   */
  function FinishCopy(s: UiState, ok: bool): (t: Transition)
    ensures t.state == s.(copied := t.state.copied)
    ensures t.state.copied <==> s.copied || ok
    ensures ok ==> t.effects == [ScheduleCopyReset(CopyResetDelayMs)]
    ensures !ok ==> t == Transition(s, [])
  {
    if ok then Transition(s.(copied := true), [ScheduleCopyReset(CopyResetDelayMs)])
    else Transition(s, [])
  }

  function ResetUpload(s: UiState): (r: UiState)
    ensures r.uploadedUrl == None && !r.copied
    ensures r.dragActive == s.dragActive && r.uploading == s.uploading
  {
    s.(uploadedUrl := None, copied := false)
  }

  /** The page's reaction to one event. */
  function Step(s: UiState, e: Event): (t: Transition)
    // which events may change which field
    ensures t.state.dragActive != s.dragActive ==> e.Drag? || e.Drop?
    ensures t.state.uploading != s.uploading ==> e.Drop? || e.Change? || e.Settled?
    ensures t.state.uploadedUrl != s.uploadedUrl ==> e.Drop? || e.Change? || e.Settled? || e.Reset?
    ensures t.state.copied != s.copied ==> e.ClipboardSettled? || e.CopyTimerFired? || e.Reset?
    // which events may have which effects
    ensures forall k :: 0 <= k < |t.effects| && t.effects[k].BeginUpload? ==> e.Drop? || e.Change?
    ensures forall k :: 0 <= k < |t.effects| && t.effects[k].ShowError? ==> e.Settled? && e.settlement.Failed?
    ensures forall k :: 0 <= k < |t.effects| && t.effects[k].WriteClipboard? ==> e.Copy? && HasUrl(s)
    ensures forall k :: 0 <= k < |t.effects| && t.effects[k].ScheduleCopyReset? ==> e.ClipboardSettled? && e.ok
    ensures e.CopyTimerFired? ==> t == Transition(s.(copied := false), [])
  {
    match e
    case Drag(kind) => Transition(HandleDrag(s, kind), [])
    case Drop(files) => HandleDrop(s, files)
    case Change(files) => HandleChange(s, files)
    case Settled(settlement) => FinishUpload(s, settlement)
    case Copy => CopyToClipboard(s)
    case ClipboardSettled(ok) => FinishCopy(s, ok)
    case CopyTimerFired => Transition(s.(copied := false), [])
    case Reset => Transition(ResetUpload(s), [])
  }

  /**
   * One upload from drop to completion, with nothing in between: the spinner
   * is off at the end whatever happened, and a URL is shown only when both the
   * credential request and the PUT succeeded and the credential's url is non-empty.
   */
  lemma DropUploadLifecycle(s: UiState, files: Option<seq<File>>, cred: CredentialReply, put: PutReply)
    requires FirstFile(files).Some?
    ensures var t1 := Step(s, Drop(files));
            var run := RunUpload(files.value[0], cred, put);
            var t2 := Step(t1.state, Settled(run.settlement));
            && t1.state.uploading
            && !t2.state.uploading && !t2.state.dragActive && t2.state.copied == s.copied
            && (run.put.None? ==> t2.state.uploadedUrl == None)
            && (HasUrl(t2.state) <==>
                  cred.CredentialReplied? && cred.ok && cred.url.Some? && cred.url.value != "" && put == PutReplied(true))
            && (t2.state.uploadedUrl.Some? ==> t2.state.uploadedUrl == cred.url)
  {
  }
}
