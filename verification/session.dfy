/**
 * The page together with the world its handlers talk to: uploads still in
 * flight, clipboard writes still pending, pending copy-reset timers, the
 * toasts shown and the clipboard. The rendered page decides which user
 * gestures can reach which handler.
 */
module Session {
  import opened Wrappers
  import opened HomePage

  datatype World = World(
    ui: UiState,
    inFlight: seq<File>,         // uploads whose asynchronous part has not settled yet
    pendingWrites: seq<string>,  // clipboard writes started and not yet settled
    timers: nat,                 // copy-reset timers scheduled and not yet fired
    toasts: seq<string>,         // error toasts shown so far
    clipboard: Option<string>)   // last text successfully written to the clipboard

  const Start: World := World(Initial, [], [], 0, [], None)

  datatype Input =
    | Gesture(event: Event)                                           // a user gesture reaching a handler
    | UploadSettles(index: nat, cred: CredentialReply, put: PutReply) // the index-th upload in flight completes
    | ClipboardSettles(index: nat, ok: bool)                          // the index-th pending clipboard write settles
    | TimerFires                                                      // one pending copy-reset timer fires

  function ApplyEffect(w: World, e: Effect): World
  {
    match e
    case BeginUpload(f) => w.(inFlight := w.inFlight + [f])
    case ShowError(message) => w.(toasts := w.toasts + [message])
    case WriteClipboard(text) => w.(pendingWrites := w.pendingWrites + [text])
    case ScheduleCopyReset(_) => w.(timers := w.timers + 1)
  }

  /**
   * Carries out a handler's effects in order. Each kind of effect only adds to
   * its own part of the world, and a part no effect names is left unchanged.
   */
  function Apply(w: World, effects: seq<Effect>): (r: World)
    ensures r.ui == w.ui && r.clipboard == w.clipboard
    ensures |r.inFlight| >= |w.inFlight| && r.inFlight[..|w.inFlight|] == w.inFlight
    ensures |r.pendingWrites| >= |w.pendingWrites| && r.pendingWrites[..|w.pendingWrites|] == w.pendingWrites
    ensures |r.toasts| >= |w.toasts| && r.toasts[..|w.toasts|] == w.toasts
    ensures r.timers >= w.timers
    ensures (exists k :: 0 <= k < |effects| && effects[k].BeginUpload?) ==> |r.inFlight| > |w.inFlight|
    ensures (exists k :: 0 <= k < |effects| && effects[k].WriteClipboard?) ==> |r.pendingWrites| > |w.pendingWrites|
    ensures (exists k :: 0 <= k < |effects| && effects[k].ScheduleCopyReset?) ==> r.timers > w.timers
    ensures (forall k :: 0 <= k < |effects| ==> !effects[k].BeginUpload?) ==> r.inFlight == w.inFlight
    ensures (forall k :: 0 <= k < |effects| ==> !effects[k].WriteClipboard?) ==> r.pendingWrites == w.pendingWrites
    ensures (forall k :: 0 <= k < |effects| ==> !effects[k].ShowError?) ==> r.toasts == w.toasts
    ensures (forall k :: 0 <= k < |effects| ==> !effects[k].ScheduleCopyReset?) ==> r.timers == w.timers
    decreases |effects|
  {
    if |effects| == 0 then w
    else
      var w' := ApplyEffect(w, effects[0]);
      assert forall k :: 1 <= k < |effects| ==> effects[k] == effects[1..][k - 1];
      Apply(w', effects[1..])
  }

  function Remove<T>(s: seq<T>, k: nat): (r: seq<T>)
    requires k < |s|
    ensures |r| == |s| - 1
  {
    s[..k] + s[k + 1..]
  }

  /**
   * Whether an input can happen in world `w`. Drag, drop and the file input
   * exist only while no URL is shown, and the file input is disabled while
   * uploading; the copy and reset buttons exist only while a URL is shown.
   * Settlements and timer firings are not gestures: they arrive for work
   * actually pending.
   */
  predicate Deliverable(w: World, i: Input)
    // the form and the URL view are never on screen together
    ensures Deliverable(w, i) && i.Gesture? ==> (HasUrl(w.ui) <==> i.event.Copy? || i.event.Reset?)
    ensures Deliverable(w, i) && i.Gesture? && i.event.Change? ==> !w.ui.uploading
    ensures Deliverable(w, i) && i.Gesture? ==>
              !i.event.Settled? && !i.event.ClipboardSettled? && !i.event.CopyTimerFired?
    ensures Deliverable(w, i) && i.UploadSettles? ==> i.index < |w.inFlight|
    ensures Deliverable(w, i) && i.ClipboardSettles? ==> i.index < |w.pendingWrites|
    ensures Deliverable(w, i) && i.TimerFires? ==> w.timers > 0
  {
    match i
    case Gesture(e) =>
      (match e
       case Drag(_) => !HasUrl(w.ui)
       case Drop(_) => !HasUrl(w.ui)
       case Change(_) => !HasUrl(w.ui) && !w.ui.uploading
       case Copy => HasUrl(w.ui)
       case Reset => HasUrl(w.ui)
       case Settled(_) => false
       case ClipboardSettled(_) => false
       case CopyTimerFired => false)
    case UploadSettles(index, _, _) => index < |w.inFlight|
    case ClipboardSettles(index, _) => index < |w.pendingWrites|
    case TimerFires => w.timers > 0
  }

  /** The world after one input: the page handles it, then its effects are carried out. */
  function Next(w: World, i: Input): (r: World)
    requires Deliverable(w, i)
    // a drop or selection with a file puts exactly its first file in flight
    ensures i.Gesture? && (i.event.Drop? || i.event.Change?) && FirstFile(i.event.files).Some? ==>
              r.inFlight == w.inFlight + [FirstFile(i.event.files).value]
    // a settling upload is the one removed from the in-flight list
    ensures i.UploadSettles? ==>
              r.inFlight == Remove(w.inFlight, i.index) && !r.ui.uploading && r.timers == w.timers
    ensures i.UploadSettles? && RunUpload(w.inFlight[i.index], i.cred, i.put).settlement.Failed? ==>
              r.toasts == w.toasts + [RunUpload(w.inFlight[i.index], i.cred, i.put).settlement.message]
    ensures i.UploadSettles? && RunUpload(w.inFlight[i.index], i.cred, i.put).settlement.Uploaded? ==>
              r.toasts == w.toasts && r.ui.uploadedUrl == RunUpload(w.inFlight[i.index], i.cred, i.put).settlement.url
    ensures i.TimerFires? ==> r.timers == w.timers - 1 && !r.ui.copied && r.inFlight == w.inFlight
    ensures i.ClipboardSettles? ==> r.pendingWrites == Remove(w.pendingWrites, i.index)
    ensures i.ClipboardSettles? && i.ok ==>
              r.clipboard == Some(w.pendingWrites[i.index]) && r.ui.copied && r.timers == w.timers + 1
    ensures i.ClipboardSettles? && !i.ok ==> r.clipboard == w.clipboard && r.ui == w.ui
    ensures !i.ClipboardSettles? ==> r.clipboard == w.clipboard
    // toasts are only ever appended, and only by an upload that failed
    ensures |r.toasts| >= |w.toasts| && r.toasts[..|w.toasts|] == w.toasts
    ensures r.toasts != w.toasts ==>
              i.UploadSettles? && RunUpload(w.inFlight[i.index], i.cred, i.put).settlement.Failed?
  {
    match i
    case Gesture(e) =>
      var t := Step(w.ui, e);
      Apply(w.(ui := t.state), t.effects)
    case UploadSettles(index, cred, put) =>
      var run := RunUpload(w.inFlight[index], cred, put);
      var t := Step(w.ui, Settled(run.settlement));
      Apply(w.(ui := t.state, inFlight := Remove(w.inFlight, index)), t.effects)
    case ClipboardSettles(index, ok) =>
      var t := Step(w.ui, ClipboardSettled(ok));
      var written := if ok then Some(w.pendingWrites[index]) else w.clipboard;
      Apply(w.(ui := t.state, pendingWrites := Remove(w.pendingWrites, index), clipboard := written), t.effects)
    case TimerFires =>
      var t := Step(w.ui, CopyTimerFired);
      Apply(w.(ui := t.state, timers := w.timers - 1), t.effects)
  }

  /** Runs a sequence of inputs; `None` if one of them cannot happen where it arrives. */
  function Run(w: World, inputs: seq<Input>): Option<World>
    decreases |inputs|
  {
    if |inputs| == 0 then Some(w)
    else if !Deliverable(w, inputs[0]) then None
    else Run(Next(w, inputs[0]), inputs[1..])
  }

  /**
   * The spinner is shown only while some upload is in flight, never together
   * with a URL, and the "copied" indicator only while a timer that will clear
   * it is pending.
   */
  predicate Inv(w: World)
  {
    && (w.ui.uploading ==> |w.inFlight| > 0)
    && (HasUrl(w.ui) ==> !w.ui.uploading)
    && (w.ui.copied ==> w.timers > 0)
  }

  lemma StartInv()
    ensures Inv(Start)
  {
  }

  lemma NextPreservesInv(w: World, i: Input)
    requires Deliverable(w, i) && Inv(w)
    ensures Inv(Next(w, i))
  {
  }

  /** Every run from a world satisfying the invariant keeps it. */
  lemma {:induction false} RunPreservesInv(w: World, inputs: seq<Input>)
    requires Inv(w)
    ensures Run(w, inputs).Some? ==> Inv(Run(w, inputs).value)
    decreases |inputs|
  {
    if |inputs| > 0 && Deliverable(w, inputs[0]) {
      NextPreservesInv(w, inputs[0]);
      RunPreservesInv(Next(w, inputs[0]), inputs[1..]);
    }
  }

  /** Every reachable page state satisfies the invariant. */
  lemma ReachableInv(inputs: seq<Input>)
    ensures Run(Start, inputs).Some? ==> Inv(Run(Start, inputs).value)
  {
    StartInv();
    RunPreservesInv(Start, inputs);
  }

  /**
   * The file input is disabled while uploading but dropping is not: a second
   * drop starts a concurrent upload, and when the first one settles the spinner
   * disappears although the second is still in flight.
   */
  lemma DropDuringUpload(f1: File, f2: File, cred: CredentialReply, put: PutReply, picked: seq<File>)
    ensures var w1 := Next(Start, Gesture(Drop(Some([f1]))));
            && w1.ui.uploading
            && !Deliverable(w1, Gesture(Change(Some(picked))))
            && Deliverable(w1, Gesture(Drop(Some([f2]))))
            && var w2 := Next(w1, Gesture(Drop(Some([f2]))));
               && w2.inFlight == [f1, f2]
               && var w3 := Next(w2, UploadSettles(0, cred, put));
                  (RunUpload(f1, cred, put).settlement.Failed? ==> !w3.ui.uploading && w3.inFlight == [f2])
  {
  }

  /**
   * Pressing copy while a URL is shown starts writing exactly that URL; once
   * the write succeeds the clipboard holds the URL on screen, "copied" is set
   * and one more reset timer is pending.
   */
  lemma CopyWritesShownUrl(w: World)
    requires HasUrl(w.ui)
    ensures var w1 := Next(w, Gesture(Copy));
            && w1.ui == w.ui
            && w1.pendingWrites == w.pendingWrites + [w.ui.uploadedUrl.value]
            && var w2 := Next(w1, ClipboardSettles(|w.pendingWrites|, true));
               && w2.clipboard == w.ui.uploadedUrl && w2.clipboard == w2.ui.uploadedUrl
               && w2.ui.copied && w2.timers == w.timers + 1
  {
  }

  /**
   * The write is awaited before "copied" is set, so a reset in between does
   * not stop it: the page then shows the upload form with "copied" still set
   * until its timer fires.
   */
  lemma ResetBeforeClipboardSettles(w: World)
    requires HasUrl(w.ui)
    ensures var w1 := Next(w, Gesture(Copy));
            && Deliverable(w1, Gesture(Reset))
            && var w2 := Next(w1, Gesture(Reset));
               && Deliverable(w2, ClipboardSettles(|w.pendingWrites|, true))
               && var w3 := Next(w2, ClipboardSettles(|w.pendingWrites|, true));
                  w3.ui.copied && !HasUrl(w3.ui) && w3.timers > 0
  {
  }

  /**
   * A failed upload changes no URL: whatever `uploadedUrl` was (null after a
   * lone upload, or the URL of another upload that already succeeded) stays,
   * and exactly its message is toasted.
   */
  lemma FailureKeepsUrl(w: World, index: nat, cred: CredentialReply, put: PutReply)
    requires index < |w.inFlight|
    requires RunUpload(w.inFlight[index], cred, put).settlement.Failed?
    ensures Next(w, UploadSettles(index, cred, put)).ui.uploadedUrl == w.ui.uploadedUrl
    ensures Next(w, UploadSettles(index, cred, put)).toasts ==
              w.toasts + [RunUpload(w.inFlight[index], cred, put).settlement.message]
  {
  }
}
