/** The single-page capture wizard (`FaceCapture.jsx`): one session record,
    and one pure transition function per user action, timer and settled
    promise. React state setters become record updates; timers and promises
    become events whose arrival is chosen by the environment; a button that
    is disabled, or sits in a panel that is not the current step, makes its
    event a no-op. The user is a pointer user: the hidden panels are only
    transparent and ignore pointer events, so their controls stay reachable
    from the keyboard, which this model does not follow.

    Every change of `step` goes through `GoTo`, which plays the camera
    effect: entering CAPTURE schedules the camera start, leaving it clears
    that timer and stops the tracks `streamRef` refers to. */
module FaceCapturePage {
  import opened Common
  import opened Text
  import Camera
  import Shutter

  /** The wizard's steps, in display order. */
  datatype Step = Name | Capture | Review | Result | Email

  /** The upload races a rejection timer of this length. */
  const UploadTimeoutMs: nat := 10000
  /** After a sent email, the wizard returns to RESULT after this delay. */
  const EmailReturnMs: nat := 3000

  const UploadFailedMessage := "Image upload failed. Using local image instead."
  const EmailFailedMessage := "Failed to send email. Please try again."
  const EmailSubject := "Your FaceIT Result"
  /** Fields every history record carries. */
  const HistoryModel := "standard"
  const HistoryStatus := "completed"

  /** How the race between `UploadFile` and the 10 000 ms timeout ends: the
      upload resolves first with a `file_url`, the upload rejects first, or
      the timeout rejects first. */
  datatype UploadOutcome = RemoteOk(fileUrl: string) | Failed | TimedOut

  /** A submit in flight, with the values its handler closed over at the click. */
  datatype SubmitJob = SubmitJob(image: string, userName: string)

  /** An email send in flight: recipient, subject and the result link the
      templated body embeds. */
  datatype EmailJob = EmailJob(to: string, subject: string, link: string)

  /** A processing-history record (the timestamp is not modelled). */
  datatype HistoryEntry = HistoryEntry(
    userName: string, sourceImage: string, resultUrl: string, modelUsed: string, status: string)

  /** The component's state. `camera` stands for `streamRef` and the start
      timer; `shutter` for the countdown interval and grab timer (its
      displayed value is `countdown`); `submitting`/`emailing` for the
      pending `UploadFile`/`SendEmail` promises; `recording` for the pending
      `ProcessingHistory.create` that a submit awaits after the race; `returnTimers` for pending
      3 s return timers; `history` for the records written to the history
      store. */
  datatype Session = Session(
    step: Step,
    userName: string,
    capturedImage: Option<string>,
    result: Option<string>,
    shutter: Shutter.Shutter,
    isReady: bool,
    cameraError: Option<string>,
    camera: Camera.Camera,
    email: string,
    emailSent: bool,
    emailError: Option<string>,
    uploadError: Option<string>,
    isProcessing: bool,
    submitting: Option<SubmitJob>,
    recording: Option<HistoryEntry>,
    emailing: Option<EmailJob>,
    returnTimers: nat,
    history: seq<HistoryEntry>)
  {
    /** The `countdown` state shown over the video. */
    function Countdown(): Option<nat> {
      Shutter.Countdown(shutter)
    }
  }

  /** The state on first render. */
  const Initial := Session(
    Name, "", None, None, Shutter.Idle, false, None, Camera.Off,
    "", false, None, None, false, None, None, None, 0, [])

  /** Everything that can happen to the wizard. */
  datatype Event =
    | EnterName(name: string)                      // typing in the name field
    | ContinueFromName                             // NAME's Continue button
    | CameraTimerFires(supported: bool)            // the 500 ms start timer; whether getUserMedia exists
    | CameraGranted                                // a getUserMedia request resolves
    | CameraDenied(message: string)                // a getUserMedia request rejects
    | VideoPlaying                                 // metadata loaded and play() resolved
    | VideoPlayFailed                              // play() rejected
    | TakePhoto                                    // CAPTURE's Take Photo button
    | CountdownTick                                // the one-second interval
    | GrabFrame(frame: Shutter.Frame)              // the 100 ms grab timer
    | Retake                                       // REVIEW's Retake button
    | Submit                                       // REVIEW's Continue button
    | SubmitSettles(outcome: UploadOutcome)       // the upload/timeout race ends
    | HistorySettles(saved: bool)                  // the history write settles: stored, or rejected
    | StartOver                                    // RESULT's Start Over button
    | OpenEmail                                    // RESULT's Email Result button
    | CloseEmail                                   // EMAIL's Back button
    | EnterEmail(address: string)                  // typing in the email field
    | SendEmail                                    // EMAIL's Send Email button
    | EmailSettles(delivered: bool)                // the SendEmail promise settles
    | EmailReturnTimer                             // the 3 s return timer

  /** `setCurrentStep(target)` together with the camera effect it triggers. */
  function GoTo(s: Session, target: Step): (r: Session)
    ensures r.step == target
    ensures r == s.(step := target, camera := r.camera)
    ensures r.camera.requests == s.camera.requests && r.camera.leaked == s.camera.leaked
    ensures s.step == Capture && target != Capture ==> !r.camera.startArmed && !r.camera.refLive
    ensures s.step != Capture && target == Capture ==> r.camera == Camera.Arm(s.camera)
    ensures (s.step == Capture) == (target == Capture) ==> r.camera == s.camera
  {
    var camera :=
      if s.step == Capture && target != Capture then Camera.Teardown(s.camera)
      else if s.step != Capture && target == Capture then Camera.Arm(s.camera)
      else s.camera;
    s.(step := target, camera := camera)
  }

  /** NAME's Continue button is enabled: the name is not blank after trimming. */
  predicate CanContinueFromName(s: Session) {
    s.step == Name && Trim(s.userName) != ""
  }

  /** NAME's Continue: CAPTURE is entered exactly when the name has a
      character other than white space; otherwise nothing happens. */
  function LeaveName(s: Session): (r: Session)
    requires s.step == Name
    ensures !AllSpace(s.userName) ==> r == GoTo(s, Capture) && r.camera.startArmed
    ensures AllSpace(s.userName) ==> r == s
  {
    TrimCharacterised(s.userName);
    if CanContinueFromName(s) then GoTo(s, Capture) else s
  }

  /** The start timer fires: without `getUserMedia` the unsupported error is
      shown; otherwise tracks of any previous stream are stopped and a new
      stream is requested. */
  function StartCamera(s: Session, supported: bool): (r: Session)
    requires s.camera.startArmed
    ensures !r.camera.startArmed
    ensures supported ==> r == s.(camera := Camera.Request(s.camera, true))
    ensures !supported ==> r.cameraError == Some(Camera.UnsupportedMessage) && r.camera.requests == s.camera.requests
    ensures !supported ==>
      r == s.(camera := r.camera, cameraError := r.cameraError) && r.camera == s.camera.(startArmed := false)
  {
    if !supported then
      s.(camera := s.camera.(startArmed := false), cameraError := Some(Camera.UnsupportedMessage))
    else
      s.(camera := Camera.Request(s.camera, true))
  }

  /** A stream request resolves, as `startCamera` handles it: the stream is
      stored in `streamRef` whatever the current step. */
  function StreamArrivesAsWritten(s: Session): (r: Session)
    requires s.camera.requests > 0
    ensures r.step == s.step && r.camera.refLive
    ensures Camera.Live(r.camera) == Camera.Live(s.camera) + 1
  {
    s.(camera := Camera.Granted(s.camera))
  }

  /** A stream request resolves, with the guard the wizard needs: outside
      CAPTURE the new stream is stopped at once, and inside it the previous
      stream is stopped before the new one is kept. */
  function StreamArrives(s: Session): (r: Session)
    requires s.camera.requests > 0
    ensures r.step == s.step
    ensures s.step == Capture ==> r.camera.refLive && Camera.Live(r.camera) == s.camera.leaked + 1
    ensures s.step != Capture ==> Camera.Live(r.camera) == Camera.Live(s.camera)
  {
    s.(camera := Camera.GrantedGuarded(s.camera, s.step == Capture))
  }

  /** A stream request rejects: its message (or the generic one) is shown. */
  function StreamRefused(s: Session, message: string): (r: Session)
    requires s.camera.requests > 0
    ensures Truthy(r.cameraError) && Camera.Live(r.camera) == Camera.Live(s.camera)
    ensures r == s.(camera := r.camera, cameraError := r.cameraError)
  {
    s.(camera := Camera.Denied(s.camera), cameraError := Some(Camera.DeniedMessage(message)))
  }

  /** "Take Photo" is enabled: the camera is ready and no countdown runs. */
  predicate CanTakePhoto(s: Session) {
    s.step == Capture && s.isReady && s.Countdown().None?
  }

  /** `capturePhoto`: with a camera error the simulated picture is taken at
      once, with no countdown and no step change; otherwise the countdown
      starts from 3. */
  function CapturePhoto(s: Session): (r: Session)
    ensures Truthy(s.cameraError) ==> r == s.(capturedImage := Some(Shutter.SimulatedImage))
    ensures !Truthy(s.cameraError) ==>
      r == s.(shutter := Shutter.Start(s.isReady)) && r.Countdown() == Some(3)
  {
    if Truthy(s.cameraError) then s.(capturedImage := Some(Shutter.SimulatedImage))
    else s.(shutter := Shutter.Start(s.isReady))
  }

  /** The grab after the countdown: the countdown is cleared on every path;
      only a live frame is kept as the captured image and moves the wizard to
      REVIEW; every other path stores the simulated picture and leaves the
      step unchanged. */
  function GrabStill(s: Session, f: Shutter.Frame): (r: Session)
    requires s.shutter.Settling?
    ensures r.Countdown().None?
    ensures (s.shutter.readyAtClick && f.LiveFrame?) ==>
      r.capturedImage == Some(f.url) && r.step == Review
    ensures !(s.shutter.readyAtClick && f.LiveFrame?) ==>
      r == s.(capturedImage := Some(Shutter.SimulatedImage), shutter := Shutter.Idle)
  {
    var g := Shutter.Grab(s.shutter.readyAtClick, f);
    var s' := s.(capturedImage := Some(g.image), shutter := Shutter.Idle);
    if g.fromCamera then GoTo(s', Review) else s'
  }

  /** REVIEW's Retake: only the captured image is cleared, and the wizard
      goes back to CAPTURE (which schedules the camera again). */
  function RetakePhoto(s: Session): (r: Session)
    requires s.step == Review
    ensures r == s.(capturedImage := None, step := Capture, camera := Camera.Arm(s.camera))
  {
    GoTo(s.(capturedImage := None), Capture)
  }

  /** REVIEW's Continue button is enabled: nothing is being processed. */
  predicate CanSubmit(s: Session) {
    s.step == Review && !s.isProcessing
  }

  /** `handleSubmit` up to the race: a no-op without a captured image;
      otherwise processing starts, the previous upload error is cleared, and
      the image and user name are captured for the upload. */
  function BeginSubmit(s: Session): (r: Session)
    ensures !Truthy(s.capturedImage) ==> r == s
    ensures Truthy(s.capturedImage) ==>
      r.isProcessing && r.uploadError.None? && r.step == s.step &&
      r.submitting == Some(SubmitJob(s.capturedImage.value, s.userName))
  {
    if !Truthy(s.capturedImage) then s
    else s.(isProcessing := true, uploadError := None,
            submitting := Some(SubmitJob(s.capturedImage.value, s.userName)))
  }

  /** The coordinator's choice once the race ends: the remote URL verbatim
      when the upload wins, else the local image and an upload error. */
  datatype Settled = Settled(url: string, error: Option<string>)

  function Settle(image: string, o: UploadOutcome): (r: Settled)
    ensures o.RemoteOk? <==> r.error.None?
    ensures o.RemoteOk? ==> r.url == o.fileUrl
    ensures !o.RemoteOk? ==> r.url == image && r.error == Some(UploadFailedMessage)
  {
    match o
    case RemoteOk(url) => Settled(url, None)
    case Failed => Settled(image, Some(UploadFailedMessage))
    case TimedOut => Settled(image, Some(UploadFailedMessage))
  }

  /** The history record written after a submit, with whatever URL it got. */
  function HistoryRecord(userName: string, url: string): (h: HistoryEntry)
    ensures h.sourceImage == url && h.resultUrl == url && h.userName == userName
    ensures h.modelUsed == "standard" && h.status == "completed"
  {
    HistoryEntry(userName, url, url, HistoryModel, HistoryStatus)
  }

  /** `handleSubmit` after the race: the settled URL becomes the result and
      the wizard moves to RESULT whatever step it is on; the history record
      for that URL is then being written, and processing is not over yet. */
  function FinishSubmit(s: Session, o: UploadOutcome): (r: Session)
    requires s.submitting.Some?
    ensures var job := s.submitting.value;
      && r.step == Result && r.submitting.None? && r.isProcessing == s.isProcessing
      && (o.RemoteOk? ==> r.result == Some(o.fileUrl) && r.uploadError == s.uploadError)
      && (!o.RemoteOk? ==> r.result == Some(job.image) && r.uploadError == Some(UploadFailedMessage))
      && r.recording == Some(HistoryRecord(job.userName, r.result.value))
    ensures r.history == s.history && r.capturedImage == s.capturedImage && r.userName == s.userName
    ensures r.emailing == s.emailing
  {
    var job := s.submitting.value;
    var out := Settle(job.image, o);
    var s' := GoTo(s.(result := Some(out.url), uploadError := if out.error.Some? then out.error else s.uploadError), Result);
    s'.(submitting := None, recording := Some(HistoryRecord(job.userName, out.url)))
  }

  /** The history write settles: a stored record is appended to the history;
      a rejected write is only logged, so it changes neither the step nor the
      result. Either way the submit is over and processing ends. */
  function FinishHistory(s: Session, saved: bool): (r: Session)
    requires s.recording.Some?
    ensures !r.isProcessing && r.recording.None?
    ensures saved ==> r.history == s.history + [s.recording.value]
    ensures !saved ==> r.history == s.history
    ensures r.step == s.step && r.result == s.result && r.uploadError == s.uploadError && r.camera == s.camera
  {
    s.(history := if saved then s.history + [s.recording.value] else s.history,
       recording := None, isProcessing := false)
  }

  /** `handleStartOver`: tracks are stopped, the captured image, result and
      name are cleared and the wizard is back at NAME; the email address and
      upload error are kept. */
  function HandleStartOver(s: Session): (r: Session)
    ensures r.step == Name && r.capturedImage.None? && r.result.None? && r.userName == ""
    ensures !r.camera.refLive && Camera.Live(r.camera) == s.camera.leaked
    ensures r.email == s.email && r.uploadError == s.uploadError && r.history == s.history
    ensures r == s.(step := Name, camera := r.camera, capturedImage := None, result := None, userName := "")
  {
    GoTo(s.(camera := Camera.StopRef(s.camera), capturedImage := None, result := None, userName := ""), Name)
  }

  /** EMAIL's Send Email button is enabled: an address is entered and
      nothing is being processed. */
  predicate CanSendEmail(s: Session) {
    s.step == Email && s.email != "" && !s.isProcessing
  }

  /** `handleSendEmail` up to the call: a no-op unless both the address and
      the result are non-empty; otherwise sending starts with the result as
      the link. */
  function BeginSendEmail(s: Session): (r: Session)
    ensures !(s.email != "" && Truthy(s.result)) ==> r == s
    ensures s.email != "" && Truthy(s.result) ==>
      r.isProcessing && r.emailError.None? && r.step == s.step &&
      r.emailing == Some(EmailJob(s.email, EmailSubject, s.result.value))
  {
    if s.email == "" || !Truthy(s.result) then s
    else s.(isProcessing := true, emailError := None,
            emailing := Some(EmailJob(s.email, EmailSubject, s.result.value)))
  }

  /** The send settles: on success the confirmation shows and a return timer
      is scheduled; on failure the error shows; the step is unchanged either
      way and processing ends. */
  function FinishSendEmail(s: Session, delivered: bool): (r: Session)
    requires s.emailing.Some?
    ensures r.step == s.step && !r.isProcessing && r.emailing.None?
    ensures delivered ==> r.emailSent && r.returnTimers == s.returnTimers + 1 && r.emailError == s.emailError
    ensures !delivered ==> r.emailError == Some(EmailFailedMessage) && r.emailSent == s.emailSent
    ensures r == s.(isProcessing := false, emailing := None, emailSent := r.emailSent,
                    returnTimers := r.returnTimers, emailError := r.emailError)
  {
    var s' := s.(isProcessing := false, emailing := None);
    if delivered then s'.(emailSent := true, returnTimers := s.returnTimers + 1)
    else s'.(emailError := Some(EmailFailedMessage))
  }

  /** The 3 s timer after a sent email: back to RESULT, confirmation hidden. */
  function EmailReturn(s: Session): (r: Session)
    requires s.returnTimers > 0
    ensures r.step == Result && !r.emailSent && r.returnTimers == s.returnTimers - 1
    ensures r.result == s.result && r.email == s.email
    ensures r == s.(step := Result, camera := r.camera, emailSent := false, returnTimers := s.returnTimers - 1)
  {
    GoTo(s.(emailSent := false, returnTimers := s.returnTimers - 1), Result)
  }

  /** One event, as the component handles it, except that a granted stream
      gets the guard of `StreamArrives`; `NextAsWritten` is the code as
      written. A control that is disabled, or sits on a panel other than the
      current step (out of a pointer's reach), does nothing, and so does a
      timer or promise event with nothing pending. */
  function Next(s: Session, e: Event): Session {
    match e
    case EnterName(name) => if s.step == Name then s.(userName := name) else s
    case ContinueFromName => if s.step == Name then LeaveName(s) else s
    case CameraTimerFires(supported) => if s.camera.startArmed then StartCamera(s, supported) else s
    case CameraGranted => if s.camera.requests > 0 then StreamArrives(s) else s
    case CameraDenied(message) => if s.camera.requests > 0 then StreamRefused(s, message) else s
    case VideoPlaying => if s.camera.refLive then s.(isReady := true) else s
    case VideoPlayFailed => if s.camera.refLive then s.(cameraError := Some(Camera.PlayFailedMessage)) else s
    case TakePhoto => if CanTakePhoto(s) then CapturePhoto(s) else s
    case CountdownTick =>
      if s.shutter.Counting? && Shutter.Valid(s.shutter) then s.(shutter := Shutter.Tick(s.shutter)) else s
    case GrabFrame(frame) => if s.shutter.Settling? then GrabStill(s, frame) else s
    case Retake => if s.step == Review then RetakePhoto(s) else s
    case Submit => if CanSubmit(s) then BeginSubmit(s) else s
    case SubmitSettles(outcome) => if s.submitting.Some? then FinishSubmit(s, outcome) else s
    case HistorySettles(saved) => if s.recording.Some? then FinishHistory(s, saved) else s
    case StartOver => if s.step == Result then HandleStartOver(s) else s
    case OpenEmail => if s.step == Result then GoTo(s, Email) else s
    case CloseEmail => if s.step == Email then GoTo(s, Result) else s
    case EnterEmail(address) => if s.step == Email then s.(email := address) else s
    case SendEmail => if CanSendEmail(s) then BeginSendEmail(s) else s
    case EmailSettles(delivered) => if s.emailing.Some? then FinishSendEmail(s, delivered) else s
    case EmailReturnTimer => if s.returnTimers > 0 then EmailReturn(s) else s
  }

  /** `Next`, except that a granted stream is handled exactly as
      `startCamera` does, with no check of the current step. */
  function NextAsWritten(s: Session, e: Event): Session {
    if e.CameraGranted? && s.camera.requests > 0 then StreamArrivesAsWritten(s) else Next(s, e)
  }

  /** A sequence of events, in order. */
  function Run(s: Session, es: seq<Event>): Session
    decreases |es|
  {
    if es == [] then s else Run(Next(s, es[0]), es[1..])
  }

  /** A sequence of events, in order, with the grant as written. */
  function RunAsWritten(s: Session, es: seq<Event>): Session
    decreases |es|
  {
    if es == [] then s else RunAsWritten(NextAsWritten(s, es[0]), es[1..])
  }
}
