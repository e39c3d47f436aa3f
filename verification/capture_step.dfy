/** The first page of the multi-page wizard (`CaptureStep.jsx`): the camera
    starts 500 ms after mount, Capture Photo runs the 3-2-1 countdown and one
    grab, a live grab is also written to the store for the review page, and
    Continue stops the camera and navigates to the review page.

    The Capture Photo button is not disabled while a countdown runs, so
    every press starts a countdown of its own: `runs` holds them all, and an
    event names the run it belongs to. A run's timers are never cleared by
    unmounting; after unmount its state updates are lost and the video
    element is gone, so its grab finds no video. */
module CaptureStepPage {
  import opened Common
  import Camera
  import Shutter
  import Router
  import opened Storage

  /** The page's state. `camera` stands for `streamRef` and the start timer;
      `countdown` is the displayed countdown (set by whichever run ticked
      last); `runs` are the countdowns started by the button. */
  datatype CaptureStep = CaptureStep(
    mounted: bool,
    camera: Camera.Camera,
    isReady: bool,
    cameraError: Option<string>,
    countdown: Option<nat>,
    runs: seq<Shutter.Shutter>,
    capturedImage: Option<string>)

  /** Everything that can happen on the page. */
  datatype Event =
    | CameraTimerFires(supported: bool)          // the 500 ms start timer; whether getUserMedia exists
    | CameraGranted                              // the getUserMedia request resolves
    | CameraDenied(message: string)              // the getUserMedia request rejects
    | VideoPlaying                               // metadata loaded and play() resolved
    | VideoPlayFailed                            // play() rejected
    | CapturePhoto                               // the Capture Photo button
    | CountdownTick(run: nat)                    // a run's one-second interval
    | GrabFrame(run: nat, frame: Shutter.Frame)  // a run's 100 ms grab timer
    | Continue                                   // the Continue button
    | Unmount                                    // the page is left

  /** The page as first rendered, with the camera start scheduled. */
  function Mount(): (p: CaptureStep)
    ensures p.mounted && p.camera.startArmed && Camera.Live(p.camera) == 0
    ensures p.capturedImage.None? && p.countdown.None? && p.runs == [] && !p.isReady
  {
    CaptureStep(true, Camera.Arm(Camera.Off), false, None, None, [], None)
  }

  /** The start timer fires: without `getUserMedia` the unsupported error is
      shown; otherwise a stream is requested. Unlike the single-page wizard,
      no earlier stream is stopped first. */
  function StartCamera(p: CaptureStep, supported: bool): (r: CaptureStep)
    requires p.camera.startArmed
    ensures !r.camera.startArmed
    ensures supported ==> r == p.(camera := Camera.Request(p.camera, false))
    ensures !supported ==> r.cameraError == Some(Camera.UnsupportedMessage) && r.camera.requests == p.camera.requests
  {
    if !supported then
      p.(camera := p.camera.(startArmed := false), cameraError := Some(Camera.UnsupportedMessage))
    else
      p.(camera := Camera.Request(p.camera, false))
  }

  /** The request resolves, as `startCamera` handles it: the stream is stored
      in `streamRef` whether or not the page is still mounted. */
  function StreamArrivesAsWritten(p: CaptureStep): (r: CaptureStep)
    requires p.camera.requests > 0
    ensures r.mounted == p.mounted && r.camera.refLive
    ensures Camera.Live(r.camera) == Camera.Live(p.camera) + 1
  {
    p.(camera := Camera.Granted(p.camera))
  }

  /** The request resolves, with the guard the page needs: after unmount the
      new stream is stopped at once. */
  function StreamArrives(p: CaptureStep): (r: CaptureStep)
    requires p.camera.requests > 0
    ensures r.mounted == p.mounted
    ensures p.mounted ==> r.camera.refLive && Camera.Live(r.camera) == p.camera.leaked + 1
    ensures !p.mounted ==> Camera.Live(r.camera) == Camera.Live(p.camera)
  {
    p.(camera := Camera.GrantedGuarded(p.camera, p.mounted))
  }

  /** The request rejects: its message (or the generic one) is shown. */
  function StreamRefused(p: CaptureStep, message: string): (r: CaptureStep)
    requires p.camera.requests > 0
    ensures Camera.Live(r.camera) == Camera.Live(p.camera)
    ensures p.mounted ==> Truthy(r.cameraError)
    ensures !p.mounted ==> r.cameraError == p.cameraError
  {
    var p' := p.(camera := Camera.Denied(p.camera));
    if p.mounted then p'.(cameraError := Some(Camera.DeniedMessage(message))) else p'
  }

  /** The Capture Photo button is shown (no picture yet) and enabled (the
      camera is ready or has failed). */
  predicate CanCapture(p: CaptureStep) {
    p.mounted && !Truthy(p.capturedImage) && (p.isReady || Truthy(p.cameraError))
  }

  /** `capturePhoto`: with a camera error the simulated picture is taken at
      once and no countdown starts; otherwise a new countdown run starts from
      3, beside any run still going. */
  function CapturePhotoHandler(p: CaptureStep): (r: CaptureStep)
    ensures Truthy(p.cameraError) ==>
      r == p.(capturedImage := Some(Shutter.SimulatedImage))
    ensures !Truthy(p.cameraError) ==>
      r == p.(runs := p.runs + [Shutter.Start(p.isReady)], countdown := Some(Shutter.CountdownFrom))
  {
    if Truthy(p.cameraError) then p.(capturedImage := Some(Shutter.SimulatedImage))
    else p.(runs := p.runs + [Shutter.Start(p.isReady)], countdown := Some(Shutter.CountdownFrom))
  }

  /** One tick of run `i`: the run counts down; the display follows while
      the page is mounted. */
  function TickRun(p: CaptureStep, i: nat): (r: CaptureStep)
    requires i < |p.runs| && p.runs[i].Counting? && Shutter.Valid(p.runs[i])
    ensures |r.runs| == |p.runs| && r.runs[i] == Shutter.Tick(p.runs[i])
    ensures forall j :: 0 <= j < |p.runs| && j != i ==> r.runs[j] == p.runs[j]
    ensures p.mounted ==> r.countdown == Some(p.runs[i].remaining - 1)
    ensures !p.mounted ==> r.countdown == p.countdown
    ensures r.capturedImage == p.capturedImage && r.camera == p.camera
  {
    var run := Shutter.Tick(p.runs[i]);
    var p' := p.(runs := p.runs[i := run]);
    if p.mounted then p'.(countdown := Shutter.Countdown(run)) else p'
  }

  /** The grab of run `i`, with its effect on the store. The video element is
      gone after unmount, so an unmounted page grabs no video. A live frame,
      when the camera was ready at the press, becomes the picture both in
      the page state and in the store; every other path keeps the simulated
      picture in the page state only. A refused store write lands in the
      same catch as a failed draw, so it is the frame `Throws`. The
      countdown is cleared on every path. */
  function GrabRun(p: CaptureStep, st: Store, i: nat, f: Shutter.Frame): (o: Outcome<CaptureStep>)
    requires i < |p.runs| && p.runs[i].Settling?
    ensures o.goTo.None? && o.state.camera == p.camera && o.state.mounted == p.mounted
    ensures |o.state.runs| == |p.runs| && o.state.runs[i].Idle?
    ensures forall j :: 0 <= j < |p.runs| && j != i ==> o.state.runs[j] == p.runs[j]
    ensures p.mounted ==> o.state.countdown.None?
    ensures LiveGrab(p, i, f) ==>
      o.state.capturedImage == Some(f.url) && o.store == Put(st, CapturedImageKey, f.url)
    ensures !LiveGrab(p, i, f) ==> o.store == st
    ensures !LiveGrab(p, i, f) && p.mounted ==> o.state.capturedImage == Some(Shutter.SimulatedImage)
    ensures !p.mounted ==> o.state.capturedImage == p.capturedImage && o.state.countdown == p.countdown
  {
    var seen := if p.mounted then f else Shutter.NoVideo;
    var g := Shutter.Grab(p.runs[i].readyAtClick, seen);
    var p' := p.(runs := p.runs[i := Shutter.Idle]);
    var p'' := if p.mounted then p'.(capturedImage := Some(g.image), countdown := None) else p';
    Outcome(p'', if g.fromCamera then Put(st, CapturedImageKey, g.image) else st, None)
  }

  /** The grab of run `i` finds a live frame, on a mounted page, for a press
      made while the camera was ready. */
  predicate LiveGrab(p: CaptureStep, i: nat, f: Shutter.Frame)
    requires i < |p.runs| && p.runs[i].Settling?
  {
    p.mounted && p.runs[i].readyAtClick && f.LiveFrame?
  }

  /** The Continue button is shown: a picture exists. */
  predicate CanContinue(p: CaptureStep) {
    p.mounted && Truthy(p.capturedImage)
  }

  /** `handleContinue`: the tracks of the stream are stopped, then the review
      page is opened. */
  function ContinueHandler(p: CaptureStep): (r: CaptureStep)
    ensures !r.camera.refLive && Camera.Live(r.camera) == p.camera.leaked
    ensures r == p.(camera := r.camera)
  {
    p.(camera := Camera.StopRef(p.camera))
  }

  /** The effect cleanup on unmount: the start timer is cleared and the
      stream's tracks are stopped; requests already sent are not cancelled. */
  function UnmountHandler(p: CaptureStep): (r: CaptureStep)
    ensures !r.mounted && !r.camera.startArmed && !r.camera.refLive
    ensures Camera.Live(r.camera) == p.camera.leaked && r.camera.requests == p.camera.requests
  {
    p.(mounted := false, camera := Camera.Teardown(p.camera))
  }

  /** One event with the guarded stream handler; events whose button is
      hidden or disabled, or whose timer or request is not pending, change
      nothing. */
  function Next(p: CaptureStep, st: Store, e: Event): Outcome<CaptureStep> {
    var stay := Outcome(p, st, None);
    match e
    case CameraTimerFires(supported) =>
      if p.camera.startArmed then Outcome(StartCamera(p, supported), st, None) else stay
    case CameraGranted =>
      if p.camera.requests > 0 then Outcome(StreamArrives(p), st, None) else stay
    case CameraDenied(message) =>
      if p.camera.requests > 0 then Outcome(StreamRefused(p, message), st, None) else stay
    case VideoPlaying =>
      if p.mounted && p.camera.refLive then Outcome(p.(isReady := true), st, None) else stay
    case VideoPlayFailed =>
      if p.mounted && p.camera.refLive then Outcome(p.(cameraError := Some(Camera.PlayFailedMessage)), st, None) else stay
    case CapturePhoto =>
      if CanCapture(p) then Outcome(CapturePhotoHandler(p), st, None) else stay
    case CountdownTick(i) =>
      if i < |p.runs| && p.runs[i].Counting? && Shutter.Valid(p.runs[i]) then Outcome(TickRun(p, i), st, None) else stay
    case GrabFrame(i, f) =>
      if i < |p.runs| && p.runs[i].Settling? then GrabRun(p, st, i, f) else stay
    case Continue =>
      if CanContinue(p) then Outcome(ContinueHandler(p), st, Some(Router.ReviewStep)) else stay
    case Unmount =>
      if p.mounted then Outcome(UnmountHandler(p), st, None) else stay
  }

  /** The same with the stream handler as written. */
  function NextAsWritten(p: CaptureStep, st: Store, e: Event): Outcome<CaptureStep> {
    if e.CameraGranted? && p.camera.requests > 0 then Outcome(StreamArrivesAsWritten(p), st, None)
    else Next(p, st, e)
  }

  /** A sequence of events from `p` and `st`, ignoring navigation (the
      enclosing router unmounts the page). */
  function Run(p: CaptureStep, st: Store, es: seq<Event>): Outcome<CaptureStep>
    decreases |es|
  {
    if es == [] then Outcome(p, st, None)
    else var o := Next(p, st, es[0]); Run(o.state, o.store, es[1..])
  }

  function RunAsWritten(p: CaptureStep, st: Store, es: seq<Event>): Outcome<CaptureStep>
    decreases |es|
  {
    if es == [] then Outcome(p, st, None)
    else var o := NextAsWritten(p, st, es[0]); RunAsWritten(o.state, o.store, es[1..])
  }
}
