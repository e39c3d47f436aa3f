/** Properties of the single-page wizard that relate several events: the
    invariants every event preserves, what the guards allow, and the camera
    leak in the stream handler as written. */
module FaceCaptureProofs {
  import opened Common
  import opened Text
  import Camera
  import Shutter
  import opened FaceCapturePage

  /** No stream is live outside CAPTURE, at most the one `streamRef` holds is
      live inside it, and the start timer is pending only in CAPTURE. */
  predicate CameraSafe(s: Session) {
    && s.camera.leaked == 0
    && (s.camera.refLive ==> s.step == Capture)
    && (s.camera.startArmed ==> s.step == Capture)
  }

  /** `isProcessing` is set exactly while one call is in flight: a submit's
      upload race, the history write that follows it, or an email send,
      never two of them; a submit in flight has cleared the upload error and
      an email in flight has cleared the email error. */
  predicate BusyConsistent(s: Session) {
    && (s.isProcessing <==> (s.submitting.Some? || s.recording.Some? || s.emailing.Some?))
    && !(s.submitting.Some? && s.recording.Some?)
    && !(s.submitting.Some? && s.emailing.Some?)
    && !(s.recording.Some? && s.emailing.Some?)
    && (s.submitting.Some? ==> s.uploadError.None?)
    && (s.emailing.Some? ==> s.emailError.None?)
  }

  predicate Inv(s: Session) {
    CameraSafe(s) && BusyConsistent(s) && Shutter.Valid(s.shutter)
  }

  lemma InitialInv()
    ensures Inv(Initial)
  {
  }

  /** Every event preserves the invariant. */
  lemma NextInv(s: Session, e: Event)
    requires Inv(s)
    ensures Inv(Next(s, e))
  {
    if e.CameraTimerFires? || e.CameraGranted? || e.CameraDenied? || e.VideoPlaying? || e.VideoPlayFailed? {
      CameraEventInv(s, e);
    } else if e.TakePhoto? || e.CountdownTick? || e.GrabFrame? {
      ShutterEventInv(s, e);
    } else if e.Submit? || e.SubmitSettles? || e.HistorySettles? || e.SendEmail? || e.EmailSettles? || e.EmailReturnTimer? {
      JobEventInv(s, e);
    } else {
      NavigationEventInv(s, e);
    }
  }

  lemma CameraEventInv(s: Session, e: Event)
    requires Inv(s)
    requires e.CameraTimerFires? || e.CameraGranted? || e.CameraDenied? || e.VideoPlaying? || e.VideoPlayFailed?
    ensures Inv(Next(s, e))
  {
    if e.CameraGranted? {
      GrantInv(s);
    } else if e.CameraTimerFires? {
      CameraTimerInv(s, e.supported);
    } else {
      StreamEventInv(s, e);
    }
  }

  lemma GrantInv(s: Session)
    requires Inv(s)
    ensures Inv(Next(s, CameraGranted))
  {
    if s.camera.requests > 0 {
      var r := StreamArrives(s);
      assert r.camera == Camera.GrantedGuarded(s.camera, s.step == Capture);
    }
  }

  lemma CameraTimerInv(s: Session, supported: bool)
    requires Inv(s)
    ensures Inv(Next(s, CameraTimerFires(supported)))
  {
  }

  lemma StreamEventInv(s: Session, e: Event)
    requires Inv(s)
    requires e.CameraDenied? || e.VideoPlaying? || e.VideoPlayFailed?
    ensures Inv(Next(s, e))
  {
  }

  lemma ShutterEventInv(s: Session, e: Event)
    requires Inv(s)
    requires e.TakePhoto? || e.CountdownTick? || e.GrabFrame?
    ensures Inv(Next(s, e))
  {
    if e.TakePhoto? {
      TakePhotoInv(s);
    } else if e.CountdownTick? {
      CountdownTickInv(s);
    } else {
      GrabFrameInv(s, e.frame);
    }
  }

  lemma TakePhotoInv(s: Session)
    requires Inv(s)
    ensures Inv(Next(s, TakePhoto))
  {
  }

  lemma CountdownTickInv(s: Session)
    requires Inv(s)
    ensures Inv(Next(s, CountdownTick))
  {
  }

  lemma GrabFrameInv(s: Session, f: Shutter.Frame)
    requires Inv(s)
    ensures Inv(Next(s, GrabFrame(f)))
  {
    if s.shutter.Settling? {
      var r := GrabStill(s, f);
      if s.shutter.readyAtClick && f.LiveFrame? {
        assert r == GoTo(s.(capturedImage := Some(f.url), shutter := Shutter.Idle), Review);
      }
    }
  }

  lemma JobEventInv(s: Session, e: Event)
    requires Inv(s)
    requires e.Submit? || e.SubmitSettles? || e.HistorySettles? || e.SendEmail? || e.EmailSettles? || e.EmailReturnTimer?
    ensures Inv(Next(s, e))
  {
  }

  lemma NavigationEventInv(s: Session, e: Event)
    requires Inv(s)
    requires e.EnterName? || e.ContinueFromName? || e.Retake? || e.StartOver? || e.OpenEmail? || e.CloseEmail? || e.EnterEmail?
    ensures Inv(Next(s, e))
  {
  }

  /** The invariant holds after any sequence of events. */
  lemma {:induction false} RunInv(s: Session, es: seq<Event>)
    requires Inv(s)
    ensures Inv(Run(s, es))
    decreases |es|
  {
    if es != [] {
      NextInv(s, es[0]);
      RunInv(Next(s, es[0]), es[1..]);
    }
  }

  /** Whatever happens from the first render on (with the guarded grant), at
      most one stream is live, none outside CAPTURE, and `isProcessing` is
      set exactly while the upload race, the history write after it, or an
      email send is pending. */
  lemma ReachableSafety(es: seq<Event>)
    ensures var t := Run(Initial, es);
      && Camera.Live(t.camera) <= 1
      && (t.step != Capture ==> Camera.Live(t.camera) == 0)
      && (t.isProcessing <==> (t.submitting.Some? || t.recording.Some? || t.emailing.Some?))
  {
    InitialInv();
    RunInv(Initial, es);
  }

  /** For a pointer user, the only way from NAME to CAPTURE is NAME's
      Continue with a name that is not all white space. */
  lemma LeaveNameOnlyWithName(s: Session, e: Event)
    requires s.step == Name
    ensures Next(s, e).step == Capture <==> e == ContinueFromName && !AllSpace(s.userName)
  {
  }

  /** For a pointer user, Take Photo changes the session only on CAPTURE
      with the camera ready and no countdown running; with a camera error
      it yields the simulated picture and starts no countdown. */
  lemma TakePhotoGuard(s: Session)
    ensures Next(s, TakePhoto) != s ==> s.step == Capture && s.isReady && s.Countdown().None?
    ensures CanTakePhoto(s) && Truthy(s.cameraError) ==>
      Next(s, TakePhoto).capturedImage == Some(Shutter.SimulatedImage) && Next(s, TakePhoto).Countdown().None?
  {
  }

  /** From a press of Take Photo with the camera working, three ticks show
      2, 1 and 0 and leave exactly the one grab pending; the grab then clears
      the countdown, whatever it finds. */
  lemma PhotoSequence(s: Session, f: Shutter.Frame)
    requires CanTakePhoto(s) && !Truthy(s.cameraError)
    ensures var s0 := Next(s, TakePhoto);
      var s1 := Next(s0, CountdownTick);
      var s2 := Next(s1, CountdownTick);
      var s3 := Next(s2, CountdownTick);
      && s0.Countdown() == Some(3) && s1.Countdown() == Some(2)
      && s2.Countdown() == Some(1) && s3.Countdown() == Some(0)
      && s3.shutter == Shutter.Settling(true)
      && Next(s3, CountdownTick) == s3
      && Next(s3, GrabFrame(f)).Countdown().None?
  {
  }

  /** The only event that takes CAPTURE to REVIEW is a grab that found a
      live frame after a press made while the camera was ready, and that
      frame is then the captured image. */
  lemma OnlyLiveFrameReachesReview(s: Session, e: Event)
    requires s.step == Capture && Next(s, e).step == Review
    ensures e.GrabFrame? && e.frame.LiveFrame? && s.shutter.Settling? && s.shutter.readyAtClick
    ensures Next(s, e).capturedImage == Some(e.frame.url)
  {
  }

  /** Submit does nothing without a captured image, and while processing. */
  lemma SubmitNeedsImage(s: Session)
    requires !Truthy(s.capturedImage) || s.isProcessing
    ensures Next(s, Submit) == s
  {
  }

  /** Send Email does nothing unless both the address and the result are
      non-empty (or while processing). */
  lemma SendEmailNeedsAddressAndResult(s: Session)
    requires s.email == "" || !Truthy(s.result) || s.isProcessing
    ensures Next(s, SendEmail) == s
  {
  }

  /** A result that settles after Start Over is still applied: the submit
      carries no session generation, so the reset session is moved to RESULT
      with the old submit's URL. */
  lemma LateResultAfterStartOver(s: Session, o: UploadOutcome)
    requires s.step == Result && s.submitting.Some?
    ensures var t := Next(Next(s, StartOver), SubmitSettles(o));
      t.step == Result && t.userName == "" && t.result.Some? && t.capturedImage.None?
  {
  }

  /** Once the race has settled the wizard shows RESULT, but it stays busy
      until the history write settles: Send Email does nothing in that
      window, and the write's end is what clears `isProcessing`. */
  lemma HistoryWindow(s: Session, o: UploadOutcome, saved: bool)
    requires Inv(s) && s.submitting.Some?
    ensures var t := Next(s, SubmitSettles(o));
      && t.step == Result && t.isProcessing && t.recording.Some?
      && Next(Next(t, OpenEmail), SendEmail) == Next(t, OpenEmail)
      && !Next(t, HistorySettles(saved)).isProcessing
      && Next(t, HistorySettles(saved)).step == Result
  {
  }

  /** The bookkeeping half of the invariant, which does not depend on the
      camera guard. */
  predicate Bookkeeping(s: Session) {
    BusyConsistent(s) && Shutter.Valid(s.shutter)
  }

  /** The code as written keeps the bookkeeping invariant on every event:
      only the camera part needs the guard. */
  lemma NextAsWrittenBookkeeping(s: Session, e: Event)
    requires Bookkeeping(s)
    ensures Bookkeeping(NextAsWritten(s, e))
  {
    if !(e.CameraGranted? && s.camera.requests > 0) {
      if e.TakePhoto? || e.CountdownTick? || e.GrabFrame? || e.Retake? || e.StartOver? {
        ShutterBookkeeping(s, e);
      } else if e.Submit? || e.SubmitSettles? || e.HistorySettles? || e.SendEmail? || e.EmailSettles? {
        JobBookkeeping(s, e);
      } else {
        OtherBookkeeping(s, e);
      }
    }
  }

  lemma ShutterBookkeeping(s: Session, e: Event)
    requires Bookkeeping(s)
    requires e.TakePhoto? || e.CountdownTick? || e.GrabFrame? || e.Retake? || e.StartOver?
    ensures Bookkeeping(Next(s, e))
  {
    if e.GrabFrame? && s.shutter.Settling? {
      var r := GrabStill(s, e.frame);
      if s.shutter.readyAtClick && e.frame.LiveFrame? {
        assert r == GoTo(s.(capturedImage := Some(e.frame.url), shutter := Shutter.Idle), Review);
      }
    }
  }

  lemma JobBookkeeping(s: Session, e: Event)
    requires Bookkeeping(s)
    requires e.Submit? || e.SubmitSettles? || e.HistorySettles? || e.SendEmail? || e.EmailSettles?
    ensures Bookkeeping(Next(s, e))
  {
  }

  lemma OtherBookkeeping(s: Session, e: Event)
    requires Bookkeeping(s)
    requires !(e.TakePhoto? || e.CountdownTick? || e.GrabFrame? || e.Retake? || e.StartOver?)
    requires !(e.Submit? || e.SubmitSettles? || e.HistorySettles? || e.SendEmail? || e.EmailSettles?)
    ensures Bookkeeping(Next(s, e))
  {
  }

  lemma {:induction false} RunAsWrittenBookkeeping(s: Session, es: seq<Event>)
    requires Bookkeeping(s)
    ensures Bookkeeping(RunAsWritten(s, es))
    decreases |es|
  {
    if es != [] {
      NextAsWrittenBookkeeping(s, es[0]);
      RunAsWrittenBookkeeping(NextAsWritten(s, es[0]), es[1..]);
    }
  }

  /** As written, `isProcessing` still tracks the pending call from the
      first render on, and a countdown never shows more than 3. */
  lemma AsWrittenBusyConsistent(es: seq<Event>)
    ensures var t := RunAsWritten(Initial, es);
      && (t.isProcessing <==> (t.submitting.Some? || t.recording.Some? || t.emailing.Some?))
      && (t.Countdown().Some? ==> t.Countdown().value <= Shutter.CountdownFrom)
  {
    RunAsWrittenBookkeeping(Initial, es);
  }

  /** From the first render to the countdown: the user "Ada" continues,
      the camera starts and plays, and Take Photo is pressed. */
  const ReadyTrace: seq<Event> := [EnterName("Ada"), ContinueFromName, CameraTimerFires(true), CameraGranted, VideoPlaying, TakePhoto]

  /** The session at the end of `ReadyTrace`. */
  const Aiming := Initial.(
    userName := "Ada", step := Capture, camera := Camera.Camera(false, 0, true, 0), isReady := true,
    shutter := Shutter.Counting(3, true))

  /** The countdown runs out, a live frame is grabbed and Continue is pressed. */
  const ShotTrace: seq<Event> := [CountdownTick, CountdownTick, CountdownTick, GrabFrame(Shutter.LiveFrame("blob:1")), Submit]

  /** The session at the end of `ShotTrace`: REVIEW with a submit in flight. */
  const InFlight := Initial.(
    userName := "Ada", step := Review, capturedImage := Some("blob:1"), isReady := true,
    isProcessing := true, submitting := Some(SubmitJob("blob:1", "Ada")))

  /** The user retakes while the submit is in flight, the camera start timer
      fires, the submit times out (moving to RESULT and running the cleanup
      while the stream request is still open), and only then is the stream
      granted. */
  const LeakTail: seq<Event> := [Retake, CameraTimerFires(true), SubmitSettles(TimedOut), CameraGranted]

  /** A run that visits `states` one event at a time ends in the last one. */
  lemma {:induction false} RunFollows(states: seq<Session>, es: seq<Event>)
    requires |states| == |es| + 1
    requires forall i :: 0 <= i < |es| ==> Next(states[i], es[i]) == states[i + 1]
    ensures Run(states[0], es) == states[|es|]
    decreases |es|
  {
    if es != [] {
      RunFollows(states[1..], es[1..]);
    }
  }

  lemma {:induction false} RunAsWrittenFollows(states: seq<Session>, es: seq<Event>)
    requires |states| == |es| + 1
    requires forall i :: 0 <= i < |es| ==> NextAsWritten(states[i], es[i]) == states[i + 1]
    ensures RunAsWritten(states[0], es) == states[|es|]
    decreases |es|
  {
    if es != [] {
      RunAsWrittenFollows(states[1..], es[1..]);
    }
  }

  lemma ReachAiming()
    ensures Run(Initial, ReadyTrace) == Aiming
  {
    var es := ReadyTrace;
    var s0 := Initial;
    assert !IsSpace("Ada"[0]);
    var s1 := Next(s0, es[0]);
    assert s1 == s0.(userName := "Ada");
    var s2 := Next(s1, es[1]);
    assert s2 == s1.(step := Capture, camera := Camera.Camera(true, 0, false, 0));
    var s3 := Next(s2, es[2]);
    assert s3 == s2.(camera := Camera.Camera(false, 1, false, 0));
    var s4 := Next(s3, es[3]);
    assert s4 == s3.(camera := Camera.Camera(false, 0, true, 0));
    var s5 := Next(s4, es[4]);
    assert s5 == s4.(isReady := true);
    var s6 := Next(s5, es[5]);
    assert s6 == s5.(shutter := Shutter.Counting(3, true));
    RunFollows([s0, s1, s2, s3, s4, s5, s6], es);
  }

  lemma AimingToInFlight()
    ensures Run(Aiming, ShotTrace) == InFlight
  {
    var es := ShotTrace;
    var s0 := Aiming;
    var s1 := Next(s0, es[0]);
    assert s1 == s0.(shutter := Shutter.Counting(2, true));
    var s2 := Next(s1, es[1]);
    assert s2 == s1.(shutter := Shutter.Counting(1, true));
    var s3 := Next(s2, es[2]);
    assert s3 == s2.(shutter := Shutter.Settling(true));
    var s4 := Next(s3, es[3]);
    assert s4 == s3.(shutter := Shutter.Idle, capturedImage := Some("blob:1"), step := Review, camera := Camera.Camera(false, 0, false, 0));
    var s5 := Next(s4, es[4]);
    assert s5 == s4.(isProcessing := true, submitting := Some(SubmitJob("blob:1", "Ada")));
    RunFollows([s0, s1, s2, s3, s4, s5], es);
  }

  lemma ReachAimingAsWritten()
    ensures RunAsWritten(Initial, ReadyTrace) == Aiming
  {
    var es := ReadyTrace;
    var s0 := Initial;
    assert !IsSpace("Ada"[0]);
    var s1 := NextAsWritten(s0, es[0]);
    assert s1 == s0.(userName := "Ada");
    var s2 := NextAsWritten(s1, es[1]);
    assert s2 == s1.(step := Capture, camera := Camera.Camera(true, 0, false, 0));
    var s3 := NextAsWritten(s2, es[2]);
    assert s3 == s2.(camera := Camera.Camera(false, 1, false, 0));
    var s4 := NextAsWritten(s3, es[3]);
    assert s4 == s3.(camera := Camera.Camera(false, 0, true, 0));
    var s5 := NextAsWritten(s4, es[4]);
    assert s5 == s4.(isReady := true);
    var s6 := NextAsWritten(s5, es[5]);
    assert s6 == s5.(shutter := Shutter.Counting(3, true));
    RunAsWrittenFollows([s0, s1, s2, s3, s4, s5, s6], es);
  }

  lemma AimingToInFlightAsWritten()
    ensures RunAsWritten(Aiming, ShotTrace) == InFlight
  {
    AimingToInFlight();
    RunsAgreeWithoutGrant(Aiming, ShotTrace);
  }

  /** Without a grant among the events, the code as written and the guarded
      machine run alike. */
  lemma {:induction false} RunsAgreeWithoutGrant(s: Session, es: seq<Event>)
    requires forall i :: 0 <= i < |es| ==> !es[i].CameraGranted?
    ensures RunAsWritten(s, es) == Run(s, es)
    decreases |es|
  {
    if es != [] {
      RunsAgreeWithoutGrant(Next(s, es[0]), es[1..]);
    }
  }

  /** Running two event sequences one after the other. */
  lemma {:induction false} RunAppend(s: Session, a: seq<Event>, b: seq<Event>)
    ensures Run(s, a + b) == Run(Run(s, a), b)
    decreases |a|
  {
    if a == [] {
      assert a + b == b;
    } else {
      assert (a + b)[0] == a[0] && (a + b)[1..] == a[1..] + b;
      RunAppend(Next(s, a[0]), a[1..], b);
    }
  }

  lemma {:induction false} RunAsWrittenAppend(s: Session, a: seq<Event>, b: seq<Event>)
    ensures RunAsWritten(s, a + b) == RunAsWritten(RunAsWritten(s, a), b)
    decreases |a|
  {
    if a == [] {
      assert a + b == b;
    } else {
      assert (a + b)[0] == a[0] && (a + b)[1..] == a[1..] + b;
      RunAsWrittenAppend(NextAsWritten(s, a[0]), a[1..], b);
    }
  }

  /** `LeakTail` from `InFlight`, as written: the stream granted last is
      stored although the wizard is on RESULT. */
  lemma LeakTailAsWritten()
    ensures var t := RunAsWritten(InFlight, LeakTail);
      t.step == Result && t.camera == Camera.Camera(false, 0, true, 0)
  {
    var es := LeakTail;
    var s0 := InFlight;
    var s1 := NextAsWritten(s0, es[0]);
    assert s1 == s0.(capturedImage := None, step := Capture, camera := Camera.Camera(true, 0, false, 0));
    var s2 := NextAsWritten(s1, es[1]);
    assert s2 == s1.(camera := Camera.Camera(false, 1, false, 0));
    var s3 := NextAsWritten(s2, es[2]);
    assert s3 == s2.(step := Result, result := Some("blob:1"), uploadError := Some(UploadFailedMessage),
                     submitting := None, recording := Some(HistoryRecord("Ada", "blob:1")));
    var s4 := NextAsWritten(s3, es[3]);
    assert s4 == s3.(camera := Camera.Camera(false, 0, true, 0));
    RunAsWrittenFollows([s0, s1, s2, s3, s4], es);
  }

  /** `LeakTail` from `InFlight`, guarded: the late stream is stopped. */
  lemma LeakTailGuarded()
    ensures var t := Run(InFlight, LeakTail);
      t.step == Result && t.camera == Camera.Camera(false, 0, false, 0)
  {
    var es := LeakTail;
    var s0 := InFlight;
    var s1 := Next(s0, es[0]);
    assert s1 == s0.(capturedImage := None, step := Capture, camera := Camera.Camera(true, 0, false, 0));
    var s2 := Next(s1, es[1]);
    assert s2 == s1.(camera := Camera.Camera(false, 1, false, 0));
    var s3 := Next(s2, es[2]);
    assert s3 == s2.(step := Result, result := Some("blob:1"), uploadError := Some(UploadFailedMessage),
                     submitting := None, recording := Some(HistoryRecord("Ada", "blob:1")));
    var s4 := Next(s3, es[3]);
    assert s4 == s3.(camera := Camera.Camera(false, 0, false, 0));
    RunFollows([s0, s1, s2, s3, s4], es);
  }

  /** The camera handling as written leaves a stream running on the RESULT
      step after `ReadyTrace`, `ShotTrace` and `LeakTail`. */
  lemma AsWrittenLeaksStream()
    ensures RunAsWritten(Initial, ReadyTrace + ShotTrace + LeakTail).step == Result
    ensures Camera.Live(RunAsWritten(Initial, ReadyTrace + ShotTrace + LeakTail).camera) == 1
  {
    ReachAimingAsWritten();
    AimingToInFlightAsWritten();
    RunAsWrittenAppend(Initial, ReadyTrace, ShotTrace);
    RunAsWrittenAppend(Initial, ReadyTrace + ShotTrace, LeakTail);
    LeakTailAsWritten();
  }

  /** With the guarded grant the same run ends on RESULT with no stream
      running: the late stream is stopped as soon as it arrives. */
  lemma GuardedDoesNotLeak()
    ensures Run(Initial, ReadyTrace + ShotTrace + LeakTail).step == Result
    ensures Camera.Live(Run(Initial, ReadyTrace + ShotTrace + LeakTail).camera) == 0
  {
    ReachAiming();
    AimingToInFlight();
    RunAppend(Initial, ReadyTrace, ShotTrace);
    RunAppend(Initial, ReadyTrace + ShotTrace, LeakTail);
    LeakTailGuarded();
  }
}
