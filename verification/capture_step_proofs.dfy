/** Properties of the capture page: the camera is never live after the page
    is left (with the guarded stream handler, and not as written), only a
    live grab writes the store, Continue is the only way out and stops the
    stream first, and a press on a ready camera counts 3, 2, 1, 0 and then
    stores the grabbed frame. */
module CaptureStepProofs {
  import opened Common
  import Camera
  import Shutter
  import Router
  import opened Storage
  import opened CaptureStepPage

  /** At most one request is ever sent (the start timer fires once per
      mount), no stream is ever out of reach, and after unmount nothing is
      live or pending to start. */
  predicate CameraSafe(p: CaptureStep) {
    var c := p.camera;
    && c.leaked == 0
    && c.requests <= 1
    && (c.startArmed ==> p.mounted && c.requests == 0 && !c.refLive)
    && (c.requests > 0 ==> !c.refLive)
    && (!p.mounted ==> !c.refLive)
  }

  /** Every countdown run shows a value between 1 and 3 while counting. */
  predicate RunsValid(p: CaptureStep) {
    forall i :: 0 <= i < |p.runs| ==> Shutter.Valid(p.runs[i])
  }

  predicate Inv(p: CaptureStep) {
    CameraSafe(p) && RunsValid(p)
  }

  lemma MountInv()
    ensures Inv(Mount())
  {
  }

  /** With the guarded stream handler, every event keeps the invariant. */
  lemma NextInv(p: CaptureStep, st: Store, e: Event)
    requires Inv(p)
    ensures Inv(Next(p, st, e).state)
  {
    var r := Next(p, st, e).state;
    match e
    case CountdownTick(i) =>
      if i < |p.runs| && p.runs[i].Counting? && Shutter.Valid(p.runs[i]) {
        assert forall j :: 0 <= j < |r.runs| ==> r.runs[j] == Shutter.Tick(p.runs[i]) || r.runs[j] == p.runs[j];
      }
    case GrabFrame(i, f) =>
      if i < |p.runs| && p.runs[i].Settling? {
        assert forall j :: 0 <= j < |r.runs| ==> r.runs[j].Idle? || r.runs[j] == p.runs[j];
      }
    case CapturePhoto =>
      if CanCapture(p) && !Truthy(p.cameraError) {
        assert forall j :: 0 <= j < |r.runs| ==> j == |p.runs| || r.runs[j] == p.runs[j];
      }
    case _ =>
  }

  lemma {:induction false} RunInv(p: CaptureStep, st: Store, es: seq<Event>)
    requires Inv(p)
    ensures Inv(Run(p, st, es).state)
    decreases |es|
  {
    if es != [] {
      var o := Next(p, st, es[0]);
      NextInv(p, st, es[0]);
      RunInv(o.state, o.store, es[1..]);
    }
  }

  /** With the guarded stream handler, whatever happens after the page is
      mounted, at most one stream is live, and none once the page has been
      left. */
  lemma ReachableSafety(st: Store, es: seq<Event>)
    ensures var p := Run(Mount(), st, es).state;
      Camera.Live(p.camera) <= 1 && (!p.mounted ==> Camera.Live(p.camera) == 0)
  {
    MountInv();
    RunInv(Mount(), st, es);
  }

  /** What the code as written still keeps: no stream is ever out of reach
      and at most one request is sent, so at most one stream runs; but a
      stream granted after unmount is held by a page that is gone. */
  predicate Bookkeeping(p: CaptureStep) {
    var c := p.camera;
    && c.leaked == 0
    && c.requests <= 1
    && (c.startArmed ==> p.mounted && c.requests == 0 && !c.refLive)
    && (c.requests > 0 ==> !c.refLive)
    && RunsValid(p)
  }

  /** Every event as written keeps the bookkeeping invariant. */
  lemma NextAsWrittenBookkeeping(p: CaptureStep, st: Store, e: Event)
    requires Bookkeeping(p)
    ensures Bookkeeping(NextAsWritten(p, st, e).state)
  {
    var r := NextAsWritten(p, st, e).state;
    match e
    case CameraGranted =>
      if p.camera.requests > 0 {
        assert r.camera == Camera.Granted(p.camera);
      }
    case CountdownTick(i) =>
      if i < |p.runs| && p.runs[i].Counting? && Shutter.Valid(p.runs[i]) {
        assert forall j :: 0 <= j < |r.runs| ==> r.runs[j] == Shutter.Tick(p.runs[i]) || r.runs[j] == p.runs[j];
      }
    case GrabFrame(i, f) =>
      if i < |p.runs| && p.runs[i].Settling? {
        assert forall j :: 0 <= j < |r.runs| ==> r.runs[j].Idle? || r.runs[j] == p.runs[j];
      }
    case CapturePhoto =>
      if CanCapture(p) && !Truthy(p.cameraError) {
        assert forall j :: 0 <= j < |r.runs| ==> j == |p.runs| || r.runs[j] == p.runs[j];
      }
    case _ =>
  }

  lemma {:induction false} RunAsWrittenBookkeeping(p: CaptureStep, st: Store, es: seq<Event>)
    requires Bookkeeping(p)
    ensures Bookkeeping(RunAsWritten(p, st, es).state)
    decreases |es|
  {
    if es != [] {
      var o := NextAsWritten(p, st, es[0]);
      NextAsWrittenBookkeeping(p, st, es[0]);
      RunAsWrittenBookkeeping(o.state, o.store, es[1..]);
    }
  }

  /** As written, whatever happens after mount at most one stream runs, and
      every countdown shows a value between 1 and 3. */
  lemma AsWrittenAtMostOneStream(st: Store, es: seq<Event>)
    ensures var p := RunAsWritten(Mount(), st, es).state;
      Camera.Live(p.camera) <= 1 && RunsValid(p)
  {
    RunAsWrittenBookkeeping(Mount(), st, es);
  }

  /** The page is left while the stream request is still open. */
  const EarlyLeave: seq<Event> := [CameraTimerFires(true), Unmount, CameraGranted]

  /** As written, the stream granted after unmount is stored and never
      stopped: the left page holds a live camera. */
  lemma AsWrittenLeaksAfterUnmount(st: Store)
    ensures var p := RunAsWritten(Mount(), st, EarlyLeave).state;
      !p.mounted && Camera.Live(p.camera) == 1
  {
    var p0 := Mount();
    var p1 := NextAsWritten(p0, st, EarlyLeave[0]).state;
    assert p1 == p0.(camera := Camera.Camera(false, 1, false, 0));
    var p2 := NextAsWritten(p1, st, EarlyLeave[1]).state;
    assert p2 == p1.(mounted := false);
    var p3 := NextAsWritten(p2, st, EarlyLeave[2]).state;
    assert p3 == p2.(camera := Camera.Camera(false, 0, true, 0));
    assert RunAsWritten(p2, st, EarlyLeave[2..]) == RunAsWritten(p3, st, []);
    assert RunAsWritten(p1, st, EarlyLeave[1..]) == RunAsWritten(p2, st, EarlyLeave[2..]);
  }

  /** With the guard, the same events leave nothing live. */
  lemma GuardedStopsLateStream(st: Store)
    ensures var p := Run(Mount(), st, EarlyLeave).state;
      !p.mounted && Camera.Live(p.camera) == 0
  {
    ReachableSafety(st, EarlyLeave);
    var p0 := Mount();
    var p1 := Next(p0, st, EarlyLeave[0]).state;
    var p2 := Next(p1, st, EarlyLeave[1]).state;
    assert !p2.mounted;
    assert Run(p0, st, EarlyLeave) == Run(p2, st, EarlyLeave[2..]);
  }

  /** The store changes only through a live grab, which writes the grabbed
      frame under the picture key and shows the same frame on the page. */
  lemma OnlyLiveGrabWritesStore(p: CaptureStep, st: Store, e: Event)
    ensures var o := Next(p, st, e);
      o.store == st ||
      (e.GrabFrame? && e.run < |p.runs| && p.runs[e.run].Settling? && LiveGrab(p, e.run, e.frame) &&
       o.store == Put(st, CapturedImageKey, e.frame.url) && o.state.capturedImage == Some(e.frame.url))
  {
  }

  /** Continue, when shown, is the only event that leaves the page; it goes
      to the review page with the stream already stopped. */
  lemma OnlyContinueNavigates(p: CaptureStep, st: Store, e: Event)
    ensures var o := Next(p, st, e);
      (o.goTo.Some? <==> e.Continue? && CanContinue(p)) &&
      (o.goTo.Some? ==> o.goTo == Some(Router.ReviewStep) && !o.state.camera.refLive)
  {
  }

  /** The Capture Photo button: hidden or disabled it does nothing; with a
      camera error it takes the simulated picture at once and starts no
      countdown; otherwise it starts a new run from 3, also while another
      run is still counting. */
  lemma CaptureButton(p: CaptureStep, st: Store)
    ensures var o := Next(p, st, CapturePhoto);
      o.store == st && o.goTo.None? &&
      (!CanCapture(p) ==> o.state == p) &&
      (CanCapture(p) && Truthy(p.cameraError) ==>
         o.state.capturedImage == Some(Shutter.SimulatedImage) && o.state.runs == p.runs) &&
      (CanCapture(p) && !Truthy(p.cameraError) ==>
         o.state.runs == p.runs + [Shutter.Counting(3, true)] && o.state.countdown == Some(3))
  {
  }

  /** A press on a ready camera: the display shows 3 at the press and 2, 1,
      0 on the run's three ticks, after which the run is due to grab; a live
      frame then becomes the picture on the page and in the store, and the
      countdown disappears. */
  lemma PressToPicture(p: CaptureStep, st: Store, url: string)
    requires Inv(p) && CanCapture(p) && !Truthy(p.cameraError)
    ensures
      var i := |p.runs|;
      var p1 := Next(p, st, CapturePhoto).state;
      var p2 := Next(p1, st, CountdownTick(i)).state;
      var p3 := Next(p2, st, CountdownTick(i)).state;
      var p4 := Next(p3, st, CountdownTick(i)).state;
      var o := Next(p4, st, GrabFrame(i, Shutter.LiveFrame(url)));
      p1.countdown == Some(3) && p2.countdown == Some(2) && p3.countdown == Some(1) &&
      p4.countdown == Some(0) && p4.runs[i] == Shutter.Settling(true) &&
      o.state.capturedImage == Some(url) && o.state.countdown.None? &&
      o.store == Put(st, CapturedImageKey, url) && o.goTo.None?
  {
    var i := |p.runs|;
    var p1 := Next(p, st, CapturePhoto).state;
    assert p1.runs[i] == Shutter.Counting(3, true);
    var p2 := Next(p1, st, CountdownTick(i)).state;
    assert p2.runs[i] == Shutter.Counting(2, true);
    var p3 := Next(p2, st, CountdownTick(i)).state;
    assert p3.runs[i] == Shutter.Counting(1, true);
    var p4 := Next(p3, st, CountdownTick(i)).state;
    assert p4.runs[i] == Shutter.Settling(true);
  }
}
