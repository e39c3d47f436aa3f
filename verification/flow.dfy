/** How the three pages of the multi-page wizard fit together through the
    store: a live capture opens the review page on that picture, a
    simulated one sends the user back, Continue on the review page lets the
    processing page start, and Start Over sends both later pages back. */
module Flow {
  import opened Common
  import Camera
  import Shutter
  import Router
  import opened Storage
  import CaptureStepPage
  import CaptureStepProofs
  import ReviewStepPage
  import ProcessingStepPage

  /** A live grab on the capture page makes the review page, mounted next,
      stay and show the grabbed picture. */
  lemma LiveGrabOpensReview(p: CaptureStepPage.CaptureStep, st: Store, i: nat, url: string)
    requires i < |p.runs| && p.runs[i].Settling? && CaptureStepPage.LiveGrab(p, i, Shutter.LiveFrame(url))
    requires url != ""
    ensures var o := CaptureStepPage.Next(p, st, CaptureStepPage.GrabFrame(i, Shutter.LiveFrame(url)));
      var m := ReviewStepPage.Mount(o.store);
      m.goTo.None? && m.state.capturedImage == Some(url) && o.state.capturedImage == Some(url)
  {
  }

  /** A grab that is not live leaves the store as it was: if it held no
      picture, the review page sends the user back to the capture page,
      although the capture page shows the simulated picture and offers
      Continue. */
  lemma SimulatedPictureBouncesBack(p: CaptureStepPage.CaptureStep, st: Store, i: nat, f: Shutter.Frame)
    requires i < |p.runs| && p.runs[i].Settling? && !CaptureStepPage.LiveGrab(p, i, f)
    requires p.mounted && !Has(st, CapturedImageKey)
    ensures var o := CaptureStepPage.Next(p, st, CaptureStepPage.GrabFrame(i, f));
      CaptureStepPage.CanContinue(o.state) &&
      ReviewStepPage.Mount(o.store).goTo == Some(Router.CaptureStep)
  {
  }

  /** The same for the picture taken at once after a camera error. */
  lemma ErrorPictureBouncesBack(p: CaptureStepPage.CaptureStep, st: Store)
    requires CaptureStepPage.CanCapture(p) && Truthy(p.cameraError) && !Has(st, CapturedImageKey)
    ensures var o := CaptureStepPage.Next(p, st, CaptureStepPage.CapturePhoto);
      CaptureStepPage.CanContinue(o.state) && o.store == st &&
      ReviewStepPage.Mount(o.store).goTo == Some(Router.CaptureStep)
  {
  }

  /** With a picture in the store, Continue on the review page, whatever the
      clicks on model cards before it, makes the processing page start a
      pass instead of leaving. */
  lemma ReviewContinueStartsProcessing(st: Store, clicks: seq<nat>)
    requires Has(st, CapturedImageKey)
    requires forall k :: 0 <= k < |clicks| ==> clicks[k] < |ReviewStepPage.Models|
    ensures var r := ReviewStepPage.SelectAll(ReviewStepPage.Mount(st).state, clicks);
      var o := ReviewStepPage.Continue(r, st);
      var m := ProcessingStepPage.Mount(o.store);
      o.goTo == Some(Router.ProcessingStep) && m.goTo.None? &&
      m.state.status == ProcessingStepPage.Loading && m.state.ticking
  {
    ReviewStepPage.SelectionAlwaysOffered(st, clicks);
    var r := ReviewStepPage.SelectAll(ReviewStepPage.Mount(st).state, clicks);
    var o := ReviewStepPage.Continue(r, st);
    assert Get(o.store, CapturedImageKey) == Get(st, CapturedImageKey);
  }

  /** The processing page is opened from the review page exactly when the
      model write is accepted, and then it finds both keys and starts a
      pass; a refused write leaves the store as it was, so without an
      earlier model in it the processing page would send the user to the
      welcome page. */
  lemma ContinueNeedsStoredModel(r: ReviewStepPage.ReviewStep, st: Store, accepted: bool)
    requires Has(st, CapturedImageKey) && ReviewStepPage.Valid(r)
    ensures var o := ReviewStepPage.HandleContinue(r, st, accepted);
      (o.goTo == Some(Router.ProcessingStep) <==> accepted) &&
      (accepted ==> ProcessingStepPage.Mount(o.store).goTo.None?) &&
      (!accepted && !Has(st, SelectedModelKey) ==> ProcessingStepPage.Mount(o.store).goTo == Some(Router.Welcome))
  {
    var o := ReviewStepPage.HandleContinue(r, st, accepted);
    if accepted {
      var i :| 0 <= i < |ReviewStepPage.Models| && ReviewStepPage.Models[i].id == r.selectedModel;
      assert r.selectedModel != "" by {
        assert |ReviewStepPage.Models[i].id| == 6;
      }
      assert Get(o.store, CapturedImageKey) == Get(st, CapturedImageKey);
    }
  }

  /** After Start Over both later pages send the user away when mounted: the
      review page to the capture page, the processing page to the welcome
      page. */
  lemma StartOverSendsBack(s: ProcessingStepPage.Processing, st: Store)
    requires ProcessingStepPage.CanStartOver(s)
    ensures var o := ProcessingStepPage.Next(s, st, ProcessingStepPage.StartOverClicked);
      o.goTo == Some(Router.Welcome) &&
      ReviewStepPage.Mount(o.store).goTo == Some(Router.CaptureStep) &&
      ProcessingStepPage.Mount(o.store).goTo == Some(Router.Welcome)
  {
  }

  /** The whole happy path on the capture page: the camera starts and plays,
      one press counts down and grabs a live frame, and Continue leaves for
      the review page with the camera stopped and the picture in the store;
      the review page then shows it. */
  lemma CaptureHappyPath(st: Store, url: string)
    requires url != ""
    ensures
      var p0 := CaptureStepPage.Mount();
      var p1 := CaptureStepPage.Next(p0, st, CaptureStepPage.CameraTimerFires(true)).state;
      var p2 := CaptureStepPage.Next(p1, st, CaptureStepPage.CameraGranted).state;
      var p3 := CaptureStepPage.Next(p2, st, CaptureStepPage.VideoPlaying).state;
      var p4 := CaptureStepPage.Next(p3, st, CaptureStepPage.CapturePhoto).state;
      var p5 := CaptureStepPage.Next(p4, st, CaptureStepPage.CountdownTick(0)).state;
      var p6 := CaptureStepPage.Next(p5, st, CaptureStepPage.CountdownTick(0)).state;
      var p7 := CaptureStepPage.Next(p6, st, CaptureStepPage.CountdownTick(0)).state;
      var o8 := CaptureStepPage.Next(p7, st, CaptureStepPage.GrabFrame(0, Shutter.LiveFrame(url)));
      var o9 := CaptureStepPage.Next(o8.state, o8.store, CaptureStepPage.Continue);
      o9.goTo == Some(Router.ReviewStep) && Camera.Live(o9.state.camera) == 0 &&
      o9.store == Put(st, CapturedImageKey, url) &&
      ReviewStepPage.Mount(o9.store).state.capturedImage == Some(url)
  {
    var p0 := CaptureStepPage.Mount();
    var p1 := CaptureStepPage.Next(p0, st, CaptureStepPage.CameraTimerFires(true)).state;
    assert p1 == p0.(camera := Camera.Camera(false, 1, false, 0));
    var p2 := CaptureStepPage.Next(p1, st, CaptureStepPage.CameraGranted).state;
    assert p2 == p1.(camera := Camera.Camera(false, 0, true, 0));
    var p3 := CaptureStepPage.Next(p2, st, CaptureStepPage.VideoPlaying).state;
    assert p3 == p2.(isReady := true);
    CaptureStepProofs.MountInv();
    CaptureStepProofs.NextInv(p0, st, CaptureStepPage.CameraTimerFires(true));
    CaptureStepProofs.NextInv(p1, st, CaptureStepPage.CameraGranted);
    CaptureStepProofs.NextInv(p2, st, CaptureStepPage.VideoPlaying);
    CaptureStepProofs.PressToPicture(p3, st, url);
  }
}
