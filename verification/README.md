# FaceIT capture wizard: a Dafny model

FaceIT's front end takes a photo of the user's face with the webcam and
uploads it. It then shows a result that the user can email to themselves.
It has two variants:

- **A single-page wizard** (`FaceCapture`). One React component steps
  through NAME, CAPTURE, REVIEW, RESULT and EMAIL.
- **A multi-page wizard** (`CaptureStep`, `ReviewStep`, `ProcessingStep`).
  The same flow is spread over three routes. The pages pass the picture and
  the chosen face model to each other through two `localStorage` keys.

A path resolver in the router picks the page name that the layout
highlights.

This project models all of these as pure state machines and proves
properties about them:

- React state becomes an immutable record.
- Every button, timer and settled promise becomes an event with a
  transition function.
- A button that is disabled, or sits on a panel that is not showing, makes
  its event a no-op. So does a timer or promise that is not pending. The
  user is a pointer user: a hidden panel of the single-page wizard is only
  transparent and ignores the pointer, so its controls can still be
  reached from the keyboard, and the model does not follow that (see
  "Left out").
- The webcam is modelled as counters: the pending start timer, the
  outstanding `getUserMedia` requests, whether `streamRef` holds a running
  stream, and running streams that nothing refers to any more.
- The photo countdown and grab are the `Shutter` module, which both
  variants share.

Modules:

| module | file | models |
|---|---|---|
| `Common` | common.dfy | `Option`, and JavaScript truthiness of an optional string |
| `Text` | text.dfy | `String.prototype.trim` (ECMAScript white space) and ASCII `toLowerCase` |
| `Camera` | camera.dfy | stream lifecycle: delayed start, request, grant, rejection, cleanup |
| `Shutter` | shutter.dfy | 3-2-1 countdown, 100 ms settle, one grab, 640x480 simulated picture |
| `FaceCapturePage` | face_capture.dfy | the single-page wizard's session and handlers |
| `FaceCaptureProofs` | face_capture_proofs.dfy | invariants and traces of the single-page wizard |
| `Router` | router.dfy | `PAGES` and `_getCurrentPage` |
| `Storage` | storage.dfy | `localStorage` as `map<string,string>`, and the outcome of a page handler |
| `CaptureStepPage`, `CaptureStepProofs` | capture_step.dfy, capture_step_proofs.dfy | the capture page |
| `ReviewStepPage` | review_step.dfy | the review page |
| `ProcessingStepPage` | processing_step.dfy | the processing page |
| `Flow` | flow.dfy | how the three pages fit together through the store |

Every page handler returns its new state, the store after it, and the page
it navigates to, if any.

In these places the code does something easy to misread, and the model
follows the code:

- In the single-page wizard, the simulated picture taken after a camera
  error does not move the wizard to REVIEW.
- Take Photo is disabled until the camera is ready, even when there is a
  camera error.
- Leaving CAPTURE does not cancel a running countdown.
- A late upload result is applied even after Start Over.
- The capture page's button stays enabled while a countdown runs. Each
  press starts a countdown of its own, and they run side by side.
- The processing page's Try Again keeps the old progress on screen until
  the first tick.

## Model

| member | source | states |
|---|---|---|
| `Text.TrimCharacterised` | Fronted/src/pages/FaceCapture.jsx:352-354 | a trimmed name is empty exactly when every character is ECMAScript white space; otherwise it neither starts nor ends with white space |
| `Text.LowerIdempotent` | Fronted/src/pages/index.jsx:38 | lower-casing twice is lower-casing once, so the case-insensitive comparison is an equivalence |
| `Camera.Request` | Fronted/src/pages/FaceCapture.jsx:52-62 | a request adds one outstanding call and clears the start timer; with `stopPrior`, the stream `streamRef` held is stopped before the call |
| `Camera.Teardown` | Fronted/src/pages/FaceCapture.jsx:95-102 | after the effect cleanup no start is pending, `streamRef` holds nothing live, and only unreachable streams still run; requests already sent stay outstanding |
| `Camera.Granted` | Fronted/src/pages/FaceCapture.jsx:59-64 | as written, every grant adds one running stream, whatever `streamRef` held before |
| `Camera.GrantedGuarded` | Fronted/src/pages/FaceCapture.jsx:59-64 | with the guard, a grant on an inactive page adds no running stream, and on an active page leaves exactly one reachable stream running |
| `Camera.DeniedMessage` | Fronted/src/pages/FaceCapture.jsx:82-85 | the error shown after a rejection is never empty, and it is the rejection's own message when that message is non-empty |
| `Shutter.Tick` | Fronted/src/pages/FaceCapture.jsx:139-145 | a tick lowers the displayed count by one, stays within 1..3 while counting, and stops counting exactly when it was at 1 |
| `Shutter.CountsDown` | Fronted/src/pages/FaceCapture.jsx:136-145 | a countdown from n shows n-k after k ticks, and is waiting for its one grab after exactly n ticks |
| `Shutter.CountdownSequence` | Fronted/src/pages/CaptureStep.jsx:87-96 | a press shows 3, then 2, 1 and 0 on three ticks; after that the interval is cleared and the grab is due |
| `Shutter.Grab` | Fronted/src/pages/FaceCapture.jsx:145-170 | the picture comes from the camera exactly when the camera was ready at the press and a live frame was read; every other path gives the simulated picture |
| `FaceCapturePage.GoTo` | Fronted/src/pages/FaceCapture.jsx:88-104 | entering CAPTURE schedules the camera start; leaving it cancels the start and stops the stream; any other step change leaves the camera alone; nothing else changes |
| `FaceCapturePage.LeaveName` | Fronted/src/pages/FaceCapture.jsx:352-354 | NAME's Continue enters CAPTURE and schedules the camera exactly when the name is not all white space; otherwise nothing happens |
| `FaceCapturePage.StartCamera` | Fronted/src/pages/FaceCapture.jsx:46-62 | without `getUserMedia` the unsupported error is shown and no request is sent; otherwise the old stream is stopped and one request is sent |
| `FaceCapturePage.StreamArrivesAsWritten` | Fronted/src/pages/FaceCapture.jsx:59-64 | as written, a granted stream is kept running on whatever step the wizard is on |
| `FaceCapturePage.StreamArrives` | Fronted/src/pages/FaceCapture.jsx:59-64 | with the guard, a stream granted outside CAPTURE does not add a running stream; inside CAPTURE exactly the new stream is reachable |
| `FaceCapturePage.StreamRefused` | Fronted/src/pages/FaceCapture.jsx:82-85 | a rejected request shows a non-empty error and starts no stream |
| `FaceCapturePage.CapturePhoto` | Fronted/src/pages/FaceCapture.jsx:129-137 | with a camera error the simulated picture is taken at once, with no countdown and the step unchanged; otherwise a countdown starts from 3 |
| `FaceCapturePage.GrabStill` | Fronted/src/pages/FaceCapture.jsx:145-171 | the countdown is cleared on every path; only a live frame after a ready press becomes the picture and moves to REVIEW; every other path stores the simulated picture and stays on the step |
| `FaceCapturePage.RetakePhoto` | Fronted/src/pages/FaceCapture.jsx:461-466 | Retake clears only the picture and goes back to CAPTURE, which schedules the camera again |
| `FaceCapturePage.BeginSubmit` | Fronted/src/pages/FaceCapture.jsx:186-190 | submitting without a picture changes nothing; otherwise processing starts, the upload error is cleared, and the picture and name are fixed for the upload |
| `FaceCapturePage.Settle` | Fronted/src/pages/FaceCapture.jsx:195-216 | the result is the remote `file_url` exactly when the upload wins the race; on failure or timeout it is the local picture, with the upload error set |
| `FaceCapturePage.HistoryRecord` | Fronted/src/pages/FaceCapture.jsx:223-231 | a history record has the result URL as both source and result, the model `standard` and the status `completed` |
| `FaceCapturePage.FinishSubmit` | Fronted/src/pages/FaceCapture.jsx:194-231 | when the upload race settles the wizard is on RESULT with the uploaded URL (or the local picture and the fallback message after a failure or timeout), the history write for that user and URL is pending, and `isProcessing` stays set |
| `FaceCapturePage.FinishHistory` | Fronted/src/pages/FaceCapture.jsx:223-242 | when the history write settles `isProcessing` is cleared; a saved record is appended, and a failed write changes neither the step nor the result |
| `FaceCapturePage.HandleStartOver` | Fronted/src/pages/FaceCapture.jsx:176-184 | Start Over stops the stream and returns to NAME with picture, result and name cleared; the email, upload error and history are kept |
| `FaceCapturePage.BeginSendEmail` | Fronted/src/pages/FaceCapture.jsx:260-264 | sending without both an address and a result changes nothing; otherwise the call carries the address, the fixed subject and the result link |
| `FaceCapturePage.FinishSendEmail` | Fronted/src/pages/FaceCapture.jsx:266-292 | a delivered email shows the confirmation and schedules the return; a failure shows the email error; the step is unchanged and processing ends either way |
| `FaceCapturePage.EmailReturn` | Fronted/src/pages/FaceCapture.jsx:283-286 | the return timer goes back to RESULT with the confirmation hidden and the result and address kept |
| `FaceCaptureProofs.InitialInv` | Fronted/src/pages/FaceCapture.jsx:18-30 | the first render holds the camera, busy-flag and countdown invariant |
| `FaceCaptureProofs.NextInv` | Fronted/src/pages/FaceCapture.jsx:46-293 | with the guarded grant, every event keeps the invariant: no stream outside CAPTURE, `isProcessing` exactly while the upload race, the history write after it or an email send is in flight (one at a time), and the countdown within 1..3 |
| `FaceCaptureProofs.RunInv` | Fronted/src/pages/FaceCapture.jsx:46-293 | with the guarded grant, the invariant holds after any sequence of events |
| `FaceCaptureProofs.NextAsWrittenBookkeeping` | Fronted/src/pages/FaceCapture.jsx:46-293 | with the grant as written, every event still keeps `isProcessing` tied to the pending calls and the countdown within 1..3 |
| `FaceCaptureProofs.RunAsWrittenBookkeeping` | Fronted/src/pages/FaceCapture.jsx:46-293 | the same after any sequence of events as written |
| `FaceCaptureProofs.AsWrittenBusyConsistent` | Fronted/src/pages/FaceCapture.jsx:183-242 | from the first render, as written, `isProcessing` is set exactly while the upload, the history write or an email send is pending, and the countdown never shows more than 3 |
| `FaceCaptureProofs.HistoryWindow` | Fronted/src/pages/FaceCapture.jsx:219-242 | after the race settles and before the history write does, the wizard is on RESULT and still busy, so Send Email does nothing; the history write then ends processing on RESULT |
| `FaceCaptureProofs.ReachableSafety` | Fronted/src/pages/FaceCapture.jsx:88-104 | with the guarded grant, in every reachable session at most one stream runs and none outside CAPTURE, and `isProcessing` is set exactly while the upload race, the history write after it or an email send is pending |
| `FaceCaptureProofs.LeaveNameOnlyWithName` | Fronted/src/pages/FaceCapture.jsx:352-354 | for a pointer user, from NAME the only event that reaches CAPTURE is Continue with a name that is not all white space |
| `FaceCaptureProofs.TakePhotoGuard` | Fronted/src/pages/FaceCapture.jsx:422-424 | for a pointer user, Take Photo acts only on CAPTURE with the camera ready and no countdown; with a camera error it gives the simulated picture and no countdown |
| `FaceCaptureProofs.PhotoSequence` | Fronted/src/pages/FaceCapture.jsx:136-173 | after a press the display shows 3, 2, 1, 0; further ticks do nothing; the one grab clears the countdown |
| `FaceCaptureProofs.OnlyLiveFrameReachesReview` | Fronted/src/pages/FaceCapture.jsx:150-165 | the only way from CAPTURE to REVIEW is a live frame grabbed after a ready press, and that frame is the picture |
| `FaceCaptureProofs.SubmitNeedsImage` | Fronted/src/pages/FaceCapture.jsx:186-189 | Submit is a no-op without a picture or while processing |
| `FaceCaptureProofs.SendEmailNeedsAddressAndResult` | Fronted/src/pages/FaceCapture.jsx:260-261 | Send Email is a no-op without an address, without a result, or while processing |
| `FaceCaptureProofs.LateResultAfterStartOver` | Fronted/src/pages/FaceCapture.jsx:176-220 | an upload that settles after Start Over still moves the cleared session to RESULT with the old result |
| `FaceCaptureProofs.RunsAgreeWithoutGrant` | Fronted/src/pages/FaceCapture.jsx:46-64 | the code as written and the guarded machine differ only at a stream grant: runs without one end in the same session |
| `FaceCaptureProofs.AsWrittenLeaksStream` | Fronted/src/pages/FaceCapture.jsx:46-104 | with the grant as written, one concrete event sequence ends on RESULT with a stream still running |
| `FaceCaptureProofs.GuardedDoesNotLeak` | Fronted/src/pages/FaceCapture.jsx:46-104 | with the guarded grant, the same sequence ends on RESULT with no stream running |
| `Router.DropTrailingSlash` | Fronted/src/pages/index.jsx:30-32 | exactly one final `/` is removed when there is one; otherwise the path is unchanged |
| `Router.LastSegment` | Fronted/src/pages/index.jsx:33 | the segment is a suffix of the path that holds no `/` and follows its last `/`; a path without `/` is its own segment |
| `Router.BeforeQuery` | Fronted/src/pages/index.jsx:34-36 | the name is a prefix of the segment that holds no `?` and stops at its first `?`; a segment without `?` is its own name |
| `Router.Lookup` | Fronted/src/pages/index.jsx:38 | a page found matches the name ignoring case; nothing is found exactly when no listed page matches |
| `Router.ResolveName` | Fronted/src/pages/index.jsx:38-39 | the page matches the name, or no page matches and it is the first key |
| `Router.Resolve` | Fronted/src/pages/index.jsx:29-40 | the page matches the name taken from the path, or it is the default when nothing matches |
| `Router.CurrentPage` | Fronted/src/pages/index.jsx:29-40 | the result is always one of the page table's keys |
| `Router.AllPagesListed` | Fronted/src/pages/index.jsx:15-27 | every page is in the page table |
| `Router.LowerKeyIsLower` | Fronted/src/pages/index.jsx:38 | the lower-case key table is each key lower-cased |
| `Router.KeysDistinct` | Fronted/src/pages/index.jsx:15-27 | no two keys are equal ignoring case, so at most one page matches a name |
| `Router.ResolveCharacterised` | Fronted/src/pages/index.jsx:29-40 | the resolver returns p exactly when p's key matches the name ignoring case, or p is FaceCapture and no key matches |
| `Router.LastSegmentOf` | Fronted/src/pages/index.jsx:33 | the last segment of `base/seg` is `seg` when `seg` holds no `/` |
| `Router.BeforeQueryOf` | Fronted/src/pages/index.jsx:34-36 | the part of `name + query` before the query is `name` |
| `Router.ResolvesNamedPage` | Fronted/src/pages/index.jsx:29-40 | any path whose last segment spells a key in any letter case resolves to that page, with or without a query and one trailing slash, whatever precedes the segment |
| `Router.ResolvesKey` | Fronted/src/pages/index.jsx:29-40 | `/Key` resolves to that key's page |
| `Router.ResolvesLowerKey` | Fronted/src/pages/index.jsx:38 | the lower-cased spelling of a key resolves to its page |
| `Router.RoundTrip` | Fronted/src/pages/index.jsx:29-40 | feeding `"/" + result` back in gives the same result, for every path |
| `Router.EmptyNameIsDefault` | Fronted/src/pages/index.jsx:39 | an empty name matches no key and gives the first one |
| `Router.RootIsDefault` | Fronted/src/pages/index.jsx:29-40 | `/` gives `FaceCapture` |
| `Router.TrailingSlashIgnored` | Fronted/src/pages/index.jsx:30-32 | `/ReviewStep/` gives `ReviewStep` |
| `Router.OneSlashOnly` | Fronted/src/pages/index.jsx:30-33 | only one trailing slash is dropped: `/ReviewStep//` gives the default page |
| `Router.QueryAfterSlash` | Fronted/src/pages/index.jsx:33-36 | the query is cut from the last segment only: `/reviewstep/?a=1` gives the default page |
| `Storage.Get` | Fronted/src/pages/ReviewStep.jsx:13 | reading a key gives its value when it is stored, and `null` exactly when it is not |
| `Storage.Put` | Fronted/src/pages/CaptureStep.jsx:116 | after a successful write the key holds the value and no other key changes |
| `Storage.Remove` | Fronted/src/pages/ProcessingStep.jsx:87-88 | after removal the key is gone and no other key changes |
| `CaptureStepPage.Mount` | Fronted/src/pages/CaptureStep.jsx:48-51 | the page mounts with the camera start scheduled, nothing running, and no picture or countdown |
| `CaptureStepPage.StartCamera` | Fronted/src/pages/CaptureStep.jsx:17-27 | without `getUserMedia` the unsupported error is shown; otherwise one request is sent and, unlike the single page, no earlier stream is stopped |
| `CaptureStepPage.StreamArrivesAsWritten` | Fronted/src/pages/CaptureStep.jsx:24-29 | as written, the granted stream is kept running whether or not the page is still mounted |
| `CaptureStepPage.StreamArrives` | Fronted/src/pages/CaptureStep.jsx:24-29 | with the guard, a stream granted after unmount adds no running stream |
| `CaptureStepPage.StreamRefused` | Fronted/src/pages/CaptureStep.jsx:42-45 | a rejection starts no stream and, on a mounted page, shows a non-empty error |
| `CaptureStepPage.CapturePhotoHandler` | Fronted/src/pages/CaptureStep.jsx:81-88 | with a camera error the simulated picture is taken with no countdown; otherwise one more countdown run starts from 3 beside the others |
| `CaptureStepPage.TickRun` | Fronted/src/pages/CaptureStep.jsx:90-96 | a tick moves only its own run and, while mounted, displays that run's new count |
| `CaptureStepPage.GrabRun` | Fronted/src/pages/CaptureStep.jsx:96-124 | a live grab stores the same URL in the page and in the store; every other path leaves the store alone and shows the simulated picture; the countdown is cleared while mounted |
| `CaptureStepPage.ContinueHandler` | Fronted/src/pages/CaptureStep.jsx:129-135 | Continue stops the stream `streamRef` holds and changes nothing else |
| `CaptureStepPage.UnmountHandler` | Fronted/src/pages/CaptureStep.jsx:53-58 | unmounting cancels the pending start and stops the held stream, but not requests already sent |
| `CaptureStepProofs.NextInv` | Fronted/src/pages/CaptureStep.jsx:16-135 | with the guarded stream handler, every event keeps the invariant: one request at most, no unreachable stream, nothing live after unmount, and every run's count within 1..3 |
| `CaptureStepProofs.RunInv` | Fronted/src/pages/CaptureStep.jsx:16-135 | with the guarded stream handler, the invariant holds after any sequence of events |
| `CaptureStepProofs.ReachableSafety` | Fronted/src/pages/CaptureStep.jsx:48-58 | with the guarded stream handler, after mount at most one stream runs, and none once the page is left |
| `CaptureStepProofs.NextAsWrittenBookkeeping` | Fronted/src/pages/CaptureStep.jsx:16-135 | with the stream handler as written, every event keeps one request at most, no unreachable stream, the start armed only while mounted, and every run's count within 1..3 |
| `CaptureStepProofs.RunAsWrittenBookkeeping` | Fronted/src/pages/CaptureStep.jsx:16-135 | the same after any sequence of events as written |
| `CaptureStepProofs.AsWrittenAtMostOneStream` | Fronted/src/pages/CaptureStep.jsx:17-58 | as written, after mount at most one stream runs (though it may outlive the page) and every countdown stays within 1..3 |
| `CaptureStepProofs.AsWrittenLeaksAfterUnmount` | Fronted/src/pages/CaptureStep.jsx:17-58 | as written, a timer firing, then unmount, then the grant leave a left page with a running stream |
| `CaptureStepProofs.GuardedStopsLateStream` | Fronted/src/pages/CaptureStep.jsx:17-58 | with the guard, the same events leave nothing running |
| `CaptureStepProofs.OnlyLiveGrabWritesStore` | Fronted/src/pages/CaptureStep.jsx:101-122 | the store changes only by a live grab, which stores the shown picture under the picture key |
| `CaptureStepProofs.OnlyContinueNavigates` | Fronted/src/pages/CaptureStep.jsx:129-135 | the page is left exactly on Continue with a picture, for the review page, with the stream already stopped |
| `CaptureStepProofs.CaptureButton` | Fronted/src/pages/CaptureStep.jsx:200-204 | the button acts only when shown and enabled; with an error it gives the simulated picture, otherwise a new run from 3 |
| `CaptureStepProofs.PressToPicture` | Fronted/src/pages/CaptureStep.jsx:87-118 | a press on a ready camera shows 3, 2, 1, 0, then stores the grabbed live frame and clears the countdown |
| `ReviewStepPage.Mount` | Fronted/src/pages/ReviewStep.jsx:12-20 | the page goes back to the capture page exactly when no picture is stored; otherwise it shows the stored one; the selection starts as `model1` |
| `ReviewStepPage.Select` | Fronted/src/pages/ReviewStep.jsx:83 | a click selects that card's model, which is on offer, and keeps the picture |
| `ReviewStepPage.Back` | Fronted/src/pages/ReviewStep.jsx:22-24 | Back goes to the capture page with the store untouched |
| `ReviewStepPage.Continue` | Fronted/src/pages/ReviewStep.jsx:26-30 | Continue stores the selection under the model key, changes no other key, and opens the processing page |
| `ReviewStepPage.HandleContinue` | Fronted/src/pages/ReviewStep.jsx:26-30 | the page navigates exactly when the browser accepts the write; a refused write throws uncaught, so the store is unchanged and the page stays |
| `ReviewStepPage.SelectAllValid` | Fronted/src/pages/ReviewStep.jsx:80-83 | any clicks keep the selection on offer, and the last click decides it |
| `ReviewStepPage.SelectionAlwaysOffered` | Fronted/src/pages/ReviewStep.jsx:9-45 | from mount, whatever the clicks, Continue stores a non-empty model id that is on offer |
| `ProcessingStepPage.Simulate` | Fronted/src/pages/ProcessingStep.jsx:33-48 | a pass starts loading, from a count of 0, with the ticker and finish timer running and the old progress still shown |
| `ProcessingStepPage.Mount` | Fronted/src/pages/ProcessingStep.jsx:16-31 | the page goes to the welcome page and runs nothing exactly when the picture or the model is missing; otherwise a pass starts |
| `ProcessingStepPage.Tick` | Fronted/src/pages/ProcessingStep.jsx:38-45 | a tick adds 5 to the count, shows it capped at 95, and stops the ticker once 95 is reached |
| `ProcessingStepPage.Finish` | Fronted/src/pages/ProcessingStep.jsx:48-58 | the 5 s timer stops the ticker and starts the upload, keeping progress and status |
| `ProcessingStepPage.UploadSettles` | Fronted/src/pages/ProcessingStep.jsx:58-67 | success stores `file_url` as the result with progress 100; failure sets the error status and changes nothing else |
| `ProcessingStepPage.StartOver` | Fronted/src/pages/ProcessingStep.jsx:86-90 | both wizard keys are removed, every other key is kept, and the welcome page opens |
| `ProcessingStepPage.TicksFromStart` | Fronted/src/pages/ProcessingStep.jsx:37-45 | after k ticks of a pass the count, and once ticked the display, is min(5k, 95), and the ticker runs exactly while 5k < 95 |
| `ProcessingStepPage.TicksFrom` | Fronted/src/pages/ProcessingStep.jsx:37-45 | the same from any count 5j up to 95 |
| `ProcessingStepPage.NextInv` | Fronted/src/pages/ProcessingStep.jsx:33-90 | every event keeps the bounds: count and display multiples of 5 up to 95, 100 only on success, one timer or the upload pending, only while loading |
| `ProcessingStepPage.RunInv` | Fronted/src/pages/ProcessingStep.jsx:33-90 | the bounds hold after any sequence of events |
| `ProcessingStepPage.ProgressBounds` | Fronted/src/pages/ProcessingStep.jsx:37-63 | in every reachable state the bar shows a multiple of 5, at most 95 unless successful, and 100 exactly on success |
| `ProcessingStepPage.TryAgainRestarts` | Fronted/src/pages/ProcessingStep.jsx:71-73 | Try Again acts only after an error and starts a new loading pass, with the old progress still shown |
| `ProcessingStepPage.OnlyStartOverTouchesStore` | Fronted/src/pages/ProcessingStep.jsx:86-90 | only Start Over on a successful result changes the store or leaves the page |
| `Flow.LiveGrabOpensReview` | Fronted/src/pages/CaptureStep.jsx:112-118 | after a live grab the review page, mounted next, stays and shows the same picture |
| `Flow.SimulatedPictureBouncesBack` | Fronted/src/pages/ReviewStep.jsx:12-20 | a simulated picture is never stored, so with an empty store the review page sends the user back although the capture page offers Continue |
| `Flow.ErrorPictureBouncesBack` | Fronted/src/pages/CaptureStep.jsx:82-85 | the same for the picture taken at once after a camera error |
| `Flow.ReviewContinueStartsProcessing` | Fronted/src/pages/ReviewStep.jsx:26-30 | with a picture stored, Continue after any clicks makes the processing page start a pass instead of leaving |
| `Flow.ContinueNeedsStoredModel` | Fronted/src/pages/ReviewStep.jsx:26-30 | the processing page is opened exactly when the model write is accepted, and then starts a pass; a refused write leaves a store without a model, which the processing page would reject |
| `Flow.StartOverSendsBack` | Fronted/src/pages/ProcessingStep.jsx:86-90 | after Start Over the review page sends the user to the capture page and the processing page to the welcome page |
| `Flow.CaptureHappyPath` | Fronted/src/pages/CaptureStep.jsx:16-135 | camera start, play, one press, three ticks, a live grab and Continue reach the review page with the camera off and the picture stored and shown |

## Left out

- **Timing.** Wall-clock time is not modelled. Timers and intervals are
  events that the environment delivers in any order. So the model does not
  know that about 16 ticks of 300 ms fit into the 5 s processing timer. The
  delays are named constants only.
- **External calls.** `UploadFile` (raced against the 10 s timeout),
  `ProcessingHistory.create`, `SendEmail`, `getUserMedia` and `play()`
  become events carrying their outcome.
  `ProcessingHistory.list`, the history panel and its refresh are not
  modelled, and nor are record timestamps.
- **Pictures.** Canvas pixels, JPEG encoding and blob/data-URL conversion are
  not modelled. A picture is an opaque string, and the simulated picture is
  one fixed token standing for the 640x480 canvas.
- **Download.** The download handlers build a link and click it. This is
  pure DOM I/O.
- **Rendering.** JSX, styling and the progress dots are left out.
- **Reload.** The camera-error panel's Try Again button (both wizards)
  reloads the page; a reload is not modelled.
- **Processing upload input.** The processing page's `simulateProcessing`
  reads `capturedImage` from the first render's closure. The model does not
  follow what is fetched. The upload's outcome is an arbitrary event.
- **After navigation.** Timers that the processing page leaves running after
  it is left are not modelled. `ProcessingStepPage.Run` stops at the first
  navigation.
- **Outer error handler.** The catch around `handleSubmit`'s coordinator
  needs an exception from `setResult` or `setCurrentStep`, which cannot
  happen. It is not modelled.
- **Other pages and services.** `createPageUrl` is not part of this model;
  navigation targets are `Router.Page` values. The welcome page, the layout,
  the backend and the SDK client are not part of this model either.
- **Keyboard.** A panel of the single-page wizard that is not the current
  step is only made transparent and deaf to the pointer; its buttons and
  inputs can still be focused with Tab and pressed with Enter. The model is
  a pointer user, for whom those controls do nothing. Reaching them from
  the keyboard (the REVIEW panel's Retake from NAME, its Submit from
  RESULT, Take Photo from any step once the camera has been ready) is not
  modelled.
- `FaceCaptureProofs.LeaveNameOnlyWithName`: holds for a pointer user only.
  From the keyboard the hidden REVIEW panel's Retake also reaches CAPTURE
  from NAME, with any name.
- `FaceCaptureProofs.TakePhotoGuard`: holds for a pointer user only. From
  the keyboard the hidden Take Photo acts on any step once `isReady` has
  been set, since nothing clears it.
- `Text.Lower`: folds ASCII letters only. JavaScript's `toLowerCase` folds
  all of Unicode. Every page key is ASCII, so a difference could only show
  on a non-ASCII path.

## Findings

| source | as written | input that shows it | evidently intended | confidence | as-written member | corrected member |
|---|---|---|---|---|---|---|
| Fronted/src/pages/FaceCapture.jsx:59-64 | `startCamera` stores a granted stream in `streamRef` without checking that the wizard is still on CAPTURE. The cleanup at lines 95-102 ran before the stream existed. | Submit, then Retake (back to CAPTURE). The start timer fires and requests the camera. The upload times out, moving the wizard to RESULT. Only then is the stream granted. | No stream runs outside CAPTURE: a late stream is stopped at once. | not executed | `FaceCaptureProofs.AsWrittenLeaksStream` (on `FaceCapturePage.StreamArrivesAsWritten`) | `FaceCaptureProofs.ReachableSafety` (on `FaceCapturePage.StreamArrives`) |
| Fronted/src/pages/CaptureStep.jsx:24-29 | The mount effect's `startCamera` stores a granted stream after the page has unmounted. The unmount cleanup at lines 53-58 had found `streamRef` empty. | The 500 ms timer fires and requests the camera. The user leaves the page. Then the stream is granted. | No stream runs once the page is left. | not executed | `CaptureStepProofs.AsWrittenLeaksAfterUnmount` (on `CaptureStepPage.StreamArrivesAsWritten`) | `CaptureStepProofs.ReachableSafety` (on `CaptureStepPage.StreamArrives`) |
