/** The last page of the multi-page wizard (`ProcessingStep.jsx`): with a
    picture and a model in the store it runs a simulated processing pass (a
    progress bar fed by a 300 ms ticker, then after 5 s an upload whose
    answer is the result), offers Try Again after a failure, and Start Over
    after a success, which clears both keys and goes to the welcome page. */
module ProcessingStepPage {
  import opened Common
  import Router
  import opened Storage

  /** Progress gained per tick. */
  const Step: nat := 5
  /** The displayed progress while loading never exceeds this; the ticker
      stops once its count reaches it. */
  const Cap: nat := 95
  /** The displayed progress on success. */
  const Done: nat := 100
  const TickMs: nat := 300
  const FinishMs: nat := 5000

  /** `processingState`: "loading", "success" or "error". */
  datatype Status = Loading | Success | Failure

  /** The page's state. `counter` is the running pass's local
      `currentProgress`; `ticking` its interval; `finishArmed` its 5 s
      timer; `uploading` the pending upload. */
  datatype Processing = Processing(
    status: Status,
    progress: nat,
    counter: nat,
    ticking: bool,
    finishArmed: bool,
    uploading: bool,
    resultImage: Option<string>)

  /** The state on first render: loading at 0 %, nothing running. */
  const Fresh := Processing(Loading, 0, 0, false, false, false, None)

  /** `simulateProcessing` starts a pass: "loading", a new local count from
      0, the ticker and the finish timer. The displayed progress is left as
      it was until the first tick. */
  function Simulate(s: Processing): (r: Processing)
    ensures r.status == Loading && r.counter == 0 && r.ticking && r.finishArmed && !r.uploading
    ensures r.progress == s.progress && r.resultImage == s.resultImage
  {
    s.(status := Loading, counter := 0, ticking := true, finishArmed := true, uploading := false)
  }

  /** The mount effect: without a picture or a model in the store the page
      goes to the welcome page and runs nothing; otherwise a pass starts. */
  function Mount(st: Store): (o: Outcome<Processing>)
    ensures o.store == st
    ensures !(Has(st, CapturedImageKey) && Has(st, SelectedModelKey)) <==> o.goTo == Some(Router.Welcome)
    ensures !(Has(st, CapturedImageKey) && Has(st, SelectedModelKey)) ==> o.state == Fresh
    ensures Has(st, CapturedImageKey) && Has(st, SelectedModelKey) ==>
      o.goTo.None? && o.state == Simulate(Fresh)
  {
    if !Has(st, CapturedImageKey) || !Has(st, SelectedModelKey) then Outcome(Fresh, st, Some(Router.Welcome))
    else Outcome(Simulate(Fresh), st, None)
  }

  /** One tick: the count grows by 5, the display shows it capped at 95, and
      the ticker stops once the count reaches 95. */
  function Tick(s: Processing): (r: Processing)
    requires s.ticking
    ensures r.counter == s.counter + Step
    ensures r.progress == if s.counter + Step < Cap then s.counter + Step else Cap
    ensures r.ticking <==> s.counter + Step < Cap
    ensures r == s.(counter := r.counter, progress := r.progress, ticking := r.ticking)
  {
    var c := s.counter + Step;
    s.(counter := c, progress := if c < Cap then c else Cap, ticking := c < Cap)
  }

  /** The 5 s timer: the ticker is cleared and the upload starts. */
  function Finish(s: Processing): (r: Processing)
    requires s.finishArmed
    ensures !r.ticking && !r.finishArmed && r.uploading
    ensures r.progress == s.progress && r.status == s.status
  {
    s.(ticking := false, finishArmed := false, uploading := true)
  }

  /** The upload settles: with a `file_url` the result is that URL, progress
      100 and "success"; on any failure "error", with the result and the
      progress left as they were. */
  function UploadSettles(s: Processing, fileUrl: Option<string>): (r: Processing)
    requires s.uploading
    ensures !r.uploading
    ensures fileUrl.Some? ==> r.status == Success && r.progress == Done && r.resultImage == fileUrl
    ensures fileUrl.None? ==> r == s.(status := Failure, uploading := false)
  {
    match fileUrl
    case Some(url) => s.(resultImage := Some(url), progress := Done, status := Success, uploading := false)
    case None => s.(status := Failure, uploading := false)
  }

  /** Try Again is shown in the error view only. */
  predicate CanTryAgain(s: Processing) {
    s.status == Failure
  }

  /** Start Over is shown in the success view only, which needs a result. */
  predicate CanStartOver(s: Processing) {
    s.status == Success && Truthy(s.resultImage)
  }

  /** `handleStartOver`: both wizard keys are removed, every other key is
      kept, and the welcome page is opened. */
  function StartOver(s: Processing, st: Store): (o: Outcome<Processing>)
    ensures o.goTo == Some(Router.Welcome) && o.state == s
    ensures !Has(o.store, CapturedImageKey) && !Has(o.store, SelectedModelKey)
    ensures forall k :: k != CapturedImageKey && k != SelectedModelKey ==> Get(o.store, k) == Get(st, k)
  {
    Outcome(s, Remove(Remove(st, CapturedImageKey), SelectedModelKey), Some(Router.Welcome))
  }

  /** Everything that can happen on the page once it is mounted. */
  datatype Event =
    | ProgressTick                        // the 300 ms interval
    | FinishTimer                         // the 5 s timer
    | UploadDone(fileUrl: Option<string>) // the upload settles: its file_url, or None when it fails
    | TryAgain                            // the error view's Try Again button
    | StartOverClicked                    // the success view's Start Over button

  /** One event; hidden buttons and timers that are not pending change
      nothing. */
  function Next(s: Processing, st: Store, e: Event): Outcome<Processing> {
    var stay := Outcome(s, st, None);
    match e
    case ProgressTick => if s.ticking then Outcome(Tick(s), st, None) else stay
    case FinishTimer => if s.finishArmed then Outcome(Finish(s), st, None) else stay
    case UploadDone(url) => if s.uploading then Outcome(UploadSettles(s, url), st, None) else stay
    case TryAgain => if CanTryAgain(s) then Outcome(Simulate(s), st, None) else stay
    case StartOverClicked => if CanStartOver(s) then StartOver(s, st) else stay
  }

  /** `k` ticks of the ticker; ticks stop once it is cleared. */
  function Ticks(s: Processing, k: nat): Processing
    decreases k
  {
    if k == 0 || !s.ticking then s else Ticks(Tick(s), k - 1)
  }

  /** A pass's progress: after `k` ticks from a fresh count the count is
      `min(5k, 95)`, so is the display once a tick has happened, and the
      ticker is still running exactly when `5k < 95`. */
  lemma {:induction false} TicksFromStart(s: Processing, k: nat)
    requires s.counter == 0 && s.ticking
    ensures var r := Ticks(s, k);
      r.counter == Min(Step * k, Cap) && (r.ticking <==> Step * k < Cap) &&
      (k > 0 ==> r.progress == Min(Step * k, Cap))
  {
    TicksFrom(s, k, 0);
  }

  function Min(a: nat, b: nat): nat {
    if a < b then a else b
  }

  /** The same from a count of `5j`. */
  lemma {:induction false} TicksFrom(s: Processing, k: nat, j: nat)
    requires j * Step <= Cap && s.counter == Step * j && (s.ticking <==> Step * j < Cap)
    ensures var r := Ticks(s, k);
      r.counter == Min(Step * (j + k), Cap) && (r.ticking <==> Step * (j + k) < Cap) &&
      (k > 0 && s.ticking ==> r.progress == Min(Step * (j + k), Cap))
    decreases k
  {
    if k > 0 && s.ticking {
      var t := Tick(s);
      TicksFrom(t, k - 1, j + 1);
      if k - 1 == 0 || !t.ticking {
        assert Ticks(t, k - 1) == t;
      }
    }
  }

  /** Events in order, from state `s` and store `st`, until one navigates
      away (the page is then gone). */
  function Run(s: Processing, st: Store, es: seq<Event>): Outcome<Processing>
    decreases |es|
  {
    if es == [] then Outcome(s, st, None)
    else
      var o := Next(s, st, es[0]);
      if o.goTo.Some? then o else Run(o.state, o.store, es[1..])
  }

  /** What every reachable state satisfies: the pass's count is a multiple
      of 5 no greater than 95, and below 95 while the ticker runs; the
      display is a multiple of 5, at most 95 unless the pass succeeded, and
      100 on success; while a pass is loading and has ticked, the display is
      its count; at most one of ticker-or-timer and upload is pending, and
      only while loading. */
  predicate Inv(s: Processing) {
    && s.counter % Step == 0 && s.counter <= Cap
    && (s.ticking ==> s.counter < Cap && s.status == Loading)
    && s.progress % Step == 0
    && (s.status == Success ==> s.progress == Done)
    && (s.status != Success ==> s.progress <= Cap)
    && (s.status == Loading && s.counter > 0 ==> s.progress == s.counter)
    && (s.finishArmed ==> s.status == Loading && !s.uploading)
    && (s.uploading ==> s.status == Loading && !s.ticking && !s.finishArmed)
    && (s.status == Success ==> s.resultImage.Some? && !s.ticking && !s.finishArmed && !s.uploading)
  }

  lemma MountInv(st: Store)
    ensures Inv(Mount(st).state)
  {
  }

  lemma NextInv(s: Processing, st: Store, e: Event)
    requires Inv(s)
    ensures Inv(Next(s, st, e).state)
  {
  }

  lemma {:induction false} RunInv(s: Processing, st: Store, es: seq<Event>)
    requires Inv(s)
    ensures Inv(Run(s, st, es).state)
    decreases |es|
  {
    if es != [] {
      var o := Next(s, st, es[0]);
      NextInv(s, st, es[0]);
      if o.goTo.None? {
        RunInv(o.state, o.store, es[1..]);
      }
    }
  }

  /** The progress bar on every reachable state: a multiple of 5 between 0
      and 95 while loading or after an error, and 100 exactly on success. */
  lemma ProgressBounds(st: Store, es: seq<Event>)
    ensures var s := Run(Mount(st).state, st, es).state;
      s.progress % Step == 0 &&
      (s.status == Success <==> s.progress == Done) &&
      (s.status != Success ==> s.progress <= Cap)
  {
    MountInv(st);
    RunInv(Mount(st).state, st, es);
  }

  /** Try Again acts only in the error view: it starts a new loading pass
      from a count of 0 with the ticker and the finish timer running, while
      the bar keeps showing the failed pass's progress until the first tick. */
  lemma TryAgainRestarts(s: Processing, st: Store)
    requires Inv(s)
    ensures var o := Next(s, st, TryAgain);
      o.store == st && o.goTo.None? &&
      (s.status == Failure ==>
         o.state.status == Loading && o.state.counter == 0 && o.state.ticking && o.state.finishArmed &&
         o.state.progress == s.progress && Inv(o.state)) &&
      (s.status != Failure ==> o.state == s)
  {
  }

  /** The store is changed only by Start Over, which is also the only way
      off the page. */
  lemma OnlyStartOverTouchesStore(s: Processing, st: Store, e: Event)
    ensures var o := Next(s, st, e);
      (o.store != st || o.goTo.Some?) ==> e.StartOverClicked? && CanStartOver(s) && o == StartOver(s, st)
  {
  }
}
