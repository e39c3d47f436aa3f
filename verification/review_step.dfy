/** The second page of the multi-page wizard (`ReviewStep.jsx`): it shows
    the stored picture (sending the user back to the capture page when there
    is none), lets the user pick one of two face models, and on Continue
    stores the chosen model's id for the processing page. */
module ReviewStepPage {
  import opened Common
  import Router
  import opened Storage

  /** A face model on offer (descriptions and preview images are not
      modelled). */
  datatype FaceModel = FaceModel(id: string, name: string)

  /** The models on offer, in display order. */
  const Models: seq<FaceModel> := [FaceModel("model1", "Standard"), FaceModel("model2", "Premium")]

  /** The selection before any click. */
  const DefaultModel := "model1"

  /** The page's state. */
  datatype ReviewStep = ReviewStep(capturedImage: Option<string>, selectedModel: string)

  /** `id` is the id of a model on offer. */
  predicate Offered(id: string) {
    exists i :: 0 <= i < |Models| && Models[i].id == id
  }

  /** The selection is one of the offered ids. */
  predicate Valid(r: ReviewStep) {
    Offered(r.selectedModel)
  }

  /** The mount effect: with no picture in the store the page sends the user
      back to the capture page; otherwise it shows the stored picture. The
      store is only read. */
  function Mount(st: Store): (o: Outcome<ReviewStep>)
    ensures o.store == st && o.state.selectedModel == DefaultModel
    ensures !Has(st, CapturedImageKey) <==> o.goTo == Some(Router.CaptureStep)
    ensures !Has(st, CapturedImageKey) ==> o.state.capturedImage.None?
    ensures Has(st, CapturedImageKey) ==> o.goTo.None? && o.state.capturedImage == Some(st[CapturedImageKey])
  {
    var image := Get(st, CapturedImageKey);
    if !Truthy(image) then Outcome(ReviewStep(None, DefaultModel), st, Some(Router.CaptureStep))
    else Outcome(ReviewStep(image, DefaultModel), st, None)
  }

  /** A click on the `i`-th model card selects that model. */
  function Select(r: ReviewStep, i: nat): (r': ReviewStep)
    requires i < |Models|
    ensures Valid(r') && r'.selectedModel == Models[i].id
    ensures r'.capturedImage == r.capturedImage
  {
    r.(selectedModel := Models[i].id)
  }

  /** `handleBack`: to the capture page, store untouched. */
  function Back(r: ReviewStep, st: Store): (o: Outcome<ReviewStep>)
    ensures o.state == r && o.store == st && o.goTo == Some(Router.CaptureStep)
  {
    Outcome(r, st, Some(Router.CaptureStep))
  }

  /** `handleContinue`: the selection is stored under the model key (no
      other key changes), then the processing page is opened. */
  function Continue(r: ReviewStep, st: Store): (o: Outcome<ReviewStep>)
    ensures o.state == r && o.goTo == Some(Router.ProcessingStep)
    ensures Get(o.store, SelectedModelKey) == Some(r.selectedModel)
    ensures forall k :: k != SelectedModelKey ==> Get(o.store, k) == Get(st, k)
  {
    Outcome(r, Put(st, SelectedModelKey, r.selectedModel), Some(Router.ProcessingStep))
  }

  /** `handleContinue` when the browser may refuse the write:
      `localStorage.setItem` throws when the quota is full or storage is
      disabled, nothing catches it, and so nothing is stored and the page
      does not navigate. `accepted` says whether the write is taken;
      `Continue` is that case. */
  function HandleContinue(r: ReviewStep, st: Store, accepted: bool): (o: Outcome<ReviewStep>)
    ensures o.state == r
    ensures o.goTo.Some? <==> accepted
    ensures accepted ==> o == Continue(r, st)
    ensures !accepted ==> o.store == st
  {
    if accepted then Continue(r, st) else Outcome(r, st, None)
  }

  /** The initial selection is the first model, and every selection the page
      can reach is an offered id, so Continue only ever stores an offered
      id, and it is never empty. */
  lemma SelectionAlwaysOffered(st: Store, clicks: seq<nat>)
    requires forall k :: 0 <= k < |clicks| ==> clicks[k] < |Models|
    ensures Valid(SelectAll(Mount(st).state, clicks))
    ensures Mount(st).state.selectedModel == Models[0].id
    ensures var r := SelectAll(Mount(st).state, clicks);
      Offered(Continue(r, st).store[SelectedModelKey]) && Has(Continue(r, st).store, SelectedModelKey)
  {
    var r0 := Mount(st).state;
    assert Models[0].id == r0.selectedModel;
    SelectAllValid(r0, clicks);
    var r := SelectAll(r0, clicks);
    var i :| 0 <= i < |Models| && Models[i].id == r.selectedModel;
    assert r.selectedModel != "" by {
      assert |Models[i].id| == 6;
    }
  }

  /** A series of clicks on model cards. */
  function SelectAll(r: ReviewStep, clicks: seq<nat>): ReviewStep
    requires forall k :: 0 <= k < |clicks| ==> clicks[k] < |Models|
    decreases |clicks|
  {
    if clicks == [] then r else SelectAll(Select(r, clicks[0]), clicks[1..])
  }

  /** Clicks keep the selection offered: the last click decides it. */
  lemma {:induction false} SelectAllValid(r: ReviewStep, clicks: seq<nat>)
    requires Valid(r)
    requires forall k :: 0 <= k < |clicks| ==> clicks[k] < |Models|
    ensures Valid(SelectAll(r, clicks))
    ensures clicks != [] ==> SelectAll(r, clicks).selectedModel == Models[clicks[|clicks| - 1]].id
    ensures SelectAll(r, clicks).capturedImage == r.capturedImage
    decreases |clicks|
  {
    if clicks != [] {
      var tail := clicks[1..];
      assert forall k :: 0 <= k < |tail| ==> tail[k] < |Models| by {
        forall k | 0 <= k < |tail| ensures tail[k] < |Models| { assert tail[k] == clicks[k + 1]; }
      }
      SelectAllValid(Select(r, clicks[0]), tail);
      if tail != [] { assert tail[|tail| - 1] == clicks[|clicks| - 1]; }
    }
  }
}
