/** The capture view (src/components/CameraCapture.jsx): five pieces of view state and the
    handlers that change them. The asynchronous recognition handler is split into the step
    that runs before the request (`RecognizeFood`) and the step that runs when it settles
    (`FinishRecognizeFood`). Each handler is specified by a transition function on a
    `CaptureState` value; the properties are proved about those functions. */
module CaptureFlow {
  import opened Wrappers
  import opened Wire

  const RecognizeFailedText := "Failed to recognize food. Please try again."

  /** The five `useState` fields of the view. */
  datatype CaptureState = CaptureState(
    image: Option<string>,
    recognizedFoods: Option<RecognitionResult>,
    loading: bool,
    error: Option<string>,
    showMealForm: bool)

  const Initial := CaptureState(None, None, false, None, false)

  /** The invariant every handler keeps: a recognition result is held exactly when the
      confirmation form flag is raised, because the two are set and cleared together. */
  predicate Consistent(s: CaptureState) {
    s.recognizedFoods.Some? <==> s.showMealForm
  }

  /** `capture`: a falsy screenshot changes nothing; otherwise only the image changes. */
  function Captured(s: CaptureState, screenshot: Option<string>): (t: CaptureState)
    ensures !Truthy(screenshot) ==> t == s
    ensures Truthy(screenshot) ==> t.image == screenshot && t.(image := s.image) == s
  {
    if Truthy(screenshot) then s.(image := screenshot) else s
  }

  /** `handleFileUpload` once the reader has finished: without a selected file nothing
      changes; otherwise the reader's result, whatever it is, becomes the image. */
  function FileUploaded(s: CaptureState, fileSelected: bool, readerResult: Option<string>): (t: CaptureState)
    ensures !fileSelected ==> t == s
    ensures fileSelected ==> t.image == readerResult && t.(image := s.image) == s
  {
    if fileSelected then s.(image := readerResult) else s
  }

  /** The synchronous part of `recognizeFood`: without an image nothing changes; otherwise
      the view starts loading with no error, and nothing else changes. */
  function RecognizeBegun(s: CaptureState): (t: CaptureState)
    ensures !Truthy(s.image) ==> t == s
    ensures Truthy(s.image) ==> t.loading && t.error == None
    ensures t.image == s.image && t.recognizedFoods == s.recognizedFoods
    ensures t.showMealForm == s.showMealForm
  {
    if Truthy(s.image) then s.(loading := true, error := None) else s
  }

  /** The settled part of `recognizeFood`. Success stores the result exactly as returned and
      raises the form flag; failure records the server's message or the generic one and
      keeps the image, so the user can retry. Either way loading ends. */
  function RecognizeFinished(s: CaptureState, outcome: Response<RecognitionResult>): (t: CaptureState)
    ensures !t.loading && t.image == s.image
    ensures outcome.Ok? ==>
      t.recognizedFoods == Some(outcome.body) && t.showMealForm && t.error == s.error
    ensures outcome.Failed? ==>
      && t.error == Some(OrElse(outcome.detail, RecognizeFailedText))
      && t.recognizedFoods == s.recognizedFoods
      && t.showMealForm == s.showMealForm
  {
    match outcome
    case Ok(result) => s.(recognizedFoods := Some(result), showMealForm := true, loading := false)
    case Failed(detail) => s.(error := Some(OrElse(detail, RecognizeFailedText)), loading := false)
  }

  /** `resetCapture`: back to no image, no result, no error and no form; `loading` is not
      touched. */
  function CaptureReset(s: CaptureState): (t: CaptureState)
    ensures t.image == None && t.recognizedFoods == None && t.error == None
    ensures !t.showMealForm && t.loading == s.loading
  {
    s.(image := None, recognizedFoods := None, error := None, showMealForm := false)
  }

  /** Every event the view reacts to, in any order, including a recognition that settles
      after the user has reset or recaptured. */
  datatype CaptureEvent =
    | Screenshot(screenshot: Option<string>)
    | FileRead(fileSelected: bool, readerResult: Option<string>)
    | RecognizeStarted
    | RecognizeSettled(outcome: Response<RecognitionResult>)
    | ResetPressed
    | MealSaved

  function Apply(s: CaptureState, e: CaptureEvent): CaptureState {
    match e
    case Screenshot(shot) => Captured(s, shot)
    case FileRead(selected, result) => FileUploaded(s, selected, result)
    case RecognizeStarted => RecognizeBegun(s)
    case RecognizeSettled(outcome) => RecognizeFinished(s, outcome)
    case ResetPressed => CaptureReset(s)
    case MealSaved => CaptureReset(s)
  }

  function Run(s: CaptureState, events: seq<CaptureEvent>): CaptureState
    decreases |events|
  {
    if events == [] then s else Run(Apply(s, events[0]), events[1..])
  }

  /** One handler keeps the invariant, whatever the event. */
  lemma ApplyKeepsConsistent(s: CaptureState, e: CaptureEvent)
    requires Consistent(s)
    ensures Consistent(Apply(s, e))
  {
  }

  /** Any sequence of handler runs and request completions, interleaved in any order, keeps
      the invariant. */
  lemma {:induction false} RunKeepsConsistent(s: CaptureState, events: seq<CaptureEvent>)
    requires Consistent(s)
    ensures Consistent(Run(s, events))
    decreases |events|
  {
    if events != [] {
      ApplyKeepsConsistent(s, events[0]);
      RunKeepsConsistent(Apply(s, events[0]), events[1..]);
    }
  }

  /** A failed recognition leaves the image in place, so pressing the button again starts a
      new request without recapturing. */
  lemma RetryAfterFailure(s: CaptureState, detail: Option<string>)
    requires Truthy(s.image)
    ensures var t := RecognizeFinished(RecognizeBegun(s), Failed(detail));
      t.image == s.image && RecognizeBegun(t).loading && RecognizeBegun(t).error == None
  {
  }

  /** What the confirmation form is given when it is shown. */
  datatype MealFormProps = MealFormProps(userId: int, foods: seq<Food>, totalCalories: real, image: Option<string>)

  /** The form is rendered iff the flag is raised and a result is held; it receives the
      view's user id, the result's foods and total unchanged, and the held image. */
  function ShownMealForm(s: CaptureState, userId: int): (props: Option<MealFormProps>)
    ensures props.Some? <==> s.showMealForm && s.recognizedFoods.Some?
    ensures props.Some? ==>
      && props.value.userId == userId
      && props.value.foods == s.recognizedFoods.value.foods
      && props.value.totalCalories == s.recognizedFoods.value.total_calories
      && props.value.image == s.image
  {
    if s.showMealForm && s.recognizedFoods.Some? then
      Some(MealFormProps(userId, s.recognizedFoods.value.foods, s.recognizedFoods.value.total_calories, s.image))
    else None
  }

  /** Under the invariant, the form is shown exactly when the flag is raised; the panel that
      lists a held result without the form (result held, flag down) is never rendered. */
  lemma FormShownIffFlag(s: CaptureState, userId: int)
    requires Consistent(s)
    ensures ShownMealForm(s, userId).Some? <==> s.showMealForm
    ensures !(s.recognizedFoods.Some? && !s.showMealForm)
  {
  }

  /** The normal flow from a fresh view: take a photo, start recognition, receive a result;
      the form then shows exactly that result's foods and total, with the photo and the user id. */
  lemma {:induction false} CaptureRecognizeShowsForm(userId: int, shot: string, result: RecognitionResult)
    requires shot != ""
    ensures Run(Initial, [Screenshot(Some(shot)), RecognizeStarted, RecognizeSettled(Ok(result))]).loading == false
    ensures ShownMealForm(Run(Initial, [Screenshot(Some(shot)), RecognizeStarted, RecognizeSettled(Ok(result))]), userId)
            == Some(MealFormProps(userId, result.foods, result.total_calories, Some(shot)))
  {
    var events := [Screenshot(Some(shot)), RecognizeStarted, RecognizeSettled(Ok(result))];
    var s1 := Apply(Initial, events[0]);
    var s2 := Apply(s1, events[1]);
    var s3 := Apply(s2, events[2]);
    assert events[1..][1..][1..] == [];
    assert Run(s3, []) == s3;
    assert Run(Initial, events) == s3 by {
      assert Run(Initial, events) == Run(s1, events[1..]);
      assert Run(s1, events[1..]) == Run(s2, events[1..][1..]);
      assert Run(s2, events[1..][1..]) == Run(s3, events[1..][1..][1..]);
    }
  }

  /** The view itself: the five fields, updated in place by the handlers. */
  class CameraCapture {
    const userId: int
    var image: Option<string>
    var recognizedFoods: Option<RecognitionResult>
    var loading: bool
    var error: Option<string>
    var showMealForm: bool

    function State(): CaptureState
      reads this
    {
      CaptureState(image, recognizedFoods, loading, error, showMealForm)
    }

    predicate Valid()
      reads this
    {
      Consistent(State())
    }

    constructor (userId: int)
      ensures Valid() && State() == Initial && this.userId == userId
    {
      this.userId := userId;
      image, recognizedFoods, loading, error, showMealForm := None, None, false, None, false;
    }

    /** `capture`, with the webcam's screenshot passed in. */
    method Capture(screenshot: Option<string>)
      requires Valid()
      modifies this
      ensures Valid() && State() == Captured(old(State()), screenshot)
    {
      if Truthy(screenshot) {
        image := screenshot;
      }
    }

    /** `handleFileUpload`, with the file reader's eventual result passed in. */
    method HandleFileUpload(fileSelected: bool, readerResult: Option<string>)
      requires Valid()
      modifies this
      ensures Valid() && State() == FileUploaded(old(State()), fileSelected, readerResult)
    {
      if fileSelected {
        image := readerResult;
      }
    }

    /** `recognizeFood` up to the request; `started` says whether a request is sent. */
    method RecognizeFood() returns (started: bool)
      requires Valid()
      modifies this
      ensures Valid() && State() == RecognizeBegun(old(State()))
      ensures started == Truthy(old(image))
    {
      if !Truthy(image) {
        return false;
      }
      loading := true;
      error := None;
      started := true;
    }

    /** `recognizeFood` from the request's completion to the `finally`. */
    method FinishRecognizeFood(outcome: Response<RecognitionResult>)
      requires Valid()
      modifies this
      ensures Valid() && State() == RecognizeFinished(old(State()), outcome)
    {
      match outcome {
        case Ok(result) =>
          recognizedFoods := Some(result);
          showMealForm := true;
        case Failed(detail) =>
          error := Some(OrElse(detail, RecognizeFailedText));
      }
      loading := false;
    }

    method ResetCapture()
      requires Valid()
      modifies this
      ensures Valid() && State() == CaptureReset(old(State()))
    {
      image := None;
      recognizedFoods := None;
      error := None;
      showMealForm := false;
    }

    /** The form's save callback: exactly a reset. */
    method HandleMealSaved()
      requires Valid()
      modifies this
      ensures Valid() && State() == CaptureReset(old(State()))
    {
      ResetCapture();
    }
  }
}
