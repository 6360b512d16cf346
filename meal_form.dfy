/** The confirmation form (src/components/MealForm.jsx): the meal payload it posts and the
    submit state around it. The asynchronous `handleSubmit` is split into the part before the
    request (`HandleSubmit`, which also yields the payload) and the part after it settles
    (`FinishSubmit`, which yields the callbacks it invokes, in order). */
module MealSubmit {
  import opened Wrappers
  import opened Wire

  const DefaultMealType := "snack"
  const SaveFailedText := "Failed to save meal. Please try again."
  const MealsRoute := "/meals"

  /** The JSON body posted to create a meal. */
  datatype MealPayload = MealPayload(
    user_id: int,
    meal_type: string,
    food_items: seq<Food>,
    total_calories: real,
    notes: Option<string>)

  /** `mealData`: everything passes through verbatim, except that `notes || null` turns the
      empty string, and only the empty string, into null. */
  function MealData(userId: int, mealType: string, foods: seq<Food>, total: real, notes: string): (p: MealPayload)
    ensures p.user_id == userId && p.meal_type == mealType
    ensures p.food_items == foods && p.total_calories == total
    ensures p.notes == None <==> notes == ""
    ensures p.notes != None ==> p.notes.value == notes
  {
    MealPayload(userId, mealType, foods, total, if notes != "" then Some(notes) else None)
  }

  /** The notes text a payload stands for (null reads back as the empty field). */
  function NotesText(p: MealPayload): string {
    if p.notes.Some? then p.notes.value else ""
  }

  /** No notes text is lost: reading the payload back gives the field's text, blank or
      whitespace-only text included. */
  lemma NotesRoundTrip(userId: int, mealType: string, foods: seq<Food>, total: real, notes: string)
    ensures NotesText(MealData(userId, mealType, foods, total, notes)) == notes
  {
  }

  /** A callback the form invokes. */
  datatype Callback = OnSave | Navigate(route: string) | OnCancel

  class MealForm {
    const userId: int
    const recognizedFoods: seq<Food>
    const totalCalories: real
    const image: Option<string>
    var mealType: string
    var notes: string
    var loading: bool
    var error: Option<string>

    /** Mounting the form: category "snack", empty notes, not loading, no error. */
    constructor (userId: int, recognizedFoods: seq<Food>, totalCalories: real, image: Option<string>)
      ensures this.userId == userId && this.recognizedFoods == recognizedFoods
      ensures this.totalCalories == totalCalories && this.image == image
      ensures mealType == DefaultMealType && notes == "" && !loading && error == None
    {
      this.userId := userId;
      this.recognizedFoods := recognizedFoods;
      this.totalCalories := totalCalories;
      this.image := image;
      mealType := DefaultMealType;
      notes := "";
      loading := false;
      error := None;
    }

    /** The category select's change handler. */
    method SelectMealType(t: string)
      modifies this
      ensures mealType == t && notes == old(notes)
      ensures loading == old(loading) && error == old(error)
    {
      mealType := t;
    }

    /** The notes field's change handler. */
    method EditNotes(text: string)
      modifies this
      ensures notes == text && mealType == old(mealType)
      ensures loading == old(loading) && error == old(error)
    {
      notes := text;
    }

    /** The Save button is enabled exactly when no submission is in flight. */
    function SaveEnabled(): (enabled: bool)
      reads this
      ensures enabled <==> !loading
    {
      !loading
    }

    /** `handleSubmit` up to the request. It has no guard of its own: it starts loading, clears
        the error and builds the payload from the current fields and the props. */
    method HandleSubmit() returns (payload: MealPayload)
      modifies this
      ensures loading && error == None
      ensures mealType == old(mealType) && notes == old(notes)
      ensures payload == MealData(userId, mealType, recognizedFoods, totalCalories, notes)
    {
      loading := true;
      error := None;
      payload := MealData(userId, mealType, recognizedFoods, totalCalories, notes);
    }

    /** `handleSubmit` from the request's completion to the `finally`. On success the save
        callback runs and then the view navigates to the meal list; on failure the message is
        shown and the fields stay as they were, ready to resubmit. Loading ends either way. */
    method FinishSubmit(outcome: Response<()>) returns (calls: seq<Callback>)
      modifies this
      ensures !loading && mealType == old(mealType) && notes == old(notes)
      ensures outcome.Ok? ==> calls == [OnSave, Navigate(MealsRoute)] && error == old(error)
      ensures outcome.Failed? ==>
        calls == [] && error == Some(OrElse(outcome.detail, SaveFailedText))
    {
      match outcome {
        case Ok(_) =>
          calls := [OnSave, Navigate(MealsRoute)];
        case Failed(detail) =>
          error := Some(OrElse(detail, SaveFailedText));
          calls := [];
      }
      loading := false;
    }

    /** The Cancel button invokes the cancel callback and submits nothing. */
    method Cancel() returns (calls: seq<Callback>)
      ensures calls == [OnCancel]
    {
      calls := [OnCancel];
    }
  }
}
