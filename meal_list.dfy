/** The meal list view (src/components/MealList.jsx): the fetch handler's effect on the view
    state, the category icon and label lookups with their fallbacks, and what the view renders
    for a list of meals. Date formatting is not modelled: a card carries the raw date. */
module MealListing {
  import opened Wrappers
  import opened Wire

  const LoadFailedText := "Failed to load meals. Please try again."
  const PlateIcon := "\U{1F37D}\U{FE0F}"

  /** The category icon table. */
  const MealTypeEmoji: map<string, string> := map[
    "breakfast" := "\U{1F305}",
    "lunch" := "\U{2600}\U{FE0F}",
    "dinner" := "\U{1F319}",
    "snack" := "\U{1F36A}"]

  /** The category label table. */
  const MealTypeLabels: map<string, string> := map[
    "breakfast" := "Breakfast",
    "lunch" := "Lunch",
    "dinner" := "Dinner",
    "snack" := "Snack"]

  /** The four categories: the keys of the label table, which the icon table shares. */
  predicate IsKnownMealType(t: string) {
    t in MealTypeLabels
  }

  lemma TablesShareCategories()
    ensures MealTypeEmoji.Keys == MealTypeLabels.Keys
  {
  }

  /** The same word with its first letter upper-cased (ASCII letters only). */
  function Capitalized(t: string): string {
    if t != [] && 'a' <= t[0] <= 'z' then [(t[0] as int - 32) as char] + t[1..] else t
  }

  /** `mealTypeEmoji[t] || plate`: each known category has its own icon; anything else gets
      the generic plate, which no known category uses. */
  function MealTypeIcon(t: string): (icon: string)
    ensures IsKnownMealType(t) ==> icon == MealTypeEmoji[t]
    ensures icon == PlateIcon <==> !IsKnownMealType(t)
  {
    if t in MealTypeEmoji && MealTypeEmoji[t] != "" then MealTypeEmoji[t] else PlateIcon
  }

  /** `mealTypeLabel[t] || t`: a known category is shown capitalized; anything else is shown
      as the raw string, and only then is the label the raw string. */
  function MealTypeLabel(t: string): (name: string)
    ensures IsKnownMealType(t) ==> name == Capitalized(t)
    ensures name == t <==> !IsKnownMealType(t)
  {
    if t in MealTypeLabels && MealTypeLabels[t] != "" then MealTypeLabels[t] else t
  }

  /** `response.data.meals || []`: an absent or null list reads as empty. */
  function MealsOf(body: Option<seq<Meal>>): (meals: seq<Meal>)
    ensures body.Some? ==> meals == body.value
    ensures body.None? ==> meals == []
  {
    if body.Some? then body.value else []
  }

  /** A food line of a card: the item's name and calories. */
  datatype FoodLine = FoodLine(name: string, calories: real)

  /** What one meal card shows. */
  datatype MealCard = MealCard(
    key: int,
    icon: string,
    caption: string,
    totalCalories: real,
    items: seq<FoodLine>,
    notesLine: Option<string>,
    date: string)

  /** The notes line is shown only for truthy notes, and then shows them as they are. */
  function NotesLine(notes: Option<string>): (line: Option<string>)
    ensures line.Some? <==> Truthy(notes)
    ensures line.Some? ==> line == notes
  {
    if Truthy(notes) then notes else None
  }

  function FoodLines(items: seq<Food>): (lines: seq<FoodLine>)
    ensures |lines| == |items|
    ensures forall i :: 0 <= i < |items| ==>
      lines[i].name == items[i].name && lines[i].calories == items[i].calories
  {
    seq(|items|, i requires 0 <= i < |items| => FoodLine(items[i].name, items[i].calories))
  }

  /** One card per meal: icon and label from the lookups, the stored total (not recomputed),
      every food item in order, and the notes line. */
  function CardFor(m: Meal): (card: MealCard)
    ensures card.key == m.id && card.totalCalories == m.total_calories
    ensures card.icon == MealTypeIcon(m.meal_type) && card.caption == MealTypeLabel(m.meal_type)
    ensures card.items == FoodLines(m.food_items) && card.notesLine == NotesLine(m.notes)
    ensures card.date == m.date
  {
    MealCard(m.id, MealTypeIcon(m.meal_type), MealTypeLabel(m.meal_type), m.total_calories,
             FoodLines(m.food_items), NotesLine(m.notes), m.date)
  }

  /** The list area: the empty-state message, or the cards. */
  datatype MealListBody = EmptyState | Cards(cards: seq<MealCard>)

  /** The empty state is shown iff there are no meals; otherwise exactly one card per meal,
      in list order. */
  function ListBody(meals: seq<Meal>): (body: MealListBody)
    ensures body == EmptyState <==> |meals| == 0
    ensures body.Cards? ==>
      |body.cards| == |meals| && forall i :: 0 <= i < |meals| ==> body.cards[i] == CardFor(meals[i])
  {
    if |meals| == 0 then EmptyState
    else Cards(seq(|meals|, i requires 0 <= i < |meals| => CardFor(meals[i])))
  }

  /** The whole view: a loading message while a fetch is in flight, else the error banner
      (only for a truthy error) above the list area. */
  datatype MealListScreen = LoadingMeals | MealsShown(errorBanner: Option<string>, body: MealListBody)

  /** The query parameters of one fetch. */
  datatype MealsQuery = MealsQuery(user_id: int, date: string)

  class MealList {
    const userId: int
    var meals: seq<Meal>
    var loading: bool
    var error: Option<string>
    var selectedDate: string

    /** Mounting the view: no meals, loading, no error, the date is today's (passed in). */
    constructor (userId: int, today: string)
      ensures this.userId == userId && selectedDate == today
      ensures meals == [] && loading && error == None
    {
      this.userId := userId;
      meals := [];
      loading := true;
      error := None;
      selectedDate := today;
    }

    /** The date input's change handler; the effect then runs `FetchMeals` again. */
    method SelectDate(date: string)
      modifies this
      ensures selectedDate == date
      ensures meals == old(meals) && loading == old(loading) && error == old(error)
    {
      selectedDate := date;
    }

    /** `fetchMeals` up to the request: loading, no error, the list untouched, and the query
        for the current user and date. */
    method FetchMeals() returns (query: MealsQuery)
      modifies this
      ensures loading && error == None
      ensures meals == old(meals) && selectedDate == old(selectedDate)
      ensures query == MealsQuery(userId, selectedDate)
    {
      loading := true;
      error := None;
      query := MealsQuery(userId, selectedDate);
    }

    /** `fetchMeals` from the response to the `finally`: success replaces the list (an absent
        field reads as empty); failure sets the fixed message and keeps the previous list. */
    method FinishFetchMeals(outcome: Response<Option<seq<Meal>>>)
      modifies this
      ensures !loading && selectedDate == old(selectedDate)
      ensures outcome.Ok? ==> meals == MealsOf(outcome.body) && error == old(error)
      ensures outcome.Failed? ==> meals == old(meals) && error == Some(LoadFailedText)
    {
      match outcome {
        case Ok(body) =>
          meals := MealsOf(body);
        case Failed(_) =>
          error := Some(LoadFailedText);
      }
      loading := false;
    }

    function Screen(): (screen: MealListScreen)
      reads this
      ensures screen == LoadingMeals <==> loading
      ensures screen.MealsShown? ==>
        && (screen.errorBanner.Some? <==> Truthy(error))
        && (screen.errorBanner.Some? ==> screen.errorBanner == error)
        && screen.body == ListBody(meals)
    {
      if loading then LoadingMeals
      else MealsShown(if Truthy(error) then error else None, ListBody(meals))
    }
  }
}
