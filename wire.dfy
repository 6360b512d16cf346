/** The backend's wire shapes, as the client holds them, and the two pieces of JavaScript
    value semantics the components rely on: string truthiness and the `a || b` fallback. */
module Wire {
  import opened Wrappers

  /** One recognized food item. Quantities and calories are exact reals here. */
  datatype Food = Food(name: string, quantity: real, unit: string, calories: real)

  /** The body of a successful recognition request. */
  datatype RecognitionResult = RecognitionResult(foods: seq<Food>, total_calories: real)

  /** A stored meal as the meal list receives it. */
  datatype Meal = Meal(
    id: int,
    user_id: int,
    meal_type: string,
    food_items: seq<Food>,
    total_calories: real,
    notes: Option<string>,
    date: string)

  /** One `[key, calories]` pair of a JSON object, in the order `Object.entries` lists it. */
  datatype Entry = Entry(key: string, calories: real)

  /** The daily aggregate; `meal_breakdown` is absent or the object's entries in order. */
  datatype DailyStats = DailyStats(
    total_calories: real,
    meal_breakdown: Option<seq<Entry>>,
    meal_count: int)

  /** The weekly aggregate; `daily_totals` is absent or the object's entries in order. */
  datatype WeeklyStats = WeeklyStats(
    weekly_total: real,
    average_daily: real,
    daily_totals: Option<seq<Entry>>)

  /** JavaScript truthiness of a possibly-absent string: present and non-empty. */
  predicate Truthy(s: Option<string>) {
    s.Some? && s.value != ""
  }

  /** `detail || fallback` for a possibly-absent server message. */
  function OrElse(detail: Option<string>, fallback: string): (msg: string)
    ensures Truthy(detail) ==> msg == detail.value
    ensures !Truthy(detail) ==> msg == fallback
  {
    if Truthy(detail) then detail.value else fallback
  }
}
