/** The statistics view (src/components/DailyStats.jsx): which request the mode selects, the
    fetch handlers' effect on the view state, and what the daily and weekly panels derive
    from the fetched aggregates. Calories are exact reals; date formatting is not modelled. */
module Stats {
  import opened Wrappers
  import opened Wire
  import opened DateOrder

  const CalorieGoal: real := 2000.0
  const DailyMode := "daily"
  const WeeklyMode := "weekly"
  const DailyFailedText := "Failed to load daily stats. Please try again."
  const WeeklyFailedText := "Failed to load weekly stats. Please try again."

  /** The two aggregate requests and their query parameters. */
  datatype StatsRequest =
    | DailyRequest(user_id: int, target_date: string)
    | WeeklyRequest(user_id: int, week_start: string)

  /** The effect's dispatch: mode "daily" asks for the daily aggregate of the selected date;
      any other mode asks for the weekly aggregate starting at the selected date. */
  function RequestFor(mode: string, userId: int, date: string): (req: StatsRequest)
    ensures req.DailyRequest? <==> mode == DailyMode
    ensures req.user_id == userId
    ensures req.DailyRequest? ==> req.target_date == date
    ensures req.WeeklyRequest? ==> req.week_start == date
  {
    if mode == DailyMode then DailyRequest(userId, date) else WeeklyRequest(userId, date)
  }

  /** The progress bar's width in percent, `min(total / goal * 100, 100)`: never above 100,
      exactly 100 from the goal on, proportional below it, and not clamped below zero. */
  function ProgressPercent(total: real): (pct: real)
    ensures pct <= 100.0
    ensures total >= CalorieGoal ==> pct == 100.0
    ensures total <= CalorieGoal ==> pct * CalorieGoal == total * 100.0
    ensures total < 0.0 ==> pct < 0.0
  {
    var raw := total / CalorieGoal * 100.0;
    if raw < 100.0 then raw else 100.0
  }

  /** More calories never shorten the bar. */
  lemma ProgressMonotone(a: real, b: real)
    requires a <= b
    ensures ProgressPercent(a) <= ProgressPercent(b)
  {
  }

  /** 1500 kcal fill three quarters of the bar; 3000 kcal fill it, capped. */
  lemma ProgressExamples()
    ensures ProgressPercent(1500.0) == 75.0
    ensures ProgressPercent(3000.0) == 100.0
  {
  }

  /** The `'s'` after "meal": present exactly when the count is not 1. */
  function MealCountSuffix(count: int): (suffix: string)
    ensures suffix == "s" <==> count != 1
    ensures suffix == "" <==> count == 1
  {
    if count != 1 then "s" else ""
  }

  function Digit(d: nat): (c: char)
    requires d < 10
    ensures '0' <= c <= '9' && c as int - '0' as int == d
  {
    ('0' as int + d) as char
  }

  /** The decimal text JavaScript renders for a non-negative integer. */
  function NatText(n: nat): (text: string)
    ensures |text| >= 1
    ensures forall i :: 0 <= i < |text| ==> '0' <= text[i] <= '9'
    ensures n >= 10 ==> text[0] != '0'
    decreases n
  {
    if n < 10 then [Digit(n)] else NatText(n / 10) + [Digit(n % 10)]
  }

  /** The number a string of decimal digits denotes. */
  function DigitsValue(text: string): nat
    requires forall i :: 0 <= i < |text| ==> '0' <= text[i] <= '9'
    decreases |text|
  {
    if text == [] then 0
    else DigitsValue(text[..|text| - 1]) * 10 + (text[|text| - 1] as int - '0' as int)
  }

  /** The rendered count reads back as the count. */
  lemma {:induction false} NatTextRoundTrip(n: nat)
    ensures DigitsValue(NatText(n)) == n
    decreases n
  {
    var text := NatText(n);
    if n >= 10 {
      NatTextRoundTrip(n / 10);
      assert text[..|text| - 1] == NatText(n / 10);
    } else {
      assert text[..|text| - 1] == [];
    }
  }

  function IntText(n: int): string {
    if n < 0 then "-" + NatText(-n) else NatText(n)
  }

  /** The line under the daily panel, `{meal_count} meal{s} logged`. */
  function MealCountLine(count: int): (line: string)
    ensures count == 1 ==> line == IntText(1) + " meal logged"
    ensures count != 1 ==> line == IntText(count) + " meals logged"
  {
    var line := IntText(count) + " meal" + MealCountSuffix(count) + " logged";
    assert count == 1 ==> line == IntText(1) + " meal logged";
    assert count != 1 ==> line == IntText(count) + " meals logged";
    line
  }

  lemma MealCountLineExamples()
    ensures MealCountLine(1) == "1 meal logged"
    ensures MealCountLine(0) == "0 meals logged"
    ensures MealCountLine(2) == "2 meals logged"
  {
  }

  /** `Math.round` on an exact real: the nearest integer, halves rounded up. */
  function RoundHalfUp(x: real): (n: int)
    ensures n as real - 0.5 <= x < n as real + 0.5
  {
    (x + 0.5).Floor
  }

  /** The rounding is determined: the only integer within half a unit below or strictly less
      than half a unit above `x`. */
  lemma RoundHalfUpUnique(x: real, m: int)
    requires m as real - 0.5 <= x < m as real + 0.5
    ensures RoundHalfUp(x) == m
  {
  }

  /** The daily breakdown is listed only when the mapping is present and non-empty, and then
      in the order it arrived: the client does not re-sort it. */
  function BreakdownRows(breakdown: Option<seq<Entry>>): (rows: Option<seq<Entry>>)
    ensures rows.Some? <==> breakdown.Some? && |breakdown.value| > 0
    ensures rows.Some? ==> rows.value == breakdown.value
  {
    if breakdown.Some? && |breakdown.value| > 0 then breakdown else None
  }

  /** The weekly per-day list is shown only when the mapping is present and non-empty, and
      then holds exactly its entries, ascending by date key. */
  function WeekRows(totals: Option<seq<Entry>>): (rows: Option<seq<Entry>>)
    ensures rows.Some? <==> totals.Some? && |totals.value| > 0
    ensures rows.Some? ==> SortedByKey(rows.value) && multiset(rows.value) == multiset(totals.value)
  {
    if totals.Some? && |totals.value| > 0 then Some(SortByDate(totals.value)) else None
  }

  /** What the daily panel shows. */
  datatype DailyPanel = DailyPanel(
    totalCalories: real,
    goal: real,
    progressPercent: real,
    breakdown: Option<seq<Entry>>,
    countLine: string)

  function DailyPanelFor(d: DailyStats): (panel: DailyPanel)
    ensures panel.totalCalories == d.total_calories && panel.goal == CalorieGoal
    ensures panel.progressPercent == ProgressPercent(d.total_calories) && panel.progressPercent <= 100.0
    ensures panel.breakdown == BreakdownRows(d.meal_breakdown)
    ensures panel.countLine == MealCountLine(d.meal_count)
  {
    DailyPanel(d.total_calories, CalorieGoal, ProgressPercent(d.total_calories),
               BreakdownRows(d.meal_breakdown), MealCountLine(d.meal_count))
  }

  /** What the weekly panel shows: the rounded total and average, and the per-day rows. */
  datatype WeeklyPanel = WeeklyPanel(weekTotal: int, averageDaily: int, days: Option<seq<Entry>>)

  function WeeklyPanelFor(w: WeeklyStats): (panel: WeeklyPanel)
    ensures panel.weekTotal == RoundHalfUp(w.weekly_total)
    ensures panel.averageDaily == RoundHalfUp(w.average_daily)
    ensures panel.days == WeekRows(w.daily_totals)
  {
    WeeklyPanel(RoundHalfUp(w.weekly_total), RoundHalfUp(w.average_daily), WeekRows(w.daily_totals))
  }

  /** The whole view: a loading message, or the section of the current mode with its error
      banner and its panel; a mode that is neither "daily" nor "weekly" shows neither section. */
  datatype StatsScreen =
    | LoadingStats
    | DailySection(errorBanner: Option<string>, daily: Option<DailyPanel>)
    | WeeklySection(errorBanner: Option<string>, weekly: Option<WeeklyPanel>)
    | NoSection

  class DailyStatsView {
    const userId: int
    var dailyStats: Option<DailyStats>
    var weeklyStats: Option<WeeklyStats>
    var loading: bool
    var error: Option<string>
    var selectedDate: string
    var viewMode: string

    /** Mounting the view: no data, loading, no error, daily mode, today's date (passed in). */
    constructor (userId: int, today: string)
      ensures this.userId == userId && selectedDate == today && viewMode == DailyMode
      ensures dailyStats == None && weeklyStats == None && loading && error == None
    {
      this.userId := userId;
      dailyStats := None;
      weeklyStats := None;
      loading := true;
      error := None;
      selectedDate := today;
      viewMode := DailyMode;
    }

    method SelectDate(date: string)
      modifies this
      ensures selectedDate == date && viewMode == old(viewMode)
      ensures dailyStats == old(dailyStats) && weeklyStats == old(weeklyStats)
      ensures loading == old(loading) && error == old(error)
    {
      selectedDate := date;
    }

    method SelectViewMode(mode: string)
      modifies this
      ensures viewMode == mode && selectedDate == old(selectedDate)
      ensures dailyStats == old(dailyStats) && weeklyStats == old(weeklyStats)
      ensures loading == old(loading) && error == old(error)
    {
      viewMode := mode;
    }

    /** `fetchDailyStats` up to the request. */
    method FetchDailyStats() returns (req: StatsRequest)
      modifies this
      ensures loading && error == None
      ensures dailyStats == old(dailyStats) && weeklyStats == old(weeklyStats)
      ensures selectedDate == old(selectedDate) && viewMode == old(viewMode)
      ensures req == DailyRequest(userId, selectedDate)
    {
      loading := true;
      error := None;
      req := DailyRequest(userId, selectedDate);
    }

    /** `fetchWeeklyStats` up to the request. */
    method FetchWeeklyStats() returns (req: StatsRequest)
      modifies this
      ensures loading && error == None
      ensures dailyStats == old(dailyStats) && weeklyStats == old(weeklyStats)
      ensures selectedDate == old(selectedDate) && viewMode == old(viewMode)
      ensures req == WeeklyRequest(userId, selectedDate)
    {
      loading := true;
      error := None;
      req := WeeklyRequest(userId, selectedDate);
    }

    /** The effect that runs on mount and whenever the date or the mode changes. */
    method RunFetchEffect() returns (req: StatsRequest)
      modifies this
      ensures loading && error == None
      ensures dailyStats == old(dailyStats) && weeklyStats == old(weeklyStats)
      ensures selectedDate == old(selectedDate) && viewMode == old(viewMode)
      ensures req == RequestFor(viewMode, userId, selectedDate)
    {
      if viewMode == DailyMode {
        req := FetchDailyStats();
      } else {
        req := FetchWeeklyStats();
      }
    }

    /** `fetchDailyStats` from the response to the `finally`: success replaces the daily
        aggregate; failure sets the daily message and keeps the previous aggregate. */
    method FinishDailyFetch(outcome: Response<DailyStats>)
      modifies this
      ensures !loading && weeklyStats == old(weeklyStats)
      ensures selectedDate == old(selectedDate) && viewMode == old(viewMode)
      ensures outcome.Ok? ==> dailyStats == Some(outcome.body) && error == old(error)
      ensures outcome.Failed? ==> dailyStats == old(dailyStats) && error == Some(DailyFailedText)
    {
      match outcome {
        case Ok(stats) =>
          dailyStats := Some(stats);
        case Failed(_) =>
          error := Some(DailyFailedText);
      }
      loading := false;
    }

    /** `fetchWeeklyStats` from the response to the `finally`, likewise for the weekly
        aggregate and message. */
    method FinishWeeklyFetch(outcome: Response<WeeklyStats>)
      modifies this
      ensures !loading && dailyStats == old(dailyStats)
      ensures selectedDate == old(selectedDate) && viewMode == old(viewMode)
      ensures outcome.Ok? ==> weeklyStats == Some(outcome.body) && error == old(error)
      ensures outcome.Failed? ==> weeklyStats == old(weeklyStats) && error == Some(WeeklyFailedText)
    {
      match outcome {
        case Ok(stats) =>
          weeklyStats := Some(stats);
        case Failed(_) =>
          error := Some(WeeklyFailedText);
      }
      loading := false;
    }

    function Screen(): (screen: StatsScreen)
      reads this
      ensures screen == LoadingStats <==> loading
      ensures !loading && viewMode == DailyMode ==>
        screen == DailySection(if Truthy(error) then error else None,
                               if dailyStats.Some? then Some(DailyPanelFor(dailyStats.value)) else None)
      ensures !loading && viewMode == WeeklyMode ==>
        screen == WeeklySection(if Truthy(error) then error else None,
                                if weeklyStats.Some? then Some(WeeklyPanelFor(weeklyStats.value)) else None)
      ensures screen == NoSection <==> !loading && viewMode != DailyMode && viewMode != WeeklyMode
    {
      var banner := if Truthy(error) then error else None;
      if loading then LoadingStats
      else if viewMode == DailyMode then
        DailySection(banner, if dailyStats.Some? then Some(DailyPanelFor(dailyStats.value)) else None)
      else if viewMode == WeeklyMode then
        WeeklySection(banner, if weeklyStats.Some? then Some(WeeklyPanelFor(weeklyStats.value)) else None)
      else NoSection
    }
  }
}
