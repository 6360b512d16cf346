# Calorie-tracker client: a Dafny model of its view logic

This project models the deterministic logic of a small React client for a food-photo
calorie tracker: how it resolves the backend origin, the capture → recognize → confirm
workflow of the capture view, the payload and submit states of the confirmation form, the
meal list's fetch handling and card rendering, and the statistics view's dispatch,
progress bar, wording and per-day ordering. HTTP calls, the webcam, the file reader and the
environment are outside the model: their results are parameters.

Modules (one file each):

- `Wrappers` (`wrappers.dfy`): `Option` and `Response` (the settled outcome of one HTTP
  call: the body, or a failure with the server's optional `detail`).
- `Wire` (`wire.dfy`): the backend entities as the client holds them, JavaScript truthiness of
  a possibly-absent string and the `detail || fallback` idiom.
- `ApiUrl` (`api_url.dfy`): the base-URL resolver, a pure function of the override and the
  hostname.
- `CaptureFlow` (`camera_capture.dfy`): the capture view's five state fields as a class
  `CameraCapture`, one method per handler; the asynchronous recognition handler is split
  into `RecognizeFood` (up to the request) and `FinishRecognizeFood` (the settled part).
  Each method is tied to a transition function on a `CaptureState` value, and the
  invariant "a result is held exactly when the form flag is raised" is proved for every
  sequence of events, in any interleaving.
- `MealSubmit` (`meal_form.dfy`): the meal payload as a pure function and the form as a
  class `MealForm`; the settled part of the submit returns the callbacks it invokes, in order.
- `MealListing` (`meal_list.dfy`): the icon and label lookups, the card and empty-state
  rendering, and the view as a class `MealList`.
- `DateOrder` (`date_order.dfy`): code-point lexicographic order on date keys and the sort of
  the weekly per-day rows, proved sorted, a permutation, and independent of input order.
- `Stats` (`daily_stats.dfy`): request dispatch, progress cap, pluralization, rounding, the
  panels, and the view as a class `DailyStatsView`.

Behaviour of the code worth noting:

- Notes made only of whitespace are sent verbatim, not as null: the payload uses
  `notes || null`, so only the empty string becomes null (MealForm.jsx:24).
- A failed meal fetch always keeps the previously loaded list, not only before the first
  successful load; the failure handler never touches `meals` (MealList.jsx:27-28).
- The capture handlers check nothing beyond what is written: `capture` and the file upload check only for an image or a file, and `recognizeFood` only that an image is held. What keeps the states apart is the view's rendering: the camera and file controls appear only while no image is held (CameraCapture.jsx:98-131), the recognize button only while one is held and disabled while loading (CameraCapture.jsx:137-144), and none of them while the form is shown (CameraCapture.jsx:77-88). A held result can meet a new image only through a late file-reader completion (CameraCapture.jsx:26-28). The model allows every event in every state, a superset of what the program can do, so `RunKeepsConsistent` covers every run of the program.

## Model

| member | source | states |
|---|---|---|
| `ApiUrl.GetApiUrl` | src/utils/api.js:2-13 | a non-empty override is returned verbatim whatever the hostname; otherwise a hostname other than `localhost`/`127.0.0.1` gives exactly `http://<host>:8000`; otherwise `http://localhost:8000`; total, no error path |
| `ApiUrl.ResolvedHost` | src/utils/api.js:7-12 | without an override the result is always an `http://…:8000` origin whose host is the page's hostname, except that `127.0.0.1` comes back as `localhost` |
| `ApiUrl.DistinctHostsDistinctUrls` | src/utils/api.js:8-11 | two different network hostnames resolve to different origins |
| `ApiUrl.EmptyOverrideFallsThrough` | src/utils/api.js:3 | an empty-string override is falsy and resolves as if unset |
| `Wire.OrElse` | src/components/CameraCapture.jsx:58 | the error shown is the server's `detail` when it is a non-empty string, else the call site's generic message |
| `CaptureFlow.Captured` | src/components/CameraCapture.jsx:15-20 | a missing or empty screenshot changes nothing; otherwise only `image` changes, to the screenshot |
| `CaptureFlow.FileUploaded` | src/components/CameraCapture.jsx:22-31 | with no selected file nothing changes; otherwise only `image` changes, to the reader's result |
| `CaptureFlow.RecognizeBegun` | src/components/CameraCapture.jsx:33-37 | with no image nothing changes; otherwise `loading` becomes true and `error` null, and image, result and form flag are untouched |
| `CaptureFlow.RecognizeFinished` | src/components/CameraCapture.jsx:55-62 | success stores the result exactly as returned and raises the form flag; failure sets the server message or `Failed to recognize food. Please try again.` and keeps image, result and flag; `loading` ends false either way |
| `CaptureFlow.CaptureReset` | src/components/CameraCapture.jsx:65-70 | image, result and error become null and the form flag false; `loading` is untouched |
| `CaptureFlow.ApplyKeepsConsistent` | src/components/CameraCapture.jsx:15-75 | every handler step keeps "result held iff form flag raised" |
| `CaptureFlow.RunKeepsConsistent` | src/components/CameraCapture.jsx:15-75 | any sequence of handler steps and request completions, in any interleaving, keeps the invariant |
| `CaptureFlow.RetryAfterFailure` | src/components/CameraCapture.jsx:33-62 | after a failed recognition the image is still held, so pressing the button again starts a new request without recapturing |
| `CaptureFlow.ShownMealForm` | src/components/CameraCapture.jsx:77-88 | the form is shown iff the flag is raised and a result is held, and receives the view's user id, the result's foods and total unchanged and the held image |
| `CaptureFlow.FormShownIffFlag` | src/components/CameraCapture.jsx:77-88 | under the invariant the form is shown exactly when the flag is raised, and the "result held, flag down" panel is never rendered |
| `CaptureFlow.CaptureRecognizeShowsForm` | src/components/CameraCapture.jsx:15-62 | from a fresh view, photo then recognition success leaves loading off and shows the form with exactly the returned foods and total, the photo and the user id |
| `CaptureFlow.CameraCapture.constructor` | src/components/CameraCapture.jsx:7-12 | the view holds the given user id, all five fields start empty, false or null, and the invariant holds |
| `CaptureFlow.CameraCapture.Capture` | src/components/CameraCapture.jsx:15-20 | the fields change as `Captured` says, and the invariant is kept |
| `CaptureFlow.CameraCapture.HandleFileUpload` | src/components/CameraCapture.jsx:22-31 | the fields change as `FileUploaded` says, and the invariant is kept |
| `CaptureFlow.CameraCapture.RecognizeFood` | src/components/CameraCapture.jsx:33-37 | a request is started iff an image is held; the fields change as `RecognizeBegun` says |
| `CaptureFlow.CameraCapture.FinishRecognizeFood` | src/components/CameraCapture.jsx:55-62 | the fields change as `RecognizeFinished` says, and the invariant is kept |
| `CaptureFlow.CameraCapture.ResetCapture` | src/components/CameraCapture.jsx:65-70 | the fields change as `CaptureReset` says |
| `CaptureFlow.CameraCapture.HandleMealSaved` | src/components/CameraCapture.jsx:72-75 | exactly a reset |
| `MealSubmit.MealData` | src/components/MealForm.jsx:19-25 | user id, category, foods and total pass through verbatim; `notes` is null iff the field is the empty string, and otherwise the field's text, whitespace included |
| `MealSubmit.NotesRoundTrip` | src/components/MealForm.jsx:24 | reading the payload's notes back (null as empty) gives the field's text: nothing typed is lost |
| `MealSubmit.MealForm.constructor` | src/components/MealForm.jsx:6-10 | the form starts with category `snack`, empty notes, not loading and no error, holding its props |
| `MealSubmit.MealForm.SelectMealType` | src/components/MealForm.jsx:56 | only the category changes |
| `MealSubmit.MealForm.EditNotes` | src/components/MealForm.jsx:92 | only the notes change |
| `MealSubmit.MealForm.SaveEnabled` | src/components/MealForm.jsx:106-108 | the Save button is enabled iff no submission is in flight |
| `MealSubmit.MealForm.HandleSubmit` | src/components/MealForm.jsx:13-25 | with no guard of its own, submit starts loading, clears the error and posts the payload built from the current category and notes and the props |
| `MealSubmit.MealForm.FinishSubmit` | src/components/MealForm.jsx:27-36 | success invokes the save callback and then navigates to `/meals`, in that order; failure invokes nothing and shows the server message or `Failed to save meal. Please try again.`; category and notes stay; loading ends either way |
| `MealSubmit.MealForm.Cancel` | src/components/MealForm.jsx:113-115 | cancel invokes only the cancel callback |
| `MealListing.MealTypeIcon` | src/components/MealList.jsx:35-40 | each of the four categories has its own icon; the generic plate is shown iff the category is not one of them |
| `MealListing.MealTypeLabel` | src/components/MealList.jsx:42-47 | a known category is shown capitalized; the raw string is shown iff the category is not one of the four |
| `MealListing.TablesShareCategories` | src/components/MealList.jsx:35-47 | the icon table and the label table have the same four categories as keys |
| `MealListing.MealsOf` | src/components/MealList.jsx:26 | a successful fetch yields the returned list, or the empty list when the field is absent |
| `MealListing.NotesLine` | src/components/MealList.jsx:112-116 | the notes line appears iff the notes are present and non-empty, and then shows them as stored |
| `MealListing.FoodLines` | src/components/MealList.jsx:102-109 | one line per food item, in order, with its name and calories |
| `MealListing.CardFor` | src/components/MealList.jsx:88-120 | a card shows the category's icon and label, the stored total (not recomputed), the item lines, the notes line and the meal's raw date |
| `MealListing.ListBody` | src/components/MealList.jsx:80-124 | the empty-state message is shown iff there are no meals; otherwise exactly one card per meal, in list order |
| `MealListing.MealList.constructor` | src/components/MealList.jsx:6-10 | the view starts with no meals, loading, no error and the given date |
| `MealListing.MealList.SelectDate` | src/components/MealList.jsx:69 | only the selected date changes |
| `MealListing.MealList.FetchMeals` | src/components/MealList.jsx:16-25 | a fetch starts loading with no error, keeps the list, and queries the current user and date |
| `MealListing.MealList.FinishFetchMeals` | src/components/MealList.jsx:26-32 | success replaces the list (absent field: empty); failure sets `Failed to load meals. Please try again.` and keeps the previous list; loading ends either way |
| `MealListing.MealList.Screen` | src/components/MealList.jsx:49-78 | a loading message iff loading; otherwise the error banner iff the error is truthy, above the list area for the current meals |
| `DateOrder.SortByDate` | src/components/DailyStats.jsx:199-201 | the per-day rows are sorted ascending by date key and are a permutation of the entries |
| `DateOrder.SortStrictlyAscending` | src/components/DailyStats.jsx:199-201 | for an object's entries (distinct keys) the rows are strictly ascending |
| `DateOrder.SortIgnoresInputOrder` | src/components/DailyStats.jsx:199-201 | any two listings of the same entries give the same rows, whatever order they arrive in |
| `DateOrder.WeekExample` | src/components/DailyStats.jsx:199-201 | keys arriving as 2024-01-03, 2024-01-01, 2024-01-02 are shown as 01, 02, 03 |
| `Stats.RequestFor` | src/components/DailyStats.jsx:14-20 | mode `daily` requests the daily aggregate for the selected date; any other mode requests the weekly aggregate starting at it |
| `Stats.ProgressPercent` | src/components/DailyStats.jsx:133 | the bar width never exceeds 100, is exactly 100 from the 2000 kcal goal on, is proportional below it, and is negative for a negative total (no lower clamp) |
| `Stats.ProgressMonotone` | src/components/DailyStats.jsx:133 | a larger total never gives a shorter bar |
| `Stats.ProgressExamples` | src/components/DailyStats.jsx:133 | 1500 kcal gives 75, 3000 kcal gives 100 |
| `Stats.MealCountSuffix` | src/components/DailyStats.jsx:156 | the plural `s` appears iff the count is not 1 |
| `Stats.NatTextRoundTrip` | src/components/DailyStats.jsx:156 | the count's decimal text reads back as the count |
| `Stats.MealCountLine` | src/components/DailyStats.jsx:156 | a count of 1 renders as `1 meal logged`; any other count renders as its decimal text followed by ` meals logged` |
| `Stats.MealCountLineExamples` | src/components/DailyStats.jsx:156 | 1 gives `1 meal logged`, 0 gives `0 meals logged`, 2 gives `2 meals logged` |
| `Stats.RoundHalfUp` | src/components/DailyStats.jsx:188-190 | the displayed weekly total and average are the nearest integers, halves rounded up |
| `Stats.RoundHalfUpUnique` | src/components/DailyStats.jsx:188-190 | that integer is the only one within the half-open half-unit window |
| `Stats.BreakdownRows` | src/components/DailyStats.jsx:141-145 | the daily breakdown is listed iff the mapping is present and non-empty, in the order returned, without re-sorting |
| `Stats.WeekRows` | src/components/DailyStats.jsx:195-201 | the per-day list is shown iff the mapping is present and non-empty, and holds exactly its entries sorted by date key |
| `Stats.DailyPanelFor` | src/components/DailyStats.jsx:119-157 | the daily panel shows the total, the 2000 goal, a bar whose width is exactly `ProgressPercent` of the total (so at most 100), the breakdown rows and the meal-count line |
| `Stats.WeeklyPanelFor` | src/components/DailyStats.jsx:183-211 | the weekly panel shows the rounded total and average and the sorted per-day rows |
| `Stats.DailyStatsView.constructor` | src/components/DailyStats.jsx:6-12 | the view starts with no data, loading, no error, daily mode and the given date |
| `Stats.DailyStatsView.SelectDate` | src/components/DailyStats.jsx:108 | only the selected date changes |
| `Stats.DailyStatsView.SelectViewMode` | src/components/DailyStats.jsx:78 | only the mode changes |
| `Stats.DailyStatsView.FetchDailyStats` | src/components/DailyStats.jsx:22-31 | starts loading with no error, keeps both aggregates, requests the daily aggregate of the selected date |
| `Stats.DailyStatsView.FetchWeeklyStats` | src/components/DailyStats.jsx:41-50 | starts loading with no error, keeps both aggregates, requests the weekly aggregate from the selected date |
| `Stats.DailyStatsView.RunFetchEffect` | src/components/DailyStats.jsx:14-20 | the effect begins the fetch `RequestFor` selects for the current mode and date |
| `Stats.DailyStatsView.FinishDailyFetch` | src/components/DailyStats.jsx:32-38 | success replaces the daily aggregate; failure sets the daily message and keeps the old aggregate; loading ends; the weekly aggregate is untouched |
| `Stats.DailyStatsView.FinishWeeklyFetch` | src/components/DailyStats.jsx:51-57 | success replaces the weekly aggregate; failure sets the weekly message and keeps the old aggregate; loading ends; the daily aggregate is untouched |
| `Stats.DailyStatsView.Screen` | src/components/DailyStats.jsx:62-215 | a loading message iff loading; otherwise the current mode's section with a truthy error's banner and the panel of the aggregate held, and no section for an unknown mode |

## Left out

- HTTP calls, the data-URL-to-blob conversion and the multipart form (CameraCapture.jsx:41-53): a request is represented by its settled `Response`, and its query parameters are returned by the method that starts it.
- The webcam screenshot, the `FileReader` read and the environment and `window.location` reads: their results are parameters (`Capture`, `HandleFileUpload`, `GetApiUrl`). The file upload is one step that receives the reader's eventual result.
- Overlapping fetches (a stale response arriving after a newer request): each fetch is modelled as a start followed by a completion. Only the capture invariant is proved for arbitrary interleavings (`RunKeepsConsistent`).
- Date handling: the today's-date defaults and the `MMM dd, yyyy` and `EEE, MMM dd` formatting are wall-clock and library calls; cards and rows carry the raw date string.
- Floating point: calories, quantities, the progress percentage and `Math.round` are computed on exact reals; float rounding error is not modelled.
- `DateOrder.SortByDate`: `localeCompare` is modelled as code-point lexicographic order, which agrees with it on `YYYY-MM-DD` keys but not on arbitrary strings under locale collation.
- `Wire.OrElse`: the server's `detail` is modelled as an optional string; a non-string `detail` (such as a list of validation errors) is not modelled.
- `CaptureFlow.RecognizeFinished`: a successful recognition is assumed to carry a body; a null body would clear the held result while raising the form flag, which the model does not represent.
- `MealListing.MealTypeLabel`: lookups of names that a plain JavaScript object inherits (such as `constructor`) are not modelled; only the four own keys and the fallback are. For such a name the source finds a truthy inherited function and shows no raw-string fallback.
- `MealListing.MealTypeIcon`: the same gap; for an inherited name such as `constructor` the source finds a truthy inherited function and shows no plate, while the model shows the plate.
- `Stats.MealCountLine`: the count is an unbounded integer printed in full decimal digits; JavaScript prints numbers from 1e21 up in exponent form and loses integer precision above 2^53, which the model does not represent.
- Rendering, styling, routing and logging (`console.error`); the hard-coded user id (src/App.jsx:9) is a constructor parameter of each view (`CameraCapture`, `MealForm`, `MealList`, `DailyStatsView`).
