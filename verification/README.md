# Crop recommendation pipeline: a Dafny model

This project models the client-side soil-data pipeline of the crop
recommendation app. It has two page controllers.

- **Intake form** (`InputPage.tsx`). It holds a seven-field soil record
  (nitrogen, phosphorus, potassium, temperature, humidity, ph, rainfall). It
  stores each typed value as parsed, NaN included. It can merge a fixed weather
  snapshot into temperature, humidity and rainfall. On submit it checks every
  field in record order. It navigates to the results page with the record only
  when no field is NaN or negative.
- **Results page** (`ResultsPage.tsx`). With no carried record it shows a
  "no data" view and sends nothing. With a carried record it sends one
  prediction request. The request renames nitrogen, phosphorus and potassium to
  `N`, `P` and `K`. A successful reply becomes one recommendation card. A
  non-2xx reply or a thrown error becomes an error line. The page also buckets
  confidence into three badge tiers.

Every event handler is a pure function from one immutable state record to the
next. Two things become abstract inputs: the result of `parseFloat` (a
`Num = NaN | Val(real)`) and the outcome of `fetch` (`Ok(prediction)`, `NotOk`
or `Thrown(message)`).

Modules:

- `Wrappers`: `Option`.
- `Numbers`: `Num`, JavaScript truthiness, and the form's per-value check.
- `Soil`: the record, its fields, their order, and field access and update.
- `InputPage` and `InputPageProperties`: the form controller and the lemmas relating its events.
- `ResultsPage` and `ResultsPageProperties`: the results controller and its lemmas.
- `Pipeline`: the hand-off between the two pages, and the end-to-end scenario.

Facts about the code that the model keeps:

- `fetchWeatherData` is a synchronous stub that always yields 28.5 °C, 70 % and 120 mm.
- `validateForm` checks only "not NaN and not negative". It accepts any finite non-negative value, with no upper bound for pH.
- `handleSubmit` sets `isLoading` to true and back to false inside one synchronous handler, so only the final `false` is observable. `Submit` models that final value.
- The results page echoes only nitrogen, phosphorus, potassium and pH of the carried record (`Summary`).

The results page's phases (`PhaseOf`) read its state as follows:
- `NoData`: no record was carried.
- `Idle`: a record was carried, but the effect has not yet started the fetch.
- `Loading`: the `loading` flag is on (ResultsPage.tsx:25, :146).
- `Failed`: loading is off and an error is set (ResultsPage.tsx:26, :147).
- `Loaded`: loading is off, no error is set, and there is at least one recommendation (ResultsPage.tsx:24, :150).

## Model

| member | source | states |
|---|---|---|
| Soil.Set | InputPage.tsx:51-54 | the spread update gives the named field the new value and leaves the six others as they were |
| Soil.Position | InputPage.tsx:31-39 | every field has a place in the record order, and the order lists that field at that place |
| Soil.FieldOrderIsEnumeration | InputPage.tsx:58 | the order walked by the validation loop covers every field exactly once |
| Soil.KeyInjective | InputPage.tsx:62 | distinct fields have distinct names, so the field named in the invalid-input message identifies one field |
| InputPage.Initial | InputPage.tsx:31-48 | the form starts with every field 0 except ph = 7, not loading, the dialog closed and a zero weather snapshot |
| InputPage.HandleInputChange | InputPage.tsx:50-55 | the parsed value is stored in the named field even when it is NaN; other fields, the loading flag and the weather state are unchanged |
| InputPage.ApplyEdits | InputPage.tsx:166-168 | a run of change events edits only the soil record: the loading flag, the dialog and the weather snapshot are unchanged |
| InputPage.FirstRejected | InputPage.tsx:58-67 | from a given position on, it returns the first field that is NaN or negative, or none when every remaining field passes |
| InputPage.ValidateForm | InputPage.tsx:57-69 | the form validates exactly when every field is a number at or above 0; a failure names an offending field, and every field before it in record order passes |
| InputPage.Submit | InputPage.tsx:71-95 | submit is blocked exactly when some field fails; a block names the first offending field and leaves the form unchanged; a valid form navigates with a record equal to the current one unless navigation throws; after a valid submit `isLoading` is false |
| InputPage.FetchWeatherData | InputPage.tsx:97-104 | the snapshot becomes (28.5, 70, 120) and the dialog opens, while the soil record and loading flag are untouched |
| InputPage.ApplyWeatherData | InputPage.tsx:106-113 | temperature, humidity and rainfall take the snapshot's values; the other four fields are unchanged; the dialog closes |
| InputPage.CancelWeather | InputPage.tsx:230 | Cancel closes the dialog and changes nothing else |
| InputPageProperties.DefaultsSubmit | InputPage.tsx:31-39 | the default record passes validation and is handed off as it is |
| InputPageProperties.LaterEditWins | InputPage.tsx:50-55 | of two edits to one field, only the later one remains |
| InputPageProperties.EditsCommute | InputPage.tsx:50-55 | edits to two different fields give the same form in either order |
| InputPageProperties.EditWithCurrentValue | InputPage.tsx:50-55 | storing a field's current value leaves the form unchanged |
| InputPageProperties.SessionKeepsLastEdit | InputPage.tsx:50-55 | after any run of change events each field holds the parsed value of the last event for it, NaN included, and a field no event touches keeps its value |
| InputPageProperties.UntouchedFieldKeepsValue | InputPage.tsx:50-55 | a field that no change event in a session names keeps the value it had |
| InputPageProperties.LastEditDecides | InputPage.tsx:50-55 | when event k is the last one naming a field, the field ends the session holding event k's parsed value |
| InputPageProperties.ValidationNamesFirstOffender | InputPage.tsx:58-65 | validation names a field exactly when that field fails and every field before it in record order passes |
| InputPageProperties.AcceptedEntryIsHandedOff | InputPage.tsx:57-84 | if the other fields pass, typing any number at or above 0 lets submit hand off a record holding exactly that number |
| InputPageProperties.RejectedEntryIsNamed | InputPage.tsx:57-74 | if the other fields pass, a NaN or negative entry blocks submit, and the block names that field |
| InputPageProperties.PhAboveFourteenPasses | InputPage.tsx:59 | a pH of 15 is accepted, because the check has no upper bound |
| InputPageProperties.FetchThenApplyWeather | InputPage.tsx:97-113 | fetching and then applying the weather writes 28.5, 70 and 120 into the three climate fields, keeps the other four, and closes the dialog |
| InputPageProperties.WeatherMergeValidates | InputPage.tsx:97-113 | when nitrogen, phosphorus, potassium and ph pass, the record after a weather merge validates, whatever the climate fields held before |
| InputPageProperties.ApplyWeatherIdempotent | InputPage.tsx:106-113 | applying the same snapshot twice equals applying it once |
| InputPageProperties.RetryAfterNavigationFailure | InputPage.tsx:84-94 | `handleSubmit` never writes `soilData`, so after a submit whose navigation threw, submitting again hands off exactly the same record |
| ResultsPage.RequestBody | ResultsPage.tsx:41-49 | each field's value appears in the request body under the service's name for that field |
| ResultsPage.SampleOf | Backend/main.py:42-49 | reading the service's seven properties back gives each field under its service name |
| ResultsPage.AiCrop | ResultsPage.tsx:58-61 | a success produces a recommendation named after the prediction, with the fixed AI description and no confidence |
| ResultsPage.ErrorText | ResultsPage.tsx:65 | the error text is the error's message when that is non-empty, and "Something went wrong" otherwise; it is never empty |
| ResultsPage.Mounted | ResultsPage.tsx:21-26 | the page mounts with the carried record, no recommendations, loading off, no error, and no request sent |
| ResultsPage.StartFetch | ResultsPage.tsx:34-50 | starting a fetch turns loading on, clears the error, and sends exactly one request built from the record |
| ResultsPage.RunEffect | ResultsPage.tsx:28-32 | the effect starts a fetch for the carried record when one exists, and otherwise does nothing |
| ResultsPage.Enter | ResultsPage.tsx:20-32 | entering the page is loading exactly when a record was carried; it sends one request for a carried record and none otherwise; no error and no recommendations yet |
| ResultsPage.Settle | ResultsPage.tsx:52-68 | every outcome turns loading off; success sets exactly one recommendation from the prediction; a non-2xx response sets "Failed to fetch predictions"; a thrown error sets its message or the fallback; failure adds no recommendation |
| ResultsPage.Catch | ResultsPage.tsx:64-68 | the catch path sets the error to the message or the fallback, so it is never empty; it turns loading off and keeps the recommendations, the carried record and the requests sent |
| ResultsPage.GetConfidenceColor | ResultsPage.tsx:71-76 | the tier is leaf exactly for a confidence of at least 85, and harvest exactly for 70 up to 85; everything else, including missing, 0 and NaN, is muted |
| ResultsPage.ConfidenceClass | ResultsPage.tsx:71-76 | the class is the leaf class exactly for a confidence of at least 85, the harvest class exactly for 70 up to 85, and the muted class otherwise, including missing, 0 and NaN |
| ResultsPage.RenderCard | ResultsPage.tsx:150-170 | a card shows the recommendation's name; its badge appears exactly when the confidence is truthy, carrying the confidence and the class `getConfidenceColor` returns for it; an empty or missing description falls back to the default text |
| ResultsPage.Render | ResultsPage.tsx:78-172 | the no-data view is shown exactly when no record was carried; otherwise the page shows nitrogen, phosphorus, potassium and pH, the loading line exactly while loading, the error exactly when non-empty, and one card per recommendation in order |
| ResultsPageProperties.RequestBodyRoundTrip | ResultsPage.tsx:41-49 | reading the record back out of its request body gives the record |
| ResultsPageProperties.SampleOfRoundTrip | Backend/main.py:42-49 | every request body is the body of the record read out of it |
| ResultsPageProperties.WireNaming | ResultsPage.tsx:42-48 | only nitrogen, phosphorus and potassium are renamed, and no two fields share a service name |
| ResultsPageProperties.NoCarriedSample | ResultsPage.tsx:28-32 | with no carried record, no request is sent and the no-data view is shown, never the loading or error view |
| ResultsPageProperties.CarriedSampleStartsLoading | ResultsPage.tsx:28-36 | with a carried record, one request is sent and the page shows loading, with no error and no cards |
| ResultsPageProperties.SuccessShowsOneCard | ResultsPage.tsx:56-67 | after a success, loading is off, no error is shown, and exactly one card is shown: the prediction, no badge, the fixed description |
| ResultsPageProperties.FailureShowsError | ResultsPage.tsx:52-67 | after a non-2xx response or a thrown error, loading is off, a non-empty error is shown, and there are no cards |
| ResultsPageProperties.ErrorMessages | ResultsPage.tsx:52-65 | a non-2xx response behaves like an error thrown with "Failed to fetch predictions"; an error without a message shows "Something went wrong" |
| ResultsPageProperties.FalsyConfidenceIsMuted | ResultsPage.tsx:72 | a missing, zero or NaN confidence is muted |
| ResultsPageProperties.ConfidenceColorMonotone | ResultsPage.tsx:71-76 | a higher confidence never gets a lower tier |
| ResultsPageProperties.SuccessCardHasNoBadge | ResultsPage.tsx:158-162 | a card built from a successful response never shows a badge |
| ResultsPageProperties.DescriptionFallback | ResultsPage.tsx:167 | a missing or empty description shows the default text |
| Pipeline.Navigate | InputPage.tsx:84 | the results page is entered exactly when the submit handed off a record, and it carries that record |
| Pipeline.HandOffIssuesOneValidRequest | ResultsPage.tsx:22-49 | a handed-off record leads to one request; every field is sent under its service name with the form's value, a number at or above 0 |
| Pipeline.BlockedSubmitIssuesNothing | InputPage.tsx:74 | a submit with an offending field never reaches the results page |
| Pipeline.ScenarioForm | InputPage.tsx:50-55 | typing 20, 15, 25, 25.5, 65, 6.5 and 120 into the seven fields gives exactly that record |
| Pipeline.MaizeScenario | ResultsPage.tsx:41-63 | the scenario record is sent as N 20, P 15, K 25, 25.5, 65, 6.5, 120; a "maize" reply shows one card titled "maize" beside the echoed pH of 6.5 |
| Pipeline.RetryEntersPageForSameRecord | InputPage.tsx:84-94 | after a submit whose navigation threw, a retry opens the results page carrying exactly the record the form held |

## Left out

- `Index.tsx` is static landing content with no logic.
- The prediction service (`Backend/main.py`) is not part of this model. It wraps an opaque trained model. Only its request field names are used, as the target of the body mapping.
- `Backend/inspect_model.py` is a diagnostic script that only prints. It is not part of this model.
- JSX markup, CSS classes other than the badge classes, toast texts, icons and navigation chrome are not modelled. The model keeps only the state and the navigation decision they depend on.
- `parseFloat` is an abstract input. Its result is a `Num`, which is NaN or a real. Infinities and IEEE-754 precision cannot be represented. So the model cannot show that the code would accept an infinite value.
- `fetch` and JSON parsing are an abstract `Outcome`. A reply without a `prediction` property (an undefined card name) is not represented. An error whose `message` is undefined is represented by the empty message, because the code only tests its truthiness.
- `navigate` throwing is a boolean input of `Submit`. Its only effect is the "Analysis Failed" toast, which is not modelled.
- The `characteristics`, `season` and `yield` fields of a recommendation are never set or rendered, so they are not modelled.
- The carried record's type (`LocationState`, declared in a types file) is not part of this model. The model assumes it has the same seven fields as the form's record.
- A stale in-flight request after a remount, and the "Reset Data" reload (`window.location.reload()`), are concurrency and browser-lifecycle behaviour. They are not modelled.
- Closing the weather dialog by the overlay or the Escape key goes through the same setter as Cancel. It is covered by `CancelWeather` and not modelled separately.
- InputPage.Submit: models the `handleSubmit` handler only. Every input is `required` with `type="number"` (InputPage.tsx:161-172), so an empty or unparsable field, the only way `parseFloat` yields NaN, is stopped by the browser's own form validation before the handler runs; then no toast appears and the browser points at that field, even when an earlier field is negative. The model does not include the browser's validation.
- ResultsPage.RequestBody: describes the object before `JSON.stringify`, which writes NaN as `null`. This is not modelled. Only validated records are handed off, so no NaN can reach the body.
- ResultsPage.RenderCard: `{crop.confidence && ...}` makes React render a bare `0` or `NaN` when the confidence is 0 or NaN. The model's card shows nothing in that case. No code path sets a confidence, so this cannot be reached.
- Resubmitting after a successful hand-off is not modelled, because the running page cannot reach it. After a hand-off, the form page is replaced by the results page, and the only ways back ("New Analysis" at ResultsPage.tsx:176, or the browser's back button) mount a fresh form with the defaults. The model instead states the reachable retry, after a submit whose navigation threw.
