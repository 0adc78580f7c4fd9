/** The intake form controller: the soil record being edited, the weather
    dialog, and the submit step that validates the record and hands it to the
    results page. Each event handler is a pure transition on `InputForm`. */
module InputPage {
  import opened Wrappers
  import opened Numbers
  import opened Soil

  /** The three climate values the weather collaborator supplies. */
  datatype WeatherSnapshot = WeatherSnapshot(temperature: real, humidity: real, rainfall: real)

  /** All component state of the form page. */
  datatype InputForm = InputForm(
    soil: SoilData,
    isLoading: bool,
    weatherOpen: bool,
    weather: WeatherSnapshot)

  /** Result of the validation pass: the first offending field, if any. */
  datatype Validation = Valid | Invalid(field: Field)

  /** What a submit event leads to. */
  datatype SubmitOutcome =
    | Blocked(field: Field)          // the handler's validation failed; its toast names `field`
    | HandedOff(sample: SoilData)    // navigation to the results page carrying `sample`
    | NavigationFailed               // `navigate` threw; the "Analysis Failed" toast is shown

  datatype Submission = Submission(form: InputForm, outcome: SubmitOutcome)

  /** The default sample: every field zero except a neutral pH of 7. */
  const InitialSoil: SoilData :=
    SoilData(Val(0.0), Val(0.0), Val(0.0), Val(0.0), Val(0.0), Val(7.0), Val(0.0))

  /** The weather state before any fetch. */
  const NoWeather: WeatherSnapshot := WeatherSnapshot(0.0, 0.0, 0.0)

  /** The fixed values the weather stub returns. */
  const WeatherStub: WeatherSnapshot := WeatherSnapshot(28.5, 70.0, 120.0)

  /** The fields a weather merge overwrites. */
  const WeatherFields: set<Field> := {Temperature, Humidity, Rainfall}

  const InitialForm: InputForm := InputForm(InitialSoil, false, false, NoWeather)

  /** The state the page mounts with. */
  function Initial(): (form: InputForm)
    ensures forall f :: f != Ph ==> Get(form.soil, f) == Val(0.0)
    ensures Get(form.soil, Ph) == Val(7.0)
    ensures !form.isLoading && !form.weatherOpen
    ensures form.weather == WeatherSnapshot(0.0, 0.0, 0.0)
  {
    InitialForm
  }

  /** `handleInputChange(field, value)`, given `parsed == parseFloat(value)`.
      The parsed value is stored whatever it is, NaN included. */
  function HandleInputChange(form: InputForm, f: Field, parsed: Num): (r: InputForm)
    ensures Get(r.soil, f) == parsed
    ensures forall g :: g != f ==> Get(r.soil, g) == Get(form.soil, g)
    ensures r.isLoading == form.isLoading && r.weatherOpen == form.weatherOpen
    ensures r.weather == form.weather
  {
    form.(soil := Set(form.soil, f, parsed))
  }

  /** One keystroke-level change event: the field edited and its parsed value. */
  datatype Edit = Edit(field: Field, parsed: Num)

  /** A typing session: the change events handled one after another. */
  function ApplyEdits(form: InputForm, edits: seq<Edit>): (r: InputForm)
    ensures r.isLoading == form.isLoading && r.weatherOpen == form.weatherOpen
    ensures r.weather == form.weather
    decreases |edits|
  {
    if |edits| == 0 then form
    else ApplyEdits(HandleInputChange(form, edits[0].field, edits[0].parsed), edits[1..])
  }

  /** The value a field holds after `edits`: the parsed value of the last edit
      to that field, or `current` when no edit touches it. */
  function LastValue(edits: seq<Edit>, f: Field, current: Num): Num
    decreases |edits|
  {
    if |edits| == 0 then current
    else LastValue(edits[1..], f, if edits[0].field == f then edits[0].parsed else current)
  }

  /** Index of the first field, from record position `i` on, whose value fails
      the check; `None` when all of them pass. */
  function FirstRejected(d: SoilData, i: nat): (r: Option<nat>)
    requires i <= |FieldOrder|
    ensures r.Some? ==> i <= r.value < |FieldOrder| && !Acceptable(Get(d, FieldOrder[r.value]))
    ensures r.Some? ==> forall j :: i <= j < r.value ==> Acceptable(Get(d, FieldOrder[j]))
    ensures r.None? ==> forall j :: i <= j < |FieldOrder| ==> Acceptable(Get(d, FieldOrder[j]))
    decreases |FieldOrder| - i
  {
    if i == |FieldOrder| then None
    else if !Acceptable(Get(d, FieldOrder[i])) then Some(i)
    else FirstRejected(d, i + 1)
  }

  /** `validateForm`: walks the fields in record order and stops at the first
      one that is NaN or negative. Zero passes, and there is no upper bound. */
  function ValidateForm(d: SoilData): (v: Validation)
    ensures v.Valid? <==> forall f :: Acceptable(Get(d, f))
    ensures v.Invalid? ==> !Acceptable(Get(d, v.field))
    ensures v.Invalid? ==> forall g :: Position(g) < Position(v.field) ==> Acceptable(Get(d, g))
  {
    match FirstRejected(d, 0)
    case None =>
      assert forall f :: Acceptable(Get(d, f)) by {
        forall f ensures Acceptable(Get(d, f)) {
          assert FieldOrder[Position(f)] == f;
        }
      }
      Valid
    case Some(k) =>
      assert forall g :: Position(g) < Position(FieldOrder[k]) ==> Acceptable(Get(d, g)) by {
        forall g | Position(g) < Position(FieldOrder[k]) ensures Acceptable(Get(d, g)) {
          FieldOrderIsEnumeration();
          assert FieldOrder[Position(g)] == g;
        }
      }
      Invalid(FieldOrder[k])
  }

  /** `handleSubmit`. An invalid record blocks the hand-off and leaves the form
      as it was. A valid record is handed to the results page as it stands;
      `navigationThrows` stands for `navigate` raising, which the handler
      catches. Either way the `finally` clause leaves `isLoading` false. */
  function Submit(form: InputForm, navigationThrows: bool): (s: Submission)
    ensures s.outcome.Blocked? <==> exists f :: !Acceptable(Get(form.soil, f))
    ensures s.outcome.Blocked? ==> s.form == form
    ensures s.outcome.Blocked? ==>
      && !Acceptable(Get(form.soil, s.outcome.field))
      && forall g :: Position(g) < Position(s.outcome.field) ==> Acceptable(Get(form.soil, g))
    ensures s.outcome.HandedOff? <==> !navigationThrows && forall f :: Acceptable(Get(form.soil, f))
    ensures s.outcome.HandedOff? ==> s.outcome.sample == form.soil
    ensures !s.outcome.Blocked? ==> s.form == form.(isLoading := false)
  {
    match ValidateForm(form.soil)
    case Invalid(f) => Submission(form, Blocked(f))
    case Valid =>
      var outcome := if navigationThrows then NavigationFailed else HandedOff(form.soil);
      Submission(form.(isLoading := false), outcome)
  }

  /** `fetchWeatherData`: loads the stub snapshot and opens the dialog; the
      soil record is untouched. */
  function FetchWeatherData(form: InputForm): (r: InputForm)
    ensures r.weather == WeatherSnapshot(28.5, 70.0, 120.0)
    ensures r.weatherOpen
    ensures r.soil == form.soil && r.isLoading == form.isLoading
  {
    form.(weather := WeatherStub, weatherOpen := true)
  }

  /** `applyWeatherData`: copies the snapshot's three values into the record
      and closes the dialog. */
  function ApplyWeatherData(form: InputForm): (r: InputForm)
    ensures Get(r.soil, Temperature) == Val(form.weather.temperature)
    ensures Get(r.soil, Humidity) == Val(form.weather.humidity)
    ensures Get(r.soil, Rainfall) == Val(form.weather.rainfall)
    ensures forall f :: f !in WeatherFields ==> Get(r.soil, f) == Get(form.soil, f)
    ensures !r.weatherOpen
    ensures r.weather == form.weather && r.isLoading == form.isLoading
  {
    var soil := form.soil.(
      temperature := Val(form.weather.temperature),
      humidity := Val(form.weather.humidity),
      rainfall := Val(form.weather.rainfall));
    form.(soil := soil, weatherOpen := false)
  }

  /** The dialog's Cancel button: closes the dialog and changes nothing else. */
  function CancelWeather(form: InputForm): (r: InputForm)
    ensures !r.weatherOpen
    ensures r.soil == form.soil && r.weather == form.weather && r.isLoading == form.isLoading
  {
    form.(weatherOpen := false)
  }
}
