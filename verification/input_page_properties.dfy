/** Properties relating several intake-form events to each other. */
module InputPageProperties {
  import opened Numbers
  import opened Soil
  import opened InputPage

  /** The default record passes validation, so submitting untouched defaults
      hands them off. */
  lemma DefaultsSubmit()
    ensures ValidateForm(Initial().soil) == Valid
    ensures Submit(Initial(), false).outcome == HandedOff(Initial().soil)
  {
  }

  /** Of two edits to the same field only the later one is kept. */
  lemma LaterEditWins(form: InputForm, f: Field, a: Num, b: Num)
    ensures HandleInputChange(HandleInputChange(form, f, a), f, b) == HandleInputChange(form, f, b)
  {
  }

  /** Edits to different fields do not interfere. */
  lemma EditsCommute(form: InputForm, f: Field, g: Field, a: Num, b: Num)
    requires f != g
    ensures HandleInputChange(HandleInputChange(form, f, a), g, b)
         == HandleInputChange(HandleInputChange(form, g, b), f, a)
  {
  }

  /** Storing the value a field already holds changes nothing. */
  lemma EditWithCurrentValue(form: InputForm, f: Field)
    ensures HandleInputChange(form, f, Get(form.soil, f)) == form
  {
  }

  /** When the other fields are acceptable, typing a number at or above zero
      into a field makes the submit hand off a sample holding exactly that number. */
  lemma AcceptedEntryIsHandedOff(form: InputForm, f: Field, x: real)
    requires forall g :: g != f ==> Acceptable(Get(form.soil, g))
    requires x >= 0.0
    ensures Submit(HandleInputChange(form, f, Val(x)), false).outcome.HandedOff?
    ensures Get(Submit(HandleInputChange(form, f, Val(x)), false).outcome.sample, f) == Val(x)
  {
    var edited := HandleInputChange(form, f, Val(x));
    assert forall g :: Acceptable(Get(edited.soil, g));
  }

  /** When the other fields are acceptable, a NaN or negative entry blocks the
      submit, the block names that field, and nothing is handed off. */
  lemma RejectedEntryIsNamed(form: InputForm, f: Field, v: Num, navigationThrows: bool)
    requires forall g :: g != f ==> Acceptable(Get(form.soil, g))
    requires !Acceptable(v)
    ensures Submit(HandleInputChange(form, f, v), navigationThrows).outcome == Blocked(f)
  {
    var edited := HandleInputChange(form, f, v);
    var s := Submit(edited, navigationThrows);
    assert !Acceptable(Get(edited.soil, f));
    assert s.outcome.Blocked?;
    assert !Acceptable(Get(edited.soil, s.outcome.field));
  }

  /** The check has no upper bound: a pH of 15 is handed off. */
  lemma PhAboveFourteenPasses(form: InputForm)
    requires forall g :: g != Ph ==> Acceptable(Get(form.soil, g))
    ensures Submit(HandleInputChange(form, Ph, Val(15.0)), false).outcome.HandedOff?
  {
    AcceptedEntryIsHandedOff(form, Ph, 15.0);
  }

  /** Fetching then applying the weather writes the stub's values into
      temperature, humidity and rainfall and leaves the other four fields alone. */
  lemma FetchThenApplyWeather(form: InputForm)
    ensures ApplyWeatherData(FetchWeatherData(form)).soil
         == form.soil.(temperature := Val(28.5), humidity := Val(70.0), rainfall := Val(120.0))
    ensures !ApplyWeatherData(FetchWeatherData(form)).weatherOpen
  {
  }

  /** Because the stub values are not negative, merging the weather repairs any
      bad temperature, humidity or rainfall: with the other four fields
      acceptable, the merged record validates. */
  lemma WeatherMergeValidates(form: InputForm)
    requires forall f :: f !in WeatherFields ==> Acceptable(Get(form.soil, f))
    ensures ValidateForm(ApplyWeatherData(FetchWeatherData(form)).soil) == Valid
  {
    var merged := ApplyWeatherData(FetchWeatherData(form)).soil;
    assert forall f :: Acceptable(Get(merged, f));
  }

  /** Applying the same snapshot twice is the same as applying it once. */
  lemma ApplyWeatherIdempotent(form: InputForm)
    ensures ApplyWeatherData(ApplyWeatherData(form)) == ApplyWeatherData(form)
  {
  }

  /** A submit whose navigation threw leaves the record as it was, so
      submitting again hands off exactly that record. */
  lemma RetryAfterNavigationFailure(form: InputForm)
    requires Submit(form, true).outcome.NavigationFailed?
    ensures Submit(Submit(form, true).form, false).outcome == HandedOff(form.soil)
  {
  }

  /** After a typing session each field holds the value of the last edit to
      it, NaN included, and a field nobody edited keeps its value. */
  lemma {:induction false} SessionKeepsLastEdit(form: InputForm, edits: seq<Edit>)
    ensures forall f :: Get(ApplyEdits(form, edits).soil, f) == LastValue(edits, f, Get(form.soil, f))
    decreases |edits|
  {
    if |edits| > 0 {
      var next := HandleInputChange(form, edits[0].field, edits[0].parsed);
      SessionKeepsLastEdit(next, edits[1..]);
    }
  }

  /** The field a failed validation names is exactly the first offending field
      in record order: it fails, and every field before it passes. */
  lemma ValidationNamesFirstOffender(d: SoilData, f: Field)
    ensures ValidateForm(d) == Invalid(f) <==>
      !Acceptable(Get(d, f)) && forall g :: Position(g) < Position(f) ==> Acceptable(Get(d, g))
  {
  }

  /** A field that no event in the session touches keeps its value. */
  lemma {:induction false} UntouchedFieldKeepsValue(edits: seq<Edit>, f: Field, current: Num)
    requires forall i :: 0 <= i < |edits| ==> edits[i].field != f
    ensures LastValue(edits, f, current) == current
    decreases |edits|
  {
    if |edits| > 0 {
      UntouchedFieldKeepsValue(edits[1..], f, current);
    }
  }

  /** A field's value after the session is that of the last event for it. */
  lemma {:induction false} LastEditDecides(edits: seq<Edit>, f: Field, current: Num, k: nat)
    requires k < |edits| && edits[k].field == f
    requires forall i :: k < i < |edits| ==> edits[i].field != f
    ensures LastValue(edits, f, current) == edits[k].parsed
    decreases |edits|
  {
    if k == 0 {
      UntouchedFieldKeepsValue(edits[1..], f, edits[0].parsed);
    } else {
      var next := if edits[0].field == f then edits[0].parsed else current;
      LastEditDecides(edits[1..], f, next, k - 1);
    }
  }
}
