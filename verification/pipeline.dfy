/** The hand-off from the intake form to the results page, end to end. */
module Pipeline {
  import opened Wrappers
  import opened Numbers
  import opened Soil
  import opened InputPage
  import opened ResultsPage
  import ResultsPageProperties

  /** The page the user lands on after a submit: the results page, entered with
      the carried sample, when the submit handed one off; otherwise none. */
  function Navigate(s: Submission): (r: Option<ResultsState>)
    ensures r.Some? <==> s.outcome.HandedOff?
    ensures r.Some? ==> r.value.carried == Some(s.outcome.sample)
  {
    match s.outcome
    case HandedOff(sample) => Some(Enter(Some(sample)))
    case _ => None
  }

  /** A handed-off sample reaches the service as one request whose every
      property, under its service name, is the form's value, a number at or
      above zero. */
  lemma HandOffIssuesOneValidRequest(form: InputForm)
    requires Submit(form, false).outcome.HandedOff?
    ensures Navigate(Submit(form, false)).Some?
    ensures Navigate(Submit(form, false)).value.requests == [RequestBody(form.soil)]
    ensures PhaseOf(Navigate(Submit(form, false)).value) == Loading
    ensures forall f :: Lookup(RequestBody(form.soil), WireName(f)) == Some(Get(form.soil, f))
    ensures forall f :: Acceptable(Get(form.soil, f))
  {
  }

  /** A blocked submit never reaches the results page, so no request is issued. */
  lemma BlockedSubmitIssuesNothing(form: InputForm, navigationThrows: bool)
    requires exists f :: !Acceptable(Get(form.soil, f))
    ensures Navigate(Submit(form, navigationThrows)).None?
  {
  }

  /** The sample typed in the scenario: N 20, P 15, K 25, 25.5 degrees,
      65 % humidity, pH 6.5, 120 mm of rain. */
  function ScenarioForm(): (form: InputForm)
    ensures form.soil == SoilData(Val(20.0), Val(15.0), Val(25.0), Val(25.5), Val(65.0), Val(6.5), Val(120.0))
  {
    var f0 := Initial();
    var f1 := HandleInputChange(f0, Nitrogen, Val(20.0));
    var f2 := HandleInputChange(f1, Phosphorus, Val(15.0));
    var f3 := HandleInputChange(f2, Potassium, Val(25.0));
    var f4 := HandleInputChange(f3, Temperature, Val(25.5));
    var f5 := HandleInputChange(f4, Humidity, Val(65.0));
    var f6 := HandleInputChange(f5, Ph, Val(6.5));
    HandleInputChange(f6, Rainfall, Val(120.0))
  }

  /** End to end: the scenario sample is sent with the service's names, and a
      "maize" reply is shown as one card beside the echoed pH of 6.5. */
  lemma MaizeScenario()
    ensures Navigate(Submit(ScenarioForm(), false)).Some?
    ensures Navigate(Submit(ScenarioForm(), false)).value.requests
         == [PredictRequest(Val(20.0), Val(15.0), Val(25.0), Val(25.5), Val(65.0), Val(6.5), Val(120.0))]
    ensures Render(Settle(Navigate(Submit(ScenarioForm(), false)).value, Ok("maize"))).ResultsView?
    ensures Render(Settle(Navigate(Submit(ScenarioForm(), false)).value, Ok("maize"))).summary.ph == Val(6.5)
    ensures |Render(Settle(Navigate(Submit(ScenarioForm(), false)).value, Ok("maize"))).cards| == 1
    ensures Render(Settle(Navigate(Submit(ScenarioForm(), false)).value, Ok("maize"))).cards[0].title == "maize"
  {
    var form := ScenarioForm();
    assert ValidateForm(form.soil) == Valid;
    ResultsPageProperties.SuccessShowsOneCard(form.soil, "maize");
  }

  /** After a submit whose navigation threw, the form still holds the same
      record, so a retry opens the results page for exactly that record. */
  lemma RetryEntersPageForSameRecord(form: InputForm)
    requires Submit(form, true).outcome.NavigationFailed?
    ensures Navigate(Submit(Submit(form, true).form, false)) == Some(Enter(Some(form.soil)))
  {
  }
}
