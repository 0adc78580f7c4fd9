/** Properties of the results controller: the request-body mapping is a
    renaming, the lifecycle moves through the expected phases, and the
    presentation rules hold for every recommendation the page can build. */
module ResultsPageProperties {
  import opened Wrappers
  import opened Numbers
  import opened Soil
  import opened ResultsPage

  /** Reading a sample back out of its request body gives the sample. */
  lemma RequestBodyRoundTrip(d: SoilData)
    ensures SampleOf(RequestBody(d)) == d
  {
  }

  /** Every request body is the body of the sample read out of it, so the
      mapping loses nothing in either direction. */
  lemma SampleOfRoundTrip(b: PredictRequest)
    ensures RequestBody(SampleOf(b)) == b
  {
  }

  /** The mapping renames exactly nitrogen, phosphorus and potassium, and no two
      fields share a service name. */
  lemma WireNaming(f: Field, g: Field)
    ensures WireName(f) != Key(f) <==> f in {Nitrogen, Phosphorus, Potassium}
    ensures WireName(f) == WireName(g) ==> f == g
  {
  }

  /** Without a carried sample the page issues no request and renders the
      no-data view, never the loading or error view. */
  lemma NoCarriedSample()
    ensures Enter(None).requests == []
    ensures PhaseOf(Enter(None)) == NoData
    ensures Render(Enter(None)) == NoDataView
  {
  }

  /** With a carried sample the page issues one request for it and shows the
      loading line with no error and no cards. */
  lemma CarriedSampleStartsLoading(d: SoilData)
    ensures Enter(Some(d)).requests == [RequestBody(d)]
    ensures PhaseOf(Enter(Some(d))) == Loading
    ensures Render(Enter(Some(d))).ResultsView?
    ensures Render(Enter(Some(d))).showsLoading
    ensures Render(Enter(Some(d))).shownError.None?
    ensures Render(Enter(Some(d))).cards == []
  {
  }

  /** A successful response ends loading and yields exactly one card: the
      prediction as title, no badge, and the fixed description. */
  lemma SuccessShowsOneCard(d: SoilData, prediction: string)
    ensures PhaseOf(Settle(Enter(Some(d)), Ok(prediction))) == Loaded
    ensures Settle(Enter(Some(d)), Ok(prediction)).recommendations == [AiCrop(prediction)]
    ensures Render(Settle(Enter(Some(d)), Ok(prediction))).ResultsView?
    ensures Render(Settle(Enter(Some(d)), Ok(prediction))).cards
         == [Card(prediction, None, "AI-powered recommendation based on your soil data.")]
    ensures !Render(Settle(Enter(Some(d)), Ok(prediction))).showsLoading
    ensures Render(Settle(Enter(Some(d)), Ok(prediction))).shownError.None?
  {
    var s := Settle(Enter(Some(d)), Ok(prediction));
    assert Render(s).cards[0] == RenderCard(AiCrop(prediction));
  }

  /** A failed request ends loading, shows a non-empty error and no card. */
  lemma FailureShowsError(d: SoilData, outcome: Outcome)
    requires !outcome.Ok?
    ensures PhaseOf(Settle(Enter(Some(d)), outcome)) == Failed
    ensures Settle(Enter(Some(d)), outcome).recommendations == []
    ensures Render(Settle(Enter(Some(d)), outcome)).ResultsView?
    ensures Render(Settle(Enter(Some(d)), outcome)).shownError.Some?
    ensures Render(Settle(Enter(Some(d)), outcome)).shownError.value != ""
    ensures Render(Settle(Enter(Some(d)), outcome)).cards == []
    ensures !Render(Settle(Enter(Some(d)), outcome)).showsLoading
  {
  }

  /** A non-2xx response behaves exactly as an error raised with the fixed
      message, and a message-less error shows the generic fallback. */
  lemma ErrorMessages(s: ResultsState)
    ensures Settle(s, NotOk) == Settle(s, Thrown("Failed to fetch predictions"))
    ensures Settle(s, Thrown("")).error == Some("Something went wrong")
  {
  }

  /** A missing, zero or NaN confidence is muted. */
  lemma FalsyConfidenceIsMuted()
    ensures GetConfidenceColor(None) == Muted
    ensures GetConfidenceColor(Some(Val(0.0))) == Muted
    ensures GetConfidenceColor(Some(NaN)) == Muted
  {
  }

  /** A higher confidence never gets a lower tier. */
  lemma ConfidenceColorMonotone(a: real, b: real)
    requires a <= b
    ensures TierRank(GetConfidenceColor(Some(Val(a)))) <= TierRank(GetConfidenceColor(Some(Val(b))))
  {
  }

  /** Cards built from a successful response never show a badge, because they
      carry no confidence, and always show the fixed description. */
  lemma SuccessCardHasNoBadge(prediction: string)
    ensures RenderCard(AiCrop(prediction)).badge.None?
    ensures RenderCard(AiCrop(prediction)).body == "AI-powered recommendation based on your soil data."
  {
  }

  /** A recommendation whose description is missing or empty shows the default text. */
  lemma DescriptionFallback(c: CropRecommendation)
    requires c.description.None? || c.description == Some("")
    ensures RenderCard(c).body == "AI-powered recommendation based on soil conditions."
  {
  }
}
