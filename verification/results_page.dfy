/** The results controller: the request body sent to the prediction service,
    the fetch lifecycle driven by the carried sample, and what the page
    renders from its state. Each event is a pure transition on `ResultsState`. */
module ResultsPage {
  import opened Wrappers
  import opened Numbers
  import opened Soil

  /** The object serialised as the prediction request body, with the service's
      field names (before `JSON.stringify`, which would write NaN as `null`). */
  datatype PredictRequest = PredictRequest(
    N: Num,
    P: Num,
    K: Num,
    temperature: Num,
    humidity: Num,
    ph: Num,
    rainfall: Num)

  /** One recommendation card's data. `confidence` and `description` are optional. */
  datatype CropRecommendation = CropRecommendation(
    name: string,
    confidence: Option<Num>,
    description: Option<string>)

  /** How the request ended, as the controller observes it: a 2xx response
      whose body carries `prediction`, a non-2xx response, or an error raised
      by the transport or the body parser, with its `message` ("" when absent). */
  datatype Outcome = Ok(prediction: string) | NotOk | Thrown(message: string)

  /** Component state of the results page, plus the log of requests issued. */
  datatype ResultsState = ResultsState(
    carried: Option<SoilData>,
    recommendations: seq<CropRecommendation>,
    loading: bool,
    error: Option<string>,
    requests: seq<PredictRequest>)

  /** Display class of a confidence badge. */
  datatype Tier = Muted | Harvest | Leaf

  datatype Badge = Badge(className: string, confidence: Num)
  datatype Card = Card(title: string, badge: Option<Badge>, body: string)

  /** The echoed part of the sample: nitrogen, phosphorus, potassium and pH. */
  datatype Summary = Summary(nitrogen: Num, phosphorus: Num, potassium: Num, ph: Num)

  datatype View =
    | NoDataView
    | ResultsView(summary: Summary, showsLoading: bool, shownError: Option<string>, cards: seq<Card>)

  /** The abstract phase of the page. `Idle` is the instant between mounting
      with a sample and the effect starting the fetch. */
  datatype Phase = NoData | Idle | Loading | Loaded | Failed

  const FetchFailedMessage: string := "Failed to fetch predictions"
  const FallbackErrorMessage: string := "Something went wrong"
  const AiDescription: string := "AI-powered recommendation based on your soil data."
  const DefaultDescription: string := "AI-powered recommendation based on soil conditions."

  /** The name the prediction service expects for each field. */
  function WireName(f: Field): string
  {
    match f
    case Nitrogen => "N"
    case Phosphorus => "P"
    case Potassium => "K"
    case _ => Key(f)
  }

  /** Reads a request body property by its JSON name. */
  function Lookup(b: PredictRequest, name: string): Option<Num>
  {
    if name == "N" then Some(b.N)
    else if name == "P" then Some(b.P)
    else if name == "K" then Some(b.K)
    else if name == "temperature" then Some(b.temperature)
    else if name == "humidity" then Some(b.humidity)
    else if name == "ph" then Some(b.ph)
    else if name == "rainfall" then Some(b.rainfall)
    else None
  }

  /** The request body built from a sample: under its service name, every
      field carries the sample's value. */
  function RequestBody(d: SoilData): (b: PredictRequest)
    ensures forall f :: Lookup(b, WireName(f)) == Some(Get(d, f))
  {
    PredictRequest(d.nitrogen, d.phosphorus, d.potassium, d.temperature, d.humidity, d.ph, d.rainfall)
  }

  /** Reads a sample back out of a request body. */
  function SampleOf(b: PredictRequest): (d: SoilData)
    ensures forall f :: Some(Get(d, f)) == Lookup(b, WireName(f))
  {
    SoilData(b.N, b.P, b.K, b.temperature, b.humidity, b.ph, b.rainfall)
  }

  /** The recommendation built from a successful response: its name is the
      prediction, its description the fixed text, and it has no confidence. */
  function AiCrop(prediction: string): (c: CropRecommendation)
    ensures c.name == prediction
    ensures c.confidence.None?
    ensures c.description == Some("AI-powered recommendation based on your soil data.")
  {
    CropRecommendation(prediction, None, Some(AiDescription))
  }

  /** `err.message || "Something went wrong"` */
  function ErrorText(message: string): (t: string)
    ensures t != ""
    ensures message != "" ==> t == message
    ensures message == "" ==> t == "Something went wrong"
  {
    if message != "" then message else FallbackErrorMessage
  }

  /** The state right after mounting, before the effect runs. */
  function Mounted(carried: Option<SoilData>): (s: ResultsState)
    ensures s.carried == carried
    ensures s.recommendations == [] && !s.loading && s.error.None? && s.requests == []
  {
    ResultsState(carried, [], false, None, [])
  }

  /** The start of `fetchRecommendations(data)`: loading on, error cleared, one
      request issued with the body built from `data`. */
  function StartFetch(s: ResultsState, data: SoilData): (r: ResultsState)
    ensures r.loading && r.error.None?
    ensures r.requests == s.requests + [RequestBody(data)]
    ensures r.carried == s.carried && r.recommendations == s.recommendations
  {
    s.(loading := true, error := None, requests := s.requests + [RequestBody(data)])
  }

  /** The effect on the carried state: fetch when a sample was carried, else nothing. */
  function RunEffect(s: ResultsState): (r: ResultsState)
    ensures s.carried.None? ==> r == s
    ensures s.carried.Some? ==>
      && r.loading && r.error.None?
      && r.requests == s.requests + [RequestBody(s.carried.value)]
      && r.carried == s.carried && r.recommendations == s.recommendations
  {
    match s.carried
    case None => s
    case Some(data) => StartFetch(s, data)
  }

  /** Entering the results page: mount, then run the effect once. */
  function Enter(carried: Option<SoilData>): (s: ResultsState)
    ensures s.carried == carried && s.recommendations == [] && s.error.None?
    ensures s.loading <==> carried.Some?
    ensures carried.None? ==> s.requests == []
    ensures carried.Some? ==> s.requests == [RequestBody(carried.value)]
  {
    RunEffect(Mounted(carried))
  }

  /** The end of `fetchRecommendations`. A non-2xx response is raised as an
      error with the fixed message, so it takes the same path as a thrown
      error. `finally` turns loading off on every path. */
  function Settle(s: ResultsState, outcome: Outcome): (r: ResultsState)
    ensures !r.loading
    ensures r.carried == s.carried && r.requests == s.requests
    ensures outcome.Ok? ==> r.recommendations == [AiCrop(outcome.prediction)] && r.error == s.error
    ensures outcome.NotOk? ==> r.error == Some("Failed to fetch predictions")
    ensures outcome.Thrown? ==> r.error == Some(ErrorText(outcome.message))
    ensures !outcome.Ok? ==> r.recommendations == s.recommendations
  {
    match outcome
    case Ok(prediction) => s.(recommendations := [AiCrop(prediction)], loading := false)
    case NotOk => Catch(s, FetchFailedMessage)
    case Thrown(message) => Catch(s, message)
  }

  /** The `catch` and `finally` clauses for an error carrying `message`. */
  function Catch(s: ResultsState, message: string): (r: ResultsState)
    ensures r.error == Some(ErrorText(message))
    ensures r.error.Some? && r.error.value != ""
    ensures !r.loading && r.recommendations == s.recommendations
    ensures r.carried == s.carried && r.requests == s.requests
  {
    s.(error := Some(ErrorText(message)), loading := false)
  }

  /** `getConfidenceColor`: a falsy or missing confidence is muted; otherwise
      85 and above is leaf, 70 and above is harvest, anything lower is muted. */
  function GetConfidenceColor(confidence: Option<Num>): (t: Tier)
    ensures t == Leaf <==> confidence.Some? && confidence.value.Val? && confidence.value.r >= 85.0
    ensures t == Harvest <==>
      confidence.Some? && confidence.value.Val? && 70.0 <= confidence.value.r < 85.0
  {
    if confidence.None? || !Truthy(confidence.value) then Muted
    else if confidence.value.r >= 85.0 then Leaf
    else if confidence.value.r >= 70.0 then Harvest
    else Muted
  }

  /** The CSS classes of each tier. */
  function TierClass(t: Tier): string
  {
    match t
    case Muted => "bg-muted text-muted-foreground"
    case Leaf => "bg-leaf text-primary-foreground"
    case Harvest => "bg-harvest text-accent-foreground"
  }

  /** The class string `getConfidenceColor` returns for a confidence. */
  function ConfidenceClass(confidence: Option<Num>): (cls: string)
    ensures cls == "bg-leaf text-primary-foreground" <==>
      confidence.Some? && confidence.value.Val? && confidence.value.r >= 85.0
    ensures cls == "bg-harvest text-accent-foreground" <==>
      confidence.Some? && confidence.value.Val? && 70.0 <= confidence.value.r < 85.0
    ensures cls == "bg-muted text-muted-foreground" <==>
      !(confidence.Some? && confidence.value.Val? && confidence.value.r >= 70.0)
  {
    TierClass(GetConfidenceColor(confidence))
  }

  /** Ordering of the tiers from lowest to highest confidence. */
  function TierRank(t: Tier): nat
  {
    match t
    case Muted => 0
    case Harvest => 1
    case Leaf => 2
  }

  /** One card: the badge only for a truthy confidence, and the default text
      when the description is missing or empty. */
  function RenderCard(c: CropRecommendation): (card: Card)
    ensures card.title == c.name
    ensures card.badge.Some? <==> c.confidence.Some? && Truthy(c.confidence.value)
    ensures card.badge.Some? ==>
      card.badge.value == Badge(ConfidenceClass(c.confidence), c.confidence.value)
    ensures card.body == (if c.description.Some? && c.description.value != ""
                          then c.description.value else DefaultDescription)
  {
    var badge := if c.confidence.Some? && Truthy(c.confidence.value)
                 then Some(Badge(ConfidenceClass(c.confidence), c.confidence.value))
                 else None;
    var body := if c.description.Some? && c.description.value != ""
                then c.description.value else DefaultDescription;
    Card(c.name, badge, body)
  }

  /** What the page shows. With no carried sample it is always the no-data
      view; otherwise the echoed sample, the loading line while loading, the
      error line when the error is a non-empty string, and one card per
      recommendation in order. */
  function Render(s: ResultsState): (v: View)
    ensures s.carried.None? <==> v.NoDataView?
    ensures v.ResultsView? ==>
      && v.summary == Summary(s.carried.value.nitrogen, s.carried.value.phosphorus,
                              s.carried.value.potassium, s.carried.value.ph)
      && (v.showsLoading <==> s.loading)
      && (v.shownError.Some? <==> s.error.Some? && s.error.value != "")
      && (v.shownError.Some? ==> v.shownError == s.error)
      && |v.cards| == |s.recommendations|
      && forall i :: 0 <= i < |v.cards| ==> v.cards[i] == RenderCard(s.recommendations[i])
  {
    match s.carried
    case None => NoDataView
    case Some(d) =>
      var shownError := if s.error.Some? && s.error.value != "" then s.error else None;
      var cards := seq(|s.recommendations|, i requires 0 <= i < |s.recommendations| =>
                         RenderCard(s.recommendations[i]));
      ResultsView(Summary(d.nitrogen, d.phosphorus, d.potassium, d.ph), s.loading, shownError, cards)
  }

  /** The phase the state is in. */
  function PhaseOf(s: ResultsState): Phase
  {
    if s.carried.None? then NoData
    else if s.loading then Loading
    else if s.error.Some? then Failed
    else if |s.recommendations| > 0 then Loaded
    else Idle
  }
}
