/** The client map component: how a status string is coloured, how the
    NDVI bar and the quick-metric labels are banded, and the component state
    (`polygon`, `ndviResult`, `loading`) that a drawn polygon and the call to
    `/api/satellite` update.  Rendering itself is not modelled. */
module FieldMap {
  import opened Wrappers
  import opened Text
  import opened Json
  import SatelliteRoute
  import EarthEngineInit

  // ----- status colouring -----

  /** `status?.toLowerCase() || ''`: a missing status becomes the empty string. */
  function NormalizedStatus(status: Option<string>): (n: string)
    ensures status.None? ==> n == ""
    ensures status.Some? ==> |n| == |status.value|
    ensures forall i :: 0 <= i < |n| ==> !('A' <= n[i] <= 'Z')
    ensures status.Some? ==> forall i :: 0 <= i < |n| && !('A' <= status.value[i] <= 'Z') ==>
              n[i] == status.value[i]
    ensures status.Some? ==> forall i :: 0 <= i < |n| && 'A' <= status.value[i] <= 'Z' ==>
              n[i] as int == status.value[i] as int + 32
  {
    match status
    case None => ""
    case Some(s) => ToLower(s)
  }

  predicate SaysHealthy(s: string) { Contains(s, "healthy") || Contains(s, "good") }
  predicate SaysModerate(s: string) { Contains(s, "moderate") }
  predicate SaysPoor(s: string) { Contains(s, "poor") || Contains(s, "stress") }

  /** The four colour families the two functions choose between. */
  datatype Tone = Emerald | Yellow | Red | Blue

  function TextClass(t: Tone): string
  {
    match t
    case Emerald => "text-emerald-500"
    case Yellow => "text-yellow-500"
    case Red => "text-red-500"
    case Blue => "text-blue-500"
  }

  function BgClass(t: Tone): string
  {
    match t
    case Emerald => "bg-emerald-500/10 border-emerald-500/30"
    case Yellow => "bg-yellow-500/10 border-yellow-500/30"
    case Red => "bg-red-500/10 border-red-500/30"
    case Blue => "bg-blue-500/10 border-blue-500/30"
  }

  /** `getStatusColor`: the first matching test wins, in the order
      healthy/good, moderate, poor/stress, and anything else is blue. */
  function StatusColor(status: Option<string>): (cls: string)
    ensures var s := NormalizedStatus(status);
      && (cls == "text-emerald-500" <==> SaysHealthy(s))
      && (cls == "text-yellow-500" <==> !SaysHealthy(s) && SaysModerate(s))
      && (cls == "text-red-500" <==> !SaysHealthy(s) && !SaysModerate(s) && SaysPoor(s))
      && (cls == "text-blue-500" <==> !SaysHealthy(s) && !SaysModerate(s) && !SaysPoor(s))
  {
    var s := NormalizedStatus(status);
    if Contains(s, "healthy") || Contains(s, "good") then "text-emerald-500"
    else if Contains(s, "moderate") then "text-yellow-500"
    else if Contains(s, "poor") || Contains(s, "stress") then "text-red-500"
    else "text-blue-500"
  }

  /** `getStatusBg`: the same tests in the same order, with background classes. */
  function StatusBg(status: Option<string>): (cls: string)
    ensures var s := NormalizedStatus(status);
      && (cls == "bg-emerald-500/10 border-emerald-500/30" <==> SaysHealthy(s))
      && (cls == "bg-yellow-500/10 border-yellow-500/30" <==> !SaysHealthy(s) && SaysModerate(s))
      && (cls == "bg-red-500/10 border-red-500/30" <==> !SaysHealthy(s) && !SaysModerate(s) && SaysPoor(s))
      && (cls == "bg-blue-500/10 border-blue-500/30" <==> !SaysHealthy(s) && !SaysModerate(s) && !SaysPoor(s))
  {
    var s := NormalizedStatus(status);
    if Contains(s, "healthy") || Contains(s, "good") then "bg-emerald-500/10 border-emerald-500/30"
    else if Contains(s, "moderate") then "bg-yellow-500/10 border-yellow-500/30"
    else if Contains(s, "poor") || Contains(s, "stress") then "bg-red-500/10 border-red-500/30"
    else "bg-blue-500/10 border-blue-500/30"
  }

  /** Text colour and background always pick the same colour family. */
  lemma SameFamily(status: Option<string>, t: Tone)
    ensures StatusColor(status) == TextClass(t) <==> StatusBg(status) == BgClass(t)
  {
  }

  /** The three statuses the server sends, lower-cased. */
  lemma LowerCasedStatuses()
    ensures NormalizedStatus(Some(SatelliteRoute.Healthy)) == "healthy"
    ensures NormalizedStatus(Some(SatelliteRoute.ModerateStress)) == "moderate stress"
    ensures NormalizedStatus(Some(SatelliteRoute.HighStress)) == "high stress"
  {
  }

  /** The colouring ignores case: a status and its lower-cased form get the
      same text colour and the same background. */
  lemma StatusColoringIgnoresCase(s: string)
    ensures StatusColor(Some(s)) == StatusColor(Some(ToLower(s)))
    ensures StatusBg(Some(s)) == StatusBg(Some(ToLower(s)))
  {
    ToLowerIdempotent(s);
  }

  /** A status in capitals is coloured as the lower-case word. */
  lemma ShoutedHealthyIsEmerald()
    ensures StatusColor(Some("HEALTHY")) == TextClass(Emerald)
  {
    assert NormalizedStatus(Some("HEALTHY")) == "healthy";
    assert OccursAt("healthy", "healthy", 0);
  }

  /** "Healthy" is emerald. */
  lemma HealthyIsEmerald()
    ensures StatusColor(Some(SatelliteRoute.Healthy)) == TextClass(Emerald)
  {
    LowerCasedStatuses();
    assert OccursAt("healthy", "healthy", 0);
  }

  /** "Moderate Stress" is yellow, not red: the `moderate` test comes before
      the `stress` test. */
  lemma ModerateStressIsYellow()
    ensures StatusColor(Some(SatelliteRoute.ModerateStress)) == TextClass(Yellow)
  {
    LowerCasedStatuses();
    var m := "moderate stress";
    MissingCharExcludes(m, "healthy", 6);
    MissingCharExcludes(m, "good", 0);
    assert OccursAt(m, "moderate", 0);
  }

  /** "High Stress" is red. */
  lemma HighStressIsRed()
    ensures StatusColor(Some(SatelliteRoute.HighStress)) == TextClass(Red)
  {
    LowerCasedStatuses();
    var x := "high stress";
    MissingCharExcludes(x, "healthy", 6);
    MissingCharExcludes(x, "good", 1);
    MissingCharExcludes(x, "moderate", 0);
    assert OccursAt(x, "stress", 5);
  }

  /** The three statuses the server sends get three different colours. */
  lemma ServerStatusColours()
    ensures StatusColor(Some(SatelliteRoute.Healthy)) == TextClass(Emerald)
    ensures StatusColor(Some(SatelliteRoute.ModerateStress)) == TextClass(Yellow)
    ensures StatusColor(Some(SatelliteRoute.HighStress)) == TextClass(Red)
  {
    HealthyIsEmerald();
    ModerateStressIsYellow();
    HighStressIsRed();
  }

  /** A missing or empty status falls through every test to blue. */
  lemma MissingStatusIsBlue()
    ensures StatusColor(None) == TextClass(Blue) && StatusBg(None) == BgClass(Blue)
    ensures StatusColor(Some("")) == TextClass(Blue) && StatusBg(Some("")) == BgClass(Blue)
  {
    assert NormalizedStatus(Some("")) == "";
  }

  // ----- NDVI bar and quick metrics -----

  /** `Math.max` and `Math.min` on numbers that are not NaN. */
  function JsMax(a: real, b: real): real { if a >= b then a else b }
  function JsMin(a: real, b: real): real { if a <= b then a else b }

  /** The bar width in percent, `Math.min(Math.max(ndvi * 100, 0), 100)`. */
  function BarWidth(ndvi: real): (w: real)
    ensures 0.0 <= w <= 100.0
    ensures 0.0 <= ndvi <= 1.0 ==> w == ndvi * 100.0
    ensures ndvi <= 0.0 ==> w == 0.0
    ensures ndvi >= 1.0 ==> w == 100.0
  {
    JsMin(JsMax(ndvi * 100.0, 0.0), 100.0)
  }

  /** A larger NDVI never draws a shorter bar. */
  lemma BarWidthMonotone(a: real, b: real)
    requires a <= b
    ensures BarWidth(a) <= BarWidth(b)
  {
  }

  const EmeraldGradient := "bg-gradient-to-r from-emerald-600 via-emerald-500 to-emerald-400"
  const YellowGradient := "bg-gradient-to-r from-yellow-600 via-yellow-500 to-yellow-400"
  const RedGradient := "bg-gradient-to-r from-red-600 via-red-500 to-red-400"

  /** The colour of the bar's fill: the band the server would classify the
      same NDVI into. */
  function BarGradient(ndvi: real): (g: string)
    ensures g == EmeraldGradient <==> SatelliteRoute.Classify(Some(ndvi)) == SatelliteRoute.Healthy
    ensures g == YellowGradient <==> SatelliteRoute.Classify(Some(ndvi)) == SatelliteRoute.ModerateStress
    ensures g == RedGradient <==> SatelliteRoute.Classify(Some(ndvi)) == SatelliteRoute.HighStress
  {
    if ndvi > 0.6 then EmeraldGradient else if ndvi > 0.3 then YellowGradient else RedGradient
  }

  /** The "Chlorophyll" quick metric: High, Medium and Low on the server's
      three bands. */
  function ChlorophyllLabel(ndvi: real): (level: string)
    ensures level == "High" <==> SatelliteRoute.Classify(Some(ndvi)) == SatelliteRoute.Healthy
    ensures level == "Medium" <==> SatelliteRoute.Classify(Some(ndvi)) == SatelliteRoute.ModerateStress
    ensures level == "Low" <==> SatelliteRoute.Classify(Some(ndvi)) == SatelliteRoute.HighStress
  {
    if ndvi > 0.6 then "High" else if ndvi > 0.3 then "Medium" else "Low"
  }

  /** The "Stress Level" quick metric: Low, Medium and High on the server's
      three bands. */
  function StressLabel(ndvi: real): (level: string)
    ensures level == "Low" <==> SatelliteRoute.Classify(Some(ndvi)) == SatelliteRoute.Healthy
    ensures level == "Medium" <==> SatelliteRoute.Classify(Some(ndvi)) == SatelliteRoute.ModerateStress
    ensures level == "High" <==> SatelliteRoute.Classify(Some(ndvi)) == SatelliteRoute.HighStress
  {
    if ndvi > 0.6 then "Low" else if ndvi > 0.3 then "Medium" else "High"
  }

  /** The "Vigor" quick metric: four bands on strict thresholds. */
  function VigorLabel(ndvi: real): (vigor: string)
    ensures vigor == "Excellent" <==> ndvi > 0.7
    ensures vigor == "Good" <==> 0.5 < ndvi <= 0.7
    ensures vigor == "Fair" <==> 0.3 < ndvi <= 0.5
    ensures vigor == "Poor" <==> ndvi <= 0.3
  {
    if ndvi > 0.7 then "Excellent" else if ndvi > 0.5 then "Good" else if ndvi > 0.3 then "Fair" else "Poor"
  }

  /** High and Low swap, Medium stays. */
  function Mirror(level: string): string
  {
    if level == "High" then "Low" else if level == "Low" then "High" else level
  }

  /** The stress label is the chlorophyll label mirrored. */
  lemma StressMirrorsChlorophyll(ndvi: real)
    ensures StressLabel(ndvi) == Mirror(ChlorophyllLabel(ndvi))
    ensures ChlorophyllLabel(ndvi) == Mirror(StressLabel(ndvi))
  {
  }

  /** The bar and the chlorophyll label follow the server's classification
      of the same NDVI. */
  lemma BandsAgreeWithServer(ndvi: real)
    ensures SatelliteRoute.Classify(Some(ndvi)) == SatelliteRoute.Healthy <==>
              BarGradient(ndvi) == EmeraldGradient && ChlorophyllLabel(ndvi) == "High"
    ensures SatelliteRoute.Classify(Some(ndvi)) == SatelliteRoute.ModerateStress <==>
              BarGradient(ndvi) == YellowGradient && ChlorophyllLabel(ndvi) == "Medium"
    ensures SatelliteRoute.Classify(Some(ndvi)) == SatelliteRoute.HighStress <==>
              BarGradient(ndvi) == RedGradient && ChlorophyllLabel(ndvi) == "Low"
  {
  }

  /** The bar is drawn in the colour family of the status text. */
  lemma BarMatchesStatusColour(ndvi: real)
    ensures BarGradient(ndvi) == EmeraldGradient ==>
              StatusColor(Some(SatelliteRoute.Classify(Some(ndvi)))) == TextClass(Emerald)
    ensures BarGradient(ndvi) == YellowGradient ==>
              StatusColor(Some(SatelliteRoute.Classify(Some(ndvi)))) == TextClass(Yellow)
    ensures BarGradient(ndvi) == RedGradient ==>
              StatusColor(Some(SatelliteRoute.Classify(Some(ndvi)))) == TextClass(Red)
  {
    ServerStatusColours();
    BandsAgreeWithServer(ndvi);
  }

  /** Vigor refines the server's classification: Excellent is always
      Healthy, Fair always Moderate Stress, Poor exactly High Stress. */
  lemma VigorRefinesStatus(ndvi: real)
    ensures VigorLabel(ndvi) == "Excellent" ==> SatelliteRoute.Classify(Some(ndvi)) == SatelliteRoute.Healthy
    ensures VigorLabel(ndvi) == "Fair" ==> SatelliteRoute.Classify(Some(ndvi)) == SatelliteRoute.ModerateStress
    ensures VigorLabel(ndvi) == "Poor" <==> SatelliteRoute.Classify(Some(ndvi)) == SatelliteRoute.HighStress
  {
  }

  // ----- talking to the server -----

  /** The polygon as Leaflet's GeoJSON gives it: rings of [lng, lat] pairs. */
  type Coords = seq<seq<seq<real>>>

  function CoordsJson(coords: Coords): JsValue
  {
    JsArray(seq(|coords|, i requires 0 <= i < |coords| =>
      JsArray(seq(|coords[i]|, j requires 0 <= j < |coords[i]| =>
        JsArray(seq(|coords[i][j]|, k requires 0 <= k < |coords[i][j]| => JsNumber(coords[i][j][k])))))))
  }

  /** The body `JSON.stringify({ polygon: coords })` as the handler reads it. */
  function RequestFor(coords: Coords): SatelliteRoute.Request
  {
    SatelliteRoute.Request(Some(JsObject(map["polygon" := CoordsJson(coords)])))
  }

  /** The client always sends an array, and every array is truthy, so its
      requests are never answered 400, even for an empty drawing. */
  lemma ClientRequestNeverRejected(init: Outcome<EarthEngineInit.InitError>, coords: Coords, ee: SatelliteRoute.EarthEngine)
    ensures SatelliteRoute.Post(init, RequestFor(coords), ee).code != 400
  {
    assert Get(RequestFor(coords).json.value, "polygon") == Some(CoordsJson(coords));
  }

  /** The `status` field of whatever the server answered: an error body has
      none. */
  function ResultStatus(data: SatelliteRoute.Body): Option<string>
  {
    match data
    case NdviReport(_, status, _) => Some(status)
    case ErrorReport(_) => None
  }

  /** `getStatusColor` applied to each answer of the handler: a report gets
      the colour of its band, a status-less error body (400 or 500) blue.
      Whether the result card can show such an answer at all is
      `CardRenders`. */
  lemma AnswerColours(init: Outcome<EarthEngineInit.InitError>, req: SatelliteRoute.Request, ee: SatelliteRoute.EarthEngine)
    ensures var r := SatelliteRoute.Post(init, req, ee);
      && (r.code != 200 ==> StatusColor(ResultStatus(r.body)) == TextClass(Blue))
      && (r.code == 200 && r.body.status == SatelliteRoute.Healthy ==>
            StatusColor(ResultStatus(r.body)) == TextClass(Emerald))
      && (r.code == 200 && r.body.status == SatelliteRoute.ModerateStress ==>
            StatusColor(ResultStatus(r.body)) == TextClass(Yellow))
      && (r.code == 200 && r.body.status == SatelliteRoute.HighStress ==>
            StatusColor(ResultStatus(r.body)) == TextClass(Red))
  {
    ServerStatusColours();
    MissingStatusIsBlue();
  }

  /** Whether the result card can be drawn for a stored answer.  Its first
      figure is `ndviResult.ndvi.toFixed(3)`, which throws unless `ndvi` is
      a number: an error body has no `ndvi`, and the missing-mean report
      carries `null`. */
  predicate CardRenders(data: SatelliteRoute.Body)
  {
    data.NdviReport? && data.ndvi.Some?
  }

  /** The card renders for exactly the answers that carry a mean Earth
      Engine delivered as a number. */
  lemma RenderedAnswers(init: Outcome<EarthEngineInit.InitError>, req: SatelliteRoute.Request, ee: SatelliteRoute.EarthEngine)
    ensures CardRenders(SatelliteRoute.Post(init, req, ee).body) <==>
              init.Pass? && req.json.Some? && Get(req.json.value, "polygon").Some?
              && Truthy(Get(req.json.value, "polygon").value)
              && SatelliteRoute.FieldNdvi(ee, Get(req.json.value, "polygon").value).Mean?
              && SatelliteRoute.FieldNdvi(ee, Get(req.json.value, "polygon").value).nd.Some?
  {
    SatelliteRoute.SuccessIffMeanDelivered(init, req, ee);
  }

  /** The server's deliberate answer to a missing mean, 200 "High Stress"
      with a `null` ndvi, is an answer the card cannot draw. */
  lemma MissingMeanNeverShown(init: Outcome<EarthEngineInit.InitError>, req: SatelliteRoute.Request, ee: SatelliteRoute.EarthEngine)
    requires init.Pass? && req.json.Some? && Get(req.json.value, "polygon").Some?
    requires Truthy(Get(req.json.value, "polygon").value)
    requires SatelliteRoute.FieldNdvi(ee, Get(req.json.value, "polygon").value) == SatelliteRoute.Mean(None)
    ensures SatelliteRoute.Post(init, req, ee).code == 200
    ensures SatelliteRoute.Post(init, req, ee).body.status == SatelliteRoute.HighStress
    ensures !CardRenders(SatelliteRoute.Post(init, req, ee).body)
  {
    SatelliteRoute.MissingMeanIsHighStress(init, req, ee);
  }

  /** A card that guards the NDVI figure (printing a placeholder for a
      `null` ndvi) can be drawn for every report. */
  predicate GuardedCardRenders(data: SatelliteRoute.Body)
  {
    data.NdviReport?
  }

  /** With the guarded card every 200 answer is drawn, error answers are
      not, and the missing-mean answer is drawn in red as High Stress. */
  lemma EveryReportShown(init: Outcome<EarthEngineInit.InitError>, req: SatelliteRoute.Request, ee: SatelliteRoute.EarthEngine)
    ensures var r := SatelliteRoute.Post(init, req, ee);
      && (GuardedCardRenders(r.body) <==> r.code == 200)
      && (r.code == 200 && r.body.ndvi.None? ==>
            r.body.status == SatelliteRoute.HighStress
            && StatusColor(ResultStatus(r.body)) == TextClass(Red))
  {
    HighStressIsRed();
  }

  /** How a `fetch` of `/api/satellite` ended: with a parsed JSON answer
      (whatever its HTTP status), or by throwing (network error, or a body
      that is not JSON). */
  datatype FetchOutcome = Responded(data: SatelliteRoute.Body) | FetchThrew

  /** The component's state. */
  class FieldMapView {
    var polygon: Option<Coords>
    var ndviResult: Option<SatelliteRoute.Body>
    var loading: bool
    /** The polygons posted to `/api/satellite`, in order. */
    ghost var sent: seq<Coords>

    constructor ()
      ensures polygon == None && ndviResult == None && !loading && sent == []
    {
      polygon, ndviResult, loading := None, None, false;
      sent := [];
    }

    /** The display condition of the result and quick-metric cards: a
        polygon is drawn, a result is held and nothing is loading.  It never
        holds together with the loading card's. */
    predicate ShowsResult()
      reads this
      ensures ShowsResult() ==> !ShowsLoading()
    {
      polygon.Some? && ndviResult.Some? && !loading
    }

    /** The display condition of the "Analyzing Field" card: a request is
        in flight, and it sits among the cards drawn only once a polygon is. */
    predicate ShowsLoading()
      reads this
      ensures ShowsLoading() ==> polygon.Some?
    {
      polygon.Some? && loading
    }

    /** `sendPolygonToBackend` up to its `await`: `setLoading(true)` and the
        POST of `{ polygon: coords }`. */
    method StartRequest(coords: Coords) returns (req: SatelliteRoute.Request)
      modifies this
      ensures loading && req == RequestFor(coords)
      ensures sent == old(sent) + [coords]
      ensures polygon == old(polygon) && ndviResult == old(ndviResult)
    {
      loading := true;
      sent := sent + [coords];
      req := RequestFor(coords);
    }

    /** The rest of `sendPolygonToBackend`: store the answer when the fetch
        did not throw, and in the `finally` clear `loading`. */
    method FinishRequest(outcome: FetchOutcome)
      modifies this
      ensures !loading
      ensures ndviResult == (if outcome.Responded? then Some(outcome.data) else old(ndviResult))
      ensures polygon == old(polygon) && sent == old(sent)
    {
      if outcome.Responded? {
        ndviResult := Some(outcome.data);
      }
      loading := false;
    }

    /** `sendPolygonToBackend(coords)` when nothing else runs in between. */
    method SendPolygonToBackend(coords: Coords, outcome: FetchOutcome) returns (req: SatelliteRoute.Request)
      modifies this
      ensures req == RequestFor(coords) && sent == old(sent) + [coords]
      ensures !loading
      ensures ndviResult == (if outcome.Responded? then Some(outcome.data) else old(ndviResult))
      ensures polygon == old(polygon)
    {
      req := StartRequest(coords);
      FinishRequest(outcome);
    }

    /** `handlePolygonCreated(coords)` up to the `await` of the fetch: the
        polygon is recorded and the request posted, so while it is in flight
        the "Analyzing Field" card shows and the previous result is kept. */
    method BeginAnalysis(coords: Coords) returns (req: SatelliteRoute.Request)
      modifies this
      ensures polygon == Some(coords) && ShowsLoading() && !ShowsResult()
      ensures req == RequestFor(coords) && sent == old(sent) + [coords]
      ensures ndviResult == old(ndviResult)
    {
      polygon := Some(coords);
      req := StartRequest(coords);
    }

    /** `handlePolygonCreated(coords)`: record the polygon, then send it; the
        request starts as `BeginAnalysis` and ends as `FinishRequest`. */
    method HandlePolygonCreated(coords: Coords, outcome: FetchOutcome) returns (req: SatelliteRoute.Request)
      modifies this
      ensures polygon == Some(coords)
      ensures req == RequestFor(coords) && sent == old(sent) + [coords]
      ensures !loading && !ShowsLoading()
      ensures ndviResult == (if outcome.Responded? then Some(outcome.data) else old(ndviResult))
      ensures outcome.Responded? ==> ShowsResult()
    {
      req := BeginAnalysis(coords);
      FinishRequest(outcome);
    }
  }
}
