/** The `POST /api/satellite` handler: start Earth Engine, read the polygon
    from the request, pick the least cloudy Sentinel-2 scene over it in
    January 2024, average its NDVI over the field at 10 m and classify the
    mean into a health status.  Earth Engine's catalogue and computations
    are the oracle `EarthEngine`; the outcome of `initEarthEngine()` is a
    parameter. */
module SatelliteRoute {
  import opened Wrappers
  import opened Json
  import EarthEngineInit

  // ----- constants of the handler -----

  const Collection := "COPERNICUS/S2"
  /** The date window as yyyymmdd day numbers; `filterDate` excludes its end. */
  const WindowStart: nat := 20240101
  const WindowEnd: nat := 20240131
  const NirBand := "B8"
  const RedBand := "B4"
  const ScaleMeters: nat := 10
  const MaxPixels: nat := 1000000000
  const HealthyAbove: real := 0.6
  const StressAbove: real := 0.3

  const Healthy := "Healthy"
  const ModerateStress := "Moderate Stress"
  const HighStress := "High Stress"
  const Source := "Sentinel-2 (Field NDVI)"
  const PolygonRequired := "Polygon is required"
  const NdviFailed := "Earth Engine NDVI failed"

  // ----- the Earth Engine oracle -----

  /** A scene of the collection: its acquisition day (yyyymmdd) and its
      `CLOUDY_PIXEL_PERCENTAGE` property. */
  datatype Scene = Scene(id: string, day: nat, cloudyPixelPercentage: real)

  /** The `reduceRegion` request the handler builds for a scene. */
  datatype NdviQuery = NdviQuery(scene: Scene, geometry: JsValue, nir: string, red: string, scale: nat, maxPixels: nat)

  /** What `stats.get("nd").getInfo()` yields: it throws, or it delivers the
      mean, which is `null` when no pixel of the field had a value. */
  datatype Reduction = Threw | Mean(nd: Option<real>)

  datatype EarthEngine = EarthEngine(
    catalog: string -> seq<Scene>,        // `ee.ImageCollection(id)`, in the backend's order
    acceptsPolygon: JsValue -> bool,      // `ee.Geometry.Polygon(polygon)` does not throw
    intersects: (JsValue, Scene) -> bool, // `filterBounds`
    reduce: NdviQuery -> Reduction)       // mean of `normalizedDifference`, then `getInfo`

  predicate InWindow(s: Scene)
  {
    WindowStart <= s.day < WindowEnd
  }

  /** A scene of the collection the handler filters for: over the field and
      in the window. */
  predicate Qualifies(ee: EarthEngine, polygon: JsValue, s: Scene)
  {
    s in ee.catalog(Collection) && InWindow(s) && ee.intersects(polygon, s)
  }

  /** `filterBounds(field).filterDate(start, end)`: the scenes over the field
      in the window, in catalogue order. */
  function Candidates(catalog: seq<Scene>, inField: Scene -> bool): (c: seq<Scene>)
    ensures forall s :: s in c <==> s in catalog && InWindow(s) && inField(s)
    ensures |c| <= |catalog|
  {
    if catalog == [] then []
    else
      var rest := Candidates(catalog[1..], inField);
      if InWindow(catalog[0]) && inField(catalog[0]) then [catalog[0]] + rest else rest
  }

  /** `sort("CLOUDY_PIXEL_PERCENTAGE").first()`: the position of the least
      cloudy scene, the earliest one among equals; `None` when there is none. */
  function LeastCloudy(c: seq<Scene>): (k: Option<nat>)
    ensures k.None? <==> c == []
    ensures k.Some? ==> k.value < |c|
    ensures k.Some? ==> forall j :: 0 <= j < |c| ==>
              c[k.value].cloudyPixelPercentage <= c[j].cloudyPixelPercentage
    ensures k.Some? ==> forall j :: 0 <= j < k.value ==>
              c[k.value].cloudyPixelPercentage < c[j].cloudyPixelPercentage
  {
    if c == [] then None
    else match LeastCloudy(c[1..])
      case None => Some(0)
      case Some(k) =>
        if c[k + 1].cloudyPixelPercentage < c[0].cloudyPixelPercentage then Some(k + 1) else Some(0)
  }

  /** The scene the handler's image comes from: the least cloudy scene of
      Sentinel-2 over the field in the window. */
  function ChosenScene(ee: EarthEngine, polygon: JsValue): (chosen: Option<Scene>)
    ensures chosen.Some? ==> Qualifies(ee, polygon, chosen.value)
    ensures chosen.None? ==> forall s :: s in ee.catalog(Collection) ==> !Qualifies(ee, polygon, s)
  {
    var c := Candidates(ee.catalog(Collection), s => ee.intersects(polygon, s));
    match LeastCloudy(c)
    case None => None
    case Some(k) => Some(c[k])
  }

  function NdviQueryFor(scene: Scene, polygon: JsValue): NdviQuery
  {
    NdviQuery(scene, polygon, NirBand, RedBand, ScaleMeters, MaxPixels)
  }

  /** The lazily built Earth Engine chain, evaluated by `getInfo`: a polygon
      Earth Engine rejects, an empty collection (whose `first()` is no image)
      and a failing reduction all throw. */
  function FieldNdvi(ee: EarthEngine, polygon: JsValue): (r: Reduction)
    ensures r.Mean? ==> ee.acceptsPolygon(polygon) && ChosenScene(ee, polygon).Some?
  {
    if !ee.acceptsPolygon(polygon) then Threw
    else match ChosenScene(ee, polygon)
      case None => Threw
      case Some(scene) => ee.reduce(NdviQueryFor(scene, polygon))
  }

  // ----- classification -----

  /** The JavaScript comparison `v > t` against the positive thresholds
      used here: `null` (which converts to 0) and `undefined` (NaN) both
      compare false. */
  predicate Above(v: Option<real>, t: real)
  {
    v.Some? && v.value > t
  }

  /** `let status = "Unknown"` overwritten by the if / else-if / else chain
      on the mean: strict thresholds, so a boundary value falls to the lower
      band, and a missing mean is High Stress. */
  function Classify(ndvi: Option<real>): (status: string)
    ensures status == Healthy <==> ndvi.Some? && ndvi.value > 0.6
    ensures status == ModerateStress <==> ndvi.Some? && 0.3 < ndvi.value <= 0.6
    ensures status == HighStress <==> ndvi.None? || ndvi.value <= 0.3
    ensures status != "Unknown"
  {
    if Above(ndvi, HealthyAbove) then Healthy
    else if Above(ndvi, StressAbove) then ModerateStress
    else HighStress
  }

  /** How bad a status is: 0 for Healthy, 1 for Moderate Stress, 2 otherwise. */
  function Severity(status: string): nat
  {
    if status == Healthy then 0 else if status == ModerateStress then 1 else 2
  }

  // ----- the handler -----

  datatype Body =
    | NdviReport(ndvi: Option<real>, status: string, source: string)
    | ErrorReport(error: string)

  datatype Response = Response(code: nat, body: Body)

  /** The request as the handler sees it: `req.json()` rejects (`None`) or
      yields a value. */
  datatype Request = Request(json: Option<JsValue>)

  /** The case answered with 400: start-up succeeded, the body parsed to a
      value that can be destructured, and its `polygon` is falsy. */
  predicate PolygonMissing(init: Outcome<EarthEngineInit.InitError>, req: Request)
  {
    init.Pass? && req.json.Some?
    && Get(req.json.value, "polygon").Some? && !Truthy(Get(req.json.value, "polygon").value)
  }

  /** `POST(req)`.  Every exception in the `try` block, from start-up to
      `getInfo`, becomes the single 500 answer. */
  function Post(init: Outcome<EarthEngineInit.InitError>, req: Request, ee: EarthEngine): (r: Response)
    ensures r.code == 200 || r.code == 400 || r.code == 500
    ensures r.code == 400 <==> PolygonMissing(init, req)
    ensures r.code == 400 ==> r.body == ErrorReport(PolygonRequired)
    ensures r.code == 500 ==> r.body == ErrorReport(NdviFailed)
    ensures r.code == 200 ==> r.body.NdviReport? && r.body.source == Source
                              && r.body.status == Classify(r.body.ndvi)
  {
    if init.Fail? then Response(500, ErrorReport(NdviFailed))
    else match req.json
      case None => Response(500, ErrorReport(NdviFailed))
      case Some(json) =>
        match Get(json, "polygon")
        case None => Response(500, ErrorReport(NdviFailed))
        case Some(polygon) =>
          if !Truthy(polygon) then Response(400, ErrorReport(PolygonRequired))
          else match FieldNdvi(ee, polygon)
            case Threw => Response(500, ErrorReport(NdviFailed))
            case Mean(nd) => Response(200, NdviReport(nd, Classify(nd), Source))
  }

  /** One request against the process's Earth Engine module state: the
      handler awaits `initEarthEngine()` and then answers as `Post` says.
      Once start-up has succeeded, later requests neither read credentials
      nor authenticate again. */
  method HandlePost(m: EarthEngineInit.EarthEngineModule, h: EarthEngineInit.Host, lib: EarthEngineInit.Library,
                    req: Request, ee: EarthEngine) returns (r: Response)
    modifies m
    ensures old(m.initialized) ==> r == Post(Pass, req, ee) && m.initialized
    ensures old(m.initialized) ==> m.credentialReads == old(m.credentialReads)
                                   && m.authentications == old(m.authentications)
    ensures !old(m.initialized) ==>
              r == Post(EarthEngineInit.AttemptInit(h, lib).outcome, req, ee)
              && m.initialized == EarthEngineInit.AttemptInit(h, lib).outcome.Pass?
  {
    var init := m.InitEarthEngine(h, lib);
    r := Post(init, req, ee);
  }

  // ----- properties -----

  /** The boundary behaviour of the classifier. */
  lemma ClassifyBoundaries()
    ensures Classify(Some(0.61)) == Healthy
    ensures Classify(Some(0.6)) == ModerateStress
    ensures Classify(Some(0.31)) == ModerateStress
    ensures Classify(Some(0.3)) == HighStress
    ensures Classify(Some(-0.2)) == HighStress
    ensures Classify(None) == HighStress
  {
  }

  /** The classifier is total onto the three statuses and monotone: a larger
      mean never gives a worse status, and a missing mean is as bad as any
      mean at or below 0.3. */
  lemma ClassifyMonotone(a: Option<real>, b: real)
    requires a.Some? ==> a.value <= b
    ensures Classify(Some(b)) in {Healthy, ModerateStress, HighStress}
    ensures Severity(Classify(Some(b))) <= Severity(Classify(a))
  {
  }

  /** The earliest least cloudy position of a non-empty list is the first
      position whose cloudiness is at most every other. */
  lemma {:induction false} LeastCloudyIsFirstMinimum(c: seq<Scene>, k: nat)
    requires k < |c|
    requires forall j :: 0 <= j < |c| ==> c[k].cloudyPixelPercentage <= c[j].cloudyPixelPercentage
    requires forall j :: 0 <= j < k ==> c[k].cloudyPixelPercentage < c[j].cloudyPixelPercentage
    ensures LeastCloudy(c) == Some(k)
  {
  }

  /** The chosen scene is over the field, in the window, and no candidate
      is less cloudy; there is a chosen scene exactly when some scene
      qualifies.  No cloud ceiling is applied. */
  lemma ChosenSceneIsLeastCloudy(ee: EarthEngine, polygon: JsValue)
    ensures ChosenScene(ee, polygon).None? <==>
              forall s :: s in ee.catalog(Collection) ==> !Qualifies(ee, polygon, s)
    ensures ChosenScene(ee, polygon).Some? ==>
              var s := ChosenScene(ee, polygon).value;
              Qualifies(ee, polygon, s)
              && forall t :: Qualifies(ee, polygon, t) ==> s.cloudyPixelPercentage <= t.cloudyPixelPercentage
  {
    var c := Candidates(ee.catalog(Collection), s => ee.intersects(polygon, s));
    if c != [] {
      var k := LeastCloudy(c).value;
      forall t | Qualifies(ee, polygon, t)
        ensures c[k].cloudyPixelPercentage <= t.cloudyPixelPercentage
      {
        assert t in c;
        var j :| 0 <= j < |c| && c[j] == t;
      }
    }
  }

  /** Where a qualifying catalogue scene sits among the candidates: every
      candidate before it comes from earlier in the catalogue. */
  lemma {:induction false} CandidatePosition(catalog: seq<Scene>, inField: Scene -> bool, i: nat) returns (p: nat)
    requires i < |catalog| && InWindow(catalog[i]) && inField(catalog[i])
    ensures p < |Candidates(catalog, inField)| && Candidates(catalog, inField)[p] == catalog[i]
    ensures forall q :: 0 <= q < p ==> exists j :: 0 <= j < i && Candidates(catalog, inField)[q] == catalog[j]
  {
    var c := Candidates(catalog, inField);
    var rest := Candidates(catalog[1..], inField);
    var keep := InWindow(catalog[0]) && inField(catalog[0]);
    if i == 0 {
      p := 0;
    } else {
      var p' := CandidatePosition(catalog[1..], inField, i - 1);
      p := if keep then p' + 1 else p';
      forall q | 0 <= q < p ensures exists j :: 0 <= j < i && c[q] == catalog[j] {
        if keep && q == 0 {
          assert c[q] == catalog[0];
        } else {
          var q' := if keep then q - 1 else q;
          assert c[q] == rest[q'];
          var j' :| 0 <= j' < i - 1 && rest[q'] == catalog[1..][j'];
          assert c[q] == catalog[j' + 1];
        }
      }
    }
  }

  /** Ties go to the scene earlier in catalogue order: the first qualifying
      scene of the catalogue that is at most as cloudy as every qualifying
      scene, and strictly less cloudy than every earlier one, is chosen. */
  lemma ChosenSceneIsFirstLeastCloudy(ee: EarthEngine, polygon: JsValue, i: nat)
    requires i < |ee.catalog(Collection)| && Qualifies(ee, polygon, ee.catalog(Collection)[i])
    requires forall t :: Qualifies(ee, polygon, t) ==>
               ee.catalog(Collection)[i].cloudyPixelPercentage <= t.cloudyPixelPercentage
    requires forall j :: 0 <= j < i && Qualifies(ee, polygon, ee.catalog(Collection)[j]) ==>
               ee.catalog(Collection)[i].cloudyPixelPercentage < ee.catalog(Collection)[j].cloudyPixelPercentage
    ensures ChosenScene(ee, polygon) == Some(ee.catalog(Collection)[i])
  {
    var catalog := ee.catalog(Collection);
    var inField := s => ee.intersects(polygon, s);
    var c := Candidates(catalog, inField);
    var p := CandidatePosition(catalog, inField, i);
    forall q | 0 <= q < |c| ensures c[p].cloudyPixelPercentage <= c[q].cloudyPixelPercentage {
      assert c[q] in c;
    }
    forall q | 0 <= q < p ensures c[p].cloudyPixelPercentage < c[q].cloudyPixelPercentage {
      var j :| 0 <= j < i && c[q] == catalog[j];
      assert c[q] in c;
    }
    LeastCloudyIsFirstMinimum(c, p);
  }

  /** Two qualifying scenes equally clear: the one earlier in the catalogue
      is chosen. */
  lemma EqualCloudTieScenario(polygon: JsValue, a: Scene, b: Scene)
    requires InWindow(a) && InWindow(b)
    requires a.cloudyPixelPercentage == b.cloudyPixelPercentage
    ensures var ee := EarthEngine(id => [a, b], p => true, (p, s) => true, q => Threw);
            ChosenScene(ee, polygon) == Some(a)
  {
    var ee := EarthEngine(id => [a, b], p => true, (p, s) => true, q => Threw);
    ChosenSceneIsFirstLeastCloudy(ee, polygon, 0);
  }

  /** A single qualifying scene is used however cloudy it is. */
  lemma NoCloudCeiling(ee: EarthEngine, polygon: JsValue, s: Scene)
    requires ee.catalog(Collection) == [s] && InWindow(s) && ee.intersects(polygon, s)
    ensures ChosenScene(ee, polygon) == Some(s)
  {
  }

  /** A failed start-up answers 500 even when the request has no polygon:
      `initEarthEngine()` runs before the body is read. */
  lemma InitFailureIs500(e: EarthEngineInit.InitError, req: Request, ee: EarthEngine)
    ensures Post(Fail(e), req, ee) == Response(500, ErrorReport(NdviFailed))
  {
  }

  /** A falsy polygon is answered 400 without consulting Earth Engine: the
      answer is the same whatever the catalogue and computations are. */
  lemma MissingPolygonNeverQueries(init: Outcome<EarthEngineInit.InitError>, req: Request, ee1: EarthEngine, ee2: EarthEngine)
    requires PolygonMissing(init, req)
    ensures Post(init, req, ee1) == Post(init, req, ee2) == Response(400, ErrorReport(PolygonRequired))
  {
  }

  /** The handler answers 200 exactly when start-up succeeded, the polygon
      is present and the Earth Engine chain delivered a mean; it then reports
      that mean unrounded, its status and the fixed source. */
  lemma SuccessIffMeanDelivered(init: Outcome<EarthEngineInit.InitError>, req: Request, ee: EarthEngine)
    ensures Post(init, req, ee).code == 200 <==>
              init.Pass? && req.json.Some? && Get(req.json.value, "polygon").Some?
              && Truthy(Get(req.json.value, "polygon").value)
              && FieldNdvi(ee, Get(req.json.value, "polygon").value).Mean?
    ensures Post(init, req, ee).code == 200 ==>
              var nd := FieldNdvi(ee, Get(req.json.value, "polygon").value).nd;
              Post(init, req, ee).body == NdviReport(nd, Classify(nd), Source)
  {
  }

  /** When the mean is the mean of the chosen scene's B8/B4 normalised
      difference at 10 m, and no qualifying scene means a 500 answer. */
  lemma MeanComesFromChosenScene(ee: EarthEngine, polygon: JsValue)
    requires ee.acceptsPolygon(polygon)
    ensures ChosenScene(ee, polygon).None? ==> FieldNdvi(ee, polygon) == Threw
    ensures ChosenScene(ee, polygon).Some? ==>
              FieldNdvi(ee, polygon)
                == ee.reduce(NdviQuery(ChosenScene(ee, polygon).value, polygon, "B8", "B4", 10, 1000000000))
  {
  }

  /** A missing mean is reported as High Stress with a `null` NDVI, not as
      an error. */
  lemma MissingMeanIsHighStress(init: Outcome<EarthEngineInit.InitError>, req: Request, ee: EarthEngine)
    requires init.Pass? && req.json.Some? && Get(req.json.value, "polygon").Some?
    requires Truthy(Get(req.json.value, "polygon").value)
    requires FieldNdvi(ee, Get(req.json.value, "polygon").value) == Mean(None)
    ensures Post(init, req, ee) == Response(200, NdviReport(None, HighStress, Source))
  {
  }

  /** One scene with 5% cloud over the field and a mean of 0.72 gives a
      Healthy report carrying 0.72 as is. */
  lemma OneClearSceneScenario(polygon: JsValue)
    requires Truthy(polygon)
    ensures
      var scene := Scene("S2A_20240115", 20240115, 5.0);
      var ee := EarthEngine(id => [scene], p => true, (p, s) => true,
                            (q: NdviQuery) => if q.scene == scene then Mean(Some(0.72)) else Threw);
      Post(Pass, Request(Some(JsObject(map["polygon" := polygon]))), ee)
        == Response(200, NdviReport(Some(0.72), Healthy, Source))
  {
    var scene := Scene("S2A_20240115", 20240115, 5.0);
    var ee := EarthEngine(id => [scene], p => true, (p, s) => true,
                          (q: NdviQuery) => if q.scene == scene then Mean(Some(0.72)) else Threw);
    NoCloudCeiling(ee, polygon, scene);
  }
}
