# Field vegetation health (Cropify) in Dafny

This project models the field vegetation-health path of Cropify, a Next.js
application. A user draws a field on a map. The client posts the polygon to
`/api/satellite`. The server starts Earth Engine once per process, picks the
least cloudy Sentinel-2 scene over the field in January 2024, and averages the
NDVI (normalised difference of bands B8 and B4) over the field at 10 m. It
then classifies the mean as "Healthy", "Moderate Stress" or "High Stress". The
client colours the status and shows an NDVI bar and three quick-metric labels.

Files (one module each):

- `wrappers.dfy` (`Wrappers`): `Option`, `Result`, `Outcome`.
- `json.dfy` (`Json`): JavaScript values as `JSON.parse` yields them,
  truthiness, and property reads that throw on `null`.
- `text.dfy` (`Text`): ASCII `toLowerCase` and `String.prototype.includes`.
- `earth_engine.dfy` (`EarthEngineInit`): `app/lib/earthEngine.ts`. Credential
  resolution and key validation are pure functions over a `Host` oracle. The
  library is a `Library` oracle. The module-level `initialized` flag is a
  field of the class `EarthEngineModule`, whose `InitEarthEngine` method sets
  it only on initialisation success.
- `satellite_route.dfy` (`SatelliteRoute`): `app/api/satellite/route.ts`. The
  handler `Post` is a pure function of the start-up outcome, the parsed body
  and an `EarthEngine` oracle. The oracle holds the scene catalogue, whether
  a polygon is accepted, `filterBounds`, and the reduced mean.
  `HandlePost` runs one request against the module state.
- `field_map.dfy` (`FieldMap`): `app/components/FieldMap.tsx`. It models the
  status colouring, bar width, gradient and labels. The class `FieldMapView`
  holds the component state (`polygon`, `ndviResult`, `loading`) and the
  request lifecycle. Lemmas tie the client to the server's answers.

What the handler does, stated plainly:

- It has no 404 for "no imagery" and no separate "statistic unavailable"
  error. An empty collection is a 500. A missing mean is a 200 with status
  "High Stress" and a `null` ndvi.
- It applies no cloud ceiling. The date window is 2024-01-01 to 2024-01-31.
- It does not round the NDVI.
- Its only polygon check is JavaScript truthiness. It checks no ring length,
  closure or coordinate range.
- Start-up runs before the body is read. A failed start-up is a 500 even
  for a request without a polygon.

Modelling choices:

- Days are yyyymmdd numbers. `filterDate` excludes its end day, so the window
  is `20240101 <= day < 20240131`.
- Ties in cloudiness go to the scene earlier in catalogue order
  (`ChosenSceneIsFirstLeastCloudy`). This is an assumption about Earth
  Engine's `sort("CLOUDY_PIXEL_PERCENTAGE")`, which neither the handler nor
  the library promises to be stable; it is not behaviour of the handler.
- The catalogue oracle maps a collection id to its scenes; the handler asks
  for "COPERNICUS/S2".
- Reals stand for JavaScript numbers.

## Model

| member | source | states |
|---|---|---|
| `Json.Get` | app/api/satellite/route.ts:9 | destructuring `{ polygon }` throws exactly on `null`/`undefined`; an object yields its field, any other value `undefined` |
| `EarthEngineInit.AttemptInit` | app/lib/earthEngine.ts:9-64 | an attempt calls initialize only after authenticate; it succeeds only when the initialize success callback ran |
| `EarthEngineInit.UnsetCredentialsRejected` | app/lib/earthEngine.ts:11-15 | an unset or empty variable rejects with "GOOGLE_APPLICATION_CREDENTIALS is not set" and makes no library call |
| `EarthEngineInit.JsonValueWins` | app/lib/earthEngine.ts:19-23 | a value that parses as JSON is the key, and the file system does not affect the result |
| `EarthEngineInit.MissingFileRejected` | app/lib/earthEngine.ts:23-30 | a value that is not JSON and names no existing file rejects with "Could not parse credentials as JSON or find file" |
| `EarthEngineInit.FileFallback` | app/lib/earthEngine.ts:23-27 | a value that is not JSON but names an existing file resolves to the JSON in that file, or fails if the file's text is not JSON |
| `EarthEngineInit.ResolveKey` | app/lib/earthEngine.ts:11-30 | fails "not set" iff the variable is unset or empty; succeeds iff the value parses as JSON or names an existing, readable file whose text parses; the key is the value's own parse when there is one, else the file's |
| `EarthEngineInit.CheckKey` | app/lib/earthEngine.ts:32-35 | passes iff the key is an object whose `client_email` and `private_key` are truthy; a `null` key throws (KeyIsNull) instead; every other failure is "Invalid service account key structure" |
| `EarthEngineInit.InvalidKeyNeverAuthenticates` | app/lib/earthEngine.ts:32-37 | a key without usable fields is rejected with "Invalid service account key structure" before authentication |
| `EarthEngineInit.AuthFailureNeverInitializes` | app/lib/earthEngine.ts:37-57 | an authentication failure rejects with "EE auth failed: " plus the error, and initialize is never called |
| `EarthEngineInit.AttemptSucceedsIff` | app/lib/earthEngine.ts:19-57 | an attempt succeeds iff a usable key is found and authentication and initialisation both succeed |
| `EarthEngineInit.EarthEngineModule.constructor` | app/lib/earthEngine.ts:4 | the module starts uninitialised, with no credential read or library call made |
| `EarthEngineInit.EarthEngineModule.InitEarthEngine` | app/lib/earthEngine.ts:6-64 | when initialised: resolves at once with no credential read or library call. Otherwise: makes exactly one attempt, and the flag becomes true only if it succeeded, so a failed attempt is retried next time |
| `SatelliteRoute.Candidates` | app/api/satellite/route.ts:20-23 | the candidates are exactly the catalogue scenes over the field inside the date window |
| `SatelliteRoute.LeastCloudy` | app/api/satellite/route.ts:24-25 | picks a scene exactly when the list is non-empty; no scene is less cloudy than it and every earlier scene is strictly cloudier |
| `SatelliteRoute.LeastCloudyIsFirstMinimum` | app/api/satellite/route.ts:24-25 | the earliest least cloudy position is the only one `LeastCloudy` can return |
| `SatelliteRoute.ChosenScene` | app/api/satellite/route.ts:20-25 | a chosen scene is in the "COPERNICUS/S2" catalogue, over the field and in the window; no scene is chosen only when none qualifies |
| `SatelliteRoute.ChosenSceneIsLeastCloudy` | app/api/satellite/route.ts:20-25 | a scene is chosen iff one qualifies; it is in the catalogue, over the field, in the window, and no qualifying scene is less cloudy |
| `SatelliteRoute.ChosenSceneIsFirstLeastCloudy` | app/api/satellite/route.ts:20-25 | the first qualifying catalogue scene that is least cloudy is the one chosen: ties go to the earlier scene, under the model's assumption that the backend's sort is stable |
| `SatelliteRoute.EqualCloudTieScenario` | app/api/satellite/route.ts:20-25 | of two qualifying scenes with equal cloud, the first in the catalogue is chosen (assuming a stable backend sort) |
| `SatelliteRoute.NoCloudCeiling` | app/api/satellite/route.ts:20-25 | a single qualifying scene is used whatever its cloud percentage |
| `SatelliteRoute.FieldNdvi` | app/api/satellite/route.ts:18-36 | a mean is delivered only when Earth Engine accepts the polygon and some scene qualifies; otherwise the chain throws |
| `SatelliteRoute.Classify` | app/api/satellite/route.ts:38-41 | Healthy iff mean > 0.6; Moderate Stress iff 0.3 < mean <= 0.6; High Stress iff the mean is missing or <= 0.3; never "Unknown" |
| `SatelliteRoute.ClassifyBoundaries` | app/api/satellite/route.ts:38-41 | 0.61 is Healthy, 0.6 and 0.31 are Moderate Stress, 0.3, -0.2 and a missing mean are High Stress |
| `SatelliteRoute.ClassifyMonotone` | app/api/satellite/route.ts:38-41 | the classifier is total onto the three statuses; a larger mean never gives a worse status, and a missing mean is the worst |
| `SatelliteRoute.Post` | app/api/satellite/route.ts:5-55 | answers 200, 400 or 500. 400 iff the polygon is falsy, with "Polygon is required". Every 500 carries "Earth Engine NDVI failed". A 200 carries the fixed source and the status of its own ndvi |
| `SatelliteRoute.HandlePost` | app/api/satellite/route.ts:5-7 | each request awaits start-up first. An initialised module answers as `Post` with no new credential read or authentication. Otherwise it answers with the attempt's outcome and is initialised iff the attempt succeeded |
| `SatelliteRoute.InitFailureIs500` | app/api/satellite/route.ts:6-54 | a failed start-up answers 500 whatever the request, even without a polygon |
| `SatelliteRoute.MissingPolygonNeverQueries` | app/api/satellite/route.ts:9-16 | a falsy polygon gets 400 "Polygon is required", and the answer does not depend on Earth Engine |
| `SatelliteRoute.SuccessIffMeanDelivered` | app/api/satellite/route.ts:36-47 | 200 iff start-up succeeded, the polygon is truthy and Earth Engine delivered a mean; the body is that unrounded mean, its status and "Sentinel-2 (Field NDVI)" |
| `SatelliteRoute.MeanComesFromChosenScene` | app/api/satellite/route.ts:18-36 | the mean is the B8/B4 normalised-difference mean of the chosen scene at 10 m with 1e9 max pixels; no qualifying scene makes the chain throw |
| `SatelliteRoute.MissingMeanIsHighStress` | app/api/satellite/route.ts:36-47 | a `null` mean is answered 200 with ndvi `null` and "High Stress", not as an error |
| `SatelliteRoute.OneClearSceneScenario` | app/api/satellite/route.ts:20-47 | one 5%-cloud scene with mean 0.72 gives `{ndvi: 0.72, status: "Healthy"}` |
| `FieldMap.NormalizedStatus` | app/components/FieldMap.tsx:104 | a missing status is ""; otherwise the status with the same length, every capital letter replaced by its own small letter (code + 32), no capital left, and every other character unchanged |
| `Text.ToLowerIdempotent` | app/components/FieldMap.tsx:104 | lower-casing an already lower-cased string changes nothing |
| `FieldMap.StatusColoringIgnoresCase` | app/components/FieldMap.tsx:103-117 | a status and its lower-cased form get the same text colour and background |
| `FieldMap.ShoutedHealthyIsEmerald` | app/components/FieldMap.tsx:104-105 | "HEALTHY" is shown emerald, like "healthy" |
| `FieldMap.StatusColor` | app/components/FieldMap.tsx:103-109 | over the lower-cased status: emerald iff it includes healthy or good; else yellow iff it includes moderate; else red iff it includes poor or stress; otherwise blue |
| `FieldMap.StatusBg` | app/components/FieldMap.tsx:111-117 | the same four-way choice in the same order, with the background classes |
| `FieldMap.SameFamily` | app/components/FieldMap.tsx:103-117 | for every status, text colour and background select the same colour family |
| `FieldMap.LowerCasedStatuses` | app/components/FieldMap.tsx:104 | the three server statuses lower-case to "healthy", "moderate stress" and "high stress" |
| `FieldMap.HealthyIsEmerald` | app/components/FieldMap.tsx:105 | "Healthy" is shown emerald |
| `FieldMap.ModerateStressIsYellow` | app/components/FieldMap.tsx:105-107 | "Moderate Stress" is shown yellow, not red |
| `FieldMap.HighStressIsRed` | app/components/FieldMap.tsx:105-107 | "High Stress" is shown red |
| `FieldMap.ServerStatusColours` | app/components/FieldMap.tsx:103-109 | the three server statuses are shown emerald, yellow and red |
| `FieldMap.MissingStatusIsBlue` | app/components/FieldMap.tsx:104-116 | a missing or empty status is blue in both text and background |
| `FieldMap.BarWidth` | app/components/FieldMap.tsx:198 | the width always lies in [0, 100]; it is ndvi*100 on [0, 1], 0 below and 100 above |
| `FieldMap.BarWidthMonotone` | app/components/FieldMap.tsx:198 | a larger NDVI never draws a shorter bar |
| `FieldMap.BarGradient` | app/components/FieldMap.tsx:193-197 | the bar is emerald, yellow or red exactly as the server classifies the same NDVI Healthy, Moderate Stress or High Stress |
| `FieldMap.ChlorophyllLabel` | app/components/FieldMap.tsx:282 | High, Medium or Low exactly as the server classifies the same NDVI Healthy, Moderate Stress or High Stress |
| `FieldMap.StressLabel` | app/components/FieldMap.tsx:295 | Low, Medium or High exactly as the server classifies the same NDVI Healthy, Moderate Stress or High Stress |
| `FieldMap.VigorLabel` | app/components/FieldMap.tsx:308 | Excellent iff > 0.7, Good iff in (0.5, 0.7], Fair iff in (0.3, 0.5], Poor iff <= 0.3 |
| `FieldMap.StressMirrorsChlorophyll` | app/components/FieldMap.tsx:282-295 | the stress label is the chlorophyll label with High and Low swapped |
| `FieldMap.BandsAgreeWithServer` | app/components/FieldMap.tsx:194-282 | the bar gradient and chlorophyll label are emerald/High, yellow/Medium or red/Low exactly as the server classifies the same NDVI |
| `FieldMap.BarMatchesStatusColour` | app/components/FieldMap.tsx:193-198 | the bar has the colour family of the status text for the same NDVI |
| `FieldMap.VigorRefinesStatus` | app/components/FieldMap.tsx:308 | Excellent implies Healthy, Fair implies Moderate Stress, Poor iff High Stress |
| `FieldMap.ClientRequestNeverRejected` | app/components/FieldMap.tsx:80-87 | the client posts an array, which is always truthy, so the server never answers it 400 |
| `FieldMap.AnswerColours` | app/components/FieldMap.tsx:103-109 | `getStatusColor` returns blue for an error body (no `status`), and emerald, yellow or red for a report by its status |
| `FieldMap.RenderedAnswers` | app/components/FieldMap.tsx:178 | the card's `ndvi.toFixed(3)` succeeds exactly for answers carrying a mean Earth Engine delivered as a number; error bodies and the `null`-ndvi report make it throw |
| `FieldMap.MissingMeanNeverShown` | app/components/FieldMap.tsx:178 | the server's 200 "High Stress" answer with a `null` ndvi is one the card cannot draw |
| `FieldMap.EveryReportShown` | app/components/FieldMap.tsx:178 | with the NDVI figure guarded, every 200 answer is drawn, no error answer is, and the missing-mean answer is drawn red |
| `FieldMap.FieldMapView.constructor` | app/components/FieldMap.tsx:70-78 | no polygon, no result, not loading |
| `FieldMap.FieldMapView.StartRequest` | app/components/FieldMap.tsx:80-87 | sets loading and posts `{ polygon: coords }`; nothing else changes |
| `FieldMap.FieldMapView.ShowsResult` | app/components/FieldMap.tsx:142-146 | the result cards' display condition (inside the `polygon &&` block, `ndviResult && !loading`) never holds together with the loading card's |
| `FieldMap.FieldMapView.ShowsLoading` | app/components/FieldMap.tsx:142-251 | the loading card's display condition holds only once a polygon is drawn |
| `FieldMap.FieldMapView.BeginAnalysis` | app/components/FieldMap.tsx:98-101 | once the polygon is recorded and the request posted, the loading card shows, the result cards do not, and the previous result is kept |
| `FieldMap.FieldMapView.FinishRequest` | app/components/FieldMap.tsx:88-95 | clears loading whether or not the fetch threw; stores any parsed answer, including an error body; leaves the result unchanged on a throw |
| `FieldMap.FieldMapView.SendPolygonToBackend` | app/components/FieldMap.tsx:80-96 | one request: posts the polygon, ends not loading, result replaced only by a parsed answer |
| `FieldMap.FieldMapView.HandlePolygonCreated` | app/components/FieldMap.tsx:98-101 | records the polygon and sends it; afterwards the loading card is hidden and, if an answer arrived, the result cards' display condition `ShowsResult` holds (whether the card can draw it is `CardRenders`) |

## Left out

- Earth Engine internals are oracles in `EarthEngine` and `Library`. These
  are scene cataloguing, `filterBounds`, `normalizedDifference`,
  `reduceRegion`, `getInfo`, `authenticateViaPrivateKey` and `initialize`.
  The per-pixel NDVI is not computed.
- The process environment, `fs.existsSync`, `fs.readFileSync`, `JSON.parse`
  and `fetch` are oracles or parameters. Logging (`console.*`) is dropped.
- The messages of errors raised by the JavaScript runtime are not modelled:
  an unreadable key file, key-file text that is not JSON, or a `null` key.
  `Message` returns `None` for those.
- A callback that never fires, leaving the start-up promise pending, is not
  modelled. Each library call ends in exactly one callback.
- Concurrency is not modelled. There is no single-flight guard, so two
  concurrent first calls would both authenticate. Calls are modelled as
  sequential, and React state updates as immediate.
- Floating point is not modelled. NDVI values are reals, and `toFixed(3)`,
  `toFixed(1)` and `Math.round` at app/components/FieldMap.tsx:166-188 are
  not modelled.
- Rendering is not modelled: JSX, Leaflet, `DrawControl` and the cards. The
  card display conditions are kept as `ShowsResult` and `ShowsLoading`, and
  whether the card's `ndvi.toFixed(3)` can be evaluated as `CardRenders`.
  The bar and label functions take a number, since the card reaches them
  only after that call.
- Case mapping is not full Unicode: `ToLower` lower-cases ASCII letters only.
- JavaScript property reads model own data fields only. Inherited
  properties are not modelled; the names read here are never inherited.
- The other routes and pages are not part of this model. These are the
  Gemini leaf analysis and chat, the prompt, the field echo route, the
  navigation, the tooltip, and the home, upload, chat and field-analysis
  pages. They are presentation or a passthrough to a remote service.

## Findings

| source | as written | input that shows it | evidently intended | confidence | as-written member | corrected member |
|---|---|---|---|---|---|---|
| app/components/FieldMap.tsx:178 | the result card evaluates `ndviResult.ndvi.toFixed(3)` unguarded, while app/api/satellite/route.ts:36-47 answers a missing mean with 200, `ndvi: null` and "High Stress": the route has no case for `null`, and that answer arises only because `null > 0.6` and `null > 0.3` are both false | a field whose reduction yields a `null` mean: `null.toFixed(3)` throws while the card renders | the High Stress report is drawn, with a placeholder for the NDVI figure | medium, not executed | `FieldMap.MissingMeanNeverShown` | `FieldMap.EveryReportShown` |
