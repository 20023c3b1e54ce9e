# AR Landmarks — a verified model of the placement, weather and form logic

AR Landmarks is an iOS app that shows nearby Zurich landmarks as markers in an
augmented-reality camera view, with the current weather beside them. A web
dashboard lets editors maintain the landmarks. This project models the parts
of the app that decide something, and proves what they promise:

- **AR placement** (`geo_math.dfy`, `ar_placement.dfy`). This is the
  `ARViewContainer` coordinator. It filters the landmarks to those within
  2000 m of the user. It places one anchor per landmark id, never twice.
  The anchor sits at an AR radius of 2–6 m, given by a piecewise-linear
  compression of the real distance, in the direction of the great-circle
  bearing. A tap selects the first landmark whose id is the name of the hit
  entity. The coordinator is a `class` whose fields change in place. Its
  `UpdatePOIs` loop is proved against the specification functions
  `NearbyLandmarks`, `NewPlacements` and `PlaceAll`. Its invariant `Valid()`
  says that the anchors carry distinct names and that those names are
  exactly the placed-id set.
- **Weather** (`weather_models.dfy`, `weather_service.dfy`). The emoji for an
  OpenWeather icon code and the German error descriptions. The
  `WeatherService` actor's `fetchWeather`: a ten-minute cache per coordinate
  in front of one HTTP request, with errors checked in a fixed order. The
  actor is a class with a `cache` map. Its method is proved equal to the
  function `CachedFetch`, and lemmas about that function state the caching
  behaviour.
- **Loading** (`landmark_view_model.dfy`). `LandmarkViewModel.loadData`'s
  published state for success, cancellation and failure.
- **Dashboard form** (`landmark_form.dfy`). `LandmarkForm.tsx`: how a record
  becomes the form's strings, how the strings become the saved row, update
  versus insert, and the active toggle. Round-trip lemmas cover the path
  record → form → row.

Foreign code is passed in as uninterpreted functions:

- `Numerics` holds `CLLocation.distance(from:)`, `sin`, `cos` and `atan2`.
  `Numerics.Valid()` assumes only that distances are non-negative and that
  sin² + cos² = 1.
- `JsRuntime` holds `parseFloat`, `parseInt` and number-to-string.

Swift `Float`/`Double` arithmetic is modelled over `real`.

Three facts about the code shape the model:

- The nearby filter in `ARViewContainer.swift` does not look at `is_active`.
  Inactive landmarks never reach it, because the backend query at
  `SupabaseService.swift:24` asks only for rows with `is_active=eq.true`.
  `SupabaseService` itself is not part of this model.
- `calculateBearing` returns `atan2`'s value as it is, in (−π, π]. Nothing
  normalises it to [0, 2π), so the model claims no range for it.
- `fetchWeather` does not wrap a JSON decoding failure in
  `WeatherError.decodingError`. It rethrows the decoder's own error, so
  `FetchError.Decoder` is kept apart from `Service(DecodingError(..))`.
  No path of `fetchWeather` produces the latter.

## Model

| member | source | states |
|---|---|---|
| GeoMath.DegreesToRadians | ios/ARLandmarks/ARLandmarks/Views/ARViewContainer.swift:308 | no contract of its own (it is `degrees * Pi / 180`); its properties are the two lemmas below |
| GeoMath.RadiansToDegrees | ios/ARLandmarks/ARLandmarks/Views/ARViewContainer.swift:309 | no contract of its own (it is `radians * 180 / Pi`); see `DegreesRadiansRoundTrip` |
| GeoMath.DegreesRadiansRoundTrip | ios/ARLandmarks/ARLandmarks/Views/ARViewContainer.swift:307-310 | degreesToRadians and radiansToDegrees are inverse to each other in both orders |
| GeoMath.DegreesToRadiansLinear | ios/ARLandmarks/ARLandmarks/Views/ARViewContainer.swift:308 | the conversion is additive and homogeneous, and maps 180° to π |
| GeoMath.ArRadius | ios/ARLandmarks/ARLandmarks/Views/ARViewContainer.swift:144-151 | the radius lies in 2–3 m below 100 m, 3–4.5 m below 500 m and 4.5–6 m beyond; it is exactly 6 m iff the distance is at least 2000 m |
| GeoMath.ArRadiusBounded | ios/ARLandmarks/ARLandmarks/Views/ARViewContainer.swift:141-151 | for every non-negative distance the radius is between 2 and 6 m |
| GeoMath.ArRadiusAtBoundaries | ios/ARLandmarks/ARLandmarks/Views/ARViewContainer.swift:145-150 | adjacent segments meet: 3 m at 100 m, 4.5 m at 500 m, 6 m at 2000 m |
| GeoMath.ArRadiusMonotone | ios/ARLandmarks/ARLandmarks/Views/ARViewContainer.swift:144-151 | a farther landmark is never drawn at a smaller radius |
| GeoMath.ArRadiusLipschitz | ios/ARLandmarks/ARLandmarks/Views/ARViewContainer.swift:144-151 | the curve is continuous: the radius grows by at most 1/100 of the distance increase |
| GeoMath.LocalOffset | ios/ARLandmarks/ARLandmarks/Views/ARViewContainer.swift:153-160 | the marker is at eye level (y = 0), exactly `radius` metres away horizontally, on the bearing's ray: its component along (sin b, −cos b) is `radius` and across it is 0 |
| GeoMath.CalculateBearing | ios/ARLandmarks/ARLandmarks/Views/ARViewContainer.swift:254-260 | no contract of its own: converts the four coordinates to radians and hands the latitudes and the longitude difference to `SphericalBearing`; see `BearingIgnoresLongitudeShift` |
| GeoMath.SphericalBearing | ios/ARLandmarks/ARLandmarks/Views/ARViewContainer.swift:262-265 | no contract of its own: `atan2(sin Δλ·cos φ2, cos φ1·sin φ2 − sin φ1·cos φ2·cos Δλ)` with the foreign sin, cos and atan2, so nothing about its value can be proved |
| GeoMath.BearingIgnoresLongitudeShift | ios/ARLandmarks/ARLandmarks/Views/ARViewContainer.swift:254-266 | the bearing depends on the longitudes only through their difference |
| ARPlacement.NearbyLandmarks | ios/ARLandmarks/ARLandmarks/Views/ARViewContainer.swift:114-130 | a landmark is in the result iff it is in the list and at most `radius` metres away (inclusive); the result is no longer than the list |
| ARPlacement.NearbyLandmarksDistributes | ios/ARLandmarks/ARLandmarks/Views/ARViewContainer.swift:118-126 | filtering a concatenation is concatenating the filtered parts, so the input order is kept |
| ARPlacement.NearbyLandmarksSingleton | ios/ARLandmarks/ARLandmarks/Views/ARViewContainer.swift:118-126 | one landmark is kept exactly when it is near |
| ARPlacement.NewPlacements | ios/ARLandmarks/ARLandmarks/Views/ARViewContainer.swift:106-111 | every landmark placed is nearby and not yet placed; no id is placed twice; the ids placed are exactly the nearby ids minus the placed set |
| ARPlacement.RepeatedUpdatePlacesNothing | ios/ARLandmarks/ARLandmarks/Views/ARViewContainer.swift:106-111 | once all nearby ids are recorded, an update places nothing |
| ARPlacement.DuplicateInOneUpdatePlacedOnce | ios/ARLandmarks/ARLandmarks/Views/ARViewContainer.swift:106-111 | a landmark listed twice in one neighbourhood gets a single anchor |
| ARPlacement.PlacePOI | ios/ARLandmarks/ARLandmarks/Views/ARViewContainer.swift:132-173 | the anchor is named by the landmark id and labelled with its name; it is at eye level, 2–6 m away horizontally (the exact position is `PlacePOIPosition`); its colour and icon come from the category, or are #3B82F6 and 📍 without one |
| ARPlacement.PlacePOIPosition | ios/ARLandmarks/ARLandmarks/Views/ARViewContainer.swift:138-160 | the marker is exactly `ArRadius` of the real distance away horizontally, on the ray of the bearing from the user to the landmark |
| ARPlacement.PlaceAllNames | ios/ARLandmarks/ARLandmarks/Views/ARViewContainer.swift:166 | the anchors placed for a sequence of landmarks are named by exactly those landmarks' ids |
| ARPlacement.FirstIndexWithId | ios/ARLandmarks/ARLandmarks/Views/ARViewContainer.swift:286 | a found index holds the id and no earlier index does; nothing is found iff no landmark has the id |
| ARPlacement.Coordinator.constructor | ios/ARLandmarks/ARLandmarks/Views/ARViewContainer.swift:51-68 | a new coordinator has no AR view, no landmarks, nothing placed, no location, no selection, and satisfies the invariant |
| ARPlacement.Coordinator.MakeUIView | ios/ARLandmarks/ARLandmarks/Views/ARViewContainer.swift:17-39 | the coordinator gets its AR view and the landmarks; the invariant is kept |
| ARPlacement.Coordinator.UpdateUIView | ios/ARLandmarks/ARLandmarks/Views/ARViewContainer.swift:41-43 | the landmark list is replaced; placed ids and anchors are untouched |
| ARPlacement.Coordinator.DidUpdateLocations | ios/ARLandmarks/ARLandmarks/Views/ARViewContainer.swift:78-85 | an empty batch changes nothing; otherwise the last location becomes current and the POIs are updated from it |
| ARPlacement.Coordinator.UpdatePOIs | ios/ARLandmarks/ARLandmarks/Views/ARViewContainer.swift:97-112 | without an AR view or location nothing changes; otherwise, through `PlaceAllNew`, all nearby ids are recorded and exactly the not-yet-placed nearby landmarks get anchors, first occurrence only, in order; anchor names stay distinct and equal to the placed set |
| ARPlacement.Coordinator.PlaceAllNew | ios/ARLandmarks/ARLandmarks/Views/ARViewContainer.swift:106-111 | the loop over the nearby landmarks: every nearby id is recorded, and the anchors appended are exactly those for `NewPlacements`, in order; the invariant is kept |
| ARPlacement.Coordinator.PlaceLandmark | ios/ARLandmarks/ARLandmarks/Views/ARViewContainer.swift:107-110 | for a landmark whose id has no anchor: its anchor is appended and its id recorded, keeping anchor names distinct and equal to the placed set |
| ARPlacement.Coordinator.HandleTap | ios/ARLandmarks/ARLandmarks/Views/ARViewContainer.swift:270-301 | no hit clears the selection; a hit whose name is an id selects the first landmark with that id; any other hit leaves the selection |
| WeatherModels.IconEmoji | ios/ARLandmarks/ARLandmarks/Models/WeatherModels.swift:47-60 | the emoji is the table entry for the icon's two-character prefix, or the thermometer when the prefix is unknown |
| WeatherModels.IconEmojiIgnoresSuffix | ios/ARLandmarks/ARLandmarks/Models/WeatherModels.swift:48 | icons that share their first two characters share their emoji |
| WeatherModels.IconEmojiDayNight | ios/ARLandmarks/ARLandmarks/Models/WeatherModels.swift:48-58 | the day ("d") and night ("n") variants of a code give the same emoji |
| WeatherModels.CloudCodesShareEmoji | ios/ARLandmarks/ARLandmarks/Models/WeatherModels.swift:51-52 | codes 03 and 04 both show the cloud |
| WeatherModels.ShortIconIsThermometer | ios/ARLandmarks/ARLandmarks/Models/WeatherModels.swift:47-60 | an icon shorter than two characters shows the thermometer |
| WeatherModels.ThermometerIffUnknown | ios/ARLandmarks/ARLandmarks/Models/WeatherModels.swift:48-58 | the thermometer is shown iff the prefix is not a known code |
| WeatherModels.ErrorDescription | ios/ARLandmarks/ARLandmarks/Models/WeatherModels.swift:76-84 | every error has a description; the network and decoding prefixes appear iff the error is of that case, and the message follows the prefix |
| WeatherModels.ErrorDescriptionInjective | ios/ARLandmarks/ARLandmarks/Models/WeatherModels.swift:76-84 | different errors never have the same description |
| WeatherService.MakeWeather | ios/ARLandmarks/ARLandmarks/Services/WeatherService.swift:62-69 | temperature, felt temperature and humidity come from `main`; condition, description and icon come from the first condition, or are empty when there is none |
| WeatherService.Download | ios/ARLandmarks/ARLandmarks/Services/WeatherService.swift:41-69 | success iff HTTP 200 with a decodable body; otherwise the first failure in the order URL, transport, response kind, status, body, each with its own error |
| WeatherService.CachedFetch | ios/ARLandmarks/ARLandmarks/Services/WeatherService.swift:22-73 | a missing API key fails first with the cache unchanged; a failure never changes the cache; a change is a success stored under the key with the call's time; other keys are untouched |
| WeatherService.FreshEntryServed | ios/ARLandmarks/ARLandmarks/Services/WeatherService.swift:27-30 | an entry younger than 600 s is returned whatever the network would say, and the cache is left alone |
| WeatherService.StaleEntryRefetched | ios/ARLandmarks/ARLandmarks/Services/WeatherService.swift:27-71 | a missing or expired entry is downloaded; the call returns the download's result, and only a success replaces the entry |
| WeatherService.FetchThenServeFromCache | ios/ARLandmarks/ARLandmarks/Services/WeatherService.swift:27-71 | after a successful download, every call for the same coordinate within the next 600 s returns that weather and leaves the cache as it is |
| WeatherService.WeatherService.constructor | ios/ARLandmarks/ARLandmarks/Services/WeatherService.swift:13-20 | the service starts with its API key (empty when not configured) and an empty cache |
| WeatherService.WeatherService.FetchWeather | ios/ARLandmarks/ARLandmarks/Services/WeatherService.swift:22-73 | the result and the new cache are those of `CachedFetch` for the coordinate's key |
| WeatherService.WeatherService.FetchZurichWeather | ios/ARLandmarks/ARLandmarks/Services/WeatherService.swift:75-77 | the same as a fetch for 47.3769, 8.5417 |
| LandmarkViewModel.LandmarkViewModel.constructor | ios/ARLandmarks/ARLandmarks/ViewModels/LandmarkViewModel.swift:13-16 | empty lists, not loading, no error |
| LandmarkViewModel.LandmarkViewModel.BeginLoading | ios/ARLandmarks/ARLandmarks/ViewModels/LandmarkViewModel.swift:21-22 | loading with the error cleared; the lists are kept |
| LandmarkViewModel.LandmarkViewModel.FinishLoading | ios/ARLandmarks/ARLandmarks/ViewModels/LandmarkViewModel.swift:27-37 | loading ends; success replaces both lists; cancellation changes nothing else; failure sets the error message |
| LandmarkViewModel.LandmarkViewModel.LoadData | ios/ARLandmarks/ARLandmarks/ViewModels/LandmarkViewModel.swift:20-38 | afterwards nothing is loading; both lists are replaced together or not at all; an error message exists exactly for a failure |
| LandmarkForm.EmptyForm | dashboard/src/components/LandmarkForm.tsx:16-29 | a constant with no contract: empty texts, altitude "0", active; see `UntouchedNewFormInserted` |
| LandmarkForm.UntouchedNewFormInserted | dashboard/src/components/LandmarkForm.tsx:16-85 | without a record the initial form stays as it is, and submitting it untouched inserts one active row with an empty name, altitude 0, and every optional column null |
| LandmarkForm.FormFromRecord | dashboard/src/components/LandmarkForm.tsx:31-48 | without a record the form is unchanged; otherwise each text input is the column or "", each number input is the printed number or "" ("0" for altitude), and the flag is active unless the record says false |
| LandmarkForm.BuildPayload | dashboard/src/components/LandmarkForm.tsx:55-68 | name and flag verbatim; optional texts are null exactly when empty; coordinates are parsed; altitude is 0 exactly when it parses to NaN or 0; the year is null exactly when empty, else parsed as an integer |
| LandmarkForm.SaveRequestFor | dashboard/src/components/LandmarkForm.tsx:70-85 | an existing landmark is updated by its id; a new one is inserted as exactly one row; both carry the built payload |
| LandmarkForm.ToggleActive | dashboard/src/components/LandmarkForm.tsx:237 | the active flag flips and nothing else changes |
| LandmarkForm.OptionalTextRoundTrip | dashboard/src/components/LandmarkForm.tsx:31-68 | record → form → row keeps every non-empty optional text, turns a missing or empty one into null, and turns a missing name into "" |
| LandmarkForm.AltitudeRoundTrip | dashboard/src/components/LandmarkForm.tsx:40-62 | an altitude that prints and parses back faithfully survives record → form → row; a missing one is saved as 0 |
| LandmarkForm.ActiveFlagRoundTrip | dashboard/src/components/LandmarkForm.tsx:45-67 | the active flag survives record → form → row, and a record without one is saved as active |

## Left out

- Rendering is not modelled: the AR session configuration, the balloon marker geometry and materials, and the gesture recogniser. Anchors keep only their name, position, colour, icon and label text.
- IconEmoji: strings are compared as sequences of Unicode scalars, not as Swift `Character`s (grapheme clusters) under canonical equivalence. So `icon.prefix(2)` is taken as two scalars. An icon such as "0", "1", U+0301, "d" therefore gets ☀️ in the model, while Swift's two-Character prefix matches no case and gives 🌡️. The same holds for the landmark-id comparisons in `HandleTap` (`FirstIndexWithId`) and `UpdatePOIs` (`placedLandmarkIds`): ids that are canonically equivalent but differ as scalar sequences are distinct here and equal in Swift.
- The hit test is an input: `HandleTap` receives the names of the hit entities, nearest first. Which entity RealityKit reports is not modelled. In particular, a hit on a child of the marker carries that child's (empty) name.
- The coordinator's heading updates, location-manager setup, authorisation and error logging are left out. The heading is stored but never read.
- `DispatchQueue.main.async` is not modelled: the selection is updated at once, not on a later main-queue turn.
- Swift `Float` rounding of the AR radius and of the offset is not modelled; arithmetic is exact over reals.
- `CLLocation.distance(from:)`, `sin`, `cos` and `atan2` are uninterpreted. `GeoMath.CalculateBearing` and `GeoMath.SphericalBearing` therefore carry no contract of their own. What is proved about the bearing is `GeoMath.BearingIgnoresLongitudeShift` and the ray statement of `PlacePOIPosition`.
- The weather request URL, the cache key's string formatting, `URLSession`, the JSON decoder and `Date()` are inputs: an `Exchange`, a coordinate pair and a time `now`. The freshness check and the stored timestamp use the same `now`.
- Actor isolation and `async` suspension are not modelled: each call runs to completion.
- `temperatureFormatted` is not modelled, because it rounds a `Double` to the nearest integer.
- `LoadData`'s two concurrent backend fetches are one input outcome. `SupabaseService` is not part of this model.
- `LandmarkForm.BuildPayload`: how the Supabase client serialises the row is not modelled. For example, it writes NaN coordinates as JSON null. The database call, its error alert and the `loading` flag are left out.
