# Safety-app core in Dafny

This project models the logic at the core of a personal-safety web app.
It covers:

- **Route safety scoring.** A fixed registry of unsafe zones, a danger total
  over every (route point, zone) pair, and a 0–100 score. It also covers the
  endpoint validation in front of the routing request, the mapping of a
  provider response to routes, and the distance, duration and rating
  formatters.
- **The route deviation simulator.** A timer-driven service that walks a
  route and reports random off-route deviations.
- **The safe-routing page.** The best-route selection (safest or shortest),
  the route colours and score-bar bands, and the start/stop guards of the
  simulation.
- **The location-watch registry.** A list of subscribers sharing one native
  watch, plus the mock location and the error messages.
- **The SOS rate limiter of the home page.** An in-progress flag and a
  10-second cooldown, shared by the button and the shake gesture. Also the
  way the page stops location sharing, which leaves the watch open (see
  "## Findings").
- **Small page state machines and validators.** The fake-call timer and its
  `mm:ss` display, the symptom toggle, the four-step onboarding wizard and its
  progress indicator, the trusted-contact form, and the two route guards of
  the application shell.

The model keeps each part in the form the code has:

- Pure helpers are functions with lemmas.
- The two services and the page state that handlers update in place are
  classes with `modifies` clauses.
- The scoring loop and the nearest-vertex loop are methods with loop
  invariants. The scoring loop is proved equal to the danger-total
  specification function, and the properties are proved about that
  function. The nearest-vertex loop is characterised directly: its result
  is a distance to some vertex and no larger than the distance to any
  vertex.
- The distance between two points is a parameter (`Geo.DistanceFn`). It is
  only assumed to be non-negative.
- Random draws, clock readings, timer handles and database answers are passed
  in as arguments.

The model follows the code as written, including these edge cases:

- A route with no coordinates scores 100, or it has no score at all when its
  distance is 0. The code does not reject it.
- A route of distance 0 divides by zero. With some danger the score clamps
  to 0. Without danger it is `NaN`, modelled as "no score", which the page
  treats as 0.
- Route selection has no secondary tie-break: the earliest of the best
  routes wins.
- An empty provider answer is thrown and then caught by the same `try` block.
  `getRoutes` therefore reports it as "Failed to fetch routes", and the
  page's "No routes found" branch cannot be reached from it
  (`SafeRouting.NoRoutesFoundUnreachable`).

## Model

| member | source | states |
|---|---|---|
| Routing.UnsafeZonesValid | src/services/routing.ts:34-83 | the registry holds six zones, each with a positive radius |
| Routing.SeverityWeight | src/services/routing.ts:257-258 | high, medium and low weigh exactly 3, 2 and 1 |
| Routing.Contribution | src/services/routing.ts:257-260 | one (point, zone) pair adds between 0 and 10·weight; it adds nothing outside the radius and a positive amount strictly inside it |
| Routing.PointDanger | src/services/routing.ts:247-261 | the danger of one point, summed over the zones in order, is never negative |
| Routing.TotalDanger | src/services/routing.ts:245-262 | the danger summed over all points in travel order is never negative |
| Routing.Clamp | src/services/routing.ts:266 | the result lies in [0, 100]: below 0 gives 0, above 100 gives 100, and values already in range are unchanged |
| Routing.ScoreFromDanger | src/services/routing.ts:264-268 | with x = 100 − 5 · (danger per km), a non-zero distance gives Math.round of x clamped to [0, 100]: 0 when x ≤ 0, 100 when x ≥ 100, and otherwise the integer within ½ of x; the score is whole and in [0, 100]; no danger over a non-zero distance gives exactly 100; zero distance gives 0 with some danger and no score (NaN) without |
| Routing.DangerPerKmIsRate | src/services/routing.ts:265 | dividing the danger by the distance in kilometres is the danger per metre times 1000 |
| Routing.CalculateSafetyScore | src/services/routing.ts:241-269 | the score is exactly that of the route's danger total against the registry; a positive distance gives a score in [0, 100] |
| Routing.ScoreOver | src/services/routing.ts:242-268 | the nested loop over points and zones accumulates exactly the danger total, pair by pair in order, and returns its score |
| Routing.NoHazardPointDanger | src/services/routing.ts:256-260 | a point outside every zone's radius adds no danger |
| Routing.NoHazardTotalDanger | src/services/routing.ts:245-262 | a route with no point inside any zone has danger total 0 |
| Routing.NoHazardScoresFull | src/services/routing.ts:256-268 | such a route of non-zero distance scores exactly 100 |
| Routing.ScoreAntitone | src/services/routing.ts:264-268 | over the same positive distance, more danger never gives a higher score |
| Routing.FullScoreIff | src/services/routing.ts:264-268 | over a positive distance the score is exactly 100 when, and only when, the danger per kilometre is at most 0.1 |
| Routing.MoreDangerLowersScore | src/services/routing.ts:264-268 | over the same positive distance, extra danger of at least one score point (5 · Δdanger per km ≥ 1) strictly lowers any score above 0 |
| Routing.TotalDangerAppend | src/services/routing.ts:245-262 | the danger of a joined route is the sum of the dangers of its parts |
| Routing.DangerPrefixMonotone | src/services/routing.ts:245-262 | the running danger total never decreases as more points are processed |
| Routing.ExtraPointsNeverRaiseScore | src/services/routing.ts:245-268 | route points appended at the end, over the same distance, never raise the score |
| Routing.ContributionSeverityMonotone | src/services/routing.ts:257-260 | raising a zone's severity never lowers its contribution |
| Routing.PointDangerSeverityMonotone | src/services/routing.ts:247-261 | raising zone severities never lowers a point's danger |
| Routing.TotalDangerSeverityMonotone | src/services/routing.ts:245-262 | raising zone severities never lowers the route's danger total |
| Routing.HigherSeverityNeverRaisesScore | src/services/routing.ts:245-268 | scoring against a registry with higher severities never gives a higher score |
| Routing.ErrorMessage | src/services/routing.ts:105-237 | each routing error has a non-empty message: the invalid-coordinates and same-location texts of the validation (lines 105 and 108) and the fetch-failure text thrown at lines 230 and 237 |
| Routing.ValidateEndpoints | src/services/routing.ts:101-109 | rejects as invalid exactly when an endpoint is non-finite or has \|lat\| > 90 or \|lon\| > 180; otherwise rejects as the same location exactly when start equals end |
| Routing.ConvertRoutes | src/services/routing.ts:144-153 | one route per provider route, with ids 1..n in response order, copied distance and duration, every [lon, lat] pair swapped to [lat, lon], a missing geometry giving no points, and no score yet |
| Routing.ConvertedIdsDistinct | src/services/routing.ts:144-145 | a named corollary of the ids 1..n that ConvertRoutes states: converted ids strictly increase, so they are distinct |
| Routing.ScoreRoutes | src/services/routing.ts:155-158 | every route keeps its fields and gets the score of its coordinates against the registry |
| Routing.GetRoutes | src/services/routing.ts:101-158 | a validation failure is returned as is; an empty provider answer is a fetch failure; otherwise the converted, scored routes, each with a score in [0, 100] when its distance is positive |
| Routing.ValidationPrecedesRequest | src/services/routing.ts:101-109 | when validation fails, the result does not depend on the provider's answer, so no request matters |
| Routing.FormatDistance | src/services/routing.ts:286-291 | below 1000 the text ends in " m"; from 1000 on it ends in " km" with a decimal point two places before the unit |
| Routing.FormatDistanceReadsBack | src/services/routing.ts:286-291 | below 1000 the text is "<Math.round(m)> m"; otherwise "<a>.<bb> km", whose digits read back as m/1000 rounded to two decimals; neither carries a surplus leading zero |
| Routing.FormatDistanceExamples | src/services/routing.ts:286-291 | 999 m shows as "999 m" and 1500 m as "1.50 km" |
| Routing.FormatDuration | src/services/routing.ts:293-301 | with m = Math.round(s/60), below 60 the text ends in " min"; from 60 on it ends in "m" but not in " min" |
| Routing.FormatDurationReadsBack | src/services/routing.ts:293-301 | with m = Math.round(s/60), below 60 the text is "<m> min"; otherwise "<h>h <r>m" with h ≥ 1, r < 60 and 60·h + r = m; no number carries a surplus leading zero |
| Routing.FormatDurationExamples | src/services/routing.ts:293-301 | 2700 s shows as "45 min" and 5400 s as "1h 30m" |
| Routing.GetSafetyRating | src/services/routing.ts:303-315 | each score falls in exactly one band: Very Safe ≥ 80, Safe ≥ 60, Moderate ≥ 40, Caution ≥ 20, Unsafe otherwise; each label comes with its green, blue, yellow, orange or red text colour |
| Routing.RatingMonotone | src/services/routing.ts:303-315 | a higher score never gets a worse rating |
| RouteSimulation.DeviationFor | src/services/routeSimulation.ts:70-82 | the distance is 0 when the first draw is ≥ 0.3, and otherwise 50 + 150 · draw2, which lies in [50, 200); off-route exactly when it exceeds 100, that is when draw1 < 0.3 and draw2 > 1/3 |
| RouteSimulation.RouteSimulationService.AtMostOneTimer | src/services/routeSimulation.ts:39-45 | the service never holds more than one live interval |
| RouteSimulation.RouteSimulationService.StartSimulation | src/services/routeSimulation.ts:30-46 | stores the route and callback, resets the cursor to 0, sets the running flag, and replaces any old interval so that only the new one is live |
| RouteSimulation.RouteSimulationService.StopSimulation | src/services/routeSimulation.ts:49-57 | leaves no interval, route or callback and the flag false, whatever the prior state (so a second call changes nothing); the cursor is kept |
| RouteSimulation.RouteSimulationService.SimulateNextPosition | src/services/routeSimulation.ts:60-83 | with no route or no callback, nothing changes and nothing is emitted; otherwise the cursor moves to (i+1) mod length (0 on an empty route) and the callback gets the deviation for the draws |
| RouteSimulation.RouteSimulationService.IsRunning | src/services/routeSimulation.ts:123-125 | running exactly when an interval and a route are installed: true after start, false after stop |
| RouteSimulation.RouteSimulationService.CalculateDistanceToRoute | src/services/routeSimulation.ts:86-104 | Infinity exactly for an empty route; otherwise a finite, non-negative value that is ≤ the distance to every vertex and equal to the distance to some vertex |
| SafeRouting.ReduceBest | src/pages/SafeRouting.tsx:201-208 | the left fold picks a route that no other route strictly beats, and one that strictly beats every earlier route, so the earliest wins a tie |
| SafeRouting.SelectBest | src/pages/SafeRouting.tsx:201-208 | in safest mode, a route with the largest score (missing counts as 0); in shortest mode, one with the least distance; the earliest among equals in both |
| SafeRouting.FindRoutes | src/pages/SafeRouting.tsx:180-225 | a missing endpoint sets its error without a request; a thrown error shows its message, or the fallback when the message is empty; an empty list sets "No routes found" with nothing selected; otherwise stores the routes and selects the best; loading ends false, and the simulation flag and deviation alert are kept |
| SafeRouting.RoutingMessageDiffers | src/services/routing.ts:105-108 | no message the routing service throws is empty or equal to the page's "No routes found" text |
| SafeRouting.NoRoutesFoundUnreachable | src/pages/SafeRouting.tsx:194-197 | with the routing service in front, the "No routes found" error never appears |
| SafeRouting.GetRouteColor | src/pages/SafeRouting.tsx:227-237 | green exactly for the selected route; red exactly for an unselected route scoring below 40 while one is selected; gray otherwise |
| SafeRouting.ScoreBarClass | src/pages/SafeRouting.tsx:497-503 | green at ≥ 80, blue at ≥ 60, yellow at ≥ 40, red otherwise, missing scores counting as 0 |
| SafeRouting.ScoreBarMatchesRating | src/pages/SafeRouting.tsx:497-503 | green exactly for Very Safe, blue for Safe, yellow for Moderate, and red for Caution or Unsafe |
| SafeRouting.RedRouteHasRedBar | src/pages/SafeRouting.tsx:234-235 | a route drawn red has a red score bar |
| SafeRouting.StartRouteSimulation | src/pages/SafeRouting.tsx:252-274 | with no selected route, only the error is set and nothing starts; otherwise the page is simulating with the alert cleared and the selected route's coordinates go to the simulator |
| SafeRouting.StopRouteSimulation | src/pages/SafeRouting.tsx:276-280 | the flag and the deviation alert are cleared; routes, selection, error and loading are kept |
| SafeRouting.StartRouteSimulationOn | src/pages/SafeRouting.tsx:252-274 | the simulator is left untouched without a selection; otherwise it runs on the selected route with the page's deviation callback, the cursor at 0 and the given interval installed |
| SafeRouting.StopRouteSimulationOn | src/pages/SafeRouting.tsx:276-280 | the simulator is stopped and the page flag and alert are cleared |
| Geolocation.GeolocationService.AtMostOneWatch | src/services/geolocation.ts:52-53 | at most one native watch is live, however many subscribers there are |
| Geolocation.GeolocationService.StartWatching | src/services/geolocation.ts:45-71 | when unsupported, it fails with the not-supported error and changes nothing; otherwise it appends the callback, and creates a watch only when none exists |
| Geolocation.GeolocationService.StopWatching | src/services/geolocation.ts:73-80 | removes every occurrence of the callback, keeping the rest in order; an unknown callback changes nothing; the watch is cleared exactly when the list becomes empty |
| Geolocation.GeolocationService.Deliveries | src/services/geolocation.ts:59 | a position update goes to every registered callback, once per registration, in registration order |
| Geolocation.GetMockLocation | src/services/geolocation.ts:37-43 | always (40.7128, -74.0060) |
| Geolocation.GetErrorMessage | src/services/geolocation.ts:91-102 | codes 1, 2 and 3 map exactly to the permission, unavailable and timeout messages, every other code to the unknown-error message |
| Home.SpacedPairwise | src/pages/Home.tsx:71-74 | when consecutive accepted times are a cooldown apart, times j > i are at least (j − i) cooldowns apart |
| Home.SosGuard.AcceptedAttemptsApart | src/pages/Home.tsx:28-74 | any two accepted SOS attempts started at least 10000 ms apart |
| Home.SosGuard.HandleSos | src/pages/Home.tsx:69-74 | accepted exactly when no attempt is in progress, nothing is loading and 10000 ms have passed since the last accepted start; a refused attempt changes nothing; an accepted one sets the flag and records now as the cooldown start |
| Home.SosGuard.FinishSos | src/pages/Home.tsx:118-121 | the in-progress flag is cleared whether or not the alert was stored |
| Home.SosGuard.HandleShakeSos | src/pages/Home.tsx:166-172 | accepted exactly when no attempt is in progress, nothing is loading, and the cooldown has passed both at the shake and when the SOS handler runs; an accepted shake sets the flag and starts the cooldown at the handler's time; a refused one changes nothing |
| Home.StopSharingAsWritten | src/pages/Home.tsx:213-217 | stopping sharing by handing `stopWatching` a never-registered closure leaves the subscriber list and the native watch exactly as they were, so the watch stays open |
| Home.StopSharing | src/services/geolocation.ts:73-80 | stopping with the registered callback removes it, and when it was the only subscriber the native watch is cleared |
| Home.ShareThenStopExample | src/pages/Home.tsx:205-217 | on a fresh service, start then stop as written leaves the watch open; stopping with the registered callback closes it |
| FakeCall.FormatTimeReadsBack | src/pages/FakeCall.tsx:20-24 | the display is "<mm>:<ss>": at least two minute digits reading back as ⌊s/60⌋ with no surplus leading zero, two second digits reading back as s mod 60 < 60, and the whole reads back as s |
| FakeCall.PaddedMinutesLeadingDigit | src/pages/FakeCall.tsx:21-23 | the padded minute field has exactly two digits or starts with a non-zero digit |
| FakeCall.NoHourRollover | src/pages/FakeCall.tsx:20-24 | 0 shows as "00:00" and 3600 as "60:00" |
| FakeCall.CallScreen.Tick | src/pages/FakeCall.tsx:10-18 | a tick adds one second only once the call is answered; while ringing the timer stays 0 |
| FakeCall.CallScreen.HandleAnswer | src/pages/FakeCall.tsx:26-28 | the call stops ringing |
| FakeCall.CallScreen.ToggleMute | src/pages/FakeCall.tsx:35-37 | the mute flag flips, so two toggles restore it |
| FakeCall.FormatTime | src/pages/FakeCall.tsx:20-24 | the display has at least five characters with the colon third from the end |
| PinkRelief.ToggleSymptom | src/pages/PinkRelief.tsx:22-28 | the symptom's membership flips and every other symptom's is kept; an absent one is appended after the unchanged list |
| PinkRelief.ToggleTwiceRestores | src/pages/PinkRelief.tsx:22-28 | toggling an absent symptom twice gives back the original list |
| PinkRelief.RemoveAllKeepsNoDuplicates | src/pages/PinkRelief.tsx:23-24 | filtering out one value keeps a duplicate-free list duplicate-free |
| PinkRelief.ToggleKeepsNoDuplicates | src/pages/PinkRelief.tsx:22-28 | toggling never introduces a duplicate entry |
| PinkRelief.ToggleRemovalKeepsOrder | src/pages/PinkRelief.tsx:23-24 | removal distributes over any split of the list, so the remaining symptoms keep their order |
| Onboarding.OnboardingWizard.HandleNext | src/pages/Onboarding.tsx:29-36 | below step 4 it advances exactly one step; at step 4 it stays, completes onboarding and navigates home; the step stays in 1..4 |
| Onboarding.OnboardingWizard.HandleBack | src/pages/Onboarding.tsx:38-42 | above step 1 it goes back exactly one step, and at step 1 it does nothing; the step stays in 1..4 |
| Onboarding.StepIndicator | src/pages/Onboarding.tsx:67-88 | one item per step; item i is active exactly when it is the current step, completed exactly when it comes before it, and upcoming exactly when it comes after it |
| Onboarding.CountPrefix | src/pages/Onboarding.tsx:85-88 | counts the active and completed items among the first n indicator items |
| Onboarding.ExactlyOneActive | src/pages/Onboarding.tsx:85-88 | exactly one item is active, it is the current step, and the completed items are exactly the ones before it |
| Profile.ValidateContact | src/pages/Profile.tsx:92-101 | an empty name or phone gives "Please fill in all fields", and this check wins; otherwise 3 or more contacts give the limit message; otherwise the contact passes |
| Profile.ShowsAddControl | src/pages/Profile.tsx:291 | the add control is shown exactly below 3 contacts |
| Profile.AddControlMatchesLimit | src/pages/Profile.tsx:98-101 | with both fields filled, the control is shown exactly when the count check would pass |
| Profile.ContactForm.HandleAddContact | src/pages/Profile.tsx:92-123 | a failed check sets its message and inserts nothing; a successful insert resets the draft, closes the form and reports success; a failed insert shows its message or "Failed to add contact" and leaves the success message as it was |
| App.ProtectedRoute | src/App.tsx:17-47 | the spinner while loading; otherwise /signin without a user, /onboarding with onboarding incomplete, and the children exactly when a user has completed onboarding |
| App.PublicRoute | src/App.tsx:49-68 | the spinner while loading; otherwise / with a user, and the children exactly when there is no user |
| App.OnboardingPage | src/pages/Onboarding.tsx:22-77 | a signed-in user sees nothing and is sent to /; anyone else sees the wizard |
| App.GuardOf | src/App.tsx:76-160 | /onboarding is unguarded; /signin and /signup are exactly the public paths; /, /map, /community-watch, /pink-relief, /contacts, /profile, /fake-call and /safe-routing are exactly the protected ones; any other spelling has no route (see "## Left out") |
| App.NoRedirectLoop | src/App.tsx:17-160 | once loading ends, following redirects from any listed path reaches a rendered page after at most three hops, with onboarding marked complete when a signed-in user passes /onboarding; an unlisted path shows nothing |
| App.GuardsExclusive | src/App.tsx:17-68 | when a listed page renders, a protected one means a signed-in user who has completed onboarding, and a public or onboarding page means nobody is signed in |
| Text.NatToString | src/services/routing.ts:288-300 | all decimal digits: one digit below 10, two digits from 10 to 99 |
| Text.NatToStringLeadingDigit | src/services/routing.ts:288-300 | the text starts with 0 exactly for zero, so no number gets a surplus leading zero |
| Text.ParseNatToString | src/services/routing.ts:288-300 | the decimal text of n reads back as n |
| Text.ParseIntToString | src/services/routing.ts:288-300 | the text of an integer, with its sign, reads back as that integer |
| Text.ParsePaddedNat | src/pages/FakeCall.tsx:23 | left-padding the decimal text with zeros to any width keeps it all digits and reading the same value |
| Seqs.RemoveAll | src/services/geolocation.ts:74 | every occurrence of the value is dropped and every other element is kept; a list without the value is unchanged |
| Seqs.RemoveAllAppend | src/services/geolocation.ts:74 | filtering distributes over concatenation, so the kept elements stay in their order |
| Geo.Round | src/services/routing.ts:268 | Math.round: the integer n with x − 0.5 < n ≤ x + 0.5 |
| Geo.RoundMonotone | src/services/routing.ts:268 | rounding never reverses an order |

## Left out

- The haversine body of `calculateDistance` (routing.ts and routeSimulation.ts) is floating-point trigonometry. It is a function parameter assumed only to be non-negative.
- Floating point in general: coordinates, distances and scores are exact reals. `toFixed(2)` is modelled as decimal rounding of x·100 and ignores binary representation effects. `Math.round` is floor(x + 0.5).
- The Openrouteservice request, its headers and the 400, minimal and driving-car fallback chain are a network client. `getRoutes` receives the provider's routes array as a parameter; a thrown network error is the same fetch failure as an empty answer.
- Route `segments`/`steps` are copied through by the mapping and used only for display. They are not part of the model's route.
- `Math.random` draws are parameters of `SimulateNextPosition`. `setInterval`/`clearInterval` scheduling is an abstract handle, so the ticks themselves are calls of the method.
- The `getInstance` singletons of the services are left out: one object stands for the shared instance.
- `getCurrentPosition`, `requestPermission` and the browser watch callbacks are asynchronous browser APIs. Whether geolocation is supported and the new watch id are parameters of `StartWatching`.
- The map-centre midpoint and zoom in `findRoutes` are float display state.
- Supabase inserts and reloads are parameters: whether the SOS alert was stored, and the contact insert's error.
- Of the home page's location sharing, only the watch subscription and its stop are modelled. The position fetch, the mock-location fallback and the `location_shares` upserts are database and browser I/O.
- React re-rendering, asynchrony and stale closures are left out. `sosLoading` is the value the handler sees, passed in; the 3-second success-message reset timer in Profile is not modelled.
- JSX layout, audio and haptic feedback, console logging and the SOS modals are presentation only.
- `shakeDetection.ts` is device-motion plumbing with float acceleration; only its callback, `handleShakeSOS`, is modelled.
- App.GuardOf: paths are compared exactly as spelled. The router's case-insensitive matching and its tolerance of a trailing slash ("/profile/", "/Map") are not modelled, so such spellings get no route here.
- The onboarding context's storage and the sign-up form of the last onboarding step are not part of this model.
- Home.SosGuard.FinishSos: models only the flag. The confirmation or error modal state is presentation and is left out.

## Findings

| source | as written | input that shows it | evidently intended | confidence | as-written member | corrected member |
|---|---|---|---|---|---|---|
| src/pages/Home.tsx:216 | turning sharing off calls `stopWatching(() => {})` with a new closure; the mark-as-safe handler makes the same call at Home.tsx:150 | start sharing, which registers its update closure, then turn it off: the new closure matches nothing, so the update closure and the native watch stay | pass `stopWatching` the closure that `startWatching` registered, so the watch closes | not executed | Home.StopSharingAsWritten | Home.StopSharing |
