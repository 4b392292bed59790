# Wildfire globe front-end: a Dafny model of its client-side logic

This project models, in Dafny, four pieces of client logic from a web front-end that shows wildfire detections on a 3D globe:

- **Fire markers** (`src/lib/cesium-fire.ts`). The module-level `globalParams` record holds two parallel collections of particle systems, one for fire and one for smoke. `particleFire` and `addParticleFire` add to them. `initFire` tears them down. `adjustFireVisibility` sets each one's `show` flag after every frame. The `trackCamera` listener is throttled and turns two corner picks into viewport bounds. The source defines it but never installs it: its call is commented out (`src/lib/cesium-fire.ts:42`), and the bounds it computes (`:81-86`) are not passed anywhere. The model covers it as the source defines it.
  - Handles are integer identities.
  - The scene's primitive collection is a multiset of handles.
  - Placements and `show` flags are maps.
  - Distances and heights are real-valued inputs.
- **View context** (`src/contexts/ViewContext.tsx`). This covers the provider's whole-value setters and `getContextSummary`, which reports to the chat assistant what the user is looking at.
  - The summary is a sequence of typed lines, one constructor per kind of line, each holding the values that line prints.
  - The statistics are modelled as functions: confidence buckets, distinct satellites, the three newest fires, the elevation range over positive elevations, and the land-cover tally with its top three.
- **Fetch state** (`src/hooks/use-fire-optimized.ts`). The hook keeps a `FireState` record and changes it through start, success, failure and clear-error updates. It also calls two request wrappers, `getFireLocations` and `getPrediction`. Both catch every failure, so the hook's failure branches cannot be reached through them.
- **Location search** (`src/components/ui/LocationSearch.tsx`). This covers:
  - the short-query guard;
  - the mapping from geocoder items to `Location` records;
  - the debounce that keeps a single pending timer, due 300 ms after the last keystroke;
  - JavaScript's string `length`, which counts UTF-16 code units;
  - the select, clear, focus and click-outside handlers;
  - the dropdown display conditions.

The code is split into modules:

| module | contents |
|---|---|
| `Common` | value types used everywhere: `Option`, `Attempt` (a settled promise), `BoundingBox`, `GeoPoint` |
| `Sequences` | generic list facts: filter, de-duplication, stable descending sort, prefix |
| `FireModels` | the detection and prediction records |
| `CesiumFire` | the `FireScene` class (for `globalParams`) and the `CameraTracker` class (for the `trackCamera` closure) |
| `ViewSummary` | the statistics |
| `ViewContext` | the summary lines and the `ViewContextProvider` class |
| `FireFetch` | the fetch state and the `FireHook` class |
| `LocationSearch` | the `LocationSearchBox` class and the item mapping |

Parts of the source that change state are classes with `modifies` clauses. Each method is proved against a function of the old state. The behaviour the program promises is proved as lemmas about those functions.

## Model

| member | source | states |
|---|---|---|
| CesiumFire.HeightAboveGround | src/lib/cesium-fire.ts:193-195 | the camera height above ground is the cartographic height minus the terrain height; an unknown terrain height counts as 0 |
| CesiumFire.Visible | src/lib/cesium-fire.ts:197-212 | a particle system is shown iff its distance is at most 10000 and the height used is at most 10000 |
| CesiumFire.ShowFlags | src/lib/cesium-fire.ts:201-213 | one visibility pass flags every handle of the list by its own distance; every other flag is kept and no handle is added or lost |
| CesiumFire.SetShowFlags | src/lib/cesium-fire.ts:201-206 | the `for` loop over a collection computes exactly the flags of one pass |
| CesiumFire.AdjustedFlags | src/lib/cesium-fire.ts:201-213 | the whole pass: every fire by the above-ground height, then every smoke by the ellipsoid height (its properties are the two rows below) |
| CesiumFire.AdjustIdempotent | src/lib/cesium-fire.ts:201-213 | running the whole visibility pass twice with the same camera gives the same flags as running it once |
| CesiumFire.AdjustedFlagsAt | src/lib/cesium-fire.ts:201-212 | on held handles, fires follow the above-ground height rule and smokes the ellipsoid height rule; the set of flagged handles does not change |
| CesiumFire.PlacingKeepsConsistent | src/lib/cesium-fire.ts:116-139 | placing a fire and a smoke at two new handles keeps the collections in lockstep, free of duplicates and sharing placements |
| CesiumFire.TeardownKeepsConsistent | src/lib/cesium-fire.ts:169-184 | removing every held handle keeps the invariant, and no held handle stays in the scene |
| CesiumFire.RemovedFromLastIsDifference | src/lib/cesium-fire.ts:172-183 | removing handles one by one from the last index down takes exactly one copy of each out of the scene |
| CesiumFire.RemoveFromLast | src/lib/cesium-fire.ts:172-176 | the decrementing `while` loop leaves the scene without one copy of each handle and removes them in reverse order |
| CesiumFire.Teardown | src/lib/cesium-fire.ts:169-184 | fires then smokes are removed, each from the last index down; each held handle is removed exactly once and none stays in the scene |
| CesiumFire.Place | src/lib/cesium-fire.ts:92-139 | one fire and one smoke handle, both new, are appended, placed at `alt + 50`, shown and added to the scene |
| CesiumFire.SeedPlacementsKeys | src/lib/cesium-fire.ts:155-157 | the seed placements cover exactly the `2 * n` handles numbered from the first new one |
| CesiumFire.SeedPlacementsAt | src/lib/cesium-fire.ts:149-157 | the fire and the smoke of seed `k` both sit at seed `k`, 50 m up |
| CesiumFire.ShownFromAt | src/lib/cesium-fire.ts:155-157 | the new flags cover exactly the new handles, each shown |
| CesiumFire.SeedsPlacedStep | src/lib/cesium-fire.ts:155-157 | one loop iteration takes the state after `i` seeds to the state after `i + 1` |
| CesiumFire.SeedsPlacedAtSeeds | src/lib/cesium-fire.ts:149-157 | after the seed loop, the `k`-th new fire and smoke sit at seed `k` and are shown, and no earlier placement or flag changed |
| CesiumFire.PlaceSeeds | src/lib/cesium-fire.ts:149-157 | the seed loop appends three fires and three smokes in seed order, numbered from the next handle, adds them to the scene, places and shows them, and keeps every earlier placement and flag |
| CesiumFire.FireScene.constructor | src/lib/cesium-fire.ts:8-13 | `globalParams` starts with no viewer and empty collections |
| CesiumFire.FireScene.ParticleFire | src/lib/cesium-fire.ts:90-141 | with a viewer, each collection grows by one handle and both share the position `alt + 50`; without a viewer nothing changes |
| CesiumFire.FireScene.AddParticleFire | src/lib/cesium-fire.ts:143-158 | starts the clock at multiplier 1 and has the full effect of the seed loop on the collections, scene, placements, flags and handle counter; without a viewer nothing changes |
| CesiumFire.FireScene.AttachViewer | src/lib/cesium-fire.ts:31-41 | a new viewer with an empty scene becomes current and the seed loop has its full effect in it; the clock time and the removal record are outside its frame |
| CesiumFire.FireScene.InitFire | src/lib/cesium-fire.ts:160-185 | with a viewer, the clock is set, every held handle is removed from the scene once, last index first, and both collections become empty; without a viewer nothing changes |
| CesiumFire.FireScene.AdjustFireVisibility | src/lib/cesium-fire.ts:187-214 | only `show` changes; each fire follows the above-ground rule and each smoke the ellipsoid-height rule; without a viewer nothing changes |
| CesiumFire.CornerBounds | src/lib/cesium-fire.ts:71-86 | there are no bounds iff a corner pick misses; otherwise north and west come from the top-left hit and south and east from the bottom-right hit |
| CesiumFire.GatePasses | src/lib/cesium-fire.ts:53 | the gate opens when at least 5000 ms have passed since the last sample |
| CesiumFire.PassTimes | src/lib/cesium-fire.ts:50-54 | the frame times at which the gate opens, each one becoming the new last sample (its property is the row below) |
| CesiumFire.PassTimesSpaced | src/lib/cesium-fire.ts:50-54 | the throttle gate opens at most once per 5000 ms, whatever the frame times |
| CesiumFire.CameraTracker.constructor | src/lib/cesium-fire.ts:50 | `lastUpdate` starts at 0 |
| CesiumFire.CameraTracker.OnPostRender | src/lib/cesium-fire.ts:51-86 | `lastUpdate` advances to `now` exactly when the gate passes; bounds are computed only then |
| Sequences.Filter | src/contexts/ViewContext.tsx:104-106 | `filter` keeps exactly the elements that satisfy the predicate |
| Sequences.Distinct | src/contexts/ViewContext.tsx:113 | `[...new Set(s)]` holds each element of `s` once and nothing else |
| Sequences.DistinctFirstOccurrenceOrder | src/contexts/ViewContext.tsx:113 | the de-duplicated list keeps the order of first occurrence |
| Sequences.SortDesc | src/contexts/ViewContext.tsx:118 | the comparator sort yields a permutation in non-increasing key order |
| Sequences.SortDescStable | src/contexts/ViewContext.tsx:118 | the sort keeps elements with equal keys in their original order |
| Sequences.SortDescOfDescending | src/contexts/ViewContext.tsx:118 | sorting a list that is already in order changes nothing |
| Sequences.Take | src/contexts/ViewContext.tsx:119 | `slice(0, k)` is a prefix of length `min(k, length)` |
| Sequences.TopOf | src/contexts/ViewContext.tsx:117-119 | the first k of the sorted list come from the list, are in order, and no element left out has a larger key than one kept |
| ViewSummary.IsHigh | src/contexts/ViewContext.tsx:104 | high confidence is above 80 |
| ViewSummary.IsMedium | src/contexts/ViewContext.tsx:105 | medium confidence is from 50 to 80, both included |
| ViewSummary.IsLow | src/contexts/ViewContext.tsx:106 | low confidence is below 50 |
| ViewSummary.BucketsPartition | src/contexts/ViewContext.tsx:104-106 | the high, medium and low buckets are disjoint, cover every fire, and their counts add up to the number of fires |
| ViewSummary.SatelliteNames | src/contexts/ViewContext.tsx:113 | one satellite name per fire, in order |
| ViewSummary.Satellites | src/contexts/ViewContext.tsx:113 | the de-duplicated satellite names (its property is the row below) |
| ViewSummary.SatellitesListed | src/contexts/ViewContext.tsx:113-114 | the satellite list names each satellite once, and only those of visible fires, in order of first occurrence |
| ViewSummary.SortedByDate | src/contexts/ViewContext.tsx:118 | the fires sorted newest first by the comparator (its properties are the rows below) |
| ViewSummary.RecentFires | src/contexts/ViewContext.tsx:117-119 | the first three of the sorted fires |
| ViewSummary.RecentFiresAreNewest | src/contexts/ViewContext.tsx:117-119 | at most three recent fires, newest first, and no fire left out is newer than one listed |
| ViewSummary.SortedByDateIsStablePermutation | src/contexts/ViewContext.tsx:118 | the in-place sort by date loses and adds no fire, and keeps fires with the same date in their order |
| ViewSummary.SortedByDateSettles | src/contexts/ViewContext.tsx:118 | sorting the stored list again, as the next summary does, leaves it as it is |
| ViewSummary.PositiveElevations | src/contexts/ViewContext.tsx:122 | exactly the positive elevations of the fires |
| ViewSummary.MinOf | src/contexts/ViewContext.tsx:125 | `Math.min` is an element that bounds every element from below |
| ViewSummary.MaxOf | src/contexts/ViewContext.tsx:126 | `Math.max` is an element that bounds every element from above |
| ViewSummary.MeanBetween | src/contexts/ViewContext.tsx:124 | the average of values within some bounds lies within those bounds |
| ViewSummary.ElevationSummary | src/contexts/ViewContext.tsx:122-128 | the elevation figures are absent iff no fire has a positive elevation |
| ViewSummary.ElevationSummaryBounds | src/contexts/ViewContext.tsx:122-127 | when some fire has a positive elevation, min and max are fire elevations bounding every positive one, with 0 < min <= avg <= max |
| ViewSummary.LandCoverOf | src/contexts/ViewContext.tsx:132 | a fire has a land cover iff its terrain has a non-empty `land_cover` |
| ViewSummary.LandCoverTypes | src/contexts/ViewContext.tsx:131-133 | the names are exactly the land covers of the fires that have one |
| ViewSummary.LandCoverTypesPermutation | src/contexts/ViewContext.tsx:118-133 | reordering the fires, as the in-place sort does, only reorders their land-cover names |
| ViewSummary.Bump | src/contexts/ViewContext.tsx:135 | one `reduce` step: the name's count goes up by one, or a new key with count 1 is appended |
| ViewSummary.Tally | src/contexts/ViewContext.tsx:134-137 | the `reduce` over the names into a record kept in key-insertion order |
| ViewSummary.TallyKeys | src/contexts/ViewContext.tsx:134-139 | the record's keys are the distinct land covers in first-occurrence order |
| ViewSummary.TallyCounts | src/contexts/ViewContext.tsx:134-137 | the record counts each land cover as often as it occurs |
| ViewSummary.TallyEntries | src/contexts/ViewContext.tsx:134-137 | keys are distinct, they are exactly the names, and every count is the number of occurrences and is at least 1 |
| ViewSummary.LandCoverCountsSum | src/contexts/ViewContext.tsx:131-137 | every count is at least 1, and the counts add up to the number of fires with a land cover |
| ViewSummary.TopLandCovers | src/contexts/ViewContext.tsx:139-143 | the record's entries sorted by count, most frequent first, and cut to three |
| ViewSummary.TopLandCoversAreCounted | src/contexts/ViewContext.tsx:139-143 | at most three entries, in non-increasing count order, each with its true count |
| ViewSummary.TopLandCoversAreMostFrequent | src/contexts/ViewContext.tsx:140-142 | no land cover left out occurs more often than one listed |
| ViewSummary.TallyMatchesTop | src/contexts/ViewContext.tsx:139 | the record has a key iff the top list is non-empty |
| ViewContext.LocationLines | src/contexts/ViewContext.tsx:91-94 | only location-section lines |
| ViewContext.AreaLines | src/contexts/ViewContext.tsx:96-98 | only viewing-area lines |
| ViewContext.ConfidenceLines | src/contexts/ViewContext.tsx:108-110 | only confidence lines |
| ViewContext.ElevationLines | src/contexts/ViewContext.tsx:123-128 | only elevation lines |
| ViewContext.LandCoverLines | src/contexts/ViewContext.tsx:139-146 | only land-cover lines |
| ViewContext.RecentLines | src/contexts/ViewContext.tsx:148-155 | only recent-fire lines and their heading |
| ViewContext.RecentFireLinesDescribe | src/contexts/ViewContext.tsx:150-154 | one line per recent fire in order, with the elevation when positive and the land cover when present |
| ViewContext.AgeSeconds | src/contexts/ViewContext.tsx:161 | the prediction's age is the elapsed time in whole seconds, rounded down |
| ViewContext.PredictionLines | src/contexts/ViewContext.tsx:160-163 | only prediction lines |
| ViewContext.Stats | src/contexts/ViewContext.tsx:100-146 | the figures of the fire section: count, buckets, satellites, recent fires, elevation and land covers (their properties are the Stats rows below) |
| ViewContext.Summary | src/contexts/ViewContext.tsx:88-168 | the summary lines: header, location, area, fire section or "no fires" line, prediction, closing |
| ViewContext.ContextSummary | src/contexts/ViewContext.tsx:88-168 | the summary of the provider's state, the figures being those of the visible fires |
| ViewContext.FireLinesWithin | src/contexts/ViewContext.tsx:100-157 | the fire block prints only fire-section lines |
| ViewContext.SummarySectioned | src/contexts/ViewContext.tsx:88-168 | each block of the summary prints only lines of its own section |
| ViewContext.SummaryFrame | src/contexts/ViewContext.tsx:89-165 | the summary starts with the header and ends with the closing sentence, each printed once |
| ViewContext.LocationShown | src/contexts/ViewContext.tsx:91-94 | the location and zoom lines appear iff a location is set, once each, with its values |
| ViewContext.AreaShown | src/contexts/ViewContext.tsx:96-98 | the viewing-area line appears iff a bounding box is set, once, with that box |
| ViewContext.CountsShown | src/contexts/ViewContext.tsx:100-157 | exactly one of the fire section and the "no active fires" line appears; with fires, the count and satellites are printed once |
| ViewContext.ConfidenceShown | src/contexts/ViewContext.tsx:104-110 | a confidence line appears for each non-empty bucket, once, with the bucket's size, and for no empty one |
| ViewContext.TerrainShown | src/contexts/ViewContext.tsx:122-146 | the elevation and land-cover lines appear exactly when their figures exist, once each |
| ViewContext.RecentShown | src/contexts/ViewContext.tsx:148-155 | the recent fires are described in order under a heading printed once when there are any |
| ViewContext.PredictionShown | src/contexts/ViewContext.tsx:160-163 | the prediction line appears iff a prediction was recorded, once, with its risk, place and age |
| ViewContext.StatsCounts | src/contexts/ViewContext.tsx:101-114 | the count is the number of fires, the buckets split them by confidence, and the satellites are distinct, in first-occurrence order |
| ViewContext.StatsElevation | src/contexts/ViewContext.tsx:122-128 | the elevation figure exists iff some fire has a positive elevation, and its bounds are fire elevations |
| ViewContext.StatsLandCovers | src/contexts/ViewContext.tsx:131-146 | the land-cover figure is empty iff no fire has a land cover; otherwise it lists the top three, most frequent first, with true counts |
| ViewContext.StatsRecent | src/contexts/ViewContext.tsx:117-119 | the recent fires are the three newest, newest first |
| ViewContext.ViewContextProvider.constructor | src/contexts/ViewContext.tsx:51-54 | every piece of state starts `null` or `[]` |
| ViewContext.ViewContextProvider.UpdateCurrentLocation | src/contexts/ViewContext.tsx:62 | replaces the whole location and nothing else |
| ViewContext.ViewContextProvider.UpdateVisibleFires | src/contexts/ViewContext.tsx:66 | replaces the whole fire list and nothing else |
| ViewContext.ViewContextProvider.UpdateBoundingBox | src/contexts/ViewContext.tsx:75 | replaces the whole box and nothing else |
| ViewContext.ViewContextProvider.UpdateLastPrediction | src/contexts/ViewContext.tsx:82-85 | stores the given place and risk with the current time |
| ViewContext.ViewContextProvider.GetContextSummary | src/contexts/ViewContext.tsx:88-168 | the summary built with `+=` is the summary function of the state; the stored fire list ends sorted by date |
| ViewContext.ViewContextProvider.AppendFireSection | src/contexts/ViewContext.tsx:100-158 | appends the fire section of the current figures, sorting the stored fire list on the way |
| ViewContext.AppendLocation | src/contexts/ViewContext.tsx:91-94 | appends exactly the location lines |
| ViewContext.AppendArea | src/contexts/ViewContext.tsx:96-98 | appends exactly the viewing-area line, when there is one |
| ViewContext.AppendConfidence | src/contexts/ViewContext.tsx:108-110 | appends exactly the confidence lines |
| ViewContext.AppendElevation | src/contexts/ViewContext.tsx:123-128 | appends exactly the elevation line, when there is one |
| ViewContext.AppendLandCovers | src/contexts/ViewContext.tsx:139-146 | appends the land-cover line iff the record has a key |
| ViewContext.AppendRecent | src/contexts/ViewContext.tsx:148-155 | appends exactly the recent-fire heading and lines |
| ViewContext.AppendRecentFires | src/contexts/ViewContext.tsx:150-154 | the `forEach` appends one describing line per fire, in order |
| ViewContext.AppendPrediction | src/contexts/ViewContext.tsx:160-163 | appends exactly the prediction line, when there is one |
| FireFetch.Started | src/hooks/use-fire-optimized.ts:52 | starting a fetch makes `loading` true and `error` null, and keeps the locations and the prediction |
| FireFetch.LocationsLoaded | src/hooks/use-fire-optimized.ts:55-59 | success replaces only the locations and makes `loading` false |
| FireFetch.PredictionsLoaded | src/hooks/use-fire-optimized.ts:80-84 | success replaces only the prediction and makes `loading` false |
| FireFetch.Failed | src/hooks/use-fire-optimized.ts:62-66 | failure records the message, makes `loading` false, and keeps the data |
| FireFetch.ErrorCleared | src/hooks/use-fire-optimized.ts:96 | resets only `error` |
| FireFetch.ErrorClearedIdempotent | src/hooks/use-fire-optimized.ts:95-97 | clearing twice is clearing once |
| FireFetch.LocationsFetchOutcome | src/hooks/use-fire-optimized.ts:52-66 | after a location fetch `loading` is false and the prediction is kept; there is no error iff the request resolved; on failure the old locations stay and the locations message is set |
| FireFetch.PredictionsFetchOutcome | src/hooks/use-fire-optimized.ts:77-91 | the same for a prediction fetch, with the predictions message |
| FireFetch.ErrorNamesRequest | src/hooks/use-fire-optimized.ts:62-91 | from any starting states, the error a location fetch leaves is never the one a prediction fetch leaves, so the message tells which request failed |
| FireFetch.LastFetchDecidesError | src/hooks/use-fire-optimized.ts:52-91 | each fetch clears the error first, so after two fetches in either order the error is the second fetch's alone |
| FireFetch.FireLocationsRequest | src/api/getFireLocations.ts:14-23 | the wrapper always resolves: with the response's locations, or with `[]` on failure |
| FireFetch.PredictionRequest | src/api/getPrediction.ts:13-20 | the wrapper always resolves: with the prediction, or with `undefined` on failure |
| FireFetch.LocationsFailureUnreachable | src/hooks/use-fire-optimized.ts:53-59 | through the real wrapper a failed fires request ends with empty locations and no error |
| FireFetch.PredictionsFailureUnreachable | src/hooks/use-fire-optimized.ts:78-84 | through the real wrapper a failed prediction request ends with no prediction and no error |
| FireFetch.FireHook.constructor | src/hooks/use-fire-optimized.ts:36-41 | the state starts with no locations, no prediction, not loading and no error |
| FireFetch.FireHook.Start | src/hooks/use-fire-optimized.ts:52 | the first write of a fetch |
| FireFetch.FireHook.FetchFireLocations | src/hooks/use-fire-optimized.ts:43-68 | the two successive writes produce the state of the fetch-outcome function |
| FireFetch.FireHook.FetchPredictions | src/hooks/use-fire-optimized.ts:70-93 | the two successive writes produce the state of the fetch-outcome function |
| FireFetch.FireHook.ClearError | src/hooks/use-fire-optimized.ts:95-97 | the state becomes the cleared state |
| LocationSearch.NatToString | src/components/ui/LocationSearch.tsx:66 | `toString` of a place number is a non-empty string of digits with no leading zero |
| LocationSearch.NatToStringRoundTrip | src/components/ui/LocationSearch.tsx:66 | reading the id back as a decimal numeral gives the place number |
| LocationSearch.NatToStringInjective | src/components/ui/LocationSearch.tsx:66 | distinct place numbers give distinct ids |
| LocationSearch.Utf16Length | src/components/ui/LocationSearch.tsx:50 | `length` counts UTF-16 code units: between the number of characters and twice it, and 0 only for `""` |
| LocationSearch.ShortQueries | src/components/ui/LocationSearch.tsx:50-53 | the guard turns away exactly `""` and a single character of the Basic Multilingual Plane; a single emoji is searched for |
| LocationSearch.FirstSegment | src/components/ui/LocationSearch.tsx:67 | the name is the prefix of the display name before its first comma, or the whole name when it has none |
| LocationSearch.CountryOf | src/components/ui/LocationSearch.tsx:68 | the country is the address's non-empty country, otherwise "Unknown"; it is never empty |
| LocationSearch.TypeOf | src/components/ui/LocationSearch.tsx:71 | the type is the item's type when non-empty, and "location" when empty; it is never empty |
| LocationSearch.MapItems | src/components/ui/LocationSearch.tsx:65-72 | exactly one location per item, in the items' order |
| LocationSearch.MappedLocation | src/components/ui/LocationSearch.tsx:65-72 | each location's id reads back as its place number, its name is a comma-free prefix of the display name, its country and type are non-empty, and its coordinates are the item's |
| LocationSearch.MappedIdsDistinct | src/components/ui/LocationSearch.tsx:66 | items of distinct places give locations with distinct ids, so the buttons' `key`s differ |
| LocationSearch.SearchResults | src/components/ui/LocationSearch.tsx:63-77 | a failed request yields no results; a resolved one yields one result per item, each the mapping of its item, in order |
| LocationSearch.DropdownShown | src/components/ui/LocationSearch.tsx:134 | the dropdown is rendered when `isOpen` holds and the query or the result list is non-empty |
| LocationSearch.DropdownShownWhen | src/components/ui/LocationSearch.tsx:134 | the dropdown is shown iff it is open and the query or the result list is non-empty |
| LocationSearch.NoResultsShown | src/components/ui/LocationSearch.tsx:134-153 | the message is rendered inside the shown dropdown when not loading, with no results and a query longer than one code unit |
| LocationSearch.NoResultsOnlyForSearchedQueries | src/components/ui/LocationSearch.tsx:134-153 | "No locations found" is shown only in the open dropdown and for a query that passes the guard; there it is shown iff no search runs and there are no results |
| LocationSearch.LocationSearchBox.constructor | src/components/ui/LocationSearch.tsx:31-36 | empty query and results, closed, not loading, and no timer |
| LocationSearch.LocationSearchBox.AtMostOnePending | src/components/ui/LocationSearch.tsx:88-94 | at most one search is pending, and it is the one `timeoutRef` names |
| LocationSearch.LocationSearchBox.InputChanged | src/components/ui/LocationSearch.tsx:83-95 | stores the value and opens the dropdown; the old timer is cleared and the only pending timer searches for this value 300 ms later; a non-empty value shows the dropdown |
| LocationSearch.LocationSearchBox.TimerFired | src/components/ui/LocationSearch.tsx:92-94 | once due, the pending search runs for its value and no timer is left; if the dropdown was open on that query, past the guard, the message shows iff nothing was found, and always when the request failed |
| LocationSearch.LocationSearchBox.Search | src/components/ui/LocationSearch.tsx:49-81 | a query shorter than 2 code units clears the results and leaves `loading` alone; otherwise the results are the mapped items, or empty on failure, and `loading` ends false |
| LocationSearch.LocationSearchBox.LocationSelected | src/components/ui/LocationSearch.tsx:97-101 | the query becomes the location's name, the dropdown closes, and the location is passed on |
| LocationSearch.LocationSearchBox.ClearSearch | src/components/ui/LocationSearch.tsx:103-107 | query `""`, no results, closed; the dropdown and the message are hidden |
| LocationSearch.LocationSearchBox.Focused | src/components/ui/LocationSearch.tsx:121 | focus opens the dropdown |
| LocationSearch.LocationSearchBox.ClickedOutside | src/components/ui/LocationSearch.tsx:39-42 | a press outside closes the dropdown, which is then hidden |

## Left out

- Viewer construction, imagery and terrain loading, `flyTo`, and the particle-system parameters (`src/lib/cesium-fire.ts:15-47`, `98-136`): these are calls into the rendering library. `AttachViewer` models only their effect on `globalParams`.
- Geometry (`Cartographic.fromCartesian`, `toDegrees`, `Cartesian3.distance`, `globe.getHeight`, picking): floating-point library calls. Distances, heights and pick results are inputs.
- Console logging of any kind.
- Text formatting in the summary: `toFixed`, the emoji, the joined strings and the text of the constant lines. Each summary line carries the values it prints instead of its text.
- ViewSummary.TallyKeys: the tally is a list kept in key-insertion order, which is the order of a JavaScript object only for names that are not array indices ("0", "12"); such keys come first there, in numeric order. Names such as "constructor" or "toString" are also not modelled: on a plain object, `acc[type] || 0` reads the inherited member for them. So the model assumes land-cover names are neither numerals nor `Object.prototype` member names. The same goes for ViewSummary.TopLandCovers, whose tie order follows the key order.
- `acq_date` is an integer ordering key. Parsing the date string into a `Date` is not modelled.
- The average elevation is modelled only as lying between the minimum and the maximum. Floating-point rounding is not modelled.
- The in-place `visibleFires.sort` is modelled by reassigning the stored sequence. Sharing that array with React state (aliasing) is not modelled.
- `Math.min(...xs)` and `Math.max(...xs)` use the exact mathematical minimum and maximum. The argument-count limit of the spread call is not modelled.
- The HTTP clients, the fires and predictions endpoints, and the Nominatim `fetch` (its URL, `limit=5` and `encodeURIComponent`) are out of scope. Each request is an abstract outcome, `Attempt`, that resolves with a value or rejects.
- `parseFloat` of the item's `lat` and `lon` is taken as given reals.
- `place_id` is a non-negative integer. JavaScript's printing of non-integer or exponent-form numbers is not modelled.
- Asynchrony: overlapping fetches racing on the shared `loading` flag, and a search whose answer arrives after a later keystroke.
  - `LocationSearchBox.TimerFired` and `FireHook.FetchFireLocations` each run their whole async function as one step.
  - Each timer carries the time it is due, 300 ms after its keystroke, and fires only once that time is reached. The time is an input; the clock itself is not modelled.
- React rendering itself, including the `AnimatePresence` animations and the list of result buttons. The dropdown and "No locations found" conditions are modelled as predicates. `ViewContextSummary.tsx` is not part of this model.
