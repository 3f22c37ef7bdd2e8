# Wildfire dashboard core, modelled in Dafny

This project models the parts of the wildfire risk dashboard that hold its
logic:

- **Risk map component.** Layer registry, viewport zoom and pan, shape annotations, location search and marker selection.
- **MapLibre heatmap page.** GeoJSON conversion, bounding-box fit, heatmap toggle and intensity.
- **News page.** Category and text filter, breaking-news banner, expanded article.
- **Backend routes.** Admin routes (list users, read a user, assign a role, with the last-Admin guard), register and login, and the seed script.
- **Schema migration runner.** Runs a Python slice of the step list and stops at the first failing step.
- **PostGIS helpers.** The SQL statements they build and their bound parameters, the WKT point text, and the error fallbacks.
- **Data downloaders.** The FIRMS windowing of the year 2020 and the NOAA paged download.
- **API configuration.** Class selection.

Each component is one module of immutable state with pure transitions. The
outside world enters as parameters, `None` standing for an unset variable or
an absent JSON field:

- the clock;
- the database, as a function from statements to outcomes;
- the HTTP responses, as an oracle sequence or a per-window outcome;
- password hashing and checking;
- e-mail validation;
- `strftime`;
- environment variables.

JavaScript numbers are exact reals, and `Math.sqrt` of a squared distance is
characterised by `Annotations.IsDistance`. Python and JavaScript truthiness
are written out explicitly (`Text.Truthy`, `AdminRoutes.TruthyId`,
`Annotations.TruthyNumber`, `Spatial.ValueTruthy`). Python slicing is
`Seqs.PySlice`.

Shared modules:

- `Wrappers`: `Option`.
- `Seqs`: filter, subsequence, Python slice, flatten.
- `Text`: ASCII lower-casing, substring search, decimal digits.
- `Accounts`: the user and role tables with their uniqueness constraints.

## Model

| member | source | states |
|---|---|---|
| Layers.ToggleLayer | frontend/src/components/risk-map.tsx:238-242 | flips `enabled` on exactly the layers with the given id; name, opacity, colour, order, length and every other layer are kept |
| Layers.ToggleTwice | frontend/src/components/risk-map.tsx:238-242 | toggling the same layer twice restores the registry |
| Layers.ToggleUnknown | frontend/src/components/risk-map.tsx:238-242 | toggling an id no layer has changes nothing |
| Layers.UpdateLayerOpacity | frontend/src/components/risk-map.tsx:244-248 | only the matching layers take the new opacity, as given with no clamping; everything else is kept |
| Layers.OpacityKeepsEnabled | frontend/src/components/risk-map.tsx:244-248 | moving the opacity slider never changes which layers are on |
| Layers.InitialEnabledLayers | frontend/src/components/risk-map.tsx:229-236 | the map starts with six layers, of which exactly zones, incidents and stations are on |
| MapViewport.Zoom | frontend/src/components/risk-map.tsx:324-329 | one ±0.2 step, clamped to [0.5, 3]; an unclamped step lands exactly on the target; the pan offset is untouched |
| MapViewport.ZoomAllInRange | frontend/src/components/risk-map.tsx:324-329 | from a zoom in range, any sequence of button presses keeps the zoom in [0.5, 3] and never moves the offset |
| MapViewport.ZoomInThenOut | frontend/src/components/risk-map.tsx:324-329 | zooming in then out is the identity when the first step was not clamped |
| MapViewport.PanTo | frontend/src/components/risk-map.tsx:289-295 | while panning, offset plus recorded start equals the cursor; zoom unchanged |
| Annotations.DrawKind | frontend/src/components/risk-map.tsx:272-281 | only the two draw tools start a shape, each of its own kind |
| Annotations.StartDraft | frontend/src/components/risk-map.tsx:278-284 | a new draft is anchored at the cursor with no second corner and no radius |
| Annotations.ExtendDraft | frontend/src/components/risk-map.tsx:300-306 | a rectangle draft records the cursor as its opposite corner, a circle draft records the true distance from its anchor; id, kind, colour and anchor are kept |
| Annotations.DistanceUnique | frontend/src/components/risk-map.tsx:305 | the radius is determined by anchor and cursor: two values meeting the distance characterisation are equal |
| Annotations.DeleteShape | frontend/src/components/risk-map.tsx:811 | a shape survives deletion iff its id differs; survivors keep their order, each with the multiplicity it had, and shapes with that id are gone |
| Annotations.DeleteUnknown | frontend/src/components/risk-map.tsx:811 | deleting an id no shape has keeps the list |
| Annotations.RectangleBox | frontend/src/components/risk-map.tsx:701-708 | a rectangle is rendered iff both `x2` and `y2` are truthy, in the smallest box having both corners on its edges |
| Annotations.CircleBox | frontend/src/components/risk-map.tsx:688-695 | a circle is rendered in a square centred on its anchor with side twice the radius, 0 when there is no radius |
| EntitySearch.MatchingProperties | frontend/src/components/risk-map.tsx:365-373 | every hit from one collection carries that collection's kind and a name containing the query case-insensitively |
| EntitySearch.AllMatchesProperties | frontend/src/components/risk-map.tsx:364-373 | the concatenated matches all contain the query and are ordered zones, incidents, stations |
| EntitySearch.Search | frontend/src/components/risk-map.tsx:364-374 | at most five hits, each matching, in kind order |
| EntitySearch.SearchIsPrefix | frontend/src/components/risk-map.tsx:374 | the hits are the first min(5, n) matches, in order |
| EntitySearch.SearchComplete | frontend/src/components/risk-map.tsx:364-374 | with at most five matches in all, every matching fixture is among the hits |
| EntitySearch.EmptyQueryMatchesAll | frontend/src/components/risk-map.tsx:365-373 | the empty query matches every entity of every collection |
| EntitySearch.EmptyQueryFirstFive | frontend/src/components/risk-map.tsx:364-374 | with four zones, the empty query yields the zones and the first incident |
| EntitySearch.EmptyQueryOnFixtures | frontend/src/components/risk-map.tsx:84-191 | on the actual fixtures the empty query yields the four zones and "Oak Ridge Fire" |
| RiskMap.InitialStateWf | frontend/src/components/risk-map.tsx:208-236 | the initial state is consistent: zoom in range, nothing drawn, select tool, the three default layers on |
| RiskMap.MouseDown | frontend/src/components/risk-map.tsx:268-287 | the pan tool starts a drag recording cursor minus offset; a draw tool with a mounted surface starts a draft of its kind at the cursor; select changes nothing; nothing else changes; consistency is kept |
| RiskMap.MouseMove | frontend/src/components/risk-map.tsx:289-310 | during a pan the offset follows the cursor, zoom unchanged; while drawing the draft is extended (corner or true radius); otherwise nothing changes |
| RiskMap.MouseUp | frontend/src/components/risk-map.tsx:312-322 | a drag ends without committing; otherwise a draft is appended as the last shape, cleared, and the tool returns to select |
| RiskMap.ZoomButton | frontend/src/components/risk-map.tsx:533-541 | the zoom buttons keep zoom in range, move it strictly in their direction unless at the bound, and touch nothing else |
| RiskMap.ResetView | frontend/src/components/risk-map.tsx:331-333 | the viewport returns to offset (0, 0), zoom 1, whatever it was; nothing else changes |
| RiskMap.ClearDrawings | frontend/src/components/risk-map.tsx:335-339 | every shape and any draft are discarded; tool, viewport and drag state are kept |
| RiskMap.DeleteAnnotation | frontend/src/components/risk-map.tsx:811 | exactly the shapes with that id are removed; the others are kept in order with their multiplicities |
| RiskMap.SetTool | frontend/src/components/risk-map.tsx:473-509 | a toolbar button sets the tool and nothing else |
| RiskMap.SwitchLayer | frontend/src/components/risk-map.tsx:842 | the layer switch toggles that layer and nothing else |
| RiskMap.SlideOpacity | frontend/src/components/risk-map.tsx:851 | the slider sets that layer's opacity and nothing else |
| RiskMap.TypeQuery | frontend/src/components/risk-map.tsx:398 | typing replaces the query and nothing else |
| RiskMap.EmptyQueryHidden | frontend/src/components/risk-map.tsx:400 | an empty query has five hits, yet the dropdown stays hidden |
| RiskMap.ChooseResult | frontend/src/components/risk-map.tsx:406-415 | clicking a hit selects it under its own kind, clears the query and keeps the other two selections |
| RiskMap.ClickMarker | frontend/src/components/risk-map.tsx:602-662 | clicking a marker clears its kind's selection iff that marker was selected, otherwise selects it; the other kinds' selections and the rest of the map state are untouched |
| RiskMap.ClickMarkerTwice | frontend/src/components/risk-map.tsx:602-662 | clicking the selected marker twice restores the state; clicking another marker twice leaves its kind with no selection and nothing else changed |
| RiskMap.PanGesture | frontend/src/components/risk-map.tsx:268-322 | a press, move and release with the pan tool shifts the offset by the cursor's displacement, keeps the zoom and commits no shape |
| RiskMap.CircleGesture | frontend/src/components/risk-map.tsx:268-322 | a circle gesture appends exactly one circle after the old shapes, anchored at the press, radius the distance to the last cursor, tool back to select |
| RiskMap.RectangleGesture | frontend/src/components/risk-map.tsx:268-322 | a rectangle gesture appends one rectangle spanning press and last cursor, rendered in the box those corners span |
| RiskMap.ClearDiscardsDraft | frontend/src/components/risk-map.tsx:335-339 | clearing during a drawing means the release commits nothing |
| HeatmapPanel.ToFeatureCollection | frontend/src/pages/MapPage.tsx:14-23 | one feature per point, in order, with `[lon, lat]` coordinates and the risk as property |
| HeatmapPanel.FeatureRoundTrip | frontend/src/pages/MapPage.tsx:14-23 | reading the features back yields the original points: none lost, reordered or with swapped axes |
| HeatmapPanel.BBoxOf | frontend/src/pages/MapPage.tsx:27-33 | the reduce yields a box iff there is a feature; the box holds every feature and each bound is attained by one |
| HeatmapPanel.SinglePointBox | frontend/src/pages/MapPage.tsx:27-33 | one feature gives the degenerate box on it |
| HeatmapPanel.FitTo | frontend/src/pages/MapPage.tsx:25-35 | no fit without features or map; otherwise the tightest box around all features, padding 40, duration 500 |
| HeatmapPanel.DateParam | frontend/src/pages/MapPage.tsx:157 | a cleared date picker sends the initial date, any other value is sent as is |
| HeatmapPanel.OnLoad | frontend/src/pages/MapPage.tsx:88-141 | a failed request (rejected, or no `points`) leaves no source, no heatmap visibility and no fit; otherwise the source holds the initial points, circles are at 0.85, the heatmap is hidden at intensity 1, and the map is fitted to the points |
| HeatmapPanel.ReloadFor | frontend/src/pages/MapPage.tsx:37-45 | without a map nothing happens; a failed request keeps the map as it was and requests no fit; otherwise an existing source's data is replaced, a missing one stays missing, the rest is kept, and the map is fitted to the response |
| HeatmapPanel.ReloadReplaces | frontend/src/pages/MapPage.tsx:41-43 | after a reload the data depends only on the response and reads back as exactly its points |
| HeatmapPanel.ToggleHeatmap | frontend/src/pages/MapPage.tsx:47-54 | an absent visibility counts as hidden; the heatmap is shown iff it was not; circles are at 0.15 iff it is shown, else 0.85 |
| HeatmapPanel.LoadedConsistent | frontend/src/pages/MapPage.tsx:88-119 | the load handler leaves the circle opacity agreeing with a set heatmap visibility iff its request succeeded |
| HeatmapPanel.ToggleConsistent | frontend/src/pages/MapPage.tsx:47-54 | after any toggle the circle opacity agrees with the visibility |
| HeatmapPanel.ToggleHeatmapTwice | frontend/src/pages/MapPage.tsx:47-54 | from a consistent map two toggles restore it exactly |
| HeatmapPanel.SetHeatmapIntensity | frontend/src/pages/MapPage.tsx:56-59 | the intensity takes the slider value, nothing else changes |
| HeatmapPanel.IntensityKeepsToggle | frontend/src/pages/MapPage.tsx:47-59 | the intensity slider and the heatmap toggle commute |
| FireNews.FilteredArticles | frontend/src/components/fire-news.tsx:120-128 | an article is shown iff it passes the category and the search predicate, as often as it occurs in the list; list order is kept |
| FireNews.CategoryThenSearch | frontend/src/components/fire-news.tsx:120-128 | filtering by category and then by search gives the same list |
| FireNews.ShowAll | frontend/src/components/fire-news.tsx:120-128 | "all" with an empty query shows the whole list |
| FireNews.EmptyQueryMatchesEveryField | frontend/src/components/fire-news.tsx:122-123 | the empty query is contained in every title, so the `=== ""` short cut does not change the result |
| FireNews.SearchIgnoresContent | frontend/src/components/fire-news.tsx:122-125 | body, source, timestamp and id never influence whether an article is shown |
| FireNews.FilterIgnoresContent | frontend/src/components/fire-news.tsx:120-128 | lists differing only in unsearched fields filter to lists of equal length |
| FireNews.BreakingNews | frontend/src/components/fire-news.tsx:147 | exactly the articles whose flag is set, in list order, each as often as it occurs |
| FireNews.Banner | frontend/src/components/fire-news.tsx:168-174 | no banner iff no article is breaking; otherwise the title of the first breaking one |
| FireNews.ToggleExpanded | frontend/src/components/fire-news.tsx:282-284 | the button collapses its article when expanded, otherwise expands it in place of any other |
| FireNews.ToggleExpandedTwice | frontend/src/components/fire-news.tsx:282-284 | pressing the same button twice closes what it opened and reopens what it closed |
| Accounts.AddUserValid | backend/models.py:13-18 | adding a fresh user with an unused e-mail under an existing role keeps e-mails unique and roles existing |
| AdminRoutes.ListUsers | backend/routes/admin.py:8-27 | for a request past the token check: 403 with no users iff the caller is not an Admin; otherwise 200 with exactly every user and its role |
| AdminRoutes.GetUser | backend/routes/admin.py:29-37 | for a request past the token check: 403 for a non-admin, 404 iff an admin asks for an unknown id, 200 with that user otherwise |
| AdminRoutes.AssignRole | backend/routes/admin.py:39-62 | the checks in source order (403, 400 missing field, 404 user, 400 last Admin, 404 role); 200 iff all pass, and then only that user's role changes; every failure leaves the store unchanged |
| AdminRoutes.AssignKeepsAnAdmin | backend/routes/admin.py:39-62 | whatever is asked, a store with an Admin still has one afterwards |
| AdminRoutes.AssignKeepsValid | backend/routes/admin.py:39-62 | role assignment keeps the table constraints |
| AdminRoutes.AssignTouchesOnlyTarget | backend/routes/admin.py:39-62 | every other user and the role table are untouched |
| AuthRoutes.DerivedRole | backend/routes/auth.py:25-26 | registration yields Researcher only when asked by that exact name, Resident otherwise, never Admin |
| AuthRoutes.Register | backend/routes/auth.py:9-38 | the checks in source order (400, 400 short password, 400 invalid e-mail, 500 missing role, 409 taken); 201 iff all pass, adding exactly one user; failures change nothing; the set of Admins never changes |
| AuthRoutes.RegisterKeepsValid | backend/routes/auth.py:9-38 | registration keeps the table constraints |
| AuthRoutes.Login | backend/routes/auth.py:40-51 | 400 iff a field is missing; 401 iff both are given but no user with that e-mail has a hash accepting the password; otherwise 200 with the identity of that user |
| AuthRoutes.LoginExact | backend/routes/auth.py:40-51 | with unique e-mails, login succeeds iff the password check accepts that user's hash, and then yields that user's identity |
| AuthRoutes.RegisterThenLogin | backend/routes/auth.py:9-51 | after registering, logging in with the same password yields the new user's non-Admin identity |
| Seed.EnsureRoles | backend/seed.py:15-18 | the role loop keeps existing roles as a prefix, adds every listed name, adds nothing else, and changes nothing when all exist |
| Seed.EnsureRolesNoDuplicates | backend/seed.py:15-18 | the role table stays free of duplicates |
| Seed.RunSeed | backend/seed.py:15-33 | all three roles exist afterwards; the Admin is created iff e-mail and password are set and the e-mail is unused |
| Seed.SeedKeepsValid | backend/seed.py:15-33 | seeding keeps the table constraints |
| Seed.SeedCreatesAdmin | backend/seed.py:25-33 | with an Admin configured and its e-mail unused, an Admin with that e-mail is created |
| Seed.SeedEmailTaken | backend/seed.py:26-28 | with the e-mail already taken, no user is added or changed; a non-Admin holder of the e-mail is not promoted |
| Seed.SeedIdempotent | backend/seed.py:15-33 | running the script twice is the same as once |
| Migrations.DefaultRunsAll | database/migrations/run_migration.py:51-54 | the default bounds select every step |
| Migrations.WindowSteps | database/migrations/run_migration.py:54 | an in-range window selects exactly steps start to end |
| Migrations.StartZeroRunsLast | database/migrations/run_migration.py:54 | a start of 0 selects only the last step, by Python slice semantics |
| Migrations.StartPastEndRunsNothing | database/migrations/run_migration.py:54 | a start past the list selects nothing |
| Migrations.RunSteps | database/migrations/run_migration.py:61-89 | steps are visited in order with their numbers up to and including the first failure; the result is true iff every selected step existed and ran |
| Migrations.RunMigrations | database/migrations/run_migration.py:45-89 | without a connection nothing runs and the result is false; otherwise as the step loop |
| Migrations.MissingIsNotSuccess | database/migrations/run_migration.py:68-70 | a missing step file makes the run report failure |
| Migrations.MigrateMain | database/migrations/run_migration.py:92-112 | the process exits 0 iff connected and every selected step succeeded, else 1 |
| Spatial.PlaceholdersMatchParams | database/spatial_utils.py:45-62 | in a statement whose holes match its parameters and whose literal text has no `%`, the rendered SQL has as many `%s` as parameters |
| Spatial.Bind | database/spatial_utils.py:56-62 | a statement bound to parameters matching its holes, with no `%` in its literals, renders to SQL with one `%s` per parameter |
| Spatial.InsertFragmentsPlain | database/spatial_utils.py:45-54 | no fixed fragment of the insert statement contains `%` |
| Spatial.ObservationColumnsPlain | database/spatial_utils.py:85-91 | the selected column list contains no `%` |
| Spatial.BBoxFragmentsPlain | database/spatial_utils.py:84-94 | no fixed fragment of the bounding-box query contains `%` |
| Spatial.NearPointFragmentsPlain | database/spatial_utils.py:128-139 | no fixed fragment of the near-point query contains `%` |
| Spatial.Template | database/spatial_utils.py:45-54 | interleaving literals with holes yields exactly the given hole roles, ending in the last literal; literals without `%` give pieces without `%` |
| Spatial.CreatePoint | database/spatial_utils.py:18 | the WKT text is the prefix, the longitude, one space, the latitude and the suffix |
| Spatial.PointRoundTrip | database/spatial_utils.py:18 | parsing the point text gives back latitude and longitude: the longitude is written first |
| Spatial.InsertPieces | database/spatial_utils.py:45-54 | the insert's holes take the thirteen columns in order, and its literal text has no `%` |
| Spatial.InsertStatement | database/spatial_utils.py:45-62 | thirteen placeholders bound to thirteen arguments in the order the columns expect, longitude before latitude; the SQL text carries exactly thirteen `%s` |
| Spatial.InsertObservation | database/spatial_utils.py:63-67 | the new id is the first column of the returned row; no id when the database raises or returns no (or an empty) row |
| Spatial.DateClause | database/spatial_utils.py:98-100 | a truthy date adds its clause and one parameter bound to it; a falsy date adds nothing |
| Spatial.DateFilters | database/spatial_utils.py:98-104 | one clause and one parameter per truthy date, start before end; holes match parameters, and the text has one `%s` per parameter |
| Spatial.Concat | database/spatial_utils.py:98-104 | appending a filter to a statement keeps holes and parameters matched and keeps the literals free of `%` |
| Spatial.BBoxStatement | database/spatial_utils.py:84-104 | the envelope is bound as min lon, min lat, max lon, max lat, followed by the date filters; holes match parameters, and the SQL text has one `%s` per parameter |
| Spatial.OrderBy | database/spatial_utils.py:151 | the ordering clause is one literal without placeholders |
| Spatial.NearPointStatement | database/spatial_utils.py:128-151 | the point is bound as lon, lat, lon, lat, radius, followed by the date filters, and the statement ends ordering by distance; holes match parameters, and the SQL text has one `%s` per parameter |
| Spatial.RunQuery | database/spatial_utils.py:106-112 | a failing query yields the empty list, otherwise all rows |
| Spatial.QueryByBBox | database/spatial_utils.py:84-112 | the bounding-box query returns the rows of its statement, or nothing when the database raises |
| Spatial.QueryNearPoint | database/spatial_utils.py:128-159 | the near-point query returns the rows of its statement, or nothing when the database raises |
| Firms.WindowStarts | data_sources/download_nasa_firms.py:17-21 | the i-th start is start + 10·i, none past the end, and the next one would be |
| Firms.WindowCount | data_sources/download_nasa_firms.py:17-21 | the generator yields (end − start) / step + 1 dates |
| Firms.DaysFor | data_sources/download_nasa_firms.py:44-45 | a window covers 1 to 10 days: the remaining days when fewer than 10 remain, else 10 |
| Firms.WindowsTile | data_sources/download_nasa_firms.py:40-51 | the windows start on the first day, follow each other without gap or overlap, and the last ends on the last day |
| Firms.WindowsCover | data_sources/download_nasa_firms.py:40-51 | every day of the range lies in exactly one window, number (day − start) / 10 |
| Firms.LeapYearWindows | data_sources/download_nasa_firms.py:40-51 | a 366-day range makes 37 requests, the last for its final six days |
| Firms.Windows2020 | data_sources/download_nasa_firms.py:40-41 | the 2020 run makes 37 requests, the last for December 26 to 31 |
| Firms.OutputName | data_sources/download_nasa_firms.py:31-32 | the file name is `firms_CA_`, the source, `_`, the date and `.csv` |
| Firms.OutputNameInjective | data_sources/download_nasa_firms.py:31-32 | windows with different start dates never overwrite each other's file |
| Firms.AttemptWindows | data_sources/download_nasa_firms.py:43-51 | every window is attempted once, in order, each under its own file name, a failure not stopping the loop |
| Firms.DownloadYear | data_sources/download_nasa_firms.py:37-51 | no request iff the API key is falsy; otherwise every window of 2020 is attempted in order |
| Noaa.ClassifyChunk | data_sources/download_noaa_weather.py:52-61 | an error status or a page without a count raises; absent or empty results give no page; otherwise the rows and the reported total |
| Noaa.DownloadFullPeriod | data_sources/download_noaa_weather.py:63-92 | request k uses offset 1 + 1000·k; the loop continues exactly while pages end before the total; an exception saves nothing; otherwise the saved rows are all pages in request order, and a file is written iff there was a page |
| Noaa.SinglePage | data_sources/download_noaa_weather.py:80-81 | a total of at most one page stops after the first request |
| Noaa.NoaaMain | data_sources/download_noaa_weather.py:94-109 | no request iff the API key is falsy; otherwise the period download runs and its outcome meets the paged-download contract |
| Noaa.RequestCount | data_sources/download_noaa_weather.py:71-81 | a download that stops at page k has made exactly k + 1 requests |
| Noaa.PeriodDetermined | data_sources/download_noaa_weather.py:63-92 | the paged-download contract fixes the outcome: two outcomes meeting it for the same responses are equal |
| AppConfig.SecretKey | api-framework/app/config.py:6-7 | a set SECRET_KEY wins, even empty; unset gives "dev-secret" |
| AppConfig.SettingsOf | api-framework/app/config.py:6-13 | both classes share the secret key; debugging is on iff development |
| AppConfig.SelectedEnv | api-framework/app/config.py:17 | a truthy name wins over FLASK_ENV, which wins over "development"; the result is lower case |
| AppConfig.GetConfig | api-framework/app/config.py:15-21 | production iff the selected name is "production"; anything else is development |
| AppConfig.NameOverridesEnvironment | api-framework/app/config.py:17 | with a non-empty name, FLASK_ENV is irrelevant |
| AppConfig.GetConfigIgnoresCase | api-framework/app/config.py:17-21 | names differing only in letter case select the same class |
| AppConfig.DefaultIsDevelopment | api-framework/app/config.py:15-21 | with nothing set, development applies, with debugging on |

## Left out

- Rendering, styling, icons, badges and the view-mode and timeframe selects of the risk map and the news page: presentational only.
- The fire-spread animation (frontend/src/components/risk-map.tsx:342-361): a timer-driven visual effect with no state the other handlers read.
- The pixel-to-percentage conversion of cursor positions (frontend/src/components/risk-map.tsx:273-276, 297-300): depends on the browser's layout. Positions arrive already converted.
- The "line" shape kind: the source's type admits it, but no tool creates one.
- The mock article and fixture data of the news page: only their structure is modelled. The risk-map search fixtures are modelled by id and name.
- MapLibre's own behaviour: only the source data, the two paint properties, the visibility and the `fitBounds` request the page reads and writes are modelled.
- The asynchronous `/api/heatmap` request: its response is a parameter, `None` when the request rejects or the body has no `points` list. Responses arriving out of order, and a `points` value that is not a list of points, are not modelled.
- Password hashing and checking (bcrypt), JWT creation and e-mail validation: library calls, passed in as functions.
- JWT verification by `@jwt_required()` (backend/routes/admin.py:21, 30, 40): a request without a valid token gets 401 before any handler runs. The admin routes model the handler bodies only; `ident` is the identity of an accepted token, `None` standing for a falsy one.
- The id the database assigns to a new row: passed in as a fresh id.
- Sessions, commits and the connection pool, and what PostGIS computes (`ST_MakeEnvelope`, `ST_DWithin`, distances): the database is an oracle from statements to outcomes.
- `get_fire_statistics_by_season` in database/spatial_utils.py: an aggregate query with no logic of its own beyond the SQL text.
- SQL whitespace: normalised to single spaces.
- Spatial.CreatePoint: takes the coordinates as already-formatted text; Python's float-to-string formatting is not modelled.
- Text.ToLower: covers ASCII letters only; JavaScript's and Python's full Unicode lower-casing is not modelled.
- The HTTP transport, CSV and JSON writing, file paths and the NOAA request URL and output name: I/O.
- The `time.sleep` between NOAA pages: timing only.
- `Noaa.Unanswered`: an artefact of the oracle having finitely many responses; the source would keep requesting.
- data_sources/download_usgs_dem.py is not part of this model: not among the modelled downloaders.
- The search query of the risk map: an empty query matches every name, since every string contains the empty string, and the five hits are computed. Only the render guard (frontend/src/components/risk-map.tsx:400) hides the dropdown. The model follows the code, which differs from a reading where the empty query yields no hits.
