# HealthConnect dashboard core, in Dafny

This project models the data handling of the ALEXTRIX HealthConnect web
dashboard. The dashboard shows a wearer's heart rate on a card and a live
chart, places the wearer on a map, and lists their recent readings.

- `dashboard.js` holds the `HealthConnectDashboard` object. It covers:
  - the WebSocket handlers and the reconnection counter;
  - payload normalisation;
  - the threshold classifiers behind the heart-rate, SpO2 and temperature cards, with their danger alerts;
  - the 20-point chart window;
  - the single map marker and its first-fix popup;
  - the extraction and selection of the historical table.
- `charts.js` holds the `HealthCharts` registry. It covers:
  - the colour helper `addAlpha`;
  - the chart annotation zones;
  - `updateChart`, `clearAllCharts` and `exportChartData`.

The modules:

| module | file | what it holds |
|---|---|---|
| `Values` | `values.dfy` | JSON scalars as `Undefined`, `Null` or a number. It also holds JavaScript truthiness, `a \|\| b` and the `'--'` placeholder. |
| `Bands` | `bands.dfy` | The three classifiers, the chart annotation zones, and the lemmas comparing the two. |
| `Payload` | `payload.dfy` | The reading payload as a recursive datatype, `normalizeData`, and the position a `gps` value yields. |
| `History` | `history.dfy` | Records extraction, the `slice(-10).reverse()` selection, and the rendered rows. |
| `Connection` | `connection.dfy` | The reconnection state machine as pure transitions, with its bounds. |
| `MapMarker` | `map_marker.dfy` | The marker state as a pure transition, with its invariants over any run of fixes. |
| `Colour` | `colour.dfy` | `addAlpha`, with JavaScript's `parseInt(…, 16)`, `substr` and `replace('#', '')` written out. |
| `Charts` | `charts.dfy` | A `Chart` class holding a label array and dataset arrays. It also holds the sliding window and the `HealthCharts` registry class. |
| `Dashboard` | `dashboard.dfy` | The `HealthConnectDashboard` class. Its fields are updated in place by methods, each proved against the pure functions above. |

The state the source changes in place stays imperative in the model:

- the connection fields, the map fields, and what the page shows live in a class;
- the chart arrays live in a class;
- the registry's loops over its charts are `while` loops with invariants.

The logic the source computes as plain values stays functional: the
classifiers, the table selection and `addAlpha`. `normalizeData` is a function too, although the source writes into its argument (see "## Left out").

Where the behaviour described for this system and the code differ, the model follows the code:

- `onerror` only shows "disconnected". Only `onclose` reconnects.
- `normalizeData` unwraps `data` at any depth, not just one level (`Payload.NormalizeUnwrapsAnyDepth`).
- Closing an alert does not cancel its 5-second timer. That timer is outside the model.
- The map and the location card's "Ubicado" status need both coordinates to be truthy. Each coordinate cell is shown on its own, so a `gps` with only one truthy coordinate still shows that one. A coordinate of exactly 0 counts as missing.

**Temperature bands.** The temperature classifier (dashboard.js:302-321) uses 36, 37.5 and 38. Two other places use 36.1, 37.2 and 38.5 instead:

- the chart's annotation zones (charts.js:330-370);
- the doc comment above the classifier (dashboard.js:285-288).

`Bands.TemperatureZonesDisagreeWithClassifier` exhibits readings on which they disagree:

- 38.2 °C is classified critical but drawn in the fever zone;
- 37.3 °C is classified normal but drawn in the fever zone;
- 36.05 °C is classified normal but lies below the normal zone.

The model keeps the code's thresholds. For heart rate and SpO2, the boundaries the zones share with each other fall exactly on the classifier's thresholds (`Bands.HeartRateZonesMatchClassifier`, `Bands.Spo2ZonesMatchClassifier`). The zones do not cover every band:

- the heart-rate chart draws no zone for "Bajo" (below 60) or for the critical range above 130;
- the SpO2 critical box starts at 85, while every reading below 93 is critical.

## Model

| member | source | states |
|---|---|---|
| Bands.ClassifyHeartRate | dashboard.js:200-215 | An absent, null or 0 reading is Normal with no alert. Otherwise: critical with an alert above 130; "Elevado" for 101 to 130; "Bajo" below 60; Normal for 60 to 100. The bands are exclusive, and an alert is raised exactly in the critical band. |
| Bands.ClassifySpo2 | dashboard.js:241-253 | Below 93 is critical with an alert. 93 up to but not including 97 is "Moderada". 97 and above, or a falsy reading, is Normal. |
| Bands.ClassifyTemperature | dashboard.js:302-321 | Above 38 is critical with an alert. Above 37.5 up to 38 is "Fiebre". Below 36 is "Hipotermia". Everything else, including a falsy reading, is Normal. |
| Bands.HeartRateZonesMatchClassifier | charts.js:154-178 | The normal zone 60–100 and the warning zone 100–130 meet, and classify exactly as updateHeartRate does: Normal inside 60–100, "Elevado" above 100 up to 130, critical above 130. |
| Bands.Spo2ZonesMatchClassifier | charts.js:226-264 | The critical, moderate and normal zones (85–93, 93–97, 97–100) meet at the classifier's thresholds 93 and 97, and each zone's band is the classifier's band. |
| Bands.TemperatureZonesDisagreeWithClassifier | charts.js:330-370 | The temperature zones disagree with the classifier at dashboard.js:307-316, shown by three concrete readings. |
| Payload.Normalize | dashboard.js:154-173 | A payload with a heart rate or SpO2 keeps every field except possibly `gps`, and an existing `gps` is untouched. A payload with neither but with `data` becomes the normalisation of `data`, whatever other fields it carries. A payload with neither and no `data` comes back unchanged. The result is always settled. |
| Payload.NormalizeSettled | dashboard.js:154-173 | A settled payload is a fixed point of normalizeData. |
| Payload.NormalizeIdempotent | dashboard.js:175-178 | Normalising twice, as onmessage followed by updateMetrics does, equals normalising once. |
| Payload.NormalizeSynthesizesGps | dashboard.js:156-164 | A reading with no `gps` but a truthy `lat`, `longitude` or `lon` gets `gps = {lat: lat \|\| latitude, lon: lon \|\| longitude}`. Nothing else changes. |
| Payload.NormalizeUnwrapsAnyDepth | dashboard.js:167-170 | However many `{data: …}` envelopes surround a payload, it normalises as the payload itself does. |
| Payload.Fix | dashboard.js:366-372 | A position exists exactly when `gps` is present and both `lat \|\| latitude` and `lon \|\| longitude \|\| lng` are truthy. Its coordinates are nonzero and come from those fields. |
| History.ExtractRecords | dashboard.js:524 | An array body is the records. Otherwise the result is `records`, else `data`, else `[]`, by truthiness. A `null` body throws. A truthy non-array value reaches updateHistoricalTable as "not an array". |
| History.Reversed | dashboard.js:540 | `.reverse()` keeps the length. Its elements are stated by `History.ReversedAt` and `History.ReversedAll`. |
| History.ReversedAt | dashboard.js:540 | Element i of the reversal is element n-1-i of the input. |
| History.ReversedAll | dashboard.js:540 | The same, for every index at once. |
| History.LastTenNewestFirst | dashboard.js:540 | `slice(-10).reverse()` holds min(10, n) records, and entry i is record n-1-i. |
| History.RowPosition | dashboard.js:549-561 | A record with `gps` shows `gps.lat \|\| gps.latitude` and `gps.lon \|\| gps.longitude \|\| gps.lng`, with '--' for a falsy value. Without `gps`, a record with a truthy `lat \|\| latitude` shows that value and `lon \|\| longitude \|\| lng`, with '--' when falsy. Otherwise both cells are '--'. |
| History.RowShowsTheMapFix | dashboard.js:551-553 | A record whose `gps` the map would accept shows in its row exactly the position the marker would move to. |
| History.RowOf | dashboard.js:564-570 | The user is `idUsuario`, else `id_usuario`, else '--'. The heart rate is `frecuenciaCardiaca`, else `frecuencia_cardiaca`, else '--'. The coordinates are RowPosition's. The time is shown exactly when `timestamp` is truthy. |
| History.TableOf | dashboard.js:535-573 | An empty array gives the single "no data" row, and only it does. A non-empty array gives min(10, n) rows, and row i renders record n-1-i. |
| Connection.SetStatus | dashboard.js:101-103 | The status is recorded. `isConnected` holds exactly when it is 'connected'. The counters are untouched. |
| Connection.Setup | dashboard.js:38-77 | Shows 'connecting', or 'disconnected' when the socket cannot be created. Keeps the counters and the invariant. |
| Connection.Opened | dashboard.js:45-49 | Connected, with the attempt counter back to 0. |
| Connection.Reconnect | dashboard.js:80-99 | Below 10 attempts: one more attempt, one timer scheduled, 'connecting'. At 10: 'disconnected', nothing scheduled. The counter never passes 10. |
| Connection.Closed | dashboard.js:64-68 | onclose shows 'disconnected' and then reconnects. Below 10 attempts the result is 'connecting', with one more attempt and one more timer. At 10 it is 'disconnected' with the counters kept. The invariant is kept. |
| Connection.Errored | dashboard.js:70-73 | onerror sets the status to 'disconnected' (not connected). It keeps every counter, so no reconnection is scheduled. |
| Connection.TimerFired | dashboard.js:92-94 | A pending timer is consumed and runs setupWebSocket: the status becomes 'connecting', or 'disconnected' when the socket cannot be created. Attempts and the schedule count are unchanged. With no timer pending, nothing changes. |
| Connection.RunKeepsInvariant | dashboard.js:80-103 | Over any sequence of socket events the counter stays within 10, and `isConnected` matches the status. |
| Connection.RetriesAreBounded | dashboard.js:80-99 | Without a successful open, each timer scheduled spends one attempt. No run schedules more than the remaining budget of 10. |
| Connection.ExhaustedCloseSchedulesNothing | dashboard.js:96-98 | With 10 attempts spent, a close schedules nothing and leaves the page disconnected. |
| MapMarker.InitMap | dashboard.js:415-428 | The view is centred on Arequipa at zoom 14, with a marker there already, the map not initialised and no popup opened. |
| MapMarker.UpdateMap | dashboard.js:366-413 | Without a valid fix, nothing changes. Otherwise the marker and centre end at the fix and the map is initialised. An existing marker keeps the zoom. The popup count grows only on the first fix. |
| MapMarker.UpdateMapIdempotent | dashboard.js:55-57 | The second updateMap onmessage makes with the same `gps` changes nothing. |
| MapMarker.PopupOpensAtMostOnce | dashboard.js:406-410 | From initMap on, any run of fixes opens the popup at most once, and the marker always exists. Once a valid fix arrives, the map is initialised. |
| MapMarker.InitializedStays | dashboard.js:406-410 | `mapInitialized` never goes back to false. |
| MapMarker.LastFixOfCons | dashboard.js:366-413 | The last valid fix of a run is the last valid fix of its tail, or the head's when the tail has none. |
| MapMarker.MarkerFollowsLastFix | dashboard.js:373-382 | After any run of updates, the marker is at the last valid fix, or where it was if there was none. |
| Colour.TrimStart | charts.js:381-383 | The result is a suffix of the input that does not start with white space. |
| Colour.TrimStartDropsOnlyWhitespace | charts.js:381-383 | Everything `parseInt` skips before the number is white space. |
| Colour.DigitRun | charts.js:381-383 | `parseInt` reads the longest prefix of hex digits, which is the whole string when every character is a hex digit. |
| Colour.ParseIntHex | charts.js:381-383 | `parseInt(…, 16)` of an empty string is NaN. The result is at most 0 after a leading minus sign, and at least 0 otherwise. |
| Colour.RemoveFirstHash | charts.js:380 | `replace('#', '')` removes only the first `#`, and only if there is one. |
| Colour.RemoveFirstHashAt | charts.js:380 | Wherever the first `#` stands, exactly it is removed, and the characters before and after it are kept in order. |
| Colour.Substr | charts.js:381-383 | `substr(start, 2)` yields at most two characters. |
| Colour.AddAlpha | charts.js:379-385 | The alpha is passed through unchanged. |
| Colour.ParseTwoInRange | charts.js:381-383 | `parseInt(…, 16)` of at most two characters is NaN or lies in -15..255. |
| Colour.AddAlphaChannelsInRange | charts.js:379-385 | Whatever the colour string, every channel is NaN or lies in -15..255. |
| Colour.ParseHexDigits | charts.js:381-383 | A non-empty string of hex digits parses to its value. |
| Colour.PairIsHex | charts.js:381-383 | Each two-character slice of a six-digit hex colour consists of hex digits. |
| Colour.HexPair | charts.js:381-383 | The value of the k-th digit pair of a six-digit colour is at most 255. |
| Colour.PairParses | charts.js:381-383 | `parseInt(hex.substr(2k, 2), 16)` on six hex digits yields the value of the k-th pair. |
| Colour.AddAlphaDecodesPairs | charts.js:379-385 | On `#RRGGBB` with six hex digits, each pair decodes to its channel in 0..255, and the alpha is kept. |
| Colour.HexChar | charts.js:379-385 | The digit written for a value reads back as that value. |
| Colour.Hex2 | charts.js:379-385 | A channel written as two hex digits reads back as itself. |
| Colour.AddAlphaRoundTrip | charts.js:379-385 | Writing three channels as `#rrggbb` and reading them with addAlpha gives the channels back. |
| Colour.AddAlphaOfNormalZoneGreen | charts.js:158 | `'#4caf50'` becomes rgba(76, 175, 80, alpha). |
| Charts.LastN | charts.js:399-403 | Keeps min(k, n) elements. |
| Charts.Pushed | charts.js:396-403 | A window of at most 20 aligned points stays aligned and at most 20 long, and the pushed label and value are last. |
| Charts.PushedIsLastTwenty | charts.js:396-403 | On a bounded window, one push gives the last 20 of old-plus-new in both arrays. |
| Charts.PushedKeepsOlderPoints | charts.js:399-403 | On a bounded window, what precedes the pushed point is one of two things. Either it is the old window, grown by one. Or the window was full and it is the old window minus its oldest entry, in both arrays together. |
| Charts.LastNOfLastN | charts.js:399-403 | Trimming to the last k and then extending and trimming again equals extending and trimming once. |
| Charts.LastNOfAppend | charts.js:399-403 | The same, for one pushed point followed by more. |
| Charts.PushedAllKeepsLastTwenty | charts.js:396-403 | Pushing any number of points onto a bounded chart leaves exactly the last 20 of the old points followed by the new ones, in both arrays. |
| Charts.Chart.constructor | charts.js:119-133 | A new chart has no labels and one empty dataset. |
| Charts.Chart.Push | charts.js:396-403 | The chart's labels and first dataset become `Pushed` of what they were. The other datasets are unchanged, and the chart stays aligned and bounded. |
| Charts.Chart.Clear | charts.js:412-417 | No labels, every dataset empty, and the number of datasets kept. |
| Charts.HealthCharts.Lookup | charts.js:389-390 | A registered name gives its chart, and any other name gives none. A chart found is one of the registered charts. |
| Charts.HealthCharts.constructor | charts.js:29-39 | Only the heart-rate chart is created, empty, and only when its canvas exists. |
| Charts.HealthCharts.HeartRateChart | charts.js:36 | `window.heartRateChart` is the chart registered as "heartRate", or undefined when there is none. |
| Charts.HealthCharts.UpdateChart | charts.js:388-407 | An unregistered name changes nothing. Otherwise that chart's window becomes `Pushed` of it, its other datasets and their number stay the same, and every chart stays valid. |
| Charts.HealthCharts.ClearAllCharts | charts.js:410-420 | Every registered chart ends with no labels and only empty datasets. |
| Charts.HealthCharts.ExportChartData | charts.js:423-435 | Exactly one entry per registered non-null chart. Each holds that chart's labels and first dataset's data. |
| Dashboard.LocationOf | dashboard.js:339-364 | The card reads "Ubicado" exactly when the map accepts the fix, and then shows that fix's coordinates. With no `gps`, it shows '--' twice. With a `gps`, each cell shows its own coordinate (`lat \|\| latitude`, `lon \|\| longitude \|\| lng`) or '--', whatever the other one is. |
| Dashboard.ChartedIfPresent | dashboard.js:430-446 | A null or undefined value leaves the chart. Any other value, 0 included, is pushed: it becomes last, the window grows by one or stays at 20, and the older points are the old ones minus at most the oldest. |
| Dashboard.AlertOnlyWhenCritical | dashboard.js:200-215 | For each metric, the banner is raised with that metric and reading exactly in the critical band. Any other reading leaves the banner as it was. |
| Dashboard.HealthConnectDashboard.constructor | dashboard.js:7-36 | Status 'connecting', then setupWebSocket, then initMap. The counters start at 0, and the cards and table show the page's own markup. |
| Dashboard.HealthConnectDashboard.UpdateConnectionStatus | dashboard.js:101-103 | The connection fields become `SetStatus` of what they were. Map and panels are unchanged. |
| Dashboard.HealthConnectDashboard.SetupWebSocket | dashboard.js:38-77 | The connection fields become `Setup` of what they were. |
| Dashboard.HealthConnectDashboard.OnOpen | dashboard.js:45-49 | The connection fields become `Opened` of what they were. |
| Dashboard.HealthConnectDashboard.Reconnect | dashboard.js:80-99 | The connection fields become `Reconnect` of what they were, and the counter stays within 10. |
| Dashboard.HealthConnectDashboard.OnClose | dashboard.js:64-68 | 'disconnected', then reconnect: `Closed` of the old fields. |
| Dashboard.HealthConnectDashboard.OnError | dashboard.js:70-73 | 'disconnected' only: `Errored` of the old fields. |
| Dashboard.HealthConnectDashboard.ReconnectTimerFires | dashboard.js:92-94 | A pending timer is consumed and runs setupWebSocket. With none pending, nothing happens. |
| Dashboard.HealthConnectDashboard.ShowAlert | dashboard.js:448-465 | The banner shows the alert. Nothing else changes. |
| Dashboard.HealthConnectDashboard.CloseAlert | dashboard.js:467-472 | The banner is hidden. Nothing else changes. |
| Dashboard.HealthConnectDashboard.UpdateChart | dashboard.js:430-446 | A missing chart, or a null or undefined value, changes nothing. Otherwise the chart's window becomes `ChartedIfPresent` of it. The chart's other datasets and their number stay the same. |
| Dashboard.HealthConnectDashboard.ShowClassified | dashboard.js:203-214 | A classification that raised an alert shows it in the banner. Otherwise the banner is unchanged. Nothing else changes. |
| Dashboard.HealthConnectDashboard.UpdateHeartRate | dashboard.js:191-230 | The card shows `bpm \|\| '--'` with the heart-rate band, and a critical reading raises its alert. The heart-rate chart gets the point, and its other datasets and their number stay the same. Connection and map are untouched. |
| Dashboard.HealthConnectDashboard.UpdateSpo2 | dashboard.js:232-268 | The same, with the SpO2 bands and chart: the point goes to the SpO2 chart, and its other datasets stay the same. |
| Dashboard.HealthConnectDashboard.UpdateTemperature | dashboard.js:290-337 | The same, with the temperature bands and chart: the point goes to the temperature chart, and its other datasets stay the same. |
| Dashboard.HealthConnectDashboard.UpdateLocation | dashboard.js:339-364 | The location card becomes `LocationOf(gps)`. |
| Dashboard.HealthConnectDashboard.UpdateMap | dashboard.js:366-413 | The map fields become `MapMarker.UpdateMap` of what they were, keeping the map invariant. |
| Dashboard.HealthConnectDashboard.UpdateMetrics | dashboard.js:175-189 | From the normalised reading: heart-rate card, banner and chart, the location card, and the map. The heart-rate chart's other datasets stay the same. SpO2 and temperature are not shown. |
| Dashboard.HealthConnectDashboard.OnMessage | dashboard.js:51-62 | A frame that does not parse changes nothing, the heart-rate chart included. Otherwise the page ends as after one normalisation and one map update, although the code does each twice. The heart-rate chart gets the point, and its other datasets stay the same. |
| Dashboard.HealthConnectDashboard.FetchLastRecord | dashboard.js:495-513 | A failed request changes nothing, the heart-rate chart included. A record is shown as updateMetrics shows its normalisation: cards, banner, map, and the heart-rate chart's point, with its other datasets kept. |
| Dashboard.HealthConnectDashboard.UpdateHistoricalTable | dashboard.js:535-573 | A value that is not an array leaves the table. An array renders as `TableOf`. |
| Dashboard.HealthConnectDashboard.LoadHistoricalData | dashboard.js:515-533 | A failed request or a `null` body shows the error row. Any records array is rendered by `TableOf`, whether it comes as the body, `records`, `data` or the `[]` fallback. A non-array `records`/`data` leaves the table as it was. |

## Left out

- WebSocket construction, `fetch`, `response.ok` and `JSON.parse` are network and parsing I/O. A message or response is a parameter: `None` for a frame or request that fails, else the decoded payload. For a WebSocket frame and the last-record body, `None` also stands for a payload that is `null`: normalizeData throws on it and the handler's catch leaves everything as it was. For loadHistoricalData a `null` body is `NullBody`, which shows the error row. Whether the socket constructor throws is the `created` parameter.
- Timers (`setTimeout`, `setInterval`) are not modelled as time:
  - the 3-second reconnect delay is a counter of pending timers, fired by `ReconnectTimerFires`;
  - the 5-second alert auto-hide is left out, so a stale timer hiding a newer alert is not captured;
  - the 30-second historical refresh is left out.
- DOM reads and writes are left out. That covers `getElementById`, CSS classes, text and `innerHTML`, `showConnectingState`, and the "Reconectando… (n/10)" text. The model assumes every element exists and keeps only the values a card, banner or table would show.
- `playAlertSound` (Web Audio), Leaflet tiles, icons and popup HTML, and Chart.js construction options (`getChartOptions` and the `create*Chart` option objects) are foreign library calls and configuration. The popup is counted as opens only.
- `toFixed`, `toLocaleTimeString`, `toLocaleString` and `new Date(...)` formatting are platform conversions. Numbers appear unformatted, and time labels are parameters.
- `config.js`, the global `closeAlert` wrapper and `setupEventListeners` are configuration and event glue.
- JSON values other than numbers, null and undefined are left out. `Values.Value` has no strings, booleans or objects, so a field holding one of these is outside the model. So are `typeof` tests and prototype keys.
- Charts.HealthCharts.ExportChartData: returns copies of the arrays. The source returns references to the live arrays, so later pushes show through the export.
- Charts.Chart: a chart's datasets are values inside the chart. Datasets shared between charts, or the same chart registered under two names, are not modelled.
- The SpO2 and temperature charts are never created by `createCharts`. `window.spo2Chart` and `window.temperatureChart` are then undefined, and the dashboard receives them as `null` constructor arguments.
- Dashboard.HealthConnectDashboard.UpdateMap: the branch that creates a marker is kept, but it is unreachable after initMap, which already places one.
- Colour.AddAlpha: returns the channels and alpha rather than the formatted `rgba(...)` string. Its contract states only the alpha. The channels are stated by `Colour.AddAlphaDecodesPairs`, `Colour.AddAlphaChannelsInRange` and `Colour.AddAlphaRoundTrip`.
- ExtractRecords: the records are a sequence of payloads, so a `null` element is not modelled. In the source, a `null` among the last ten records throws at `record.gps` (dashboard.js:551), and loadHistoricalData's catch then shows the error row (dashboard.js:526-531). LoadHistoricalData and UpdateHistoricalTable therefore do not capture that error row.
- OnMessage: a frame that parses to `null` is not modelled apart from a frame that fails to parse. normalizeData throws on it (dashboard.js:156), the catch swallows the error and nothing changes, which is what `None` gives. FetchLastRecord treats a `null` body the same way.
- Payload.Normalize: normalizeData writes the synthesised `gps` into its argument (dashboard.js:159). The model returns a new payload instead. Every caller uses only the returned object afterwards (dashboard.js:53-57, 501-505), so the write is not observable.
- Colour.ParseIntHex: JavaScript `parseInt` on digit runs long enough to lose precision as a double is not modelled. At most two characters are ever parsed here.
