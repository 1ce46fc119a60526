# Weather dashboard: call tracking, staleness gate, store keys and latest lookup

This project models the stateful core of a small weather dashboard (`src/app.py`).
The dashboard fetches current conditions for Ghanaian cities from a weather API and stores
each observation as a JSON object in an object-store bucket. It then shows the newest stored
observation for the city a user selects.

The model covers five parts:

- **Call tracking.** `WeatherDashboard.lastApiCallTime` maps a city to the time, in seconds,
  of its last API call that got past the HTTP status check.
- **Staleness gate.** An interactive selection serves stored data without calling the API
  exactly when a call time is recorded and less than 600 seconds have passed.
- **Save.** The key is `weather-data/{city}-{YYYYMMDD-HHMMSS}.json`. The same stamp is
  written into the body's `timestamp` field before the put.
- **Lookup.** It lists the keys under `weather-data/{city}-` and picks the object with the
  greatest store `LastModified`. Ties go to the first in listing order, as Python's `max`
  picks them.
- **Scheduled pass.** It visits the fixed city list in order and saves only when a fetch
  returned truthy data.

The bucket is a class (`ObjectStore.Bucket`) whose object sequence is kept in ascending key
order, which is the order the store lists keys in. A put replaces the object with the same
key or inserts in key order. The dashboard is a class (`Dashboard.WeatherDashboard`) holding
the call-time map and the bucket. Its methods change them in place and are proved against
the specification functions `CallTimesAfterFetch`, `SavedObject`, `Lookup`, `Visit` and
`Pass`.

Inputs the model takes as parameters:

- **API replies** (`HttpReply`): the request raised, or a status code and a body that either
  decodes or does not.
- **Store call outcomes** (`PutOutcome`, `ReadOutcome`).
- **Clock readings**: integer seconds for the call-time record, and a wall-clock `DateTime`
  for the stamp.

Files:

- `wrappers.dfy`: the `Option` type.
- `json.dfy`: JSON values and Python truthiness.
- `keys.dfy`: key order, the stamp format, key and prefix construction.
- `store.dfy`: the bucket.
- `latest.dfy`: the latest-for-city selection, as written and corrected.
- `dashboard.dfy`: the dashboard object, the gate, the scheduled pass and the selection
  callback.

Three behaviours of the code the model follows:

- The saved key ends in `.json` (line 51).
- The hourly `dcc.Interval` refreshes only the "last updated" label. The scheduled pass runs
  once, at start-up (line 100).
- The refresh button is only a `State` of the selection callback (line 139), so clicking it
  does not run the callback.

## Model

| member | source | states |
|---|---|---|
| Json.Truthy | src/app.py:97 | Python truthiness of a decoded document (`if weather_data:` at lines 97 and 153, `if not weather_data:` at line 157): null, false, zero and empty strings, arrays and objects are falsy. |
| Dashboard.FetchedData | src/app.py:38-46 | The fetch returns data exactly when the request returned, `raise_for_status` passed (no 4xx/5xx) and the body decoded; the data is the decoded body. Every failure yields `None`. |
| Dashboard.CallTimesAfterFetch | src/app.py:38-42 | After a fetch that passes the status check, the city's entry is the call time and the key set gains only the city. Otherwise the map is unchanged, and another city's entry never changes. The entry is recorded even when decoding then fails. |
| Dashboard.WeatherDashboard.constructor | src/app.py:14-18 | A new dashboard has an empty call-time map and uses the given bucket. |
| Dashboard.WeatherDashboard.FetchWeather | src/app.py:30-46 | The new call-time map is `CallTimesAfterFetch` of the old one, and the result is `FetchedData` of the reply. |
| Dashboard.RaisesForStatus | src/app.py:40 | `raise_for_status` raises exactly for a status from 400 to 599. |
| Dashboard.PassesStatusCheck | src/app.py:39-41 | The fetch reaches the recording of the call time exactly when the request returned and its status does not raise. |
| Dashboard.ShouldSkipFetch | src/app.py:146-149 | The gate itself: skip the fetch exactly when a call time is recorded for the city and `now - last < 600`. |
| Dashboard.GateAfterFetch | src/app.py:145-152 | After a fetch at `t1` that passed the status check, the gate skips at `t2` iff `t2 - t1 < 600`, so it fetches again at exactly ten minutes. A failed fetch leaves every city's gate as it was. No fetch changes another city's gate. |
| Dashboard.GateFetchesUnrecordedCity | src/app.py:146-152 | A city with no recorded call is always fetched. |
| Dashboard.WithTimestamp | src/app.py:53 | Setting `timestamp` on a JSON object sets that field to the stamp and keeps every other field. On any other JSON value it fails (`TypeError`). |
| Dashboard.SavedObject | src/app.py:48-64 | A save writes one object exactly when the data is an object and the put went through. Its key is `ObjectKey(city, stamp)` under the city's prefix, its `LastModified` is the store's, and its body is the data with `timestamp` set to the same stamp. |
| Dashboard.WeatherDashboard.SaveWeatherToS3 | src/app.py:48-64 | The bucket becomes `Put` of the saved object, or stays as it was when nothing is saved. The caller's data comes back stamped whenever it is an object, even if the put raised. |
| Dashboard.Lookup | src/app.py:66-82 | Over every page of the listing: the lookup returns data exactly when the listing and the read complete and some key has the city's prefix. The data is the body of a stored object under the prefix whose `LastModified` is maximal among all of them. |
| Dashboard.WeatherDashboard.GetLatestWeatherFromS3 | src/app.py:66-82 | The method returns `Lookup` of the bucket for the city and the call outcomes, and does not change the bucket. |
| Dashboard.VisitSave | src/app.py:96-98 | A visit saves exactly `SavedObject` of the fetched data when the fetch returned truthy data, and nothing when it returned `None` or falsy data. |
| Dashboard.Visit | src/app.py:96-98 | One city's visit on the state: the call-time map becomes `CallTimesAfterFetch` and the bucket gains `VisitSave`; the bucket stays in key order. |
| Dashboard.VisitCity | src/app.py:152-154 | One fetch-then-save step: the dashboard state becomes `Visit` of the old state. |
| Dashboard.QueryAndSaveWeather | src/app.py:94-98 | The loop visits the five cities in list order; the final state is `Pass` over the list. |
| Dashboard.Pass | src/app.py:95-98 | The cities visited one after another in list order, each visit applied to the state the previous ones left; the bucket stays in key order. |
| Dashboard.PassCallTimes | src/app.py:94-98 | For distinct cities, after a pass each city's entry reflects its own visit alone: the visit's time if its fetch passed the status check, else as before. An unlisted city's entry does not change. |
| Dashboard.PassKeepsEverySave | src/app.py:94-98 | Failure isolation: every object a city's own visit saved is in the bucket after the pass (distinct cities), whatever the other cities' fetches and puts returned or raised. |
| Dashboard.PassKeepsUntouched | src/app.py:94-98 | Frame of the pass: an object already in the bucket is still there afterwards unless some visit saved an object under the same key. |
| Dashboard.PassWritesOnlyVisitSaves | src/app.py:94-98 | After a pass, each object in the bucket was there before or is one visit's save. |
| Dashboard.PopularCitiesPrefixesAreExclusive | src/app.py:88 | The fixed city list has no duplicates, and one listed city's lookup prefix matches a key saved for a listed city iff it is the same city. |
| Dashboard.NoCitySelected | src/app.py:142 | `not selected_city`: no city chosen, or the empty string. |
| Dashboard.Render | src/app.py:157-160 | The card of the selected city with the data exactly when the lookup returned truthy data, and the no-data message otherwise. |
| Dashboard.UpdateWeatherData | src/app.py:141-158 | With no city selected (None or empty), the callback shows the prompt and the state does not change. Otherwise the state is unchanged when the gate skips and becomes `Visit` when it does not, and the view renders the all-pages `Lookup` of the new bucket. |
| Dashboard.VisitThenLookup | src/app.py:152-156 | Save-then-lookup: when a visit saves an object newer than everything stored under the city's prefix, that object is what the all-pages lookup then returns, and the lookup yields its body. |
| Keys.Format | src/app.py:50 | `strftime('%Y%m%d-%H%M%S')` has the fixed-width shape: 15 characters, digits except a dash at position 8. |
| Keys.StampOrderIsChronological | src/app.py:50 | Stamps sort as their readings do, and two readings give the same stamp iff they are equal. |
| Keys.CityPrefix | src/app.py:68 | The lookup prefix `weather-data/{city}-`. |
| Keys.ObjectKey | src/app.py:51 | Every key a save writes lies under the lookup prefix of its city. |
| Keys.ObjectKeyInjective | src/app.py:51 | A key determines the city and the stamp it was made from. |
| Keys.PrefixSelectsOnlyItsCity | src/app.py:68 | For city names without a dash, the prefix of city `b` selects a key saved for city `a` iff `a == b`. |
| Keys.KeyOrderIsChronological | src/app.py:50-51 | Two keys of one city sort in the order of their capture readings. |
| ObjectStore.Put | src/app.py:54-59 | `put_object` keeps the bucket in key order and stores the new object. Any object with the same key is replaced, and every other object is kept. |
| ObjectStore.Bucket.PutObject | src/app.py:54-59 | The bucket becomes `Put` of the object exactly when the put went through, and is unchanged otherwise. |
| ObjectStore.Matching | src/app.py:70 | The objects listed under a prefix are exactly the stored objects whose key starts with it. |
| ObjectStore.MatchingSorted | src/app.py:70 | The listing under a prefix is in ascending key order. |
| ObjectStore.FirstPage | src/app.py:70 | One `list_objects_v2` call returns at most 1000 entries, the first ones in listing order: all of them when they fit, and exactly 1000 when more match. |
| ObjectStore.Bucket.ListObjectsV2 | src/app.py:70 | One listing call returns at most 1000 objects, all stored under the prefix; when at most 1000 keys match, these are all of them. |
| ObjectStore.Bucket.ListAllPages | src/app.py:70 | Following every page returns exactly the objects under the prefix; its first page is what one call returns. |
| Latest.ArgMaxLastModified | src/app.py:75 | `max(..., key=LastModified)` picks an index whose `LastModified` is greatest, with every earlier entry strictly older, so the first of equal maxima wins. |
| Latest.SelectLatest | src/app.py:71-75 | An empty listing gives nothing (no `Contents`). Otherwise the result is a listed object with the greatest `LastModified`. |
| Latest.LatestForCity | src/app.py:66-78 | The result is nothing iff no key has the city's prefix. Otherwise it is a stored object under the prefix whose `LastModified` is maximal. |
| Latest.LatestTiesGoToSmallestKey | src/app.py:75 | Every object under the prefix whose key sorts before the returned one is strictly older: ties go to the first key. |
| Latest.LatestAfterPut | src/app.py:51-75 | A put under the city's prefix that is newer than everything stored under that prefix is what the all-pages lookup then returns. |
| Latest.LatestAsWritten | src/app.py:70-75 | The lookup as written gives nothing exactly when no key has the city's prefix, and otherwise an object of the first page of the listing whose `LastModified` is greatest on that page. |
| Latest.AsWrittenAgreesWithinOnePage | src/app.py:70-75 | While at most 1000 keys match, the lookup as written agrees with the full lookup. |
| Latest.AsWrittenMissesNewestBeyondFirstPage | src/app.py:70-75 | With more than 1000 matching keys, when the newest object also has the greatest key, the full lookup returns it and the lookup as written returns a different object. |
| Latest.MatchingAfterLaterPut | src/app.py:51-70 | Putting an object whose key sorts after every key under the prefix appends it to that prefix's listing. |
| Latest.AsWrittenMissesLaterSave | src/app.py:70-75 | The city already has at least 1000 keys, and a newer save sorts after them. The full lookup returns that save; the lookup as written never does. |

## Left out

- The Dash layout and HTML components, the "last updated" label callback, the hourly
  `dcc.Interval`, `app.run_server`, `load_dotenv` and the environment lookups (lines 84-134,
  160-182). These are UI and configuration.
- Bucket creation (lines 20-28), `create_bucket_if_not_exists`. It is provisioning I/O. The
  model starts from a valid, possibly empty, bucket.
- The network and store calls (`requests.get`, `raise_for_status`, `response.json()`,
  `put_object`, `list_objects_v2`, `get_object`). They are replaced by their outcomes, given
  as parameters.
- `get_object` and `json.loads` of the listed object. The model returns the stored body,
  which assumes the JSON encoding round-trips. A failing read is a `ReadOutcome`.
- `json.dumps` failing on a body it cannot encode. The body is a JSON value already.
- `datetime.now()`. Each reading is a parameter: integer seconds for the call-time record,
  and a `DateTime` for the stamp. The two are not tied to one clock.
- Sub-second time. The ten-minute comparison is on whole seconds.
- Years outside 1000..9999. There `%Y` padding depends on the platform.
- `print` logging and `n_clicks`, which the callback never reads.
- Display formatting (`round`, `capitalize`), and the `KeyError` the card raises when a
  stored body lacks the weather fields (lines 160-182).
- Dashboard.WeatherDashboard.SaveWeatherToS3: returns the stamped data instead of mutating
  the caller's dict in place. The caller's data is therefore not aliased.
- Dashboard.WeatherDashboard.GetLatestWeatherFromS3: uses the corrected, all-pages listing
  (see Findings). The single-call behaviour of the source is `Latest.LatestAsWritten`.
- Dashboard.Lookup: is the all-pages lookup. Beyond 1000 keys under a city's prefix the
  source's single call returns the newest of the first 1000 keys instead (see Findings).
- Dashboard.UpdateWeatherData: renders the all-pages `Dashboard.Lookup`, so beyond 1000 keys
  for the selected city it shows the newest observation where the source shows an older one.
- Dashboard.VisitThenLookup: holds for the all-pages lookup only. For the single call of the
  source it fails beyond 1000 keys, as `Latest.AsWrittenMissesLaterSave` shows.
- Dashboard.FetchedData: assumes a requests release (2.27 or later) in which a body that does
  not decode raises a `RequestException`. With older releases the `ValueError` escapes
  `fetch_weather` after the call time is recorded, and it ends the start-up pass.
- `requests.get` is called without a timeout (line 39). A request that never returns stalls
  the start-up pass before the remaining cities, and hangs the selection callback. Every
  modelled reply ends, in a raise or a response, so `Dashboard.PassKeepsEverySave` covers
  failures that raise, not a request that never ends.
- Concurrent callbacks and the store's own concurrency. The model is sequential.

## Findings

| source | as written | input that shows it | evidently intended | confidence | as-written member | corrected member |
|---|---|---|---|---|---|---|
| src/app.py:70-75 | One `list_objects_v2` call, which returns at most 1000 keys in ascending key order, and no continuation token is followed. Stamps sort chronologically, so beyond 1000 saves for a city the newest save is never listed. | The bucket holds 1000 objects under `weather-data/Accra-`, then a new save for Accra with a later stamp and a later `LastModified`. The lookup returns one of the first 1000 objects, not the new save. | The newest observation across every page of the listing. | not executed | Latest.AsWrittenMissesLaterSave | Latest.LatestAfterPut |
