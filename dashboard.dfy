/** The weather dashboard: the per-city record of the last successful API call, the
    staleness gate of the interactive lookup, the save of an observation into the bucket,
    the scheduled pass over the fixed city list and the city-selection callback. */
module Dashboard {
  import opened Wrappers
  import Json
  import opened Keys
  import opened ObjectStore
  import opened Latest

  // ---------------------------------------------------------------------------
  // Fetching

  /** The body of a response: JSON, or something `response.json()` cannot decode. */
  datatype Payload = Malformed | Parsed(doc: Json.Value)

  /** What `requests.get` produced: it raised (no connection, timeout, ...) or it
      returned a response with a status code. */
  datatype HttpReply = RequestFailed | Response(status: int, payload: Payload)

  /** `raise_for_status` raises for client errors (4xx) and server errors (5xx). */
  predicate RaisesForStatus(status: int)
  {
    400 <= status < 600
  }

  /** The fetch got past `raise_for_status`, the point where the call time is recorded. */
  predicate PassesStatusCheck(reply: HttpReply)
  {
    reply.Response? && !RaisesForStatus(reply.status)
  }

  /** What `fetch_weather` returns. Each failure is a `RequestException` and becomes
      `None`: the request raising, an error status, and a body that does not decode
      (the decoding error of `response.json()` is a `RequestException` too). */
  function FetchedData(reply: HttpReply): (data: Option<Json.Value>)
    ensures data.Some? <==> PassesStatusCheck(reply) && reply.payload.Parsed?
    ensures data.Some? ==> data.value == reply.payload.doc
  {
    match reply
    case RequestFailed => None
    case Response(status, payload) =>
      if RaisesForStatus(status) then None
      else
        match payload
        case Malformed => None
        case Parsed(doc) => Some(doc)
  }

  /** The call-time record after a fetch of `city` at time `now` (seconds): only that
      city's entry changes, and only when the fetch got past the status check. */
  function CallTimesAfterFetch(calls: map<string, int>, city: string, reply: HttpReply, now: int): (r: map<string, int>)
    ensures PassesStatusCheck(reply) ==> city in r && r[city] == now
    ensures PassesStatusCheck(reply) ==> r.Keys == calls.Keys + {city}
    ensures !PassesStatusCheck(reply) ==> r == calls
    ensures forall c :: c in calls && c != city ==> c in r && r[c] == calls[c]
  {
    if PassesStatusCheck(reply) then calls[city := now] else calls
  }

  // ---------------------------------------------------------------------------
  // The staleness gate

  /** `timedelta(minutes=10)`, in seconds. */
  const StalenessWindow: int := 600

  /** The interactive lookup serves stored data, without calling the API, exactly when
      a call time is recorded for the city and less than ten minutes have elapsed. */
  predicate ShouldSkipFetch(calls: map<string, int>, city: string, now: int)
  {
    city in calls && now - calls[city] < StalenessWindow
  }

  /** After a fetch that got past the status check at `t1`, the gate serves stored data
      at `t2` exactly while less than ten minutes have elapsed; a failed fetch leaves the
      gate as it was, and no fetch changes the gate of another city. */
  lemma GateAfterFetch(calls: map<string, int>, city: string, reply: HttpReply, t1: int, other: string, t2: int)
    ensures PassesStatusCheck(reply) ==>
      (ShouldSkipFetch(CallTimesAfterFetch(calls, city, reply, t1), city, t2) <==> t2 - t1 < StalenessWindow)
    ensures !PassesStatusCheck(reply) ==>
      ShouldSkipFetch(CallTimesAfterFetch(calls, city, reply, t1), other, t2) == ShouldSkipFetch(calls, other, t2)
    ensures other != city ==>
      ShouldSkipFetch(CallTimesAfterFetch(calls, city, reply, t1), other, t2) == ShouldSkipFetch(calls, other, t2)
  {
  }

  /** A city with no recorded call is always fetched. */
  lemma GateFetchesUnrecordedCity(calls: map<string, int>, city: string, now: int)
    requires city !in calls
    ensures !ShouldSkipFetch(calls, city, now)
  {
  }

  // ---------------------------------------------------------------------------
  // Saving

  /** `weather_data['timestamp'] = timestamp`: on a JSON object it sets that one field
      and keeps the others; any other JSON value raises `TypeError`. */
  function WithTimestamp(data: Json.Value, stamp: string): (r: Option<Json.Value>)
    ensures r.Some? <==> data.JObject?
    ensures r.Some? ==> r.value.JObject? && r.value.fields.Keys == data.fields.Keys + {"timestamp"}
    ensures r.Some? ==> r.value.fields["timestamp"] == Json.JString(stamp)
    ensures r.Some? ==> forall k :: k in data.fields && k != "timestamp" ==> r.value.fields[k] == data.fields[k]
  {
    match data
    case JObject(fields) => Some(Json.JObject(fields["timestamp" := Json.JString(stamp)]))
    case _ => None
  }

  /** The one object a save writes: under the key of the city and the capture stamp,
      with the same stamp in the body; none when the data is not an object or the put
      raised. */
  function SavedObject(city: string, data: Json.Value, clock: DateTime, put: PutOutcome): (o: Option<StoredObject>)
    requires ValidDateTime(clock)
    ensures o.Some? <==> data.JObject? && put.Stored?
    ensures o.Some? ==> o.value.key == ObjectKey(city, Format(clock)) && StartsWith(o.value.key, CityPrefix(city))
    ensures o.Some? ==> o.value.lastModified == put.lastModified
    ensures o.Some? ==> Some(o.value.body) == WithTimestamp(data, Format(clock))
  {
    match WithTimestamp(data, Format(clock))
    case Some(stamped) =>
      if put.Stored? then Some(StoredObject(ObjectKey(city, Format(clock)), put.lastModified, stamped)) else None
    case None => None
  }

  function ObjectsAfterSave(objects: seq<StoredObject>, o: Option<StoredObject>): (r: seq<StoredObject>)
    requires Sorted(objects)
    ensures Sorted(r)
  {
    match o
    case Some(obj) => Put(objects, obj)
    case None => objects
  }

  // ---------------------------------------------------------------------------
  // Looking up

  /** What `get_latest_weather_from_s3` returns when it reads every page of the listing:
      the body of the newest object under the city's prefix, and `None` when the listing
      raises, no key has the prefix, or the read of the object raises. The single call of
      the source sees only the first page (`Latest.LatestAsWritten`). */
  function Lookup(objects: seq<StoredObject>, city: string, list: ReadOutcome, get: ReadOutcome): (r: Option<Json.Value>)
    ensures r.Some? <==> list.Completed? && get.Completed?
                         && exists x :: x in objects && StartsWith(x.key, CityPrefix(city))
    ensures r.Some? ==> exists o :: o in objects && StartsWith(o.key, CityPrefix(city)) && o.body == r.value
                                    && forall x :: x in objects && StartsWith(x.key, CityPrefix(city)) ==>
                                         x.lastModified <= o.lastModified
  {
    if list.ReadRaised? then None
    else
      match LatestForCity(objects, city)
      case None => None
      case Some(o) => if get.ReadRaised? then None else Some(o.body)
  }

  // ---------------------------------------------------------------------------
  // The dashboard object

  /** The call-time record and the bucket contents, the state the dashboard changes. */
  datatype Snapshot = Snapshot(callTimes: map<string, int>, objects: seq<StoredObject>)

  class WeatherDashboard {
    /** `last_api_call_time`: city to the time (seconds) of its last call that got past
        the status check. */
    var lastApiCallTime: map<string, int>
    /** The bucket its store client writes to. */
    const bucket: Bucket

    ghost predicate Valid()
      reads this, bucket
    {
      bucket.Valid()
    }

    constructor (bucket: Bucket)
      requires bucket.Valid()
      ensures Valid() && this.bucket == bucket && lastApiCallTime == map[]
    {
      this.bucket := bucket;
      lastApiCallTime := map[];
    }

    /** `fetch_weather(city)`, the reply of the API and the clock reading given. */
    method FetchWeather(city: string, reply: HttpReply, now: int) returns (data: Option<Json.Value>)
      modifies this
      ensures lastApiCallTime == CallTimesAfterFetch(old(lastApiCallTime), city, reply, now)
      ensures data == FetchedData(reply)
    {
      match reply {
        case RequestFailed =>
          data := None;
        case Response(status, payload) =>
          if RaisesForStatus(status) {
            data := None;
          } else {
            lastApiCallTime := lastApiCallTime[city := now];
            match payload {
              case Malformed =>
                data := None;
              case Parsed(doc) =>
                data := Some(doc);
            }
          }
      }
    }

    /** `save_weather_to_s3(city, weather_data)`. Returns the caller's data as the call
        leaves it: stamped in place when it is an object, even if the put then raised. */
    method SaveWeatherToS3(city: string, weatherData: Json.Value, clock: DateTime, put: PutOutcome)
      returns (dataAfter: Json.Value)
      requires Valid() && ValidDateTime(clock)
      modifies bucket
      ensures Valid()
      ensures dataAfter == (if weatherData.JObject? then WithTimestamp(weatherData, Format(clock)).value else weatherData)
      ensures bucket.objects == ObjectsAfterSave(old(bucket.objects), SavedObject(city, weatherData, clock, put))
    {
      var timestamp := Format(clock);
      var fileName := ObjectKey(city, timestamp);
      dataAfter := weatherData;
      match WithTimestamp(weatherData, timestamp) {
        case None =>
          // the item assignment raised TypeError; caught and logged
        case Some(stamped) =>
          dataAfter := stamped;
          var stored := bucket.PutObject(fileName, stamped, put);
      }
    }

    /** `get_latest_weather_from_s3(city)`, reading every page of the listing. */
    method GetLatestWeatherFromS3(city: string, list: ReadOutcome, get: ReadOutcome) returns (data: Option<Json.Value>)
      requires Valid()
      ensures data == Lookup(bucket.objects, city, list, get)
    {
      var prefix := CityPrefix(city);
      if list.ReadRaised? {
        return None;
      }
      var contents := bucket.ListAllPages(prefix);
      if contents == [] {
        return None;
      }
      var latestFile := contents[ArgMaxLastModified(contents)];
      if get.ReadRaised? {
        return None;
      }
      data := Some(latestFile.body);
    }
  }

  ghost function SnapshotOf(d: WeatherDashboard): Snapshot
    reads d, d.bucket
  {
    Snapshot(d.lastApiCallTime, d.bucket.objects)
  }

  // ---------------------------------------------------------------------------
  // Visiting a city: fetch, then save when the fetch returned data

  /** The environment of one city's visit: the API's reply, the clock read when the call
      time is recorded, the clock read for the stamp, and the outcome of the put. */
  datatype CityRound = CityRound(reply: HttpReply, fetchedAt: int, clock: DateTime, put: PutOutcome)

  predicate ValidRounds(rounds: seq<CityRound>)
  {
    forall i :: 0 <= i < |rounds| ==> ValidDateTime(rounds[i].clock)
  }

  /** The object a visit saves: only when the fetch returned truthy data (`if weather_data:`)
      that is a JSON object and the put went through. */
  function VisitSave(city: string, round: CityRound): (o: Option<StoredObject>)
    requires ValidDateTime(round.clock)
    ensures o.Some? ==> FetchedData(round.reply).Some? && Json.Truthy(FetchedData(round.reply).value)
    ensures o.Some? ==> o == SavedObject(city, FetchedData(round.reply).value, round.clock, round.put)
    ensures FetchedData(round.reply).Some? && Json.Truthy(FetchedData(round.reply).value) ==>
      o == SavedObject(city, FetchedData(round.reply).value, round.clock, round.put)
    ensures FetchedData(round.reply).None? || !Json.Truthy(FetchedData(round.reply).value) ==> o.None?
  {
    match FetchedData(round.reply)
    case Some(data) => if Json.Truthy(data) then SavedObject(city, data, round.clock, round.put) else None
    case None => None
  }

  function Visit(s: Snapshot, city: string, round: CityRound): (r: Snapshot)
    requires Sorted(s.objects) && ValidDateTime(round.clock)
    ensures Sorted(r.objects)
  {
    Snapshot(CallTimesAfterFetch(s.callTimes, city, round.reply, round.fetchedAt),
             ObjectsAfterSave(s.objects, VisitSave(city, round)))
  }

  // ---------------------------------------------------------------------------
  // The scheduled pass

  /** `popular_cities`, the fixed city list in its order. */
  const PopularCities: seq<string> := ["Accra", "Kumasi", "Tamale", "Takoradi", "Cape Coast"]

  predicate Distinct(cities: seq<string>)
  {
    forall i, j :: 0 <= i < j < |cities| ==> cities[i] != cities[j]
  }

  /** The state after visiting the cities in list order. */
  function Pass(s: Snapshot, cities: seq<string>, rounds: seq<CityRound>): (r: Snapshot)
    requires |cities| == |rounds| && Sorted(s.objects) && ValidRounds(rounds)
    ensures Sorted(r.objects)
    decreases |cities|
  {
    if cities == [] then s
    else
      var n := |cities| - 1;
      Visit(Pass(s, cities[..n], rounds[..n]), cities[n], rounds[n])
  }

  /** One city's visit, the body of the pass's loop and the fetch branch of the callback:
      fetch the city and, when the fetch returned data (`if weather_data:`), save it. */
  method VisitCity(dashboard: WeatherDashboard, city: string, round: CityRound)
    requires dashboard.Valid() && ValidDateTime(round.clock)
    modifies dashboard, dashboard.bucket
    ensures dashboard.Valid()
    ensures SnapshotOf(dashboard) == Visit(old(SnapshotOf(dashboard)), city, round)
  {
    var weatherData := dashboard.FetchWeather(city, round.reply, round.fetchedAt);
    if weatherData.Some? && Json.Truthy(weatherData.value) {
      var dataAfter := dashboard.SaveWeatherToS3(city, weatherData.value, round.clock, round.put);
    }
  }

  /** `query_and_save_weather()`: visit every city of the list, in order; a failure for
      one city leaves the others' visits as they are. */
  method QueryAndSaveWeather(dashboard: WeatherDashboard, rounds: seq<CityRound>)
    requires dashboard.Valid() && |rounds| == |PopularCities| && ValidRounds(rounds)
    modifies dashboard, dashboard.bucket
    ensures dashboard.Valid()
    ensures SnapshotOf(dashboard) == Pass(old(SnapshotOf(dashboard)), PopularCities, rounds)
  {
    ghost var start := SnapshotOf(dashboard);
    for i := 0 to |PopularCities|
      invariant dashboard.Valid()
      invariant SnapshotOf(dashboard) == Pass(start, PopularCities[..i], rounds[..i])
    {
      VisitCity(dashboard, PopularCities[i], rounds[i]);
      assert PopularCities[..i + 1][..i] == PopularCities[..i];
      assert rounds[..i + 1][..i] == rounds[..i];
    }
    assert PopularCities[..|PopularCities|] == PopularCities;
    assert rounds[..|rounds|] == rounds;
  }

  /** An entry of the call-time record after a city's visit: set to the visit's time when
      the fetch got past the status check, and otherwise as it was. */
  predicate EntryAfterRound(before: map<string, int>, after: map<string, int>, city: string, round: CityRound)
  {
    if PassesStatusCheck(round.reply) then city in after && after[city] == round.fetchedAt
    else (city in after <==> city in before) && (city in before ==> after[city] == before[city])
  }

  /** A visit changes the call-time record as the fetch alone does; a step of the proof of
      `PassCallTimes`, which works on the call-time map alone. */
  lemma VisitCallTimes(s: Snapshot, city: string, round: CityRound)
    requires Sorted(s.objects) && ValidDateTime(round.clock)
    ensures Visit(s, city, round).callTimes == CallTimesAfterFetch(s.callTimes, city, round.reply, round.fetchedAt)
  {
  }

  /** The entry of `c` in `after` is the one in `before`. */
  predicate SameEntry(before: map<string, int>, after: map<string, int>, c: string)
  {
    (c in after <==> c in before) && (c in before ==> after[c] == before[c])
  }

  /** A fetch of another city keeps what an entry records. */
  lemma FetchOfOtherCityKeepsEntry(before: map<string, int>, mid: map<string, int>, city: string,
                                   round: CityRound, other: string, next: CityRound)
    requires other != city
    ensures EntryAfterRound(before, mid, city, round) ==>
      EntryAfterRound(before, CallTimesAfterFetch(mid, other, next.reply, next.fetchedAt), city, round)
    ensures SameEntry(before, mid, city) ==>
      SameEntry(before, CallTimesAfterFetch(mid, other, next.reply, next.fetchedAt), city)
  {
  }

  /** A city's own fetch, with its entry untouched so far, records that fetch alone. */
  lemma FetchRecordsOwnEntry(before: map<string, int>, mid: map<string, int>, city: string, round: CityRound)
    requires SameEntry(before, mid, city)
    ensures EntryAfterRound(before, CallTimesAfterFetch(mid, city, round.reply, round.fetchedAt), city, round)
  {
  }

  /** Over a pass, each listed city's entry records its own visit alone, and the entry of
      a city not in the list does not change. */
  lemma {:induction false} PassCallTimes(s: Snapshot, cities: seq<string>, rounds: seq<CityRound>)
    requires |cities| == |rounds| && Sorted(s.objects) && ValidRounds(rounds) && Distinct(cities)
    ensures forall j :: 0 <= j < |cities| ==>
      EntryAfterRound(s.callTimes, Pass(s, cities, rounds).callTimes, cities[j], rounds[j])
    ensures forall c :: c !in cities ==> SameEntry(s.callTimes, Pass(s, cities, rounds).callTimes, c)
    decreases |cities|
  {
    if cities != [] {
      var n := |cities| - 1;
      var prev := Pass(s, cities[..n], rounds[..n]);
      PassCallTimes(s, cities[..n], rounds[..n]);
      VisitCallTimes(prev, cities[n], rounds[n]);
      var before, mid := s.callTimes, prev.callTimes;
      var after := CallTimesAfterFetch(mid, cities[n], rounds[n].reply, rounds[n].fetchedAt);
      assert Pass(s, cities, rounds).callTimes == after;
      forall j | 0 <= j < n ensures EntryAfterRound(before, after, cities[j], rounds[j]) {
        assert cities[..n][j] == cities[j] && rounds[..n][j] == rounds[j];
        FetchOfOtherCityKeepsEntry(before, mid, cities[j], rounds[j], cities[n], rounds[n]);
      }
      forall c | c !in cities ensures SameEntry(before, after, c) {
        assert c !in cities[..n] && c != cities[n];
        FetchOfOtherCityKeepsEntry(before, mid, c, rounds[n], cities[n], rounds[n]);
      }
      forall k | 0 <= k < n ensures cities[..n][k] != cities[n] {
        assert cities[..n][k] == cities[k];
      }
      assert cities[n] !in cities[..n];
      FetchRecordsOwnEntry(before, mid, cities[n], rounds[n]);
    }
  }

  /** Failure isolation: every city whose own visit saved an object still has that
      object in the bucket after the pass, whatever happened to the other cities. */
  lemma {:induction false} PassKeepsEverySave(s: Snapshot, cities: seq<string>, rounds: seq<CityRound>)
    requires |cities| == |rounds| && Sorted(s.objects) && ValidRounds(rounds) && Distinct(cities)
    ensures forall j :: 0 <= j < |cities| && VisitSave(cities[j], rounds[j]).Some? ==>
      VisitSave(cities[j], rounds[j]).value in Pass(s, cities, rounds).objects
    decreases |cities|
  {
    if cities != [] {
      var n := |cities| - 1;
      PassKeepsEverySave(s, cities[..n], rounds[..n]);
      forall j | 0 <= j < n && VisitSave(cities[j], rounds[j]).Some?
        ensures VisitSave(cities[j], rounds[j]).value in Pass(s, cities, rounds).objects
      {
        assert cities[..n][j] == cities[j] && rounds[..n][j] == rounds[j];
        var o := VisitSave(cities[j], rounds[j]).value;
        var last := VisitSave(cities[n], rounds[n]);
        assert cities[j] != cities[n];
        if last.Some? && last.value.key == o.key {
          ObjectKeyInjective(cities[j], Format(rounds[j].clock), cities[n], Format(rounds[n].clock));
        }
      }
    }
  }

  /** A pass writes nothing but what the visits saved: every object afterwards was
      there before or is the save of one listed city. */
  lemma {:induction false} PassWritesOnlyVisitSaves(s: Snapshot, cities: seq<string>, rounds: seq<CityRound>)
    requires |cities| == |rounds| && Sorted(s.objects) && ValidRounds(rounds)
    ensures forall x :: x in Pass(s, cities, rounds).objects ==>
      x in s.objects || exists j :: 0 <= j < |cities| && VisitSave(cities[j], rounds[j]) == Some(x)
    decreases |cities|
  {
    if cities != [] {
      var n := |cities| - 1;
      PassWritesOnlyVisitSaves(s, cities[..n], rounds[..n]);
      forall x | x in Pass(s, cities, rounds).objects
        ensures x in s.objects || exists j :: 0 <= j < |cities| && VisitSave(cities[j], rounds[j]) == Some(x)
      {
        if x !in Pass(s, cities[..n], rounds[..n]).objects {
          assert VisitSave(cities[n], rounds[n]) == Some(x);
        } else if x !in s.objects {
          var j :| 0 <= j < n && VisitSave(cities[..n][j], rounds[..n][j]) == Some(x);
          assert cities[..n][j] == cities[j] && rounds[..n][j] == rounds[j];
        }
      }
    }
  }

  /** A pass keeps everything it does not overwrite: an object already in the bucket is
      still there afterwards unless some visit saved an object under the same key. */
  lemma {:induction false} PassKeepsUntouched(s: Snapshot, cities: seq<string>, rounds: seq<CityRound>,
                                              x: StoredObject)
    requires |cities| == |rounds| && Sorted(s.objects) && ValidRounds(rounds)
    requires x in s.objects
    requires forall j :: 0 <= j < |cities| && VisitSave(cities[j], rounds[j]).Some? ==>
      VisitSave(cities[j], rounds[j]).value.key != x.key
    ensures x in Pass(s, cities, rounds).objects
    decreases |cities|
  {
    if cities != [] {
      var n := |cities| - 1;
      forall j | 0 <= j < n && VisitSave(cities[..n][j], rounds[..n][j]).Some?
        ensures VisitSave(cities[..n][j], rounds[..n][j]).value.key != x.key
      {
        assert cities[..n][j] == cities[j] && rounds[..n][j] == rounds[j];
      }
      PassKeepsUntouched(s, cities[..n], rounds[..n], x);
    }
  }

  /** The fixed list names each city once and no name holds a dash, so a lookup for one
      listed city never lists an object saved for another. */
  lemma PopularCitiesPrefixesAreExclusive(a: string, b: string, stamp: string)
    requires a in PopularCities && b in PopularCities
    ensures Distinct(PopularCities)
    ensures StartsWith(ObjectKey(a, stamp), CityPrefix(b)) <==> a == b
  {
    forall c | c in PopularCities ensures '-' !in c {
      assert c == "Accra" || c == "Kumasi" || c == "Tamale" || c == "Takoradi" || c == "Cape Coast";
    }
    PrefixSelectsOnlyItsCity(a, b, stamp);
  }

  // ---------------------------------------------------------------------------
  // The city-selection callback

  /** What the callback renders: the selection prompt, the no-data message, or the
      observation of the selected city. */
  datatype View = SelectPrompt | NoWeatherData | WeatherCard(city: string, data: Json.Value)

  /** `not selected_city`: nothing chosen, or the empty string. */
  predicate NoCitySelected(selected: Option<string>)
  {
    selected.None? || selected.value == ""
  }

  /** `if not weather_data:` shows the no-data message, and otherwise the card of the
      selected city with the data. */
  function Render(city: string, data: Option<Json.Value>): (v: View)
    ensures v.WeatherCard? <==> data.Some? && Json.Truthy(data.value)
    ensures v.WeatherCard? ==> v.city == city && v.data == data.value
    ensures !v.WeatherCard? ==> v == NoWeatherData
  {
    if data.Some? && Json.Truthy(data.value) then WeatherCard(city, data.value) else NoWeatherData
  }

  /** `update_weather_data(selected_city, n_clicks)`: with no city selected nothing happens;
      otherwise the gate decides whether the city is visited (fetch and save), and the
      view shows the newest stored observation for the city. */
  method UpdateWeatherData(dashboard: WeatherDashboard, selectedCity: Option<string>, now: int,
                           round: CityRound, list: ReadOutcome, get: ReadOutcome) returns (view: View)
    requires dashboard.Valid() && ValidDateTime(round.clock)
    modifies dashboard, dashboard.bucket
    ensures dashboard.Valid()
    ensures NoCitySelected(selectedCity) ==> view == SelectPrompt && SnapshotOf(dashboard) == old(SnapshotOf(dashboard))
    ensures !NoCitySelected(selectedCity) ==>
      SnapshotOf(dashboard) ==
        (if ShouldSkipFetch(old(dashboard.lastApiCallTime), selectedCity.value, now)
         then old(SnapshotOf(dashboard))
         else Visit(old(SnapshotOf(dashboard)), selectedCity.value, round))
    ensures !NoCitySelected(selectedCity) ==>
      view == Render(selectedCity.value, Lookup(dashboard.bucket.objects, selectedCity.value, list, get))
  {
    if selectedCity.None? || selectedCity.value == "" {
      return SelectPrompt;
    }
    var city := selectedCity.value;
    var lastCall := if city in dashboard.lastApiCallTime then Some(dashboard.lastApiCallTime[city]) else None;
    if lastCall.Some? && now - lastCall.value < StalenessWindow {
      // skipping the API call
    } else {
      VisitCity(dashboard, city, round);
    }
    var weatherData := dashboard.GetLatestWeatherFromS3(city, list, get);
    if weatherData.None? || !Json.Truthy(weatherData.value) {
      return NoWeatherData;
    }
    view := WeatherCard(city, weatherData.value);
  }

  /** Interactive round trip: a visit that saves an object newer than everything stored
      makes that object the one the lookup for the city returns. */
  lemma VisitThenLookup(s: Snapshot, city: string, round: CityRound)
    requires Sorted(s.objects) && ValidDateTime(round.clock)
    requires VisitSave(city, round).Some?
    requires forall x :: x in s.objects && StartsWith(x.key, CityPrefix(city)) ==>
      x.lastModified < VisitSave(city, round).value.lastModified
    ensures LatestForCity(Visit(s, city, round).objects, city) == VisitSave(city, round)
    ensures Lookup(Visit(s, city, round).objects, city, Completed, Completed)
            == Some(VisitSave(city, round).value.body)
  {
    LatestAfterPut(s.objects, city, VisitSave(city, round).value);
  }
}
