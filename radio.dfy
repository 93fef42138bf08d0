/** src/lib/radio.ts: the radio-directory search, its day cache and the random pick. */
module Radio {
  import opened Wrappers
  import opened Storage

  /** `RadioStation`, one record of the directory's answer. */
  datatype Station = Station(
    stationuuid: string, name: string, url: string, urlResolved: string,
    homepage: string, favicon: string, tags: string, country: string,
    state: string, language: string, votes: int, codec: string,
    bitrate: int, lastcheckok: int, lastchecktime: string)

  /** How many filtered stations a search keeps (`.slice(0, 10)`). */
  const ResultCap := 10

  /** The filter of the search: the last health check passed and the codec is known. */
  predicate Healthy(st: Station)
  {
    st.lastcheckok == 1 && st.codec != "unknown"
  }

  /** `stations.filter(Healthy)`, in input order. */
  function KeepHealthy(stations: seq<Station>): (r: seq<Station>)
    ensures |r| <= |stations|
    ensures forall st :: st in r ==> st in stations && Healthy(st)
  {
    if stations == [] then []
    else (if Healthy(stations[0]) then [stations[0]] else []) + KeepHealthy(stations[1..])
  }

  /** The filter drops no healthy station. */
  lemma {:induction false} KeepHealthyComplete(stations: seq<Station>, st: Station)
    requires st in stations && Healthy(st)
    ensures st in KeepHealthy(stations)
  {
    if stations[0] != st {
      KeepHealthyComplete(stations[1..], st);
    }
  }

  /** The filter keeps input order: filtering a concatenation filters each part. */
  lemma {:induction false} KeepHealthyAppend(a: seq<Station>, b: seq<Station>)
    ensures KeepHealthy(a + b) == KeepHealthy(a) + KeepHealthy(b)
  {
    if a != [] {
      assert (a + b)[1..] == a[1..] + b;
      KeepHealthyAppend(a[1..], b);
    } else {
      assert a + b == b;
    }
  }

  /** The `.filter(...).slice(0, 10)` pipeline of `fetchFromRadioBrowser`: at most ten
      stations, all healthy, and they are the first healthy stations of the input. */
  function FilterStations(stations: seq<Station>): (r: seq<Station>)
    ensures |r| <= ResultCap
    ensures |r| == if |KeepHealthy(stations)| < ResultCap then |KeepHealthy(stations)| else ResultCap
    ensures r == KeepHealthy(stations)[..|r|]
    ensures forall st :: st in r ==> st in stations && Healthy(st)
  {
    var healthy := KeepHealthy(stations);
    if |healthy| <= ResultCap then healthy else healthy[..ResultCap]
  }

  /** With fewer than ten healthy stations in the answer, every one of them is kept. */
  lemma FilterKeepsAllWhenFew(stations: seq<Station>, st: Station)
    requires |KeepHealthy(stations)| < ResultCap
    requires st in stations && Healthy(st)
    ensures st in FilterStations(stations)
  {
    KeepHealthyComplete(stations, st);
  }

  /** `fetchFromRadioBrowser(query)`: `response` is what `fetch` and `response.json()`
      produce for the query, `None` when either throws or the body is not a station
      array. Any failure is the empty list, never an exception. */
  function FetchFromRadioBrowser(response: Option<seq<Station>>): (r: seq<Station>)
    ensures response.None? ==> r == []
    ensures response.Some? ==> r == FilterStations(response.value)
  {
    match response
    case None => []
    case Some(stations) => FilterStations(stations)
  }

  const QueryPrefix := "taglist="
  const QuerySuffix := "&limit=30&order=clickcount&reverse=true&bitrate_min=64"

  /** `getCategoryQuery(category)`: the tag search for a category. */
  function CategoryQuery(category: string): (q: string)
    ensures |q| == |QueryPrefix| + |category| + |QuerySuffix|
    ensures q[..|QueryPrefix|] == QueryPrefix && q[|q| - |QuerySuffix|..] == QuerySuffix
  {
    QueryPrefix + category + QuerySuffix
  }

  /** The category a tag query was built from. */
  function QueryTag(q: string): string
    requires |QueryPrefix| + |QuerySuffix| <= |q|
  {
    q[|QueryPrefix|..|q| - |QuerySuffix|]
  }

  /** `QueryTag` inverts `CategoryQuery`, so distinct categories give distinct queries. */
  lemma CategoryQueryInverse(category: string)
    ensures QueryTag(CategoryQuery(category)) == category
  {
    var q := CategoryQuery(category);
    assert q == QueryPrefix + category + QuerySuffix;
    assert q[|QueryPrefix|..|q| - |QuerySuffix|] == category;
  }

  /** A tag query itself contains `&`. */
  lemma CategoryQueryHasAmpersand(category: string)
    ensures '&' in CategoryQuery(category)
  {
    var q := CategoryQuery(category);
    assert q[|QueryPrefix| + |category|] == QuerySuffix[0];
    assert QuerySuffix == "&limit=30&order=clickcount&reverse=true&bitrate_min=64";
  }

  /** `CachedRadioStations`: one map from key to station list, with one date for all. */
  datatype CachedStations = CachedStations(stations: map<string, seq<Station>>, date: string)

  datatype CacheError = CorruptCache

  /** The slot as `fetchRadioStations` reads it: an absent slot is a fresh empty map for
      today; unparseable text makes `JSON.parse` throw, which nothing catches there. */
  function ReadData(slot: Option<Content<CachedStations>>, today: string): (r: Result<CachedStations, CacheError>)
    ensures r.Failure? <==> slot == Some(Unparseable)
    ensures slot.None? ==> r == Success(CachedStations(map[], today))
    ensures slot.Some? && slot.value.Parsed? ==> r == Success(slot.value.value)
  {
    match slot
    case None => Success(CachedStations(map[], today))
    case Some(Parsed(data)) => Success(data)
    case Some(Unparseable) => Failure(CorruptCache)
  }

  /** A key containing `&` is a raw query string rather than a category name. */
  predicate IsQuery(key: string)
  {
    '&' in key
  }

  /** The cache decision of `fetchRadioStations`: the list stored under `key`, when the
      map's date is today, the key is not a raw query, and the key has an entry. */
  function CachedList(data: CachedStations, key: string, today: string): (r: Option<seq<Station>>)
    ensures r.Some? ==> data.date == today && !IsQuery(key) && key in data.stations && r.value == data.stations[key]
    ensures r.None? ==> data.date != today || IsQuery(key) || key !in data.stations
  {
    if data.date == today && !IsQuery(key) && key in data.stations then Some(data.stations[key]) else None
  }

  /** The query sent to the directory on a miss: a raw query verbatim, else the tag query. */
  function QueryFor(key: string): (q: string)
    ensures IsQuery(q)
    ensures IsQuery(key) ==> q == key
    ensures !IsQuery(key) ==> q == CategoryQuery(key)
    ensures !IsQuery(key) ==> |QueryPrefix| + |QuerySuffix| <= |q| && QueryTag(q) == key
  {
    if IsQuery(key) then key
    else
      CategoryQueryHasAmpersand(key);
      CategoryQueryInverse(key);
      CategoryQuery(key)
  }

  /** The slot after `setCachedStations(key, stations)`: a parse error or a failed
      `setItem` is swallowed and nothing is written; otherwise the key's list is
      replaced and the map's single date becomes today. */
  function StoreStations(slot: Option<Content<CachedStations>>, key: string, stations: seq<Station>,
                         today: string, writable: bool): (r: Option<Content<CachedStations>>)
    ensures slot == Some(Unparseable) || !writable ==> r == slot
    ensures slot != Some(Unparseable) && writable ==>
      r.Some? && r.value.Parsed? && r.value.value.date == today &&
      r.value.value.stations.Keys == ReadData(slot, today).value.stations.Keys + {key} &&
      r.value.value.stations[key] == stations
  {
    match slot
    case Some(Unparseable) => slot
    case _ =>
      if !writable then slot
      else
        var data := ReadData(slot, today).value;
        Some(Parsed(CachedStations(data.stations[key := stations], today)))
  }

  /** A write leaves every other key's list as it was, whatever day it was written on. */
  lemma StoreKeepsOtherKeys(slot: Option<Content<CachedStations>>, key: string, stations: seq<Station>,
                            today: string, writable: bool, other: string)
    requires slot.Some? && slot.value.Parsed? && other in slot.value.value.stations && other != key
    ensures var r := StoreStations(slot, key, stations, today, writable);
      r.Some? && r.value.Parsed? && other in r.value.value.stations &&
      r.value.value.stations[other] == slot.value.value.stations[other]
  {
  }

  /** Round trip: after a successful write of `stations` under a category name on day
      `today`, the cache decision on the same day yields exactly that list. */
  lemma StoreThenHit(slot: Option<Content<CachedStations>>, key: string, stations: seq<Station>, today: string)
    requires slot != Some(Unparseable) && !IsQuery(key)
    ensures var r := StoreStations(slot, key, stations, today, true);
      ReadData(r, today).Success? && CachedList(ReadData(r, today).value, key, today) == Some(stations)
  {
  }

  /** On a later day nothing is a hit, whatever was written. */
  lemma NoHitOnAnotherDay(data: CachedStations, key: string, today: string)
    requires data.date != today
    ensures CachedList(data, key, today) == None
  {
  }

  /** Because the map has a single date, writing one key on a later day makes a list
      written under another key on an earlier day a hit again. */
  lemma {:induction false} StaleEntryRevived(old_list: seq<Station>, new_list: seq<Station>)
    ensures var first := StoreStations(None, "jazz", old_list, "2024-01-01", true);
      var second := StoreStations(first, "rock", new_list, "2024-01-02", true);
      ReadData(second, "2024-01-02").Success? &&
      CachedList(ReadData(second, "2024-01-02").value, "jazz", "2024-01-02") == Some(old_list)
  {
    var first := StoreStations(None, "jazz", old_list, "2024-01-01", true);
    assert first == Some(Parsed(CachedStations(map["jazz" := old_list], "2024-01-01")));
    var second := StoreStations(first, "rock", new_list, "2024-01-02", true);
    assert second == Some(Parsed(CachedStations(map["jazz" := old_list, "rock" := new_list], "2024-01-02")));
    assert !IsQuery("jazz") by {
      assert forall i :: 0 <= i < |"jazz"| ==> "jazz"[i] != '&';
    }
  }

  /** The `localStorage` slot `cachedRadioStations`. */
  class StationCache {
    /** What the slot holds: `None` when `getItem` yields nothing. */
    var slot: Option<Content<CachedStations>>
    /** False when `setItem` throws (quota exceeded, storage disabled). */
    var writable: bool

    constructor (slot: Option<Content<CachedStations>>, writable: bool)
      ensures this.slot == slot && this.writable == writable
    {
      this.slot := slot;
      this.writable := writable;
    }

    /** `setCachedStations(key, stations)`; `today` is `getTodayDate()`. */
    method SetCachedStations(key: string, stations: seq<Station>, today: string)
      modifies this`slot
      ensures slot == StoreStations(old(slot), key, stations, today, writable)
    {
      match slot {
        case Some(Unparseable) =>
        case _ =>
          var data := ReadData(slot, today).value;
          data := data.(stations := data.stations[key := stations]);
          data := data.(date := today);
          if writable {
            slot := Some(Parsed(data));
          }
      }
    }

    /** `fetchRadioStations(key)`. `response` is what the directory answers to the query
        this call sends (ignored when nothing is sent); `sent` is that query, `None` when
        the call is answered from the cache or fails before fetching. */
    method FetchRadioStations(key: string, today: string, response: Option<seq<Station>>)
      returns (outcome: Result<seq<Station>, CacheError>, sent: Option<string>)
      modifies this`slot
      ensures ReadData(old(slot), today).Failure? ==>
        outcome == Failure(CorruptCache) && sent == None && slot == old(slot)
      ensures ReadData(old(slot), today).Success? &&
              CachedList(ReadData(old(slot), today).value, key, today).Some? ==>
        outcome == Success(CachedList(ReadData(old(slot), today).value, key, today).value) &&
        sent == None && slot == old(slot)
      ensures ReadData(old(slot), today).Success? &&
              CachedList(ReadData(old(slot), today).value, key, today).None? ==>
        sent == Some(QueryFor(key)) &&
        outcome == Success(FetchFromRadioBrowser(response)) &&
        slot == StoreStations(old(slot), key, FetchFromRadioBrowser(response), today, writable)
    {
      var read := ReadData(slot, today);
      if read.Failure? {
        return Failure(CorruptCache), None;
      }
      var data := read.value;
      var isQuery := IsQuery(key);
      if data.date == today && !isQuery && key in data.stations {
        return Success(data.stations[key]), None;
      }
      var query := if isQuery then key else CategoryQuery(key);
      var stations := FetchFromRadioBrowser(response);
      SetCachedStations(key, stations, today);
      return Success(stations), Some(query);
    }
  }

  /** `getRandomStation(stations)`: null for an empty list, otherwise some element
      (the source sorts a copy with a random comparator and takes the first). */
  method RandomStation(stations: seq<Station>) returns (r: Option<Station>)
    ensures r.None? <==> stations == []
    ensures r.Some? ==> r.value in stations
  {
    if |stations| == 0 {
      return None;
    }
    var k :| 0 <= k < |stations|;
    r := Some(stations[k]);
  }
}
