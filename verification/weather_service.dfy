/**
 * `WeatherService.fetchWeather`: a time-to-live cache, keyed by the
 * coordinate, in front of one HTTP request to OpenWeather.
 *
 * The request itself (URL building, `URLSession`, the JSON decoder) is an
 * input: an `Exchange` says what the attempt produced. The clock is an input
 * too: `now` is the time of the call in seconds.
 */
module WeatherService {
  import opened Wrappers
  import opened WeatherModels

  /** A cached weather report is served for ten minutes. */
  const CacheValiditySeconds: real := 600.0

  const ZurichLatitude: real := 47.3769
  const ZurichLongitude: real := 8.5417

  /** The cache key: the coordinate the weather was asked for. */
  datatype CacheKey = CacheKey(latitude: real, longitude: real)

  datatype CacheEntry = CacheEntry(weather: Weather, timestamp: real)

  /** What the decoder made of a response body. */
  datatype Body = Decoded(response: WeatherResponse) | Undecodable(reason: string)

  /** What one attempt to reach OpenWeather produced. */
  datatype Exchange =
    | NoURL                                   // the request URL could not be built
    | TransportFailure(description: string)   // URLSession threw
    | NonHttpResponse                         // the response is not an HTTP response
    | HttpResponse(statusCode: int, body: Body)

  /**
   * What `fetchWeather` throws: one of its own errors, or the decoder's
   * error, which it does not wrap.
   */
  datatype FetchError = Service(error: WeatherError) | Decoder(reason: string)

  /**
   * The app's weather value for a response: the numbers of `main`, and the
   * texts of the first condition, or empty texts when there is none.
   */
  function MakeWeather(response: WeatherResponse): (w: Weather)
    ensures w.temperature == response.main.temp
    ensures w.feelsLike == response.main.feelsLike
    ensures w.humidity == response.main.humidity
    ensures response.weather == [] ==> w.condition == w.description == w.icon == ""
    ensures response.weather != [] ==>
      && w.condition == response.weather[0].main
      && w.description == response.weather[0].description
      && w.icon == response.weather[0].icon
  {
    var first: Option<WeatherCondition> := if response.weather == [] then None else Some(response.weather[0]);
    Weather(
      response.main.temp,
      response.main.feelsLike,
      response.main.humidity,
      if first.Some? then first.value.main else "",
      if first.Some? then first.value.description else "",
      if first.Some? then first.value.icon else "")
  }

  /**
   * The result of the network part of `fetchWeather`: a weather value only
   * for an HTTP 200 whose body decodes; otherwise the first failure met, in
   * the order URL, transport, response kind, status, body.
   */
  function Download(exchange: Exchange): (r: Result<Weather, FetchError>)
    ensures r.Success? <==> exchange.HttpResponse? && exchange.statusCode == 200 && exchange.body.Decoded?
    ensures r.Success? ==> r.value == MakeWeather(exchange.body.response)
    ensures exchange.NoURL? ==> r == Failure(Service(InvalidURL))
    ensures exchange.TransportFailure? ==> r == Failure(Service(NetworkError(exchange.description)))
    ensures exchange.NonHttpResponse? ==> r == Failure(Service(InvalidResponse))
    ensures exchange.HttpResponse? && exchange.statusCode != 200 ==> r == Failure(Service(InvalidResponse))
    ensures exchange.HttpResponse? && exchange.statusCode == 200 && exchange.body.Undecodable? ==>
      r == Failure(Decoder(exchange.body.reason))
  {
    match exchange
    case NoURL => Failure(Service(InvalidURL))
    case TransportFailure(description) => Failure(Service(NetworkError(description)))
    case NonHttpResponse => Failure(Service(InvalidResponse))
    case HttpResponse(statusCode, body) =>
      if statusCode != 200 then Failure(Service(InvalidResponse))
      else match body
        case Undecodable(reason) => Failure(Decoder(reason))
        case Decoded(response) => Success(MakeWeather(response))
  }

  /** A cache entry is served while it is younger than ten minutes. */
  predicate IsFresh(entry: CacheEntry, now: real)
  {
    now - entry.timestamp < CacheValiditySeconds
  }

  /** What a call returns, and the cache after it. */
  datatype Fetched = Fetched(result: Result<Weather, FetchError>, cache: map<CacheKey, CacheEntry>)

  /**
   * One call of `fetchWeather` for `key` at time `now`: without an API key
   * it fails at once; a fresh cache entry is returned as it is; otherwise the
   * weather is downloaded and, only on success, stored under `key`.
   */
  function CachedFetch(apiKey: string, cache: map<CacheKey, CacheEntry>, key: CacheKey, now: real, exchange: Exchange): (f: Fetched)
    ensures apiKey == "" ==> f == Fetched(Failure(Service(MissingAPIKey)), cache)
    ensures f.result.Failure? ==> f.cache == cache
    ensures f.cache != cache ==> f.result.Success? && f.cache == cache[key := CacheEntry(f.result.value, now)]
    ensures forall k :: k != key ==> (k in f.cache <==> k in cache)
    ensures forall k :: k != key && k in cache ==> f.cache[k] == cache[k]
  {
    if apiKey == "" then
      Fetched(Failure(Service(MissingAPIKey)), cache)
    else if key in cache && IsFresh(cache[key], now) then
      Fetched(Success(cache[key].weather), cache)
    else
      match Download(exchange)
      case Failure(e) => Fetched(Failure(e), cache)
      case Success(weather) => Fetched(Success(weather), cache[key := CacheEntry(weather, now)])
  }

  /** A fresh entry is served whatever the network would have said, and the cache is left alone. */
  lemma FreshEntryServed(apiKey: string, cache: map<CacheKey, CacheEntry>, key: CacheKey, now: real, exchange: Exchange)
    requires apiKey != "" && key in cache && now - cache[key].timestamp < CacheValiditySeconds
    ensures CachedFetch(apiKey, cache, key, now, exchange) == Fetched(Success(cache[key].weather), cache)
  {
  }

  /**
   * A missing entry, or one ten minutes old or older, is downloaded again:
   * the call returns what the download returns, and only a success replaces
   * the entry, stamped with `now`.
   */
  lemma StaleEntryRefetched(apiKey: string, cache: map<CacheKey, CacheEntry>, key: CacheKey, now: real, exchange: Exchange)
    requires apiKey != "" && (key !in cache || now - cache[key].timestamp >= CacheValiditySeconds)
    ensures CachedFetch(apiKey, cache, key, now, exchange).result == Download(exchange)
    ensures CachedFetch(apiKey, cache, key, now, exchange).cache
         == if Download(exchange).Success? then cache[key := CacheEntry(Download(exchange).value, now)] else cache
  {
  }

  /**
   * After a successful download (the entry was missing or stale), every
   * call for the same coordinate during the next ten minutes returns that
   * same weather without touching the network or the cache.
   */
  lemma FetchThenServeFromCache(
    apiKey: string, cache: map<CacheKey, CacheEntry>, key: CacheKey, now: real, exchange: Exchange,
    later: real, laterExchange: Exchange)
    requires key !in cache || now - cache[key].timestamp >= CacheValiditySeconds
    requires CachedFetch(apiKey, cache, key, now, exchange).result.Success?
    requires now <= later < now + CacheValiditySeconds
    ensures var first := CachedFetch(apiKey, cache, key, now, exchange);
            CachedFetch(apiKey, first.cache, key, later, laterExchange) == first
  {
    var first := CachedFetch(apiKey, cache, key, now, exchange);
    assert first.cache[key] == CacheEntry(first.result.value, now);
  }

  /** `fetchWeather` as the `WeatherService` actor has it: an API key and the cache it updates in place. */
  class WeatherService {
    const apiKey: string
    var cache: map<CacheKey, CacheEntry>

    /** The key is read from the app's configuration; a missing one is the empty string. */
    constructor (apiKey: string)
      ensures this.apiKey == apiKey && cache == map[]
    {
      this.apiKey := apiKey;
      cache := map[];
    }

    method FetchWeather(latitude: real, longitude: real, now: real, exchange: Exchange)
      returns (r: Result<Weather, FetchError>)
      modifies this`cache
      ensures Fetched(r, cache) == CachedFetch(apiKey, old(cache), CacheKey(latitude, longitude), now, exchange)
    {
      if apiKey == "" {
        return Failure(Service(MissingAPIKey));
      }
      var cacheKey := CacheKey(latitude, longitude);
      if cacheKey in cache && now - cache[cacheKey].timestamp < CacheValiditySeconds {
        return Success(cache[cacheKey].weather);
      }
      if exchange.NoURL? {
        return Failure(Service(InvalidURL));
      }
      if exchange.TransportFailure? {
        return Failure(Service(NetworkError(exchange.description)));
      }
      if exchange.NonHttpResponse? {
        return Failure(Service(InvalidResponse));
      }
      if exchange.statusCode != 200 {
        return Failure(Service(InvalidResponse));
      }
      if exchange.body.Undecodable? {
        return Failure(Decoder(exchange.body.reason));
      }
      var weather := MakeWeather(exchange.body.response);
      cache := cache[cacheKey := CacheEntry(weather, now)];
      return Success(weather);
    }

    /** The weather at Zurich's centre. */
    method FetchZurichWeather(now: real, exchange: Exchange) returns (r: Result<Weather, FetchError>)
      modifies this`cache
      ensures Fetched(r, cache) == CachedFetch(apiKey, old(cache), CacheKey(ZurichLatitude, ZurichLongitude), now, exchange)
    {
      r := FetchWeather(ZurichLatitude, ZurichLongitude, now, exchange);
    }
  }
}
