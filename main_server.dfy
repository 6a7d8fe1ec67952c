/** The standalone server in main.ts: its own copies of the aggregate and
    search queries, built over the configurable `TOPIC`, and its own route
    table. The row loops are the same code as in httpQueries.ts, so they
    are the methods of `HttpQueries`. */
module MainServer {
  import opened Wrappers
  import opened JsBuiltins
  import RedisClient
  import HttpQueries

  const DefaultTopic := "lafleet/devices/location/+/streaming"

  /** `process.env.TOPIC || DefaultTopic`: an unset or empty variable
      falls back to the default. */
  function TopicOf(env: Option<string>): (r: string)
    ensures r != ""
    ensures env.Some? && env.value != "" ==> r == env.value
    ensures env.None? || env.value == "" ==> r == DefaultTopic
  {
    if env.Some? && env.value != "" then env.value else DefaultTopic
  }

  /** Without `TOPIC`, main.ts queries the topic redisClient.ts fixes. */
  lemma DefaultTopicMatchesRedisClient(env: Option<string>)
    requires env.None? || env.value == ""
    ensures TopicOf(env) == RedisClient.Topic
    ensures forall res, xs :: RedisClient.AggregateFilterOn(TopicOf(env), res, xs) == RedisClient.AggregateFilter(res, xs)
  {
  }

  /** `aggregate` (main.ts:117-160): the filter sent and the shaped reply. */
  method Aggregate(env: Option<string>, h3resolution: int, h3indices: seq<string>,
                   reply: Option<seq<HttpQueries.AggEntry>>)
      returns (filter: string, results: HttpQueries.AggregateResult)
    ensures ' ' !in TopicOf(env) && (forall i :: 0 <= i < |h3indices| ==> ' ' !in h3indices[i]) ==>
      Split(filter, ' ') == ["@topic:" + TopicOf(env), RedisClient.H3Field(h3resolution) + ":{"]
        + RedisClient.IndexWords(h3indices) + ["}"]
    ensures |filter| > 7 + |TopicOf(env)| && filter[..7 + |TopicOf(env)|] == "@topic:" + TopicOf(env)
    ensures filter == RedisClient.AggregateFilterOn(TopicOf(env), h3resolution, h3indices)
    ensures env.None? || env.value == "" ==> filter == RedisClient.AggregateFilter(h3resolution, h3indices)
    ensures results.h3resolution == h3resolution
    ensures results.h3indices == if reply.None? then map[] else HttpQueries.IndicesOf(reply.value)
  {
    var h3res := RedisClient.H3Field(h3resolution);
    var h3filter := h3res + ":{ " + Join(h3indices, " | ") + " }";
    filter := "@topic:" + TopicOf(env) + " " + h3filter;
    assert filter == RedisClient.AggregateFilterOn(TopicOf(env), h3resolution, h3indices);
    if ' ' !in TopicOf(env) && (forall i :: 0 <= i < |h3indices| ==> ' ' !in h3indices[i]) {
      RedisClient.AggregateFilterWords(TopicOf(env), h3resolution, h3indices);
    }
    results := HttpQueries.Aggregate(h3resolution, h3indices, reply);
  }

  /** `search` (main.ts:162-199): the filter sent and the reply without its
      leading count. */
  method Search<T>(env: Option<string>, longitude: string, latitude: string, distance: string, distanceUnit: string,
                   reply: Option<seq<T>>)
      returns (filter: string, results: seq<T>)
    ensures ' ' !in TopicOf(env) && ' ' !in longitude && ' ' !in latitude && ' ' !in distance && ' ' !in distanceUnit ==>
      Split(filter, ' ') == ["@topic:" + TopicOf(env), "@lnglat:[", longitude, latitude, distance, distanceUnit, "]"]
    ensures filter == RedisClient.SearchFilterOn(TopicOf(env), longitude, latitude, distance, distanceUnit)
    ensures env.None? || env.value == "" ==> filter == RedisClient.SearchFilter(longitude, latitude, distance, distanceUnit)
    ensures reply.None? ==> results == []
    ensures reply.Some? ==> |results| == if |reply.value| == 0 then 0 else |reply.value| - 1
    ensures reply.Some? ==> forall i :: 0 <= i < |results| ==> results[i] == reply.value[i + 1]
  {
    var lnglatFilter := "@lnglat:[ " + longitude + " " + latitude + " " + distance + " " + distanceUnit + " ]";
    filter := "@topic:" + TopicOf(env) + " " + lnglatFilter;
    assert filter == RedisClient.SearchFilterOn(TopicOf(env), longitude, latitude, distance, distanceUnit);
    if ' ' !in TopicOf(env) && ' ' !in longitude && ' ' !in latitude && ' ' !in distance && ' ' !in distanceUnit {
      RedisClient.SearchFilterWords(TopicOf(env), longitude, latitude, distance, distanceUnit);
    }
    results := HttpQueries.Search(reply);
  }

  /** The `request` handler's route table (main.ts:31-88). */
  function OnRequest(url: string, verb: string): HttpQueries.Reply {
    match url
    case "/h3/aggregate/device-count" =>
      if verb == "GET" then HttpQueries.Ended(200, Some("application/json"), "HTTP method not supported. Use POST instead.")
      else if verb == "POST" then HttpQueries.AwaitBody("application/json", HttpQueries.H3Aggregate)
      else HttpQueries.Open("application/json")
    case "/location/search/radius/device-list" =>
      if verb == "GET" then HttpQueries.Ended(200, Some("application/json"), "HTTP method not supported. Use POST instead.")
      else if verb == "POST" then HttpQueries.AwaitBody("application/json", HttpQueries.RadiusSearch)
      else HttpQueries.Open("application/json")
    case "/health" =>
      if verb == "GET" then HttpQueries.Ended(200, Some("text/html"), "OK") else HttpQueries.Open("text/html")
    case "/" =>
      if verb == "GET" then HttpQueries.Ended(200, Some("text/html"), "<h1>Welcome to Query Service</h1>")
      else HttpQueries.Open("text/html")
    case _ => HttpQueries.Ended(404, None, "Not Found")
  }

  /** main.ts answers every request exactly as httpQueries.ts does. */
  lemma SameRouteTable(url: string, verb: string)
    ensures OnRequest(url, verb) == HttpQueries.OnRequest(url, verb)
  {
  }
}
