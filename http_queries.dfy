/** The HTTP query service (class `httpQueries` in httpQueries.ts): the
    route table, and the shaping of the aggregate and search replies the
    redis client hands back. Reading the request body and the JSON
    encoding of the answer are not modelled. */
module HttpQueries {
  import opened Wrappers
  import opened JsBuiltins

  // ---------------------------------------------------------------------
  // aggregate (httpQueries.ts:106-133)

  /** A scalar in an `FT.AGGREGATE` reply. */
  datatype Cell = Null | Str(s: string)

  /** An element of the reply: a row array, or anything else. */
  datatype AggEntry = Scalar(cell: Cell) | Row(cells: seq<Cell>)

  /** `{h3resolution, h3indices}`; a `None` count is `NaN`, which the JSON
      encoding turns into `null`. */
  datatype AggregateResult = AggregateResult(h3resolution: int, h3indices: map<string, Option<int>>)

  /** A row is used when it is an array of at least four elements. */
  predicate Kept(e: AggEntry) {
    e.Row? && |e.cells| >= 4
  }

  /** A cell used as a property name. */
  function KeyText(c: Cell): string {
    match c
    case Null => "null"
    case Str(s) => s
  }

  /** `val == null || val == '' ? 0 : parseInt(val)` */
  function DeviceCount(c: Cell): Option<int> {
    match c
    case Null => Some(0)
    case Str(s) => if s == "" then Some(0) else ParseInt(s)
  }

  /** The `h3indices` object after the row loop over `rows`. */
  function IndicesOf(rows: seq<AggEntry>): map<string, Option<int>>
    decreases |rows|
  {
    if rows == [] then map[]
    else
      var m := IndicesOf(rows[..|rows| - 1]);
      var row := rows[|rows| - 1];
      if Kept(row) then m[KeyText(row.cells[1]) := DeviceCount(row.cells[3])] else m
  }

  /** Row `i` is used and keyed `k`. */
  predicate KeyedAt(rows: seq<AggEntry>, i: int, k: string) {
    0 <= i < |rows| && Kept(rows[i]) && KeyText(rows[i].cells[1]) == k
  }

  /** Row `i` is the last used row keyed `k`. */
  predicate LastKeyedAt(rows: seq<AggEntry>, i: int, k: string) {
    KeyedAt(rows, i, k) && forall j :: i < j < |rows| ==> !KeyedAt(rows, j, k)
  }

  /** The map has a key exactly for each used row's second element, and
      under it the count of the last such row: 0 for a null or empty count,
      `parseInt` of it otherwise. */
  lemma {:induction false} IndicesOfRows(rows: seq<AggEntry>)
    ensures forall k :: k in IndicesOf(rows) <==> exists i :: KeyedAt(rows, i, k)
    ensures forall i, k :: LastKeyedAt(rows, i, k) ==>
      IndicesOf(rows)[k] == (if rows[i].cells[3] == Null || rows[i].cells[3] == Str("") then Some(0) else ParseInt(rows[i].cells[3].s))
    decreases |rows|
  {
    if rows != [] {
      var n := |rows| - 1;
      var prefix := rows[..n];
      IndicesOfRows(prefix);
      assert forall i, k :: 0 <= i < n ==> (KeyedAt(rows, i, k) <==> KeyedAt(prefix, i, k));
      var m := IndicesOf(rows);
      var mp := IndicesOf(prefix);
      var last := rows[n];
      assert m == if Kept(last) then mp[KeyText(last.cells[1]) := DeviceCount(last.cells[3])] else mp;
      forall k ensures k in m <==> exists i :: KeyedAt(rows, i, k) {
        if KeyedAt(rows, n, k) {
          assert k in m;
        } else {
          assert k in m <==> k in mp;
          if k in mp {
            var i :| KeyedAt(prefix, i, k);
            assert KeyedAt(rows, i, k);
          }
          if exists i :: KeyedAt(rows, i, k) {
            var i :| KeyedAt(rows, i, k);
            assert i < n;
            assert KeyedAt(prefix, i, k);
          }
        }
      }
      forall i, k | LastKeyedAt(rows, i, k)
        ensures m[k] == (if rows[i].cells[3] == Null || rows[i].cells[3] == Str("") then Some(0) else ParseInt(rows[i].cells[3].s))
      {
        if i < n {
          assert !KeyedAt(rows, n, k);
          assert LastKeyedAt(prefix, i, k);
        }
      }
    }
  }

  /** A row that is not an array, or is shorter than four, changes
      nothing; a later row with the same key overwrites an earlier one. */
  lemma IndicesOfStep(rows: seq<AggEntry>, e: AggEntry)
    ensures !Kept(e) ==> IndicesOf(rows + [e]) == IndicesOf(rows)
    ensures Kept(e) ==> IndicesOf(rows + [e]) == IndicesOf(rows)[KeyText(e.cells[1]) := DeviceCount(e.cells[3])]
  {
    assert (rows + [e])[..|rows|] == rows;
  }

  /** `aggregate`: the backend reply is `None` when the call throws (or
      resolves to nothing with a `length`); `h3resolution` is echoed and
      `h3indices` is always present. */
  method Aggregate(h3resolution: int, h3indices: seq<string>, reply: Option<seq<AggEntry>>)
      returns (results: AggregateResult)
    ensures results.h3resolution == h3resolution
    ensures results.h3indices == if reply.None? then map[] else IndicesOf(reply.value)
  {
    results := AggregateResult(h3resolution, map[]);
    if reply.Some? {
      var agg := reply.value;
      var i := 0;
      while i < |agg|
        invariant 0 <= i <= |agg|
        invariant results == AggregateResult(h3resolution, IndicesOf(agg[..i]))
      {
        var row := agg[i];
        assert agg[..i + 1][..i] == agg[..i];
        if row.Row? && |row.cells| >= 4 {
          var key := KeyText(row.cells[1]);
          var val := row.cells[3];
          var count := if val == Null || val == Str("") then Some(0) else ParseInt(val.s);
          results := results.(h3indices := results.h3indices[key := count]);
        }
        i := i + 1;
      }
      assert agg[..i] == agg;
    }
  }

  // ---------------------------------------------------------------------
  // search (httpQueries.ts:135-158)

  /** `search`: every element of the reply but the first (the hit count),
      in order; nothing when the call throws. */
  method Search<T>(reply: Option<seq<T>>) returns (results: seq<T>)
    ensures reply.None? ==> results == []
    ensures reply.Some? ==> |results| == if |reply.value| == 0 then 0 else |reply.value| - 1
    ensures reply.Some? ==> forall i :: 0 <= i < |results| ==> results[i] == reply.value[i + 1]
  {
    results := [];
    if reply.Some? {
      var list := reply.value;
      var i := 0;
      while i < |list|
        invariant 0 <= i <= |list|
        invariant |results| == if i == 0 then 0 else i - 1
        invariant forall j :: 0 <= j < |results| ==> results[j] == list[j + 1]
      {
        var val := list[i];
        if i != 0 {
          results := results + [val];
        }
        i := i + 1;
      }
    }
  }

  // ---------------------------------------------------------------------
  // onRequest (httpQueries.ts:25-82)

  const AggregatePath := "/h3/aggregate/device-count"
  const SearchPath := "/location/search/radius/device-list"
  const HealthPath := "/health"
  const RootPath := "/"
  const Json := "application/json"
  const Html := "text/html"
  const UsePost := "HTTP method not supported. Use POST instead."
  const Welcome := "<h1>Welcome to Query Service</h1>"

  datatype QueryRoute = H3Aggregate | RadiusSearch

  /** What the handler does with the response before it returns: end it
      (status, `Content-Type` header if set, body), read the JSON body for a
      query and end it later with status 200, or leave it open. */
  datatype Reply =
    | Ended(status: nat, contentType: Option<string>, body: string)
    | AwaitBody(header: string, route: QueryRoute)
    | Open(header: string)

  predicate KnownPath(url: string) {
    url == AggregatePath || url == SearchPath || url == HealthPath || url == RootPath
  }

  function OnRequest(url: string, verb: string): Reply {
    if url == AggregatePath || url == SearchPath then
      if verb == "GET" then Ended(200, Some(Json), UsePost)
      else if verb == "POST" then AwaitBody(Json, if url == AggregatePath then H3Aggregate else RadiusSearch)
      else Open(Json)
    else if url == HealthPath || url == RootPath then
      if verb == "GET" then Ended(200, Some(Html), if url == HealthPath then "OK" else Welcome)
      else Open(Html)
    else Ended(404, None, "Not Found")
  }

  /** The route table: 404 exactly for an unknown path, which is also the
      only case without a `Content-Type`; a known path answers at once only
      to GET (the two query paths with the "use POST" JSON message, the
      health path with `OK`, the root with the welcome page), the query
      paths read a body only on POST, and any other method leaves the
      response open with the path's content type. */
  lemma RouteTable(url: string, verb: string)
    ensures OnRequest(url, verb).Ended? && OnRequest(url, verb).status == 404 <==> !KnownPath(url)
    ensures !KnownPath(url) ==> OnRequest(url, verb) == Ended(404, None, "Not Found")
    ensures KnownPath(url) ==> (OnRequest(url, verb).Ended? <==> verb == "GET")
    ensures OnRequest(url, verb).AwaitBody? <==> (url == AggregatePath || url == SearchPath) && verb == "POST"
    ensures OnRequest(url, verb).Open? <==>
      (KnownPath(url) && verb != "GET" && !((url == AggregatePath || url == SearchPath) && verb == "POST"))
    ensures (url == AggregatePath || url == SearchPath) && verb == "GET" ==> OnRequest(url, verb) == Ended(200, Some(Json), UsePost)
    ensures verb == "GET" && url == HealthPath ==> OnRequest(url, verb) == Ended(200, Some(Html), "OK")
    ensures verb == "GET" && url == RootPath ==> OnRequest(url, verb) == Ended(200, Some(Html), Welcome)
    ensures verb == "POST" && url == AggregatePath ==> OnRequest(url, verb) == AwaitBody(Json, H3Aggregate)
    ensures verb == "POST" && url == SearchPath ==> OnRequest(url, verb) == AwaitBody(Json, RadiusSearch)
    ensures OnRequest(url, verb).Open? ==>
      OnRequest(url, verb).header == if url == AggregatePath || url == SearchPath then Json else Html
  {
  }
}
