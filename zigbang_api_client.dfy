/** The Zigbang API client: a GET against the search endpoint for one geohash
    cell, a batched POST for item details, and the classification of each
    request's outcome (with 204 "no content" kept apart from failure). */
module ZigbangApi {
  import opened Json
  import opened Http
  import opened Geo
  import opened Seqs

  const BaseUrl: string := "https://apis.zigbang.com"

  /** The module-level default search parameters. */
  const DefaultParams: map<string, Value> := map[
    "depositMin" := Num(0.0),
    "rentMin" := Num(0.0),
    "salesTypes" := Arr([Str("전세"), Str("월세"), Str("매매")]),
    "salesPriceMin" := Num(0.0),
    "domain" := Str("zigbang"),
    "checkAnyItemWithoutFilter" := Bool(true),
    "zoom" := Num(6.0)
  ]

  /** The keys a search request sets on top of the default parameters. */
  const SearchKeys: set<string> := {"geohash", "lat_min", "lat_max", "lng_min", "lng_max", "serviceType"}

  /** The largest number of ids sent in one detail request. */
  const ChunkSize: nat := 100

  /** The request completed with a status `raise_for_status` accepts, and
      either it is 204 or its body decodes as JSON. */
  predicate Succeeded(o: Outcome) {
    o.Completed? && !IsHttpError(o.status) && (o.status == 204 || o.decoded.Some?)
  }

  /** `_make_request` after the request has been sent: `[]` for 204 (a valid
      empty answer, told apart from failure), otherwise the decoded body;
      `None` for an HTTP error status, a connection error, a timeout or a body
      that is not JSON. Other request exceptions are not caught by the source,
      so they are excluded here. */
  function Classify(o: Outcome): (r: Value)
    requires !o.OtherRequestError?
    ensures Succeeded(o) && o.status == 204 ==> r == Arr([])
    ensures Succeeded(o) && o.status != 204 ==> r == o.decoded.value
    ensures !Succeeded(o) ==> r == Null
  {
    match o
    case Completed(status, decoded) =>
      if IsHttpError(status) then Null
      else if status == 204 then Arr([])
      else if decoded.None? then Null
      else decoded.value
    case ConnectionFailed => Null
    case TimedOut => Null
  }

  /** No-content and failure give different results: the caller can tell a
      legitimately empty answer from a failed request. A 204 is never `None`,
      whatever its body; `None` means a failure or a body that is literally
      `null`. */
  lemma NoContentIsNotFailure(o: Outcome)
    requires !o.OtherRequestError?
    ensures Classify(o) == Arr([]) <==>
      (Succeeded(o) && (o.status == 204 || o.decoded.value == Arr([])))
    ensures o.Completed? && o.status == 204 ==> Classify(o) != Null
    ensures Classify(o) == Null <==> !Succeeded(o) || (o.status != 204 && o.decoded.value == Null)
  {
  }

  /** The query parameters of `get_items_by_geohash`. */
  function SearchParams(defaults: map<string, Value>, geohash: string, itemType: string, bbox: BBox): map<string, Value> {
    defaults + map[
      "geohash" := Str(geohash),
      "lat_min" := Num(bbox.latMin),
      "lat_max" := Num(bbox.latMax),
      "lng_min" := Num(bbox.lngMin),
      "lng_max" := Num(bbox.lngMax),
      "serviceType" := Str(itemType)
    ]
  }

  /** The parameters are a copy of the defaults with the geohash, the four
      bounds and the service type set; every other default is carried over
      unchanged. */
  lemma SearchParamsShape(defaults: map<string, Value>, geohash: string, itemType: string, bbox: BBox)
    ensures var p := SearchParams(defaults, geohash, itemType, bbox);
      && p.Keys == defaults.Keys + SearchKeys
      && p["geohash"] == Str(geohash) && p["serviceType"] == Str(itemType)
      && p["lat_min"] == Num(bbox.latMin) && p["lat_max"] == Num(bbox.latMax)
      && p["lng_min"] == Num(bbox.lngMin) && p["lng_max"] == Num(bbox.lngMax)
      && forall k :: k in defaults && k !in SearchKeys ==> p[k] == defaults[k]
  {
  }

  function SearchRequest(baseUrl: string, defaults: map<string, Value>, geohash: string, itemType: string, bbox: BBox): (req: Request)
    ensures req.verb == GET && req.body == None
    ensures req.url == baseUrl + "/v2/search"
    ensures req.params == Some(SearchParams(defaults, geohash, itemType, bbox))
    ensures req.params.value["geohash"] == Str(geohash) && req.params.value["serviceType"] == Str(itemType)
  {
    Request(GET, baseUrl + "/v2/search", Some(SearchParams(defaults, geohash, itemType, bbox)), None)
  }

  /** The POST for one batch of ids, with body `{"itemIds": chunk}`. */
  function DetailsRequest(baseUrl: string, chunk: seq<Value>): (req: Request)
    ensures req.verb == POST && req.params == None
    ensures req.url == baseUrl + "/v3/items/list"
    ensures req.body.Some? && req.body.value.Obj? && req.body.value.fields.Keys == {"itemIds"}
    ensures req.body.value.fields["itemIds"] == Arr(chunk)
  {
    Request(POST, baseUrl + "/v3/items/list", None, Some(Obj(map["itemIds" := Arr(chunk)])))
  }

  function Min(a: int, b: int): int {
    if a <= b then a else b
  }

  /** The slices `ids[i:i + size]`, `ids[i + size:i + 2 * size]`, ... up to
      the end of `ids` (the last one may be shorter). */
  function ChunksFrom(ids: seq<Value>, size: nat, i: nat): seq<seq<Value>>
    requires size > 0
    decreases |ids| - i
  {
    if i >= |ids| then [] else [ids[i..Min(i + size, |ids|)]] + ChunksFrom(ids, size, i + size)
  }

  /** `[ids[i:i + size] for i in range(0, len(ids), size)]`. */
  function Chunks(ids: seq<Value>, size: nat): seq<seq<Value>>
    requires size > 0
  {
    ChunksFrom(ids, size, 0)
  }

  lemma {:induction false} ChunksFromConcat(ids: seq<Value>, size: nat, i: nat)
    requires size > 0 && i <= |ids|
    ensures Flatten(ChunksFrom(ids, size, i)) == ids[i..]
    decreases |ids| - i
  {
    if i < |ids| {
      var m := Min(i + size, |ids|);
      var rest := ChunksFrom(ids, size, i + size);
      ChunksFromConcat(ids, size, m);
      assert ChunksFrom(ids, size, i + size) == ChunksFrom(ids, size, m);
      assert ([ids[i..m]] + rest)[1..] == rest;
      assert ids[i..] == ids[i..m] + ids[m..];
    }
  }

  /** The chunks, put back together in order, are the ids: nothing is lost,
      repeated or reordered. */
  lemma ChunksConcat(ids: seq<Value>, size: nat)
    requires size > 0
    ensures Flatten(Chunks(ids, size)) == ids
  {
    ChunksFromConcat(ids, size, 0);
    assert ids[0..] == ids;
  }

  lemma {:induction false} ChunksFromSizes(ids: seq<Value>, size: nat, i: nat)
    requires size > 0
    ensures forall j :: 0 <= j < |ChunksFrom(ids, size, i)| ==> 1 <= |ChunksFrom(ids, size, i)[j]| <= size
    ensures forall j :: 0 <= j < |ChunksFrom(ids, size, i)| - 1 ==> |ChunksFrom(ids, size, i)[j]| == size
    decreases |ids| - i
  {
    if i < |ids| {
      ChunksFromSizes(ids, size, i + size);
      var rest := ChunksFrom(ids, size, i + size);
      var cs := ChunksFrom(ids, size, i);
      assert cs == [ids[i..Min(i + size, |ids|)]] + rest;
      forall j | 1 <= j < |cs|
        ensures cs[j] == rest[j - 1]
      {
      }
      if i + size < |ids| {
        assert rest != [];
      }
    }
  }

  /** Every chunk holds between 1 and `size` ids, and all but the last hold
      exactly `size`. */
  lemma ChunksSizes(ids: seq<Value>, size: nat)
    requires size > 0
    ensures forall j :: 0 <= j < |Chunks(ids, size)| ==> 1 <= |Chunks(ids, size)[j]| <= size
    ensures forall j :: 0 <= j < |Chunks(ids, size)| - 1 ==> |Chunks(ids, size)[j]| == size
  {
    ChunksFromSizes(ids, size, 0);
  }

  lemma {:induction false} ChunksFromCount(ids: seq<Value>, i: nat)
    requires i <= |ids|
    ensures |ChunksFrom(ids, ChunkSize, i)| == (|ids| - i + ChunkSize - 1) / ChunkSize
    decreases |ids| - i
  {
    if i < |ids| {
      if i + ChunkSize < |ids| {
        ChunksFromCount(ids, i + ChunkSize);
      }
    }
  }

  /** There are ceil(n / 100) chunks for n ids. */
  lemma ChunksCount(ids: seq<Value>)
    ensures |Chunks(ids, ChunkSize)| == (|ids| + ChunkSize - 1) / ChunkSize
  {
    ChunksFromCount(ids, 0);
  }

  /** What one detail response contributes: its `items` when the test
      `data and data.get('items')` passes, nothing otherwise. */
  function ItemsOf(data: Value): (items: seq<Value>)
    ensures NonEmptyField(data, "items").None? ==> items == []
    ensures Truthy(data) && Truthy(Get(data, "items")) ==> items == Elements(data.fields["items"])
  {
    NonEmptyField(data, "items").GetOr([])
  }

  /** What the detail request for one chunk contributes. */
  function ChunkItems(server: Request -> Outcome, baseUrl: string, chunk: seq<Value>): seq<Value>
    requires NoOtherRequestError(server)
  {
    ItemsOf(Classify(server(DetailsRequest(baseUrl, chunk))))
  }

  /** The requests for a list of chunks, one per chunk, in order. */
  function DetailsRequests(baseUrl: string, chunks: seq<seq<Value>>): seq<Request>
    decreases |chunks|
  {
    if chunks == [] then []
    else DetailsRequests(baseUrl, chunks[..|chunks| - 1]) + [DetailsRequest(baseUrl, chunks[|chunks| - 1])]
  }

  lemma {:induction false} DetailsRequestsInOrder(baseUrl: string, chunks: seq<seq<Value>>)
    ensures |DetailsRequests(baseUrl, chunks)| == |chunks|
    ensures forall j :: 0 <= j < |chunks| ==> DetailsRequests(baseUrl, chunks)[j] == DetailsRequest(baseUrl, chunks[j])
    decreases |chunks|
  {
    if chunks != [] {
      DetailsRequestsInOrder(baseUrl, chunks[..|chunks| - 1]);
    }
  }

  /** The details gathered for a list of chunks: the items of each successful
      response, concatenated in chunk order. */
  function DetailsOf(server: Request -> Outcome, baseUrl: string, chunks: seq<seq<Value>>): seq<Value>
    requires NoOtherRequestError(server)
    decreases |chunks|
  {
    if chunks == [] then []
    else DetailsOf(server, baseUrl, chunks[..|chunks| - 1]) + ChunkItems(server, baseUrl, chunks[|chunks| - 1])
  }

  lemma DetailsNext(server: Request -> Outcome, baseUrl: string, done: seq<seq<Value>>, chunk: seq<Value>)
    requires NoOtherRequestError(server)
    ensures DetailsOf(server, baseUrl, done + [chunk]) == DetailsOf(server, baseUrl, done) + ChunkItems(server, baseUrl, chunk)
    ensures DetailsRequests(baseUrl, done + [chunk]) == DetailsRequests(baseUrl, done) + [DetailsRequest(baseUrl, chunk)]
  {
    assert (done + [chunk])[..|done|] == done;
  }

  /** One turn of the chunking loop, on the chunks still to be sent and on
      the request log. */
  lemma ChunkStep(ids: seq<Value>, size: nat, i: nat, done: seq<seq<Value>>)
    requires size > 0 && i < |ids|
    ensures done + ChunksFrom(ids, size, i) ==
      (done + [ids[i..Min(i + size, |ids|)]]) + ChunksFrom(ids, size, i + size)
  {
    AppendAssoc(done, [ids[i..Min(i + size, |ids|)]], ChunksFrom(ids, size, i + size));
  }

  lemma RequestStep(baseUrl: string, sent0: seq<Request>, done: seq<seq<Value>>, chunk: seq<Value>)
    ensures sent0 + DetailsRequests(baseUrl, done + [chunk]) ==
      (sent0 + DetailsRequests(baseUrl, done)) + [DetailsRequest(baseUrl, chunk)]
  {
    assert (done + [chunk])[..|done|] == done;
    AppendAssoc(sent0, DetailsRequests(baseUrl, done), [DetailsRequest(baseUrl, chunk)]);
  }

  lemma FailedChunkEmpty(server: Request -> Outcome, baseUrl: string, chunk: seq<Value>)
    requires NoOtherRequestError(server)
    requires !Succeeded(server(DetailsRequest(baseUrl, chunk)))
    ensures ChunkItems(server, baseUrl, chunk) == []
  {
  }

  /** A chunk whose request fails contributes nothing, and the chunks after
      it still contribute their items. */
  lemma {:induction false} FailedChunkContributesNothing(server: Request -> Outcome, baseUrl: string,
                                                         before: seq<seq<Value>>, failed: seq<Value>, after: seq<seq<Value>>)
    requires NoOtherRequestError(server)
    requires !Succeeded(server(DetailsRequest(baseUrl, failed)))
    ensures DetailsOf(server, baseUrl, before + [failed] + after) ==
      DetailsOf(server, baseUrl, before) + DetailsOf(server, baseUrl, after)
    decreases |after|
  {
    var pre := before + [failed];
    if after == [] {
      assert pre + after == pre;
      DetailsNext(server, baseUrl, before, failed);
      FailedChunkEmpty(server, baseUrl, failed);
    } else {
      var init := after[..|after| - 1];
      var last := after[|after| - 1];
      assert after == init + [last];
      AppendAssoc(pre, init, [last]);
      DetailsNext(server, baseUrl, pre + init, last);
      FailedChunkContributesNothing(server, baseUrl, before, failed, init);
      DetailsNext(server, baseUrl, init, last);
      AppendAssoc(DetailsOf(server, baseUrl, before), DetailsOf(server, baseUrl, init), ChunkItems(server, baseUrl, last));
    }
  }

  class ZigbangApiClient {
    /** The base URL and the default parameters are the module constants;
        they are held here so that requests are stated in terms of them. */
    const baseUrl: string
    const defaultParams: map<string, Value>
    const transport: Transport

    constructor (transport: Transport)
      ensures baseUrl == BaseUrl && defaultParams == DefaultParams
      ensures this.transport == transport
    {
      baseUrl := BaseUrl;
      defaultParams := DefaultParams;
      this.transport := transport;
    }

    /** Sends one request and classifies its outcome. */
    method MakeRequest(verb: Verb, url: string, params: Option<map<string, Value>> := None,
                       body: Option<Value> := None) returns (r: Value)
      requires NoOtherRequestError(transport.server)
      modifies transport
      ensures transport.sent == old(transport.sent) + [Request(verb, url, params, body)]
      ensures r == Classify(transport.server(Request(verb, url, params, body)))
    {
      var o := transport.Send(Request(verb, url, params, body));
      match o
      case Completed(status, decoded) =>
        if IsHttpError(status) {
          r := Null;
        } else if status == 204 {
          r := Arr([]);
        } else if decoded.None? {
          r := Null;
        } else {
          r := decoded.value;
        }
      case ConnectionFailed =>
        r := Null;
      case TimedOut =>
        r := Null;
    }

    method GetItemsByGeohash(geohash: string, itemType: string, bbox: BBox) returns (r: Value)
      requires NoOtherRequestError(transport.server)
      modifies transport
      ensures transport.sent == old(transport.sent) + [SearchRequest(baseUrl, defaultParams, geohash, itemType, bbox)]
      ensures r == Classify(transport.server(SearchRequest(baseUrl, defaultParams, geohash, itemType, bbox)))
    {
      var url := baseUrl + "/v2/search";
      var params := defaultParams;
      params := params + map[
        "geohash" := Str(geohash),
        "lat_min" := Num(bbox.latMin),
        "lat_max" := Num(bbox.latMax),
        "lng_min" := Num(bbox.lngMin),
        "lng_max" := Num(bbox.lngMax),
        "serviceType" := Str(itemType)
      ];
      r := MakeRequest(GET, url, Some(params));
    }

    /** The body of the chunking loop: one POST for the chunk, and the
        response's `items` when `data and data.get('items')` holds. */
    method FetchChunk(chunk: seq<Value>) returns (items: seq<Value>)
      requires NoOtherRequestError(transport.server)
      modifies transport
      ensures transport.sent == old(transport.sent) + [DetailsRequest(baseUrl, chunk)]
      ensures items == ChunkItems(transport.server, baseUrl, chunk)
    {
      var url := baseUrl + "/v3/items/list";
      var jsonData := Obj(map["itemIds" := Arr(chunk)]);
      var data := MakeRequest(POST, url, None, Some(jsonData));
      items := [];
      if Truthy(data) && Truthy(Get(data, "items")) {
        items := Elements(Get(data, "items"));
      }
    }

    /** `get_item_details_by_ids`: one POST per chunk of at most 100 ids, in
        order, and the items of the successful responses in that order. An
        empty list of ids sends nothing. */
    method GetItemDetailsByIds(itemIds: seq<Value>) returns (allDetails: seq<Value>)
      requires NoOtherRequestError(transport.server)
      modifies transport
      ensures transport.sent == old(transport.sent) + DetailsRequests(baseUrl, Chunks(itemIds, ChunkSize))
      ensures allDetails == DetailsOf(transport.server, baseUrl, Chunks(itemIds, ChunkSize))
    {
      if itemIds == [] {
        return [];
      }
      var chunkSize := ChunkSize;
      ghost var sent0 := transport.sent;
      ghost var server := transport.server;
      ghost var done: seq<seq<Value>> := [];
      allDetails := [];
      var n := |itemIds|;
      var i := 0;
      while i < n
        invariant Chunks(itemIds, chunkSize) == done + ChunksFrom(itemIds, chunkSize, i)
        invariant transport.sent == sent0 + DetailsRequests(baseUrl, done)
        invariant allDetails == DetailsOf(server, baseUrl, done)
        decreases n - i
      {
        var chunk := itemIds[i..Min(i + chunkSize, n)];
        ChunkStep(itemIds, chunkSize, i, done);
        RequestStep(baseUrl, sent0, done, chunk);
        var items := FetchChunk(chunk);
        allDetails := allDetails + items;
        DetailsNext(server, baseUrl, done, chunk);
        done := done + [chunk];
        i := i + chunkSize;
      }
      assert done + ChunksFrom(itemIds, chunkSize, i) == done;
    }
  }
}
