/** The Dabang API client: a GET against the rooms-by-area endpoint with the
    bounding box mapped onto the north-east and south-west corners, a GET per
    room, and the classification of each request's outcome. */
module DabangApi {
  import opened Json
  import opened Http
  import opened Geo

  const BaseUrl: string := "https://www.dabangapp.com/api/v1"

  /** The module-level default payload every rooms-list request starts from. */
  const DefaultPayload: map<string, Value> := map[
    "version" := Str("9"),
    "region" := Str("서울"),
    "filters" := Obj(map[
      "room_type" := Arr([Str("ONE_ROOM"), Str("TWO_ROOM"), Str("OFFICETEL"), Str("APART")]),
      "sales_type" := Arr([Str("TRADE"), Str("MONTHLY"), Str("JEONSE")]),
      "deposit_range" := Arr([Num(0.0), Num(9999999999.0)]),
      "rent_range" := Arr([Num(0.0), Num(9999999999.0)])
    ])
  ]

  /** The keys a rooms-list request sets on top of the default payload. */
  const ListKeys: set<string> := {"page", "ne_lat", "ne_lng", "sw_lat", "sw_lng", "zoom"}

  /** The request completed with a status `raise_for_status` accepts and a
      body that decodes as JSON. */
  predicate Succeeded(o: Outcome) {
    o.Completed? && !IsHttpError(o.status) && o.decoded.Some?
  }

  /** `_make_request` after the request has been sent: the decoded body on
      success, `None` for an HTTP error status, a connection error, a timeout,
      any other request exception, or a body that is not JSON. There is no
      special case for 204, so an empty body is a decode failure. */
  function Classify(o: Outcome): (r: Value)
    ensures Succeeded(o) ==> r == o.decoded.value
    ensures !Succeeded(o) ==> r == Null
  {
    match o
    case Completed(status, decoded) =>
      if IsHttpError(status) then Null
      else if decoded.None? then Null
      else decoded.value
    case ConnectionFailed => Null
    case TimedOut => Null
    case OtherRequestError => Null
  }

  /** The query parameters of `get_rooms_list_by_bbox`. */
  function RoomsListParams(payload: map<string, Value>, bbox: BBox, zoom: int, page: int): map<string, Value> {
    payload + map[
      "page" := Num(page as real),
      "ne_lat" := Num(bbox.latMax),
      "ne_lng" := Num(bbox.lngMax),
      "sw_lat" := Num(bbox.latMin),
      "sw_lng" := Num(bbox.lngMin),
      "zoom" := Num(zoom as real)
    ]
  }

  /** The parameters are a copy of the default payload with the page, the
      zoom and the bounding box set: the north-east corner is the maximum
      latitude and longitude, the south-west corner the minimum; every other
      key of the payload is carried over unchanged. */
  lemma RoomsListParamsShape(payload: map<string, Value>, bbox: BBox, zoom: int, page: int)
    ensures var p := RoomsListParams(payload, bbox, zoom, page);
      && p.Keys == payload.Keys + ListKeys
      && p["page"] == Num(page as real) && p["zoom"] == Num(zoom as real)
      && p["ne_lat"] == Num(bbox.latMax) && p["ne_lng"] == Num(bbox.lngMax)
      && p["sw_lat"] == Num(bbox.latMin) && p["sw_lng"] == Num(bbox.lngMin)
      && forall k :: k in payload && k !in ListKeys ==> p[k] == payload[k]
  {
  }

  /** The request `get_rooms_list_by_bbox` sends for one page. */
  function RoomsListRequest(baseUrl: string, payload: map<string, Value>, bbox: BBox, zoom: int, page: int): (req: Request)
    ensures req.verb == GET && req.body == None
    ensures req.url == baseUrl + "/markers/category/one-two"
    ensures req.params == Some(RoomsListParams(payload, bbox, zoom, page))
    ensures req.params.value["page"] == Num(page as real)
  {
    Request(GET, baseUrl + "/markers/category/one-two", Some(RoomsListParams(payload, bbox, zoom, page)), None)
  }

  /** `get_room_details` asks for one room by its id, with no parameters and
      no body. */
  function RoomDetailsRequest(baseUrl: string, roomId: string): (req: Request)
    ensures req.verb == GET && req.params == None && req.body == None
    ensures req.url == baseUrl + "/room/" + roomId
  {
    Request(GET, baseUrl + "/room/" + roomId, None, None)
  }

  class DabangApiClient {
    /** The base URL and the default payload are the module constants; they
        are held here so that a run's requests are stated in terms of them. */
    const baseUrl: string
    const defaultPayload: map<string, Value>
    const transport: Transport

    constructor (transport: Transport)
      ensures baseUrl == BaseUrl && defaultPayload == DefaultPayload
      ensures this.transport == transport
    {
      baseUrl := BaseUrl;
      defaultPayload := DefaultPayload;
      this.transport := transport;
    }

    /** Sends one request and classifies its outcome. */
    method MakeRequest(verb: Verb, url: string, params: Option<map<string, Value>> := None,
                       body: Option<Value> := None) returns (r: Value)
      modifies transport
      ensures transport.sent == old(transport.sent) + [Request(verb, url, params, body)]
      ensures r == Classify(transport.server(Request(verb, url, params, body)))
    {
      var o := transport.Send(Request(verb, url, params, body));
      match o
      case Completed(status, decoded) =>
        if IsHttpError(status) {
          r := Null;
        } else if decoded.None? {
          r := Null;
        } else {
          r := decoded.value;
        }
      case ConnectionFailed =>
        r := Null;
      case TimedOut =>
        r := Null;
      case OtherRequestError =>
        r := Null;
    }

    method GetRoomsListByBbox(bbox: BBox, zoom: int, page: int := 1) returns (r: Value)
      modifies transport
      ensures transport.sent == old(transport.sent) + [RoomsListRequest(baseUrl, defaultPayload, bbox, zoom, page)]
      ensures r == Classify(transport.server(RoomsListRequest(baseUrl, defaultPayload, bbox, zoom, page)))
    {
      var url := baseUrl + "/markers/category/one-two";
      var params := defaultPayload;
      params := params + map[
        "page" := Num(page as real),
        "ne_lat" := Num(bbox.latMax),
        "ne_lng" := Num(bbox.lngMax),
        "sw_lat" := Num(bbox.latMin),
        "sw_lng" := Num(bbox.lngMin),
        "zoom" := Num(zoom as real)
      ];
      r := MakeRequest(GET, url, Some(params));
    }

    method GetRoomDetails(roomId: string) returns (r: Value)
      modifies transport
      ensures transport.sent == old(transport.sent) + [RoomDetailsRequest(baseUrl, roomId)]
      ensures r == Classify(transport.server(RoomDetailsRequest(baseUrl, roomId)))
    {
      var url := baseUrl + "/room/" + roomId;
      r := MakeRequest(GET, url);
    }
  }
}
