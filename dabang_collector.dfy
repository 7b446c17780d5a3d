/** The Dabang collector: pages through the rooms-by-area endpoint from page 1
    until a page comes back empty or failed, or the page ceiling is reached,
    and gathers the `id` of every room into a set. */
module DabangCrawl {
  import opened Json
  import opened Http
  import opened Geo
  import opened Seqs
  import opened DabangApi

  /** The page ceiling that keeps a misbehaving upstream from looping forever. */
  const MaxPages: int := 100
  const ZoomLevel: int := 15

  /** What every page request of one run shares: the client's base URL and
      default payload, and the bounding box. */
  datatype Query = Query(baseUrl: string, payload: map<string, Value>, bbox: BBox)

  /** The request for page `page` of a run. */
  function PageRequest(q: Query, page: int): Request {
    RoomsListRequest(q.baseUrl, q.payload, q.bbox, ZoomLevel, page)
  }

  /** What the client returns for page `page` of a run. */
  function PageResponse(server: Request -> Outcome, q: Query, page: int): Value {
    Classify(server(PageRequest(q, page)))
  }

  /** The rooms of a page when the collector goes on (`data and data.get('rooms')`
      holds), `None` when it stops there. */
  function PageRooms(server: Request -> Outcome, q: Query, page: int): Option<seq<Value>> {
    NonEmptyField(PageResponse(server, q, page), "rooms")
  }

  /** The upstream service as the collector sees it: page number to the
      rooms of that page, or `None` where the run stops. */
  type Pages = int -> Option<seq<Value>>

  function PagesOf(server: Request -> Outcome, q: Query): Pages {
    p => PageRooms(server, q, p)
  }

  /** The ids of the rooms in `rooms` that have an `id` key. */
  function RoomIds(rooms: seq<Value>): set<Value>
    decreases |rooms|
  {
    if rooms == [] then {}
    else
      var last := rooms[|rooms| - 1];
      RoomIds(rooms[..|rooms| - 1]) + (if HasKey(last, "id") then {last.fields["id"]} else {})
  }

  lemma RoomIdsPrefix(rooms: seq<Value>, i: int)
    requires 0 <= i < |rooms|
    ensures RoomIds(rooms[..i + 1]) ==
      RoomIds(rooms[..i]) + (if HasKey(rooms[i], "id") then {rooms[i].fields["id"]} else {})
  {
    assert rooms[..i + 1][..i] == rooms[..i];
  }

  /** An id is collected from a list of rooms exactly when some room in it
      has that id under an `id` key. */
  lemma {:induction false} RoomIdsMembership(rooms: seq<Value>, x: Value)
    ensures x in RoomIds(rooms) <==>
      exists i :: 0 <= i < |rooms| && HasKey(rooms[i], "id") && rooms[i].fields["id"] == x
    decreases |rooms|
  {
    if rooms != [] {
      var init := rooms[..|rooms| - 1];
      RoomIdsMembership(init, x);
      if x in RoomIds(init) {
        var i :| 0 <= i < |init| && HasKey(init[i], "id") && init[i].fields["id"] == x;
        assert rooms[i] == init[i];
      }
      if exists i :: 0 <= i < |rooms| && HasKey(rooms[i], "id") && rooms[i].fields["id"] == x {
        var i :| 0 <= i < |rooms| && HasKey(rooms[i], "id") && rooms[i].fields["id"] == x;
        if i < |init| {
          assert init[i] == rooms[i];
        }
      }
    }
  }

  /** The page at which a run that has reached page `p` stops: the first page
      from `p` on whose response is empty or failed, or `MaxPages + 1` when
      every page up to the ceiling has rooms. */
  function FirstStop(pages: Pages, p: int): (q: int)
    requires 1 <= p <= MaxPages + 1
    ensures p <= q <= MaxPages + 1
    ensures forall k :: p <= k < q ==> pages(k).Some?
    ensures q <= MaxPages ==> pages(q).None?
    decreases MaxPages + 1 - p
  {
    if p > MaxPages then p
    else if pages(p).None? then p
    else FirstStop(pages, p + 1)
  }

  /** The number of page requests a run makes: up to and including the
      stopping page, and never more than the ceiling. */
  function PagesRequested(pages: Pages): (n: int)
    ensures 1 <= n <= MaxPages
  {
    var stop := FirstStop(pages, 1);
    if stop <= MaxPages then stop else MaxPages
  }

  /** The requests for pages 1 to `n`, in that order: the `i`-th request of
      a run asks for page `i + 1`, none skipped and none repeated. */
  function PageRequests(q: Query, n: nat): (reqs: seq<Request>) {
    seq(n, i => PageRequest(q, i + 1))
  }

  lemma PageRequestsNext(sent0: seq<Request>, q: Query, n: nat)
    requires n >= 1
    ensures (sent0 + PageRequests(q, n - 1)) + [PageRequest(q, n)] == sent0 + PageRequests(q, n)
  {
    assert PageRequests(q, n - 1) + [PageRequest(q, n)] == PageRequests(q, n);
  }

  lemma PagesOfAt(server: Request -> Outcome, q: Query, p: int)
    ensures PagesOf(server, q)(p) == PageRooms(server, q, p)
  {
  }

  /** The ids gathered from pages 1 to `hi - 1`. */
  function IdsBefore(pages: Pages, hi: int): set<Value>
    decreases hi
  {
    if hi <= 1 then {}
    else IdsBefore(pages, hi - 1) + RoomIds(pages(hi - 1).GetOr([]))
  }

  lemma IdsBeforeNext(pages: Pages, p: int)
    requires p >= 1 && pages(p).Some?
    ensures IdsBefore(pages, p + 1) == IdsBefore(pages, p) + RoomIds(pages(p).value)
  {
  }

  /** An id is gathered from the pages before `hi` exactly when one of those
      pages carries a room with that id. */
  lemma {:induction false} IdsBeforeMembership(pages: Pages, hi: int, x: Value)
    ensures x in IdsBefore(pages, hi) <==>
      exists k :: 1 <= k < hi && x in RoomIds(pages(k).GetOr([]))
    decreases hi
  {
    if hi > 1 {
      IdsBeforeMembership(pages, hi - 1, x);
    }
  }

  /** A page that fails or is empty on the first request ends the run there:
      one request, no ids. */
  lemma FirstPageEmpty(pages: Pages)
    requires pages(1).None?
    ensures PagesRequested(pages) == 1
    ensures IdsBefore(pages, FirstStop(pages, 1)) == {}
  {
  }

  /** The run stops at the first empty or failed page, wherever it is: pages
      before it are all requested, the page itself is requested, and the ids
      are those of the pages before it. */
  lemma StopsAtFirstEmptyPage(pages: Pages, q: int)
    requires 1 <= q <= MaxPages
    requires forall k :: 1 <= k < q ==> pages(k).Some?
    requires pages(q).None?
    ensures FirstStop(pages, 1) == q
    ensures PagesRequested(pages) == q
  {
  }

  /** When every page up to the ceiling has rooms, the run makes exactly
      `MaxPages` requests and keeps the ids of all of them. */
  lemma AllPagesFull(pages: Pages)
    requires forall k :: 1 <= k <= MaxPages ==> pages(k).Some?
    ensures PagesRequested(pages) == MaxPages
    ensures IdsBefore(pages, FirstStop(pages, 1)) == IdsBefore(pages, MaxPages + 1)
  {
  }

  /** The inner loop of the collector: `all_room_ids.add(room['id'])` for
      every room of a page that has an `id` key. */
  method AddRoomIds(ids: set<Value>, rooms: seq<Value>) returns (r: set<Value>)
    ensures r == ids + RoomIds(rooms)
  {
    r := ids;
    for i := 0 to |rooms|
      invariant r == ids + RoomIds(rooms[..i])
    {
      RoomIdsPrefix(rooms, i);
      if HasKey(rooms[i], "id") {
        r := r + {rooms[i].fields["id"]};
      }
    }
    assert rooms[..|rooms|] == rooms;
  }

  class DabangCollector {
    const apiClient: DabangApiClient

    constructor (transport: Transport)
      ensures apiClient.baseUrl == BaseUrl && apiClient.defaultPayload == DefaultPayload
      ensures apiClient.transport == transport
    {
      apiClient := new DabangApiClient(transport);
    }

    /** One turn of the paging loop: request page `page` and apply the test
        `data and data.get('rooms')` to the response. */
    method FetchPage(bbox: BBox, page: int) returns (rooms: Option<seq<Value>>)
      modifies apiClient.transport
      ensures var q := Query(apiClient.baseUrl, apiClient.defaultPayload, bbox);
        apiClient.transport.sent == old(apiClient.transport.sent) + [PageRequest(q, page)]
      ensures rooms == PageRooms(apiClient.transport.server, Query(apiClient.baseUrl, apiClient.defaultPayload, bbox), page)
    {
      var data := apiClient.GetRoomsListByBbox(bbox, ZoomLevel, page);
      if Truthy(data) && Truthy(Get(data, "rooms")) {
        rooms := Some(Elements(Get(data, "rooms")));
      } else {
        rooms := None;
      }
    }

    /** `collect_rooms_data_by_area`: the transport sees the requests for
        pages 1, 2, ... up to the stopping page (or the ceiling) and nothing
        else, and the result lists each id of the pages before the stop once. */
    method CollectRoomsDataByArea(bbox: BBox) returns (roomIds: seq<Value>)
      modifies apiClient.transport
      ensures var q := Query(apiClient.baseUrl, apiClient.defaultPayload, bbox);
        apiClient.transport.sent == old(apiClient.transport.sent) + PageRequests(q, PagesRequested(PagesOf(apiClient.transport.server, q)))
      ensures var pages := PagesOf(apiClient.transport.server, Query(apiClient.baseUrl, apiClient.defaultPayload, bbox));
        Distinct(roomIds) && Elems(roomIds) == IdsBefore(pages, FirstStop(pages, 1))
    {
      ghost var q := Query(apiClient.baseUrl, apiClient.defaultPayload, bbox);
      ghost var server := apiClient.transport.server;
      ghost var pages := PagesOf(server, q);
      ghost var stop := FirstStop(pages, 1);
      ghost var sent0 := apiClient.transport.sent;
      ghost var requested := 0;
      var allRoomIds: set<Value> := {};
      var currentPage := 1;
      while currentPage <= MaxPages
        invariant 1 <= currentPage <= stop && requested == currentPage - 1
        invariant FirstStop(pages, currentPage) == stop
        invariant apiClient.transport.sent == sent0 + PageRequests(q, requested)
        invariant allRoomIds == IdsBefore(pages, currentPage)
      {
        var rooms := FetchPage(bbox, currentPage);
        PagesOfAt(server, q, currentPage);
        PageRequestsNext(sent0, q, currentPage);
        requested := currentPage;
        if rooms.Some? {
          IdsBeforeNext(pages, currentPage);
          allRoomIds := AddRoomIds(allRoomIds, rooms.value);
          currentPage := currentPage + 1;
        } else {
          break;
        }
      }
      assert currentPage == stop;
      assert requested == PagesRequested(pages);
      roomIds := ToList(allRoomIds);
    }

    /** `collect_room_details` is a stub: whatever ids it is given, it returns
        an empty list and requests nothing. */
    method CollectRoomDetails(roomIds: seq<Value>) returns (detailedRooms: seq<Value>)
      ensures detailedRooms == []
    {
      if roomIds == [] {
        return [];
      }
      detailedRooms := [];
    }
  }
}
