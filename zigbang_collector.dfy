/** The Zigbang collector: covers a bounding box with geohash cells (today a
    single cell, the one holding the centre of the box), asks the search
    endpoint once per cell, and merges the `itemIds` of every returned group
    into a set. */
module ZigbangCrawl {
  import opened Json
  import opened Http
  import opened Geo
  import opened Seqs
  import opened ZigbangApi

  /** The geohash precision the collector asks for. */
  const Precision: nat := 6
  const DefaultItemType: string := "villa"

  /** What every search request of one run shares: the client's base URL and
      default parameters, the item type and the bounding box. */
  datatype Query = Query(baseUrl: string, defaults: map<string, Value>, itemType: string, bbox: BBox)

  /** The geohash of the centre of `bbox`; `encode` stands for the geohash
      library's `encode(latitude, longitude, precision)`. */
  function CenterGeohash(encode: (real, real, nat) -> string, bbox: BBox, precision: nat): (g: string)
    ensures forall lat: real, lng: real ::
      lat - bbox.latMin == bbox.latMax - lat && lng - bbox.lngMin == bbox.lngMax - lng ==> g == encode(lat, lng, precision)
  {
    encode((bbox.latMin + bbox.latMax) / 2.0, (bbox.lngMin + bbox.lngMax) / 2.0, precision)
  }

  /** The search request for one geohash cell. */
  function CellRequest(q: Query, geohash: string): Request {
    SearchRequest(q.baseUrl, q.defaults, geohash, q.itemType, q.bbox)
  }

  /** The requests for a list of cells: the `i`-th asks for the `i`-th cell,
      with the run's item type and the bounding box as given. */
  function CellRequests(q: Query, geohashes: seq<string>): (reqs: seq<Request>) {
    seq(|geohashes|, i requires 0 <= i < |geohashes| => CellRequest(q, geohashes[i]))
  }

  lemma CellRequestsNext(sent0: seq<Request>, q: Query, geohashes: seq<string>, i: nat)
    requires i < |geohashes|
    ensures (sent0 + CellRequests(q, geohashes[..i])) + [CellRequest(q, geohashes[i])] ==
      sent0 + CellRequests(q, geohashes[..i + 1])
  {
    assert CellRequests(q, geohashes[..i]) + [CellRequest(q, geohashes[i])] == CellRequests(q, geohashes[..i + 1]);
    AppendAssoc(sent0, CellRequests(q, geohashes[..i]), [CellRequest(q, geohashes[i])]);
  }

  /** What the client returns for one cell. */
  function CellResponse(server: Request -> Outcome, q: Query, geohash: string): Value
    requires NoOtherRequestError(server)
  {
    Classify(server(CellRequest(q, geohash)))
  }

  /** The ids carried by a list of groups: the elements of `itemIds` of every
      group that has that key. */
  function GroupIds(groups: seq<Value>): set<Value>
    decreases |groups|
  {
    if groups == [] then {}
    else
      var last := groups[|groups| - 1];
      GroupIds(groups[..|groups| - 1]) + (if HasKey(last, "itemIds") then Elems(Elements(last.fields["itemIds"])) else {})
  }

  lemma GroupIdsPrefix(groups: seq<Value>, i: int)
    requires 0 <= i < |groups|
    ensures GroupIds(groups[..i + 1]) ==
      GroupIds(groups[..i]) + (if HasKey(groups[i], "itemIds") then Elems(Elements(groups[i].fields["itemIds"])) else {})
  {
    assert groups[..i + 1][..i] == groups[..i];
  }

  /** An id is collected from a list of groups exactly when some group in it
      lists that id under an `itemIds` key; a group without the key adds
      nothing. */
  lemma {:induction false} GroupIdsMembership(groups: seq<Value>, x: Value)
    ensures x in GroupIds(groups) <==>
      exists j :: 0 <= j < |groups| && HasKey(groups[j], "itemIds") && x in Elements(groups[j].fields["itemIds"])
    decreases |groups|
  {
    if groups != [] {
      var init := groups[..|groups| - 1];
      GroupIdsMembership(init, x);
      if x in GroupIds(init) {
        var j :| 0 <= j < |init| && HasKey(init[j], "itemIds") && x in Elements(init[j].fields["itemIds"]);
        assert groups[j] == init[j];
      }
      if exists j :: 0 <= j < |groups| && HasKey(groups[j], "itemIds") && x in Elements(groups[j].fields["itemIds"]) {
        var j :| 0 <= j < |groups| && HasKey(groups[j], "itemIds") && x in Elements(groups[j].fields["itemIds"]);
        if j < |init| {
          assert init[j] == groups[j];
        }
      }
    }
  }

  /** An `itemIds` field that is a string is iterated character by
      character: `update` adds its one-character strings as ids. */
  lemma StringItemIdsIterateCharacters(s: string)
    ensures GroupIds([Obj(map["itemIds" := Str(s)])]) == set i | 0 <= i < |s| :: Str([s[i]])
  {
  }

  /** An `items` field that is a string is iterated character by character:
      `extend` appends its one-character strings as details; the empty string
      is falsy and appends nothing. */
  lemma StringItemsIterateCharacters(s: string)
    ensures ItemsOf(Obj(map["items" := Str(s)])) == seq(|s|, i requires 0 <= i < |s| => Str([s[i]]))
  {
    var d := Obj(map["items" := Str(s)]);
    assert HasKey(d, "items");
  }

  /** The ids one response contributes: those of its groups when the test
      `data and data.get('items')` passes, none otherwise. */
  function ResponseIds(data: Value): (ids: set<Value>)
    ensures NonEmptyField(data, "items").None? ==> ids == {}
    ensures Truthy(data) && Truthy(Get(data, "items")) ==> ids == GroupIds(Elements(data.fields["items"]))
  {
    match NonEmptyField(data, "items")
    case None => {}
    case Some(groups) => GroupIds(groups)
  }

  /** The ids the response for one cell contributes. */
  function CellIds(server: Request -> Outcome, q: Query, geohash: string): set<Value>
    requires NoOtherRequestError(server)
  {
    ResponseIds(CellResponse(server, q, geohash))
  }

  /** The ids each cell of a list contributes, in order. */
  function CellIdSets(server: Request -> Outcome, q: Query, geohashes: seq<string>): seq<set<Value>>
    requires NoOtherRequestError(server)
  {
    seq(|geohashes|, i requires 0 <= i < |geohashes| => CellIds(server, q, geohashes[i]))
  }

  /** The ids gathered from a list of cells, one response each. */
  function IdsOver(server: Request -> Outcome, q: Query, geohashes: seq<string>): set<Value>
    requires NoOtherRequestError(server)
  {
    Union(CellIdSets(server, q, geohashes))
  }

  lemma IdsOverNext(server: Request -> Outcome, q: Query, geohashes: seq<string>, i: nat)
    requires NoOtherRequestError(server)
    requires i < |geohashes|
    ensures IdsOver(server, q, geohashes[..i + 1]) ==
      IdsOver(server, q, geohashes[..i]) + CellIds(server, q, geohashes[i])
  {
    assert CellIdSets(server, q, geohashes[..i + 1]) == CellIdSets(server, q, geohashes[..i]) + [CellIds(server, q, geohashes[i])];
    UnionSnoc(CellIdSets(server, q, geohashes[..i]), CellIds(server, q, geohashes[i]));
  }

  /** An id is gathered exactly when the response for one of the cells
      carries it; a failed or empty response anywhere in the list does not
      keep the cells after it from contributing. */
  lemma IdsOverMembership(server: Request -> Outcome, q: Query, geohashes: seq<string>, x: Value)
    requires NoOtherRequestError(server)
    ensures x in IdsOver(server, q, geohashes) <==>
      exists i :: 0 <= i < |geohashes| && x in CellIds(server, q, geohashes[i])
  {
    var sets := CellIdSets(server, q, geohashes);
    UnionMembership(sets, x);
    if exists i :: 0 <= i < |geohashes| && x in CellIds(server, q, geohashes[i]) {
      var i :| 0 <= i < |geohashes| && x in CellIds(server, q, geohashes[i]);
      assert sets[i] == CellIds(server, q, geohashes[i]);
    }
  }

  /** A cell whose response is `None`, or has no non-empty `items`, adds
      nothing to what the cells before it gathered. */
  lemma EmptyCellContributesNothing(server: Request -> Outcome, q: Query, geohashes: seq<string>, g: string)
    requires NoOtherRequestError(server)
    requires NonEmptyField(CellResponse(server, q, g), "items").None?
    ensures IdsOver(server, q, geohashes + [g]) == IdsOver(server, q, geohashes)
  {
    assert CellIdSets(server, q, geohashes + [g]) == CellIdSets(server, q, geohashes) + [CellIds(server, q, g)];
    UnionSnoc(CellIdSets(server, q, geohashes), CellIds(server, q, g));
  }

  /** `all_item_ids.update(item_group['itemIds'])` for every group of a list
      that has an `itemIds` key. */
  method AddGroupIds(ids: set<Value>, groups: seq<Value>) returns (r: set<Value>)
    ensures r == ids + GroupIds(groups)
  {
    r := ids;
    for j := 0 to |groups|
      invariant r == ids + GroupIds(groups[..j])
    {
      GroupIdsPrefix(groups, j);
      if HasKey(groups[j], "itemIds") {
        r := r + Elems(Elements(groups[j].fields["itemIds"]));
      }
    }
    assert groups[..|groups|] == groups;
  }

  class ZigbangCollector {
    const apiClient: ZigbangApiClient
    /** The geohash library's `encode`. */
    const encode: (real, real, nat) -> string

    constructor (transport: Transport, encode: (real, real, nat) -> string)
      ensures apiClient.baseUrl == BaseUrl && apiClient.defaultParams == DefaultParams
      ensures apiClient.transport == transport && this.encode == encode
    {
      apiClient := new ZigbangApiClient(transport);
      this.encode := encode;
    }

    /** `_generate_geohashes_in_bbox`: a set holding the geohash of the box
        centre, turned into a list, so exactly that one geohash. */
    method GenerateGeohashesInBbox(bbox: BBox, precision: nat := 6) returns (geohashes: seq<string>)
      ensures geohashes == [CenterGeohash(encode, bbox, precision)]
    {
      var cells: set<string> := {};
      var centerLat := (bbox.latMin + bbox.latMax) / 2.0;
      var centerLng := (bbox.lngMin + bbox.lngMax) / 2.0;
      var geohash := encode(centerLat, centerLng, precision);
      cells := cells + {geohash};
      geohashes := ToList(cells);
      assert geohashes[0] in Elems(geohashes);
    }

    /** One turn of the cell loop: the search request for the cell, and the
        ids of its response merged into `ids`. */
    method FetchCell(ids: set<Value>, geohash: string, itemType: string, bbox: BBox) returns (r: set<Value>)
      requires NoOtherRequestError(apiClient.transport.server)
      modifies apiClient.transport
      ensures var q := Query(apiClient.baseUrl, apiClient.defaultParams, itemType, bbox);
        apiClient.transport.sent == old(apiClient.transport.sent) + [CellRequest(q, geohash)]
      ensures r == ids + CellIds(apiClient.transport.server, Query(apiClient.baseUrl, apiClient.defaultParams, itemType, bbox), geohash)
    {
      var data := apiClient.GetItemsByGeohash(geohash, itemType, bbox);
      r := ids;
      if Truthy(data) && Truthy(Get(data, "items")) {
        r := AddGroupIds(r, Elements(Get(data, "items")));
      }
    }

    /** `collect_item_ids_by_area`: exactly one search request per generated
        cell, in order, each with the item type and the bounding box as
        given; the result lists each id gathered from the responses once. */
    method CollectItemIdsByArea(bbox: BBox, itemType: string := DefaultItemType) returns (itemIds: seq<Value>)
      requires NoOtherRequestError(apiClient.transport.server)
      modifies apiClient.transport
      ensures var q := Query(apiClient.baseUrl, apiClient.defaultParams, itemType, bbox);
        apiClient.transport.sent == old(apiClient.transport.sent) + CellRequests(q, [CenterGeohash(encode, bbox, Precision)])
      ensures var q := Query(apiClient.baseUrl, apiClient.defaultParams, itemType, bbox);
        Distinct(itemIds) && Elems(itemIds) == IdsOver(apiClient.transport.server, q, [CenterGeohash(encode, bbox, Precision)])
    {
      ghost var q := Query(apiClient.baseUrl, apiClient.defaultParams, itemType, bbox);
      ghost var server := apiClient.transport.server;
      ghost var sent0 := apiClient.transport.sent;
      var geohashesToCrawl := GenerateGeohashesInBbox(bbox, Precision);
      var allItemIds: set<Value> := {};
      for i := 0 to |geohashesToCrawl|
        invariant apiClient.transport.sent == sent0 + CellRequests(q, geohashesToCrawl[..i])
        invariant allItemIds == IdsOver(server, q, geohashesToCrawl[..i])
      {
        CellRequestsNext(sent0, q, geohashesToCrawl, i);
        IdsOverNext(server, q, geohashesToCrawl, i);
        allItemIds := FetchCell(allItemIds, geohashesToCrawl[i], itemType, bbox);
      }
      assert geohashesToCrawl[..|geohashesToCrawl|] == geohashesToCrawl;
      itemIds := ToList(allItemIds);
    }

    /** `collect_item_details` is a stub: whatever ids it is given, it
        returns an empty list and requests nothing. */
    method CollectItemDetails(itemIds: seq<Value>) returns (detailedItems: seq<Value>)
      ensures detailedItems == []
    {
      if itemIds == [] {
        return [];
      }
      detailedItems := [];
    }
  }
}
