# Real-estate listing crawlers: collectors, API clients and record normalisers

This project models the core of a crawler for two Korean real-estate listing
services, Dabang and Zigbang.

- The **API clients** send GET and POST requests through an HTTP session and
  turn every failure into `None`:
  - Dabang's client covers HTTP errors, connection errors, timeouts, any other
    request error and undecodable bodies.
  - Zigbang's client covers the same failures except the catch-all request
    error. It also turns a `204 No Content` reply into an empty list.
- The **Dabang collector** pages through the rooms-by-area endpoint. It starts
  at page 1 and stops at the first page that fails or has no rooms, or at the
  100-page ceiling. It returns every room id it saw, each once (ids compared as
  the model compares values; see Left out).
- The **Zigbang collector** turns a bounding box into geohash cells. Today
  that is only the cell at the box's centre, at precision 6. It issues one
  search per cell and returns the union of the `itemIds` of every item group.
- The **Zigbang details client** splits an id list into chunks of 100. It
  POSTs one request per chunk, in order, and concatenates the `items` of the
  replies that succeed.
- The **record normalisers** turn raw records into a table with one row per
  record:
  - Dabang copies one field per column.
  - Zigbang takes a primary field when it is truthy and a fallback field
    otherwise. It builds the address from two parts and joins the image URLs.
  - Both then coerce the deposit, rent, sale price and area columns to
    numbers, with 0 for anything missing or unparseable.

## How the model is built

- **JSON values** are the `Json.Value` datatype (`json.dfy`). The module also
  models Python truthiness, `dict.get`, `a or b` and `str()` of `None`.
- **The upstream service** is an oracle `server: Request -> Outcome`, held by
  an `Http.Transport` object. The transport logs every request it sends in
  its `sent` field.
- **State-changing code is imperative.** The clients and collectors are
  classes whose methods append to that log. Each method states the exact
  requests it sends and ties its result to a specification function of the
  oracle. Those functions are `PagesOf`/`IdsBefore`, `IdsOver` and
  `DetailsOf`.
- **Loops stay loops.** The paging loop, the cell loop, the chunk loop, the
  row loops and the column-coercion loop are all `while`/`for` loops with
  invariants.
- **Loop bodies as helper methods.** A few loop bodies are split out as
  helper methods so each proof stays small: `FetchPage`, `FetchCell`,
  `FetchChunk`, `AddRoomIds`, `AddGroupIds`, `RoomRows` and `ItemRows`. The
  source has these bodies inline.
- **Tables** are `Frames.Frame`: the columns in order, plus one row per
  record. Each row maps a column to its cell. Each normaliser's columns form a
  datatype, and `Header` gives the printed header of each column.

## Model

| member | source | states |
|---|---|---|
| Json.Get | platform_data_processors/dabang/dabang_data_converter.py:23-41 | `d.get(k)`: the field when the object has the key, `None` otherwise |
| Json.Truthy | platform_crawlers/dabang/dabang_collector.py:34 | Python truthiness, as in `if data and …`, `a or b` and `if not raw_items_data`: a value is falsy exactly when it is `None`, `False`, `0`, `""`, `[]` or `{}` |
| Json.HasKey | platform_crawlers/dabang/dabang_collector.py:36 | `'id' in room`: for a dictionary, whether the key is present; never for any other value |
| Json.GetDefault | platform_data_processors/zigbang/zigbang_data_converter.py:30 | `d.get(k, default)`: the field when present, the default otherwise |
| Json.Or | platform_data_processors/zigbang/zigbang_data_converter.py:25 | `a or b` is `a` when `a` is truthy and `b` otherwise; it is truthy exactly when one of them is |
| Json.Elements | platform_crawlers/zigbang/zigbang_collector.py:59-61 | iterating a list yields its elements and iterating a string its one-character strings; a dictionary or any other value yields none (see Left out) |
| Json.NonEmptyField | platform_crawlers/dabang/dabang_collector.py:34 | `data and data.get(key)` holds exactly when both are truthy, and then the loop runs over that field's elements |
| Json.Format | platform_data_processors/zigbang/zigbang_data_converter.py:28 | `str()` in an f-string: a string is itself, `None` is "None" |
| Http.Transport.Send | platform_crawlers/dabang/dabang_api_client.py:24 | one request goes out, is appended to the log, and yields the upstream service's outcome for it |
| Http.IsHttpError | platform_crawlers/dabang/dabang_api_client.py:25 | `raise_for_status()` raises exactly for the 4xx and 5xx status classes |
| Seqs.ToList | platform_crawlers/dabang/dabang_collector.py:46 | `list(set)`: every element of the set exactly once, no other element |
| Seqs.UnionMembership | platform_crawlers/zigbang/zigbang_collector.py:47-61 | an element is in the union of a list of sets exactly when it is in one of them |
| PyText.StripSlice | platform_data_processors/zigbang/zigbang_data_converter.py:28 | `str.strip()` is the slice between leading and trailing whitespace, and only whitespace is cut off |
| PyText.Strip | platform_data_processors/zigbang/zigbang_data_converter.py:28 | `str.strip()`: its properties are the three lemmas below |
| PyText.Join | platform_data_processors/zigbang/zigbang_data_converter.py:62 | `sep.join(parts)`: its properties are `JoinLength` and `JoinSnoc` |
| PyText.StripEnds | platform_data_processors/zigbang/zigbang_data_converter.py:28 | a stripped string is empty or starts and ends with non-whitespace |
| PyText.StripKeeps | platform_data_processors/zigbang/zigbang_data_converter.py:28 | stripping a string without outer whitespace changes nothing |
| PyText.JoinLength | platform_data_processors/zigbang/zigbang_data_converter.py:62 | `sep.join(parts)` has the parts' total length plus one separator between each pair |
| PyText.JoinSnoc | platform_data_processors/zigbang/zigbang_data_converter.py:62 | joining one more part appends the separator and that part |
| Frames.ToNumeric | platform_data_processors/zigbang/zigbang_data_converter.py:67-68 | `to_numeric(errors='coerce').fillna(0)` on one cell: always a number, numbers unchanged, a value that parses becomes the parsed number, missing or unparseable gives 0 |
| Frames.ToNumericIdempotent | platform_data_processors/dabang/dabang_data_converter.py:63-64 | coercing a cell twice equals coercing it once |
| Frames.CoerceRow | platform_data_processors/dabang/dabang_data_converter.py:63-64 | one row after the numeric columns are coerced; its shape is `CoerceRowShape` |
| Frames.CoerceRowShape | platform_data_processors/dabang/dabang_data_converter.py:63-64 | a coerced row keeps its columns, coerces exactly the numeric ones and leaves every other cell unchanged |
| Frames.CoerceColumns | platform_data_processors/zigbang/zigbang_data_converter.py:67-68 | the column loop: same columns and row count, every row coerced in exactly the listed columns |
| Frames.Empty | platform_data_processors/dabang/dabang_data_converter.py:17 | `pd.DataFrame()`: a table with no columns and no rows |
| DabangApi.Classify | platform_crawlers/dabang/dabang_api_client.py:22-37 | a success (no 4xx/5xx, decodable body) gives the decoded body; HTTP, connection, timeout, other request errors and undecodable bodies all give `None` |
| DabangApi.RoomsListParams | platform_crawlers/dabang/dabang_api_client.py:43-57 | the parameters of the rooms-list request: the default payload updated with page, box and zoom; its shape is `RoomsListParamsShape` |
| DabangApi.RoomsListParamsShape | platform_crawlers/dabang/dabang_api_client.py:43-57 | the list parameters are the default payload with page, `ne_*` = max, `sw_*` = min and zoom overridden, and every other default key kept |
| DabangApi.RoomsListRequest | platform_crawlers/dabang/dabang_api_client.py:41-60 | a GET of `{base}/markers/category/one-two` with no body, whose parameters are `RoomsListParams` and carry the requested page |
| DabangApi.RoomDetailsRequest | platform_crawlers/dabang/dabang_api_client.py:66-68 | a GET of `{base}/room/{id}` with no parameters and no body |
| DabangApi.DabangApiClient.constructor | platform_crawlers/dabang/dabang_api_client.py:9-20 | the client holds the configured base URL and default payload |
| DabangApi.DabangApiClient.MakeRequest | platform_crawlers/dabang/dabang_api_client.py:22-37 | exactly one request is sent, and the result is that request's outcome classified |
| DabangApi.DabangApiClient.GetRoomsListByBbox | platform_crawlers/dabang/dabang_api_client.py:40-60 | one GET to the rooms-list URL with the box parameters, page 1 by default |
| DabangApi.DabangApiClient.GetRoomDetails | platform_crawlers/dabang/dabang_api_client.py:62-68 | one GET of the room's URL, result classified |
| DabangCrawl.RoomIdsMembership | platform_crawlers/dabang/dabang_collector.py:35-37 | an id is collected from a page exactly when some room on it has an `id` key equal to it |
| DabangCrawl.RoomIds | platform_crawlers/dabang/dabang_collector.py:35-37 | the ids of the rooms of one page that have an `id` key; characterised by `RoomIdsMembership` |
| DabangCrawl.IdsBefore | platform_crawlers/dabang/dabang_collector.py:21-43 | the ids gathered from the pages before a given page; characterised by `IdsBeforeMembership` |
| DabangCrawl.FirstStop | platform_crawlers/dabang/dabang_collector.py:21-43 | the run from page p stops at the first page with no rooms (or failed), or past the ceiling; every page before it had rooms |
| DabangCrawl.PagesRequested | platform_crawlers/dabang/dabang_collector.py:21 | a run requests between 1 and 100 pages |
| DabangCrawl.IdsBeforeMembership | platform_crawlers/dabang/dabang_collector.py:34-39 | an id is collected exactly when a room with that id is on some page before the stop |
| DabangCrawl.FirstPageEmpty | platform_crawlers/dabang/dabang_collector.py:41-43 | a failed or empty first page means one request and no ids |
| DabangCrawl.StopsAtFirstEmptyPage | platform_crawlers/dabang/dabang_collector.py:34-43 | when pages 1..q-1 have rooms and page q does not, the run requests exactly q pages |
| DabangCrawl.AllPagesFull | platform_crawlers/dabang/dabang_collector.py:21-39 | when every page has rooms, the run requests exactly 100 pages and collects the ids of all of them |
| DabangCrawl.AddRoomIds | platform_crawlers/dabang/dabang_collector.py:35-37 | the room loop adds exactly the page's room ids to the set |
| DabangCrawl.DabangCollector.constructor | platform_crawlers/dabang/dabang_collector.py:9-12 | the collector owns a client over the given transport that holds the configured base URL and default payload |
| DabangCrawl.DabangCollector.FetchPage | platform_crawlers/dabang/dabang_collector.py:25-34 | one turn sends exactly that page's request and yields its rooms when the test passes |
| DabangCrawl.DabangCollector.CollectRoomsDataByArea | platform_crawlers/dabang/dabang_collector.py:15-46 | the requests sent are pages 1..n in order, n as above; the result lists each id of the pages before the stop exactly once |
| DabangCrawl.DabangCollector.CollectRoomDetails | platform_crawlers/dabang/dabang_collector.py:48-60 | the detail stub returns an empty list for any input and sends nothing |
| ZigbangApi.Classify | platform_crawlers/zigbang/zigbang_api_client.py:17-38 | 204 gives an empty list, another success gives the decoded body, HTTP/connection/timeout/decoding failures give `None` |
| ZigbangApi.NoContentIsNotFailure | platform_crawlers/zigbang/zigbang_api_client.py:17-38 | the empty list comes exactly from a 204 or a body that is literally `[]`; a 204 is never `None`; `None` comes exactly from a failure or a body that is literally `null` |
| ZigbangApi.SearchParamsShape | platform_crawlers/zigbang/zigbang_api_client.py:46-54 | the search parameters are the defaults with geohash, the box and `serviceType` overridden, and every other default kept |
| ZigbangApi.SearchParams | platform_crawlers/zigbang/zigbang_api_client.py:46-54 | the search parameters: the defaults updated with geohash, box and `serviceType`; its shape is `SearchParamsShape` |
| ZigbangApi.SearchRequest | platform_crawlers/zigbang/zigbang_api_client.py:42-57 | a GET of `{base}/v2/search` with no body, whose parameters are `SearchParams` and carry the geohash and the item type as `serviceType` |
| ZigbangApi.DetailsRequest | platform_crawlers/zigbang/zigbang_api_client.py:71-78 | a POST of `{base}/v3/items/list` with no parameters, whose JSON body has the single key `itemIds` holding the chunk |
| ZigbangApi.ChunksFrom | platform_crawlers/zigbang/zigbang_api_client.py:68-69 | the slices `ids[i:i+size]` from position i on; proved by `ChunksFromConcat`, `ChunksFromSizes`, `ChunksFromCount` |
| ZigbangApi.Chunks | platform_crawlers/zigbang/zigbang_api_client.py:66-69 | the chunks of 100 the loop visits; characterised by `ChunksConcat`, `ChunksSizes`, `ChunksCount` |
| ZigbangApi.DetailsOf | platform_crawlers/zigbang/zigbang_api_client.py:67-80 | the details gathered from a list of chunks, one reply each; `FailedChunkContributesNothing` is about it |
| ZigbangApi.ChunksConcat | platform_crawlers/zigbang/zigbang_api_client.py:68-69 | the chunks, concatenated, are the id list |
| ZigbangApi.ChunksSizes | platform_crawlers/zigbang/zigbang_api_client.py:66-69 | every chunk has 1 to 100 ids and all but the last have exactly 100 |
| ZigbangApi.ChunksCount | platform_crawlers/zigbang/zigbang_api_client.py:68 | there are ceil(n / 100) chunks; none for an empty list |
| ZigbangApi.ItemsOf | platform_crawlers/zigbang/zigbang_api_client.py:79-80 | a reply that passes `data and data.get('items')` contributes exactly the elements of `data['items']`; any other reply contributes nothing |
| ZigbangApi.DetailsRequestsInOrder | platform_crawlers/zigbang/zigbang_api_client.py:68-78 | one POST per chunk, the j-th carrying `{"itemIds": chunk j}` |
| ZigbangApi.FailedChunkEmpty | platform_crawlers/zigbang/zigbang_api_client.py:78-80 | a chunk whose request fails adds no details |
| ZigbangApi.FailedChunkContributesNothing | platform_crawlers/zigbang/zigbang_api_client.py:68-80 | removing a failed chunk from anywhere in the list leaves the collected details unchanged; the others keep their order |
| ZigbangApi.ZigbangApiClient.constructor | platform_crawlers/zigbang/zigbang_api_client.py:9-15 | the client holds the configured base URL and default parameters |
| ZigbangApi.ZigbangApiClient.MakeRequest | platform_crawlers/zigbang/zigbang_api_client.py:17-38 | exactly one request is sent, and the result is that request's outcome classified |
| ZigbangApi.ZigbangApiClient.GetItemsByGeohash | platform_crawlers/zigbang/zigbang_api_client.py:40-57 | one GET to `/v2/search` with the search parameters |
| ZigbangApi.ZigbangApiClient.FetchChunk | platform_crawlers/zigbang/zigbang_api_client.py:69-80 | one turn sends exactly that chunk's POST and yields its items |
| ZigbangApi.ZigbangApiClient.GetItemDetailsByIds | platform_crawlers/zigbang/zigbang_api_client.py:59-87 | the requests sent are the chunks' POSTs in order, none for no ids; the result is the items of the successful replies, in order |
| ZigbangCrawl.GroupIdsMembership | platform_crawlers/zigbang/zigbang_collector.py:59-61 | an id is collected from a reply exactly when some group with `itemIds` lists it |
| ZigbangCrawl.GroupIds | platform_crawlers/zigbang/zigbang_collector.py:59-61 | the ids of a list of item groups; characterised by `GroupIdsMembership` |
| ZigbangCrawl.StringItemIdsIterateCharacters | platform_crawlers/zigbang/zigbang_collector.py:61 | for every string `s`, a group whose `itemIds` is `s` adds exactly the one-character strings of `s` as ids |
| ZigbangCrawl.StringItemsIterateCharacters | platform_crawlers/zigbang/zigbang_api_client.py:79-80 | for every string `s`, a reply whose `items` is `s` yields the one-character strings of `s` in order as details (none for `""`, which is falsy) |
| ZigbangCrawl.ResponseIds | platform_crawlers/zigbang/zigbang_collector.py:58-61 | a reply that passes the test contributes exactly `GroupIds` of its `items`; a reply that failed or has no truthy `items` contributes no ids |
| ZigbangCrawl.CenterGeohash | platform_crawlers/zigbang/zigbang_collector.py:25-29 | `encode` of the point equidistant from the box's south and north edges and from its west and east edges, at the given precision |
| ZigbangCrawl.IdsOverMembership | platform_crawlers/zigbang/zigbang_collector.py:48-61 | an id is collected exactly when the reply for one of the cells lists it |
| ZigbangCrawl.IdsOver | platform_crawlers/zigbang/zigbang_collector.py:47-64 | the ids gathered from a list of cells; characterised by `IdsOverMembership` |
| ZigbangCrawl.EmptyCellContributesNothing | platform_crawlers/zigbang/zigbang_collector.py:58-64 | a cell whose reply fails or is empty changes nothing |
| ZigbangCrawl.AddGroupIds | platform_crawlers/zigbang/zigbang_collector.py:59-61 | the group loop adds exactly the groups' ids to the set |
| ZigbangCrawl.ZigbangCollector.constructor | platform_crawlers/zigbang/zigbang_collector.py:10-13 | the collector owns a client over the given transport that holds the configured base URL and default parameters |
| ZigbangCrawl.ZigbangCollector.GenerateGeohashesInBbox | platform_crawlers/zigbang/zigbang_collector.py:15-33 | exactly one cell: the geohash of the box's centre at the given precision |
| ZigbangCrawl.ZigbangCollector.FetchCell | platform_crawlers/zigbang/zigbang_collector.py:50-61 | one turn sends exactly that cell's search and adds its ids |
| ZigbangCrawl.ZigbangCollector.CollectItemIdsByArea | platform_crawlers/zigbang/zigbang_collector.py:35-67 | one search per generated cell, in order; the result lists each id of the replies exactly once |
| ZigbangCrawl.ZigbangCollector.CollectItemDetails | platform_crawlers/zigbang/zigbang_collector.py:69-82 | the detail stub returns an empty list for any input and sends nothing |
| DabangConvert.ColumnsDistinct | platform_data_processors/dabang/dabang_data_converter.py:43-58 | the table has 13 columns, none twice |
| DabangConvert.ColumnsComplete | platform_data_processors/dabang/dabang_data_converter.py:43-58 | every column is in the table |
| DabangConvert.Field | platform_data_processors/dabang/dabang_data_converter.py:23-41 | the one raw field each column copies (`id`, `room_type_text`, …, `size_m2`) |
| DabangConvert.RoomRow | platform_data_processors/dabang/dabang_data_converter.py:43-58 | the row of one room before coercion; `RoomRowColumns` gives its columns |
| DabangConvert.Headers | platform_data_processors/dabang/dabang_data_converter.py:43-58 | the printed header row has one header per column |
| DabangConvert.HeadersDistinct | platform_data_processors/dabang/dabang_data_converter.py:43-58 | no two columns share a printed header |
| DabangConvert.RoomRowColumns | platform_data_processors/dabang/dabang_data_converter.py:43-58 | every row has exactly the table's columns, whatever the record lacks |
| DabangConvert.TableRowCells | platform_data_processors/dabang/dabang_data_converter.py:23-64 | numeric columns hold the coerced raw field, every other column the raw field unchanged |
| DabangConvert.RoomRows | platform_data_processors/dabang/dabang_data_converter.py:19-58 | one row per record, in input order |
| DabangConvert.ConvertRawToDataframe | platform_data_processors/dabang/dabang_data_converter.py:11-67 | an empty table for a falsy input; otherwise the fixed columns, one coerced row per record in order |
| ZigbangConvert.AddressText | platform_data_processors/zigbang/zigbang_data_converter.py:28 | the corrected address has no leading or trailing whitespace |
| ZigbangConvert.AddressAsWritten | platform_data_processors/zigbang/zigbang_data_converter.py:28 | the address as the source writes it; like any stripped string it has no outer whitespace |
| ZigbangConvert.AddressBothParts | platform_data_processors/zigbang/zigbang_data_converter.py:28 | with both parts present the corrected address equals the source's |
| ZigbangConvert.AddressOnePart | platform_data_processors/zigbang/zigbang_data_converter.py:28 | with one part present it is that part stripped; with none it is "" |
| ZigbangConvert.AddressAsWrittenShowsNone | platform_data_processors/zigbang/zigbang_data_converter.py:28 | the source's address for ("Seoul", missing) is "Seoul None"; the corrected one is "Seoul" |
| ZigbangConvert.ImageUrlsOf | platform_data_processors/zigbang/zigbang_data_converter.py:46 | the kept URLs are all truthy and no more than the images |
| ZigbangConvert.ImageUrlsAppend | platform_data_processors/zigbang/zigbang_data_converter.py:46 | the filter distributes over concatenation, so image order is kept |
| ZigbangConvert.ImageUrlsSingle | platform_data_processors/zigbang/zigbang_data_converter.py:46 | one image contributes its URL exactly when that URL is truthy |
| ZigbangConvert.ImageCellSnoc | platform_data_processors/zigbang/zigbang_data_converter.py:46-62 | one more image with a URL appends ", " and that URL to an image cell that already holds a URL |
| ZigbangConvert.NoUrls | platform_data_processors/zigbang/zigbang_data_converter.py:46 | images without truthy URLs give no URLs |
| ZigbangConvert.NoImageUrls | platform_data_processors/zigbang/zigbang_data_converter.py:46-62 | an item with no image URL has "" as its image cell |
| ZigbangConvert.FallbackCells | platform_data_processors/zigbang/zigbang_data_converter.py:25-41 | title, room type, floor and area take the primary field when truthy, else the fallback |
| ZigbangConvert.SalesTypeFallbacks | platform_data_processors/zigbang/zigbang_data_converter.py:30-33 | sales type, deposit and rent take `sales_type_info`'s field when truthy, else the item's own |
| ZigbangConvert.NoSalesTypeInfo | platform_data_processors/zigbang/zigbang_data_converter.py:30-33 | without `sales_type_info` those three cells are the item's own fields |
| ZigbangConvert.Cell | platform_data_processors/zigbang/zigbang_data_converter.py:24-46 | the cell of one column for one raw item; `FallbackCells`, `SalesTypeFallbacks`, `NoSalesTypeInfo` and `NoImageUrls` are about it |
| ZigbangConvert.ItemRow | platform_data_processors/zigbang/zigbang_data_converter.py:48-63 | the row of one item before coercion; `ItemRowColumns` gives its columns |
| ZigbangConvert.Headers | platform_data_processors/zigbang/zigbang_data_converter.py:48-63 | the printed header row has one header per column |
| ZigbangConvert.HeadersDistinct | platform_data_processors/zigbang/zigbang_data_converter.py:48-63 | no two columns share a printed header |
| ZigbangConvert.ColumnsDistinct | platform_data_processors/zigbang/zigbang_data_converter.py:48-63 | the table has 14 columns, none twice |
| ZigbangConvert.ColumnsComplete | platform_data_processors/zigbang/zigbang_data_converter.py:48-63 | every column is in the table |
| ZigbangConvert.ItemRowColumns | platform_data_processors/zigbang/zigbang_data_converter.py:48-63 | every row has exactly the table's columns |
| ZigbangConvert.TableRowCells | platform_data_processors/zigbang/zigbang_data_converter.py:24-68 | numeric columns hold the coerced cell, every other column the cell unchanged |
| ZigbangConvert.ItemRows | platform_data_processors/zigbang/zigbang_data_converter.py:20-63 | one row per record, in input order |
| ZigbangConvert.ConvertRawToDataframe | platform_data_processors/zigbang/zigbang_data_converter.py:11-71 | an empty table for a falsy input; otherwise the fixed columns, one coerced row per record in order |

## Left out

- Logging, `time.sleep` between requests, the session's headers and the 10-second timeout. Pacing and log text do not change what a run returns or sends.
- The network. The upstream service is the oracle `server`, and what the session would return is its `Outcome`.
- The geohash library. `encode` is a parameter of `ZigbangCollector`, and the box centre is computed on exact reals.
- Floating point. Coordinates and numbers are `real`s.
- pandas dtypes, the index and NaN as a distinct value. String-to-number parsing (`parse`) and `str()` of non-string values (`render`) are parameters.
- Python crash paths, which end the run with an exception in the source:
  - `.get` on a record that is not a dict;
  - iterating a number, a boolean or `None`;
  - `sales_type_info` or `images` present but `null`;
  - unhashable ids added to a set;
  - a room or item group that is a string or a list and passes `'id' in room` or `'itemIds' in item_group` (a substring or element test, e.g. the room `"valid"`), then fails on the subscript `room['id']`; the model skips such an element, as `HasKey` holds only of dictionaries;
  - `", ".join` over a URL that is not a string.
  The model treats `.get` on a non-object as a missing key and such a value as having no elements, and renders such a URL with `render`.
- Json.Elements: a dictionary where a list is expected is iterated by its keys in insertion order, which the model's objects do not record; the model visits nothing. So a dictionary `itemIds` (zigbang_collector.py:61) adds no ids where the source adds its keys, and a dictionary `items` (zigbang_api_client.py:80) adds no details where the source appends its keys.
- Other `RequestException`s in the Zigbang client. The source does not catch them, so they propagate to the caller. Zigbang members therefore require that the oracle never produces one (`Http.NoOtherRequestError`).
- DabangCrawl.RoomIds: Python's set merges `True` with `1` and `False` with `0` (and `1` with `1.0`, which the model also does), so rooms `[{"id": 1}, {"id": true}]` give one id in the source and two here. The model keeps boolean ids apart from numeric ones; which of two such ids Python keeps depends on insertion order, which the model's sets do not record.
- DabangCrawl.IdsBefore: the same merging of `True`/`1` and `False`/`0` across pages is not modelled (see `DabangCrawl.RoomIds`).
- DabangCrawl.DabangCollector.CollectRoomsDataByArea: "each id once" holds for the model's equality of values, not for Python's, which merges `True`/`1` and `False`/`0` (see `DabangCrawl.RoomIds`).
- ZigbangCrawl.GroupIds: an `itemIds` list holding both `1` and `true` gives one id in the source and two here (see `DabangCrawl.RoomIds`).
- ZigbangCrawl.IdsOver: the same merging across cells is not modelled (see `DabangCrawl.RoomIds`).
- ZigbangCrawl.ZigbangCollector.CollectItemIdsByArea: "each id once" holds for the model's equality of values, not for Python's (see `DabangCrawl.RoomIds`).
- Python's iteration order of a set. `Seqs.ToList`, `list(set)` in both collectors and `_generate_geohashes_in_bbox`, promises only that each element appears once.
- `get_item_details_by_ids(None)`. The id list is a sequence here; `None` behaves as the empty list does in the source.
- Persistence, the dashboard, the entry scripts and the logger set-up. The configuration files appear only as the constants the clients and collectors use.
- ZigbangConvert.Cell: the Address cell is the corrected `AddressText`, not the source's `AddressAsWritten` (see Findings), so an item with only `address1 = "Seoul"` gets "Seoul" where the source writes "Seoul None".
- ZigbangConvert.ConvertRawToDataframe: the address column uses the corrected `AddressText` through `Cell`, `ItemRow` and `TableRow`, not the source's `AddressAsWritten` (see Findings).

## Findings

| source | as written | input that shows it | evidently intended | confidence | as-written member | corrected member |
|---|---|---|---|---|---|---|
| platform_data_processors/zigbang/zigbang_data_converter.py:28 | `f"{address1} {address2}".strip()` whenever either part is truthy, so a missing part is printed as the text "None" | `address1 = "Seoul"`, no `address2`: the address is "Seoul None" (`ZigbangConvert.AddressAsWrittenShowsNone`) | only the parts that are present, joined by a space: "Seoul" | high; not executed | ZigbangConvert.AddressAsWritten | ZigbangConvert.AddressText |
