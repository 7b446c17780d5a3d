/** The Zigbang record normaliser: one flat row per raw item, several
    columns taking a primary field when it is truthy and an alternate field
    otherwise, the address built from two parts, the image URLs joined into
    one cell, then the deposit, rent, sale price and area columns coerced to
    numbers. */
module ZigbangConvert {
  import opened Json
  import opened Seqs
  import opened PyText
  import opened Frames

  /** The columns of the Zigbang table. */
  datatype Column =
    | ItemId | Title | Address | SalesType | Deposit | Rent | SalePrice
    | RoomType | Floor | AreaM2 | Latitude | Longitude | BuildingName | ImageUrls

  /** The column headers as they appear in the table. */
  function Header(c: Column): string {
    match c
    case ItemId => "매물ID"
    case Title => "매물명"
    case Address => "주소"
    case SalesType => "거래유형"
    case Deposit => "보증금(만원)"
    case Rent => "월세(만원)"
    case SalePrice => "매매가(만원)"
    case RoomType => "방유형"
    case Floor => "층수"
    case AreaM2 => "면적(m2)"
    case Latitude => "위도"
    case Longitude => "경도"
    case BuildingName => "건물명"
    case ImageUrls => "이미지_URL"
  }

  /** The columns of the table, in order. */
  const Columns: seq<Column> := [
    ItemId, Title, Address, SalesType, Deposit, Rent, SalePrice,
    RoomType, Floor, AreaM2, Latitude, Longitude, BuildingName, ImageUrls
  ]

  /** The header row the table is printed with, one header per column in
      column order. */
  function Headers(): (hs: seq<string>)
    ensures |hs| == |Columns|
  {
    seq(|Columns|, i requires 0 <= i < |Columns| => Header(Columns[i]))
  }

  /** No two columns are printed under the same header. */
  lemma HeadersDistinct()
    ensures Distinct(Headers())
  {
  }

  /** The columns coerced to numbers. */
  const NumericColumns: seq<Column> := [Deposit, Rent, SalePrice, AreaM2]

  /** The address as the normaliser writes it: `f"{address1} {address2}"`
      stripped when either part is truthy, "" otherwise. A missing part is
      rendered as "None". */
  function AddressAsWritten(address1: Value, address2: Value, render: Value -> string): (r: string)
    ensures r == [] || (!IsSpace(r[0]) && !IsSpace(r[|r| - 1]))
  {
    StripEnds(Format(address1, render) + " " + Format(address2, render));
    if Truthy(address1) || Truthy(address2) then Strip(Format(address1, render) + " " + Format(address2, render)) else ""
  }

  /** The parts of the address that are present (truthy), in order. */
  function AddressParts(address1: Value, address2: Value, render: Value -> string): seq<string> {
    (if Truthy(address1) then [Format(address1, render)] else []) +
    (if Truthy(address2) then [Format(address2, render)] else [])
  }

  /** The address as evidently intended: the present parts joined by one
      space and stripped, "" when neither is present. */
  function AddressText(address1: Value, address2: Value, render: Value -> string): (r: string)
    ensures r == [] || (!IsSpace(r[0]) && !IsSpace(r[|r| - 1]))
  {
    StripEnds(Join(AddressParts(address1, address2, render), " "));
    Strip(Join(AddressParts(address1, address2, render), " "))
  }

  /** When both parts are present the intended address is the one the
      normaliser writes. */
  lemma AddressBothParts(address1: Value, address2: Value, render: Value -> string)
    requires Truthy(address1) && Truthy(address2)
    ensures AddressText(address1, address2, render) == AddressAsWritten(address1, address2, render)
  {
    var parts := AddressParts(address1, address2, render);
    assert parts == [Format(address1, render), Format(address2, render)];
    assert parts[1..] == [Format(address2, render)];
    assert Join(parts, " ") == Format(address1, render) + " " + Format(address2, render);
  }

  /** With one part present the address is that part alone, stripped; with
      none it is empty. */
  lemma AddressOnePart(address1: Value, address2: Value, render: Value -> string)
    ensures Truthy(address1) && !Truthy(address2) ==>
      AddressText(address1, address2, render) == Strip(Format(address1, render))
    ensures !Truthy(address1) && Truthy(address2) ==>
      AddressText(address1, address2, render) == Strip(Format(address2, render))
    ensures !Truthy(address1) && !Truthy(address2) ==>
      AddressText(address1, address2, render) == "" == AddressAsWritten(address1, address2, render)
  {
    var parts := AddressParts(address1, address2, render);
    if !Truthy(address1) && !Truthy(address2) {
      assert parts == [];
    }
  }

  /** The normaliser as written puts "None" into the address of an item that
      has only its first part, where the intended address is that part. */
  lemma AddressAsWrittenShowsNone(render: Value -> string)
    ensures AddressAsWritten(Str("Seoul"), Null, render) == "Seoul None"
    ensures AddressText(Str("Seoul"), Null, render) == "Seoul"
  {
    var s := "Seoul None";
    assert Format(Str("Seoul"), render) + " " + Format(Null, render) == s;
    assert SkipSpace(s, 0) == 0;
    assert s[0..] == s;
    assert SkipSpaceBack(s, |s|) == |s|;
    assert s[..|s|] == s;
    assert AddressParts(Str("Seoul"), Null, render) == ["Seoul"];
    var t := "Seoul";
    assert SkipSpace(t, 0) == 0;
    assert t[0..] == t;
    assert SkipSpaceBack(t, |t|) == |t|;
    assert t[..|t|] == t;
  }

  /** The URLs of the images whose `url` is truthy, in the images' order. */
  function ImageUrlsOf(images: seq<Value>): (urls: seq<Value>)
    ensures |urls| <= |images|
    ensures forall u :: u in urls ==> Truthy(u)
  {
    if images == [] then []
    else (if Truthy(Get(images[0], "url")) then [Get(images[0], "url")] else []) + ImageUrlsOf(images[1..])
  }

  /** The filter works image by image: the URLs of two runs of images are
      those of the first followed by those of the second, so the order is
      kept and nothing is moved across. */
  lemma {:induction false} ImageUrlsAppend(a: seq<Value>, b: seq<Value>)
    ensures ImageUrlsOf(a + b) == ImageUrlsOf(a) + ImageUrlsOf(b)
    decreases |a|
  {
    if a == [] {
      assert a + b == b;
    } else {
      assert (a + b)[0] == a[0];
      assert (a + b)[1..] == a[1..] + b;
      ImageUrlsAppend(a[1..], b);
    }
  }

  /** A single image contributes its `url` exactly when that is truthy. */
  lemma ImageUrlsSingle(image: Value)
    ensures Truthy(Get(image, "url")) ==> ImageUrlsOf([image]) == [Get(image, "url")]
    ensures !Truthy(Get(image, "url")) ==> ImageUrlsOf([image]) == []
  {
    assert [image][1..] == [];
  }

  /** The URLs as the text `", ".join` puts together. */
  function UrlTexts(urls: seq<Value>, render: Value -> string): seq<string> {
    seq(|urls|, i requires 0 <= i < |urls| => Format(urls[i], render))
  }

  /** One more image with a truthy `url` adds ", " and that URL to the end of
      a non-empty image cell: the cell lists the URLs in the images' order. */
  lemma ImageCellSnoc(images: seq<Value>, image: Value, render: Value -> string)
    requires ImageUrlsOf(images) != [] && Truthy(Get(image, "url"))
    ensures Join(UrlTexts(ImageUrlsOf(images + [image]), render), ", ") ==
      Join(UrlTexts(ImageUrlsOf(images), render), ", ") + ", " + Format(Get(image, "url"), render)
  {
    var urls := ImageUrlsOf(images);
    ImageUrlsAppend(images, [image]);
    ImageUrlsSingle(image);
    assert UrlTexts(urls + [Get(image, "url")], render) == UrlTexts(urls, render) + [Format(Get(image, "url"), render)];
    JoinSnoc(UrlTexts(urls, render), ", ", Format(Get(image, "url"), render));
  }

  /** `item.get('sales_type_info', {})`. */
  function SalesTypeInfo(item: Value): Value {
    GetDefault(item, "sales_type_info", Obj(map[]))
  }

  /** The images of an item: `item.get('images', [])`. */
  function Images(item: Value): seq<Value> {
    Elements(GetDefault(item, "images", Arr([])))
  }

  /** The cell of column `c` for one raw item, before coercion. */
  function Cell(item: Value, c: Column, render: Value -> string): Value {
    match c
    case ItemId => Get(item, "item_id")
    case Title => Or(Get(item, "title"), Get(item, "item_title"))
    case Address => Str(AddressText(Get(item, "address1"), Get(item, "address2"), render))
    case SalesType => Or(Get(SalesTypeInfo(item), "sales_type_text"), Get(item, "sales_type"))
    case Deposit => Or(Get(SalesTypeInfo(item), "deposit"), Get(item, "deposit"))
    case Rent => Or(Get(SalesTypeInfo(item), "rent"), Get(item, "rent"))
    case SalePrice => Get(item, "sales_price")
    case RoomType => Or(Get(item, "item_type_summary"), Get(item, "room_type"))
    case Floor => Or(Get(item, "floor_text"), Get(item, "floor"))
    case AreaM2 => Or(Get(item, "space_m2"), Get(item, "size_m2"))
    case Latitude => Get(item, "lat")
    case Longitude => Get(item, "lng")
    case BuildingName => Get(item, "building_name")
    case ImageUrls => Str(Join(UrlTexts(ImageUrlsOf(Images(item)), render), ", "))
  }

  /** `r` is `a or b`: `a` when it is truthy, `b` otherwise, so a falsy
      primary such as 0 or "" falls through as a missing one does. */
  predicate FirstTruthy(r: Value, a: Value, b: Value) {
    (Truthy(a) ==> r == a) && (!Truthy(a) ==> r == b)
  }

  /** The title, room type, floor and area take the primary field when it is
      truthy and the alternate field otherwise. */
  lemma FallbackCells(item: Value, render: Value -> string)
    ensures FirstTruthy(Cell(item, Title, render), Get(item, "title"), Get(item, "item_title"))
    ensures FirstTruthy(Cell(item, RoomType, render), Get(item, "item_type_summary"), Get(item, "room_type"))
    ensures FirstTruthy(Cell(item, Floor, render), Get(item, "floor_text"), Get(item, "floor"))
    ensures FirstTruthy(Cell(item, AreaM2, render), Get(item, "space_m2"), Get(item, "size_m2"))
  {
  }

  /** The sales type, deposit and rent take their primary field from inside
      `sales_type_info` when it is truthy there, and the item's own field
      otherwise. */
  lemma SalesTypeFallbacks(item: Value, render: Value -> string)
    ensures FirstTruthy(Cell(item, SalesType, render), Get(SalesTypeInfo(item), "sales_type_text"), Get(item, "sales_type"))
    ensures FirstTruthy(Cell(item, Deposit, render), Get(SalesTypeInfo(item), "deposit"), Get(item, "deposit"))
    ensures FirstTruthy(Cell(item, Rent, render), Get(SalesTypeInfo(item), "rent"), Get(item, "rent"))
  {
  }

  /** An item without a `sales_type_info` dictionary falls back to its own
      sales type, deposit and rent whenever those are looked up. */
  lemma NoSalesTypeInfo(item: Value, render: Value -> string)
    requires !HasKey(item, "sales_type_info")
    ensures Cell(item, SalesType, render) == Get(item, "sales_type")
    ensures Cell(item, Deposit, render) == Get(item, "deposit")
    ensures Cell(item, Rent, render) == Get(item, "rent")
  {
  }

  /** An item whose images have no truthy `url` gets an empty image cell. */
  lemma NoImageUrls(item: Value, render: Value -> string)
    requires forall i :: 0 <= i < |Images(item)| ==> !Truthy(Get(Images(item)[i], "url"))
    ensures Cell(item, ImageUrls, render) == Str("")
  {
    NoUrls(Images(item));
  }

  lemma {:induction false} NoUrls(images: seq<Value>)
    requires forall i :: 0 <= i < |images| ==> !Truthy(Get(images[i], "url"))
    ensures ImageUrlsOf(images) == []
    decreases |images|
  {
    if images != [] {
      assert forall i :: 0 <= i < |images[1..]| ==> images[1..][i] == images[i + 1];
      NoUrls(images[1..]);
    }
  }

  /** The row built for one raw item, before coercion. */
  function ItemRow(item: Value, render: Value -> string): Row<Column> {
    map c | c in Columns :: Cell(item, c, render)
  }

  /** The table has 14 columns, none of them twice. */
  lemma ColumnsDistinct()
    ensures |Columns| == 14 && Distinct(Columns)
  {
  }

  /** The table lists every column. */
  lemma ColumnsComplete()
    ensures forall c: Column :: c in Columns
  {
    forall c: Column
      ensures c in Columns
    {
      match c
      case ItemId => assert Columns[0] == c;
      case Title => assert Columns[1] == c;
      case Address => assert Columns[2] == c;
      case SalesType => assert Columns[3] == c;
      case Deposit => assert Columns[4] == c;
      case Rent => assert Columns[5] == c;
      case SalePrice => assert Columns[6] == c;
      case RoomType => assert Columns[7] == c;
      case Floor => assert Columns[8] == c;
      case AreaM2 => assert Columns[9] == c;
      case Latitude => assert Columns[10] == c;
      case Longitude => assert Columns[11] == c;
      case BuildingName => assert Columns[12] == c;
      case ImageUrls => assert Columns[13] == c;
    }
  }

  /** Every row, whatever the item, has every column. */
  lemma ItemRowColumns(item: Value, render: Value -> string)
    ensures ItemRow(item, render).Keys == Elems(Columns)
    ensures forall c: Column :: c in ItemRow(item, render)
  {
    ColumnsComplete();
  }

  /** The row of one item in the finished table. */
  function TableRow(item: Value, parse: Value -> Option<real>, render: Value -> string): Row<Column> {
    CoerceRow(ItemRow(item, render), Elems(NumericColumns), parse)
  }

  /** In the finished table, the deposit, rent, sale price and area cells are
      numbers (0 for a missing or unparseable value, after the fallback) and
      every other cell is as extracted. */
  lemma TableRowCells(item: Value, parse: Value -> Option<real>, render: Value -> string)
    ensures forall c: Column :: c in TableRow(item, parse, render)
    ensures forall c :: c in NumericColumns ==> TableRow(item, parse, render)[c] == ToNumeric(Cell(item, c, render), parse)
    ensures forall c :: c !in NumericColumns ==> TableRow(item, parse, render)[c] == Cell(item, c, render)
  {
    ItemRowColumns(item, render);
    CoerceRowShape(ItemRow(item, render), Elems(NumericColumns), parse);
  }

  /** `convert_raw_to_dataframe`: an empty table for a missing or empty
      input; otherwise one row per item, in input order, over the fixed
      columns, with the numeric columns coerced. */
  method ConvertRawToDataframe(rawItemsData: Value, parse: Value -> Option<real>, render: Value -> string)
    returns (df: Frame<Column>)
    ensures !Truthy(rawItemsData) ==> df == Empty()
    ensures Truthy(rawItemsData) ==> df.columns == Columns && |df.rows| == |Elements(rawItemsData)|
    ensures Truthy(rawItemsData) ==>
      forall i :: 0 <= i < |df.rows| ==> df.rows[i] == TableRow(Elements(rawItemsData)[i], parse, render)
  {
    if !Truthy(rawItemsData) {
      return Empty();
    }
    var processedData := ItemRows(Elements(rawItemsData), render);
    df := Frame(Columns, processedData);
    df := CoerceColumns(df, NumericColumns, parse);
  }

  /** The first loop of `convert_raw_to_dataframe`: one row appended per
      item, in order. */
  method ItemRows(items: seq<Value>, render: Value -> string) returns (processedData: seq<Row<Column>>)
    ensures |processedData| == |items|
    ensures forall i :: 0 <= i < |items| ==> processedData[i] == ItemRow(items[i], render)
    ensures forall i :: 0 <= i < |items| ==> Elems(NumericColumns) <= processedData[i].Keys
  {
    processedData := [];
    for i := 0 to |items|
      invariant |processedData| == i
      invariant forall j :: 0 <= j < i ==> processedData[j] == ItemRow(items[j], render)
      invariant forall j :: 0 <= j < i ==> Elems(NumericColumns) <= processedData[j].Keys
    {
      ItemRowColumns(items[i], render);
      processedData := processedData + [ItemRow(items[i], render)];
    }
  }
}
