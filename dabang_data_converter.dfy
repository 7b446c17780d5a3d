/** The Dabang record normaliser: one flat row per raw room, each column a
    straight copy of one raw field, then the deposit, rent, sale price and
    area columns coerced to numbers. */
module DabangConvert {
  import opened Json
  import opened Seqs
  import opened Frames

  /** The columns of the Dabang table. */
  datatype Column =
    | RoomId | RoomType | BuildingType | DealType | Deposit | Rent | SalePrice
    | RoadAddress | LotAddress | Latitude | Longitude | FloorText | AreaM2

  /** The column headers as they appear in the table. */
  function Header(c: Column): string {
    match c
    case RoomId => "매물ID"
    case RoomType => "방유형"
    case BuildingType => "건물유형"
    case DealType => "거래유형"
    case Deposit => "보증금(만원)"
    case Rent => "월세(만원)"
    case SalePrice => "매매가(만원)"
    case RoadAddress => "도로명주소"
    case LotAddress => "지번주소"
    case Latitude => "위도"
    case Longitude => "경도"
    case FloorText => "층수"
    case AreaM2 => "면적(m2)"
  }

  /** The raw field each column copies. */
  function Field(c: Column): string {
    match c
    case RoomId => "id"
    case RoomType => "room_type_text"
    case BuildingType => "building_type"
    case DealType => "dealType"
    case Deposit => "deposit"
    case Rent => "rent"
    case SalePrice => "price"
    case RoadAddress => "address_road"
    case LotAddress => "address_jibun"
    case Latitude => "lat"
    case Longitude => "lng"
    case FloorText => "floor_string"
    case AreaM2 => "size_m2"
  }

  /** The columns of the table, in order. */
  const Columns: seq<Column> := [
    RoomId, RoomType, BuildingType, DealType, Deposit, Rent, SalePrice,
    RoadAddress, LotAddress, Latitude, Longitude, FloorText, AreaM2
  ]

  /** The header row the table is printed with, one header per column in
      column order. */
  function Headers(): (hs: seq<string>)
    ensures |hs| == |Columns|
  {
    seq(|Columns|, i requires 0 <= i < |Columns| => Header(Columns[i]))
  }

  /** No two columns are printed under the same header. */
  lemma HeadersDistinct()
    ensures Distinct(Headers())
  {
  }

  /** The columns coerced to numbers. */
  const NumericColumns: seq<Column> := [Deposit, Rent, SalePrice, AreaM2]

  /** The row built for one raw room, before coercion: each column holds the
      one raw field it copies, with no fallback to another field. */
  function RoomRow(room: Value): Row<Column> {
    map c | c in Columns :: Get(room, Field(c))
  }

  /** The table has 13 columns, none of them twice. */
  lemma ColumnsDistinct()
    ensures |Columns| == 13 && Distinct(Columns)
  {
  }

  /** The table lists every column. */
  lemma ColumnsComplete()
    ensures forall c: Column :: c in Columns
  {
    forall c: Column
      ensures c in Columns
    {
      match c
      case RoomId => assert Columns[0] == c;
      case RoomType => assert Columns[1] == c;
      case BuildingType => assert Columns[2] == c;
      case DealType => assert Columns[3] == c;
      case Deposit => assert Columns[4] == c;
      case Rent => assert Columns[5] == c;
      case SalePrice => assert Columns[6] == c;
      case RoadAddress => assert Columns[7] == c;
      case LotAddress => assert Columns[8] == c;
      case Latitude => assert Columns[9] == c;
      case Longitude => assert Columns[10] == c;
      case FloorText => assert Columns[11] == c;
      case AreaM2 => assert Columns[12] == c;
    }
  }

  /** Every row, whatever the room, has every column. */
  lemma RoomRowColumns(room: Value)
    ensures RoomRow(room).Keys == Elems(Columns)
    ensures forall c: Column :: c in RoomRow(room)
  {
    ColumnsComplete();
  }

  /** The row of one room in the finished table. */
  function TableRow(room: Value, parse: Value -> Option<real>): Row<Column> {
    CoerceRow(RoomRow(room), Elems(NumericColumns), parse)
  }

  /** In the finished table, the deposit, rent, sale price and area cells are
      numbers (0 for a missing or unparseable field) and every other cell is
      the raw field unchanged. */
  lemma TableRowCells(room: Value, parse: Value -> Option<real>)
    ensures forall c: Column :: c in TableRow(room, parse)
    ensures forall c :: c in NumericColumns ==> TableRow(room, parse)[c] == ToNumeric(Get(room, Field(c)), parse)
    ensures forall c :: c !in NumericColumns ==> TableRow(room, parse)[c] == Get(room, Field(c))
  {
    RoomRowColumns(room);
    CoerceRowShape(RoomRow(room), Elems(NumericColumns), parse);
  }

  /** `convert_raw_to_dataframe`: an empty table for a missing or empty
      input; otherwise one row per room, in input order, over the fixed
      columns, with the numeric columns coerced. */
  method ConvertRawToDataframe(rawRoomsData: Value, parse: Value -> Option<real>) returns (df: Frame<Column>)
    ensures !Truthy(rawRoomsData) ==> df == Empty()
    ensures Truthy(rawRoomsData) ==> df.columns == Columns && |df.rows| == |Elements(rawRoomsData)|
    ensures Truthy(rawRoomsData) ==>
      forall i :: 0 <= i < |df.rows| ==> df.rows[i] == TableRow(Elements(rawRoomsData)[i], parse)
  {
    if !Truthy(rawRoomsData) {
      return Empty();
    }
    var processedData := RoomRows(Elements(rawRoomsData));
    df := Frame(Columns, processedData);
    df := CoerceColumns(df, NumericColumns, parse);
  }

  /** The first loop of `convert_raw_to_dataframe`: one row appended per
      room, in order. */
  method RoomRows(rooms: seq<Value>) returns (processedData: seq<Row<Column>>)
    ensures |processedData| == |rooms|
    ensures forall i :: 0 <= i < |rooms| ==> processedData[i] == RoomRow(rooms[i])
    ensures forall i :: 0 <= i < |rooms| ==> Elems(NumericColumns) <= processedData[i].Keys
  {
    processedData := [];
    for i := 0 to |rooms|
      invariant |processedData| == i
      invariant forall j :: 0 <= j < i ==> processedData[j] == RoomRow(rooms[j])
      invariant forall j :: 0 <= j < i ==> Elems(NumericColumns) <= processedData[j].Keys
    {
      RoomRowColumns(rooms[i]);
      processedData := processedData + [RoomRow(rooms[i])];
    }
  }
}
