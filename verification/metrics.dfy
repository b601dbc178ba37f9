/** The room metrics engine: one room per reconstructed face, numbered from 1
    in face order, with its area, carpet area, perimeter, nominal wall lengths
    and bounds, and the sums of area, carpet area and perimeter over all rooms. */
module Metrics {
  import opened Geometry

  /** Default wall thickness, in drawing units. */
  const DefaultWallThickness: real := 0.2

  datatype Room = Room(
    id: nat,
    area: real,
    carpetArea: real,
    perimeter: real,
    longWallLength: real,
    shortWallLength: real,
    bounds: Bounds)

  datatype Totals = Totals(builtUpArea: real, carpetArea: real, perimeter: real) {

    function Plus(other: Totals): Totals {
      Totals(builtUpArea + other.builtUpArea, carpetArea + other.carpetArea, perimeter + other.perimeter)
    }
  }

  const ZeroTotals := Totals(0.0, 0.0, 0.0)

  /** The metrics of one run. The fixed setback advisory note is not modelled. */
  datatype AggregateResult = AggregateResult(
    units: string,
    wallThickness: real,
    rooms: seq<Room>,
    totals: Totals)

  function Max(a: real, b: real): real {
    if a >= b then a else b
  }

  /** The usable floor area of a face: the area of its inward offset when that
      is a non-empty region; when the offset is empty or raised, the area less
      perimeter times wall thickness, but never below zero. */
  function CarpetArea(poly: Polygon, wallThickness: real): (c: real)
    ensures poly.inset.Region? ==> c == poly.inset.regionArea
    ensures !poly.inset.Region? ==>
              && c >= 0.0
              && c >= poly.area - poly.length * wallThickness
              && (c == 0.0 || c == poly.area - poly.length * wallThickness)
  {
    match poly.inset
    case Region(a) => a
    case Collapsed => Max(0.0, poly.area - poly.length * wallThickness)
    case Raised => Max(0.0, poly.area - poly.length * wallThickness)
  }

  /** For a genuine face and a non-negative wall thickness, the carpet area
      lies between zero and the built-up area. */
  lemma CarpetWithinArea(poly: Polygon, wallThickness: real)
    requires poly.Valid() && wallThickness >= 0.0
    ensures 0.0 <= CarpetArea(poly, wallThickness) <= poly.area
  {
  }

  /** In the fallback branch a positive wall thickness strictly shrinks a face
      that has area and perimeter. */
  lemma FallbackCarpetShrinks(poly: Polygon, wallThickness: real)
    requires !poly.inset.Region?
    requires poly.area > 0.0 && poly.length > 0.0 && wallThickness > 0.0
    ensures CarpetArea(poly, wallThickness) < poly.area
  {
  }

  /** `room` is the record the engine makes for `poly` under number `id`. */
  predicate RoomOf(room: Room, id: nat, poly: Polygon, wallThickness: real) {
    && room.id == id
    && room.area == poly.area
    && room.perimeter == poly.length
    && room.carpetArea == CarpetArea(poly, wallThickness)
    && room.longWallLength == 2.0 * poly.bounds.Width()
    && room.shortWallLength == 2.0 * poly.bounds.Height()
    && room.bounds == poly.bounds
  }

  /** The contribution of one room to the totals. */
  function Contribution(room: Room): Totals {
    Totals(room.area, room.carpetArea, room.perimeter)
  }

  /** Reference definition of the totals: the sum, over all rooms, of each
      room's area, carpet area and perimeter. */
  function Total(rooms: seq<Room>): Totals {
    if rooms == [] then ZeroTotals else Contribution(rooms[0]).Plus(Total(rooms[1..]))
  }

  /** The totals of two room lists together are the sums of their totals. */
  lemma {:induction false} TotalAppend(a: seq<Room>, b: seq<Room>)
    ensures Total(a + b) == Total(a).Plus(Total(b))
  {
    if a == [] {
      assert a + b == b;
    } else {
      assert (a + b)[0] == a[0];
      assert (a + b)[1..] == a[1..] + b;
      TotalAppend(a[1..], b);
    }
  }

  /** When every room has a carpet area between zero and its built-up area,
      so do the totals. */
  lemma {:induction false} TotalCarpetWithinBuiltUp(rooms: seq<Room>)
    requires forall i :: 0 <= i < |rooms| ==> 0.0 <= rooms[i].carpetArea <= rooms[i].area
    ensures 0.0 <= Total(rooms).carpetArea <= Total(rooms).builtUpArea
  {
    if rooms != [] {
      TotalCarpetWithinBuiltUp(rooms[1..]);
    }
  }

  /** For faces that are genuine regions and a non-negative wall thickness,
      the engine's carpet-area total never exceeds its built-up total. */
  lemma RoomsCarpetWithinBuiltUp(rooms: seq<Room>, polys: seq<Polygon>, wallThickness: real)
    requires |rooms| == |polys| && wallThickness >= 0.0
    requires forall i :: 0 <= i < |polys| ==> polys[i].Valid()
    requires forall i :: 0 <= i < |polys| ==> RoomOf(rooms[i], i + 1, polys[i], wallThickness)
    ensures 0.0 <= Total(rooms).carpetArea <= Total(rooms).builtUpArea
  {
    forall i | 0 <= i < |rooms|
      ensures 0.0 <= rooms[i].carpetArea <= rooms[i].area
    {
      CarpetWithinArea(polys[i], wallThickness);
    }
    TotalCarpetWithinBuiltUp(rooms);
  }

  /** The engine: walk the faces in order, make room number i+1 from face i,
      and accumulate the three running totals. */
  method ComputeAreasAndWalls(polys: seq<Polygon>, wallThickness: real, units: string)
    returns (res: AggregateResult)
    ensures res.units == units && res.wallThickness == wallThickness
    ensures |res.rooms| == |polys|
    ensures forall i :: 0 <= i < |polys| ==> RoomOf(res.rooms[i], i + 1, polys[i], wallThickness)
    ensures res.totals == Total(res.rooms)
  {
    var rooms: seq<Room> := [];
    var totals := ZeroTotals;
    var k := 0;
    while k < |polys|
      invariant 0 <= k <= |polys|
      invariant |rooms| == k
      invariant forall i :: 0 <= i < k ==> RoomOf(rooms[i], i + 1, polys[i], wallThickness)
      invariant totals == Total(rooms)
    {
      var poly := polys[k];
      var carpet := CarpetArea(poly, wallThickness);
      var room := Room(k + 1, poly.area, carpet, poly.length,
                       2.0 * (poly.bounds.maxx - poly.bounds.minx),
                       2.0 * (poly.bounds.maxy - poly.bounds.miny),
                       poly.bounds);
      TotalAppend(rooms, [room]);
      rooms := rooms + [room];
      totals := totals.Plus(Contribution(room));
      k := k + 1;
    }
    res := AggregateResult(units, wallThickness, rooms, totals);
  }

  /** A closed 10 x 6 rectangle at the origin, whose inset by 0.2 is 9.6 x 5.6,
      becomes room 1 with area 60, perimeter 32, carpet area 53.76 and nominal
      walls of 20 and 12; `RoomOf` fixes every field, so this is the only room
      the engine can make for it. */
  lemma RectangleRoom()
    ensures RoomOf(Room(1, 60.0, 53.76, 32.0, 20.0, 12.0, Bounds(0.0, 0.0, 10.0, 6.0)),
                   1, Polygon(60.0, 32.0, Bounds(0.0, 0.0, 10.0, 6.0), Region(53.76)), DefaultWallThickness)
  {
  }
}
