/**
 * `generateRooms`: splits the generator's total area, scaled by a factor, into an ordered list
 * of rooms laid out on a grid. Every call of `rand.Float64()` is read from `draws`, a
 * caller-supplied stream of values in [0, 1) consumed front to back.
 */
module Layout {
  import opened Models
  import Decimal
  import Rescale

  const MinRoomArea: real := 8.0

  const BathroomName: string := "Ванная"
  const KitchenName: string := "Кухня"
  const HallwayName: string := "Коридор"
  const LivingRoomName: string := "Гостиная"

  /** `fmt.Sprintf("Спальня %d", i)` */
  function BedroomName(i: nat): string {
    "Спальня " + Decimal.NatToString(i)
  }

  /** What `rand.Float64()` returns. */
  predicate IsDraw(d: real) {
    0.0 <= d < 1.0
  }

  predicate ValidDraws(draws: seq<real>) {
    forall i :: 0 <= i < |draws| ==> IsDraw(draws[i])
  }

  /** The living room plus the bedrooms: `Rooms - 2`, and 1 when that is not positive. */
  function LivingRoomsCount(rooms: int): (n: nat)
    ensures 1 <= n
    ensures rooms >= 3 ==> n == rooms - 2
    ensures rooms <= 3 ==> n == 1
  {
    if rooms - 2 <= 0 then 1 else rooms - 2
  }

  /** Three draws for each fixed room, two for the living room and for each bedroom. */
  function DrawsNeeded(rooms: int): nat {
    3 * 3 + 2 * LivingRoomsCount(rooms)
  }

  /** A stream of draws long enough for one call of `generateRooms`. */
  predicate EnoughDraws(g: FloorPlanGenerator, draws: seq<real>) {
    ValidDraws(draws) && |draws| >= DrawsNeeded(g.rooms)
  }

  // The rooms one by one, as functions of the draws they read.

  function Bathroom(draws: seq<real>): Room
    requires ValidDraws(draws) && |draws| >= 3
  {
    var area := MinRoomArea + draws[0] * 4.0;
    Room(BathroomName, area, 2.0 + draws[1], area / (2.0 + draws[2]), 0.0, 0.0)
  }

  function Kitchen(draws: seq<real>, bathroom: Room): Room
    requires ValidDraws(draws) && |draws| >= 6
  {
    var area := MinRoomArea + draws[3] * 8.0;
    Room(KitchenName, area, 3.0 + draws[4] * 2.0, area / (3.0 + draws[5] * 2.0), bathroom.width, 0.0)
  }

  function Hallway(draws: seq<real>, bathroom: Room, kitchen: Room): Room
    requires ValidDraws(draws) && |draws| >= 9
  {
    var area := MinRoomArea + draws[6] * 4.0;
    Room(HallwayName, area, 2.0 + draws[7], area / (2.0 + draws[8]), bathroom.width + kitchen.width, 0.0)
  }

  /** What is left of the scaled total after the three fixed rooms, shared among the living rooms. */
  function AreaPerRoom(g: FloorPlanGenerator, factor: real, bathroom: Room, kitchen: Room, hallway: Room): real {
    (g.totalArea * factor - bathroom.area - kitchen.area - hallway.area) / LivingRoomsCount(g.rooms) as real
  }

  function LivingRoom(draws: seq<real>, perRoom: real, bathroom: Room): Room
    requires ValidDraws(draws) && |draws| >= 11
  {
    var area := perRoom * 1.5;
    Room(LivingRoomName, area, 4.0 + draws[9] * 2.0, area / (4.0 + draws[10] * 2.0), 0.0, bathroom.height + 1.0)
  }

  /** Bedroom `i` (from 1) reads draws 9 + 2i and 10 + 2i and sits in a two-column grid. */
  function Bedroom(draws: seq<real>, perRoom: real, bathroom: Room, livingRoom: Room, i: nat): Room
    requires ValidDraws(draws) && 1 <= i && 10 + 2 * i < |draws|
  {
    Room(BedroomName(i), perRoom, 3.5 + draws[9 + 2 * i] * 1.5, perRoom / (3.5 + draws[10 + 2 * i] * 1.5),
         livingRoom.width * (i % 2) as real,
         bathroom.height + livingRoom.height + (i / 2) as real * 3.0)
  }

  /** Bedrooms 1 to n. */
  function Bedrooms(draws: seq<real>, perRoom: real, bathroom: Room, livingRoom: Room, n: nat): (s: seq<Room>)
    requires ValidDraws(draws) && 10 + 2 * n < |draws|
    ensures |s| == n
  {
    seq(n, k requires 0 <= k < n => Bedroom(draws, perRoom, bathroom, livingRoom, k + 1))
  }

  /** The room list `generateRooms(factor)` returns. */
  function Layout(g: FloorPlanGenerator, factor: real, draws: seq<real>): (rooms: seq<Room>)
    requires EnoughDraws(g, draws)
    ensures |rooms| == 3 + LivingRoomsCount(g.rooms)
  {
    var bathroom := Bathroom(draws);
    var kitchen := Kitchen(draws, bathroom);
    var hallway := Hallway(draws, bathroom, kitchen);
    var perRoom := AreaPerRoom(g, factor, bathroom, kitchen, hallway);
    var livingRoom := LivingRoom(draws, perRoom, bathroom);
    [bathroom, kitchen, hallway, livingRoom] + Bedrooms(draws, perRoom, bathroom, livingRoom, LivingRoomsCount(g.rooms) - 1)
  }

  lemma BedroomsSnoc(draws: seq<real>, perRoom: real, bathroom: Room, livingRoom: Room, n: nat)
    requires ValidDraws(draws) && 12 + 2 * n < |draws|
    ensures Bedrooms(draws, perRoom, bathroom, livingRoom, n + 1)
         == Bedrooms(draws, perRoom, bathroom, livingRoom, n) + [Bedroom(draws, perRoom, bathroom, livingRoom, n + 1)]
  {
  }

  /**
   * Builds the rooms by successive appends, spending the remaining area on the three fixed rooms
   * and filling the bedrooms in a loop. Returns the rooms and the draws it did not consume.
   */
  method GenerateRooms(g: FloorPlanGenerator, factor: real, draws: seq<real>) returns (rooms: seq<Room>, rest: seq<real>)
    requires EnoughDraws(g, draws)
    ensures rooms == Layout(g, factor, draws)
    ensures rest == draws[DrawsNeeded(g.rooms)..]
  {
    var next := 0;  // draws handed out so far
    rooms := [];
    var remainingArea := g.totalArea * factor;

    var bathroomArea := MinRoomArea + draws[next] * 4.0;
    var bathroom := Room(BathroomName, bathroomArea, 2.0 + draws[next + 1], bathroomArea / (2.0 + draws[next + 2]), 0.0, 0.0);
    assert bathroom == Bathroom(draws);
    next := next + 3;
    rooms := rooms + [bathroom];
    remainingArea := remainingArea - bathroomArea;

    var kitchenArea := MinRoomArea + draws[next] * 8.0;
    var kitchen := Room(KitchenName, kitchenArea, 3.0 + draws[next + 1] * 2.0, kitchenArea / (3.0 + draws[next + 2] * 2.0),
                        bathroom.width, 0.0);
    assert kitchen == Kitchen(draws, bathroom);
    next := next + 3;
    rooms := rooms + [kitchen];
    remainingArea := remainingArea - kitchenArea;

    var hallwayArea := MinRoomArea + draws[next] * 4.0;
    var hallway := Room(HallwayName, hallwayArea, 2.0 + draws[next + 1], hallwayArea / (2.0 + draws[next + 2]),
                        bathroom.width + kitchen.width, 0.0);
    assert hallway == Hallway(draws, bathroom, kitchen);
    next := next + 3;
    rooms := rooms + [hallway];
    remainingArea := remainingArea - hallwayArea;

    var livingRoomsCount := g.rooms - 2;
    if livingRoomsCount <= 0 {
      livingRoomsCount := 1;
    }

    var areaPerRoom := remainingArea / livingRoomsCount as real;
    assert areaPerRoom == AreaPerRoom(g, factor, bathroom, kitchen, hallway);

    var livingRoomArea := areaPerRoom * 1.5;
    var livingRoom := Room(LivingRoomName, livingRoomArea, 4.0 + draws[next] * 2.0, livingRoomArea / (4.0 + draws[next + 1] * 2.0),
                           0.0, bathroom.height + 1.0);
    assert livingRoom == LivingRoom(draws, areaPerRoom, bathroom);
    next := next + 2;
    rooms := rooms + [livingRoom];

    var i := 1;
    while i < livingRoomsCount
      invariant 1 <= i <= livingRoomsCount
      invariant next == 9 + 2 * i
      invariant rooms == [bathroom, kitchen, hallway, livingRoom] + Bedrooms(draws, areaPerRoom, bathroom, livingRoom, i - 1)
    {
      var bedroomArea := areaPerRoom;
      var bedroomName := "Спальня " + Decimal.NatToString(i);
      var bedroom := Room(bedroomName, bedroomArea, 3.5 + draws[next] * 1.5, bedroomArea / (3.5 + draws[next + 1] * 1.5),
                          livingRoom.width * (i % 2) as real,
                          bathroom.height + livingRoom.height + (i / 2) as real * 3.0);
      assert bedroom == Bedroom(draws, areaPerRoom, bathroom, livingRoom, i);
      next := next + 2;
      BedroomsSnoc(draws, areaPerRoom, bathroom, livingRoom, i - 1);
      rooms := rooms + [bedroom];
      i := i + 1;
    }
    rest := draws[next..];
  }

  // Properties of the layout.

  /** Bathroom, kitchen, hallway, living room, then bedrooms 1 to L - 1, L the living-rooms count. */
  lemma RoomOrder(g: FloorPlanGenerator, factor: real, draws: seq<real>)
    requires EnoughDraws(g, draws)
    ensures var rooms := Layout(g, factor, draws);
      && |rooms| == 3 + LivingRoomsCount(g.rooms)
      && rooms[0].name == BathroomName
      && rooms[1].name == KitchenName
      && rooms[2].name == HallwayName
      && rooms[3].name == LivingRoomName
      && forall i :: 1 <= i < LivingRoomsCount(g.rooms) ==> rooms[3 + i].name == BedroomName(i)
  {
  }

  /** The room count for each accepted room request: 4 for 1 to 3 rooms, 5 for 4, 6 for 5. */
  lemma RoomCountByRequest(g: FloorPlanGenerator, factor: real, draws: seq<real>)
    requires EnoughDraws(g, draws) && 1 <= g.rooms <= 5
    ensures |Layout(g, factor, draws)| == if g.rooms <= 3 then 4 else g.rooms + 1
  {
  }

  lemma BedroomNamesDiffer(i: nat, j: nat)
    requires i != j
    ensures BedroomName(i) != BedroomName(j)
  {
    var prefix := "Спальня ";
    if BedroomName(i) == BedroomName(j) {
      assert BedroomName(i)[|prefix|..] == Decimal.NatToString(i);
      assert BedroomName(j)[|prefix|..] == Decimal.NatToString(j);
      Decimal.NatToStringInjective(i, j);
    }
  }

  /** No two rooms of a layout share a name. */
  lemma RoomNamesDistinct(g: FloorPlanGenerator, factor: real, draws: seq<real>)
    requires EnoughDraws(g, draws)
    ensures var rooms := Layout(g, factor, draws);
      forall i, j :: 0 <= i < j < |rooms| ==> rooms[i].name != rooms[j].name
  {
    var rooms := Layout(g, factor, draws);
    RoomOrder(g, factor, draws);
    forall i, j | 0 <= i < j < |rooms| ensures rooms[i].name != rooms[j].name {
      if i >= 4 {
        BedroomNamesDiffer(i - 3, j - 3);
      } else if j >= 4 {
        // a bedroom name starts with 'С', no fixed room's name does
        assert rooms[j].name[0] == 'С';
        assert rooms[i].name[0] != 'С';
      }
    }
  }

  /** a / b lies between the quotients of the bounds of a and b. */
  lemma QuotientBounds(a: real, b: real, aLo: real, aHi: real, bLo: real, bHi: real)
    requires 0.0 < aLo <= a < aHi && 0.0 < bLo <= b < bHi
    ensures aLo / bHi < a / b < aHi / bLo
  {
    var q := a / b;
    assert q * b == a;
    assert q > 0.0;
    assert q * bHi > q * b >= aLo;
    assert aLo / bHi < q by {
      assert (aLo / bHi) * bHi == aLo;
    }
    assert q * bLo <= q * b < aHi;
    assert q < aHi / bLo by {
      assert (aHi / bLo) * bLo == aHi;
    }
  }

  /**
   * The fixed rooms: bathroom and hallway areas in [8, 12) and widths in [2, 3), kitchen area in
   * [8, 16) and width in [3, 5). Each height is the area over a value from the width's range.
   */
  lemma FixedRoomRanges(g: FloorPlanGenerator, factor: real, draws: seq<real>)
    requires EnoughDraws(g, draws)
    ensures var rooms := Layout(g, factor, draws);
      && 8.0 <= rooms[0].area < 12.0 && 2.0 <= rooms[0].width < 3.0 && 8.0 / 3.0 < rooms[0].height < 6.0
      && 8.0 <= rooms[1].area < 16.0 && 3.0 <= rooms[1].width < 5.0 && 8.0 / 5.0 < rooms[1].height < 16.0 / 3.0
      && 8.0 <= rooms[2].area < 12.0 && 2.0 <= rooms[2].width < 3.0 && 8.0 / 3.0 < rooms[2].height < 6.0
  {
    var rooms := Layout(g, factor, draws);
    assert IsDraw(draws[0]) && IsDraw(draws[2]) && IsDraw(draws[3]) && IsDraw(draws[5]) && IsDraw(draws[6]) && IsDraw(draws[8]);
    QuotientBounds(rooms[0].area, 2.0 + draws[2], 8.0, 12.0, 2.0, 3.0);
    QuotientBounds(rooms[1].area, 3.0 + draws[5] * 2.0, 8.0, 16.0, 3.0, 5.0);
    QuotientBounds(rooms[2].area, 2.0 + draws[8], 8.0, 12.0, 2.0, 3.0);
  }

  /** The fixed rooms depend on the draws alone, not on the total area, the room count or the factor. */
  lemma FixedRoomsIgnoreBudget(g: FloorPlanGenerator, factor: real, h: FloorPlanGenerator, factor': real, draws: seq<real>)
    requires EnoughDraws(g, draws) && EnoughDraws(h, draws)
    ensures Layout(g, factor, draws)[..3] == Layout(h, factor', draws)[..3]
  {
  }

  /** First row: the bathroom at the origin, the kitchen and the hallway to its right, all at y = 0. */
  lemma FirstRowPlacement(g: FloorPlanGenerator, factor: real, draws: seq<real>)
    requires EnoughDraws(g, draws)
    ensures var rooms := Layout(g, factor, draws);
      && rooms[0].x == 0.0 && rooms[0].y == 0.0
      && rooms[1].x == rooms[0].width && rooms[1].y == 0.0
      && rooms[2].x == rooms[0].width + rooms[1].width && rooms[2].y == 0.0
  {
  }

  /**
   * Every bedroom gets one share of what the fixed rooms leave of the scaled total, and the
   * living room one and a half shares.
   */
  lemma SharedAreas(g: FloorPlanGenerator, factor: real, draws: seq<real>)
    requires EnoughDraws(g, draws)
    ensures var rooms := Layout(g, factor, draws);
      var share := (g.totalArea * factor - rooms[0].area - rooms[1].area - rooms[2].area) / LivingRoomsCount(g.rooms) as real;
      && rooms[3].area == 1.5 * share
      && forall i :: 4 <= i < |rooms| ==> rooms[i].area == share
  {
    var rooms := Layout(g, factor, draws);
    var perRoom := AreaPerRoom(g, factor, rooms[0], rooms[1], rooms[2]);
    assert perRoom == (g.totalArea * factor - rooms[0].area - rooms[1].area - rooms[2].area) / LivingRoomsCount(g.rooms) as real;
    assert rooms[3] == LivingRoom(draws, perRoom, rooms[0]);
    assert rooms[3].area == perRoom * 1.5 == 1.5 * perRoom;
    forall i | 4 <= i < |rooms| ensures rooms[i].area == perRoom {
      assert rooms[i] == Bedroom(draws, perRoom, rooms[0], rooms[3], i - 3);
    }
  }

  /**
   * Second row: the living room at x = 0 one metre below the bathroom; bedroom i in column i mod 2
   * (one living-room width apart) and row i div 2 (three metres apart) below the living room.
   */
  lemma SecondRowPlacement(g: FloorPlanGenerator, factor: real, draws: seq<real>)
    requires EnoughDraws(g, draws)
    ensures var rooms := Layout(g, factor, draws);
      && rooms[3].x == 0.0 && rooms[3].y == rooms[0].height + 1.0
      && forall i :: 1 <= i < LivingRoomsCount(g.rooms) ==>
           && rooms[3 + i].x == rooms[3].width * (i % 2) as real
           && rooms[3 + i].y == rooms[0].height + rooms[3].height + (i / 2) as real * 3.0
  {
  }

  /** Living-room width in [4, 6), bedroom widths in [3.5, 5), whatever the budget. */
  lemma SecondRowWidths(g: FloorPlanGenerator, factor: real, draws: seq<real>)
    requires EnoughDraws(g, draws)
    ensures var rooms := Layout(g, factor, draws);
      && 4.0 <= rooms[3].width < 6.0
      && forall i :: 4 <= i < |rooms| ==> 3.5 <= rooms[i].width < 5.0
  {
    var rooms := Layout(g, factor, draws);
    assert IsDraw(draws[9]);
    forall i | 4 <= i < |rooms| ensures 3.5 <= rooms[i].width < 5.0 {
      assert IsDraw(draws[9 + 2 * (i - 3)]);
    }
  }

  /** A quotient by a positive divisor has the sign of its dividend. */
  lemma QuotientSign(a: real, b: real)
    requires b > 0.0
    ensures a / b > 0.0 <==> a > 0.0
    ensures a / b < 0.0 <==> a < 0.0
  {
    var q := a / b;
    assert q * b == a;
    if q > 0.0 { assert q * b > 0.0; }
    if q < 0.0 { assert q * b < 0.0; }
    if q == 0.0 { assert q * b == 0.0; }
  }

  /**
   * The living room and the bedrooms have positive area, and positive height, exactly when the
   * scaled total exceeds the three fixed rooms together; otherwise their areas are zero or negative.
   */
  lemma SecondRowAreaSign(g: FloorPlanGenerator, factor: real, draws: seq<real>)
    requires EnoughDraws(g, draws)
    ensures var rooms := Layout(g, factor, draws);
      var fixed := rooms[0].area + rooms[1].area + rooms[2].area;
      forall i :: 3 <= i < |rooms| ==>
        && (rooms[i].area > 0.0 <==> g.totalArea * factor > fixed)
        && (rooms[i].area < 0.0 <==> g.totalArea * factor < fixed)
        && (rooms[i].height > 0.0 <==> rooms[i].area > 0.0)
  {
    var rooms := Layout(g, factor, draws);
    var fixed := rooms[0].area + rooms[1].area + rooms[2].area;
    var share := (g.totalArea * factor - fixed) / LivingRoomsCount(g.rooms) as real;
    SharedAreas(g, factor, draws);
    QuotientSign(g.totalArea * factor - fixed, LivingRoomsCount(g.rooms) as real);
    forall i | 3 <= i < |rooms|
      ensures && (rooms[i].area > 0.0 <==> g.totalArea * factor > fixed)
              && (rooms[i].area < 0.0 <==> g.totalArea * factor < fixed)
              && (rooms[i].height > 0.0 <==> rooms[i].area > 0.0)
    {
      var k := if i == 3 then 10 else 10 + 2 * (i - 3);
      assert IsDraw(draws[k]);
      var divisor := if i == 3 then 4.0 + draws[10] * 2.0 else 3.5 + draws[k] * 1.5;
      assert rooms[i].height == rooms[i].area / divisor;
      QuotientSign(rooms[i].area, divisor);
    }
  }

  /** Once the scaled total reaches 40 m², more than the fixed rooms can take, every size is positive. */
  lemma PositiveWhenBudgetCoversFixedRooms(g: FloorPlanGenerator, factor: real, draws: seq<real>)
    requires EnoughDraws(g, draws)
    requires g.totalArea * factor >= 40.0
    ensures var rooms := Layout(g, factor, draws);
      forall i :: 0 <= i < |rooms| ==> rooms[i].area > 0.0 && rooms[i].width > 0.0 && rooms[i].height > 0.0
  {
    var rooms := Layout(g, factor, draws);
    FixedRoomRanges(g, factor, draws);
    SecondRowWidths(g, factor, draws);
    SecondRowAreaSign(g, factor, draws);
  }

  /** Once the scaled total reaches 40 m², every room lies at non-negative coordinates. */
  lemma NonNegativePositionsWhenBudgetCoversFixedRooms(g: FloorPlanGenerator, factor: real, draws: seq<real>)
    requires EnoughDraws(g, draws)
    requires g.totalArea * factor >= 40.0
    ensures var rooms := Layout(g, factor, draws);
      forall i :: 0 <= i < |rooms| ==> rooms[i].x >= 0.0 && rooms[i].y >= 0.0
  {
    var rooms := Layout(g, factor, draws);
    PositiveWhenBudgetCoversFixedRooms(g, factor, draws);
    FirstRowPlacement(g, factor, draws);
    SecondRowPlacement(g, factor, draws);
    forall i | 4 <= i < |rooms| ensures rooms[i].x >= 0.0 && rooms[i].y >= 0.0 {
      var j := i - 3;
      assert rooms[3 + j].x == rooms[3].width * (j % 2) as real;
      assert rooms[3 + j].y == rooms[0].height + rooms[3].height + (j / 2) as real * 3.0;
    }
  }

  /**
   * Below the fixed rooms' sum, positions can go negative too: at 20 m², 4 rooms and factor 0.8,
   * with these draws, bedroom 1 lies above the origin, since the living room's negative height
   * outweighs the bathroom's.
   */
  lemma NegativePositionAtSmallBudget()
    ensures var g := FloorPlanGenerator(20.0, 4, "modern", []);
      var draws := [0.0, 0.0, 0.99, 0.99, 0.0, 0.0, 0.99, 0.0, 0.0, 0.0, 0.0, 0.0, 0.0];
      EnoughDraws(g, draws) && Layout(g, 0.8, draws)[4].y < 0.0
  {
    var g := FloorPlanGenerator(20.0, 4, "modern", []);
    var draws := [0.0, 0.0, 0.99, 0.99, 0.0, 0.0, 0.99, 0.0, 0.0, 0.0, 0.0, 0.0, 0.0];
    assert EnoughDraws(g, draws);
    var rooms := Layout(g, 0.8, draws);
    var perRoom := AreaPerRoom(g, 0.8, rooms[0], rooms[1], rooms[2]);
    assert rooms[0].height == 8.0 / 2.99;
    assert perRoom == (16.0 - 8.0 - 15.92 - 11.96) / 2.0;
    assert rooms[3] == LivingRoom(draws, perRoom, rooms[0]);
    assert rooms[3].height == perRoom * 1.5 / 4.0;
    assert rooms[4] == Bedroom(draws, perRoom, rooms[0], rooms[3], 1);
  }

  /**
   * Below 24 m² of scaled total, less than the fixed rooms' minimum, the living room and every
   * bedroom get a negative area and height.
   */
  lemma NegativeWhenBudgetBelowFixedRooms(g: FloorPlanGenerator, factor: real, draws: seq<real>)
    requires EnoughDraws(g, draws)
    requires g.totalArea * factor < 24.0
    ensures var rooms := Layout(g, factor, draws);
      forall i :: 3 <= i < |rooms| ==> rooms[i].area < 0.0 && rooms[i].height < 0.0
  {
    var rooms := Layout(g, factor, draws);
    FixedRoomRanges(g, factor, draws);
    SecondRowAreaSign(g, factor, draws);
    forall i | 3 <= i < |rooms| ensures rooms[i].height < 0.0 {
      var k := if i == 3 then 10 else 10 + 2 * (i - 3);
      assert IsDraw(draws[k]);
      var divisor := if i == 3 then 4.0 + draws[10] * 2.0 else 3.5 + draws[k] * 1.5;
      QuotientSign(rooms[i].area, divisor);
    }
  }

  /**
   * The areas add up to the scaled total plus a third of the living room's area: the extra half
   * share the living room receives is not taken from anywhere.
   */
  lemma LayoutTotalArea(g: FloorPlanGenerator, factor: real, draws: seq<real>)
    requires EnoughDraws(g, draws)
    ensures var rooms := Layout(g, factor, draws);
      Rescale.TotalArea(rooms) == g.totalArea * factor + rooms[3].area / 3.0
  {
    var rooms := Layout(g, factor, draws);
    var budget := g.totalArea * factor;
    var n := LivingRoomsCount(g.rooms);
    var share := (budget - rooms[0].area - rooms[1].area - rooms[2].area) / n as real;
    SharedAreas(g, factor, draws);
    ShareTimesCount(budget - rooms[0].area - rooms[1].area - rooms[2].area, n, share);
    SharedAreasTotal(rooms, budget, share);
  }

  /** A quotient by a positive count, multiplied back by that count. */
  lemma ShareTimesCount(x: real, n: nat, share: real)
    requires n >= 1 && share == x / n as real
    ensures n as real * share == x
  {
  }

  /**
   * The sum for any list whose first three rooms and whose n = |rooms| - 3 shares of `share`
   * make up `budget`, the fourth room taking one and a half shares.
   */
  lemma SharedAreasTotal(rooms: seq<Room>, budget: real, share: real)
    requires |rooms| >= 4
    requires rooms[3].area == 1.5 * share
    requires forall i :: 4 <= i < |rooms| ==> rooms[i].area == share
    requires rooms[0].area + rooms[1].area + rooms[2].area + (|rooms| - 3) as real * share == budget
    ensures Rescale.TotalArea(rooms) == budget + rooms[3].area / 3.0
  {
    var tail := rooms[4..];
    TotalAreaOfFirstFour(rooms);
    Rescale.TotalAreaOfEqualAreas(tail, share);
    assert (|rooms| - 3) as real * share == |tail| as real * share + share;
  }

  /** The sum of a list of at least four rooms, with the first four taken out. */
  lemma TotalAreaOfFirstFour(rooms: seq<Room>)
    requires |rooms| >= 4
    ensures Rescale.TotalArea(rooms)
         == rooms[0].area + rooms[1].area + rooms[2].area + rooms[3].area + Rescale.TotalArea(rooms[4..])
  {
    assert rooms == rooms[..4] + rooms[4..];
    Rescale.TotalAreaAppend(rooms[..4], rooms[4..]);
    assert rooms[..4] == [rooms[0]] + [rooms[1]] + [rooms[2]] + [rooms[3]];
    Rescale.TotalAreaAppend([rooms[0]] + [rooms[1]] + [rooms[2]], [rooms[3]]);
    Rescale.TotalAreaAppend([rooms[0]] + [rooms[1]], [rooms[2]]);
    Rescale.TotalAreaAppend([rooms[0]], [rooms[1]]);
    Rescale.TotalAreaSingleton(rooms[0]);
    Rescale.TotalAreaSingleton(rooms[1]);
    Rescale.TotalAreaSingleton(rooms[2]);
    Rescale.TotalAreaSingleton(rooms[3]);
  }
}
