/** `modifyRoomSizes`: the uniform rescaling the AI path uses for its budget and premium variants. */
module Rescale {
  import opened Models

  /** One room with its area, width and height multiplied by `f`; name and position kept. */
  function Scaled(r: Room, f: real): Room {
    Room(r.name, r.area * f, r.width * f, r.height * f, r.x, r.y)
  }

  /** The room list `modifyRoomSizes(rooms, f)` returns. */
  function Rescaled(rooms: seq<Room>, f: real): (s: seq<Room>)
    ensures |s| == |rooms|
  {
    seq(|rooms|, i requires 0 <= i < |rooms| => Scaled(rooms[i], f))
  }

  /** Fills a list of the same length, entry by entry, with the rescaled rooms. */
  method ModifyRoomSizes(rooms: seq<Room>, factor: real) returns (modified: seq<Room>)
    ensures |modified| == |rooms|
    ensures forall i :: 0 <= i < |rooms| ==>
      && modified[i].name == rooms[i].name
      && modified[i].x == rooms[i].x && modified[i].y == rooms[i].y
      && modified[i].area == rooms[i].area * factor
      && modified[i].width == rooms[i].width * factor
      && modified[i].height == rooms[i].height * factor
    ensures modified == Rescaled(rooms, factor)
  {
    var buffer := new Room[|rooms|];
    for i := 0 to |rooms|
      invariant forall j :: 0 <= j < i ==> buffer[j] == Scaled(rooms[j], factor)
    {
      var room := rooms[i];
      buffer[i] := Room(room.name, room.area * factor, room.width * factor, room.height * factor, room.x, room.y);
    }
    modified := buffer[..];
  }

  /** A factor of 1.0 leaves the list unchanged. */
  lemma RescaledByOne(rooms: seq<Room>)
    ensures Rescaled(rooms, 1.0) == rooms
  {
    var s := Rescaled(rooms, 1.0);
    forall i | 0 <= i < |rooms| ensures s[i] == rooms[i] {
      assert s[i] == Scaled(rooms[i], 1.0);
    }
  }

  /** Rescaling twice is rescaling once by the product of the factors. */
  lemma RescaledTwice(rooms: seq<Room>, f: real, g: real)
    ensures Rescaled(Rescaled(rooms, f), g) == Rescaled(rooms, f * g)
  {
    var once, twice, direct := Rescaled(rooms, f), Rescaled(Rescaled(rooms, f), g), Rescaled(rooms, f * g);
    forall i | 0 <= i < |rooms| ensures twice[i] == direct[i] {
      ScaledTwice(rooms[i], f, g);
    }
  }

  lemma ScaledTwice(r: Room, f: real, g: real)
    ensures Scaled(Scaled(r, f), g) == Scaled(r, f * g)
  {
    assert r.area * f * g == r.area * (f * g);
    assert r.width * f * g == r.width * (f * g);
    assert r.height * f * g == r.height * (f * g);
  }

  /** A non-zero factor is undone by its reciprocal, so no information is lost. */
  lemma RescaledInverse(rooms: seq<Room>, f: real)
    requires f != 0.0
    ensures Rescaled(Rescaled(rooms, f), 1.0 / f) == rooms
  {
    var g := 1.0 / f;
    RescaledTwice(rooms, f, g);
    assert f * g == 1.0;
    RescaledByOne(rooms);
  }

  /** A positive factor keeps positive sizes positive. */
  lemma RescaledKeepsPositive(rooms: seq<Room>, f: real)
    requires f > 0.0
    requires forall i :: 0 <= i < |rooms| ==> rooms[i].area > 0.0 && rooms[i].width > 0.0 && rooms[i].height > 0.0
    ensures forall i :: 0 <= i < |rooms| ==>
      var s := Rescaled(rooms, f)[i]; s.area > 0.0 && s.width > 0.0 && s.height > 0.0
  {
    forall i | 0 <= i < |rooms|
      ensures var s := Rescaled(rooms, f)[i]; s.area > 0.0 && s.width > 0.0 && s.height > 0.0
    {
      var r := rooms[i];
      assert r.area * f > 0.0 && r.width * f > 0.0 && r.height * f > 0.0;
    }
  }

  /** The sum of the rooms' areas. */
  function TotalArea(rooms: seq<Room>): real {
    if rooms == [] then 0.0 else rooms[0].area + TotalArea(rooms[1..])
  }

  /** Rescaling multiplies the total area by the same factor. */
  lemma {:induction false} RescaledTotalArea(rooms: seq<Room>, f: real)
    ensures TotalArea(Rescaled(rooms, f)) == TotalArea(rooms) * f
  {
    if rooms != [] {
      var s := Rescaled(rooms, f);
      assert s[1..] == Rescaled(rooms[1..], f);
      RescaledTotalArea(rooms[1..], f);
      assert TotalArea(s) == rooms[0].area * f + TotalArea(rooms[1..]) * f;
    }
  }

  lemma TotalAreaSingleton(r: Room)
    ensures TotalArea([r]) == r.area
  {
    assert [r][1..] == [];
  }

  lemma {:induction false} TotalAreaAppend(a: seq<Room>, b: seq<Room>)
    ensures TotalArea(a + b) == TotalArea(a) + TotalArea(b)
  {
    if a == [] {
      assert a + b == b;
    } else {
      assert (a + b)[1..] == a[1..] + b;
      TotalAreaAppend(a[1..], b);
    }
  }

  /** Rooms that all have area `a` add up to their number times `a`. */
  lemma {:induction false} TotalAreaOfEqualAreas(rooms: seq<Room>, a: real)
    requires forall i :: 0 <= i < |rooms| ==> rooms[i].area == a
    ensures TotalArea(rooms) == |rooms| as real * a
  {
    if rooms != [] {
      TotalAreaOfEqualAreas(rooms[1..], a);
      assert (|rooms| - 1) as real * a + a == |rooms| as real * a;
    }
  }
}
