/**
 * Floors: a numbered, width-by-length area holding rooms in insertion order,
 * with an area budget and unique room numbers.
 */
module Floors {
  import opened Common
  import opened Rooms

  const MinWidth: real := 5.0
  const MinLength: real := 5.0

  /** The summed area of the rooms. */
  function TotalArea(rooms: seq<Room>): real
  {
    if rooms == [] then 0.0 else TotalArea(rooms[..|rooms| - 1]) + rooms[|rooms| - 1].area
  }

  predicate RoomNumbersDistinct(rooms: seq<Room>)
  {
    forall i, j :: 0 <= i < j < |rooms| ==> rooms[i].roomNumber != rooms[j].roomNumber
  }

  predicate NumberFree(rooms: seq<Room>, number: int)
  {
    forall k :: 0 <= k < |rooms| ==> rooms[k].roomNumber != number
  }

  /** A fire drill for the given type (None: every type) concerns this room. */
  predicate Matches(room: Room, roomType: Option<RoomType>)
  {
    roomType.None? || room.roomType == roomType.value
  }

  /**
   * The source's scan over the existing rooms: each room is first compared by
   * number, then the space is checked, so the first room decides between a
   * duplicate and a lack of space, and an empty floor checks neither.
   */
  function ScanRooms(rooms: seq<Room>, available: real, number: int, area: real): (r: Outcome)
    ensures r.Fail? ==> || (r.error == DuplicateRoom && !NumberFree(rooms, number))
                        || (r.error == InsufficientSpace && area > available && rooms != [])
  {
    if rooms == [] then Pass
    else if rooms[0].roomNumber == number then Fail(DuplicateRoom)
    else if area > available then Fail(InsufficientSpace)
    else
      var r := ScanRooms(rooms[1..], available, number, area);
      assert r.Fail? && r.error == DuplicateRoom ==> !NumberFree(rooms, number) by {
        if r.Fail? && r.error == DuplicateRoom {
          var k :| 0 <= k < |rooms[1..]| && rooms[1..][k].roomNumber == number;
          assert rooms[k + 1].roomNumber == number;
        }
      }
      r
  }

  /** The scan passes exactly when the number is new and, on a non-empty floor, the room fits. */
  lemma {:induction false} ScanPassIff(rooms: seq<Room>, available: real, number: int, area: real)
    ensures ScanRooms(rooms, available, number, area) == Pass
        <==> NumberFree(rooms, number) && (rooms != [] ==> area <= available)
  {
    if rooms != [] && rooms[0].roomNumber != number && area <= available {
      ScanPassIff(rooms[1..], available, number, area);
      assert NumberFree(rooms, number) <==> NumberFree(rooms[1..], number) by {
        assert forall k :: 1 <= k < |rooms| ==> rooms[k] == rooms[1..][k - 1];
      }
    }
  }

  /** Room addition as the source checks it: the space check never runs on an empty floor. */
  function AddRoomCheckAsWritten(rooms: seq<Room>, available: real, number: int, area: real): (r: Outcome)
    ensures r.Pass? <==> area >= MinArea && NumberFree(rooms, number) && (rooms != [] ==> area <= available)
    ensures r == Fail(IllegalArgument) <==> area < MinArea
  {
    ScanPassIff(rooms, available, number, area);
    if area < MinArea then Fail(IllegalArgument)
    else ScanRooms(rooms, available, number, area)
  }

  /**
   * Room addition with the space check also made when the floor has no rooms.
   * With a legal area, a taken number alone gives DuplicateRoom and a lack of
   * space alone gives InsufficientSpace; when both hold, the first room decides,
   * as in the source's scan.
   */
  function AddRoomCheck(rooms: seq<Room>, available: real, number: int, area: real): (r: Outcome)
    ensures r.Fail? ==> r.error in {IllegalArgument, DuplicateRoom, InsufficientSpace}
    ensures r.Pass? <==> area >= MinArea && NumberFree(rooms, number) && area <= available
    ensures r == Fail(IllegalArgument) <==> area < MinArea
    ensures r == Fail(DuplicateRoom) ==> !NumberFree(rooms, number)
    ensures r == Fail(InsufficientSpace) ==> area > available
    ensures area >= MinArea && !NumberFree(rooms, number) && area <= available ==> r == Fail(DuplicateRoom)
    ensures area >= MinArea && NumberFree(rooms, number) && area > available ==> r == Fail(InsufficientSpace)
    ensures area >= MinArea && !NumberFree(rooms, number) && area > available
        ==> (r == Fail(DuplicateRoom) <==> rooms[0].roomNumber == number)
  {
    ScanPassIff(rooms, available, number, area);
    if area < MinArea then Fail(IllegalArgument)
    else if ScanRooms(rooms, available, number, area).Fail? then ScanRooms(rooms, available, number, area)
    else if area > available then Fail(InsufficientSpace)
    else Pass
  }

  /** In the source, a first room larger than the whole floor is accepted. */
  lemma OversizedFirstRoomAcceptedAsWritten(available: real, number: int, area: real)
    requires area >= MinArea && area > available
    ensures AddRoomCheckAsWritten([], available, number, area) == Pass
    ensures AddRoomCheck([], available, number, area) == Fail(InsufficientSpace)
  {
  }

  /** On a floor that already has rooms the correction changes nothing. */
  lemma CorrectionOnlyAffectsEmptyFloor(rooms: seq<Room>, available: real, number: int, area: real)
    requires rooms != []
    ensures AddRoomCheckAsWritten(rooms, available, number, area) == AddRoomCheck(rooms, available, number, area)
  {
    ScanPassIff(rooms, available, number, area);
  }

  /**
   * As written, only a single-room floor can be over budget: once the available
   * area is negative every later room is refused.
   */
  lemma {:induction false} AsWrittenOverrunNeedsSingleRoom(rooms: seq<Room>, available: real, number: int, area: real)
    requires rooms != [] && available < 0.0
    ensures AddRoomCheckAsWritten(rooms, available, number, area).Fail?
  {
    ScanPassIff(rooms, available, number, area);
  }

  class Floor {
    const floorNumber: int
    const width: real
    const length: real
    var rooms: seq<Room>
    var availableArea: real

    /**
     * The available area is what the rooms leave of the floor, room numbers are
     * unique, every room meets the minimum area, and the budget is never overrun.
     */
    ghost predicate Valid()
      reads this
    {
      && availableArea == width * length - TotalArea(rooms)
      && RoomNumbersDistinct(rooms)
      && (forall k :: 0 <= k < |rooms| ==> rooms[k].area >= MinArea)
      && (rooms != [] ==> availableArea >= 0.0)
    }

    /** Dimensions are not validated here; buildings check them when the floor is added. */
    constructor (floorNumber: int, width: real, length: real)
      ensures Valid()
      ensures this.floorNumber == floorNumber && this.width == width && this.length == length
      ensures rooms == [] && availableArea == width * length
    {
      this.floorNumber := floorNumber;
      this.width := width;
      this.length := length;
      rooms := [];
      availableArea := width * length;
    }

    /** The whole floor area; a floor of legal dimensions has at least the minimum area. */
    function CalculateArea(): (a: real)
      ensures width >= MinWidth && length >= MinLength ==> a >= MinWidth * MinLength
    {
      assert width >= MinWidth && length >= MinLength ==> length * width >= MinLength * width >= MinLength * MinWidth;
      length * width
    }

    /** The area the rooms take up. */
    function OccupiedArea(): (a: real)
      reads this
      requires Valid()
      ensures a == TotalArea(rooms)
    {
      CalculateArea() - availableArea
    }

    /** The rooms in insertion order; a value, so callers cannot alter the floor's list. */
    function GetRooms(): (r: seq<Room>)
      reads this
      requires Valid()
      ensures RoomNumbersDistinct(r)
      ensures TotalArea(r) == OccupiedArea()
    {
      rooms
    }

    method AddRoom(newRoom: Room) returns (r: Outcome)
      requires Valid()
      modifies this`rooms, this`availableArea
      ensures Valid()
      ensures r == AddRoomCheck(old(rooms), old(availableArea), newRoom.roomNumber, newRoom.area)
      ensures r.Pass? ==> rooms == old(rooms) + [newRoom] && availableArea == old(availableArea) - newRoom.area
      ensures r.Fail? ==> rooms == old(rooms) && availableArea == old(availableArea)
    {
      if newRoom.area < MinArea {
        return Fail(IllegalArgument);
      }
      var i := 0;
      while i < |rooms|
        invariant 0 <= i <= |rooms|
        invariant ScanRooms(rooms, availableArea, newRoom.roomNumber, newRoom.area)
               == ScanRooms(rooms[i..], availableArea, newRoom.roomNumber, newRoom.area)
      {
        assert rooms[i..][1..] == rooms[i + 1..];
        if newRoom.roomNumber == rooms[i].roomNumber {
          return Fail(DuplicateRoom);
        }
        if newRoom.area > availableArea {
          return Fail(InsufficientSpace);
        }
        i := i + 1;
      }
      // The space check is made whether or not the floor already has rooms.
      if newRoom.area > availableArea {
        return Fail(InsufficientSpace);
      }
      ScanPassIff(rooms, availableArea, newRoom.roomNumber, newRoom.area);
      assert (rooms + [newRoom])[..|rooms|] == rooms;
      rooms := rooms + [newRoom];
      availableArea := availableArea - newRoom.area;
      r := Pass;
    }

    /** The room with the given number, if any; room numbers are unique, so it is the only one. */
    method GetRoomByNumber(number: int) returns (r: Option<Room>)
      requires Valid()
      ensures r.Some? ==> r.value in rooms && r.value.roomNumber == number
      ensures r.Some? ==> forall k :: 0 <= k < |rooms| && rooms[k].roomNumber == number ==> rooms[k] == r.value
      ensures r.None? <==> NumberFree(rooms, number)
    {
      r := None;
      var i := 0;
      while i < |rooms|
        invariant 0 <= i <= |rooms|
        invariant r.Some? ==> exists k :: 0 <= k < i && rooms[k] == r.value && r.value.roomNumber == number
        invariant r.None? <==> forall k :: 0 <= k < i ==> rooms[k].roomNumber != number
      {
        if rooms[i].roomNumber == number {
          r := Some(rooms[i]);
        }
        i := i + 1;
      }
    }

    /** Sets the flag on every room of the given type (on every room for None); others are untouched. */
    method FireDrill(roomType: Option<RoomType>)
      modifies rooms
      ensures forall r :: r in rooms ==> r.fireDrill == (old(r.fireDrill) || Matches(r, roomType))
      ensures forall r :: r in rooms ==> r.sensors == old(r.sensors)
    {
      var i := 0;
      while i < |rooms|
        invariant 0 <= i <= |rooms|
        invariant forall r :: r in rooms ==> r.fireDrill == (old(r.fireDrill) || (Matches(r, roomType) && r in rooms[..i]))
        invariant forall r :: r in rooms ==> r.sensors == old(r.sensors)
      {
        assert rooms[..i + 1] == rooms[..i] + [rooms[i]];
        if roomType.Some? && rooms[i].roomType == roomType.value {
          rooms[i].SetFireDrill(true);
        } else if roomType.None? {
          rooms[i].SetFireDrill(true);
        }
        i := i + 1;
      }
      assert rooms[..i] == rooms;
    }

    /** Clears the flag on every room, whatever its type. */
    method CancelFireDrill()
      modifies rooms
      ensures forall r :: r in rooms ==> !r.fireDrill
      ensures forall r :: r in rooms ==> r.sensors == old(r.sensors)
    {
      var i := 0;
      while i < |rooms|
        invariant 0 <= i <= |rooms|
        invariant forall k :: 0 <= k < i ==> !rooms[k].fireDrill
        invariant forall r :: r in rooms ==> r.sensors == old(r.sensors)
      {
        rooms[i].SetFireDrill(false);
        i := i + 1;
      }
    }
  }
}
