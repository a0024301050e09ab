/** Whole-object runs of the room, floor and building operations on concrete inputs. */
module Scenarios {
  import opened Common
  import opened SensorKinds
  import opened Sensors
  import opened TimedItems
  import opened SensorConstruction
  import opened Rooms
  import opened Floors
  import opened Buildings

  /** Sensors of each type over the readings 67, 75, 82, and a second occupancy sensor. */
  method FiveSensors() returns (c: TimedSensor, n: TimedSensor, o: TimedSensor, t: TimedSensor, o2: TimedSensor)
    ensures c.kind == CarbonDioxide(300, 150) && n.kind == Noise && o.kind == Occupancy(20)
    ensures t.kind == Temperature && o2.kind == Occupancy(25)
    ensures c.readings == n.readings == o.readings == t.readings == o2.readings == [67, 75, 82]
    ensures c.updateFrequency == 2 && n.updateFrequency == 2 && o.updateFrequency == 2
    ensures t.updateFrequency == 1 && o2.updateFrequency == 3
  {
    var manager := new TimedItemManager();
    var a := new int[3] [67, 75, 82];
    assert a[..] == [67, 75, 82];
    var r1 := NewCarbonDioxideSensor(manager, a, 2, 300, 150);
    var r2 := NewNoiseSensor(manager, a, 2);
    var r3 := NewOccupancySensor(manager, a, 2, 20);
    var r4 := NewTemperatureSensor(manager, a);
    var r5 := NewOccupancySensor(manager, a, 3, 25);
    c, n, o, t, o2 := r1.value, r2.value, r3.value, r4.value, r5.value;
  }

  /** Adding a sensor whose type name precedes all present ones puts it in front. */
  method AddInFront(room: Room, x: TimedSensor) returns (r: Outcome)
    requires room.Valid() && room.sensors != [] && Rank(x.kind) < Rank(room.sensors[0].kind)
    modifies room`sensors
    ensures r == Pass && room.Valid() && room.sensors == [x] + old(room.sensors)
  {
    assert !HasType(room.sensors, x.kind) by {
      forall k | 0 <= k < |room.sensors|
        ensures Rank(room.sensors[k].kind) != Rank(x.kind)
      {
        HeadIsLeast(room.sensors, room.sensors[k]);
      }
    }
    r := room.AddSensor(x);
  }

  /** Sensors added in the order temperature, occupancy, noise, carbon dioxide end up sorted by type name. */
  method FullRoom() returns (room: Room, c: TimedSensor, n: TimedSensor, o: TimedSensor, t: TimedSensor, o2: TimedSensor)
    ensures fresh(room) && room.Valid() && room.sensors == [c, n, o, t]
    ensures c.kind == CarbonDioxide(300, 150) && n.kind == Noise && o.kind == Occupancy(20)
    ensures t.kind == Temperature && o2.kind == Occupancy(25)
  {
    c, n, o, t, o2 := FiveSensors();
    room := new Room(1, Study, 12.12345678);
    assert !HasType([], t.kind);
    var r4 := room.AddSensor(t);
    assert room.sensors == [t];
    var r3 := AddInFront(room, o);
    var r2 := AddInFront(room, n);
    var r1 := AddInFront(room, c);
  }

  /** The room lists its sensors in type-name order. */
  method SensorOrderScenario() returns (names: seq<string>)
    ensures names == ["CarbonDioxideSensor", "NoiseSensor", "OccupancySensor", "TemperatureSensor"]
  {
    var room, c, n, o, t, o2 := FullRoom();
    var sensors := room.GetSensors();
    names := [TypeName(sensors[0].kind), TypeName(sensors[1].kind), TypeName(sensors[2].kind), TypeName(sensors[3].kind)];
  }

  /** The noise sensor is found by its type name. */
  method SensorLookupScenario() returns (found: Option<TimedSensor>, noise: TimedSensor)
    ensures found == Some(noise) && noise.kind == Noise
  {
    var room, c, n, o, t, o2 := FullRoom();
    noise := n;
    found := room.GetSensor("NoiseSensor");
    assert found.Some? ==> found.value == n by {
      if found.Some? {
        assert found.value in [c, n, o, t];
      }
    }
  }

  /** A second occupancy sensor is refused and the room is unchanged. */
  method DuplicateSensorScenario() returns (second: Outcome)
    ensures second == Fail(DuplicateSensor)
  {
    var room, c, n, o, t, o2 := FullRoom();
    assert HasType(room.sensors, o2.kind) by { assert Rank(room.sensors[2].kind) == Rank(o2.kind); }
    second := room.AddSensor(o2);
  }

  /** A 20 by 25 floor holding rooms of 30, 35 and 45 square metres. */
  method FloorOf110() returns (floor: Floor, room1: Room, room2: Room, room3: Room)
    ensures fresh(floor) && fresh(room1) && fresh(room2) && fresh(room3)
    ensures floor.Valid() && floor.rooms == [room1, room2, room3]
    ensures room1.roomNumber == 1 && room2.roomNumber == 2 && room3.roomNumber == 3
    ensures room1.roomType == Study && room2.roomType == Laboratory && room3.roomType == Laboratory
    ensures !room1.fireDrill && !room2.fireDrill && !room3.fireDrill
    ensures floor.width == 20.0 && floor.length == 25.0 && floor.availableArea == 390.0
  {
    floor := new Floor(1, 20.0, 25.0);
    room1 := new Room(1, Study, 30.0);
    room2 := new Room(2, Laboratory, 35.0);
    room3 := new Room(3, Laboratory, 45.0);
    assert NumberFree([], 1) && floor.availableArea == 500.0;
    var o1 := floor.AddRoom(room1);
    assert o1 == Pass;
    assert floor.rooms == [room1] && floor.availableArea == 470.0;
    assert NumberFree([room1], 2);
    var o2 := floor.AddRoom(room2);
    assert o2 == Pass;
    assert floor.rooms == [room1, room2] && floor.availableArea == 435.0;
    assert NumberFree([room1, room2], 3);
    var o3 := floor.AddRoom(room3);
    assert o3 == Pass;
  }

  /** The occupied area and the lookup by number on that floor. */
  method FloorScenario() returns (occupied: real, secondRoom: Option<Room>)
    ensures occupied == 110.0
    ensures secondRoom.Some? && secondRoom.value.roomNumber == 2
  {
    var floor, room1, room2, room3 := FloorOf110();
    occupied := floor.OccupiedArea();
    assert !NumberFree(floor.rooms, 2) by { assert floor.rooms[1].roomNumber == 2; }
    secondRoom := floor.GetRoomByNumber(2);
  }

  /** A repeated number, a room larger than the free area and a room below the minimum are refused. */
  method RoomRefusalsScenario() returns (duplicate: Outcome, tooLarge: Outcome, tooSmall: Outcome)
    ensures duplicate == Fail(DuplicateRoom) && tooLarge == Fail(InsufficientSpace) && tooSmall == Fail(IllegalArgument)
  {
    var floor, room1, room2, room3 := FloorOf110();
    var duplicateRoom := new Room(1, Study, 40.0);
    duplicate := floor.AddRoom(duplicateRoom);
    var largeRoom := new Room(4, Office, 400.0);
    tooLarge := floor.AddRoom(largeRoom);
    var smallRoom := new Room(5, Office, 4.0);
    tooSmall := floor.AddRoom(smallRoom);
  }

  /** A laboratory drill on that floor reaches both laboratories; cancelling clears all three. */
  method FloorDrillScenario() returns (drilled: seq<bool>, afterCancel: seq<bool>)
    ensures drilled == [false, true, true] && afterCancel == [false, false, false]
  {
    var floor, room1, room2, room3 := FloorOf110();
    floor.FireDrill(Some(Laboratory));
    drilled := [room1.FireDrillOngoing(), room2.FireDrillOngoing(), room3.FireDrillOngoing()];
    floor.CancelFireDrill();
    afterCancel := [room1.FireDrillOngoing(), room2.FireDrillOngoing(), room3.FireDrillOngoing()];
  }

  /** A square floor of the given side holding two fresh 10 square metre rooms. */
  method SquareFloorOfTwo(number: int, side: real, n1: int, t1: RoomType, n2: int, t2: RoomType)
    returns (floor: Floor, room1: Room, room2: Room)
    requires side >= 5.0 && n1 != n2
    ensures fresh(floor) && fresh(room1) && fresh(room2)
    ensures floor.Valid() && floor.floorNumber == number && floor.width == side && floor.length == side
    ensures floor.rooms == [room1, room2]
    ensures room1.roomType == t1 && room2.roomType == t2 && !room1.fireDrill && !room2.fireDrill
    ensures room1.roomNumber == n1 && room2.roomNumber == n2 && floor.availableArea == side * side - 20.0
  {
    floor := new Floor(number, side, side);
    room1 := new Room(n1, t1, 10.0);
    room2 := new Room(n2, t2, 10.0);
    assert NumberFree([], n1) && floor.availableArea == side * side >= 25.0;
    var o1 := floor.AddRoom(room1);
    assert o1 == Pass;
    assert floor.rooms == [room1] && NumberFree([room1], n2);
    var o2 := floor.AddRoom(room2);
    assert o2 == Pass;
  }

  /** A new building with two floors added bottom up, the upper no larger than the lower. */
  method StackOfTwo(floor1: Floor, floor2: Floor) returns (building: Building)
    requires floor1.floorNumber == 1 && floor2.floorNumber == 2
    requires MinWidth <= floor2.width <= floor1.width && MinLength <= floor2.length <= floor1.length
    ensures fresh(building) && building.Valid() && building.floors == [floor1, floor2]
  {
    building := new Building("Test");
    assert AddFloorCheck([], floor1) == Pass by {
      assert !HasNumber([], 1);
    }
    var f1 := building.AddFloor(floor1);
    assert AddFloorCheck([floor1], floor2) == Pass by {
      assert !HasNumber([floor1], 2) && LastBelow([floor1], 2) == Some(floor1);
    }
    var f2 := building.AddFloor(floor2);
  }

  /** Floors of side 100 and 90, each holding a study and a laboratory. */
  method TwoStoreyBuilding() returns (building: Building, floor1: Floor, floor2: Floor,
                                      study1: Room, lab1: Room, lab2: Room, study2: Room)
    ensures fresh(building) && fresh(study1) && fresh(lab1) && fresh(lab2) && fresh(study2)
    ensures building.Valid() && building.floors == [floor1, floor2] && floor2.floorNumber == 2
    ensures floor1.rooms == [study1, lab1] && floor2.rooms == [lab2, study2]
    ensures RoomsOf(building.floors) == {study1, lab1, lab2, study2}
    ensures study1.roomType == Study && lab1.roomType == Laboratory
    ensures lab2.roomType == Laboratory && study2.roomType == Study
    ensures !study1.fireDrill && !lab1.fireDrill && !lab2.fireDrill && !study2.fireDrill
  {
    floor1, study1, lab1 := SquareFloorOfTwo(1, 100.0, 1, Study, 2, Laboratory);
    floor2, lab2, study2 := SquareFloorOfTwo(2, 90.0, 3, Laboratory, 4, Study);
    building := StackOfTwo(floor1, floor2);
    assert [floor1, floor2][..1] == [floor1] && [floor1][..0] == [];
    assert RoomsOf([floor1]) == {study1, lab1};
  }

  /** The floor numbered 2 is found by number. */
  method BuildingLookupScenario() returns (second: Option<Floor>)
    ensures second.Some? && second.value.floorNumber == 2
  {
    var building, floor1, floor2, study1, lab1, lab2, study2 := TwoStoreyBuilding();
    second := building.GetFloorByNumber(2);
  }

  /** A study drill reaches the study on each floor and neither laboratory. */
  method BuildingDrillScenario() returns (drill: Outcome, drilled: seq<bool>)
    ensures drill == Pass
    ensures drilled == [true, false, false, true]
  {
    var building, floor1, floor2, study1, lab1, lab2, study2 := TwoStoreyBuilding();
    assert !NoRooms(building.floors) by { assert building.floors[0].rooms != []; }
    assert study1 in building.floors[0].rooms && lab1 in building.floors[0].rooms;
    assert lab2 in building.floors[1].rooms && study2 in building.floors[1].rooms;
    drill := building.FireDrill(Some(Study));
    drilled := [study1.fireDrill, lab1.fireDrill, lab2.fireDrill, study2.fireDrill];
  }

  /** After a drill of every room, cancelling clears all four. */
  method BuildingCancelScenario() returns (afterCancel: seq<bool>)
    ensures afterCancel == [false, false, false, false]
  {
    var building, floor1, floor2, study1, lab1, lab2, study2 := TwoStoreyBuilding();
    var drill := building.FireDrill(None);
    assert study1 in building.floors[0].rooms && lab1 in building.floors[0].rooms;
    assert lab2 in building.floors[1].rooms && study2 in building.floors[1].rooms;
    building.CancelFireDrill();
    afterCancel := [study1.fireDrill, lab1.fireDrill, lab2.fireDrill, study2.fireDrill];
  }

  /** A drill on a building without floors is refused. */
  method EmptyDrillScenario() returns (drill: Outcome)
    ensures drill == Fail(FireDrillNotPossible)
  {
    var building := new Building("Test");
    drill := building.FireDrill(None);
  }

  /** A drill on a building whose only floor has no rooms is refused. */
  method RoomlessDrillScenario() returns (drill: Outcome)
    ensures drill == Fail(FireDrillNotPossible)
  {
    var building, floor1 := OneFloorBuilding();
    assert RoomsOf(building.floors) == {} by { assert [floor1][..0] == []; }
    drill := building.FireDrill(None);
  }

  /** A new building holding one 10 by 5 floor numbered 1. */
  method OneFloorBuilding() returns (building: Building, floor1: Floor)
    ensures fresh(building) && building.Valid() && building.floors == [floor1]
    ensures floor1.floorNumber == 1 && floor1.width == 10.0 && floor1.length == 5.0 && floor1.rooms == []
  {
    building := new Building("Test");
    floor1 := new Floor(1, 10.0, 5.0);
    assert AddFloorCheck([], floor1) == Pass by {
      assert !HasNumber([], 1);
    }
    var f1 := building.AddFloor(floor1);
  }

  /** A floor narrower than the minimum and a repeated floor number are refused. */
  method ArgumentRefusalsScenario() returns (narrow: Outcome, duplicate: Outcome)
    ensures narrow == Fail(IllegalArgument) && duplicate == Fail(DuplicateFloor)
  {
    var building, floor1 := OneFloorBuilding();
    var thin := new Floor(2, 4.0, 10.0);
    narrow := building.AddFloor(thin);
    var again := new Floor(1, 10.0, 5.0);
    assert AddFloorCheck([floor1], again) == Fail(DuplicateFloor) by {
      assert HasNumber([floor1], 1) by { assert [floor1][0] == floor1; }
    }
    duplicate := building.AddFloor(again);
  }

  /**
   * Floor 2 added to an empty building has no floor below; floor 2 that is
   * longer than floor 1 is too large for it.
   */
  method StackingRefusalsScenario() returns (floating: Outcome, overhang: Outcome)
    ensures floating == Fail(NoFloorBelow) && overhang == Fail(FloorTooSmall)
  {
    var empty := new Building("Test");
    var second := new Floor(2, 10.0, 5.0);
    floating := empty.AddFloor(second);
    var building, floor1 := OneFloorBuilding();
    var longer := new Floor(2, 10.0, 6.0);
    assert AddFloorCheck([floor1], longer) == Fail(FloorTooSmall) by {
      assert !HasNumber([floor1], 2) && LastBelow([floor1], 2) == Some(floor1);
    }
    overhang := building.AddFloor(longer);
  }
}
