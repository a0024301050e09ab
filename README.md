# Building management core in Dafny

This project models the core of a small building-management system (package
`bms`). A building is a stack of numbered floors. Each floor holds rooms within
an area budget. Each room holds at most one sensor of each type, kept in
alphabetical order of the sensor's class name. Sensors are *timed*: each steps
through a fixed series of readings on a timer driven by a single registry of
timed items. Hazard levels are derived from the current reading. Fire drills are
started and cancelled per floor or for the whole building.

Modules, one per file:

- `Common` (common.dfy): `Option`, `Result`, `Outcome` and the `Error` variant, which has one constructor per exception class.
- `SensorKinds` (sensor_kinds.dfy): the four concrete sensor classes as one closed variant, with their simple class names and an order on them.
- `Hazards` (hazards.dfy): the hazard level of each sensor kind as a pure function.
- `Timing` (timing.dfy): the reading index as a closed form of elapsed minutes, and the tick rule it must agree with.
- `Sensors` (sensors.dfy): the class `TimedSensor` and its constructor's validation, both as written and corrected.
- `TimedItems` (timed_items.dfy): the registry class `TimedItemManager`, and `ManagerSlot`, the lazily filled static field.
- `SensorConstruction` (construction.dfy): the sensor constructors as factory methods that validate, create and register.
- `Rooms` (rooms.dfy): the class `Room` and sorted insertion of sensors by type.
- `Floors` (floors.dfy): the class `Floor`, with its room-addition check as written and corrected.
- `Buildings` (buildings.dfy): the class `Building`, the floor-stacking rules and the invariant they keep.
- `Scenarios` (scenarios.dfy): the repository's unit tests restated as methods with proved outcomes.

A Java constructor that can throw becomes a factory method returning `Result`. A
method that can throw becomes one returning `Outcome`. Each exception class is
one `Error` constructor. A Java `null` result becomes `None`. Classes whose fields
the source updates in place (`TimedSensor`, `TimedItemManager`, `Room`, `Floor`,
`Building`) are Dafny classes with `modifies` frames. The validity checks and the
hazard mappings are pure functions, and properties relating several calls are
lemmas.

## Model

| member | source | states |
|---|---|---|
| SensorKinds.SameRankIffSameName | src/bms/room/Room.java:153-167 | two sensors have the same type exactly when their simple class names are equal, so comparing ranks is the source's duplicate test |
| SensorKinds.RankOrderIsNameOrder | src/bms/room/Room.java:172-174 | ordering by rank is exactly the lexicographic order of simple class names that the source sorts by |
| Hazards.CarbonDioxideHazard | src/bms/sensors/CarbonDioxideSensor.java:56-67 | the hazard is 0, 25, 50 or 100, each exactly on its band of ppm readings (below 1000, [1000,2000), [2000,5000), 5000 and above) |
| Hazards.CarbonDioxideHazardMonotone | src/bms/sensors/CarbonDioxideSensor.java:56-67 | a higher CO2 reading never gives a lower hazard |
| Hazards.TemperatureHazard | src/bms/sensors/TemperatureSensor.java:22-29 | the hazard is 100 exactly at 68 degrees or more, and 0 exactly below |
| Hazards.OccupancyHazard | src/bms/sensors/OccupancySensor.java:46-58 | the hazard is in [0,100]; it is 100 at or above capacity; below capacity it is 100·reading/capacity rounded half up; with capacity 0 it is 100 exactly for a positive reading |
| Hazards.HalfUpPercentage | src/bms/sensors/OccupancySensor.java:51-56 | the result is the unique integer h in [0,100] with h - 1/2 <= 100·reading/capacity < h + 1/2 |
| Hazards.EmptyRoomNoHazard | src/bms/sensors/OccupancySensor.java:46-58 | nobody present with a positive capacity means hazard 0 |
| Hazards.OccupancyHazardMonotone | src/bms/sensors/OccupancySensor.java:46-58 | for a fixed capacity, more occupants never give a lower hazard |
| Hazards.HazardOf | src/bms/sensors/CarbonDioxideSensor.java:56-67 | each sensor kind's own hazard mapping (this one, OccupancySensor.java:46-58 and TemperatureSensor.java:22-29); every kind but noise has a hazard level, always in [0,100] |
| Hazards.CarbonDioxideParametersIrrelevant | src/bms/sensors/CarbonDioxideSensor.java:56-67 | the ideal value and variation limit never change the CO2 hazard |
| Hazards.CarbonDioxideExamples | test/bms/sensors/CarbonDioxideSensorTest.java:58-133 | the test readings 750, 1000, 1500, 2000, 2500, 5000, 5100 give hazards 0, 25, 25, 50, 50, 100, 100 |
| Hazards.OccupancyExamples | test/bms/SensorsTests.java:94-111 | occupancy 8, 9 and 42 against capacity 21 give hazards 38, 43 and 100 |
| Hazards.TemperatureExamples | test/bms/SensorsTests.java:123-136 | temperatures 5, 68 and 69 give hazards 0, 100 and 100 |
| Timing.IndexAt | src/bms/sensors/TimedSensor.java:105-111 | the index after t minutes, (t / f) mod n, is always a valid index |
| Timing.StepWithinPeriod | src/bms/sensors/TimedSensor.java:105-111 | a minute that does not end on a multiple of the frequency leaves the index unchanged |
| Timing.TicksMatchClosedForm | src/bms/sensors/TimedSensor.java:105-111 | applying the source's tick rule k times from construction gives exactly the closed-form index after k minutes |
| Timing.ChangesOnlyAtMultiples | src/bms/sensors/TimedSensor.java:105-111 | the reading changes only at minutes that are multiples of the update frequency |
| Timing.Periodic | src/bms/sensors/TimedSensor.java:105-111 | the readings repeat with period frequency × number of readings |
| Timing.FrequencyOne | src/bms/sensors/TemperatureSensor.java:18-20 | with frequency 1 (the temperature sensor) the index advances circularly every minute |
| Timing.IndexExample | test/bms/SensorsTests.java:15-35 | frequency 2 over three readings shows index 0 at minutes 0 and 1, index 1 at minute 2, and index 0 again at minute 6 |
| Sensors.ConstructAsWritten | src/bms/sensors/TimedSensor.java:49-77 | as the source runs it: the sensor is registered exactly when the readings are present and non-negative and the frequency is 1 to 5, with no emptiness check; it is accepted exactly when it was registered and the subclass's own parameters then pass |
| Sensors.Construct | src/bms/sensors/TimedSensor.java:45-77 | a sensor is accepted exactly when the readings are present, non-empty and non-negative, the frequency is 1 to 5 and the subclass's own parameters pass; a temperature sensor is accepted only with frequency 1, the value its constructor passes; it is registered only if it is accepted |
| Sensors.EmptyReadingsAcceptedAsWritten | src/bms/sensors/TimedSensor.java:52-68 | the source accepts an empty readings array; the corrected construction rejects it |
| Sensors.RejectedSensorRegisteredAsWritten | src/bms/sensors/CarbonDioxideSensor.java:42-46 | in the source a sensor whose own parameters are invalid is registered before the exception is thrown; the corrected construction registers nothing |
| Sensors.ConstructRefinesAsWritten | src/bms/sensors/TimedSensor.java:49-77 | the corrected construction accepts exactly what the source accepts with non-empty readings, and registers only what the source registers |
| Sensors.TimedSensor.constructor | src/bms/sensors/TimedSensor.java:70-73 | a new sensor keeps its readings, frequency and kind, starts at minute 0 on reading index 0, and is valid |
| Sensors.TimedSensor.UpdateFrequency | src/bms/sensors/TimedSensor.java:85-87 | the frequency of a valid sensor is between 1 and 5, and it is 1 for a temperature sensor (TemperatureSensor.java:18-20) |
| Sensors.TimedSensor.TimeElapsed | src/bms/sensors/TimedSensor.java:95-97 | the elapsed minutes determine the reading index through the closed form |
| Sensors.TimedSensor.CurrentReading | src/bms/sensors/TimedSensor.java:100-102 | the current reading is the reading at the closed-form index for the elapsed time, and is non-negative |
| Sensors.TimedSensor.HazardLevel | src/bms/sensors/CarbonDioxideSensor.java:56-67 | the sensor's hazard is its kind's mapping (this one, OccupancySensor.java:46-58 or TemperatureSensor.java:22-29) applied to the current reading, and lies in [0,100] |
| Sensors.TimedSensor.ElapseOneMinute | src/bms/sensors/TimedSensor.java:105-111 | time rises by one minute, the index stays equal to the closed form, and the index moves only at a multiple of the frequency |
| TimedItems.TimedItemManager.constructor | src/bms/util/TimedItemManager.java:21 | a new registry is empty |
| TimedItems.TimedItemManager.RegisterTimedItem | src/bms/util/TimedItemManager.java:45-47 | the item is appended, and earlier registrations and their order are kept |
| TimedItems.TimedItemManager.ElapseOneMinute | src/bms/util/TimedItemManager.java:52-56 | the registry is unchanged, every item stays valid, and each registered sensor advances by as many minutes as it occurs in the registry |
| TimedItems.DistinctOccursOnce | src/bms/util/TimedItemManager.java:52-56 | in a registry without repeats, each sensor advances by exactly one minute per tick |
| TimedItems.ManagerSlot.constructor | src/bms/util/TimedItemManager.java:18 | the static field starts empty |
| TimedItems.ManagerSlot.GetInstance | src/bms/util/TimedItemManager.java:30-35 | the first call creates an empty registry and stores it; every later call returns the stored one |
| TimedItems.GetInstanceIsStable | src/bms/util/TimedItemManager.java:30-35 | two lookups return the same registry |
| SensorConstruction.HasNegative | src/bms/sensors/TimedSensor.java:56-64 | the scan finds a negative reading exactly when one exists |
| SensorConstruction.NewTimedSensor | src/bms/sensors/TimedSensor.java:49-77 | succeeds exactly when the corrected construction accepts the arguments (a null array included); on success the sensor is fresh, at minute 0 on its first reading, and appended to the registry; on failure the error is IllegalArgument and the registry is unchanged |
| SensorConstruction.NewCarbonDioxideSensor | src/bms/sensors/CarbonDioxideSensor.java:37-53 | succeeds exactly for a non-null, non-empty, non-negative readings array, frequency 1 to 5, and ideal > 0, limit > 0, ideal - limit >= 0; the sensor reports the given ideal value and limit |
| SensorConstruction.NewNoiseSensor | src/bms/sensors/NoiseSensor.java:19-21 | succeeds exactly for non-null, non-empty, non-negative readings and frequency 1 to 5 |
| SensorConstruction.NewOccupancySensor | src/bms/sensors/OccupancySensor.java:25-35 | succeeds exactly for valid readings, frequency 1 to 5 and capacity >= 0; the sensor reports that capacity |
| SensorConstruction.NewTemperatureSensor | src/bms/sensors/TemperatureSensor.java:18-20 | succeeds exactly for valid readings; the frequency is fixed at 1 |
| SensorConstruction.FrequencyTwoScenario | test/bms/SensorsTests.java:15-35 | readings 67, 75, 82 at frequency 2 read 67, 67, 75 at minutes 0 to 2 and 67 at minute 6 |
| SensorConstruction.TemperatureScenario | test/bms/SensorsTests.java:123-136 | readings 5, 68, 69 give hazards 0, 100, 100 on successive minutes |
| SensorConstruction.TwoRegistered | test/bms/TimedItemManagerTest.java:25-41 | two constructed sensors are both registered, in order, at minute 0 |
| SensorConstruction.RegistryScenario | test/bms/TimedItemManagerTest.java:44-49 | two registry ticks bring both sensors to minute 2 |
| Rooms.InsertByType | src/bms/room/Room.java:172-174 | the insertion adds exactly the new sensor to the list's contents |
| Rooms.InsertKeepsSorted | src/bms/room/Room.java:172-174 | inserting a sensor of a type not yet present keeps the list strictly sorted by type name |
| Rooms.SortedByTypeUnique | src/bms/room/Room.java:172-174 | two lists that are strictly sorted by type and have the same contents are equal, so appending and then sorting, as the source does, gives the sorted insertion |
| Rooms.AtMostFourSensors | src/bms/room/Room.java:151-176 | a room never holds more than four sensors |
| Rooms.Room.constructor | src/bms/room/Room.java:42-48 | a new room has the given number, type and area, no fire drill and no sensors |
| Rooms.Room.FireDrillOngoing | src/bms/room/Room.java:92-94 | reports the room's fire-drill flag; with Rooms.Room.SetFireDrill it forms a round trip, since after setting b the getter returns b |
| Rooms.Room.SetFireDrill | src/bms/room/Room.java:115-117 | afterwards `FireDrillOngoing()` returns the given value: the set/get round trip |
| Rooms.Room.GetSensors | src/bms/room/Room.java:106-108 | the sensors come back sorted by type name with no type repeated, at most four of them |
| Rooms.Room.GetSensor | src/bms/room/Room.java:128-139 | the result is a sensor of the room with that class name, and it is None exactly when no sensor has that name |
| Rooms.Room.AddSensor | src/bms/room/Room.java:151-176 | fails with DuplicateSensor exactly when a sensor of the same type is present, leaving the list unchanged; otherwise inserts the sensor in type-name order, adding exactly that sensor to the contents; the list stays sorted |
| Floors.ScanRooms | src/bms/floor/Floor.java:78-86 | the scan fails only on a duplicate number actually present, or on lack of space on a non-empty floor |
| Floors.ScanPassIff | src/bms/floor/Floor.java:78-86 | the scan passes exactly when the number is free and, if the floor has rooms, the room fits |
| Floors.AddRoomCheckAsWritten | src/bms/floor/Floor.java:71-89 | as the source checks it: a room is accepted exactly when its area is at least the minimum, its number is free and, only if the floor already has rooms, it fits; IllegalArgument exactly for a too-small area |
| Floors.AddRoomCheck | src/bms/floor/Floor.java:71-89 | the only errors are IllegalArgument, DuplicateRoom and InsufficientSpace; a room is accepted exactly when its area is at least the minimum, its number is free and it fits; IllegalArgument exactly for a too-small area; with a legal area, a taken number alone gives DuplicateRoom and a lack of space alone gives InsufficientSpace; when both hold, DuplicateRoom exactly when the first room has the number, as the source's scan decides |
| Floors.OversizedFirstRoomAcceptedAsWritten | src/bms/floor/Floor.java:78-86 | the source accepts a first room larger than the whole floor; the corrected check refuses it with InsufficientSpace |
| Floors.CorrectionOnlyAffectsEmptyFloor | src/bms/floor/Floor.java:71-89 | on a floor that already has rooms the corrected check equals the source's |
| Floors.AsWrittenOverrunNeedsSingleRoom | src/bms/floor/Floor.java:78-86 | in the source, once the available area is negative every later room is refused |
| Floors.Floor.constructor | src/bms/floor/Floor.java:51-57 | a new floor keeps its number and dimensions, has no rooms, and has its whole area available |
| Floors.Floor.CalculateArea | src/bms/floor/Floor.java:111-113 | a floor of at least the minimum width and length has at least the minimum area |
| Floors.Floor.OccupiedArea | src/bms/floor/Floor.java:185-187 | the occupied area is the sum of the rooms' areas |
| Floors.Floor.GetRooms | src/bms/floor/Floor.java:98-100 | the rooms have distinct numbers and their areas sum to the occupied area |
| Floors.Floor.AddRoom | src/bms/floor/Floor.java:71-89 | the outcome is the corrected check; on success the room is appended and its area deducted; on failure nothing changes; the floor stays valid (distinct numbers, available area = floor area - rooms, never overrun) |
| Floors.Floor.GetRoomByNumber | src/bms/floor/Floor.java:167-177 | the result is the one room with that number, and it is None exactly when no room has that number |
| Floors.Floor.FireDrill | src/bms/floor/Floor.java:189-198 | every room of the given type (every room for None) is in a drill afterwards; other rooms keep their status; sensors are untouched |
| Floors.Floor.CancelFireDrill | src/bms/floor/Floor.java:204-208 | no room of the floor is in a drill afterwards |
| Buildings.LastBelow | src/bms/building/Building.java:141-156 | the floor found below has number n - 1 and belongs to the building; None exactly when there is no such floor |
| Buildings.StackingCheck | src/bms/building/Building.java:134-163 | the only errors are DuplicateFloor, NoFloorBelow and FloorTooSmall; DuplicateFloor exactly for a number in use; NoFloorBelow exactly for a new number other than 1 whose floor n - 1 is missing; FloorTooSmall only when floor n - 1 exists; a pass means a new number that floor 1 or a supporting floor below allows |
| Buildings.AddFloorCheckAsWritten | src/bms/building/Building.java:122-166 | as the source checks it: IllegalArgument exactly for floor number 0 or a dimension below the minimum; a pass means a non-zero number not in use, legal dimensions and, except for floor 1, support by the floor below |
| Buildings.AddFloorCheck | src/bms/building/Building.java:105-166 | the only errors are the four the method documents, in a fixed order: IllegalArgument exactly for a number <= 0 or a dimension below the minimum; with legal arguments, DuplicateFloor exactly for a number in use; then NoFloorBelow exactly when floor n - 1 is missing; FloorTooSmall only when floor n - 1 exists; a pass means every rule holds, including support by the floor below |
| Buildings.AddFloorCheckDecides | src/bms/building/Building.java:105-166 | in a stacked building, a floor is accepted exactly when its arguments are legal, its number is new and, above floor 1, the floor below supports it; it is refused as too small exactly when the floor below exists but is narrower or shorter |
| Buildings.BelowIsUnique | src/bms/building/Building.java:141-163 | with distinct floor numbers, a floor is supported exactly when the floor the source's search finds below is at least as wide and as long |
| Buildings.AddFloorPreservesStacking | src/bms/building/Building.java:122-166 | adding a floor that passes the check keeps the building stacked: distinct positive numbers, each floor above 1 resting on a floor at least as wide and as long |
| Buildings.AppendKeepsSupport | src/bms/building/Building.java:141-163 | floors that were supported stay supported when a floor is appended |
| Buildings.AppendKeepsNumbering | src/bms/building/Building.java:127-138 | appending a new positive number keeps the floor numbers distinct and positive |
| Buildings.StackedIsContiguous | src/bms/building/Building.java:141-156 | in a stacked building, if floor n exists then so does every floor from 1 to n |
| Buildings.NegativeFloorNumberAsWritten | src/bms/building/Building.java:127 | the source answers NoFloorBelow to a negative floor number; the corrected check answers IllegalArgument |
| Buildings.CorrectionOnlyAffectsNegativeNumbers | src/bms/building/Building.java:127-131 | for floor numbers >= 0 the corrected check equals the source's |
| Buildings.AsWrittenPreservesStacking | src/bms/building/Building.java:122-166 | even as written, a floor the source accepts keeps the building stacked |
| Buildings.RoomsOf | src/bms/building/Building.java:71-80 | every room on every floor belongs to the building's room set |
| Buildings.RoomsOfOnlyFloorRooms | src/bms/building/Building.java:71-80 | the building's room set holds only rooms on its floors |
| Buildings.Building.constructor | src/bms/building/Building.java:34-37 | a new building has no floors |
| Buildings.Building.GetFloors | src/bms/building/Building.java:46-48 | the floors returned are stacked |
| Buildings.Building.AddFloor | src/bms/building/Building.java:122-166 | the outcome is the corrected check; on success the floor is appended; on failure the floors are unchanged; the building stays stacked |
| Buildings.Building.NumberTaken | src/bms/building/Building.java:134-138 | the search finds the number exactly when a floor has it |
| Buildings.Building.FloorBelow | src/bms/building/Building.java:141-156 | the search returns the floor numbered n - 1, or null when there is none |
| Buildings.Building.GetFloorByNumber | src/bms/building/Building.java:176-185 | the result is the one floor with that number, and it is None exactly when no floor has it |
| Buildings.Building.FireDrill | src/bms/building/Building.java:51-82 | fails with FireDrillNotPossible exactly when there are no floors or no rooms, changing nothing; otherwise every room of the given type (every room for None) on every floor is in a drill, other rooms keep their status, and sensors are untouched |
| Buildings.Building.CancelFireDrill | src/bms/building/Building.java:88-94 | no room on any floor is in a drill afterwards |
| Scenarios.FiveSensors | test/bms/RoomTest.java:36-41 | the five test sensors are built with the test's kinds and parameters, all over the readings 67, 75, 82, with frequencies 2, 2, 2, 1 and 3 |
| Scenarios.AddInFront | src/bms/room/Room.java:172-174 | a sensor whose type sorts before every present one is accepted and placed first |
| Scenarios.FullRoom | test/bms/RoomTest.java:46-49 | adding temperature, occupancy, noise and CO2 sensors in that order leaves them in alphabetical order |
| Scenarios.SensorOrderScenario | test/bms/RoomTest.java:46-52 | the sensor names come back as CarbonDioxideSensor, NoiseSensor, OccupancySensor, TemperatureSensor |
| Scenarios.SensorLookupScenario | test/bms/RoomTest.java:54 | looking up "NoiseSensor" gives the room's sensor of the noise kind |
| Scenarios.DuplicateSensorScenario | test/bms/RoomTest.java:60-76 | a second occupancy sensor is refused with DuplicateSensor |
| Scenarios.FloorOf110 | test/bms/floor/FloorTest.java:27-40 | a 20 × 25 floor with rooms of 30, 35 and 45 square metres has 390 left |
| Scenarios.FloorScenario | test/bms/floor/FloorTest.java:125-135 | that floor's occupied area is 110, and room 2 is found by number |
| Scenarios.RoomRefusalsScenario | test/bms/floor/FloorTest.java:66-80 | a repeated number, a 400 m² room and a 4 m² room are refused with DuplicateRoom, InsufficientSpace and IllegalArgument |
| Scenarios.FloorDrillScenario | test/bms/floor/FloorTest.java:153-176 | a laboratory drill flags exactly the two laboratories; a cancel clears all three |
| Scenarios.SquareFloorOfTwo | test/bms/BuildingTest.java:100-118 | a square floor with two 10 m² rooms is built as described |
| Scenarios.StackOfTwo | test/bms/BuildingTest.java:119-123 | two floors stacked in order are both accepted |
| Scenarios.TwoStoreyBuilding | test/bms/BuildingTest.java:100-123 | a two-storey building holds exactly its four rooms |
| Scenarios.BuildingLookupScenario | test/bms/BuildingTest.java:125 | floor 2 is found by number |
| Scenarios.BuildingDrillScenario | src/bms/building/Building.java:71-80 | a study drill flags the two studies and neither laboratory |
| Scenarios.BuildingCancelScenario | test/bms/BuildingTest.java:54-63 | a drill followed by a cancel leaves every room out of drill |
| Scenarios.EmptyDrillScenario | test/bms/BuildingTest.java:15-21 | a drill in a building without floors fails with FireDrillNotPossible |
| Scenarios.RoomlessDrillScenario | test/bms/BuildingTest.java:23-34 | a drill in a building whose floors have no rooms fails with FireDrillNotPossible |
| Scenarios.OneFloorBuilding | test/bms/BuildingTest.java:76-80 | a building holding just a 10 × 5 floor numbered 1 |
| Scenarios.ArgumentRefusalsScenario | test/bms/BuildingTest.java:68-81 | a 4 m wide floor is refused with IllegalArgument and a repeated number with DuplicateFloor |
| Scenarios.StackingRefusalsScenario | test/bms/BuildingTest.java:83-97 | a 10 × 5 floor 2 added to an empty building is refused with NoFloorBelow; a 10 × 6 floor 2 over a 10 × 5 floor 1 is refused with FloorTooSmall |

## Left out

- `toString` of every class, `arrayString` and the string formats: text rendering only.
- The noise sensor's hazard level and relative loudness: both are floating-point logarithms. `HazardOf` returns `None` for noise sensors. The noise sensor is otherwise modelled: its construction, its name and its place in the room order.
- Areas, widths and lengths are `double` in the source and exact `real`s here. `occupiedArea`'s cast to `float` and any rounding in the area budget are not modelled.
- Hazards.OccupancyHazard: the source rounds a `float` quotient. The model rounds the exact ratio half up, so it may differ where the quotient lands next to a .5 boundary.
- Sensors.TimedSensor.ElapseOneMinute: elapsed time is an unbounded `nat`; the source's `int` counter wraps after 2^31 - 1 minutes.
- TimedItems.ManagerSlot.GetInstance: the static field becomes an explicit slot object. Sensor constructors receive the registry as a parameter instead of calling `getInstance()`.
- SensorConstruction.NewTimedSensor: the sensor stores a copy of the readings. The source keeps the caller's array, so later writes to that array would change its readings.
- The registry holds timed sensors only. Other kinds of `TimedItem` are not part of this model.
- Sensor types are compared through a closed variant and its class names, not through reflection (`getClass().getSimpleName()`).
- The `FireDrill` interface is not modelled as a type. `Floor` and `Building` each provide its two operations.
- Buildings.Building.FireDrill: the per-floor loop calls `Floor.FireDrill`, which applies the same type filter as the source's inline loop over each floor's rooms.
- Floors.Floor.FireDrill and Buildings.Building.FireDrill: when one room object appears on several floors, the source sets it twice. The model's postcondition holds regardless.
- Simple getters of constant fields (`getName`, `getRoomNumber`, `getType`, `getArea`, `getWidth`, `getLength`, `getFloorNumber`, `getMinArea`, `getMinWidth`, `getMinLength`, `getIdealValue`, `getVariationLimit`, `getCapacity`) are the Dafny `const` fields or one-line functions.
- Getters that return a copy of a list (`getSensors`, `getRooms`, `getFloors`) return a `seq`. That value cannot alias the object's own list.

## Findings

The class methods use the corrected definitions in every row. The as-written definitions appear only in the lemmas that exhibit each defect.

| source | as written | input that shows it | evidently intended | confidence | as-written member | corrected member |
|---|---|---|---|---|---|---|
| src/bms/sensors/TimedSensor.java:52-68 | the readings array is checked for null and negative values, but not for emptiness | `new NoiseSensor(new int[0], 1)` is accepted; the first tick on a multiple of the frequency computes a modulo by the readings' length (zero) at TimedSensor.java:108-109 and throws ArithmeticException out of the registry's tick, and `getCurrentReading()` indexes an empty array | readings must be non-empty, as the constructor's documentation requires | not executed | Sensors.EmptyReadingsAcceptedAsWritten | Sensors.Construct |
| src/bms/sensors/CarbonDioxideSensor.java:42-46 | the subclass checks its parameters after `super(...)` has already registered the sensor (TimedSensor.java:74); OccupancySensor.java:28-32 does the same | `new OccupancySensor({1}, 1, -1)` throws, but the half-built sensor stays in the registry and keeps ticking | a rejected sensor is never registered | not executed | Sensors.RejectedSensorRegisteredAsWritten | Sensors.Construct |
| src/bms/floor/Floor.java:78-86 | the space check sits inside the loop over existing rooms, so it never runs on an empty floor | on a new 5 × 5 floor, `addRoom(new Room(1, STUDY, 100))` is accepted and leaves the available area at -75 | a room that does not fit is refused whether or not the floor has rooms | not executed | Floors.OversizedFirstRoomAcceptedAsWritten | Floors.AddRoomCheck |
| src/bms/building/Building.java:127 | only floor number 0 is rejected as an illegal argument | `addFloor(new Floor(-1, 10, 10))` on a building throws NoFloorBelowException instead of IllegalArgumentException | a floor number <= 0 is an illegal argument, as the method's documentation at line 113 says | not executed | Buildings.NegativeFloorNumberAsWritten | Buildings.AddFloorCheck |
