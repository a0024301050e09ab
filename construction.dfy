/**
 * The constructors of the timed sensor and its concrete classes. The registry a
 * sensor joins is passed in; a rejected argument yields IllegalArgument and
 * registers nothing.
 */
module SensorConstruction {
  import opened Common
  import opened SensorKinds
  import opened Sensors
  import opened TimedItems
  import opened Timing

  /** The scan of the readings for a value below zero, stopping at the first one. */
  method HasNegative(a: array<int>) returns (found: bool)
    ensures found <==> !AllNonNegative(a[..])
  {
    found := false;
    var i := 0;
    while i < a.Length
      invariant 0 <= i <= a.Length
      invariant !found
      invariant forall k :: 0 <= k < i ==> a[k] >= 0
    {
      if a[i] < 0 {
        found := true;
        break;
      }
      i := i + 1;
    }
  }

  /** A sensor just constructed from the given arguments: valid, at minute 0, on its first reading. */
  ghost predicate Built(s: TimedSensor, readings: seq<int>, frequency: int, kind: SensorKind)
    reads s
  {
    && s.Valid() && s.readings == readings && s.updateFrequency == frequency && s.kind == kind
    && s.timeElapsed == 0 && s.CurrentReading() == readings[0]
  }

  /** The readings a caller passed, or None for a null array. */
  function Input(readings: array?<int>): Option<seq<int>>
    reads readings
  {
    if readings == null then None else Some(readings[..])
  }

  /**
   * Validates every argument and only then creates the sensor and registers it.
   * The sensor keeps a copy of the readings.
   */
  method NewTimedSensor(manager: TimedItemManager, readings: array?<int>, frequency: int, kind: SensorKind)
    returns (r: Result<TimedSensor>)
    requires manager.Valid()
    modifies manager
    ensures manager.Valid()
    ensures r.Ok? <==> Construct(Input(readings), frequency, kind).accepted
    ensures r.Ok? ==> && fresh(r.value) && Built(r.value, readings[..], frequency, kind)
                      && manager.items == old(manager.items) + [r.value]
    ensures r.Err? ==> r.error == IllegalArgument && manager.items == old(manager.items)
  {
    if readings == null {
      return Err(IllegalArgument);
    }
    var negative := HasNegative(readings);
    if frequency < MinFrequency || frequency > MaxFrequency || negative {
      return Err(IllegalArgument);
    }
    if readings.Length == 0 || !ParamsOk(kind, frequency) {
      return Err(IllegalArgument);
    }
    var s := new TimedSensor(readings[..], frequency, kind);
    manager.RegisterTimedItem(s);
    r := Ok(s);
  }

  method NewCarbonDioxideSensor(manager: TimedItemManager, readings: array?<int>, frequency: int,
                                idealValue: int, variationLimit: int)
    returns (r: Result<TimedSensor>)
    requires manager.Valid()
    modifies manager
    ensures manager.Valid()
    ensures r.Ok? <==> && readings != null && readings.Length >= 1 && AllNonNegative(readings[..])
                       && MinFrequency <= frequency <= MaxFrequency
                       && idealValue > 0 && variationLimit > 0 && idealValue - variationLimit >= 0
    ensures r.Ok? ==> && fresh(r.value) && Built(r.value, readings[..], frequency, CarbonDioxide(idealValue, variationLimit))
                      && r.value.IdealValue() == idealValue && r.value.VariationLimit() == variationLimit
                      && manager.items == old(manager.items) + [r.value]
    ensures r.Err? ==> manager.items == old(manager.items)
  {
    r := NewTimedSensor(manager, readings, frequency, CarbonDioxide(idealValue, variationLimit));
  }

  method NewNoiseSensor(manager: TimedItemManager, readings: array?<int>, frequency: int)
    returns (r: Result<TimedSensor>)
    requires manager.Valid()
    modifies manager
    ensures manager.Valid()
    ensures r.Ok? <==> && readings != null && readings.Length >= 1 && AllNonNegative(readings[..])
                       && MinFrequency <= frequency <= MaxFrequency
    ensures r.Ok? ==> && fresh(r.value) && Built(r.value, readings[..], frequency, Noise)
                      && manager.items == old(manager.items) + [r.value]
    ensures r.Err? ==> manager.items == old(manager.items)
  {
    r := NewTimedSensor(manager, readings, frequency, Noise);
  }

  method NewOccupancySensor(manager: TimedItemManager, readings: array?<int>, frequency: int, capacity: int)
    returns (r: Result<TimedSensor>)
    requires manager.Valid()
    modifies manager
    ensures manager.Valid()
    ensures r.Ok? <==> && readings != null && readings.Length >= 1 && AllNonNegative(readings[..])
                       && MinFrequency <= frequency <= MaxFrequency && capacity >= 0
    ensures r.Ok? ==> && fresh(r.value) && Built(r.value, readings[..], frequency, Occupancy(capacity))
                      && r.value.Capacity() == capacity
                      && manager.items == old(manager.items) + [r.value]
    ensures r.Err? ==> manager.items == old(manager.items)
  {
    r := NewTimedSensor(manager, readings, frequency, Occupancy(capacity));
  }

  /** The frequency of a temperature sensor is fixed at one minute. */
  method NewTemperatureSensor(manager: TimedItemManager, readings: array?<int>)
    returns (r: Result<TimedSensor>)
    requires manager.Valid()
    modifies manager
    ensures manager.Valid()
    ensures r.Ok? <==> readings != null && readings.Length >= 1 && AllNonNegative(readings[..])
    ensures r.Ok? ==> && fresh(r.value) && Built(r.value, readings[..], 1, Temperature)
                      && r.value.UpdateFrequency() == 1
                      && manager.items == old(manager.items) + [r.value]
    ensures r.Err? ==> manager.items == old(manager.items)
  {
    r := NewTimedSensor(manager, readings, 1, Temperature);
  }

  /** A noise sensor of frequency 2 over 67, 75, 82, read at minutes 0, 1, 2 and 6. */
  method FrequencyTwoScenario() returns (at0: int, at1: int, at2: int, at6: int)
    ensures at0 == 67 && at1 == 67 && at2 == 75 && at6 == 67
  {
    var manager := new TimedItemManager();
    var a := new int[3] [67, 75, 82];
    assert a[..] == [67, 75, 82];
    var r := NewNoiseSensor(manager, a, 2);
    var s := r.value;
    at0 := s.CurrentReading();
    s.ElapseOneMinute();
    assert s.timeElapsed == 1 && IndexAt(1, 2, 3) == 0;
    at1 := s.CurrentReading();
    s.ElapseOneMinute();
    assert s.timeElapsed == 2 && IndexAt(2, 2, 3) == 1;
    at2 := s.CurrentReading();
    s.ElapseOneMinute();
    s.ElapseOneMinute();
    s.ElapseOneMinute();
    s.ElapseOneMinute();
    assert s.timeElapsed == 6 && IndexAt(6, 2, 3) == 0;
    at6 := s.CurrentReading();
  }

  /** A temperature sensor over 5, 68, 69 reports hazards 0, 100, 100 on successive minutes. */
  method TemperatureScenario() returns (h0: int, h1: int, h2: int)
    ensures h0 == 0 && h1 == 100 && h2 == 100
  {
    var manager := new TimedItemManager();
    var a := new int[3] [5, 68, 69];
    assert a[..] == [5, 68, 69];
    var r := NewTemperatureSensor(manager, a);
    var s := r.value;
    assert manager.items == [s];
    h0 := s.HazardLevel().value;
    manager.ElapseOneMinute();
    assert s.timeElapsed == 1 && IndexAt(1, 1, 3) == 1;
    h1 := s.HazardLevel().value;
    manager.ElapseOneMinute();
    assert s.timeElapsed == 2 && IndexAt(2, 1, 3) == 2;
    h2 := s.HazardLevel().value;
  }

  /** A registry holding an occupancy sensor and a temperature sensor, both at minute 0. */
  method TwoRegistered() returns (manager: TimedItemManager, s1: TimedSensor, s2: TimedSensor)
    ensures fresh(manager) && fresh(s1) && fresh(s2) && manager.Valid()
    ensures manager.items == [s1, s2] && s1 != s2 && s1.timeElapsed == 0 && s2.timeElapsed == 0
  {
    manager := new TimedItemManager();
    var a := new int[3] [8, 9, 42];
    var r1 := NewOccupancySensor(manager, a, 3, 21);
    var r2 := NewTemperatureSensor(manager, a);
    s1, s2 := r1.value, r2.value;
  }

  /** Two sensors built on one registry both show two minutes after two registry ticks. */
  method RegistryScenario() returns (t1: nat, t2: nat)
    ensures t1 == 2 && t2 == 2
  {
    var manager, s1, s2 := TwoRegistered();
    assert multiset(manager.items)[s1] == 1 && multiset(manager.items)[s2] == 1;
    manager.ElapseOneMinute();
    manager.ElapseOneMinute();
    t1, t2 := s1.TimeElapsed(), s2.TimeElapsed();
  }
}
