/**
 * Timed sensors: a fixed series of non-negative readings stepped through on a
 * timer, and the validation their constructors perform.
 */
module Sensors {
  import opened Common
  import opened SensorKinds
  import opened Hazards
  import opened Timing

  const MinFrequency: int := 1
  const MaxFrequency: int := 5

  predicate AllNonNegative(s: seq<int>)
  {
    forall i :: 0 <= i < |s| ==> s[i] >= 0
  }

  /**
   * The checks a concrete sensor class adds to those of the timed sensor. A
   * temperature sensor has no frequency argument: its constructor always passes 1.
   */
  predicate ParamsOk(kind: SensorKind, frequency: int)
  {
    match kind
    case CarbonDioxide(ideal, variation) => ideal > 0 && variation > 0 && ideal - variation >= 0
    case Noise => true
    case Occupancy(capacity) => capacity >= 0
    case Temperature => frequency == 1
  }

  /** Whether a construction left an entry in the registry, and whether it returned a sensor. */
  datatype Construction = Construction(registered: bool, accepted: bool)

  /**
   * Construction as the source performs it: a missing readings array, a negative
   * reading or a frequency outside [1, 5] is rejected before registration; an
   * empty array is not checked; the subclass's own parameters are checked only
   * after the sensor has been registered.
   */
  function ConstructAsWritten(readings: Option<seq<int>>, frequency: int, kind: SensorKind): (c: Construction)
    ensures c.registered <==> readings.Some? && MinFrequency <= frequency <= MaxFrequency && AllNonNegative(readings.value)
    ensures c.accepted <==> c.registered && ParamsOk(kind, frequency)
  {
    if readings.None? then Construction(false, false)
    else if frequency < MinFrequency || frequency > MaxFrequency || !AllNonNegative(readings.value) then Construction(false, false)
    else Construction(true, ParamsOk(kind, frequency))
  }

  /**
   * Construction as documented: every argument, the non-emptiness of the readings
   * included, is checked before anything is registered.
   */
  function Construct(readings: Option<seq<int>>, frequency: int, kind: SensorKind): (c: Construction)
    ensures c.accepted <==> && readings.Some? && |readings.value| >= 1 && AllNonNegative(readings.value)
                            && MinFrequency <= frequency <= MaxFrequency && ParamsOk(kind, frequency)
    ensures c.registered ==> c.accepted
    ensures kind.Temperature? && c.accepted ==> frequency == 1
  {
    var ok := readings.Some? && |readings.value| >= 1 && AllNonNegative(readings.value)
      && MinFrequency <= frequency <= MaxFrequency && ParamsOk(kind, frequency);
    Construction(ok, ok)
  }

  /** The source accepts an empty readings array, for which no current reading exists. */
  lemma EmptyReadingsAcceptedAsWritten(frequency: int, kind: SensorKind)
    requires MinFrequency <= frequency <= MaxFrequency && ParamsOk(kind, frequency)
    ensures ConstructAsWritten(Some([]), frequency, kind).accepted
    ensures !Construct(Some([]), frequency, kind).accepted
  {
  }

  /**
   * In the source a sensor whose own parameters are rejected still stays
   * registered. Only the carbon dioxide and occupancy constructors have such
   * parameters; a temperature sensor always passes frequency 1, so its case is
   * excluded here.
   */
  lemma RejectedSensorRegisteredAsWritten(readings: seq<int>, frequency: int, kind: SensorKind)
    requires MinFrequency <= frequency <= MaxFrequency && AllNonNegative(readings) && !ParamsOk(kind, frequency)
    requires !kind.Temperature?
    ensures ConstructAsWritten(Some(readings), frequency, kind) == Construction(true, false)
    ensures Construct(Some(readings), frequency, kind) == Construction(false, false)
  {
  }

  /** The corrected construction differs from the source only in the two defects above. */
  lemma ConstructRefinesAsWritten(readings: Option<seq<int>>, frequency: int, kind: SensorKind)
    ensures Construct(readings, frequency, kind).accepted
        <==> ConstructAsWritten(readings, frequency, kind).accepted && |readings.value| >= 1
    ensures Construct(readings, frequency, kind).registered ==> ConstructAsWritten(readings, frequency, kind).registered
  {
  }

  class TimedSensor {
    const readings: seq<int>
    const updateFrequency: int
    const kind: SensorKind
    var timeElapsed: nat
    var readingIndex: nat

    /** The index always agrees with the closed form, so it is always in bounds. */
    ghost predicate Valid()
      reads this
    {
      && Construct(Some(readings), updateFrequency, kind).accepted
      && readingIndex == IndexAt(timeElapsed, updateFrequency, |readings|)
    }

    constructor (readings: seq<int>, updateFrequency: int, kind: SensorKind)
      requires Construct(Some(readings), updateFrequency, kind).accepted
      ensures Valid()
      ensures this.readings == readings && this.updateFrequency == updateFrequency && this.kind == kind
      ensures timeElapsed == 0 && readingIndex == 0
    {
      this.readings := readings;
      this.updateFrequency := updateFrequency;
      this.kind := kind;
      timeElapsed := 0;
      readingIndex := 0;
    }

    /** Between one and five minutes; always one for a temperature sensor. */
    function UpdateFrequency(): (f: int)
      reads this
      requires Valid()
      ensures MinFrequency <= f <= MaxFrequency
      ensures kind.Temperature? ==> f == 1
    {
      updateFrequency
    }

    /** The minutes elapsed since construction, which determine the current reading. */
    function TimeElapsed(): (t: nat)
      reads this
      requires Valid()
      ensures readingIndex == IndexAt(t, updateFrequency, |readings|)
    {
      timeElapsed
    }

    /** The reading the closed-form index selects. */
    function CurrentReading(): (r: int)
      reads this
      requires Valid()
      ensures r == readings[IndexAt(timeElapsed, updateFrequency, |readings|)]
      ensures r >= 0
    {
      readings[readingIndex]
    }

    function HazardLevel(): (h: Option<int>)
      reads this
      requires Valid()
      ensures h == HazardOf(kind, readings[IndexAt(timeElapsed, updateFrequency, |readings|)])
      ensures h.Some? ==> 0 <= h.value <= 100
    {
      HazardOf(kind, CurrentReading())
    }

    function IdealValue(): int
      requires kind.CarbonDioxide?
    {
      kind.idealValue
    }

    function VariationLimit(): int
      requires kind.CarbonDioxide?
    {
      kind.variationLimit
    }

    function Capacity(): int
      requires kind.Occupancy?
    {
      kind.capacity
    }

    /** One minute passes: time rises by one, and the index moves only on a multiple of the frequency. */
    method ElapseOneMinute()
      requires Valid()
      modifies this
      ensures Valid()
      ensures timeElapsed == old(timeElapsed) + 1
      ensures readingIndex != old(readingIndex) ==> timeElapsed % updateFrequency == 0
    {
      timeElapsed := timeElapsed + 1;
      if timeElapsed % updateFrequency == 0 {
        readingIndex := (timeElapsed / updateFrequency) % |readings|;
      } else {
        StepWithinPeriod(timeElapsed - 1, updateFrequency, |readings|);
      }
    }
  }
}
