/**
 * The four concrete sensor classes as one closed variant. Each variant carries the
 * parameters its class adds to a timed sensor; the class's simple name is the
 * sensor's type name, and rooms order their sensors by it.
 */
module SensorKinds {

  datatype SensorKind =
    | CarbonDioxide(idealValue: int, variationLimit: int)
    | Noise
    | Occupancy(capacity: int)
    | Temperature

  /** The simple class name of the sensor's Java class. */
  function TypeName(k: SensorKind): string
  {
    match k
    case CarbonDioxide(_, _) => "CarbonDioxideSensor"
    case Noise => "NoiseSensor"
    case Occupancy(_) => "OccupancySensor"
    case Temperature => "TemperatureSensor"
  }

  /** Position of the type name in alphabetical order. */
  function Rank(k: SensorKind): (r: nat)
    ensures r < 4
  {
    match k
    case CarbonDioxide(_, _) => 0
    case Noise => 1
    case Occupancy(_) => 2
    case Temperature => 3
  }

  /** Strict lexicographic order on strings, as String.compareTo orders them. */
  predicate NameBefore(a: string, b: string)
  {
    if a == [] then b != []
    else if b == [] then false
    else if a[0] != b[0] then a[0] < b[0]
    else NameBefore(a[1..], b[1..])
  }

  /** Two sensors have the same type exactly when their type names are equal. */
  lemma SameRankIffSameName(k1: SensorKind, k2: SensorKind)
    ensures Rank(k1) == Rank(k2) <==> TypeName(k1) == TypeName(k2)
  {
    if Rank(k1) != Rank(k2) {
      assert TypeName(k1)[0] != TypeName(k2)[0];
    }
  }

  /** Ordering by rank is ordering by type name, the key the source sorts by. */
  lemma RankOrderIsNameOrder(k1: SensorKind, k2: SensorKind)
    ensures Rank(k1) < Rank(k2) <==> NameBefore(TypeName(k1), TypeName(k2))
  {
    var a, b := TypeName(k1), TypeName(k2);
    if Rank(k1) == Rank(k2) {
      assert a == b;
      NameBeforeIrreflexive(a);
    } else {
      assert a[0] != b[0];
    }
  }

  lemma {:induction false} NameBeforeIrreflexive(a: string)
    ensures !NameBefore(a, a)
  {
    if a != [] {
      NameBeforeIrreflexive(a[1..]);
    }
  }
}
