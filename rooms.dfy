/**
 * Rooms: a fixed number, type and area, a fire-drill flag, and at most one
 * sensor of each type kept in alphabetical order of type name.
 */
module Rooms {
  import opened Common
  import opened SensorKinds
  import opened Sensors

  datatype RoomType = Study | Office | Laboratory

  const MinArea: real := 5.0

  /** Strictly increasing type names: sorted, and no type twice. */
  predicate SortedByType(sensors: seq<TimedSensor>)
  {
    forall i, j :: 0 <= i < j < |sensors| ==> Rank(sensors[i].kind) < Rank(sensors[j].kind)
  }

  predicate HasType(sensors: seq<TimedSensor>, kind: SensorKind)
  {
    exists i :: 0 <= i < |sensors| && Rank(sensors[i].kind) == Rank(kind)
  }

  /** Places a sensor before the first sensor whose type name is not smaller. */
  function InsertByType(sensors: seq<TimedSensor>, s: TimedSensor): (r: seq<TimedSensor>)
    ensures |r| == |sensors| + 1
    ensures multiset(r) == multiset(sensors) + multiset{s}
  {
    if sensors == [] then [s]
    else if Rank(s.kind) <= Rank(sensors[0].kind) then [s] + sensors
    else
      assert sensors == [sensors[0]] + sensors[1..];
      [sensors[0]] + InsertByType(sensors[1..], s)
  }

  /** Inserting a sensor of a type not yet present keeps the list sorted by type. */
  lemma {:induction false} InsertKeepsSorted(sensors: seq<TimedSensor>, s: TimedSensor)
    requires SortedByType(sensors) && !HasType(sensors, s.kind)
    ensures SortedByType(InsertByType(sensors, s))
  {
    if sensors == [] {
    } else if Rank(s.kind) <= Rank(sensors[0].kind) {
      assert Rank(s.kind) != Rank(sensors[0].kind);
      assert forall j :: 0 <= j < |sensors| ==> Rank(s.kind) < Rank(sensors[j].kind);
    } else {
      var tail := sensors[1..];
      assert forall i :: 0 <= i < |tail| ==> tail[i] == sensors[i + 1];
      InsertKeepsSorted(tail, s);
      InsertBehindHead(sensors[0], tail, s);
    }
  }

  /** A head of smaller type than both the tail and the inserted sensor stays first. */
  lemma InsertBehindHead(head: TimedSensor, tail: seq<TimedSensor>, s: TimedSensor)
    requires SortedByType(InsertByType(tail, s))
    requires forall i :: 0 <= i < |tail| ==> Rank(head.kind) < Rank(tail[i].kind)
    requires Rank(head.kind) < Rank(s.kind)
    ensures SortedByType([head] + InsertByType(tail, s))
  {
    var rest := InsertByType(tail, s);
    forall j | 0 <= j < |rest|
      ensures Rank(head.kind) < Rank(rest[j].kind)
    {
      assert rest[j] in multiset(rest);
      if rest[j] != s {
        assert rest[j] in multiset(tail);
        assert rest[j] in tail;
      }
    }
  }

  /** The head of a sorted list has the least type of its elements, and is the only one of that type. */
  lemma HeadIsLeast(a: seq<TimedSensor>, x: TimedSensor)
    requires SortedByType(a) && x in a
    ensures Rank(a[0].kind) <= Rank(x.kind)
    ensures Rank(x.kind) == Rank(a[0].kind) ==> x == a[0]
  {
    var k :| 0 <= k < |a| && a[k] == x;
  }

  /**
   * A list sorted by a key on which no two elements agree is fixed by its
   * contents: appending and sorting yields exactly the sorted insertion.
   */
  lemma {:induction false} SortedByTypeUnique(a: seq<TimedSensor>, b: seq<TimedSensor>)
    requires SortedByType(a) && SortedByType(b) && multiset(a) == multiset(b)
    ensures a == b
  {
    if a == [] {
      assert |b| == |multiset(b)| == 0;
    } else {
      assert a[0] in multiset(b);
      assert b[0] in multiset(a);
      HeadIsLeast(b, a[0]);
      HeadIsLeast(a, b[0]);
      assert a[0] == b[0];
      TailMultiset(a);
      TailMultiset(b);
      SortedByTypeUnique(a[1..], b[1..]);
    }
  }

  lemma TailMultiset(a: seq<TimedSensor>)
    requires a != []
    ensures multiset(a[1..]) == multiset(a) - multiset{a[0]}
  {
    assert a == [a[0]] + a[1..];
  }

  /** Sorted with distinct types from four, a room holds at most four sensors. */
  lemma {:induction false} AtMostFourSensors(sensors: seq<TimedSensor>)
    requires SortedByType(sensors)
    ensures |sensors| <= 4
  {
    if |sensors| > 0 {
      RankAtLeastPosition(sensors, |sensors| - 1);
    }
  }

  lemma {:induction false} RankAtLeastPosition(sensors: seq<TimedSensor>, i: nat)
    requires SortedByType(sensors) && i < |sensors|
    ensures Rank(sensors[i].kind) >= i
  {
    if i > 0 {
      RankAtLeastPosition(sensors, i - 1);
    }
  }

  class Room {
    const roomNumber: int
    const roomType: RoomType
    const area: real
    var fireDrill: bool
    var sensors: seq<TimedSensor>

    ghost predicate Valid()
      reads this
    {
      SortedByType(sensors)
    }

    /** The area is not validated here; floors check it when the room is added. */
    constructor (roomNumber: int, roomType: RoomType, area: real)
      ensures Valid()
      ensures this.roomNumber == roomNumber && this.roomType == roomType && this.area == area
      ensures !fireDrill && sensors == []
    {
      this.roomNumber := roomNumber;
      this.roomType := roomType;
      this.area := area;
      fireDrill := false;
      sensors := [];
    }

    /** Whether a fire drill is in progress in this room. */
    function FireDrillOngoing(): (b: bool)
      reads this
      ensures b <==> fireDrill
    {
      fireDrill
    }

    method SetFireDrill(b: bool)
      modifies this`fireDrill
      ensures FireDrillOngoing() == b
    {
      fireDrill := b;
    }

    /** The sensors in alphabetical order of type name; a value, so callers cannot alter the room's list. */
    function GetSensors(): (r: seq<TimedSensor>)
      reads this
      requires Valid()
      ensures SortedByType(r) && |r| <= 4
    {
      AtMostFourSensors(sensors);
      sensors
    }

    /** The sensor whose type name is the given name, if any. */
    method GetSensor(name: string) returns (r: Option<TimedSensor>)
      requires Valid()
      ensures r.Some? ==> r.value in sensors && TypeName(r.value.kind) == name
      ensures r.None? <==> forall s :: s in sensors ==> TypeName(s.kind) != name
    {
      r := None;
      var i := 0;
      while i < |sensors|
        invariant 0 <= i <= |sensors|
        invariant r.Some? ==> r.value in sensors && TypeName(r.value.kind) == name
        invariant r.None? <==> forall k :: 0 <= k < i ==> TypeName(sensors[k].kind) != name
      {
        if TypeName(sensors[i].kind) == name {
          r := Some(sensors[i]);
        }
        i := i + 1;
      }
    }

    /** Rejects a second sensor of a type already present; otherwise inserts it in type-name order. */
    method AddSensor(sensor: TimedSensor) returns (r: Outcome)
      requires Valid()
      modifies this`sensors
      ensures Valid()
      ensures r == (if HasType(old(sensors), sensor.kind) then Fail(DuplicateSensor) else Pass)
      ensures r.Fail? ==> sensors == old(sensors)
      ensures r.Pass? ==> sensors == InsertByType(old(sensors), sensor)
      ensures r.Pass? ==> multiset(sensors) == multiset(old(sensors)) + multiset{sensor}
    {
      var duplicate := false;
      var i := 0;
      while i < |sensors|
        invariant 0 <= i <= |sensors|
        invariant !duplicate
        invariant forall k :: 0 <= k < i ==> TypeName(sensors[k].kind) != TypeName(sensor.kind)
      {
        if TypeName(sensors[i].kind) == TypeName(sensor.kind) {
          duplicate := true;
          break;
        }
        i := i + 1;
      }
      forall k | 0 <= k < i {
        SameRankIffSameName(sensors[k].kind, sensor.kind);
      }
      if duplicate {
        SameRankIffSameName(sensors[i].kind, sensor.kind);
        return Fail(DuplicateSensor);
      }
      InsertKeepsSorted(sensors, sensor);
      sensors := InsertByType(sensors, sensor);
      r := Pass;
    }
  }
}
