/**
 * Buildings: an ordered collection of floors that must stack, floor n resting on
 * a floor n - 1 at least as wide and as long, and the fire-drill broadcast to
 * every room of every floor.
 */
module Buildings {
  import opened Common
  import opened Rooms
  import opened Floors

  predicate HasNumber(floors: seq<Floor>, number: int)
  {
    exists k :: 0 <= k < |floors| && floors[k].floorNumber == number
  }

  /** Some floor one level down is at least as wide and as long as f. */
  predicate Supported(floors: seq<Floor>, f: Floor)
  {
    exists k :: 0 <= k < |floors| && floors[k].floorNumber == f.floorNumber - 1
                && floors[k].width >= f.width && floors[k].length >= f.length
  }

  /** Distinct floor numbers, all at least 1, and every upper floor supported. */
  predicate Stacked(floors: seq<Floor>)
  {
    && (forall i, j :: 0 <= i < j < |floors| ==> floors[i].floorNumber != floors[j].floorNumber)
    && (forall i :: 0 <= i < |floors| ==> floors[i].floorNumber >= 1)
    && (forall i :: 0 <= i < |floors| && floors[i].floorNumber > 1 ==> Supported(floors, floors[i]))
  }

  /** The floor the source's search settles on: the last one numbered one below. */
  function LastBelow(floors: seq<Floor>, number: int): (r: Option<Floor>)
    ensures r.Some? ==> r.value in floors && r.value.floorNumber + 1 == number
    ensures r.None? <==> !HasNumber(floors, number - 1)
  {
    if floors == [] then None
    else if floors[|floors| - 1].floorNumber + 1 == number then Some(floors[|floors| - 1])
    else
      var r := LastBelow(floors[..|floors| - 1], number);
      assert HasNumber(floors, number - 1) <==> HasNumber(floors[..|floors| - 1], number - 1) by {
        if HasNumber(floors, number - 1) {
          var k :| 0 <= k < |floors| && floors[k].floorNumber == number - 1;
          assert floors[..|floors| - 1][k].floorNumber == number - 1;
        }
      }
      r
  }

  /** A positive floor number and at least the minimum width and length. */
  predicate LegalArguments(f: Floor)
  {
    f.floorNumber >= 1 && f.width >= MinWidth && f.length >= MinLength
  }

  /**
   * The duplicate, floor-below and size checks, in the source's order: a used
   * number is reported first, then a missing floor below, then a floor below
   * that is too small. Floor 1 needs nothing below it.
   */
  function StackingCheck(floors: seq<Floor>, f: Floor): (r: Outcome)
    ensures r.Fail? ==> r.error in {DuplicateFloor, NoFloorBelow, FloorTooSmall}
    ensures r == Fail(DuplicateFloor) <==> HasNumber(floors, f.floorNumber)
    ensures r == Fail(NoFloorBelow) <==> !HasNumber(floors, f.floorNumber) && f.floorNumber != 1
                                         && !HasNumber(floors, f.floorNumber - 1)
    ensures r == Fail(FloorTooSmall) ==> !HasNumber(floors, f.floorNumber) && f.floorNumber != 1
                                         && HasNumber(floors, f.floorNumber - 1)
    ensures r.Pass? ==> !HasNumber(floors, f.floorNumber) && (f.floorNumber != 1 ==> Supported(floors, f))
  {
    if HasNumber(floors, f.floorNumber) then Fail(DuplicateFloor)
    else if f.floorNumber != 1 && LastBelow(floors, f.floorNumber).None? then Fail(NoFloorBelow)
    else if f.floorNumber != 1
        && (f.length > LastBelow(floors, f.floorNumber).value.length
            || f.width > LastBelow(floors, f.floorNumber).value.width) then Fail(FloorTooSmall)
    else
      assert f.floorNumber != 1 ==> Supported(floors, f) by {
        if f.floorNumber != 1 {
          var below := LastBelow(floors, f.floorNumber).value;
          var k :| 0 <= k < |floors| && floors[k] == below;
        }
      }
      Pass
  }

  /** Floor addition as the source checks it: only floor number 0 is an illegal argument. */
  function AddFloorCheckAsWritten(floors: seq<Floor>, f: Floor): (r: Outcome)
    ensures r == Fail(IllegalArgument) <==> f.floorNumber == 0 || f.width < MinWidth || f.length < MinLength
    ensures r.Pass? ==> && f.floorNumber != 0 && f.width >= MinWidth && f.length >= MinLength
                        && !HasNumber(floors, f.floorNumber)
                        && (f.floorNumber != 1 ==> Supported(floors, f))
  {
    if f.floorNumber == 0 || f.width < MinWidth || f.length < MinLength then Fail(IllegalArgument)
    else StackingCheck(floors, f)
  }

  /**
   * Floor addition with every non-positive floor number an illegal argument.
   * The errors come in a fixed order: illegal arguments, then a used number,
   * then a missing floor below, then a floor below that is too small.
   */
  function AddFloorCheck(floors: seq<Floor>, f: Floor): (r: Outcome)
    ensures r.Fail? ==> r.error in {IllegalArgument, DuplicateFloor, NoFloorBelow, FloorTooSmall}
    ensures r == Fail(IllegalArgument) <==> !LegalArguments(f)
    ensures r == Fail(DuplicateFloor) <==> LegalArguments(f) && HasNumber(floors, f.floorNumber)
    ensures r == Fail(NoFloorBelow) <==> && LegalArguments(f) && !HasNumber(floors, f.floorNumber)
                                         && f.floorNumber > 1 && !HasNumber(floors, f.floorNumber - 1)
    ensures r == Fail(FloorTooSmall) ==> && LegalArguments(f) && !HasNumber(floors, f.floorNumber)
                                         && f.floorNumber > 1 && HasNumber(floors, f.floorNumber - 1)
    ensures r.Pass? ==> && LegalArguments(f) && !HasNumber(floors, f.floorNumber)
                        && (f.floorNumber > 1 ==> Supported(floors, f))
  {
    if f.floorNumber <= 0 || f.width < MinWidth || f.length < MinLength then Fail(IllegalArgument)
    else StackingCheck(floors, f)
  }

  /**
   * In a stacked building the check decides exactly: a legal floor with a new
   * number is accepted when it is floor 1 or the floor below supports it, and
   * refused as too small when the floor below exists but does not.
   */
  lemma AddFloorCheckDecides(floors: seq<Floor>, f: Floor)
    requires Stacked(floors)
    ensures AddFloorCheck(floors, f) == Pass
        <==> LegalArguments(f) && !HasNumber(floors, f.floorNumber) && (f.floorNumber > 1 ==> Supported(floors, f))
    ensures AddFloorCheck(floors, f) == Fail(FloorTooSmall)
        <==> && LegalArguments(f) && !HasNumber(floors, f.floorNumber) && f.floorNumber > 1
             && HasNumber(floors, f.floorNumber - 1) && !Supported(floors, f)
  {
    if LegalArguments(f) && !HasNumber(floors, f.floorNumber) && f.floorNumber > 1 && HasNumber(floors, f.floorNumber - 1) {
      BelowIsUnique(floors, f);
    }
  }

  /** With distinct floor numbers, the floor the search finds below is the only candidate for support. */
  lemma BelowIsUnique(floors: seq<Floor>, f: Floor)
    requires Stacked(floors) && HasNumber(floors, f.floorNumber - 1)
    ensures Supported(floors, f) <==> && f.width <= LastBelow(floors, f.floorNumber).value.width
                                      && f.length <= LastBelow(floors, f.floorNumber).value.length
  {
    var below := LastBelow(floors, f.floorNumber).value;
    var j :| 0 <= j < |floors| && floors[j] == below;
    if Supported(floors, f) {
      var k :| 0 <= k < |floors| && floors[k].floorNumber == f.floorNumber - 1
               && floors[k].width >= f.width && floors[k].length >= f.length;
      assert k == j;
    }
  }

  /** A successful addition keeps the building stacked. */
  lemma AddFloorPreservesStacking(floors: seq<Floor>, f: Floor)
    requires Stacked(floors) && AddFloorCheck(floors, f) == Pass
    ensures Stacked(floors + [f])
  {
    AppendKeepsSupport(floors, f);
    AppendKeepsNumbering(floors, f);
  }

  lemma AppendKeepsSupport(floors: seq<Floor>, f: Floor)
    requires forall i :: 0 <= i < |floors| && floors[i].floorNumber > 1 ==> Supported(floors, floors[i])
    requires f.floorNumber > 1 ==> Supported(floors, f)
    ensures forall i :: 0 <= i < |floors + [f]| && (floors + [f])[i].floorNumber > 1 ==> Supported(floors + [f], (floors + [f])[i])
  {
    var fs := floors + [f];
    forall i | 0 <= i < |fs| && fs[i].floorNumber > 1
      ensures Supported(fs, fs[i])
    {
      var g := fs[i];
      assert Supported(floors, g);
      var k :| 0 <= k < |floors| && floors[k].floorNumber == g.floorNumber - 1
               && floors[k].width >= g.width && floors[k].length >= g.length;
      assert fs[k] == floors[k];
    }
  }

  lemma AppendKeepsNumbering(floors: seq<Floor>, f: Floor)
    requires forall i, j :: 0 <= i < j < |floors| ==> floors[i].floorNumber != floors[j].floorNumber
    requires forall i :: 0 <= i < |floors| ==> floors[i].floorNumber >= 1
    requires !HasNumber(floors, f.floorNumber) && f.floorNumber >= 1
    ensures forall i, j :: 0 <= i < j < |floors + [f]| ==> (floors + [f])[i].floorNumber != (floors + [f])[j].floorNumber
    ensures forall i :: 0 <= i < |floors + [f]| ==> (floors + [f])[i].floorNumber >= 1
  {
    var fs := floors + [f];
    assert forall i :: 0 <= i < |floors| ==> fs[i] == floors[i];
    forall i, j | 0 <= i < j < |fs|
      ensures fs[i].floorNumber != fs[j].floorNumber
    {
      assert fs[i] == floors[i];
      if j < |floors| {
        assert fs[j] == floors[j];
      }
    }
  }

  /** In a stacked building every number from 1 up to a present floor's is present. */
  lemma {:induction false} StackedIsContiguous(floors: seq<Floor>, n: int, m: int)
    requires Stacked(floors) && HasNumber(floors, n) && 1 <= m <= n
    ensures HasNumber(floors, m)
    decreases n - m
  {
    if m < n {
      var k :| 0 <= k < |floors| && floors[k].floorNumber == n;
      assert Supported(floors, floors[k]);
      StackedIsContiguous(floors, n - 1, m);
    }
  }

  /** In the source a negative floor number is reported as a missing floor below, not an illegal argument. */
  lemma NegativeFloorNumberAsWritten(floors: seq<Floor>, f: Floor)
    requires Stacked(floors) && f.floorNumber < 0 && f.width >= MinWidth && f.length >= MinLength
    ensures AddFloorCheckAsWritten(floors, f) == Fail(NoFloorBelow)
    ensures AddFloorCheck(floors, f) == Fail(IllegalArgument)
  {
  }

  /** The correction changes only the error reported for negative floor numbers. */
  lemma CorrectionOnlyAffectsNegativeNumbers(floors: seq<Floor>, f: Floor)
    requires f.floorNumber >= 0
    ensures AddFloorCheckAsWritten(floors, f) == AddFloorCheck(floors, f)
  {
  }

  /** Even as written, floor addition keeps the building stacked. */
  lemma AsWrittenPreservesStacking(floors: seq<Floor>, f: Floor)
    requires Stacked(floors) && AddFloorCheckAsWritten(floors, f) == Pass
    ensures Stacked(floors + [f])
  {
    if f.floorNumber < 0 {
      NegativeFloorNumberAsWritten(floors, f);
    }
    AddFloorPreservesStacking(floors, f);
  }

  /** Every room on every floor, and nothing else. */
  function RoomsOf(floors: seq<Floor>): (rs: set<Room>)
    reads floors
    ensures forall k, rm :: 0 <= k < |floors| && rm in floors[k].rooms ==> rm in rs
  {
    if floors == [] then {}
    else
      var init, top := floors[..|floors| - 1], floors[|floors| - 1].rooms;
      assert forall k :: 0 <= k < |init| ==> init[k] == floors[k];
      RoomsOf(init) + set j | 0 <= j < |top| :: top[j]
  }

  lemma {:induction false} RoomsOfOnlyFloorRooms(floors: seq<Floor>, rm: Room)
    requires rm in RoomsOf(floors)
    ensures exists k :: 0 <= k < |floors| && rm in floors[k].rooms
  {
    var init := floors[..|floors| - 1];
    if rm !in floors[|floors| - 1].rooms {
      RoomsOfOnlyFloorRooms(init, rm);
      var k :| 0 <= k < |init| && rm in init[k].rooms;
      assert floors[k] == init[k];
    }
  }

  predicate NoRooms(floors: seq<Floor>)
    reads floors
  {
    forall k :: 0 <= k < |floors| ==> floors[k].rooms == []
  }

  class Building {
    const name: string
    var floors: seq<Floor>

    ghost predicate Valid()
      reads this
    {
      Stacked(floors)
    }

    constructor (name: string)
      ensures Valid() && this.name == name && floors == []
    {
      this.name := name;
      floors := [];
    }

    /** The floors in insertion order; a value, so callers cannot alter the building's list. */
    function GetFloors(): (r: seq<Floor>)
      reads this
      requires Valid()
      ensures Stacked(r)
    {
      floors
    }

    method AddFloor(newFloor: Floor) returns (r: Outcome)
      requires Valid()
      modifies this`floors
      ensures Valid()
      ensures r == AddFloorCheck(old(floors), newFloor)
      ensures r.Pass? ==> floors == old(floors) + [newFloor]
      ensures r.Fail? ==> floors == old(floors)
    {
      var number := newFloor.floorNumber;
      if number <= 0 || newFloor.width < MinWidth || newFloor.length < MinLength {
        return Fail(IllegalArgument);
      }
      var duplicate := NumberTaken(number);
      if duplicate {
        return Fail(DuplicateFloor);
      }
      var floorBelow := false;
      var belowFloor: Floor? := null;
      if number == 1 {
        floorBelow := true;
      } else {
        belowFloor := FloorBelow(number);
        floorBelow := belowFloor != null;
      }
      if !floorBelow {
        return Fail(NoFloorBelow);
      }
      if belowFloor != null {
        if newFloor.length > belowFloor.length || newFloor.width > belowFloor.width {
          return Fail(FloorTooSmall);
        }
      }
      assert AddFloorCheck(floors, newFloor) == Pass;
      AddFloorPreservesStacking(floors, newFloor);
      floors := floors + [newFloor];
      r := Pass;
    }

    /** The duplicate scan of floor addition. */
    method NumberTaken(number: int) returns (found: bool)
      ensures found <==> HasNumber(floors, number)
    {
      var i := 0;
      while i < |floors|
        invariant 0 <= i <= |floors|
        invariant forall k :: 0 <= k < i ==> floors[k].floorNumber != number
      {
        if floors[i].floorNumber == number {
          return true;
        }
        i := i + 1;
      }
      return false;
    }

    /** The scan for the floor below: the last floor numbered one less, or null. */
    method FloorBelow(number: int) returns (below: Floor?)
      ensures below == (if LastBelow(floors, number).Some? then LastBelow(floors, number).value else null)
    {
      below := null;
      var i := 0;
      while i < |floors|
        invariant 0 <= i <= |floors|
        invariant below == (if LastBelow(floors[..i], number).Some? then LastBelow(floors[..i], number).value else null)
      {
        assert floors[..i + 1][..i] == floors[..i];
        if number == floors[i].floorNumber + 1 {
          below := floors[i];
        }
        i := i + 1;
      }
      assert floors[..i] == floors;
    }

    /** The floor with the given number, if any; floor numbers are unique, so it is the only one. */
    method GetFloorByNumber(number: int) returns (r: Option<Floor>)
      requires Valid()
      ensures r.Some? ==> r.value in floors && r.value.floorNumber == number
      ensures r.Some? ==> forall k :: 0 <= k < |floors| && floors[k].floorNumber == number ==> floors[k] == r.value
      ensures r.None? <==> !HasNumber(floors, number)
    {
      r := None;
      var i := 0;
      while i < |floors|
        invariant 0 <= i <= |floors|
        invariant r.Some? ==> exists k :: 0 <= k < i && floors[k] == r.value && r.value.floorNumber == number
        invariant r.None? <==> forall k :: 0 <= k < i ==> floors[k].floorNumber != number
      {
        if floors[i].floorNumber == number {
          r := Some(floors[i]);
        }
        i := i + 1;
      }
    }

    /**
     * Fails when there is nothing to evacuate; otherwise sets the flag on every
     * room of the given type (every room for None) on every floor.
     */
    method FireDrill(roomType: Option<RoomType>) returns (r: Outcome)
      modifies RoomsOf(floors)
      ensures r == (if floors == [] || NoRooms(floors) then Fail(FireDrillNotPossible) else Pass)
      ensures forall k, rm :: 0 <= k < |floors| && rm in floors[k].rooms ==>
                rm.fireDrill == (old(rm.fireDrill) || (r.Pass? && Matches(rm, roomType)))
      ensures forall k, rm :: 0 <= k < |floors| && rm in floors[k].rooms ==> rm.sensors == old(rm.sensors)
    {
      var noRooms := true;
      var noFloors := false;
      if |floors| == 0 {
        noFloors := true;
      } else {
        var i := 0;
        while i < |floors|
          invariant 0 <= i <= |floors|
          invariant noRooms <==> forall k :: 0 <= k < i ==> floors[k].rooms == []
        {
          if |floors[i].rooms| != 0 {
            noRooms := false;
          }
          i := i + 1;
        }
      }
      if noRooms || noFloors {
        return Fail(FireDrillNotPossible);
      }
      var i := 0;
      while i < |floors|
        invariant 0 <= i <= |floors|
        invariant forall k, rm :: 0 <= k < |floors| && rm in floors[k].rooms ==>
                    rm.fireDrill == old(rm.fireDrill) || (Matches(rm, roomType) && rm.fireDrill)
        invariant forall k, rm :: 0 <= k < i && rm in floors[k].rooms && Matches(rm, roomType) ==> rm.fireDrill
        invariant forall k, rm :: 0 <= k < |floors| && rm in floors[k].rooms ==> rm.sensors == old(rm.sensors)
      {
        assert forall rm :: rm in floors[i].rooms ==> rm in old(RoomsOf(floors));
        assert floors[i] == old(floors[i]) && floors[i].rooms == old(floors[i].rooms);
        floors[i].FireDrill(roomType);
        i := i + 1;
      }
      r := Pass;
    }

    /** Clears the flag on every room on every floor, whatever its type. */
    method CancelFireDrill()
      modifies RoomsOf(floors)
      ensures forall k, rm :: 0 <= k < |floors| && rm in floors[k].rooms ==> !rm.fireDrill
      ensures forall k, rm :: 0 <= k < |floors| && rm in floors[k].rooms ==> rm.sensors == old(rm.sensors)
    {
      var i := 0;
      while i < |floors|
        invariant 0 <= i <= |floors|
        invariant forall k, rm :: 0 <= k < i && rm in floors[k].rooms ==> !rm.fireDrill
        invariant forall k, rm :: 0 <= k < |floors| && rm in floors[k].rooms ==> rm.sensors == old(rm.sensors)
      {
        assert forall rm :: rm in floors[i].rooms ==> rm in old(RoomsOf(floors));
        assert floors[i] == old(floors[i]) && floors[i].rooms == old(floors[i].rooms);
        floors[i].CancelFireDrill();
        i := i + 1;
      }
    }
  }
}
