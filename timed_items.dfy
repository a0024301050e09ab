/**
 * The registry of timed items: every constructed sensor is appended to it, and
 * one call advances every registered sensor by a minute.
 */
module TimedItems {
  import opened Sensors

  class TimedItemManager {
    var items: seq<TimedSensor>

    ghost predicate Valid()
      reads this, items
    {
      forall s :: s in items ==> s.Valid()
    }

    constructor ()
      ensures Valid() && items == []
    {
      items := [];
    }

    /** Appends; earlier registrations and their order are kept and nothing is ever removed. */
    method RegisterTimedItem(item: TimedSensor)
      requires Valid() && item.Valid()
      modifies this
      ensures Valid()
      ensures items == old(items) + [item]
    {
      items := items + [item];
    }

    /**
     * Ticks each registered item in registration order. A sensor rises by as many
     * minutes as it occurs in the registry; sensors outside it are not touched.
     */
    method ElapseOneMinute()
      requires Valid()
      modifies items
      ensures Valid() && items == old(items)
      ensures forall s :: s in items ==> s.timeElapsed == old(s.timeElapsed) + multiset(items)[s]
    {
      var i := 0;
      while i < |items|
        invariant 0 <= i <= |items|
        invariant Valid()
        invariant forall s :: s in items ==> s.timeElapsed == old(s.timeElapsed) + multiset(items[..i])[s]
      {
        assert items[..i + 1] == items[..i] + [items[i]];
        items[i].ElapseOneMinute();
        i := i + 1;
      }
      assert items[..i] == items;
    }
  }

  predicate Distinct(items: seq<TimedSensor>)
  {
    forall i, j :: 0 <= i < j < |items| ==> items[i] != items[j]
  }

  /** In a registry without repeated entries each sensor advances by exactly one minute. */
  lemma {:induction false} DistinctOccursOnce(items: seq<TimedSensor>, s: TimedSensor)
    requires Distinct(items) && s in items
    ensures multiset(items)[s] == 1
  {
    var last := |items| - 1;
    assert items == items[..last] + [items[last]];
    if items[last] == s {
      assert s !in items[..last];
    } else {
      assert s in items[..last];
      DistinctOccursOnce(items[..last], s);
    }
  }

  /** The static field that holds the lazily created manager. */
  class ManagerSlot {
    var instance: TimedItemManager?

    constructor ()
      ensures instance == null
    {
      instance := null;
    }

    /** Creates the manager on first use and returns the same one on every later call. */
    method GetInstance() returns (m: TimedItemManager)
      modifies this
      ensures instance == m
      ensures old(instance) != null ==> m == old(instance)
      ensures old(instance) == null ==> fresh(m) && m.Valid() && m.items == []
    {
      if instance == null {
        instance := new TimedItemManager();
      }
      m := instance;
    }
  }

  /** Two lookups through the same slot yield one manager. */
  method GetInstanceIsStable(slot: ManagerSlot) returns (a: TimedItemManager, b: TimedItemManager)
    modifies slot
    ensures a == b
  {
    a := slot.GetInstance();
    b := slot.GetInstance();
  }
}
