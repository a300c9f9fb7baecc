/**
 * The default allocation policy of strategy/DefaultSlotAllocationStrategy.java:
 * among the free slots whose tier accommodates the vehicle, the one with the
 * smallest slot number. The source returns the slot object; the model returns
 * its position in the list, which is how the storage refers to it.
 */
module Allocation {
  import opened Wrappers
  import opened Domain

  /** The stream filter of findSlot: free, and of a tier that accommodates t. */
  predicate Eligible(s: Slot, t: Tier) {
    !s.IsOccupied() && s.CanAccommodate(t)
  }

  /**
   * findSlot: Stream.min folds the filtered slots from the left and keeps the
   * earlier slot when two numbers are equal (BinaryOperator.minBy).
   */
  function FindSlot(t: Tier, slots: seq<Slot>): (r: Option<nat>)
    ensures r.Some? ==> r.value < |slots| && Eligible(slots[r.value], t)
    ensures r.Some? ==> forall j :: 0 <= j < |slots| && Eligible(slots[j], t) ==>
                          slots[r.value].number <= slots[j].number
    ensures r.Some? ==> forall j :: 0 <= j < r.value && Eligible(slots[j], t) ==>
                          slots[r.value].number < slots[j].number
    ensures r.None? <==> forall j :: 0 <= j < |slots| ==> !Eligible(slots[j], t)
  {
    if |slots| == 0 then None
    else
      var best := FindSlot(t, slots[..|slots| - 1]);
      var last := |slots| - 1;
      if !Eligible(slots[last], t) then best
      else if best.None? || slots[last].number < slots[best.value].number then Some(last)
      else best
  }

  /** In a lot numbered 1..N in order, the chosen slot is the first eligible one. */
  lemma FindSlotInNumberedLot(t: Tier, slots: seq<Slot>)
    requires forall i :: 0 <= i < |slots| ==> slots[i].number == i + 1
    ensures FindSlot(t, slots).Some? ==>
              forall j :: 0 <= j < FindSlot(t, slots).value ==> !Eligible(slots[j], t)
  {
  }

  /** The cases of DefaultSlotAllocationStrategyTest. */
  lemma FindSlotExamples()
    ensures FindSlot(SMALL, [Slot(1, SMALL, None), Slot(2, LARGE, None)]) == Some(0)
    ensures FindSlot(LARGE, [Slot(1, SMALL, None), Slot(2, LARGE, None)]) == Some(1)
    ensures FindSlot(SMALL, [Slot(1, SMALL, Some(Vehicle("ABC", SMALL)))]) == None
  {
    var two := [Slot(1, SMALL, None), Slot(2, LARGE, None)];
    assert two[..1] == [Slot(1, SMALL, None)];
    assert [Slot(1, SMALL, None)][..0] == [];
  }
}
