/**
 * storage/InMemoryParkingStorage.java: a storage object whose slot list is
 * mutated in place. The list is the field `slots`; every operation keeps the
 * lot invariant (dense numbering, compatible occupants) and is specified by
 * the transition function of module Lot it implements.
 */
module InMemoryStorage {
  import opened Wrappers
  import opened Domain
  import Lot

  class InMemoryParkingStorage {
    var slots: seq<Slot>

    ghost predicate Valid()
      reads this
    {
      Lot.Valid(slots)
    }

    constructor ()
      ensures Valid() && slots == []
    {
      slots := [];
    }

    /** initializeSlots: all prior slots and occupants are discarded. */
    method InitializeSlots(small: int, large: int, oversize: int)
      modifies this
      ensures Valid()
      ensures slots == Lot.Initial(small, large, oversize)
    {
      slots := Lot.BuildSlots(small, large, oversize);
    }

    /** getAllSlots: the slots in lot order, as a list of their own. */
    method GetAllSlots() returns (r: seq<Slot>)
      ensures r == slots
    {
      r := slots;
    }

    /** findSlotByVehicleNumber: the first occupied slot holding the plate. */
    function FindSlotByVehicleNumber(plate: string): (r: Option<Slot>)
      reads this
      ensures r.Some? <==> exists j :: 0 <= j < |slots| && slots[j].HasPlate(plate)
      ensures r.Some? ==> exists k :: 0 <= k < |slots| && slots[k] == r.value && r.value.HasPlate(plate)
                            && forall j :: 0 <= j < k ==> !slots[j].HasPlate(plate)
    {
      match Lot.FindByPlate(slots, plate)
      case None => None
      case Some(k) => Some(slots[k])
    }

    /**
     * parkVehicle on the slot at position i (the source passes the slot
     * object itself, which is the element at that position).
     */
    method ParkVehicle(vehicle: Vehicle, i: nat) returns (ok: bool)
      requires Valid() && i < |slots|
      modifies this
      ensures Valid()
      ensures Lot.Outcome(ok, slots) == Lot.Occupy(old(slots), i, vehicle)
    {
      if !slots[i].IsOccupied() && slots[i].CanAccommodate(vehicle.tier) {
        slots := slots[i := slots[i].WithOccupant(Some(vehicle))];
        return true;
      }
      return false;
    }

    method ExitVehicle(plate: string) returns (ok: bool)
      requires Valid()
      modifies this
      ensures Valid()
      ensures Lot.Outcome(ok, slots) == Lot.Vacate(old(slots), plate)
    {
      var found := Lot.FindByPlate(slots, plate);
      if found.Some? {
        slots := slots[found.value := slots[found.value].WithOccupant(None)];
        return true;
      }
      return false;
    }

    method EditSlot(slotNumber: int, newType: Tier) returns (ok: bool)
      requires Valid()
      modifies this
      ensures Valid()
      ensures Lot.Outcome(ok, slots) == Lot.Retier(old(slots), slotNumber, newType)
    {
      var found := Lot.FindByNumber(slots, slotNumber);
      if found.Some? {
        if slots[found.value].IsOccupied() {
          return false;
        }
        Lot.FindByNumberDense(slots, slotNumber);
        slots := slots[slotNumber - 1 := Slot(slotNumber, newType, None)];
        return true;
      }
      return false;
    }

    method DeleteSlot(slotNumber: int) returns (ok: bool)
      requires Valid()
      modifies this
      ensures Valid()
      ensures Lot.Outcome(ok, slots) == Lot.Delete(old(slots), slotNumber)
    {
      var found := Lot.FindByNumber(slots, slotNumber);
      if found.Some? {
        if slots[found.value].IsOccupied() {
          return false;
        }
        var rest := Lot.RemoveAt(slots, found.value);
        slots := Lot.Renumber(rest);
        return true;
      }
      return false;
    }
  }
}
