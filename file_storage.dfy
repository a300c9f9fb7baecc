/**
 * storage/FileBasedParkingStorage.java: the same slot list as the in-memory
 * storage, written to a file after every change that succeeds and read back
 * when the storage is created. The file is the field `file`: its text, or
 * None while no file exists. Every successful change leaves the file holding
 * exactly what saveToFile prints for the new lot, and a failed one leaves it
 * untouched.
 */
module FileStorage {
  import opened Wrappers
  import opened Domain
  import opened Persistence
  import RoundTrip
  import Lot

  class FileBasedParkingStorage {
    var slots: seq<Slot>
    var file: Option<string>

    ghost predicate Valid()
      reads this
    {
      Lot.Valid(slots)
    }

    /** The file holds what saveToFile prints for the current slots. */
    ghost predicate Saved()
      reads this
    {
      file == Some(FileText(slots))
    }

    /** The storage over a file and the slots loadFromFile found in it. */
    constructor Init(file: Option<string>, slots: seq<Slot>)
      ensures this.file == file && this.slots == slots
    {
      this.file := file;
      this.slots := slots;
    }

    /**
     * The constructor: loadFromFile on the file, if it exists. None where the
     * source's constructor throws (a malformed file).
     */
    static method Open(file: Option<string>) returns (r: Option<FileBasedParkingStorage>)
      ensures r.None? <==> Load(file).None?
      ensures r.Some? ==> fresh(r.value) && r.value.file == file && r.value.slots == Load(file).value
    {
      var lot := LoadText(file);
      if lot.None? {
        return None;
      }
      var storage := new FileBasedParkingStorage.Init(file, lot.value);
      return Some(storage);
    }

    /**
     * A second storage opened on this one's file, as the tests do after each
     * change: when the file was saved from an encodable lot, it holds the
     * same slots.
     */
    method Reopen() returns (r: Option<FileBasedParkingStorage>)
      ensures r.None? <==> Load(file).None?
      ensures r.Some? ==> fresh(r.value) && r.value.file == file && r.value.slots == Load(file).value
      ensures Saved() && RoundTrip.Encodable(slots) ==> r.Some? && r.value.slots == slots
    {
      r := Open(file);
      if Saved() && RoundTrip.Encodable(slots) {
        RoundTrip.LoadSaved(slots);
      }
    }

    /** saveToFile: the file is replaced by the printed slots. */
    method Save()
      modifies this
      ensures slots == old(slots) && Saved()
      ensures RoundTrip.Encodable(slots) ==> Load(file) == Some(slots)
    {
      var text := SaveText(slots);
      file := Some(text);
      if RoundTrip.Encodable(slots) {
        RoundTrip.LoadSaved(slots);
      }
    }

    /** initializeSlots: the lot is rebuilt and saved. */
    method InitializeSlots(small: int, large: int, oversize: int)
      modifies this
      ensures Valid() && Saved()
      ensures slots == Lot.Initial(small, large, oversize)
    {
      slots := Lot.BuildSlots(small, large, oversize);
      Save();
    }

    /** getAllSlots: the slots in lot order, as a list of their own. */
    method GetAllSlots() returns (r: seq<Slot>)
      ensures r == slots
    {
      r := slots;
    }

    /** findSlotByVehicleNumber: the first occupied slot holding the plate. */
    function FindSlotByVehicleNumber(plate: string): (r: Option<Slot>)
      reads this
      ensures r.Some? <==> exists j :: 0 <= j < |slots| && slots[j].HasPlate(plate)
      ensures r.Some? ==> exists k :: 0 <= k < |slots| && slots[k] == r.value && r.value.HasPlate(plate)
                            && forall j :: 0 <= j < k ==> !slots[j].HasPlate(plate)
    {
      match Lot.FindByPlate(slots, plate)
      case None => None
      case Some(k) => Some(slots[k])
    }

    /** parkVehicle on the slot at position i; saved when it succeeds. */
    method ParkVehicle(vehicle: Vehicle, i: nat) returns (ok: bool)
      requires i < |slots|
      modifies this
      ensures old(Valid()) ==> Valid()
      ensures Lot.Outcome(ok, slots) == Lot.Occupy(old(slots), i, vehicle)
      ensures if ok then Saved() else file == old(file)
    {
      if !slots[i].IsOccupied() && slots[i].CanAccommodate(vehicle.tier) {
        slots := slots[i := slots[i].WithOccupant(Some(vehicle))];
        assert Lot.Outcome(true, slots) == Lot.Occupy(old(slots), i, vehicle);
        Save();
        return true;
      }
      return false;
    }

    method ExitVehicle(plate: string) returns (ok: bool)
      modifies this
      ensures old(Valid()) ==> Valid()
      ensures Lot.Outcome(ok, slots) == Lot.Vacate(old(slots), plate)
      ensures if ok then Saved() else file == old(file)
    {
      var found := Lot.FindByPlate(slots, plate);
      if found.Some? {
        slots := slots[found.value := slots[found.value].WithOccupant(None)];
        assert Lot.Outcome(true, slots) == Lot.Vacate(old(slots), plate);
        Save();
        return true;
      }
      return false;
    }

    /** editSlot writes at position slotNumber - 1, which is right for a dense lot only. */
    method EditSlot(slotNumber: int, newType: Tier) returns (ok: bool)
      requires Lot.Dense(slots)
      modifies this
      ensures old(Valid()) ==> Valid()
      ensures Lot.Outcome(ok, slots) == Lot.Retier(old(slots), slotNumber, newType)
      ensures if ok then Saved() else file == old(file)
    {
      var found := Lot.FindByNumber(slots, slotNumber);
      if found.Some? {
        if slots[found.value].IsOccupied() {
          return false;
        }
        Lot.FindByNumberDense(slots, slotNumber);
        slots := slots[slotNumber - 1 := Slot(slotNumber, newType, None)];
        assert Lot.Outcome(true, slots) == Lot.Retier(old(slots), slotNumber, newType);
        Save();
        return true;
      }
      return false;
    }

    method DeleteSlot(slotNumber: int) returns (ok: bool)
      modifies this
      ensures old(Valid()) ==> Valid()
      ensures Lot.Outcome(ok, slots) == Lot.Delete(old(slots), slotNumber)
      ensures if ok then Saved() else file == old(file)
    {
      var found := Lot.FindByNumber(slots, slotNumber);
      if found.Some? {
        if slots[found.value].IsOccupied() {
          return false;
        }
        var rest := Lot.RemoveAt(slots, found.value);
        slots := Lot.Renumber(rest);
        assert Lot.Outcome(true, slots) == Lot.Delete(old(slots), slotNumber);
        Save();
        return true;
      }
      return false;
    }
  }
}
