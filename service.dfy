/**
 * service/ParkingLotService.java: runs the allocation policy over a snapshot
 * of the lot and then asks the storage to occupy the chosen slot; the other
 * operations delegate to the storage. The service is modelled over the
 * in-memory storage.
 */
module Service {
  import opened Wrappers
  import opened Domain
  import opened Allocation
  import Lot
  import opened InMemoryStorage

  /** The number parkVehicle returns (None for Optional.empty) and the lot it leaves. */
  datatype ParkOutcome = ParkOutcome(slot: Option<int>, lot: seq<Slot>)

  /**
   * parkVehicle: when an eligible free slot exists, the one of least number
   * gets the vehicle and its number is returned; otherwise nothing changes.
   * No check is made that the plate is already parked.
   */
  function Park(s: seq<Slot>, plate: string, t: Tier): (r: ParkOutcome)
    ensures r.slot.Some? <==> exists j :: 0 <= j < |s| && Eligible(s[j], t)
    ensures r.slot.Some? ==>
              exists i :: 0 <= i < |s| && Eligible(s[i], t) && r.slot.value == s[i].number
                && (forall j :: 0 <= j < |s| && Eligible(s[j], t) ==> s[i].number <= s[j].number)
                && r.lot == s[i := Slot(s[i].number, s[i].tier, Some(Vehicle(plate, t)))]
    ensures r.slot.None? ==> r.lot == s
    ensures Lot.Valid(s) ==> Lot.Valid(r.lot)
  {
    match FindSlot(t, s)
    case None => ParkOutcome(None, s)
    case Some(i) =>
      var o := Lot.Occupy(s, i, Vehicle(plate, t));
      if o.ok then ParkOutcome(Some(s[i].number), o.lot) else ParkOutcome(None, s)
  }

  /**
   * In a dense lot the returned number n is the first eligible position plus
   * one, and slot n now holds the vehicle.
   */
  lemma ParkInDenseLot(s: seq<Slot>, plate: string, t: Tier)
    requires Lot.Dense(s) && Park(s, plate, t).slot.Some?
    ensures var n := Park(s, plate, t).slot.value;
            1 <= n <= |s| && Eligible(s[n - 1], t)
            && (forall j :: 0 <= j < n - 1 ==> !Eligible(s[j], t))
            && Park(s, plate, t).lot[n - 1].occupant == Some(Vehicle(plate, t))
  {
    var r := Park(s, plate, t);
    var i :| 0 <= i < |s| && Eligible(s[i], t) && r.slot.value == s[i].number
             && (forall j :: 0 <= j < |s| && Eligible(s[j], t) ==> s[i].number <= s[j].number)
             && r.lot == s[i := Slot(s[i].number, s[i].tier, Some(Vehicle(plate, t)))];
    assert r.slot.value - 1 == i;
    forall j | 0 <= j < i
      ensures !Eligible(s[j], t)
    {
      assert s[j].number < s[i].number;
    }
  }

  /**
   * exitVehicle undoes parkVehicle: when no slot held the plate before, the
   * exit that follows a successful park succeeds and gives back the lot as it was.
   */
  lemma ExitUndoesPark(s: seq<Slot>, plate: string, t: Tier)
    requires forall j :: 0 <= j < |s| ==> !s[j].HasPlate(plate)
    requires Park(s, plate, t).slot.Some?
    ensures Lot.Vacate(Park(s, plate, t).lot, plate) == Lot.Outcome(true, s)
  {
    var lot := Park(s, plate, t).lot;
    var i :| 0 <= i < |s| && Eligible(s[i], t) && lot == s[i := Slot(s[i].number, s[i].tier, Some(Vehicle(plate, t)))];
    assert lot[i].HasPlate(plate);
    var k := Lot.FindByPlate(lot, plate);
    assert k == Some(i);
    assert lot[i := lot[i].WithOccupant(None)] == s;
  }

  /** The outcome of parkVehicle never depends on the plate: plates need not be unique. */
  lemma ParkIgnoresPlate(s: seq<Slot>, p: string, q: string, t: Tier)
    ensures Park(s, p, t).slot == Park(s, q, t).slot
  {
  }

  /**
   * Parking the same plate twice succeeds twice when two slots are free, so
   * two slots come to hold it.
   */
  lemma DuplicatePlate(s: seq<Slot>, plate: string, t: Tier)
    requires Lot.Dense(s) && |s| >= 2 && Eligible(s[0], t) && Eligible(s[1], t)
    ensures var first := Park(s, plate, t);
            var second := Park(first.lot, plate, t);
            first.slot == Some(1) && second.slot == Some(2) && |second.lot| == |s|
              && second.lot[0].HasPlate(plate) && second.lot[1].HasPlate(plate)
  {
    var first := Park(s, plate, t);
    ParkInDenseLot(s, plate, t);
    assert first.slot == Some(1);
    assert first.lot == s[0 := Slot(1, s[0].tier, Some(Vehicle(plate, t)))];
    assert Lot.Dense(first.lot);
    assert Eligible(first.lot[1], t);
    var second := Park(first.lot, plate, t);
    ParkInDenseLot(first.lot, plate, t);
    assert second.slot == Some(2);
  }

  /**
   * The counts the CREATE command passes on (none negative, not all zero)
   * build a lot that counts as created, with one slot per requested slot.
   */
  lemma CreatedLot(small: int, large: int, oversize: int)
    requires small >= 0 && large >= 0 && oversize >= 0 && small + large + oversize != 0
    ensures |Lot.Initial(small, large, oversize)| == small + large + oversize > 0
  {
  }

  class ParkingLotService {
    const storage: InMemoryParkingStorage

    ghost predicate Valid()
      reads this, storage
    {
      storage.Valid()
    }

    constructor (storage: InMemoryParkingStorage)
      requires storage.Valid()
      ensures this.storage == storage && Valid()
    {
      this.storage := storage;
    }

    method CreateParkingLot(small: int, large: int, oversize: int)
      requires Valid()
      modifies storage
      ensures Valid()
      ensures storage.slots == Lot.Initial(small, large, oversize)
    {
      storage.InitializeSlots(small, large, oversize);
    }

    method ParkVehicle(plate: string, t: Tier) returns (r: Option<int>)
      requires Valid()
      modifies storage
      ensures Valid()
      ensures ParkOutcome(r, storage.slots) == Park(old(storage.slots), plate, t)
    {
      var vehicle := Vehicle(plate, t);
      var all := storage.GetAllSlots();
      var available := FindSlot(t, all);
      if available.Some? {
        var ok := storage.ParkVehicle(vehicle, available.value);
        if ok {
          return Some(all[available.value].number);
        }
      }
      return None;
    }

    method ExitVehicle(plate: string) returns (ok: bool)
      requires Valid()
      modifies storage
      ensures Valid()
      ensures Lot.Outcome(ok, storage.slots) == Lot.Vacate(old(storage.slots), plate)
    {
      ok := storage.ExitVehicle(plate);
    }

    /** getStatus: exactly the occupied slots, in ascending slot number. */
    method GetStatus() returns (r: seq<Slot>)
      requires Valid()
      ensures forall x :: x in r <==> x in storage.slots && x.IsOccupied()
      ensures Lot.Increasing(r)
      ensures r == [] <==> forall i :: 0 <= i < |storage.slots| ==> !storage.slots[i].IsOccupied()
    {
      var all := storage.GetAllSlots();
      Lot.StatusOfLot(all);
      r := Lot.Status(all);
    }

    method GetAllSlots() returns (r: seq<Slot>)
      ensures r == storage.slots
    {
      r := storage.GetAllSlots();
    }

    method IsParkingLotCreated() returns (r: bool)
      ensures r <==> |storage.slots| > 0
    {
      var all := storage.GetAllSlots();
      r := |all| != 0;
    }

    method EditSlot(slotNumber: int, newType: Tier) returns (ok: bool)
      requires Valid()
      modifies storage
      ensures Valid()
      ensures Lot.Outcome(ok, storage.slots) == Lot.Retier(old(storage.slots), slotNumber, newType)
    {
      ok := storage.EditSlot(slotNumber, newType);
    }

    method DeleteSlot(slotNumber: int) returns (ok: bool)
      requires Valid()
      modifies storage
      ensures Valid()
      ensures Lot.Outcome(ok, storage.slots) == Lot.Delete(old(storage.slots), slotNumber)
    {
      ok := storage.DeleteSlot(slotNumber);
    }
  }

  /** ParkingLotIntegrationTest.testFullFlow and ParkingLotServiceTest.testExitVehicle. */
  method FullFlowScenario(small: int, large: int, oversize: int)
    returns (slot: Option<int>, exited: bool, unknown: bool, status: seq<Slot>)
    requires small >= 1
    ensures slot == Some(1) && exited && !unknown && status == []
  {
    var storage := new InMemoryParkingStorage();
    var service := new ParkingLotService(storage);
    service.CreateParkingLot(small, large, oversize);
    ghost var s0 := storage.slots;
    assert Eligible(s0[0], SMALL);
    slot := service.ParkVehicle("ABC123", SMALL);
    ExitUndoesPark(s0, "ABC123", SMALL);
    exited := service.ExitVehicle("ABC123");
    unknown := service.ExitVehicle("XYZ789");
    status := service.GetStatus();
  }

  /** ParkingLotIntegrationTest.testEditAndDeleteSlots. */
  method EditDeleteScenario() returns (edited: bool, deleted: bool, size: nat, slot: Option<int>)
    ensures edited && deleted && size == 5 && slot == Some(1)
  {
    var storage := new InMemoryParkingStorage();
    var service := new ParkingLotService(storage);
    service.CreateParkingLot(3, 2, 1);
    edited := service.EditSlot(1, LARGE);
    deleted := service.DeleteSlot(6);
    var all := service.GetAllSlots();
    size := |all|;
    assert all[0].tier == LARGE && !all[0].IsOccupied();
    slot := service.ParkVehicle("TEST001", LARGE);
  }

  /** ParkingLotIntegrationTest.testEditDeleteOccupiedSlot. */
  method OccupiedSlotScenario() returns (slot: Option<int>, edited: bool, deleted: bool)
    ensures slot == Some(1) && !edited && !deleted
  {
    var storage := new InMemoryParkingStorage();
    var service := new ParkingLotService(storage);
    service.CreateParkingLot(3, 2, 1);
    assert Eligible(storage.slots[0], SMALL);
    slot := service.ParkVehicle("ABC123", SMALL);
    edited := service.EditSlot(1, LARGE);
    deleted := service.DeleteSlot(1);
  }
}
