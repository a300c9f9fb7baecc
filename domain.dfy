/**
 * The slot and vehicle model of domain/ParkingSlot.java. A slot's number and
 * tier are final in the source; only its occupant changes. Slots are values
 * here: setting the occupant yields the updated slot, which the storage writes
 * back at the slot's position in the lot.
 */
module Domain {
  import opened Wrappers

  /** The three vehicle and slot tiers, ordered by size. */
  datatype Tier = SMALL | LARGE | OVERSIZE {
    /** Position of the tier in the order SMALL < LARGE < OVERSIZE. */
    function Rank(): nat {
      match this
      case SMALL => 0
      case LARGE => 1
      case OVERSIZE => 2
    }
  }

  datatype Vehicle = Vehicle(plate: string, tier: Tier)

  datatype Slot = Slot(number: int, tier: Tier, occupant: Option<Vehicle>) {

    /** isOccupied: the occupant is not null. */
    /** isOccupied: the slot holds a vehicle, and so some plate. */
    predicate IsOccupied(): (r: bool)
      ensures r ==> occupant.Some? && HasPlate(occupant.value.plate)
      ensures !r ==> forall plate :: !HasPlate(plate)
    {
      occupant.Some?
    }

    /**
     * canAccommodate: the switch over the slot's tier. Its meaning is the
     * containment order on tiers: a slot accepts exactly the tiers no larger
     * than its own.
     */
    function CanAccommodate(t: Tier): (r: bool)
      ensures r <==> t.Rank() <= tier.Rank()
    {
      match tier
      case SMALL => t == SMALL
      case LARGE => t == SMALL || t == LARGE
      case OVERSIZE => true
    }

    /** setParkedVehicle: only the occupant changes; number and tier are final. */
    function WithOccupant(v: Option<Vehicle>): (r: Slot)
      ensures r.number == number && r.tier == tier && r.occupant == v
      ensures r.IsOccupied() <==> v.Some?
    {
      this.(occupant := v)
    }

    /** The occupant, if any, is one the slot's tier accommodates. */
    predicate Fits() {
      occupant.Some? ==> CanAccommodate(occupant.value.tier)
    }

    /** The slot holds a vehicle with this plate (the filter of findSlotByVehicleNumber). */
    predicate HasPlate(plate: string) {
      occupant.Some? && occupant.value.plate == plate
    }
  }

  /** The accommodation table of canAccommodate, tier by tier. */
  lemma AccommodationTable(s: Slot, t: Tier)
    ensures s.tier == SMALL ==> (s.CanAccommodate(t) <==> t == SMALL)
    ensures s.tier == LARGE ==> (s.CanAccommodate(t) <==> t != OVERSIZE)
    ensures s.tier == OVERSIZE ==> s.CanAccommodate(t)
  {
  }

  /**
   * Accommodation is reflexive, and monotone in the slot's tier: a larger slot
   * accepts every vehicle a smaller one does.
   */
  lemma AccommodationMonotone(a: Slot, b: Slot, t: Tier)
    ensures a.CanAccommodate(a.tier)
    ensures a.tier.Rank() <= b.tier.Rank() && a.CanAccommodate(t) ==> b.CanAccommodate(t)
  {
  }
}
