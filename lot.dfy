/**
 * The slot list that both storages own (storage/InMemoryParkingStorage.java and
 * storage/FileBasedParkingStorage.java), as a sequence of slot values: its two
 * invariants, its query functions, the state transitions of the storage
 * operations, and the two loops (block initialisation and renumbering) that
 * both storages run.
 */
module Lot {
  import opened Wrappers
  import opened Domain

  /** Dense numbering: the slot at position i is slot number i + 1. */
  predicate Dense(s: seq<Slot>) {
    forall i :: 0 <= i < |s| ==> s[i].number == i + 1
  }

  /** Compatible occupants: every occupant is accommodated by its slot's tier. */
  predicate Fitting(s: seq<Slot>) {
    forall i :: 0 <= i < |s| ==> s[i].Fits()
  }

  /** The invariant every storage operation keeps. */
  predicate Valid(s: seq<Slot>) {
    Dense(s) && Fitting(s)
  }

  /** Slot numbers strictly increase along the list. */
  predicate Increasing(s: seq<Slot>) {
    forall i, j :: 0 <= i < j < |s| ==> s[i].number < s[j].number
  }

  /** Whether a storage operation succeeded, and the lot it leaves behind. */
  datatype Outcome = Outcome(ok: bool, lot: seq<Slot>)

  // ---------------------------------------------------------------- queries

  /** findSlotByVehicleNumber: the first occupied slot whose vehicle has this plate. */
  function FindByPlate(s: seq<Slot>, plate: string): (r: Option<nat>)
    ensures r.Some? ==> r.value < |s| && s[r.value].HasPlate(plate)
    ensures r.Some? ==> forall j :: 0 <= j < r.value ==> !s[j].HasPlate(plate)
    ensures r.None? <==> forall j :: 0 <= j < |s| ==> !s[j].HasPlate(plate)
  {
    if |s| == 0 then None
    else if s[0].HasPlate(plate) then Some(0)
    else match FindByPlate(s[1..], plate)
      case None => None
      case Some(k) => Some(k + 1)
  }

  /** The stream search of editSlot and deleteSlot: the first slot with this number. */
  function FindByNumber(s: seq<Slot>, n: int): (r: Option<nat>)
    ensures r.Some? ==> r.value < |s| && s[r.value].number == n
    ensures r.Some? ==> forall j :: 0 <= j < r.value ==> s[j].number != n
    ensures r.None? <==> forall j :: 0 <= j < |s| ==> s[j].number != n
  {
    if |s| == 0 then None
    else if s[0].number == n then Some(0)
    else match FindByNumber(s[1..], n)
      case None => None
      case Some(k) => Some(k + 1)
  }

  /** In a densely numbered lot, slot n sits at position n - 1. */
  lemma FindByNumberDense(s: seq<Slot>, n: int)
    requires Dense(s)
    ensures FindByNumber(s, n) == if 1 <= n <= |s| then Some(n - 1) else None
  {
    if 1 <= n <= |s| {
      assert s[n - 1].number == n;
    }
  }

  /** getStatus: the occupied slots, in lot order. */
  function Status(s: seq<Slot>): (r: seq<Slot>)
    ensures |r| <= |s|
    ensures forall x :: x in r <==> x in s && x.IsOccupied()
    ensures r == [] <==> forall i :: 0 <= i < |s| ==> !s[i].IsOccupied()
  {
    if |s| == 0 then []
    else (if s[0].IsOccupied() then [s[0]] else []) + Status(s[1..])
  }

  /** The status of a lot whose numbers increase lists its slots in increasing number. */
  lemma {:induction false} StatusInOrder(s: seq<Slot>)
    requires Increasing(s)
    ensures Increasing(Status(s))
  {
    if |s| > 0 {
      var rest := Status(s[1..]);
      assert Increasing(s[1..]);
      StatusInOrder(s[1..]);
      if s[0].IsOccupied() {
        forall x | x in rest
          ensures s[0].number < x.number
        {
          var k :| 0 <= k < |s[1..]| && s[1..][k] == x;
          assert s[k + 1] == x;
        }
        IncreasingCons(s[0], rest);
      } else {
        assert Status(s) == [] + rest;
      }
    }
  }

  /** A slot numbered below every slot of an increasing list can head it. */
  lemma IncreasingCons(x: Slot, rest: seq<Slot>)
    requires Increasing(rest) && forall y | y in rest :: x.number < y.number
    ensures Increasing([x] + rest)
  {
    var s := [x] + rest;
    forall i, j | 0 <= i < j < |s|
      ensures s[i].number < s[j].number
    {
      assert s[j] == rest[j - 1];
      if i > 0 {
        assert s[i] == rest[i - 1];
      }
    }
  }

  /**
   * getStatus of a valid lot: exactly the occupied slots, each once, in
   * ascending slot number (so the membership determines the list).
   */
  lemma StatusOfLot(s: seq<Slot>)
    requires Dense(s)
    ensures forall x :: x in Status(s) <==> x in s && x.IsOccupied()
    ensures Increasing(Status(s))
  {
    StatusInOrder(s);
  }

  // ---------------------------------------------------------- initialisation

  /** A loop bound: a Java for loop up to a negative count runs no iteration. */
  function Count(n: int): nat {
    if n < 0 then 0 else n
  }

  /** The tier initializeSlots gives to position i. */
  function InitialTier(small: int, large: int, i: int): Tier {
    if i < Count(small) then SMALL
    else if i < Count(small) + Count(large) then LARGE
    else OVERSIZE
  }

  /** One block of count fresh slots of tier t, numbered from first. */
  function Block(first: int, count: nat, t: Tier): (r: seq<Slot>)
    ensures |r| == count
    ensures forall i :: 0 <= i < count ==> r[i] == Slot(first + i, t, None)
  {
    if count == 0 then []
    else Block(first, count - 1, t) + [Slot(first + count - 1, t, None)]
  }

  /**
   * initializeSlots: the whole lot is replaced by a SMALL block, a LARGE
   * block and an OVERSIZE block of free slots, numbered on from 1.
   */
  function Initial(small: int, large: int, oversize: int): (r: seq<Slot>)
    ensures |r| == Count(small) + Count(large) + Count(oversize)
    ensures forall i :: 0 <= i < |r| ==> r[i] == Slot(i + 1, InitialTier(small, large, i), None)
    ensures Valid(r)
  {
    Block(1, Count(small), SMALL)
      + Block(1 + Count(small), Count(large), LARGE)
      + Block(1 + Count(small) + Count(large), Count(oversize), OVERSIZE)
  }

  /** The three counter-driven add loops of initializeSlots. */
  method BuildSlots(small: int, large: int, oversize: int) returns (r: seq<Slot>)
    ensures r == Initial(small, large, oversize)
  {
    var number;
    r, number := AddBlock([], 1, small, SMALL);
    r, number := AddBlock(r, number, large, LARGE);
    r, number := AddBlock(r, number, oversize, OVERSIZE);
  }

  /**
   * One of those loops: n slots of tier t are added after prefix, numbered
   * on from number; the next free number is returned with them.
   */
  method AddBlock(prefix: seq<Slot>, number: int, n: int, t: Tier) returns (r: seq<Slot>, next: int)
    ensures r == prefix + Block(number, Count(n), t) && next == number + Count(n)
  {
    r := prefix;
    next := number;
    var i := 0;
    while i < n
      invariant 0 <= i <= Count(n)
      invariant r == prefix + Block(number, i, t) && next == number + i
    {
      SnocAssoc(prefix, Block(number, i, t), Slot(next, t, None));
      r := r + [Slot(next, t, None)];
      next := next + 1;
      i := i + 1;
    }
  }

  lemma SnocAssoc<T>(a: seq<T>, b: seq<T>, x: T)
    ensures a + b + [x] == a + (b + [x])
  {
  }

  // ------------------------------------------------------------- renumbering

  /** Each slot takes the number of its position; tier and occupant are carried over. */
  function Renumbered(s: seq<Slot>): (r: seq<Slot>)
    ensures |r| == |s| && Dense(r)
    ensures forall i :: 0 <= i < |s| ==> r[i].tier == s[i].tier && r[i].occupant == s[i].occupant
  {
    seq(|s|, i requires 0 <= i < |s| => Slot(i + 1, s[i].tier, s[i].occupant))
  }

  /** The renumbering loop of deleteSlot, which rebuilds every slot by position. */
  method Renumber(s: seq<Slot>) returns (r: seq<Slot>)
    ensures r == Renumbered(s)
  {
    r := s;
    var i := 0;
    while i < |r|
      invariant |r| == |s| && 0 <= i <= |s|
      invariant forall k :: 0 <= k < i ==> r[k] == Slot(k + 1, s[k].tier, s[k].occupant)
      invariant forall k :: i <= k < |s| ==> r[k] == s[k]
    {
      var updated := Slot(i + 1, r[i].tier, None);
      if r[i].IsOccupied() {
        updated := updated.WithOccupant(r[i].occupant);
      }
      r := r[i := updated];
      i := i + 1;
    }
  }

  /** List.remove of the slot at position j. */
  function RemoveAt(s: seq<Slot>, j: nat): (r: seq<Slot>)
    requires j < |s|
    ensures |r| == |s| - 1
    ensures forall i :: 0 <= i < j ==> r[i] == s[i]
    ensures forall i :: j <= i < |r| ==> r[i] == s[i + 1]
  {
    s[..j] + s[j + 1..]
  }

  // ------------------------------------------------------------- transitions

  /**
   * parkVehicle: storage re-checks that the slot is free and accommodates the
   * vehicle; only then is the vehicle recorded, and nothing else changes.
   */
  function Occupy(s: seq<Slot>, i: nat, v: Vehicle): (r: Outcome)
    requires i < |s|
    ensures r.ok <==> !s[i].IsOccupied() && s[i].CanAccommodate(v.tier)
    ensures |r.lot| == |s|
    ensures forall j :: 0 <= j < |s| && j != i ==> r.lot[j] == s[j]
    ensures r.ok ==> r.lot[i] == Slot(s[i].number, s[i].tier, Some(v))
    ensures !r.ok ==> r.lot == s
    ensures Valid(s) ==> Valid(r.lot)
  {
    if !s[i].IsOccupied() && s[i].CanAccommodate(v.tier) then
      Outcome(true, s[i := s[i].WithOccupant(Some(v))])
    else
      Outcome(false, s)
  }

  /**
   * exitVehicle: succeeds iff some slot holds the plate; the first such slot
   * is cleared and nothing else changes.
   */
  function Vacate(s: seq<Slot>, plate: string): (r: Outcome)
    ensures r.ok <==> exists j :: 0 <= j < |s| && s[j].HasPlate(plate)
    ensures r.ok ==> exists k :: 0 <= k < |s| && s[k].HasPlate(plate)
                       && (forall j :: 0 <= j < k ==> !s[j].HasPlate(plate))
                       && r.lot == s[k := Slot(s[k].number, s[k].tier, None)]
    ensures !r.ok ==> r.lot == s
    ensures Valid(s) ==> Valid(r.lot)
  {
    match FindByPlate(s, plate)
    case None => Outcome(false, s)
    case Some(k) => Outcome(true, s[k := s[k].WithOccupant(None)])
  }

  /**
   * editSlot: fails without change when no slot has number n or it is
   * occupied; otherwise position n - 1 gets a free slot of the new tier and
   * the same number. Writing at n - 1 is right because the lot is dense.
   */
  function Retier(s: seq<Slot>, n: int, t: Tier): (r: Outcome)
    requires Dense(s)
    ensures r.ok <==> 1 <= n <= |s| && !s[n - 1].IsOccupied()
    ensures r.ok ==> r.lot == s[n - 1 := Slot(n, t, None)]
    ensures !r.ok ==> r.lot == s
    ensures Valid(s) ==> Valid(r.lot)
  {
    FindByNumberDense(s, n);
    match FindByNumber(s, n)
    case None => Outcome(false, s)
    case Some(j) =>
      if s[j].IsOccupied() then Outcome(false, s)
      else Outcome(true, s[n - 1 := Slot(n, t, None)])
  }

  /**
   * deleteSlot: fails without change when no slot has number n or it is
   * occupied; otherwise the slot is removed and the rest renumbered.
   */
  function Delete(s: seq<Slot>, n: int): (r: Outcome)
    ensures !r.ok ==> r.lot == s
    ensures r.ok ==> |r.lot| == |s| - 1 && Dense(r.lot)
    ensures Dense(s) ==> (r.ok <==> 1 <= n <= |s| && !s[n - 1].IsOccupied())
    ensures Fitting(s) ==> Fitting(r.lot)
  {
    match FindByNumber(s, n)
    case None => Outcome(false, s)
    case Some(j) =>
      if s[j].IsOccupied() then Outcome(false, s)
      else Outcome(true, Renumbered(RemoveAt(s, j)))
  }

  /**
   * After deleting slot n from a dense lot of N slots: N - 1 slots numbered
   * 1..N-1; the slots before n are unchanged; each former slot m > n is now
   * slot m - 1 with its tier and occupant unchanged.
   */
  lemma DeleteShifts(s: seq<Slot>, n: int)
    requires Dense(s) && Delete(s, n).ok
    ensures |Delete(s, n).lot| == |s| - 1 && Dense(Delete(s, n).lot)
    ensures forall i :: 0 <= i < n - 1 ==> Delete(s, n).lot[i] == s[i]
    ensures forall i :: n - 1 <= i < |s| - 1 ==>
              Delete(s, n).lot[i] == Slot(s[i + 1].number - 1, s[i + 1].tier, s[i + 1].occupant)
  {
    FindByNumberDense(s, n);
  }

  /** Exiting a plate that only one slot holds removes it from the status view. */
  lemma VacateLeavesStatus(s: seq<Slot>, plate: string)
    requires forall i, j :: 0 <= i < j < |s| && s[i].HasPlate(plate) ==> !s[j].HasPlate(plate)
    ensures (exists j :: 0 <= j < |s| && s[j].HasPlate(plate)) ==> Vacate(s, plate).ok
    ensures forall x :: x in Status(Vacate(s, plate).lot) ==> !x.HasPlate(plate)
  {
    var r := Vacate(s, plate);
    forall x | x in Status(r.lot)
      ensures !x.HasPlate(plate)
    {
      var j :| 0 <= j < |r.lot| && r.lot[j] == x;
      if r.ok {
        var k :| 0 <= k < |s| && s[k].HasPlate(plate)
                 && (forall j :: 0 <= j < k ==> !s[j].HasPlate(plate))
                 && r.lot == s[k := Slot(s[k].number, s[k].tier, None)];
        if j != k {
          assert s[j] == x;
        }
      } else {
        assert s[j] == x;
      }
    }
  }
}
