/*
 * The rental lifecycle of the equipment-rental contract. One rental is kept
 * per piece of equipment; every rental created is also appended to the
 * equipment's and the renter's history.
 */
module EquipmentRental {
  import opened Common

  /** Equipment ids are 32-byte hashes, compared only for equality. */
  type EquipmentId = nat

  datatype MaintenanceStatus = Good | NeedsService | UnderMaintenance

  /** The equipment fields the rental lifecycle reads and writes. */
  datatype Equipment = Equipment(owner: Address, available: bool, maintenanceStatus: MaintenanceStatus)

  datatype RentalStatus = Pending | Active | Completed | Cancelled

  datatype Rental = Rental(equipmentId: EquipmentId, renter: Address, startDate: nat, endDate: nat,
                           totalPrice: int, status: RentalStatus)

  /** The panics of the lifecycle, one per message. */
  datatype RentalError =
    | EquipmentNotFound
    | EquipmentNotAvailable
    | EquipmentUnderMaintenance
    | RentalAlreadyExists
    | RentalNotFound
    | RentalNotPending
    | RentalNotActive
    | OnlyPendingCancellable

  datatype RentalOp = Confirm | Complete | Cancel

  /** The lifecycle: confirming moves Pending to Active, completing moves
      Active to Completed, cancelling moves Pending to Cancelled; any other
      move is refused with that operation's error. */
  function NextStatus(s: RentalStatus, op: RentalOp): (r: Result<RentalStatus, RentalError>)
    ensures r.Ok? <==> (s == Pending && op != Complete) || (s == Active && op == Complete)
    ensures op == Confirm && r.Ok? ==> r.value == Active
    ensures op == Complete && r.Ok? ==> r.value == Completed
    ensures op == Cancel && r.Ok? ==> r.value == Cancelled
  {
    match op
    case Confirm => if s == Pending then Ok(Active) else Err(RentalNotPending)
    case Complete => if s == Active then Ok(Completed) else Err(RentalNotActive)
    case Cancel => if s == Pending then Ok(Cancelled) else Err(OnlyPendingCancellable)
  }

  /** A rental that is still open: it holds the equipment. */
  predicate IsOpen(s: RentalStatus)
  {
    s == Pending || s == Active
  }

  /** Completed and cancelled rentals are final, and no move reopens a
      rental or returns it to Pending. */
  lemma FinalStatesAreTerminal(s: RentalStatus, op: RentalOp)
    ensures !IsOpen(s) ==> NextStatus(s, op).Err?
    ensures NextStatus(s, op).Ok? ==> NextStatus(s, op).value != Pending
  {
  }

  /** `create_rental` as written: a rental entry for the equipment, whatever
      its status, blocks a new one. */
  function CreateCheckAsWritten(equipment: Option<Equipment>, existing: Option<Rental>): (e: Option<RentalError>)
    ensures e.None? <==> equipment.Some? && equipment.value.available &&
                         equipment.value.maintenanceStatus == Good && existing.None?
  {
    if equipment.None? then Some(EquipmentNotFound)
    else if !equipment.value.available then Some(EquipmentNotAvailable)
    else if equipment.value.maintenanceStatus != Good then Some(EquipmentUnderMaintenance)
    else if existing.Some? then Some(RentalAlreadyExists)
    else None
  }

  /** `create_rental` as intended: only an open rental blocks a new one, so
      equipment released by a completed or cancelled rental can be rented
      again. */
  function CreateCheck(equipment: Option<Equipment>, existing: Option<Rental>): (e: Option<RentalError>)
    ensures e.None? <==> equipment.Some? && equipment.value.available &&
                         equipment.value.maintenanceStatus == Good && !(existing.Some? && IsOpen(existing.value.status))
    ensures CreateCheckAsWritten(equipment, existing).None? ==> e.None?
    ensures existing.Some? && IsOpen(existing.value.status) ==> e.Some?
  {
    if equipment.None? then Some(EquipmentNotFound)
    else if !equipment.value.available then Some(EquipmentNotAvailable)
    else if equipment.value.maintenanceStatus != Good then Some(EquipmentUnderMaintenance)
    else if existing.Some? && IsOpen(existing.value.status) then Some(RentalAlreadyExists)
    else None
  }

  /** A completed rental blocks renting the equipment again as written,
      though the equipment is available and in good order; the intended
      check lets it through. */
  lemma ReRentalAsWrittenRefused(eq: Equipment, previous: Rental)
    requires eq.available && eq.maintenanceStatus == Good && previous.status == Completed
    ensures CreateCheckAsWritten(Some(eq), Some(previous)) == Some(RentalAlreadyExists)
    ensures CreateCheck(Some(eq), Some(previous)).None?
  {
  }

  /** Every history entry is a snapshot taken at creation, so it records the
      rental as Pending; later status changes reach only the rental entry. */
  ghost predicate EquipmentHistory(h: seq<Rental>, e: EquipmentId)
  {
    forall i :: 0 <= i < |h| ==> h[i].status == Pending && h[i].equipmentId == e
  }

  ghost predicate UserHistory(h: seq<Rental>, u: Address)
  {
    forall i :: 0 <= i < |h| ==> h[i].status == Pending && h[i].renter == u
  }

  function Last<T>(s: seq<T>): T
    requires |s| > 0
  {
    s[|s| - 1]
  }

  function HistoryAt<K>(m: map<K, seq<Rental>>, k: K): seq<Rental>
  {
    if k in m then m[k] else []
  }

  class RentalRegistry {
    var equipment: map<EquipmentId, Equipment>
    var rentals: map<EquipmentId, Rental>
    var byEquipment: map<EquipmentId, seq<Rental>>
    var byUser: map<Address, seq<Rental>>

    /** Each rental is filed under its equipment, and the last entry of the
        equipment's history is that rental as it was created; history
        entries are Pending snapshots filed under their equipment and
        renter. */
    ghost predicate Valid()
      reads this`rentals, this`byEquipment, this`byUser
    {
      (forall e :: e in rentals ==>
         rentals[e].equipmentId == e && |HistoryAt(byEquipment, e)| > 0 &&
         Last(HistoryAt(byEquipment, e)) == rentals[e].(status := Pending)) &&
      (forall e :: e in byEquipment ==> EquipmentHistory(byEquipment[e], e)) &&
      (forall u :: u in byUser ==> UserHistory(byUser[u], u))
    }

    function RentalOf(e: EquipmentId): Option<Rental>
      reads this`rentals
    {
      if e in rentals then Some(rentals[e]) else None
    }

    function EquipmentOf(e: EquipmentId): Option<Equipment>
      reads this`equipment
    {
      if e in equipment then Some(equipment[e]) else None
    }

    constructor (registered: map<EquipmentId, Equipment>)
      ensures equipment == registered && rentals == map[] && byEquipment == map[] && byUser == map[]
      ensures Valid()
    {
      equipment := registered;
      rentals := map[];
      byEquipment := map[];
      byUser := map[];
    }

    /** `create_rental` (with the intended check, see `CreateCheck`): a
        Pending rental replaces the entry and is appended to both
        histories. The equipment itself is not reserved. */
    method CreateRental(e: EquipmentId, renter: Address, startDate: nat, endDate: nat, totalPrice: int)
      returns (r: Result<(), RentalError>)
      requires Valid()
      modifies this`rentals, this`byEquipment, this`byUser
      ensures Valid()
      ensures var err := CreateCheck(old(EquipmentOf(e)), old(RentalOf(e)));
        if err.Some? then r == Err(err.value) && unchanged(this)
        else
          var rental := Rental(e, renter, startDate, endDate, totalPrice, Pending);
          r.Ok? && rentals == old(rentals)[e := rental] &&
          byEquipment == old(byEquipment)[e := old(HistoryAt(byEquipment, e)) + [rental]] &&
          byUser == old(byUser)[renter := old(HistoryAt(byUser, renter)) + [rental]]
    {
      var err := CreateCheck(EquipmentOf(e), RentalOf(e));
      if err.Some? {
        return Err(err.value);
      }
      var rental := Rental(e, renter, startDate, endDate, totalPrice, Pending);
      var he, hu := HistoryAt(byEquipment, e) + [rental], HistoryAt(byUser, renter) + [rental];
      assert EquipmentHistory(HistoryAt(byEquipment, e), e);
      assert UserHistory(HistoryAt(byUser, renter), renter);
      rentals := rentals[e := rental];
      byEquipment := byEquipment[e := he];
      byUser := byUser[renter := hu];
      r := Ok(());
    }

    /** Applies one lifecycle move to the rental of `e`. */
    method Move(e: EquipmentId, op: RentalOp) returns (r: Result<(), RentalError>)
      requires Valid()
      modifies this`rentals
      ensures Valid()
      ensures old(RentalOf(e)).None? ==> r == Err(RentalNotFound) && unchanged(this)
      ensures old(RentalOf(e)).Some? ==>
        var next := NextStatus(old(rentals)[e].status, op);
        if next.Err? then r == Err(next.error) && unchanged(this)
        else r.Ok? && rentals == old(rentals)[e := old(rentals)[e].(status := next.value)]
    {
      if e !in rentals {
        return Err(RentalNotFound);
      }
      var next := NextStatus(rentals[e].status, op);
      if next.Err? {
        return Err(next.error);
      }
      var rental := rentals[e].(status := next.value);
      assert rental.(status := Pending) == rentals[e].(status := Pending);
      rentals := rentals[e := rental];
      r := Ok(());
    }

    /** `confirm_rental`: Pending to Active. */
    method ConfirmRental(e: EquipmentId) returns (r: Result<(), RentalError>)
      requires Valid()
      modifies this`rentals
      ensures Valid()
      ensures r.Ok? <==> old(RentalOf(e)).Some? && old(rentals)[e].status == Pending
      ensures r.Ok? ==> rentals == old(rentals)[e := old(rentals)[e].(status := Active)]
      ensures r.Err? ==> unchanged(this)
    {
      r := Move(e, Confirm);
    }

    /** `complete_rental`: Active to Completed, and the equipment is made
        available again. */
    method CompleteRental(e: EquipmentId) returns (r: Result<(), RentalError>)
      requires Valid()
      modifies this`rentals, this`equipment
      ensures Valid()
      ensures r.Ok? <==> old(RentalOf(e)).Some? && old(rentals)[e].status == Active && e in old(equipment)
      ensures r.Ok? ==> rentals == old(rentals)[e := old(rentals)[e].(status := Completed)] &&
                        equipment == old(equipment)[e := old(equipment)[e].(available := true)]
      ensures r.Err? ==> unchanged(this)
      ensures old(RentalOf(e)).Some? && old(rentals)[e].status == Active && e !in old(equipment) ==>
        r == Err(EquipmentNotFound)
    {
      if e in rentals && rentals[e].status == Active && e !in equipment {
        return Err(EquipmentNotFound);
      }
      r := Move(e, Complete);
      if r.Ok? {
        equipment := equipment[e := equipment[e].(available := true)];
      }
    }

    /** `cancel_rental`: Pending to Cancelled. */
    method CancelRental(e: EquipmentId) returns (r: Result<(), RentalError>)
      requires Valid()
      modifies this`rentals
      ensures Valid()
      ensures r.Ok? <==> old(RentalOf(e)).Some? && old(rentals)[e].status == Pending
      ensures r.Ok? ==> rentals == old(rentals)[e := old(rentals)[e].(status := Cancelled)]
      ensures r.Err? ==> unchanged(this)
    {
      r := Move(e, Cancel);
    }
  }
}
