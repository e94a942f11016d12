/*
 * The lease lifecycle of the land-leasing contract: creating a lease
 * registers (or overwrites) the land record as leased, terminating frees
 * it, and extending lengthens the lease. Every lease id is listed under
 * both parties.
 */
module LandLeasing {
  import opened Common

  /** Lease ids are derived from the lease counter; the derivation is taken
      to be injective, so the counter value itself serves as the id. */
  type LeaseId = nat
  type LandId = nat

  /** Seconds in one month (30.44 days), the first payment's delay. */
  const ONE_MONTH_SECONDS: nat := 2629746
  const U32_MODULUS: nat := 0x1_0000_0000

  const ACTIVE: string := "Active"
  const TERMINATED: string := "Terminated"

  datatype LeaseAgreement = LeaseAgreement(
    leaseId: LeaseId, lessor: Address, lessee: Address, landId: LandId, duration: nat,
    paymentAmount: int, status: string, startTime: nat, nextPaymentDue: nat,
    paymentsMade: nat, totalPaymentsRequired: nat)

  datatype Land = Land(landId: LandId, location: string, size: nat, dataHash: nat, owner: Address,
                       isAvailable: bool)

  /** The assertion failures of the lifecycle, one per message. */
  datatype LeaseError =
    | DurationZero
    | PaymentNotPositive
    | SizeZero
    | SameParties
    | LeaseNotFound
    | UnauthorizedTermination
    | UnauthorizedExtension
    | LeaseNotActive

  /** The `as u32` cast of a month count: the count modulo 2^32. */
  function AsU32(x: nat): (r: nat)
    ensures r < U32_MODULUS
    ensures x < U32_MODULUS ==> r == x
  {
    x % U32_MODULUS
  }

  function CreateCheck(lessor: Address, lessee: Address, size: nat, duration: nat, paymentAmount: int)
    : (e: Option<LeaseError>)
    ensures e.None? <==> duration > 0 && paymentAmount > 0 && size > 0 && lessor != lessee
    ensures duration == 0 ==> e == Some(DurationZero)
  {
    if duration == 0 then Some(DurationZero)
    else if paymentAmount <= 0 then Some(PaymentNotPositive)
    else if size == 0 then Some(SizeZero)
    else if lessor == lessee then Some(SameParties)
    else None
  }

  /** The checks shared by termination and extension: the lease exists, the
      caller is one of its parties, and it is active. */
  function PartyCheck(lease: Option<LeaseAgreement>, caller: Address, unauthorized: LeaseError)
    : (e: Option<LeaseError>)
    ensures e.None? <==> lease.Some? && (caller == lease.value.lessor || caller == lease.value.lessee) &&
                         lease.value.status == ACTIVE
    ensures lease.Some? && caller != lease.value.lessor && caller != lease.value.lessee ==>
              e == Some(unauthorized)
  {
    if lease.None? then Some(LeaseNotFound)
    else if caller != lease.value.lessor && caller != lease.value.lessee then Some(unauthorized)
    else if lease.value.status != ACTIVE then Some(LeaseNotActive)
    else None
  }

  /** A lease extended by `months`: both its duration and the number of
      payments required grow by that many months. */
  function Extended(lease: LeaseAgreement, months: nat): (l: LeaseAgreement)
    ensures l.duration == lease.duration + months
    ensures l.totalPaymentsRequired == lease.totalPaymentsRequired + AsU32(months)
    ensures l == lease.(duration := l.duration, totalPaymentsRequired := l.totalPaymentsRequired)
  {
    lease.(duration := lease.duration + months,
           totalPaymentsRequired := lease.totalPaymentsRequired + AsU32(months))
  }

  /** Two extensions add up to one by the sum of their months (below the
      `u32` limit). */
  lemma ExtendedTwice(lease: LeaseAgreement, m1: nat, m2: nat)
    requires m1 + m2 < U32_MODULUS
    ensures Extended(Extended(lease, m1), m2) == Extended(lease, m1 + m2)
  {
  }

  function IsActive(leases: map<LeaseId, LeaseAgreement>, id: LeaseId): bool
  {
    id in leases && leases[id].status == ACTIVE
  }

  /** The ids of `ids` whose lease is stored and active, in order. */
  function ActiveLeases(ids: seq<LeaseId>, leases: map<LeaseId, LeaseAgreement>): seq<LeaseId>
  {
    if ids == [] then []
    else
      var rest := ActiveLeases(ids[..|ids| - 1], leases);
      if IsActive(leases, ids[|ids| - 1]) then rest + [ids[|ids| - 1]] else rest
  }

  /** The listing holds exactly the user's active leases. */
  lemma {:induction false} ActiveLeasesExact(ids: seq<LeaseId>, leases: map<LeaseId, LeaseAgreement>, x: LeaseId)
    ensures x in ActiveLeases(ids, leases) <==> x in ids && IsActive(leases, x)
  {
    if ids != [] {
      var init := ids[..|ids| - 1];
      ActiveLeasesExact(init, leases, x);
      assert ids == init + [ids[|ids| - 1]];
    }
  }

  /** The listing is never longer than the user's list. */
  lemma {:induction false} ActiveLeasesShorter(ids: seq<LeaseId>, leases: map<LeaseId, LeaseAgreement>)
    ensures |ActiveLeases(ids, leases)| <= |ids|
  {
    if ids != [] {
      ActiveLeasesShorter(ids[..|ids| - 1], leases);
    }
  }

  function ListOf(m: map<Address, seq<LeaseId>>, u: Address): seq<LeaseId>
  {
    if u in m then m[u] else []
  }

  /** Every lease is filed under its own id, which the counter has issued,
      and is listed under both of its parties. */
  ghost predicate LeasesValid(counter: nat, leases: map<LeaseId, LeaseAgreement>, lists: map<Address, seq<LeaseId>>)
  {
    forall id :: id in leases ==>
      1 <= id <= counter && leases[id].leaseId == id &&
      id in ListOf(lists, leases[id].lessor) && id in ListOf(lists, leases[id].lessee)
  }

  /** Rewriting leases without touching their ids or parties keeps them
      valid. */
  lemma SamePartiesKeepValid(counter: nat, leases: map<LeaseId, LeaseAgreement>,
                             leases': map<LeaseId, LeaseAgreement>, lists: map<Address, seq<LeaseId>>)
    requires LeasesValid(counter, leases, lists)
    requires leases'.Keys == leases.Keys
    requires forall id :: id in leases ==>
               leases'[id].leaseId == leases[id].leaseId &&
               leases'[id].lessor == leases[id].lessor && leases'[id].lessee == leases[id].lessee
    ensures LeasesValid(counter, leases', lists)
  {
  }

  /** A new lease listed under both parties keeps the leases valid. */
  lemma NewLeaseKeepsValid(counter: nat, leases: map<LeaseId, LeaseAgreement>, lists: map<Address, seq<LeaseId>>,
                           lease: LeaseAgreement)
    requires LeasesValid(counter, leases, lists) && lease.leaseId == counter + 1 && lease.lessor != lease.lessee
    ensures var id, a, b := counter + 1, lease.lessor, lease.lessee;
      var lists' := lists[b := ListOf(lists, b) + [id]][a := ListOf(lists, a) + [id]];
      LeasesValid(counter + 1, leases[id := lease], lists')
  {
    var id, a, b := counter + 1, lease.lessor, lease.lessee;
    var lists' := lists[b := ListOf(lists, b) + [id]][a := ListOf(lists, a) + [id]];
    assert forall u :: ListOf(lists, u) <= ListOf(lists', u);
    forall i | i in leases
      ensures i in ListOf(lists', leases[i].lessor) && i in ListOf(lists', leases[i].lessee)
    {
      var l := leases[i];
      assert i in ListOf(lists, l.lessor) && i in ListOf(lists, l.lessee);
      assert ListOf(lists, l.lessor) <= ListOf(lists', l.lessor);
      assert ListOf(lists, l.lessee) <= ListOf(lists', l.lessee);
    }
    assert id in ListOf(lists', a) && id in ListOf(lists', b);
  }

  class LeasingContract {
    var now: nat
    var counter: nat
    var leases: map<LeaseId, LeaseAgreement>
    var lands: map<LandId, Land>
    var userLeases: map<Address, seq<LeaseId>>

    ghost predicate Valid()
      reads this`counter, this`leases, this`userLeases
    {
      LeasesValid(counter, leases, userLeases)
    }

    constructor (time: nat)
      ensures now == time && counter == 0 && leases == map[] && lands == map[] && userLeases == map[]
      ensures Valid()
    {
      now := time;
      counter := 0;
      leases := map[];
      lands := map[];
      userLeases := map[];
    }

    method Tick(time: nat)
      requires now <= time
      modifies this`now
      ensures now == time
    {
      now := time;
    }

    function LeaseOf(id: LeaseId): Option<LeaseAgreement>
      reads this`leases
    {
      if id in leases then Some(leases[id]) else None
    }

    /** `create_lease_agreement`: the counter advances and names the lease,
        which starts active with no payment made and one payment per month
        of its duration; the land record is written as leased to the
        lessor, and the id is listed under the lessee and the lessor. */
    method CreateLease(lessor: Address, lessee: Address, landId: LandId, location: string, size: nat,
                       duration: nat, paymentAmount: int, dataHash: nat)
      returns (r: Result<LeaseId, LeaseError>)
      requires Valid()
      modifies this`counter, this`leases, this`lands, this`userLeases
      ensures Valid()
      ensures var e := CreateCheck(lessor, lessee, size, duration, paymentAmount);
        if e.Some? then r == Err(e.value) && unchanged(this)
        else
          var id := old(counter) + 1;
          r == Ok(id) && counter == id && id !in old(leases) &&
          leases == old(leases)[id := LeaseAgreement(id, lessor, lessee, landId, duration, paymentAmount, ACTIVE,
                                                     now, now + ONE_MONTH_SECONDS, 0, AsU32(duration))] &&
          lands == old(lands)[landId := Land(landId, location, size, dataHash, lessor, false)] &&
          ListOf(userLeases, lessee) == old(ListOf(userLeases, lessee)) + [id] &&
          ListOf(userLeases, lessor) == old(ListOf(userLeases, lessor)) + [id] &&
          forall u :: u != lessor && u != lessee ==> ListOf(userLeases, u) == old(ListOf(userLeases, u))
    {
      var e := CreateCheck(lessor, lessee, size, duration, paymentAmount);
      if e.Some? {
        return Err(e.value);
      }
      var id := counter + 1;
      var lease := LeaseAgreement(id, lessor, lessee, landId, duration, paymentAmount, ACTIVE,
                                  now, now + ONE_MONTH_SECONDS, 0, AsU32(duration));
      NewLeaseKeepsValid(counter, leases, userLeases, lease);
      counter := id;
      lands := lands[landId := Land(landId, location, size, dataHash, lessor, false)];
      leases := leases[id := lease];
      userLeases := userLeases[lessee := ListOf(userLeases, lessee) + [id]];
      userLeases := userLeases[lessor := ListOf(userLeases, lessor) + [id]];
      r := Ok(id);
    }

    /** `terminate_lease_agreement`: a party ends an active lease and the
        land, if registered, becomes available. */
    method TerminateLease(id: LeaseId, terminator: Address) returns (r: Result<bool, LeaseError>)
      requires Valid()
      modifies this`leases, this`lands
      ensures Valid()
      ensures var e := PartyCheck(old(LeaseOf(id)), terminator, UnauthorizedTermination);
        if e.Some? then r == Err(e.value) && unchanged(this)
        else
          var land := old(leases)[id].landId;
          r == Ok(true) && leases == old(leases)[id := old(leases)[id].(status := TERMINATED)] &&
          lands == if land in old(lands) then old(lands)[land := old(lands)[land].(isAvailable := true)] else old(lands)
    {
      var e := PartyCheck(LeaseOf(id), terminator, UnauthorizedTermination);
      if e.Some? {
        return Err(e.value);
      }
      var lease := leases[id];
      SamePartiesKeepValid(counter, leases, leases[id := lease.(status := TERMINATED)], userLeases);
      leases := leases[id := lease.(status := TERMINATED)];
      if lease.landId in lands {
        lands := lands[lease.landId := lands[lease.landId].(isAvailable := true)];
      }
      r := Ok(true);
    }

    /** `extend_lease_duration`: a party lengthens an active lease. */
    method ExtendLease(id: LeaseId, requester: Address, months: nat) returns (r: Result<bool, LeaseError>)
      requires Valid()
      modifies this`leases
      ensures Valid()
      ensures var e := PartyCheck(old(LeaseOf(id)), requester, UnauthorizedExtension);
        if e.Some? then r == Err(e.value) && unchanged(this)
        else r == Ok(true) && leases == old(leases)[id := Extended(old(leases)[id], months)]
    {
      var e := PartyCheck(LeaseOf(id), requester, UnauthorizedExtension);
      if e.Some? {
        return Err(e.value);
      }
      SamePartiesKeepValid(counter, leases, leases[id := Extended(leases[id], months)], userLeases);
      leases := leases[id := Extended(leases[id], months)];
      r := Ok(true);
    }

    /** `increment_payments_made`: one more payment is recorded. */
    method IncrementPaymentsMade(id: LeaseId) returns (r: Result<(), LeaseError>)
      requires Valid()
      modifies this`leases
      ensures Valid()
      ensures id !in old(leases) ==> r == Err(LeaseNotFound) && unchanged(this)
      ensures id in old(leases) ==>
        r.Ok? && leases == old(leases)[id := old(leases)[id].(paymentsMade := old(leases)[id].paymentsMade + 1)]
    {
      if id !in leases {
        return Err(LeaseNotFound);
      }
      var leases' := leases[id := leases[id].(paymentsMade := leases[id].paymentsMade + 1)];
      SamePartiesKeepValid(counter, leases, leases', userLeases);
      leases := leases';
      r := Ok(());
    }

    /** `get_user_active_leases`: the user's listed leases that are active,
        in listing order. */
    method UserActiveLeases(user: Address) returns (active: seq<LeaseId>)
      ensures active == ActiveLeases(ListOf(userLeases, user), leases)
    {
      var ids := ListOf(userLeases, user);
      active := [];
      var i := 0;
      while i < |ids|
        invariant 0 <= i <= |ids|
        invariant active == ActiveLeases(ids[..i], leases)
      {
        assert ids[..i + 1][..i] == ids[..i];
        if IsActive(leases, ids[i]) {
          active := active + [ids[i]];
        }
        i := i + 1;
      }
      assert ids[..|ids|] == ids;
    }
  }
}
