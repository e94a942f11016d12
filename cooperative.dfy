/*
 * Resource sharing in the cooperative-management contract. Members
 * register equipment under a contract-wide counter, borrow and return it,
 * book time slots on it and log its maintenance. A resource is stored
 * under its owner and its counter value; each owner keeps the list of the
 * counter values of the resources registered in their name.
 */
module Cooperative {
  import opened Common

  /** A resource is identified by its owner and the counter value it was
      registered under (`DataKey::Resource(owner, counter)`). */
  type ResourceKey = (Address, nat)

  datatype Resource = Resource(owner: Address, description: string, available: bool,
                               borrower: Option<Address>, schedule: seq<string>)

  /** The errors of resource sharing. */
  datatype CooperativeError =
    | NotAMember
    | ResourceNotAvailable
    | ResourceNotFound
    | Unauthorized
    | TimeSlotConflict

  /** Every element is larger than the ones before it. */
  predicate Increasing(s: seq<nat>)
  {
    forall i, j :: 0 <= i < j < |s| ==> s[i] < s[j]
  }

  lemma IncreasingHasNoDuplicates(s: seq<nat>)
    requires Increasing(s)
    ensures NoDuplicates(s)
  {
  }

  function ListAt<K, V>(m: map<K, seq<V>>, k: K): seq<V>
  {
    if k in m then m[k] else []
  }

  /** A resource is lent out exactly when it has a borrower, and no time
      slot is booked twice. */
  ghost predicate WellFormed(r: Resource)
  {
    (r.available <==> r.borrower.None?) && NoDuplicates(r.schedule)
  }

  /** Stored resources sit under their owner and a counter value already
      handed out, and are well formed. */
  ghost predicate StoredOk(counter: nat, resources: map<ResourceKey, Resource>)
  {
    forall k :: k in resources ==> 1 <= k.1 <= counter && resources[k].owner == k.0 && WellFormed(resources[k])
  }

  /** Every stored resource is on its owner's list. */
  ghost predicate ListsComplete(resources: map<ResourceKey, Resource>, lists: map<Address, seq<nat>>)
  {
    forall k :: k in resources ==> k.1 in ListAt(lists, k.0)
  }

  /** Each owner's list is in registration order and names stored resources
      of that owner. */
  ghost predicate ListsSound(resources: map<ResourceKey, Resource>, lists: map<Address, seq<nat>>)
  {
    forall o :: o in lists ==>
      Increasing(lists[o]) && forall id :: id in lists[o] ==> (o, id) in resources
  }

  ghost predicate Consistent(counter: nat, resources: map<ResourceKey, Resource>, lists: map<Address, seq<nat>>)
  {
    StoredOk(counter, resources) && ListsComplete(resources, lists) && ListsSound(resources, lists)
  }

  /** The store after a resource is registered under `k`: available, with
      no borrower and an empty schedule. */
  function Registered(resources: map<ResourceKey, Resource>, k: ResourceKey, description: string)
    : map<ResourceKey, Resource>
  {
    resources[k := Resource(k.0, description, true, None, [])]
  }

  /** The owner lists after `id` is appended to the list of `owner`. */
  function Appended(lists: map<Address, seq<nat>>, owner: Address, id: nat): map<Address, seq<nat>>
  {
    lists[owner := ListAt(lists, owner) + [id]]
  }

  /** Registering under the next counter value keeps the store consistent:
      the new value is larger than every value handed out before, so it is
      fresh and the owner's list stays in order. */
  lemma RegisterKeepsConsistent(counter: nat, resources: map<ResourceKey, Resource>, lists: map<Address, seq<nat>>,
                                owner: Address, description: string)
    requires Consistent(counter, resources, lists)
    ensures (owner, counter + 1) !in resources
    ensures Consistent(counter + 1, Registered(resources, (owner, counter + 1), description),
                       Appended(lists, owner, counter + 1))
  {
    var added := Resource(owner, description, true, None, []);
    RegisterKeepsStored(counter, resources, owner, description);
    RegisterKeepsComplete(resources, lists, owner, counter + 1, added);
    RegisterKeepsSound(counter, resources, lists, owner, added);
  }

  lemma RegisterKeepsStored(counter: nat, resources: map<ResourceKey, Resource>, owner: Address, description: string)
    requires StoredOk(counter, resources)
    ensures (owner, counter + 1) !in resources
    ensures StoredOk(counter + 1, resources[(owner, counter + 1) := Resource(owner, description, true, None, [])])
  {
  }

  /** Appending the new value to the owner's list keeps every stored
      resource listed. */
  lemma RegisterKeepsComplete(resources: map<ResourceKey, Resource>, lists: map<Address, seq<nat>>,
                              owner: Address, c: nat, r: Resource)
    requires ListsComplete(resources, lists)
    ensures ListsComplete(resources[(owner, c) := r], lists[owner := ListAt(lists, owner) + [c]])
  {
    var ls := lists[owner := ListAt(lists, owner) + [c]];
    forall k | k in resources[(owner, c) := r]
      ensures k.1 in ListAt(ls, k.0)
    {
      if k != (owner, c) {
        assert k.1 in ListAt(lists, k.0);
      }
    }
  }

  /** Every listed value is at most the old counter, so appending the next
      value keeps the list increasing. */
  lemma RegisterKeepsSound(counter: nat, resources: map<ResourceKey, Resource>, lists: map<Address, seq<nat>>,
                           owner: Address, r: Resource)
    requires StoredOk(counter, resources) && ListsSound(resources, lists)
    ensures ListsSound(resources[(owner, counter + 1) := r], lists[owner := ListAt(lists, owner) + [counter + 1]])
  {
    var c := counter + 1;
    var before := ListAt(lists, owner);
    forall i | 0 <= i < |before|
      ensures before[i] < c
    {
      assert (owner, before[i]) in resources;
    }
  }

  /** Rewriting a stored resource in place, same owner and well formed,
      keeps the store consistent. */
  lemma ReplaceKeepsConsistent(counter: nat, resources: map<ResourceKey, Resource>, lists: map<Address, seq<nat>>,
                               k: ResourceKey, r: Resource)
    requires Consistent(counter, resources, lists)
    requires k in resources && r.owner == resources[k].owner && WellFormed(r)
    ensures Consistent(counter, resources[k := r], lists)
  {
    assert resources[k := r].Keys == resources.Keys;
  }

  /** The checks of `borrow_resource`: the borrower must be a member, and
      a missing resource is reported like one already lent. */
  function BorrowCheck(members: set<Address>, resources: map<ResourceKey, Resource>,
                       borrower: Address, owner: Address, id: nat): (e: Option<CooperativeError>)
    ensures e.None? <==> borrower in members && (owner, id) in resources && resources[(owner, id)].available
    ensures borrower in members && e.Some? ==> e == Some(ResourceNotAvailable)
  {
    if borrower !in members then Some(NotAMember)
    else if (owner, id) !in resources || !resources[(owner, id)].available then Some(ResourceNotAvailable)
    else None
  }

  /** The store after lending the resource under `k` to `borrower`. */
  function Lent(resources: map<ResourceKey, Resource>, k: ResourceKey, borrower: Address): map<ResourceKey, Resource>
    requires k in resources
  {
    resources[k := resources[k].(available := false, borrower := Some(borrower))]
  }

  /** The checks of `return_resource`: only the owner or the current
      borrower may return a stored resource. */
  function ReturnCheck(resources: map<ResourceKey, Resource>, caller: Address, owner: Address, id: nat)
    : (e: Option<CooperativeError>)
    ensures e.None? <==>
      (owner, id) in resources && (caller == owner || resources[(owner, id)].borrower == Some(caller))
    ensures (owner, id) !in resources ==> e == Some(ResourceNotAvailable)
  {
    if (owner, id) !in resources then Some(ResourceNotAvailable)
    else if caller != owner && resources[(owner, id)].borrower != Some(caller) then Some(Unauthorized)
    else None
  }

  /** The store after the resource under `k` comes back. */
  function Released(resources: map<ResourceKey, Resource>, k: ResourceKey): map<ResourceKey, Resource>
    requires k in resources
  {
    resources[k := resources[k].(available := true, borrower := None)]
  }

  /** The checks of `schedule_resource`: a member books a slot on an
      available resource, and a slot already booked conflicts. */
  function ScheduleCheck(members: set<Address>, resources: map<ResourceKey, Resource>,
                         borrower: Address, owner: Address, id: nat, slot: string): (e: Option<CooperativeError>)
    ensures e.None? <==>
      borrower in members && (owner, id) in resources && resources[(owner, id)].available &&
      slot !in resources[(owner, id)].schedule
    ensures e == Some(TimeSlotConflict) <==>
      borrower in members && (owner, id) in resources && resources[(owner, id)].available &&
      slot in resources[(owner, id)].schedule
  {
    if borrower !in members then Some(NotAMember)
    else if (owner, id) !in resources || !resources[(owner, id)].available then Some(ResourceNotAvailable)
    else if slot in resources[(owner, id)].schedule then Some(TimeSlotConflict)
    else None
  }

  /** The store after `slot` is booked on the resource under `k`. */
  function Booked(resources: map<ResourceKey, Resource>, k: ResourceKey, slot: string): map<ResourceKey, Resource>
    requires k in resources
  {
    resources[k := resources[k].(schedule := resources[k].schedule + [slot])]
  }

  /** The checks of `track_maintenance`: the resource must exist and the
      caller must be its recorded owner. */
  function MaintenanceCheck(resources: map<ResourceKey, Resource>, owner: Address, caller: Address, id: nat)
    : (e: Option<CooperativeError>)
    ensures e.None? <==> (owner, id) in resources && resources[(owner, id)].owner == caller
    ensures (owner, id) !in resources ==> e == Some(ResourceNotFound)
  {
    if (owner, id) !in resources then Some(ResourceNotFound)
    else if resources[(owner, id)].owner != caller then Some(Unauthorized)
    else None
  }

  /** In a consistent store only the owner passes the maintenance check. */
  lemma MaintenanceOnlyByOwner(counter: nat, resources: map<ResourceKey, Resource>, lists: map<Address, seq<nat>>,
                               owner: Address, caller: Address, id: nat)
    requires Consistent(counter, resources, lists)
    ensures MaintenanceCheck(resources, owner, caller, id).None? <==> (owner, id) in resources && caller == owner
  {
  }

  /** A newly registered resource can be borrowed by any member. */
  lemma RegisteredCanBeBorrowed(members: set<Address>, resources: map<ResourceKey, Resource>,
                                k: ResourceKey, description: string, m: Address)
    requires m in members
    ensures BorrowCheck(members, Registered(resources, k, description), m, k.0, k.1) == None
  {
  }

  /** A lent resource can be returned by its borrower, and neither lent
      again nor scheduled until then. */
  lemma LentUntilReturned(members: set<Address>, resources: map<ResourceKey, Resource>,
                          borrower: Address, owner: Address, id: nat, m: Address, slot: string)
    requires BorrowCheck(members, resources, borrower, owner, id) == None
    ensures ReturnCheck(Lent(resources, (owner, id), borrower), borrower, owner, id) == None
    ensures m in members ==> BorrowCheck(members, Lent(resources, (owner, id), borrower), m, owner, id)
                             == Some(ResourceNotAvailable)
    ensures m in members ==> ScheduleCheck(members, Lent(resources, (owner, id), borrower), m, owner, id, slot)
                             == Some(ResourceNotAvailable)
  {
  }

  /** Once returned, a resource can be borrowed by any member. */
  lemma ReturnedCanBeBorrowed(members: set<Address>, resources: map<ResourceKey, Resource>,
                              caller: Address, owner: Address, id: nat, m: Address)
    requires ReturnCheck(resources, caller, owner, id) == None && m in members
    ensures BorrowCheck(members, Released(resources, (owner, id)), m, owner, id) == None
  {
  }

  /** A booked slot cannot be booked again. */
  lemma BookedSlotConflicts(members: set<Address>, resources: map<ResourceKey, Resource>,
                            borrower: Address, owner: Address, id: nat, slot: string, m: Address)
    requires ScheduleCheck(members, resources, borrower, owner, id, slot) == None && m in members
    ensures ScheduleCheck(members, Booked(resources, (owner, id), slot), m, owner, id, slot) == Some(TimeSlotConflict)
  {
  }

  lemma LendKeepsConsistent(counter: nat, resources: map<ResourceKey, Resource>, lists: map<Address, seq<nat>>,
                            k: ResourceKey, borrower: Address)
    requires Consistent(counter, resources, lists) && k in resources
    ensures Consistent(counter, Lent(resources, k, borrower), lists)
  {
    ReplaceKeepsConsistent(counter, resources, lists, k, resources[k].(available := false, borrower := Some(borrower)));
  }

  lemma ReleaseKeepsConsistent(counter: nat, resources: map<ResourceKey, Resource>, lists: map<Address, seq<nat>>,
                               k: ResourceKey)
    requires Consistent(counter, resources, lists) && k in resources
    ensures Consistent(counter, Released(resources, k), lists)
  {
    ReplaceKeepsConsistent(counter, resources, lists, k, resources[k].(available := true, borrower := None));
  }

  /** Booking a slot not yet on the schedule keeps the schedule free of
      repeats. */
  lemma BookKeepsConsistent(counter: nat, resources: map<ResourceKey, Resource>, lists: map<Address, seq<nat>>,
                            k: ResourceKey, slot: string)
    requires Consistent(counter, resources, lists) && k in resources && slot !in resources[k].schedule
    ensures Consistent(counter, Booked(resources, k, slot), lists)
  {
    ReplaceKeepsConsistent(counter, resources, lists, k, resources[k].(schedule := resources[k].schedule + [slot]));
  }

  class CooperativeContract {
    /** The registered members; membership is managed outside resource
        sharing. */
    const members: set<Address>
    var counter: nat
    var resources: map<ResourceKey, Resource>
    var ownerResources: map<Address, seq<nat>>
    var maintenanceLogs: map<Address, seq<string>>

    /** Stored resources sit under their owner and a counter value already
        handed out, and are well formed; an owner's list names exactly the
        owner's stored resources, in registration order. */
    ghost predicate Valid()
      reads this`counter, this`resources, this`ownerResources
    {
      Consistent(counter, resources, ownerResources)
    }

    constructor (memberSet: set<Address>)
      ensures members == memberSet
      ensures counter == 0 && resources == map[] && ownerResources == map[] && maintenanceLogs == map[]
      ensures Valid()
    {
      members := memberSet;
      counter := 0;
      resources := map[];
      ownerResources := map[];
      maintenanceLogs := map[];
    }

    /** `register_resource`: the counter advances and the new resource,
        available with no borrower and an empty schedule, is stored under
        the owner and the new counter value, which is appended to the
        owner's list. */
    method RegisterResource(owner: Address, description: string) returns (r: Result<(), CooperativeError>)
      requires Valid()
      modifies this`counter, this`resources, this`ownerResources
      ensures Valid()
      ensures r.Ok?
      ensures counter == old(counter) + 1
      ensures (owner, counter) !in old(resources)
      ensures resources == Registered(old(resources), (owner, counter), description)
      ensures ownerResources == Appended(old(ownerResources), owner, counter)
    {
      var c := counter + 1;
      var stored := Registered(resources, (owner, c), description);
      var lists := Appended(ownerResources, owner, c);
      RegisterKeepsConsistent(counter, resources, ownerResources, owner, description);
      counter, resources, ownerResources := c, stored, lists;
      return Ok(());
    }

    /** `get_resources_by_owner`: the counter values of the owner's
        resources, in registration order, with no repeats. */
    function ResourcesByOwner(owner: Address): (ids: seq<nat>)
      requires Valid()
      reads this`counter, this`resources, this`ownerResources
      ensures forall id :: id in ids <==> (owner, id) in resources
      ensures Increasing(ids) && NoDuplicates(ids)
    {
      var ids := ListAt(ownerResources, owner);
      IncreasingHasNoDuplicates(ids);
      ids
    }

    /** `borrow_resource`: the resource is lent to the borrower. */
    method BorrowResource(borrower: Address, owner: Address, id: nat) returns (r: Result<(), CooperativeError>)
      requires Valid()
      modifies this`resources
      ensures Valid()
      ensures r.Err? ==> unchanged(this) && Some(r.error) == BorrowCheck(members, old(resources), borrower, owner, id)
      ensures r.Ok? <==> BorrowCheck(members, old(resources), borrower, owner, id) == None
      ensures r.Ok? ==> resources == Lent(old(resources), (owner, id), borrower)
    {
      var e := BorrowCheck(members, resources, borrower, owner, id);
      if e.Some? {
        return Err(e.value);
      }
      var after := Lent(resources, (owner, id), borrower);
      LendKeepsConsistent(counter, resources, ownerResources, (owner, id), borrower);
      assert Consistent(counter, after, ownerResources);
      resources := after;
      return Ok(());
    }

    /** `return_resource`: the resource is available again with no
        borrower. */
    method ReturnResource(caller: Address, owner: Address, id: nat) returns (r: Result<(), CooperativeError>)
      requires Valid()
      modifies this`resources
      ensures Valid()
      ensures r.Err? ==> unchanged(this) && Some(r.error) == ReturnCheck(old(resources), caller, owner, id)
      ensures r.Ok? <==> ReturnCheck(old(resources), caller, owner, id) == None
      ensures r.Ok? ==> resources == Released(old(resources), (owner, id))
    {
      var e := ReturnCheck(resources, caller, owner, id);
      if e.Some? {
        return Err(e.value);
      }
      var after := Released(resources, (owner, id));
      ReleaseKeepsConsistent(counter, resources, ownerResources, (owner, id));
      assert Consistent(counter, after, ownerResources);
      resources := after;
      return Ok(());
    }

    /** `schedule_resource`: the slot is appended to the schedule after a
        scan of the booked slots for a conflict. The borrower named in the
        call is checked for membership but not recorded. */
    method ScheduleResource(owner: Address, id: nat, borrower: Address, slot: string)
      returns (r: Result<(), CooperativeError>)
      requires Valid()
      modifies this`resources
      ensures Valid()
      ensures r.Err? ==> unchanged(this) && Some(r.error) == ScheduleCheck(members, old(resources), borrower, owner, id, slot)
      ensures r.Ok? <==> ScheduleCheck(members, old(resources), borrower, owner, id, slot) == None
      ensures r.Ok? ==> resources == Booked(old(resources), (owner, id), slot)
    {
      if borrower !in members {
        return Err(NotAMember);
      }
      if (owner, id) !in resources || !resources[(owner, id)].available {
        return Err(ResourceNotAvailable);
      }
      var schedule := resources[(owner, id)].schedule;
      var i := 0;
      while i < |schedule|
        invariant 0 <= i <= |schedule|
        invariant slot !in schedule[..i]
      {
        if schedule[i] == slot {
          return Err(TimeSlotConflict);
        }
        i := i + 1;
      }
      assert schedule[..i] == schedule;
      var after := Booked(resources, (owner, id), slot);
      BookKeepsConsistent(counter, resources, ownerResources, (owner, id), slot);
      assert Consistent(counter, after, ownerResources);
      resources := after;
      return Ok(());
    }

    /** `track_maintenance`: the details are appended to the owner's
        maintenance log; nothing else changes. */
    method TrackMaintenance(owner: Address, caller: Address, id: nat, details: string)
      returns (r: Result<(), CooperativeError>)
      requires Valid()
      modifies this`maintenanceLogs
      ensures r.Err? ==> unchanged(this) && Some(r.error) == MaintenanceCheck(resources, owner, caller, id)
      ensures r.Ok? <==> MaintenanceCheck(resources, owner, caller, id) == None
      ensures r.Ok? ==>
        maintenanceLogs == old(maintenanceLogs)[owner := ListAt(old(maintenanceLogs), owner) + [details]]
    {
      var e := MaintenanceCheck(resources, owner, caller, id);
      if e.Some? {
        return Err(e.value);
      }
      maintenanceLogs := maintenanceLogs[owner := ListAt(maintenanceLogs, owner) + [details]];
      return Ok(());
    }
  }
}
