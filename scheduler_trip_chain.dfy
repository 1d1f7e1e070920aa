/**
 * The scheduler's trip chain: a person's tour as a list of trip objects,
 * with its joint-tour identity, the vehicles its trips need, shallow and
 * deep copies, and a recycling pool that hands out cleaned chains again.
 *
 * Trips, modes, vehicle types and persons are objects, so "the same
 * vehicle type" is reference identity as in List.Contains. The static
 * queue of recycled chains is an explicit ChainPool object.
 */
module SchedulerTripChain {
  import opened Common

  /** A vehicle type, compared by identity. */
  class VehicleType {
  }

  /** A person, compared by identity. */
  class Person {
  }

  /** The parts of a trip's mode the chain looks at. */
  class Mode {
    const nonPersonalVehicle: bool
    const requiresVehicle: VehicleType?

    constructor(nonPersonalVehicle: bool, requiresVehicle: VehicleType?)
      ensures this.nonPersonalVehicle == nonPersonalVehicle && this.requiresVehicle == requiresVehicle
    {
      this.nonPersonalVehicle := nonPersonalVehicle;
      this.requiresVehicle := requiresVehicle;
    }
  }

  class Trip {
    var mode: Mode?
    var tripStartTime: int
    var activityStartTime: int
    var tripChain: SchedulerTripChain?

    constructor(mode: Mode?, tripStartTime: int, activityStartTime: int, tripChain: SchedulerTripChain?)
      ensures this.mode == mode && this.tripStartTime == tripStartTime
      ensures this.activityStartTime == activityStartTime && this.tripChain == tripChain
    {
      this.mode := mode;
      this.tripStartTime := tripStartTime;
      this.activityStartTime := activityStartTime;
      this.tripChain := tripChain;
    }

    /** Two trips agree on everything but the chain they belong to. */
    predicate SameTrip(other: Trip)
      reads this, other
    {
      mode == other.mode && tripStartTime == other.tripStartTime && activityStartTime == other.activityStartTime
    }

    /** A copy of the trip (ITrip.Clone, whose own code is not part of this model). */
    method Clone() returns (t: Trip)
      ensures fresh(t) && t.SameTrip(this) && t.tripChain == tripChain
    {
      t := new Trip(mode, tripStartTime, activityStartTime, tripChain);
    }
  }

  /** The joint chains of a household, person after person and chain after chain. */
  function Flatten<T>(lists: seq<seq<T>>): seq<T>
  {
    if lists == [] then [] else Flatten(lists[..|lists| - 1]) + lists[|lists| - 1]
  }

  /** The flattening is empty exactly when every list is, and holds every element of the lists and nothing else. */
  lemma {:induction false} FlattenMembers<T>(lists: seq<seq<T>>)
    ensures |Flatten(lists)| == 0 <==> forall i :: 0 <= i < |lists| ==> lists[i] == []
    ensures forall i, k :: 0 <= i < |lists| && 0 <= k < |lists[i]| ==> lists[i][k] in Flatten(lists)
    ensures forall k :: 0 <= k < |Flatten(lists)| ==> exists i :: 0 <= i < |lists| && Flatten(lists)[k] in lists[i]
    decreases |lists|
  {
    if lists != [] {
      var front := lists[..|lists| - 1];
      var last := lists[|lists| - 1];
      FlattenMembers(front);
      assert forall i :: 0 <= i < |lists| - 1 ==> front[i] == lists[i];
      assert Flatten(lists) == Flatten(front) + last;
      forall k | 0 <= k < |Flatten(lists)|
        ensures exists i :: 0 <= i < |lists| && Flatten(lists)[k] in lists[i]
      {
        if k < |Flatten(front)| {
          var i :| 0 <= i < |front| && Flatten(front)[k] in front[i];
          assert Flatten(lists)[k] in lists[i];
        } else {
          assert Flatten(lists)[k] == last[k - |Flatten(front)|];
          assert Flatten(lists)[k] in lists[|lists| - 1];
        }
      }
    }
  }

  /** The chains, in order, that carry the given joint-tour id. */
  function Linked(chains: seq<SchedulerTripChain>, id: int): seq<SchedulerTripChain>
    reads chains
  {
    if chains == [] then []
    else
      var last := chains[|chains| - 1];
      Linked(chains[..|chains| - 1], id) + (if last.jointTripID == id then [last] else [])
  }

  /** A chain is linked exactly when it is one of the chains and carries the id. */
  lemma {:induction false} LinkedMembers(chains: seq<SchedulerTripChain>, id: int, c: SchedulerTripChain)
    ensures c in Linked(chains, id) <==> c in chains && c.jointTripID == id
    decreases |chains|
  {
    if chains != [] {
      LinkedMembers(chains[..|chains| - 1], id, c);
      assert chains == chains[..|chains| - 1] + [chains[|chains| - 1]];
    }
  }

  /** One person's chains that carry the joint-tour id, in order. */
  method LinkedIn(chains: seq<SchedulerTripChain>, id: int) returns (linked: seq<SchedulerTripChain>)
    ensures linked == Linked(chains, id)
  {
    linked := [];
    var j := 0;
    while j < |chains|
      invariant 0 <= j <= |chains|
      invariant linked == Linked(chains[..j], id)
    {
      if chains[j].jointTripID == id {
        linked := linked + [chains[j]];
      }
      assert chains[..j + 1][..j] == chains[..j];
      j := j + 1;
    }
    assert chains[..j] == chains;
  }

  /** One more list of a prefix adds its elements at the end of the flattening. */
  lemma FlattenPrefixSnoc<T>(lists: seq<seq<T>>, i: nat)
    requires i < |lists|
    ensures Flatten(lists[..i + 1]) == Flatten(lists[..i]) + lists[i]
  {
    assert lists[..i + 1][..i] == lists[..i];
  }

  /** Filtering two lists one after the other is filtering their concatenation. */
  lemma {:induction false} LinkedAppend(a: seq<SchedulerTripChain>, b: seq<SchedulerTripChain>, id: int)
    ensures Linked(a + b, id) == Linked(a, id) + Linked(b, id)
    decreases |b|
  {
    if b == [] {
      assert a + b == a;
    } else {
      var front := b[..|b| - 1];
      LinkedAppend(a, front, id);
      assert (a + b)[..|a + b| - 1] == a + front;
    }
  }

  /** Every linked chain carries the id. */
  lemma {:induction false} LinkedCarryId(chains: seq<SchedulerTripChain>, id: int)
    ensures forall k :: 0 <= k < |Linked(chains, id)| ==> Linked(chains, id)[k].jointTripID == id
    decreases |chains|
  {
    if chains != [] {
      LinkedCarryId(chains[..|chains| - 1], id);
    }
  }

  /** The fault a scan of the trips meets at a trip without a mode. */
  datatype TripFault = NullMode(trip: nat)

  /** The first n trips all have a mode, and none of those modes uses a personal vehicle. */
  predicate NonPersonalUpTo(trips: seq<Trip>, n: nat)
    reads trips
  {
    n <= |trips| && forall k :: 0 <= k < n ==> trips[k].mode != null && trips[k].mode.nonPersonalVehicle
  }

  /** The distinct vehicle types the trips' modes require, in order of first use. */
  function RequiredVehicles(trips: seq<Trip>): seq<VehicleType>
    reads trips
  {
    if trips == [] then []
    else
      var previous := RequiredVehicles(trips[..|trips| - 1]);
      var t := trips[|trips| - 1];
      if t.mode != null && t.mode.requiresVehicle != null && t.mode.requiresVehicle !in previous
      then previous + [t.mode.requiresVehicle]
      else previous
  }

  /** Some trip's mode requires the vehicle type. */
  ghost predicate Requires(trips: seq<Trip>, v: VehicleType)
    reads trips
  {
    exists i :: 0 <= i < |trips| && trips[i].mode != null && trips[i].mode.requiresVehicle == v
  }

  /** A vehicle type is listed exactly when some trip's mode requires it. */
  lemma {:induction false} RequiredVehiclesMembers(trips: seq<Trip>, v: VehicleType)
    ensures v in RequiredVehicles(trips) <==> Requires(trips, v)
    decreases |trips|
  {
    if trips != [] {
      var front := trips[..|trips| - 1];
      RequiredVehiclesMembers(front, v);
      assert forall i :: 0 <= i < |front| ==> front[i] == trips[i];
    }
  }

  /** No vehicle type is listed twice. */
  lemma {:induction false} RequiredVehiclesDistinct(trips: seq<Trip>)
    ensures forall a, b :: 0 <= a < b < |RequiredVehicles(trips)| ==> RequiredVehicles(trips)[a] != RequiredVehicles(trips)[b]
    decreases |trips|
  {
    if trips != [] {
      RequiredVehiclesDistinct(trips[..|trips| - 1]);
    }
  }

  /** The list only grows at its end as trips are added: earlier first uses stay first. */
  lemma {:induction false} RequiredVehiclesPrefix(trips: seq<Trip>, k: nat)
    requires k <= |trips|
    ensures RequiredVehicles(trips[..k]) <= RequiredVehicles(trips)
    decreases |trips| - k
  {
    if k < |trips| {
      RequiredVehiclesPrefix(trips, k + 1);
      assert trips[..k + 1][..k] == trips[..k];
    } else {
      assert trips[..k] == trips;
    }
  }

  class SchedulerTripChain {
    var person: Person?
    var trips: seq<Trip>
    var jointTripID: int
    var jointTripRep: bool
    var getRepTripChain: SchedulerTripChain?

    /** A new chain for the person, with no trips. */
    constructor(person: Person?)
      ensures this.person == person && trips == [] && jointTripID == 0 && !jointTripRep && getRepTripChain == null
    {
      this.person := person;
      trips := [];
      jointTripID := 0;
      jointTripRep := false;
      getRepTripChain := null;
    }

    /** MemberwiseClone followed by a new, empty trip list. */
    constructor Copy(source: SchedulerTripChain)
      ensures person == source.person && jointTripID == source.jointTripID && jointTripRep == source.jointTripRep
      ensures getRepTripChain == source.getRepTripChain && trips == []
    {
      person := source.person;
      jointTripID := source.jointTripID;
      jointTripRep := source.jointTripRep;
      getRepTripChain := source.getRepTripChain;
      trips := [];
    }

    predicate JointTrip()
      reads this
    {
      jointTripID != 0
    }

    /** The chain starts when its first trip starts. */
    function StartTime(): int
      requires |trips| > 0
      reads this, trips[0]
    {
      trips[0].tripStartTime
    }

    /** The chain ends when the activity of its last trip (the return home) starts. */
    function EndTime(): int
      requires |trips| > 0
      reads this, trips[|trips| - 1]
    {
      trips[|trips| - 1].activityStartTime
    }

    /**
     * The household's chains that share this chain's joint-tour id, given the
     * trip-chain lists of the household's persons; None when this is not a
     * joint tour.
     */
    method JointTripChains(householdChains: seq<seq<SchedulerTripChain>>) returns (r: Option<seq<SchedulerTripChain>>)
      ensures r.None? <==> !JointTrip()
      ensures r.Some? ==> r.value == Linked(Flatten(householdChains), jointTripID)
    {
      if !JointTrip() {
        return None;
      }
      var linked: seq<SchedulerTripChain> := [];
      var i := 0;
      while i < |householdChains|
        invariant 0 <= i <= |householdChains|
        invariant linked == Linked(Flatten(householdChains[..i]), jointTripID)
      {
        FlattenMembers(householdChains[..i]);
        var more := LinkedIn(householdChains[i], jointTripID);
        FlattenPrefixSnoc(householdChains, i);
        LinkedAppend(Flatten(householdChains[..i]), householdChains[i], jointTripID);
        linked := linked + more;
        i := i + 1;
      }
      assert householdChains[..i] == householdChains;
      r := Some(linked);
    }

    /** The vehicle types the trips need, each once, in order of first use. */
    method RequiresVehicle() returns (v: seq<VehicleType>)
      ensures v == RequiredVehicles(trips)
    {
      v := [];
      var i := 0;
      while i < |trips|
        invariant 0 <= i <= |trips|
        invariant v == RequiredVehicles(trips[..i])
      {
        var trip := trips[i];
        if trip.mode != null && trip.mode.requiresVehicle != null {
          if trip.mode.requiresVehicle !in v {
            v := v + [trip.mode.requiresVehicle];
          }
        }
        assert trips[..i + 1][..i] == trips[..i];
        i := i + 1;
      }
      assert trips[..i] == trips;
    }

    /**
     * TripChainRequiresPV: scan the trips in order and answer true at the
     * first one whose mode is not a non-personal one, false when there is
     * none; a trip without a mode met before that stops the scan with a null
     * dereference, reported as the fault naming that trip.
     */
    method TripChainRequiresPV() returns (r: Result<bool, TripFault>)
      ensures r.Err? ==> (r.error.trip < |trips| && trips[r.error.trip].mode == null
                          && NonPersonalUpTo(trips, r.error.trip))
      ensures r == Ok(true) ==> (exists i :: 0 <= i < |trips| && NonPersonalUpTo(trips, i)
                                   && trips[i].mode != null && !trips[i].mode.nonPersonalVehicle)
      ensures r == Ok(false) <==> NonPersonalUpTo(trips, |trips|)
      ensures (forall i :: 0 <= i < |trips| ==> trips[i].mode != null) ==>
        r.Ok? && (r.value <==> exists i :: 0 <= i < |trips| && !trips[i].mode.nonPersonalVehicle)
    {
      var i := 0;
      while i < |trips|
        invariant 0 <= i <= |trips|
        invariant NonPersonalUpTo(trips, i)
      {
        if trips[i].mode == null {
          return Err(NullMode(i));
        }
        if !trips[i].mode.nonPersonalVehicle {
          return Ok(true);
        }
        i := i + 1;
      }
      return Ok(false);
    }

    /** A shallow copy: a new chain with a new list holding the same trips. */
    method Clone() returns (chain: SchedulerTripChain)
      ensures fresh(chain)
      ensures chain.person == person && chain.jointTripID == jointTripID && chain.jointTripRep == jointTripRep
      ensures chain.getRepTripChain == getRepTripChain && chain.trips == trips
      ensures |trips| > 0 ==> chain.StartTime() == StartTime() && chain.EndTime() == EndTime()
    {
      chain := new SchedulerTripChain.Copy(this);
      chain.trips := trips;
    }

    /** A deep copy: every trip is cloned and points at the new chain; the original trips are untouched. */
    method DeepClone() returns (chain: SchedulerTripChain)
      ensures fresh(chain)
      ensures chain.person == person && chain.jointTripID == jointTripID && chain.jointTripRep == jointTripRep
      ensures chain.getRepTripChain == getRepTripChain && |chain.trips| == |trips|
      ensures forall i :: 0 <= i < |trips| ==>
        fresh(chain.trips[i]) && chain.trips[i].SameTrip(trips[i]) && chain.trips[i].tripChain == chain
      ensures forall i, j :: 0 <= i < j < |trips| ==> chain.trips[i] != chain.trips[j]
      ensures |trips| > 0 ==> chain.StartTime() == StartTime() && chain.EndTime() == EndTime()
    {
      chain := new SchedulerTripChain.Copy(this);
      var cloned: seq<Trip> := [];
      for i := 0 to |trips|
        invariant |cloned| == i
        invariant forall k :: 0 <= k < i ==> fresh(cloned[k]) && cloned[k].SameTrip(trips[k]) && cloned[k].tripChain == chain
        invariant forall k, l :: 0 <= k < l < i ==> cloned[k] != cloned[l]
        invariant chain.person == person && chain.jointTripID == jointTripID && chain.jointTripRep == jointTripRep
        invariant chain.getRepTripChain == getRepTripChain
      {
        var t := trips[i].Clone();
        t.tripChain := chain;
        cloned := cloned + [t];
      }
      chain.trips := cloned;
    }

    /** Cleans the chain (no trips, no joint tour, no person) and returns it to the pool. */
    method Recycle(pool: ChainPool)
      requires pool.Valid()
      modifies this, pool
      ensures trips == [] && jointTripID == 0 && !jointTripRep && getRepTripChain == null && person == null
      ensures pool.chains == old(pool.chains) + [this]
      ensures pool.Valid()
    {
      trips := [];
      jointTripID := 0;
      jointTripRep := false;
      getRepTripChain := null;
      // JointTripChains is null now that the id is 0, so there is no list to clear.
      person := null;
      pool.chains := pool.chains + [this];
    }

    /** A chain for the person: the oldest recycled one when there is one, otherwise a new one. */
    static method GetTripChain(person: Person, pool: ChainPool) returns (chain: SchedulerTripChain)
      requires pool.Valid()
      modifies pool, pool.chains
      ensures pool.Valid()
      ensures chain.person == person && chain.trips == [] && chain.jointTripID == 0
      ensures !chain.jointTripRep && chain.getRepTripChain == null
      ensures old(pool.chains) == [] ==> fresh(chain) && pool.chains == []
      ensures old(pool.chains) != [] ==> chain == old(pool.chains[0]) && pool.chains == old(pool.chains[1..])
    {
      if pool.chains == [] {
        chain := new SchedulerTripChain(person);
        return;
      }
      chain := pool.chains[0];
      pool.chains := pool.chains[1..];
      chain.person := person;
    }
  }

  /** The queue of recycled chains. */
  class ChainPool {
    var chains: seq<SchedulerTripChain>

    constructor()
      ensures chains == [] && Valid()
    {
      chains := [];
    }

    /** Every pooled chain is clean. */
    ghost predicate Valid()
      reads this, chains
    {
      forall i :: 0 <= i < |chains| ==>
        chains[i].trips == [] && chains[i].jointTripID == 0 && !chains[i].jointTripRep && chains[i].getRepTripChain == null
    }
  }
}
