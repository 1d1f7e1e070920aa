/**
 * The Beijing auto mode: who may drive (age, licence, a household vehicle
 * of the mode's type), whether a tour can be driven (the car must be picked
 * up where it was left and end the day at home), the income bracket of its
 * utility, and the validation that binds its vehicle type and network.
 * Zones are their zone numbers; the utility's floating-point terms are not
 * part of this model.
 */
module AutoMode {
  import opened Common

  datatype VehicleType = VehicleType(vehicleName: string)

  /** The parts of a trip's mode the auto mode looks at. */
  datatype TripMode = TripMode(nonPersonalVehicle: bool, requiresVehicle: VehicleType)

  datatype Trip = Trip(originZone: int, destinationZone: int, mode: TripMode)

  datatype Person = Person(age: int, licence: bool, householdVehicles: seq<VehicleType>, homeZone: int)

  datatype Network = Network(networkType: string)

  /** The utility constants of CalculateV's income switch. */
  datatype IncomeBracket = Income1 | Income2 | Income3 | Income4

  /** The income switch: 1; 2 or 3; 4 or 5; anything else. */
  function Bracket(income: int): (b: IncomeBracket)
    ensures b == Income1 <==> income == 1
    ensures b == Income2 <==> income == 2 || income == 3
    ensures b == Income3 <==> income == 4 || income == 5
    ensures b == Income4 <==> !(1 <= income <= 5)
  {
    match income
      case 1 => Income1
      case 2 => Income2
      case 3 => Income2
      case 4 => Income3
      case 5 => Income3
      case _ => Income4
  }

  /** A household vehicle has the given type name. */
  predicate HasVehicle(vehicles: seq<VehicleType>, name: string)
  {
    exists i :: 0 <= i < |vehicles| && vehicles[i].vehicleName == name
  }

  /** The trip is a personal-vehicle trip in a vehicle of this type. */
  predicate MovesVehicle(trip: Trip, name: string)
  {
    !trip.mode.nonPersonalVehicle && trip.mode.requiresVehicle.vehicleName == name
  }

  /**
   * Where the vehicle is after the trips, starting from `leftAt`; None when
   * one of its trips starts somewhere other than where it was left.
   */
  function VehicleTrace(trips: seq<Trip>, name: string, leftAt: int): Option<int>
  {
    if trips == [] then Some(leftAt)
    else if MovesVehicle(trips[0], name) then
      if trips[0].originZone != leftAt then None
      else VehicleTrace(trips[1..], name, trips[0].destinationZone)
    else VehicleTrace(trips[1..], name, leftAt)
  }

  /** Tracing a tour in two parts is tracing the first part, then the second from where the first left the vehicle. */
  lemma {:induction false} VehicleTraceAppend(a: seq<Trip>, b: seq<Trip>, name: string, leftAt: int)
    ensures VehicleTrace(a + b, name, leftAt) ==
      match VehicleTrace(a, name, leftAt)
        case None => None
        case Some(at) => VehicleTrace(b, name, at)
    decreases |a|
  {
    if a != [] {
      assert (a + b)[0] == a[0] && (a + b)[1..] == a[1..] + b;
      var next := if MovesVehicle(a[0], name) then a[0].destinationZone else leftAt;
      VehicleTraceAppend(a[1..], b, name, next);
    } else {
      assert a + b == b;
    }
  }

  /** Trips that never use this vehicle leave it where it was. */
  lemma {:induction false} VehicleTraceUnused(trips: seq<Trip>, name: string, leftAt: int)
    requires forall i :: 0 <= i < |trips| ==> !MovesVehicle(trips[i], name)
    ensures VehicleTrace(trips, name, leftAt) == Some(leftAt)
    decreases |trips|
  {
    if trips != [] {
      VehicleTraceUnused(trips[1..], name, leftAt);
    }
  }

  /** A tour is drivable when the vehicle is picked up where it was left at every use and ends at home. */
  predicate ChainFeasible(home: int, trips: seq<Trip>, name: string)
  {
    VehicleTrace(trips, name, home) == Some(home)
  }

  /** A tour that never uses the vehicle is feasible. */
  lemma ChainWithoutVehicleFeasible(home: int, trips: seq<Trip>, name: string)
    requires forall i :: 0 <= i < |trips| ==> !MovesVehicle(trips[i], name)
    ensures ChainFeasible(home, trips, name)
  {
    VehicleTraceUnused(trips, name, home);
  }

  /** A single out-and-back drive from home is feasible. */
  lemma RoundTripFeasible(home: int, away: int, mode: TripMode)
    requires !mode.nonPersonalVehicle
    ensures ChainFeasible(home, [Trip(home, away, mode), Trip(away, home, mode)], mode.requiresVehicle.vehicleName)
  {
    var name := mode.requiresVehicle.vehicleName;
    var trips := [Trip(home, away, mode), Trip(away, home, mode)];
    assert trips[1..] == [Trip(away, home, mode)];
    assert trips[1..][1..] == [];
    assert MovesVehicle(trips[0], name) && MovesVehicle(trips[1], name);
    assert VehicleTrace(trips[1..][1..], name, home) == Some(home);
    assert VehicleTrace(trips[1..], name, away) == Some(home);
  }

  // The validation messages.
  const NoModeNameMessage := "All modes require a mode name!"
  const NoVehicleNameMessage := "We require a name of the vehicle that is required!"
  const NoAutoNetworkMessage := "There was no Auto Network loaded for the Auto Mode!"

  function UnknownVehicleMessage(vehicleName: string): string
  {
    "We were unable to find the vehicle type called " + vehicleName + "!"
  }

  function NoNetworkTypeMessage(modeName: string): string
  {
    "There was no network type selected for the " + modeName + " mode!"
  }

  function MissingNetworkMessage(networkType: string): string
  {
    "We were unable to find the network data with the name \"" + networkType + "\" in this Model System!"
  }

  class AutoMode {
    const modeName: string
    const vehicleName: string
    const networkType: string
    const minAge: int
    const licenceRequired: bool
    /** Bound by validation. */
    var requiresVehicle: Option<VehicleType>
    /** The index, in the model system's network list, of the bound network. */
    var autoData: Option<nat>

    constructor (modeName: string, vehicleName: string, networkType: string, minAge: int, licenceRequired: bool)
      ensures this.modeName == modeName && this.vehicleName == vehicleName && this.networkType == networkType
      ensures this.minAge == minAge && this.licenceRequired == licenceRequired
      ensures requiresVehicle == None && autoData == None
    {
      this.modeName := modeName;
      this.vehicleName := vehicleName;
      this.networkType := networkType;
      this.minAge := minAge;
      this.licenceRequired := licenceRequired;
      requiresVehicle := None;
      autoData := None;
    }

    /**
     * Feasible(trip): old enough, licensed when a licence is required, and
     * the household owns a vehicle of the required type.
     */
    method FeasibleTrip(person: Person) returns (r: bool)
      requires requiresVehicle.Some?
      ensures r <==> (person.age >= minAge && (!licenceRequired || person.licence)
        && HasVehicle(person.householdVehicles, requiresVehicle.value.vehicleName))
    {
      if person.age < minAge {
        return false;
      }
      if licenceRequired && !person.licence {
        return false;
      }
      var vehicles := person.householdVehicles;
      var i := 0;
      while i < |vehicles|
        invariant 0 <= i <= |vehicles|
        invariant forall k :: 0 <= k < i ==> vehicles[k].vehicleName != requiresVehicle.value.vehicleName
      {
        if vehicles[i].vehicleName == requiresVehicle.value.vehicleName {
          return true;
        }
        i := i + 1;
      }
      return false;
    }

    /** Feasible(tripChain): follow the vehicle through the tour from home. */
    method FeasibleChain(person: Person, trips: seq<Trip>) returns (r: bool)
      requires requiresVehicle.Some?
      ensures r <==> ChainFeasible(person.homeZone, trips, requiresVehicle.value.vehicleName)
    {
      var name := requiresVehicle.value.vehicleName;
      var home := person.homeZone;
      var vehicleLeftAt := home;
      var i := 0;
      while i < |trips|
        invariant 0 <= i <= |trips|
        invariant VehicleTrace(trips, name, home) == VehicleTrace(trips[i..], name, vehicleLeftAt)
      {
        var trip := trips[i];
        assert trips[i..][0] == trip && trips[i..][1..] == trips[i + 1..];
        if !trip.mode.nonPersonalVehicle {
          if trip.mode.requiresVehicle.vehicleName == name {
            if trip.originZone != vehicleLeftAt {
              return false;
            }
            vehicleLeftAt := trip.destinationZone;
          }
        }
        i := i + 1;
      }
      return vehicleLeftAt == home;
    }

    /**
     * FindVehicleType: the model system's auto type when its name matches,
     * otherwise the first vehicle type of that name.
     */
    method FindVehicleType(autoType: Option<VehicleType>, vehicleTypes: Option<seq<VehicleType>>) returns (r: Result<(), string>)
      modifies this
      ensures autoType.Some? && autoType.value.vehicleName == vehicleName ==> r.Ok? && requiresVehicle == autoType
      ensures !(autoType.Some? && autoType.value.vehicleName == vehicleName) ==>
        (r.Ok? <==> vehicleTypes.Some? && HasVehicle(vehicleTypes.value, vehicleName))
      ensures r.Ok? ==> requiresVehicle.Some? && requiresVehicle.value.vehicleName == vehicleName
      ensures r.Err? ==> r.error == UnknownVehicleMessage(vehicleName) && requiresVehicle == old(requiresVehicle)
      ensures autoData == old(autoData)
    {
      if autoType.Some? && autoType.value.vehicleName == vehicleName {
        requiresVehicle := autoType;
        return Ok(());
      }
      if vehicleTypes.Some? {
        var types := vehicleTypes.value;
        var i := 0;
        while i < |types|
          invariant 0 <= i <= |types|
          invariant forall k :: 0 <= k < i ==> types[k].vehicleName != vehicleName
        {
          if types[i].vehicleName == vehicleName {
            requiresVehicle := Some(types[i]);
            return Ok(());
          }
          i := i + 1;
        }
      }
      return Err(UnknownVehicleMessage(vehicleName));
    }

    /** FindAutoData: bind the first network of the mode's network type. */
    method FindAutoData(networks: Option<seq<Network>>) returns (r: Result<(), string>)
      modifies this
      ensures IsBlank(networkType) ==> r == Err(NoNetworkTypeMessage(if IsBlank(modeName) then "Auto" else modeName))
      ensures !IsBlank(networkType) && networks.None? ==> r == Err(NoAutoNetworkMessage)
      ensures !IsBlank(networkType) && networks.Some? ==>
        (r.Ok? <==> exists k :: 0 <= k < |networks.value| && networks.value[k].networkType == networkType)
      ensures r.Ok? ==> (networks.Some? && autoData.Some? && autoData.value < |networks.value|
        && networks.value[autoData.value].networkType == networkType
        && forall k :: 0 <= k < autoData.value ==> networks.value[k].networkType != networkType)
      ensures r.Err? ==> autoData == old(autoData)
      ensures requiresVehicle == old(requiresVehicle)
    {
      if IsBlank(networkType) {
        return Err(NoNetworkTypeMessage(if IsBlank(modeName) then "Auto" else modeName));
      }
      if networks.None? {
        return Err(NoAutoNetworkMessage);
      }
      var list := networks.value;
      var i := 0;
      while i < |list|
        invariant 0 <= i <= |list|
        invariant forall k :: 0 <= k < i ==> list[k].networkType != networkType
      {
        if list[i].networkType == networkType {
          autoData := Some(i);
          return Ok(());
        }
        i := i + 1;
      }
      return Err(MissingNetworkMessage(networkType));
    }

    /** The required vehicle is the bound auto type, or one of the known vehicle types. */
    predicate VehicleKnown(autoType: Option<VehicleType>, vehicleTypes: Option<seq<VehicleType>>)
      reads this
    {
      (autoType.Some? && autoType.value.vehicleName == vehicleName)
      || (vehicleTypes.Some? && HasVehicle(vehicleTypes.value, vehicleName))
    }

    /**
     * RuntimeValidation: a mode name, a vehicle name, a known vehicle type
     * and a network, checked in that order.
     */
    method RuntimeValidation(autoType: Option<VehicleType>, vehicleTypes: Option<seq<VehicleType>>, networks: Option<seq<Network>>)
      returns (r: Result<(), string>)
      modifies this
      ensures IsBlank(modeName) ==> r == Err(NoModeNameMessage)
      ensures !IsBlank(modeName) && IsBlank(vehicleName) ==> r == Err(NoVehicleNameMessage)
      ensures r.Ok? ==> requiresVehicle.Some? && requiresVehicle.value.vehicleName == vehicleName
      ensures r.Ok? ==> (networks.Some? && autoData.Some? && autoData.value < |networks.value|
        && networks.value[autoData.value].networkType == networkType
        && forall k :: 0 <= k < autoData.value ==> networks.value[k].networkType != networkType)
      ensures r.Err? ==> autoData == old(autoData)
      ensures r.Ok? ==> !IsBlank(modeName) && !IsBlank(vehicleName) && !IsBlank(networkType)
      ensures !IsBlank(modeName) && !IsBlank(vehicleName) && !VehicleKnown(autoType, vehicleTypes) ==>
        r == Err(UnknownVehicleMessage(vehicleName))
      ensures !IsBlank(modeName) && !IsBlank(vehicleName) && VehicleKnown(autoType, vehicleTypes) ==>
        (IsBlank(networkType) ==> r == Err(NoNetworkTypeMessage(modeName)))
        && (!IsBlank(networkType) && networks.None? ==> r == Err(NoAutoNetworkMessage))
        && (!IsBlank(networkType) && networks.Some? ==>
              (r.Ok? <==> exists k :: 0 <= k < |networks.value| && networks.value[k].networkType == networkType))
    {
      if IsBlank(modeName) {
        return Err(NoModeNameMessage);
      }
      if IsBlank(vehicleName) {
        return Err(NoVehicleNameMessage);
      }
      r := FindVehicleType(autoType, vehicleTypes);
      if r.Err? {
        return r;
      }
      r := FindAutoData(networks);
    }
  }
}
