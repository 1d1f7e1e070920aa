/**
 * The Tasha ride-share mode, for pure joint trips: it is feasible for a
 * chain whose household owns a vehicle, for a trip only when the trip's
 * chain is a joint tour, and it binds the "Auto" network at validation.
 * The utility (CalculateV) is floating-point arithmetic and is not part of
 * this model.
 */
module RideShare {
  import opened Common

  datatype VehicleType = VehicleType(vehicleName: string)

  /** Household.Vehicles, which may be null. */
  datatype Household = Household(vehicles: Option<seq<VehicleType>>)

  /** The parts of a trip chain and its person's household the mode looks at. */
  datatype TripChain = TripChain(jointTripID: int, household: Household)

  datatype Trip = Trip(tripChain: TripChain)

  datatype Network = Network(networkType: string)

  predicate JointTrip(chain: TripChain)
  {
    chain.jointTripID != 0
  }

  /** Someone in the household can drive: the household has a vehicle list and it is not empty. */
  function FeasibleChain(chain: TripChain): (r: bool)
    ensures r <==> chain.household.vehicles.Some? && |chain.household.vehicles.value| > 0
  {
    if chain.household.vehicles.None? then false
    else |chain.household.vehicles.value| > 0
  }

  /** Single rides are not handled: only a trip of a joint tour can be a ride share. */
  function FeasibleTrip(trip: Trip): (r: bool)
    ensures !JointTrip(trip.tripChain) ==> !r
  {
    if !JointTrip(trip.tripChain) then false
    else if trip.tripChain.household.vehicles.None? then false
    else |trip.tripChain.household.vehicles.value| > 0
  }

  /** A trip is feasible exactly when its chain is a joint tour that is feasible as a chain. */
  lemma FeasibleTripIsJointFeasibleChain(trip: Trip)
    ensures FeasibleTrip(trip) <==> JointTrip(trip.tripChain) && FeasibleChain(trip.tripChain)
  {
  }

  /** A household whose vehicle list is missing, or empty, makes every trip and chain infeasible. */
  lemma NoVehiclesNoRideShare(trip: Trip)
    requires trip.tripChain.household.vehicles.None? || trip.tripChain.household.vehicles == Some([])
    ensures !FeasibleTrip(trip) && !FeasibleChain(trip.tripChain)
  {
  }

  const AutoNetworkName := "Auto"
  const NoNetworksMessage := "There was no Auto Network loaded for the Rideshare Mode!"
  const NoAutoNetworkMessage := "We were unable to find the network data with the name \"Auto\" in this Model System!"

  predicate IsAuto(network: Network)
  {
    network.networkType == AutoNetworkName
  }

  /** The first network named "Auto", if any. */
  function FirstAuto(networks: seq<Network>): (r: Option<nat>)
    ensures r.Some? ==> r.value < |networks| && IsAuto(networks[r.value])
    ensures r.Some? ==> forall j :: 0 <= j < r.value ==> !IsAuto(networks[j])
    ensures r.None? ==> forall j :: 0 <= j < |networks| ==> !IsAuto(networks[j])
  {
    if networks == [] then None
    else if IsAuto(networks[0]) then Some(0)
    else
      match FirstAuto(networks[1..])
        case None => None
        case Some(k) => Some(k + 1)
  }

  class RideShare {
    const observedMode: char
    /** The demographic category's feasibility, set by the parameter database. */
    const currentlyFeasible: real
    var travelData: Option<Network>

    constructor(observedMode: char, currentlyFeasible: real)
      ensures this.observedMode == observedMode && this.currentlyFeasible == currentlyFeasible
      ensures travelData == None
    {
      this.observedMode := observedMode;
      this.currentlyFeasible := currentlyFeasible;
      travelData := None;
    }

    /** Feasible between two zones: whenever the current demographic category is. */
    function FeasibleBetween(origin: int, destination: int, timeOfDay: int): (r: bool)
      ensures r <==> currentlyFeasible > 0.0
    {
      currentlyFeasible > 0.0
    }

    function IsObservedMode(c: char): (r: bool)
      ensures r <==> c == observedMode
    {
      c == observedMode
    }

    /**
     * Binds the first network named "Auto". Fails, leaving the binding as it
     * was, when there are no networks or none of them is named "Auto".
     */
    method RuntimeValidation(networks: Option<seq<Network>>) returns (error: Option<string>)
      modifies this
      ensures networks.None? ==> error == Some(NoNetworksMessage)
      ensures networks.Some? && FirstAuto(networks.value).None? ==> error == Some(NoAutoNetworkMessage)
      ensures networks.Some? && FirstAuto(networks.value).Some? ==>
        error.None? && travelData == Some(networks.value[FirstAuto(networks.value).value])
      ensures error.Some? ==> travelData == old(travelData)
    {
      if networks.None? {
        return Some(NoNetworksMessage);
      }
      var all := networks.value;
      var found := false;
      var i := 0;
      while i < |all|
        invariant 0 <= i <= |all|
        invariant !found
        invariant travelData == old(travelData)
        invariant forall j :: 0 <= j < i ==> !IsAuto(all[j])
      {
        if all[i].networkType == AutoNetworkName {
          assert FirstAuto(all) == Some(i);
          travelData := Some(all[i]);
          found := true;
          break;
        }
        i := i + 1;
      }
      if !found {
        return Some(NoAutoNetworkMessage);
      }
      error := None;
    }
  }
}
