/**
 * The GTAModel V4 auto network: a list of time periods, each holding a flat
 * buffer of travel time and cost per origin-destination pair of the zone
 * system. A period answers only for times inside its half-open window; the
 * network answers with the first period in list order that does.
 *
 * Times are whole numbers (the model's Time); the stored values are reals,
 * so the blending of later loads is exact here. A zone system is the list
 * of its zone numbers in flat order (SparseArray.GetFlatData), and a reader
 * is the sequence of OD points it yields, or None when it is not set.
 */
module V4AutoNetwork {
  import opened Common

  /** The DataTypes enumeration: slot offsets within one OD entry, and their count. */
  const TravelTimeOffset: nat := 0
  const CostOffset: nat := 1
  const NumberOfDataTypes: nat := 2

  /** One value a reader yields, for a pair of zone numbers. */
  datatype ODPoint = ODPoint(origin: int, destination: int, value: real)

  /** Zone numbers of a sparse zone array are never negative. */
  predicate ZoneNumbersNonNegative(zones: seq<int>)
  {
    forall i :: 0 <= i < |zones| ==> zones[i] >= 0
  }

  /** SparseArray.GetFlatIndex: the position of a zone number, or -1 when it is not a zone. */
  function FlatIndex(zones: seq<int>, zone: int): (r: int)
    ensures -1 <= r < |zones|
    ensures r >= 0 ==> zones[r] == zone
    ensures r == -1 <==> zone !in zones
  {
    if |zones| == 0 then -1
    else if zones[0] == zone then 0
    else
      var rest := FlatIndex(zones[1..], zone);
      if rest < 0 then -1 else rest + 1
  }

  function BufferSize(n: nat): nat
  {
    n * n * NumberOfDataTypes
  }

  /** Where the value of one data type for the pair (o, d) lives in a period's buffer. */
  function Slot(n: nat, o: nat, d: nat, offset: nat): (r: nat)
    requires o < n && d < n && offset < NumberOfDataTypes
    ensures r < BufferSize(n)
    ensures r % NumberOfDataTypes == offset
  {
    RowMajorBound(n, o, d);
    (o * n + d) * NumberOfDataTypes + offset
  }

  /** Different pairs, or different data types, never share a slot. */
  lemma SlotInjective(n: nat, o1: nat, d1: nat, t1: nat, o2: nat, d2: nat, t2: nat)
    requires o1 < n && d1 < n && t1 < NumberOfDataTypes
    requires o2 < n && d2 < n && t2 < NumberOfDataTypes
    requires Slot(n, o1, d1, t1) == Slot(n, o2, d2, t2)
    ensures o1 == o2 && d1 == d2 && t1 == t2
  {
    var a1, a2 := o1 * n + d1, o2 * n + d2;
    assert Slot(n, o1, d1, t1) == a1 * 2 + t1 && Slot(n, o2, d2, t2) == a2 * 2 + t2;
    RowMajorInjective(n, o1, d1, o2, d2);
  }

  /** The index of a point's slot, when both of its zones are known. */
  function PointSlot(zones: seq<int>, offset: nat, p: ODPoint): (r: Option<nat>)
    requires offset < NumberOfDataTypes
    ensures r.Some? <==> p.origin in zones && p.destination in zones
    ensures r.Some? ==> r.value < BufferSize(|zones|) && r.value % NumberOfDataTypes == offset
  {
    var o := FlatIndex(zones, p.origin);
    var d := FlatIndex(zones, p.destination);
    if o >= 0 && d >= 0 then Some(Slot(|zones|, o, d, offset)) else None
  }

  /** One point of a load: overwrite on the first load, blend 3:1 with the old value afterwards. */
  function Write(buffer: seq<real>, zones: seq<int>, offset: nat, first: bool, p: ODPoint): (r: seq<real>)
    requires offset < NumberOfDataTypes && |buffer| == BufferSize(|zones|)
    ensures |r| == |buffer|
  {
    match PointSlot(zones, offset, p)
      case None => buffer
      case Some(i) => buffer[i := if first then p.value else buffer[i] * 0.75 + p.value * 0.25]
  }

  /** A whole reader's points, in the order it yields them. */
  function WriteAll(buffer: seq<real>, zones: seq<int>, offset: nat, first: bool, points: seq<ODPoint>): (r: seq<real>)
    requires offset < NumberOfDataTypes && |buffer| == BufferSize(|zones|)
    ensures |r| == |buffer|
    decreases |points|
  {
    if points == [] then buffer
    else Write(WriteAll(buffer, zones, offset, first, points[..|points| - 1]), zones, offset, first, points[|points| - 1])
  }

  /** A reader that is not set loads nothing. */
  function ReadInto(buffer: seq<real>, zones: seq<int>, offset: nat, timesLoaded: nat, reader: Option<seq<ODPoint>>): (r: seq<real>)
    requires offset < NumberOfDataTypes && |buffer| == BufferSize(|zones|)
    ensures |r| == |buffer|
  {
    match reader
      case None => buffer
      case Some(points) => WriteAll(buffer, zones, offset, timesLoaded == 0, points)
  }

  /** The buffer a load starts from: the previous one when its size still fits, otherwise zeros. */
  function StartBuffer(previous: Option<seq<real>>, n: nat): (r: seq<real>)
    ensures |r| == BufferSize(n)
    ensures previous.Some? && |previous.value| == BufferSize(n) ==> r == previous.value
    ensures !(previous.Some? && |previous.value| == BufferSize(n)) ==> forall i :: 0 <= i < |r| ==> r[i] == 0.0
  {
    if previous.Some? && |previous.value| == BufferSize(n) then previous.value
    else seq(BufferSize(n), _ => 0.0)
  }

  /** A period's buffer after one load: travel times first, then costs. */
  function LoadedBuffer(previous: Option<seq<real>>, zones: seq<int>, times: Option<seq<ODPoint>>,
                        costs: Option<seq<ODPoint>>, timesLoaded: nat): (r: seq<real>)
    ensures |r| == BufferSize(|zones|)
  {
    var start := StartBuffer(previous, |zones|);
    ReadInto(ReadInto(start, zones, TravelTimeOffset, timesLoaded, times), zones, CostOffset, timesLoaded, costs)
  }

  /** The value of the last point of a reader whose slot is `i`, if any. */
  function LastValue(zones: seq<int>, offset: nat, points: seq<ODPoint>, i: nat): Option<real>
    requires offset < NumberOfDataTypes
    decreases |points|
  {
    if points == [] then None
    else if PointSlot(zones, offset, points[|points| - 1]) == Some(i) then Some(points[|points| - 1].value)
    else LastValue(zones, offset, points[..|points| - 1], i)
  }

  /**
   * On a first load every slot holds the value of the last point written to
   * it; slots no point names (including every point with an unknown zone)
   * keep the starting value.
   */
  lemma {:induction false} FirstLoadSlot(buffer: seq<real>, zones: seq<int>, offset: nat, points: seq<ODPoint>, i: nat)
    requires offset < NumberOfDataTypes && |buffer| == BufferSize(|zones|) && i < |buffer|
    ensures WriteAll(buffer, zones, offset, true, points)[i] ==
      match LastValue(zones, offset, points, i)
        case None => buffer[i]
        case Some(v) => v
    decreases |points|
  {
    if points != [] {
      FirstLoadSlot(buffer, zones, offset, points[..|points| - 1], i);
    }
  }

  /** A reader of one data type never touches the slots of the other. */
  lemma {:induction false} OtherTypeUntouched(buffer: seq<real>, zones: seq<int>, offset: nat, first: bool,
                                               points: seq<ODPoint>, i: nat)
    requires offset < NumberOfDataTypes && |buffer| == BufferSize(|zones|) && i < |buffer|
    requires i % NumberOfDataTypes != offset
    ensures WriteAll(buffer, zones, offset, first, points)[i] == buffer[i]
    decreases |points|
  {
    if points != [] {
      OtherTypeUntouched(buffer, zones, offset, first, points[..|points| - 1], i);
    }
  }

  /**
   * The first load of a period: each travel-time slot holds the last time
   * read for it and each cost slot the last cost, the rest keep the
   * starting buffer (zeros, or the reused previous buffer).
   */
  lemma FirstLoadContents(previous: Option<seq<real>>, zones: seq<int>, times: seq<ODPoint>, costs: seq<ODPoint>, i: nat)
    requires i < BufferSize(|zones|)
    ensures LoadedBuffer(previous, zones, Some(times), Some(costs), 0)[i] ==
      var start := StartBuffer(previous, |zones|);
      var (offset, points) := if i % 2 == TravelTimeOffset then (TravelTimeOffset, times) else (CostOffset, costs);
      match LastValue(zones, offset, points, i)
        case None => start[i]
        case Some(v) => v
  {
    var start := StartBuffer(previous, |zones|);
    var afterTimes := WriteAll(start, zones, TravelTimeOffset, true, times);
    FirstLoadSlot(start, zones, TravelTimeOffset, times, i);
    FirstLoadSlot(afterTimes, zones, CostOffset, costs, i);
    if i % 2 == TravelTimeOffset {
      OtherTypeUntouched(afterTimes, zones, CostOffset, true, costs, i);
    } else {
      OtherTypeUntouched(start, zones, TravelTimeOffset, true, times, i);
    }
  }

  /** One time period (TimePeriodNetworkData) and its OD buffer. */
  class TimePeriodNetworkData {
    const startTime: int
    const endTime: int
    const travelTimeReader: Option<seq<ODPoint>>
    const costReader: Option<seq<ODPoint>>
    var numberOfZones: nat
    var data: array?<real>
    var timesLoaded: nat

    ghost predicate Valid()
      reads this
    {
      data != null ==> data.Length == BufferSize(numberOfZones)
    }

    /** The window is half open: the end time belongs to the next period. */
    predicate InPeriod(time: int)
    {
      startTime <= time < endTime
    }

    /** A lookup at this time for this pair can be answered from the buffer. */
    ghost predicate Covers(time: int, flatO: int, flatD: int)
      reads this
    {
      InPeriod(time) ==> data != null && 0 <= flatO < numberOfZones && 0 <= flatD < numberOfZones
    }

    ghost function Buffer(): Option<seq<real>>
      reads this, data
    {
      if data == null then None else Some(data[..])
    }

    /** What a load reads and writes: zone count, load count and buffer. */
    ghost function State(): (nat, nat, Option<seq<real>>)
      reads this, data
    {
      (numberOfZones, timesLoaded, Buffer())
    }

    /** This period is the result of one load on the zone system from the state `before`. */
    ghost predicate LoadedFrom(zones: seq<int>, before: (nat, nat, Option<seq<real>>))
      reads this, data
    {
      numberOfZones == |zones| && timesLoaded == before.1 + 1
      && Buffer() == Some(LoadedBuffer(before.2, zones, travelTimeReader, costReader, before.1))
    }

    constructor(startTime: int, endTime: int, travelTimeReader: Option<seq<ODPoint>>, costReader: Option<seq<ODPoint>>)
      ensures this.startTime == startTime && this.endTime == endTime
      ensures this.travelTimeReader == travelTimeReader && this.costReader == costReader
      ensures data == null && numberOfZones == 0 && timesLoaded == 0
      ensures Valid()
    {
      this.startTime := startTime;
      this.endTime := endTime;
      this.travelTimeReader := travelTimeReader;
      this.costReader := costReader;
      numberOfZones := 0;
      data := null;
      timesLoaded := 0;
    }

    /** Loads times then costs; the buffer is reused when its size still fits. */
    method LoadData(zones: seq<int>)
      requires Valid() && ZoneNumbersNonNegative(zones)
      modifies this, data
      ensures Valid()
      ensures LoadedFrom(zones, old(State()))
      ensures old(data) != null && old(data).Length == BufferSize(|zones|) ==> data == old(data)
      ensures !(old(data) != null && old(data).Length == BufferSize(|zones|)) ==> fresh(data)
    {
      var size := BufferSize(|zones|);
      var buffer: array<real>;
      if data == null || size != data.Length {
        buffer := new real[size](_ => 0.0);
      } else {
        buffer := data;
      }
      assert buffer[..] == StartBuffer(Buffer(), |zones|);
      numberOfZones := |zones|;
      LoadReader(buffer, travelTimeReader, TravelTimeOffset, zones, timesLoaded);
      LoadReader(buffer, costReader, CostOffset, zones, timesLoaded);
      timesLoaded := timesLoaded + 1;
      data := buffer;
    }

    /**
     * Reads one data type into the buffer. The origin's flat index is cached
     * while consecutive points share an origin zone.
     */
    static method LoadReader(data: array<real>, reader: Option<seq<ODPoint>>, offset: nat, zones: seq<int>, timesLoaded: nat)
      requires offset < NumberOfDataTypes && data.Length == BufferSize(|zones|)
      requires ZoneNumbersNonNegative(zones)
      modifies data
      ensures data[..] == ReadInto(old(data[..]), zones, offset, timesLoaded, reader)
    {
      if reader.None? {
        return;
      }
      var points := reader.value;
      var first := timesLoaded == 0;
      var previousPointO := -1;
      var previousFlatO := -1;
      var i := 0;
      while i < |points|
        invariant 0 <= i <= |points|
        invariant data[..] == WriteAll(old(data[..]), zones, offset, first, points[..i])
        invariant previousFlatO == FlatIndex(zones, previousPointO)
      {
        var point := points[i];
        var o := if point.origin == previousPointO then previousFlatO else FlatIndex(zones, point.origin);
        var d := FlatIndex(zones, point.destination);
        if o >= 0 && d >= 0 {
          previousPointO := point.origin;
          previousFlatO := o;
        }
        StorePoint(data, zones, offset, first, point, o, d);
        assert points[..i + 1][..i] == points[..i];
        i := i + 1;
      }
      assert points[..i] == points;
    }

    /** Stores one point at the slot of its already-resolved origin and destination. */
    static method StorePoint(data: array<real>, zones: seq<int>, offset: nat, first: bool, point: ODPoint, o: int, d: int)
      requires offset < NumberOfDataTypes && data.Length == BufferSize(|zones|)
      requires ZoneNumbersNonNegative(zones)
      requires o == FlatIndex(zones, point.origin) && d == FlatIndex(zones, point.destination)
      modifies data
      ensures data[..] == Write(old(data[..]), zones, offset, first, point)
    {
      if o >= 0 && d >= 0 {
        var index := Slot(|zones|, o, d, offset);
        if first {
          data[index] := point.value;
        } else {
          data[index] := data[index] * 0.75 + point.value * 0.25;
        }
      }
    }

    /** Answers for times inside the window; outside it, false with zero time and cost. */
    method GetDataIfInTimePeriod(time: int, flatO: int, flatD: int) returns (found: bool, travelTime: real, travelCost: real)
      requires Valid() && Covers(time, flatO, flatD)
      ensures found <==> InPeriod(time)
      ensures !found ==> travelTime == 0.0 && travelCost == 0.0
      ensures found ==> data != null && 0 <= flatO < numberOfZones && 0 <= flatD < numberOfZones
                        && travelTime == data[Slot(numberOfZones, flatO, flatD, TravelTimeOffset)]
                        && travelCost == data[Slot(numberOfZones, flatO, flatD, CostOffset)]
    {
      if time < startTime || time >= endTime {
        return false, 0.0, 0.0;
      }
      travelTime := data[Slot(numberOfZones, flatO, flatD, TravelTimeOffset)];
      travelCost := data[Slot(numberOfZones, flatO, flatD, CostOffset)];
      found := true;
    }
  }

  /** The first period, in list order, whose window holds the time. */
  function FirstPeriod(periods: seq<TimePeriodNetworkData>, time: int): (r: Option<nat>)
    ensures r.Some? ==> r.value < |periods| && periods[r.value].InPeriod(time)
    ensures r.Some? ==> forall k :: 0 <= k < r.value ==> !periods[k].InPeriod(time)
    ensures r.None? ==> forall k :: 0 <= k < |periods| ==> !periods[k].InPeriod(time)
  {
    if periods == [] then None
    else if periods[0].InPeriod(time) then Some(0)
    else
      match FirstPeriod(periods[1..], time)
        case None => None
        case Some(k) => Some(k + 1)
  }

  /** The network (V4AutoNetwork) over its time periods. */
  class V4AutoNetwork {
    const noUnload: bool
    const networkType: string
    const timePeriods: seq<TimePeriodNetworkData>
    var zoneArray: Option<seq<int>>
    var loaded: bool

    /** Periods are distinct objects, each owning its own buffer. */
    ghost predicate Valid()
      reads timePeriods
    {
      (forall i, j :: 0 <= i < j < |timePeriods| ==> timePeriods[i] != timePeriods[j])
      && (forall i :: 0 <= i < |timePeriods| ==> timePeriods[i].Valid())
      && (forall i, j :: 0 <= i < |timePeriods| && 0 <= j < |timePeriods| && i != j && timePeriods[i].data != null
            ==> timePeriods[i].data != timePeriods[j].data)
    }

    ghost function Buffers(): set<array<real>>
      reads timePeriods
    {
      set i | 0 <= i < |timePeriods| && timePeriods[i].data != null :: timePeriods[i].data
    }

    /** Every period whose window holds the time can answer for the pair. */
    ghost predicate Answerable(flatO: int, flatD: int, time: int)
      reads timePeriods
    {
      forall i :: 0 <= i < |timePeriods| ==> timePeriods[i].Covers(time, flatO, flatD)
    }

    constructor(noUnload: bool, networkType: string, timePeriods: seq<TimePeriodNetworkData>)
      ensures this.noUnload == noUnload && this.networkType == networkType && this.timePeriods == timePeriods
      ensures zoneArray == None && !loaded
    {
      this.noUnload := noUnload;
      this.networkType := networkType;
      this.timePeriods := timePeriods;
      zoneArray := None;
      loaded := false;
    }

    /** Remembers the zone system and loads every period, unless already loaded. */
    method LoadData(zones: seq<int>)
      requires Valid() && ZoneNumbersNonNegative(zones)
      modifies this, timePeriods, Buffers()
      ensures Valid()
      ensures zoneArray == Some(zones) && loaded
      ensures old(loaded) ==> forall i :: 0 <= i < |timePeriods| ==> timePeriods[i].State() == old(timePeriods[i].State())
      ensures !old(loaded) ==> forall i :: 0 <= i < |timePeriods| ==> timePeriods[i].LoadedFrom(zones, old(timePeriods[i].State()))
    {
      zoneArray := Some(zones);
      if !loaded {
        var i := 0;
        while i < |timePeriods|
          invariant 0 <= i <= |timePeriods|
          invariant Valid()
          invariant zoneArray == Some(zones)
          invariant forall j :: 0 <= j < i ==> timePeriods[j].LoadedFrom(zones, old(timePeriods[j].State()))
          invariant forall j :: i <= j < |timePeriods| ==> timePeriods[j].data == old(timePeriods[j].data)
          invariant forall j :: i <= j < |timePeriods| ==> timePeriods[j].State() == old(timePeriods[j].State())
        {
          LoadPeriod(i, zones);
          i := i + 1;
        }
        loaded := true;
      }
    }

    /** Loads one period, leaving the others as they are. */
    method LoadPeriod(i: nat, zones: seq<int>)
      requires Valid() && i < |timePeriods| && ZoneNumbersNonNegative(zones)
      modifies timePeriods[i], timePeriods[i].data
      ensures Valid()
      ensures timePeriods[i].LoadedFrom(zones, old(timePeriods[i].State()))
      ensures forall j :: 0 <= j < |timePeriods| && j != i ==>
                timePeriods[j].data == old(timePeriods[j].data) && timePeriods[j].State() == old(timePeriods[j].State())
    {
      timePeriods[i].LoadData(zones);
    }

    /** Validation always succeeds and forces the next LoadData to reload. */
    method RuntimeValidation() returns (ok: bool)
      modifies this
      ensures ok && !loaded && zoneArray == old(zoneArray)
    {
      loaded := false;
      ok := true;
    }

    /** Forgets the zone system and the loaded flag, unless NoUnload is set. */
    method UnloadData()
      modifies this
      ensures noUnload ==> zoneArray == old(zoneArray) && loaded == old(loaded)
      ensures !noUnload ==> zoneArray == None && !loaded
    {
      if !noUnload {
        zoneArray := None;
        loaded := false;
      }
    }

    /** Asks the periods in order; the first whose window holds the time answers. */
    method GetData(flatO: int, flatD: int, time: int) returns (found: bool, travelTime: real, cost: real)
      requires Valid() && Answerable(flatO, flatD, time)
      ensures found <==> FirstPeriod(timePeriods, time).Some?
      ensures !found ==> travelTime == 0.0 && cost == 0.0
      ensures found ==>
        (var p := timePeriods[FirstPeriod(timePeriods, time).value];
         p.data != null && 0 <= flatO < p.numberOfZones && 0 <= flatD < p.numberOfZones
         && travelTime == p.data[Slot(p.numberOfZones, flatO, flatD, TravelTimeOffset)]
         && cost == p.data[Slot(p.numberOfZones, flatO, flatD, CostOffset)])
    {
      var i := 0;
      while i < |timePeriods|
        invariant 0 <= i <= |timePeriods|
        invariant forall k :: 0 <= k < i ==> !timePeriods[k].InPeriod(time)
      {
        found, travelTime, cost := timePeriods[i].GetDataIfInTimePeriod(time, flatO, flatD);
        if found {
          assert FirstPeriod(timePeriods, time) == Some(i);
          return;
        }
        i := i + 1;
      }
      found, travelTime, cost := false, 0.0, 0.0;
    }

    /** The travel time of the first period holding the time, or 0 when none does. */
    method TravelTime(flatOrigin: int, flatDestination: int, time: int) returns (r: real)
      requires Valid() && Answerable(flatOrigin, flatDestination, time)
      ensures FirstPeriod(timePeriods, time).None? ==> r == 0.0
      ensures FirstPeriod(timePeriods, time).Some? ==>
        (var p := timePeriods[FirstPeriod(timePeriods, time).value];
         p.data != null && 0 <= flatOrigin < p.numberOfZones && 0 <= flatDestination < p.numberOfZones
         && r == p.data[Slot(p.numberOfZones, flatOrigin, flatDestination, TravelTimeOffset)])
    {
      var found, travelTime, cost := GetData(flatOrigin, flatDestination, time);
      r := travelTime;
    }

    /** The cost of the first period holding the time, or 0 when none does. */
    method TravelCost(flatOrigin: int, flatDestination: int, time: int) returns (r: real)
      requires Valid() && Answerable(flatOrigin, flatDestination, time)
      ensures FirstPeriod(timePeriods, time).None? ==> r == 0.0
      ensures FirstPeriod(timePeriods, time).Some? ==>
        (var p := timePeriods[FirstPeriod(timePeriods, time).value];
         p.data != null && 0 <= flatOrigin < p.numberOfZones && 0 <= flatDestination < p.numberOfZones
         && r == p.data[Slot(p.numberOfZones, flatOrigin, flatDestination, CostOffset)])
    {
      var found, travelTime, cost := GetData(flatOrigin, flatDestination, time);
      r := cost;
    }

    /** Every OD pair is valid for this network, at any time. */
    function ValidOD(flatOrigin: int, flatDestination: int, time: int): (r: bool)
      ensures r
    {
      true
    }

    /** GetAllData for two zones: their flat indices in the remembered zone system, then GetData. */
    method GetAllDataForZones(start: int, end: int, time: int) returns (found: bool, ivtt: real, cost: real)
      requires Valid() && zoneArray.Some?
      requires Answerable(FlatIndex(zoneArray.value, start), FlatIndex(zoneArray.value, end), time)
      ensures found <==> FirstPeriod(timePeriods, time).Some?
      ensures !found ==> ivtt == 0.0 && cost == 0.0
      ensures found ==>
        (var p := timePeriods[FirstPeriod(timePeriods, time).value];
         var o := FlatIndex(zoneArray.value, start);
         var d := FlatIndex(zoneArray.value, end);
         p.data != null && 0 <= o < p.numberOfZones && 0 <= d < p.numberOfZones
         && ivtt == p.data[Slot(p.numberOfZones, o, d, TravelTimeOffset)]
         && cost == p.data[Slot(p.numberOfZones, o, d, CostOffset)])
    {
      found, ivtt, cost := GetData(FlatIndex(zoneArray.value, start), FlatIndex(zoneArray.value, end), time);
      if !found {
        ivtt := 0.0;
      }
    }
  }
}
