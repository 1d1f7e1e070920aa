/**
 * The GTAModel network data: auto travel times and costs for three time
 * periods (AM peak, PM peak, everything else), read from an OD cache that is
 * regenerated from EMME2 (.311) or CSV matrices when needed.
 *
 * The file system is the set of paths that exist; the contents of the cache
 * once it is read (ODCache.StoreAll and ProcessLoadedData) are given to
 * LoadData as a flat sequence with its number of zones and entries per pair.
 * Times are whole numbers and stored values are reals.
 */
module NetworkData {
  import opened Common

  /** AutoDataTypes: the type of a value inside one OD entry. */
  const TravelTimeType: nat := 0
  const CarCostType: nat := 1

  /** The matrices of one generation: times and costs for AM, PM and off-peak. */
  datatype FileSet = FileSet(amTimes: string, pmTimes: string, offpeakTimes: string,
                             amCosts: string, pmCosts: string, offpeakCosts: string)

  datatype Loader = Emme2 | Csv

  /** One call of ODMatrixWriter.LoadEMME2 or LoadCSVTimes made while generating the cache. */
  datatype LoadRequest = LoadRequest(loader: Loader, path: string, header: bool, period: nat, dataType: nat)

  /** What a successful LoadData did: the cache it read, and the loads it made when it regenerated it. */
  datatype LoadPlan = LoadPlan(cacheFile: string, regenerated: Option<seq<LoadRequest>>)

  /** The loader a matrix file goes to: EMME2 for the ".311" extension, CSV for anything else. */
  function LoaderFor(fileName: string): (r: Loader)
    ensures r == Emme2 <==> GetExtension(fileName) == ".311"
  {
    if GetExtension(fileName) == ".311" then Emme2 else Csv
  }

  /** A name ending in ".311" goes to the EMME2 loader. */
  lemma Emme2Files(stem: string)
    ensures LoaderFor(stem + ".311") == Emme2
  {
    FourLetterExtension(stem, ".311");
  }

  /** A CSV matrix (extension ".csv") goes to the CSV loader. */
  lemma CsvFiles(stem: string)
    ensures LoaderFor(stem + ".csv") == Csv
  {
    FourLetterExtension(stem, ".csv");
  }

  /** The extension of a name ending in a dot and three plain letters is that ending. */
  lemma FourLetterExtension(stem: string, ext: string)
    requires |ext| == 4 && ext[0] == '.'
    requires forall j :: 1 <= j < 4 ==> ext[j] != '.' && !IsDirectorySeparator(ext[j])
    ensures GetExtension(stem + ext) == ext
  {
    var p := stem + ext;
    assert p[|p| - 4..] == ext;
    assert forall j :: |p| - 3 <= j < |p| ==> p[j] == ext[j - |stem|];
    ExtensionTail(p);
  }

  lemma ExtensionTail(p: string)
    requires |p| >= 4 && p[|p| - 4] == '.'
    requires forall j :: |p| - 3 <= j < |p| ==> p[j] != '.' && !IsDirectorySeparator(p[j])
    ensures GetExtension(p) == p[|p| - 4..]
  {
    var n := |p|;
    assert ExtensionFrom(p, n - 3) == p[n - 4..];
    assert ExtensionFrom(p, n - 2) == ExtensionFrom(p, n - 3);
    assert ExtensionFrom(p, n - 1) == ExtensionFrom(p, n - 2);
    assert ExtensionFrom(p, n) == ExtensionFrom(p, n - 1);
  }

  /** The message of FailIfNotExist for a path that does not exist. */
  function MissingFileMessage(path: string): string
  {
    "The file \"" + path + "\" does not exist!"
  }

  /** The six matrices in the order Generate loads them: times AM, PM, off-peak, then costs. */
  function Loads(files: FileSet): (r: seq<(string, nat, nat)>)
    ensures |r| == 6
    ensures forall i :: 0 <= i < 6 ==> r[i].1 == i % 3 && r[i].2 == (if i < 3 then TravelTimeType else CarCostType)
  {
    [(files.amTimes, 0, TravelTimeType), (files.pmTimes, 1, TravelTimeType), (files.offpeakTimes, 2, TravelTimeType),
     (files.amCosts, 0, CarCostType), (files.pmCosts, 1, CarCostType), (files.offpeakCosts, 2, CarCostType)]
  }

  /** GetFullPath: a rooted path as it is, any other under the input base directory. */
  function FullPath(inputBaseDirectory: string, localPath: string): (r: string)
    ensures IsPathRooted(localPath) ==> r == localPath
    ensures !IsPathRooted(localPath) ==> r == Combine(inputBaseDirectory, localPath)
  {
    if !IsPathRooted(localPath) then Combine(inputBaseDirectory, localPath) else localPath
  }

  /**
   * The loads of a cache generation, each checked to exist before it is
   * made; the first missing file stops the generation with its message.
   */
  function Requests(loads: seq<(string, nat, nat)>, existing: set<string>, inputBaseDirectory: string, header: bool)
    : (r: Result<seq<LoadRequest>, string>)
    ensures r.Ok? ==> RequestsFor(r.value, loads, inputBaseDirectory, header)
    ensures r.Ok? <==> AllPresent(loads, existing, inputBaseDirectory)
  {
    if loads == [] then Ok([])
    else
      var path := FullPath(inputBaseDirectory, loads[0].0);
      AllPresentCons(loads, existing, inputBaseDirectory);
      if path !in existing then Err(MissingFileMessage(path))
      else
        match Requests(loads[1..], existing, inputBaseDirectory, header)
          case Err(e) => Err(e)
          case Ok(rest) =>
            var first := LoadRequest(LoaderFor(loads[0].0), path, header, loads[0].1, loads[0].2);
            RequestsForCons(first, rest, loads, inputBaseDirectory, header);
            Ok([first] + rest)
  }

  /** Every file of the loads is among the existing ones. */
  predicate AllPresent(loads: seq<(string, nat, nat)>, existing: set<string>, inputBaseDirectory: string)
  {
    forall i :: 0 <= i < |loads| ==> FullPath(inputBaseDirectory, loads[i].0) in existing
  }

  /** The requests are, one for one and in order, those made for the loads. */
  predicate RequestsFor(requests: seq<LoadRequest>, loads: seq<(string, nat, nat)>, inputBaseDirectory: string, header: bool)
  {
    |requests| == |loads| &&
    forall i :: 0 <= i < |loads| ==>
      requests[i] == LoadRequest(LoaderFor(loads[i].0), FullPath(inputBaseDirectory, loads[i].0), header, loads[i].1, loads[i].2)
  }

  lemma AllPresentCons(loads: seq<(string, nat, nat)>, existing: set<string>, inputBaseDirectory: string)
    requires |loads| > 0
    ensures AllPresent(loads, existing, inputBaseDirectory) <==>
      FullPath(inputBaseDirectory, loads[0].0) in existing && AllPresent(loads[1..], existing, inputBaseDirectory)
  {
    assert forall i :: 1 <= i < |loads| ==> loads[i] == loads[1..][i - 1];
  }

  lemma RequestsForCons(first: LoadRequest, rest: seq<LoadRequest>, loads: seq<(string, nat, nat)>,
                        inputBaseDirectory: string, header: bool)
    requires |loads| > 0 && RequestsFor(rest, loads[1..], inputBaseDirectory, header)
    requires first == LoadRequest(LoaderFor(loads[0].0), FullPath(inputBaseDirectory, loads[0].0), header, loads[0].1, loads[0].2)
    ensures RequestsFor([first] + rest, loads, inputBaseDirectory, header)
  {
    var all := [first] + rest;
    forall i | 0 <= i < |loads|
      ensures all[i] == LoadRequest(LoaderFor(loads[i].0), FullPath(inputBaseDirectory, loads[i].0), header, loads[i].1, loads[i].2)
    {
      if i > 0 {
        assert all[i] == rest[i - 1] && loads[i] == loads[1..][i - 1];
      }
    }
  }

  /** The error of a generation names the first file, in load order, that is missing. */
  lemma {:induction false} RequestsNameFirstMissing(loads: seq<(string, nat, nat)>, existing: set<string>,
                                                    inputBaseDirectory: string, header: bool, k: nat)
    requires k < |loads| && FullPath(inputBaseDirectory, loads[k].0) !in existing
    requires forall i :: 0 <= i < k ==> FullPath(inputBaseDirectory, loads[i].0) in existing
    ensures Requests(loads, existing, inputBaseDirectory, header) == Err(MissingFileMessage(FullPath(inputBaseDirectory, loads[k].0)))
    decreases k
  {
    if k > 0 {
      RequestsNameFirstMissing(loads[1..], existing, inputBaseDirectory, header, k - 1);
    }
  }

  /** The entries per pair of a generated cache: two data types times three periods. */
  const DataEntries: nat := 6

  /**
   * Where TravelTime (type 0) and TravelCost (type 1) read for a pair and a
   * time period: inside the buffer, and type and period are recovered from
   * the position within the pair's entry.
   */
  function Index(n: nat, o: nat, d: nat, period: nat, dataType: nat): (r: nat)
    requires o < n && d < n && period < 3 && dataType < 2
    ensures r < n * n * DataEntries
    ensures r / DataEntries == o * n + d
    ensures r % DataEntries == period + 3 * dataType
  {
    RowMajorBound(n, o, d);
    (o * n + d) * DataEntries + (period + 3 * dataType)
  }

  lemma IndexInjective(n: nat, o1: nat, d1: nat, p1: nat, t1: nat, o2: nat, d2: nat, p2: nat, t2: nat)
    requires o1 < n && d1 < n && p1 < 3 && t1 < 2
    requires o2 < n && d2 < n && p2 < 3 && t2 < 2
    requires Index(n, o1, d1, p1, t1) == Index(n, o2, d2, p2, t2)
    ensures o1 == o2 && d1 == d2 && p1 == p2 && t1 == t2
  {
    RowMajorInjective(n, o1, d1, o2, d2);
  }

  class NetworkData {
    const amStartTime: int
    const amEndTime: int
    const pmStartTime: int
    const pmEndTime: int
    const odc: string
    const updatedODC: string
    const baseFiles: FileSet
    const updatedFiles: FileSet
    const rebuildDataOnSuccessiveLoads: bool
    const headerBoolean: bool
    const inputBaseDirectory: string

    /** IterativeRoot is set (the root is an iterative model). */
    var iterative: bool
    var alreadyLoaded: bool
    /** Data: an ODCache is open. */
    var cacheOpen: bool
    var storedData: Option<seq<real>>
    var dataEntries: nat
    var numberOfZones: nat

    constructor(amStartTime: int, amEndTime: int, pmStartTime: int, pmEndTime: int, odc: string, updatedODC: string,
                baseFiles: FileSet, updatedFiles: FileSet, rebuildDataOnSuccessiveLoads: bool, headerBoolean: bool,
                inputBaseDirectory: string)
      ensures this.amStartTime == amStartTime && this.amEndTime == amEndTime
      ensures this.pmStartTime == pmStartTime && this.pmEndTime == pmEndTime
      ensures this.odc == odc && this.updatedODC == updatedODC
      ensures this.baseFiles == baseFiles && this.updatedFiles == updatedFiles
      ensures this.rebuildDataOnSuccessiveLoads == rebuildDataOnSuccessiveLoads && this.headerBoolean == headerBoolean
      ensures this.inputBaseDirectory == inputBaseDirectory
      ensures !iterative && !alreadyLoaded && !cacheOpen && storedData == None
    {
      this.amStartTime := amStartTime;
      this.amEndTime := amEndTime;
      this.pmStartTime := pmStartTime;
      this.pmEndTime := pmEndTime;
      this.odc := odc;
      this.updatedODC := updatedODC;
      this.baseFiles := baseFiles;
      this.updatedFiles := updatedFiles;
      this.rebuildDataOnSuccessiveLoads := rebuildDataOnSuccessiveLoads;
      this.headerBoolean := headerBoolean;
      this.inputBaseDirectory := inputBaseDirectory;
      iterative := false;
      alreadyLoaded := false;
      cacheOpen := false;
      storedData := None;
      dataEntries := 0;
      numberOfZones := 0;
    }

    predicate Loaded()
      reads this
    {
      storedData.Some?
    }

    /** GetTimePeriod: 0 in the AM window, else 1 in the PM window, else 2; the windows are half open. */
    function GetTimePeriod(time: int): (r: nat)
      ensures r == 0 <==> amStartTime <= time < amEndTime
      ensures r == 1 <==> !(amStartTime <= time < amEndTime) && pmStartTime <= time < pmEndTime
      ensures r == 2 <==> !(amStartTime <= time < amEndTime) && !(pmStartTime <= time < pmEndTime)
    {
      if time >= amStartTime && time < amEndTime then 0
      else if time >= pmStartTime && time < pmEndTime then 1
      else 2
    }

    /** Every pair and time period can be read from the stored buffer. */
    ghost predicate Readable(flatOrigin: int, flatDestination: int)
      reads this
    {
      storedData.Some? && 0 <= flatOrigin < numberOfZones && 0 <= flatDestination < numberOfZones
      && |storedData.value| == numberOfZones * numberOfZones * dataEntries && dataEntries == DataEntries
    }

    /** The travel time for the pair, in the period the time falls in. */
    method TravelTime(flatOrigin: int, flatDestination: int, time: int) returns (r: real)
      requires Readable(flatOrigin, flatDestination)
      ensures r == storedData.value[Index(numberOfZones, flatOrigin, flatDestination, GetTimePeriod(time), TravelTimeType)]
    {
      var zoneIndex := (flatOrigin * numberOfZones + flatDestination) * dataEntries;
      var timeIndex := GetTimePeriod(time);
      assert zoneIndex + (timeIndex + 3 * TravelTimeType) == Index(numberOfZones, flatOrigin, flatDestination, timeIndex, TravelTimeType);
      r := storedData.value[zoneIndex + (timeIndex + 3 * TravelTimeType)];
    }

    /** The cost for the pair, three entries after the travel time of the same period. */
    method TravelCost(flatOrigin: int, flatDestination: int, time: int) returns (r: real)
      requires Readable(flatOrigin, flatDestination)
      ensures r == storedData.value[Index(numberOfZones, flatOrigin, flatDestination, GetTimePeriod(time), CarCostType)]
      ensures GetTimePeriod(time) < 3 && Index(numberOfZones, flatOrigin, flatDestination, GetTimePeriod(time), CarCostType)
              == Index(numberOfZones, flatOrigin, flatDestination, GetTimePeriod(time), TravelTimeType) + 3
    {
      var zoneIndex := (flatOrigin * numberOfZones + flatDestination) * dataEntries;
      var timeIndex := GetTimePeriod(time);
      assert zoneIndex + (timeIndex + 3 * CarCostType) == Index(numberOfZones, flatOrigin, flatDestination, timeIndex, CarCostType);
      r := storedData.value[zoneIndex + (timeIndex + 3 * CarCostType)];
    }

    /** Generate: the updated matrices once loaded, the base ones before, each checked to exist. */
    function Generate(loadedBefore: bool, existing: set<string>): (r: Result<seq<LoadRequest>, string>)
      ensures r.Ok? ==> |r.value| == 6
      ensures r.Ok? ==> forall i :: 0 <= i < 6 ==>
        (r.value[i].path in existing
         && r.value[i].loader == LoaderFor(Loads(if loadedBefore then updatedFiles else baseFiles)[i].0)
         && r.value[i].header == headerBoolean)
    {
      Requests(Loads(if loadedBefore then updatedFiles else baseFiles), existing, inputBaseDirectory, headerBoolean)
    }

    /**
     * Loads the network. An iterative root decides whether this is a reload
     * (any iteration after the first); the cache is regenerated when needed,
     * then read, and the network counts as loaded from then on. A missing
     * matrix file aborts the regeneration and leaves the stored data as it was.
     */
    method LoadData(currentIteration: int, existing: set<string>, cache: seq<real>, cacheZones: nat, cacheEntries: nat)
      returns (r: Result<LoadPlan, string>)
      modifies this
      ensures var loadedBefore := if old(iterative) then currentIteration > 0 else old(alreadyLoaded);
        var cacheFile := FullPath(inputBaseDirectory, if loadedBefore then updatedODC else odc);
        var regenerate := (loadedBefore && rebuildDataOnSuccessiveLoads) || cacheFile !in existing;
        && (r.Ok? <==> !regenerate || Generate(loadedBefore, existing).Ok?)
        && (r.Ok? ==> r.value.cacheFile == cacheFile)
        && (r.Ok? ==> (r.value.regenerated.Some? <==> regenerate))
        && (r.Ok? && r.value.regenerated.Some? ==> Generate(loadedBefore, existing) == Ok(r.value.regenerated.value))
        && (r.Ok? ==> storedData == Some(cache) && numberOfZones == cacheZones && dataEntries == cacheEntries
                      && alreadyLoaded && !cacheOpen)
        && (r.Err? ==> r.error == Generate(loadedBefore, existing).error && alreadyLoaded == loadedBefore
                       && storedData == old(storedData) && cacheOpen == old(cacheOpen)
                       && numberOfZones == old(numberOfZones) && dataEntries == old(dataEntries))
      ensures iterative == old(iterative)
    {
      if iterative {
        alreadyLoaded := currentIteration > 0;
      }
      var cacheFile := FullPath(inputBaseDirectory, if alreadyLoaded then updatedODC else odc);
      var regenerated := None;
      if (alreadyLoaded && rebuildDataOnSuccessiveLoads) || cacheFile !in existing {
        var generated := Generate(alreadyLoaded, existing);
        if generated.Err? {
          return Err(generated.error);
        }
        regenerated := Some(generated.value);
      }
      cacheOpen := true;
      storedData := Some(cache);
      dataEntries := cacheEntries;
      numberOfZones := cacheZones;
      cacheOpen := false;
      alreadyLoaded := true;
      r := Ok(LoadPlan(cacheFile, regenerated));
    }

    /** Validation always succeeds and records whether the root is an iterative model. */
    method RuntimeValidation(rootIsIterative: bool) returns (ok: bool)
      modifies this
      ensures ok && iterative == rootIsIterative
      ensures alreadyLoaded == old(alreadyLoaded) && storedData == old(storedData) && cacheOpen == old(cacheOpen)
      ensures numberOfZones == old(numberOfZones) && dataEntries == old(dataEntries)
    {
      iterative := rootIsIterative;
      ok := true;
    }

    /** UnloadData as written: it clears the stored data only while an ODCache is open. */
    method UnloadDataAsWritten()
      modifies this
      ensures old(cacheOpen) ==> !cacheOpen && storedData == None
      ensures !old(cacheOpen) ==> cacheOpen == old(cacheOpen) && storedData == old(storedData)
      ensures alreadyLoaded == old(alreadyLoaded) && iterative == old(iterative)
      ensures numberOfZones == old(numberOfZones) && dataEntries == old(dataEntries)
    {
      if cacheOpen {
        cacheOpen := false;
        storedData := None;
      }
    }

    /** UnloadData as intended: it releases an open cache and always drops the stored data. */
    method UnloadData()
      modifies this
      ensures !cacheOpen && storedData == None && !Loaded()
      ensures alreadyLoaded == old(alreadyLoaded) && iterative == old(iterative)
      ensures numberOfZones == old(numberOfZones) && dataEntries == old(dataEntries)
    {
      cacheOpen := false;
      storedData := None;
    }

    /** Every OD pair is valid for this network, at any time. */
    function ValidOD(flatOrigin: int, flatDestination: int, time: int): (r: bool)
      ensures r
    {
      true
    }
  }

  /**
   * A successful LoadData leaves no cache open, so UnloadData as written
   * clears nothing: the network still reports Loaded afterwards.
   */
  method LoadThenUnloadAsWritten(network: NetworkData, currentIteration: int, existing: set<string>, cache: seq<real>)
    returns (r: Result<LoadPlan, string>)
    modifies network
    ensures r.Ok? ==> network.Loaded() && network.storedData == Some(cache)
  {
    r := network.LoadData(currentIteration, existing, cache, 0, 6);
    network.UnloadDataAsWritten();
  }

  /** With UnloadData as intended, a load followed by an unload leaves the network unloaded. */
  method LoadThenUnload(network: NetworkData, currentIteration: int, existing: set<string>, cache: seq<real>)
    returns (r: Result<LoadPlan, string>)
    modifies network
    ensures !network.Loaded()
  {
    r := network.LoadData(currentIteration, existing, cache, 0, 6);
    network.UnloadData();
  }
}
