/**
 * Tasha PassengerAlgo: the auxiliary (passenger-serving) trip chains of a
 * household member are sorted by start time, the chains that overlap in time
 * are found, and every combination of non-conflicting chains is enumerated
 * by a recursion that removes conflicts from copies of the list.
 */
module PassengerAlgo {
  import opened Common

  /** The purposes an auxiliary chain can serve; only Dropoff is told apart. */
  datatype AuxPurpose = Dropoff | Pickup

  /** The start and end of the trip chain an auxiliary chain connects to. */
  datatype ChainTimes = ChainTimes(start: int, end: int)

  /** An auxiliary trip chain (its identity matters: lists are compared by reference). */
  class AuxChain {
    const startTime: int
    const endTime: int
    const purpose: AuxPurpose
    /** The "ConnectingChain" attachment: the connected trip's chain, if any. */
    const connecting: Option<ChainTimes>

    constructor (startTime: int, endTime: int, purpose: AuxPurpose, connecting: Option<ChainTimes>)
      ensures this.startTime == startTime && this.endTime == endTime
      ensures this.purpose == purpose && this.connecting == connecting
    {
      this.startTime := startTime;
      this.endTime := endTime;
      this.purpose := purpose;
      this.connecting := connecting;
    }
  }

  /**
   * getAuxTripChainStartTime: a chain connected to another chain, other than a
   * drop-off, starts when the connected chain starts.
   */
  function EffectiveStart(c: AuxChain): (t: int)
    ensures c.connecting.None? || c.purpose == Dropoff ==> t == c.startTime
    ensures c.connecting.Some? && c.purpose != Dropoff ==> t == c.connecting.value.start
  {
    match c.connecting
      case None => c.startTime
      case Some(other) => if c.purpose != Dropoff then other.start else c.startTime
  }

  /** getAuxTripChainEndTime: a connected drop-off ends when the connected chain ends. */
  function EffectiveEnd(c: AuxChain): (t: int)
    ensures c.connecting.None? || c.purpose != Dropoff ==> t == c.endTime
    ensures c.connecting.Some? && c.purpose == Dropoff ==> t == c.connecting.value.end
  {
    match c.connecting
      case None => c.endTime
      case Some(other) => if c.purpose == Dropoff then other.end else c.endTime
  }

  /** Two chains conflict when their effective intervals overlap strictly. */
  predicate Overlaps(other: AuxChain, c: AuxChain)
  {
    EffectiveStart(other) < EffectiveEnd(c) && EffectiveEnd(other) > EffectiveStart(c)
  }

  predicate SortedByStart(s: seq<AuxChain>)
  {
    forall p, q :: 0 <= p < q < |s| ==> s[p].startTime <= s[q].startTime
  }

  // ---------------------------------------------------------------------
  // Order-preserving sub-lists
  // ---------------------------------------------------------------------

  /** `a` is `b` with some elements deleted, the rest kept in order. */
  predicate Sub(a: seq<AuxChain>, b: seq<AuxChain>)
    decreases |b|
  {
    if b == [] then a == []
    else Sub(a, b[1..]) || (a != [] && a[0] == b[0] && Sub(a[1..], b[1..]))
  }

  lemma {:induction false} SubReflexive(a: seq<AuxChain>)
    ensures Sub(a, a)
    decreases |a|
  {
    if a != [] {
      SubReflexive(a[1..]);
    }
  }

  lemma {:induction false} SubShorter(a: seq<AuxChain>, b: seq<AuxChain>)
    requires Sub(a, b)
    ensures |a| <= |b|
    decreases |b|
  {
    if b != [] {
      if Sub(a, b[1..]) {
        SubShorter(a, b[1..]);
      } else {
        SubShorter(a[1..], b[1..]);
      }
    }
  }

  lemma {:induction false} SubTransitive(a: seq<AuxChain>, b: seq<AuxChain>, c: seq<AuxChain>)
    requires Sub(a, b) && Sub(b, c)
    ensures Sub(a, c)
    decreases |c|
  {
    if c == [] {
    } else if Sub(b, c[1..]) {
      SubTransitive(a, b, c[1..]);
    } else {
      assert b != [] && b[0] == c[0] && Sub(b[1..], c[1..]);
      if Sub(a, b[1..]) {
        SubTransitive(a, b[1..], c[1..]);
      } else {
        assert a != [] && a[0] == b[0] && Sub(a[1..], b[1..]);
        SubTransitive(a[1..], b[1..], c[1..]);
      }
    }
  }

  /** List.Remove: delete the first occurrence of `x`, if any. */
  function RemoveFirst(s: seq<AuxChain>, x: AuxChain): (r: seq<AuxChain>)
    ensures x in s ==> |r| == |s| - 1
    ensures x !in s ==> r == s
    ensures Sub(r, s)
  {
    if s == [] then s
    else if s[0] == x then
      SubReflexive(s[1..]);
      s[1..]
    else
      var r := [s[0]] + RemoveFirst(s[1..], x);
      assert r[1..] == RemoveFirst(s[1..], x);
      r
  }

  // ---------------------------------------------------------------------
  // sortTrips
  // ---------------------------------------------------------------------

  /** sortTrips: selection sort of a member's chains by start time, in place. */
  method SortTrips(list: ChainList)
    modifies list
    ensures SortedByStart(list.items)
    ensures multiset(list.items) == multiset(old(list.items))
    ensures SortedByStart(old(list.items)) ==> list.items == old(list.items)
  {
    var length := |list.items|;
    var i := 0;
    while i < length
      invariant 0 <= i <= length == |list.items|
      invariant SelectedUpTo(list.items, i)
      invariant multiset(list.items) == multiset(old(list.items))
      invariant SortedByStart(old(list.items)) ==> list.items == old(list.items)
    {
      var min := EarliestFrom(list.items, i);
      ghost var before := list.items;
      if min != i {
        Swap(list, i, min);
      }
      SelectionStep(before, i, min, list.items);
      i := i + 1;
    }
  }

  /** Exchanges two chains of the list. */
  method Swap(list: ChainList, i: nat, j: nat)
    requires i < |list.items| && j < |list.items|
    modifies list
    ensures list.items == old(list.items)[i := old(list.items[j])][j := old(list.items[i])]
  {
    var temp := list.items[j];
    list.items := list.items[j := list.items[i]];
    list.items := list.items[i := temp];
  }

  /**
   * The state after `i` rounds of selection: the first `i` chains are in
   * order and none starts after a chain still to be placed.
   */
  ghost predicate SelectedUpTo(s: seq<AuxChain>, i: nat)
  {
    i <= |s|
    && (forall p, q :: 0 <= p < q < i ==> s[p].startTime <= s[q].startTime)
    && (forall p, q :: 0 <= p < i <= q < |s| ==> s[p].startTime <= s[q].startTime)
  }

  /** Swapping the earliest remaining chain into position i extends the selected prefix by one, and keeps the chains. */
  lemma SelectionStep(s: seq<AuxChain>, i: nat, min: nat, t: seq<AuxChain>)
    requires SelectedUpTo(s, i) && i <= min < |s|
    requires forall k :: i <= k < |s| ==> s[min].startTime <= s[k].startTime
    requires t == s[i := s[min]][min := s[i]]
    ensures SelectedUpTo(t, i + 1)
    ensures multiset(t) == multiset(s)
  {
    assert t[i] == s[min];
    assert forall k :: 0 <= k < |s| && k != i && k != min ==> t[k] == s[k];
    assert t[min] == s[i];
  }

  /** The inner loop of sortTrips: the first position from `i` on with the earliest start. */
  method EarliestFrom(s: seq<AuxChain>, i: nat) returns (min: nat)
    requires i < |s|
    ensures i <= min < |s|
    ensures forall k :: i <= k < |s| ==> s[min].startTime <= s[k].startTime
    ensures forall k :: i <= k < min ==> s[k].startTime > s[min].startTime
  {
    min := i;
    var j := i + 1;
    while j < |s|
      invariant i < j <= |s|
      invariant i <= min < j
      invariant forall k :: i <= k < j ==> s[min].startTime <= s[k].startTime
      invariant forall k :: i <= k < min ==> s[k].startTime > s[min].startTime
    {
      if s[min].startTime > s[j].startTime {
        min := j;
      }
      j := j + 1;
    }
  }

  // ---------------------------------------------------------------------
  // getConflictingChains
  // ---------------------------------------------------------------------

  /**
   * The chains from position `i` on that conflict with `c`, skipping `c`
   * itself and stopping at the first other chain that starts after `c` ends.
   */
  function ConflictsFrom(c: AuxChain, list: seq<AuxChain>, i: nat): (r: seq<AuxChain>)
    requires i <= |list|
    ensures forall k :: 0 <= k < |r| ==> r[k] != c && Overlaps(r[k], c) && r[k] in list[i..]
    decreases |list| - i
  {
    if i == |list| then []
    else if list[i] == c then ConflictsFrom(c, list, i + 1)
    else if list[i].startTime > c.endTime then []
    else if Overlaps(list[i], c) then [list[i]] + ConflictsFrom(c, list, i + 1)
    else ConflictsFrom(c, list, i + 1)
  }

  /** getConflictingChains. */
  method GetConflictingChains(c: AuxChain, list: seq<AuxChain>) returns (conflicts: seq<AuxChain>)
    ensures conflicts == ConflictsFrom(c, list, 0)
  {
    conflicts := [];
    var length := |list|;
    var i := 0;
    while i < length
      invariant 0 <= i <= length
      invariant conflicts + ConflictsFrom(c, list, i) == ConflictsFrom(c, list, 0)
    {
      if list[i] == c {
        i := i + 1;
        continue;
      }
      if list[i].startTime > c.endTime {
        assert conflicts == conflicts + ConflictsFrom(c, list, i);
        return conflicts;
      }
      if Overlaps(list[i], c) {
        conflicts := conflicts + [list[i]];
      }
      i := i + 1;
    }
  }

  /**
   * On a list sorted by start time the early stop loses nothing: every other
   * chain that starts no later than `c` ends and overlaps it is reported.
   */
  lemma {:induction false} ConflictsComplete(c: AuxChain, list: seq<AuxChain>, i: nat, k: nat)
    requires SortedByStart(list)
    requires i <= k < |list|
    requires list[k] != c && list[k].startTime <= c.endTime && Overlaps(list[k], c)
    ensures list[k] in ConflictsFrom(c, list, i)
    decreases |list| - i
  {
    if i < k {
      if list[i] != c {
        assert list[i].startTime <= list[k].startTime;
      }
      ConflictsComplete(c, list, i + 1, k);
    }
  }

  // ---------------------------------------------------------------------
  // findPotentialTripChainsRec
  // ---------------------------------------------------------------------

  /** CopyChain: a new list holding the same chains in the same order. */
  method CopyChain(chains: seq<AuxChain>) returns (copy: seq<AuxChain>)
    ensures |copy| == |chains| && forall k :: 0 <= k < |chains| ==> copy[k] == chains[k]
  {
    copy := [];
    var length := |chains|;
    var i := 0;
    while i < length
      invariant 0 <= i <= length
      invariant copy == chains[..i]
    {
      copy := copy + [chains[i]];
      i := i + 1;
    }
  }

  /** The list left after removing, one after the other, the first occurrence of each conflicting chain. */
  function RemoveAll(list: seq<AuxChain>, conflicts: seq<AuxChain>): (r: seq<AuxChain>)
    ensures Sub(r, list) && |r| <= |list|
    decreases |conflicts|
  {
    if conflicts == [] then
      SubReflexive(list);
      list
    else
      var front := RemoveAll(list, conflicts[..|conflicts| - 1]);
      var r := RemoveFirst(front, conflicts[|conflicts| - 1]);
      SubTransitive(r, front, list);
      SubShorter(r, list);
      r
  }

  /** Once the first conflicting chain is in the list, removing all of them shortens it. */
  lemma {:induction false} RemoveAllShorter(list: seq<AuxChain>, conflicts: seq<AuxChain>)
    requires |conflicts| > 0 && conflicts[0] in list
    ensures |RemoveAll(list, conflicts)| < |list|
    decreases |conflicts|
  {
    var front := conflicts[..|conflicts| - 1];
    if |conflicts| == 1 {
      assert front == [];
    } else {
      assert front[0] == conflicts[0];
      RemoveAllShorter(list, front);
    }
  }

  /** Remove each of the conflicting chains from a copy of the list. */
  method RemoveConflicts(list: seq<AuxChain>, conflicts: seq<AuxChain>) returns (rest: seq<AuxChain>)
    ensures rest == RemoveAll(list, conflicts)
    ensures Sub(rest, list)
    ensures |conflicts| > 0 && conflicts[0] in list ==> |rest| < |list|
  {
    rest := CopyChain(list);
    assert rest == list;
    var length := |conflicts|;
    var i := 0;
    while i < length
      invariant 0 <= i <= length
      invariant rest == RemoveAll(list, conflicts[..i])
    {
      assert conflicts[..i + 1][..i] == conflicts[..i];
      rest := RemoveFirst(rest, conflicts[i]);
      i := i + 1;
    }
    assert conflicts[..length] == conflicts;
    if |conflicts| > 0 && conflicts[0] in list {
      RemoveAllShorter(list, conflicts);
    }
  }

  /**
   * The lists findPotentialTripChainsRec adds, in the order it adds them: the
   * list itself once every chain from `current` on is free of conflicts;
   * otherwise first the combinations that keep the current chain and drop its
   * conflicts, then those that drop the current chain.
   */
  function Potential(list: seq<AuxChain>, current: nat): (r: seq<seq<AuxChain>>)
    ensures |r| > 0
    decreases if current >= |list| then 0 else |list| - current
  {
    if current >= |list| then [list]
    else
      var conflicts := ConflictsFrom(list[current], list, 0);
      if |conflicts| == 0 then Potential(list, current + 1)
      else Potential(RemoveAll(list, conflicts), current + 1) + Potential(RemoveFirst(list, list[current]), current)
  }

  /** Potential, unfolded once at a chain with conflicts. */
  lemma PotentialConflicting(list: seq<AuxChain>, current: nat, conflicts: seq<AuxChain>)
    requires current < |list| && conflicts == ConflictsFrom(list[current], list, 0) && |conflicts| > 0
    ensures Potential(list, current) ==
      Potential(RemoveAll(list, conflicts), current + 1) + Potential(RemoveFirst(list, list[current]), current)
  {
  }

  /** Appending to the accumulator in two steps appends both parts in order. */
  lemma Regroup(potential: seq<seq<AuxChain>>, a: seq<seq<AuxChain>>, b: seq<seq<AuxChain>>,
                withThis: seq<seq<AuxChain>>, result: seq<seq<AuxChain>>)
    requires withThis == potential + a && result == withThis + b
    ensures result == potential + (a + b)
  {
  }

  /** Every list the recursion adds is the input with some chains removed and the rest in order. */
  lemma {:induction false} PotentialSubLists(list: seq<AuxChain>, current: nat)
    ensures forall k :: 0 <= k < |Potential(list, current)| ==> Sub(Potential(list, current)[k], list)
    decreases if current >= |list| then 0 else |list| - current
  {
    if current >= |list| {
      SubReflexive(list);
    } else {
      var conflicts := ConflictsFrom(list[current], list, 0);
      if |conflicts| == 0 {
        PotentialSubLists(list, current + 1);
      } else {
        var removed := RemoveAll(list, conflicts);
        var without := RemoveFirst(list, list[current]);
        PotentialSubLists(removed, current + 1);
        PotentialSubLists(without, current);
        var left := Potential(removed, current + 1);
        var right := Potential(without, current);
        forall k | 0 <= k < |left| + |right| ensures Sub((left + right)[k], list) {
          if k < |left| {
            SubTransitive(left[k], removed, list);
          } else {
            SubTransitive(right[k - |left|], without, list);
          }
        }
      }
    }
  }

  /**
   * findPotentialTripChainsRec: append to `potential` every list this branch
   * of the recursion reaches; each is the input with some chains removed and
   * the rest in order.
   */
  method FindPotentialTripChainsRec(list: seq<AuxChain>, current: nat, potential: seq<seq<AuxChain>>)
    returns (result: seq<seq<AuxChain>>)
    ensures result == potential + Potential(list, current)
    ensures |result| > |potential| && result[..|potential|] == potential
    ensures forall k :: |potential| <= k < |result| ==> Sub(result[k], list)
    decreases if current >= |list| then 0 else |list| - current
  {
    if current >= |list| {
      result := potential + [list];
    } else {
      var currentChain := list[current];
      var conflicts := GetConflictingChains(currentChain, list);
      if |conflicts| == 0 {
        result := FindPotentialTripChainsRec(list, current + 1, potential);
      } else {
        var removedConflicts := RemoveConflicts(list, conflicts);
        var withThis := FindPotentialTripChainsRec(removedConflicts, current + 1, potential);
        var without := CopyChain(list);
        assert without == list;
        without := RemoveFirst(without, currentChain);
        result := FindPotentialTripChainsRec(without, current, withThis);
        PotentialConflicting(list, current, conflicts);
        Regroup(potential, Potential(removedConflicts, current + 1), Potential(without, current), withThis, result);
      }
    }
    AppendedSubLists(list, current, potential, result);
  }

  /** What appending the recursion's lists to `potential` keeps: the earlier lists, and the sub-list property of the new ones. */
  lemma AppendedSubLists(list: seq<AuxChain>, current: nat, potential: seq<seq<AuxChain>>, result: seq<seq<AuxChain>>)
    requires result == potential + Potential(list, current)
    ensures |result| > |potential| && result[..|potential|] == potential
    ensures forall k :: |potential| <= k < |result| ==> Sub(result[k], list)
  {
    PotentialSubLists(list, current);
    assert forall k :: |potential| <= k < |result| ==> result[k] == Potential(list, current)[k - |potential|];
  }

  // ---------------------------------------------------------------------
  // The household
  // ---------------------------------------------------------------------

  /**
   * A member's List<ITripChain> of auxiliary chains, an object: sorting and
   * clearing change it in place, and every holder of it sees the change.
   */
  class ChainList {
    var items: seq<AuxChain>

    constructor ()
      ensures items == []
    {
      items := [];
    }

    /** List.Clear. */
    method Clear()
      modifies this
      ensures items == []
    {
      items := [];
    }
  }

  class Person {
    var auxTripChains: ChainList?

    constructor (auxTripChains: ChainList?)
      ensures this.auxTripChains == auxTripChains
    {
      this.auxTripChains := auxTripChains;
    }
  }

  /**
   * ClearPassengerTrips: every member is left with an empty, present list of
   * auxiliary chains; a missing list is created, an existing one is cleared
   * in place and stays the same object.
   */
  method ClearPassengerTrips(persons: seq<Person>)
    modifies set p | p in persons
    modifies set p | p in persons && p.auxTripChains != null :: p.auxTripChains
    ensures forall p :: p in persons ==> p.auxTripChains != null && p.auxTripChains.items == []
    ensures forall p :: p in persons && old(p.auxTripChains) != null ==> p.auxTripChains == old(p.auxTripChains)
    ensures forall p :: p in persons && old(p.auxTripChains) == null ==> fresh(p.auxTripChains)
  {
    var length := |persons|;
    var i := 0;
    while i < length
      invariant 0 <= i <= length
      invariant forall k :: 0 <= k < i ==> persons[k].auxTripChains != null && persons[k].auxTripChains.items == []
      invariant forall p :: p in persons && old(p.auxTripChains) != null ==> p.auxTripChains == old(p.auxTripChains)
      invariant forall p :: p in persons && old(p.auxTripChains) == null ==> p.auxTripChains == null || fresh(p.auxTripChains)
    {
      var aux := persons[i].auxTripChains;
      if aux == null {
        persons[i].auxTripChains := new ChainList();
      } else {
        aux.Clear();
      }
      i := i + 1;
    }
  }

  /** The fault FindAllPotentialModesForTrips meets at the first member whose list is missing. */
  datatype HouseholdFault = NullAuxTripChains(person: nat)

  /** The chains each member holds, in household order. */
  function ChainsOf(persons: seq<Person>): (r: seq<seq<AuxChain>>)
    requires forall k :: 0 <= k < |persons| ==> persons[k].auxTripChains != null
    reads set p | p in persons
    reads set p | p in persons :: p.auxTripChains
    ensures |r| == |persons| && forall k :: 0 <= k < |persons| ==> r[k] == persons[k].auxTripChains.items
  {
    if persons == [] then []
    else ChainsOf(persons[..|persons| - 1]) + [persons[|persons| - 1].auxTripChains.items]
  }

  /** The members whose chains are not empty, in household order. */
  function Listed(persons: seq<Person>, chains: seq<seq<AuxChain>>): (r: seq<Person>)
    requires |chains| == |persons|
    ensures forall k :: 0 <= k < |r| ==> r[k] in persons
    ensures |r| == 0 <==> forall k :: 0 <= k < |chains| ==> chains[k] == []
  {
    if persons == [] then []
    else
      var n := |persons| - 1;
      Listed(persons[..n], chains[..n]) + (if chains[n] != [] then [persons[n]] else [])
  }

  /** Listed grows by the next member exactly when its chains are not empty. */
  lemma ListedSnoc(persons: seq<Person>, visited: seq<seq<AuxChain>>, i: nat, chains: seq<AuxChain>)
    requires |visited| == i < |persons|
    ensures Listed(persons[..i + 1], visited + [chains]) ==
      Listed(persons[..i], visited) + (if chains != [] then [persons[i]] else [])
  {
    assert persons[..i + 1][..i] == persons[..i];
    assert (visited + [chains])[..i] == visited;
  }

  /** Each member holds a list of its own: no two members share one. */
  ghost predicate OwnLists(persons: seq<Person>)
    reads set p | p in persons
  {
    forall j, k :: 0 <= j < k < |persons| && persons[j].auxTripChains != null ==>
      persons[j].auxTripChains != persons[k].auxTripChains
  }

  /** The chains each member holds, an absent list counting as none. */
  function Held(persons: seq<Person>): (r: seq<seq<AuxChain>>)
    reads set p | p in persons
    reads set p | p in persons && p.auxTripChains != null :: p.auxTripChains
    ensures |r| == |persons|
    ensures forall k :: 0 <= k < |persons| && persons[k].auxTripChains != null ==> r[k] == persons[k].auxTripChains.items
  {
    if persons == [] then []
    else
      var last := persons[|persons| - 1];
      Held(persons[..|persons| - 1]) + [if last.auxTripChains == null then [] else last.auxTripChains.items]
  }

  /**
   * The state of the household after FindAllPotentialModesForTrips has
   * visited its first `i` members: `visited` holds the chains each of them
   * was left with, sorted and a permutation of the chains it held on entry
   * (`initial`); the lists not yet visited still hold their chains.
   */
  ghost predicate Visiting(persons: seq<Person>, i: nat, visited: seq<seq<AuxChain>>, initial: seq<seq<AuxChain>>)
    reads set p | p in persons
    reads set p | p in persons && p.auxTripChains != null :: p.auxTripChains
  {
    i <= |persons| == |initial| && |visited| == i
    && (forall k :: 0 <= k < i ==>
          persons[k].auxTripChains != null
          && persons[k].auxTripChains.items == visited[k] && SortedByStart(visited[k])
          && multiset(visited[k]) == multiset(initial[k]))
    && (forall j :: i <= j < |persons| && persons[j].auxTripChains != null ==>
          persons[j].auxTripChains.items == initial[j])
  }

  /** Whatever the visit has reached, every member's chains are a permutation of those on entry. */
  lemma VisitingPermutes(persons: seq<Person>, i: nat, visited: seq<seq<AuxChain>>, initial: seq<seq<AuxChain>>)
    requires Visiting(persons, i, visited, initial)
    ensures forall j :: 0 <= j < |persons| && persons[j].auxTripChains != null ==>
      multiset(persons[j].auxTripChains.items) == multiset(initial[j])
  {
  }

  /**
   * One turn of FindAllPotentialModesForTrips: a member without chains is
   * skipped; otherwise its list is sorted in place and its combinations are
   * enumerated.
   */
  method VisitMember(persons: seq<Person>, i: nat, ghost visited: seq<seq<AuxChain>>, ghost initial: seq<seq<AuxChain>>)
    returns (chains: Option<seq<seq<AuxChain>>>)
    requires i < |persons| && persons[i].auxTripChains != null
    requires OwnLists(persons) && Visiting(persons, i, visited, initial)
    modifies persons[i].auxTripChains
    ensures Visiting(persons, i + 1, visited + [persons[i].auxTripChains.items], initial)
    ensures chains.None? <==> persons[i].auxTripChains.items == []
    ensures chains.Some? ==> chains.value == Potential(persons[i].auxTripChains.items, 0)
  {
    var aux := persons[i].auxTripChains;
    if aux.items == [] {
      chains := None;
    } else {
      SortTrips(aux);
      var enumerated := FindPotentialTripChainsRec(aux.items, 0, []);
      chains := Some(enumerated);
    }
  }

  /**
   * The entries made for the first members: one per member with chains, in
   * order, each holding the combinations enumerated from its visited chains.
   */
  ghost predicate Accounted(entries: seq<(Person, seq<seq<AuxChain>>)>, persons: seq<Person>,
                            visited: seq<seq<AuxChain>>, owner: seq<nat>)
    requires |visited| == |persons|
  {
    var listed := Listed(persons, visited);
    |owner| == |entries| == |listed|
    && forall k :: 0 <= k < |entries| ==>
      entries[k].0 == listed[k] && owner[k] < |persons| && entries[k].0 == persons[owner[k]]
      && entries[k].1 == Potential(visited[owner[k]], 0)
  }

  /** Visiting one more member adds its entry exactly when its chains are not empty. */
  lemma AccountedStep(entries: seq<(Person, seq<seq<AuxChain>>)>, persons: seq<Person>,
                      visited: seq<seq<AuxChain>>, owner: seq<nat>, i: nat, chains: seq<AuxChain>)
    requires |visited| == i < |persons| && Accounted(entries, persons[..i], visited, owner)
    ensures chains == [] ==> Accounted(entries, persons[..i + 1], visited + [chains], owner)
    ensures chains != [] ==>
      Accounted(entries + [(persons[i], Potential(chains, 0))], persons[..i + 1], visited + [chains], owner + [i])
  {
    ListedSnoc(persons, visited, i, chains);
  }

  /** Once every member is visited, the entries are those the household's sorted chains call for. */
  lemma VisitedAll(persons: seq<Person>, visited: seq<seq<AuxChain>>, initial: seq<seq<AuxChain>>,
                   entries: seq<(Person, seq<seq<AuxChain>>)>, owner: seq<nat>)
    requires Visiting(persons, |persons|, visited, initial) && Accounted(entries, persons, visited, owner)
    ensures forall j :: 0 <= j < |persons| ==>
      (persons[j].auxTripChains != null && SortedByStart(persons[j].auxTripChains.items)
       && multiset(persons[j].auxTripChains.items) == multiset(initial[j]))
    ensures |entries| == 0 <==> forall j :: 0 <= j < |persons| ==> persons[j].auxTripChains.items == []
    ensures var listed := Listed(persons, ChainsOf(persons));
      |entries| == |listed| && forall k :: 0 <= k < |listed| ==>
        entries[k].0 == listed[k] && entries[k].1 == Potential(listed[k].auxTripChains.items, 0)
  {
    assert ChainsOf(persons) == visited;
    forall k | 0 <= k < |entries|
      ensures entries[k].1 == Potential(entries[k].0.auxTripChains.items, 0)
    {
      assert persons[owner[k]].auxTripChains.items == visited[owner[k]];
    }
  }

  /**
   * The loop of FindAllPotentialModesForTrips: visit the members in order
   * until the first one without a list, or the end of the household.
   */
  method VisitUntilMissing(persons: seq<Person>, ghost initial: seq<seq<AuxChain>>)
    returns (i: nat, potential: seq<(Person, seq<seq<AuxChain>>)>, ghost visited: seq<seq<AuxChain>>, ghost owner: seq<nat>)
    requires OwnLists(persons) && Visiting(persons, 0, [], initial)
    modifies set p | p in persons && p.auxTripChains != null :: p.auxTripChains
    ensures i <= |persons| && (i < |persons| ==> persons[i].auxTripChains == null)
    ensures Visiting(persons, i, visited, initial) && Accounted(potential, persons[..i], visited, owner)
  {
    potential, visited, owner := [], [], [];
    i := 0;
    while i < |persons| && persons[i].auxTripChains != null
      invariant i <= |persons|
      invariant Visiting(persons, i, visited, initial)
      invariant Accounted(potential, persons[..i], visited, owner)
    {
      var chains := VisitMember(persons, i, visited, initial);
      AccountedStep(potential, persons, visited, owner, i, persons[i].auxTripChains.items);
      if chains.Some? {
        potential := potential + [(persons[i], chains.value)];
        owner := owner + [i];
      }
      visited := visited + [persons[i].auxTripChains.items];
      i := i + 1;
    }
  }

  /**
   * FindAllPotentialModesForTrips: for each member with auxiliary chains,
   * sort them in place and enumerate their non-conflicting combinations; the
   * first member without a list stops it with a null dereference. The result
   * holds one entry per member with chains, in household order, so it is
   * empty exactly when no member has any, which is when AssignPassengerTrips
   * returns at once.
   */
  method FindAllPotentialModesForTrips(persons: seq<Person>)
    returns (r: Result<seq<(Person, seq<seq<AuxChain>>)>, HouseholdFault>)
    requires OwnLists(persons)
    modifies set p | p in persons && p.auxTripChains != null :: p.auxTripChains
    ensures r.Err? <==> exists k :: 0 <= k < |persons| && persons[k].auxTripChains == null
    ensures r.Err? ==> r.error.person < |persons| && persons[r.error.person].auxTripChains == null
    ensures r.Err? ==> forall k :: 0 <= k < r.error.person ==> persons[k].auxTripChains != null
    ensures forall j :: 0 <= j < |persons| && persons[j].auxTripChains != null ==>
      multiset(persons[j].auxTripChains.items) == multiset(old(persons[j].auxTripChains.items))
    ensures r.Ok? ==> forall j :: 0 <= j < |persons| ==> SortedByStart(persons[j].auxTripChains.items)
    ensures r.Ok? ==> var listed := Listed(persons, ChainsOf(persons));
      |r.value| == |listed| && forall k :: 0 <= k < |listed| ==>
        r.value[k].0 == listed[k] && r.value[k].1 == Potential(listed[k].auxTripChains.items, 0)
    ensures r.Ok? ==> (|r.value| == 0 <==> forall j :: 0 <= j < |persons| ==> persons[j].auxTripChains.items == [])
  {
    ghost var initial := Held(persons);
    var i, potential, visited, owner := VisitUntilMissing(persons, initial);
    if i < |persons| {
      VisitingPermutes(persons, i, visited, initial);
      return Err(NullAuxTripChains(i));
    }
    assert persons[..i] == persons;
    VisitedAll(persons, visited, initial, potential, owner);
    r := Ok(potential);
  }
}
