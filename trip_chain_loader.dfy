/**
 * TMG.Tasha TripChainLoader: the observed-mode conversion table read from a
 * "X:Name,Y:Name" parameter by a three-state character scanner, and the rules
 * Load applies to each trip record (observed-mode lookup, work-purpose
 * reclassification, and when a new trip chain starts).
 */
module TripChainLoader {
  import opened Common

  /** The characters the scanner skips between entries: white space and commas. */
  predicate IsGap(c: char)
  {
    IsWhiteSpace(c) || c == ','
  }

  // ---------------------------------------------------------------------
  // The entries a conversion text describes
  // ---------------------------------------------------------------------

  /**
   * The (letter, name) entries of a conversion text, in order. Gaps are
   * skipped; the next character is the letter; everything up to the next ':'
   * is ignored; the name runs to the next ',' or to the end. A letter with no
   * ':' after it gives no entry.
   */
  function Entries(t: string): seq<(char, string)>
    decreases |t|, 2
  {
    if t == [] then []
    else if IsGap(t[0]) then Entries(t[1..])
    else KeyEntries(t[0], t[1..])
  }

  /** The entries still to come while looking for the ':' after `letter`. */
  function KeyEntries(letter: char, t: string): seq<(char, string)>
    decreases |t|, 1
  {
    if t == [] then []
    else if t[0] == ':' then NameEntries(letter, "", t[1..])
    else KeyEntries(letter, t[1..])
  }

  /** The entries still to come while reading the name of `letter`, `name` read so far. */
  function NameEntries(letter: char, name: string, t: string): seq<(char, string)>
    decreases |t|, 0
  {
    if t == [] then [(letter, name)]
    else if t[0] == ',' then [(letter, name)] + Entries(t[1..])
    else NameEntries(letter, name + [t[0]], t[1..])
  }

  /** The conversion text that lists `es` in order. */
  function Render(es: seq<(char, string)>): string
  {
    Join(',', seq(|es|, i requires 0 <= i < |es| => [es[i].0] + ":" + es[i].1))
  }

  predicate Renderable(es: seq<(char, string)>)
  {
    forall i :: 0 <= i < |es| ==> !IsGap(es[i].0) && ',' !in es[i].1
  }

  lemma {:induction false} NameEntriesRun(letter: char, name: string, run: string, t: string)
    requires ',' !in run
    ensures NameEntries(letter, name, run + t) == NameEntries(letter, name + run, t)
    decreases |run|
  {
    if run != [] {
      assert run[0] != ',' by {
        assert run[0] in run;
      }
      assert (run + t)[0] == run[0];
      assert (run + t)[1..] == run[1..] + t;
      assert NameEntries(letter, name, run + t) == NameEntries(letter, name + [run[0]], run[1..] + t);
      NameEntriesRun(letter, name + [run[0]], run[1..], t);
      assert name + [run[0]] + run[1..] == name + run;
    } else {
      assert run + t == t && name + run == name;
    }
  }

  /** One rendered entry, followed by the rest of a text. */
  lemma EntriesOfEntry(letter: char, name: string, tail: Option<string>)
    requires !IsGap(letter) && ',' !in name
    ensures tail.None? ==> Entries([letter] + ":" + name) == [(letter, name)]
    ensures tail.Some? ==> Entries([letter] + ":" + name + "," + tail.value) == [(letter, name)] + Entries(tail.value)
  {
    var rest := if tail.None? then "" else "," + tail.value;
    var t := [letter] + ":" + name + rest;
    assert t[0] == letter && t[1..] == ":" + name + rest;
    assert KeyEntries(letter, ":" + name + rest) == NameEntries(letter, "", name + rest) by {
      assert (":" + name + rest)[1..] == name + rest;
    }
    NameEntriesRun(letter, "", name, rest);
    assert "" + name == name;
    if tail.Some? {
      assert rest[1..] == tail.value;
      assert [letter] + ":" + name + "," + tail.value == t;
    } else {
      assert t == [letter] + ":" + name;
    }
  }

  /** Scanning a rendered table gives back its entries. */
  lemma {:induction false} EntriesRender(es: seq<(char, string)>)
    requires Renderable(es)
    ensures Entries(Render(es)) == es
  {
    var parts := seq(|es|, i requires 0 <= i < |es| => [es[i].0] + ":" + es[i].1);
    if |es| == 1 {
      assert Render(es) == parts[0];
      EntriesOfEntry(es[0].0, es[0].1, None);
    } else if |es| > 1 {
      var tailParts := seq(|es| - 1, i requires 0 <= i < |es| - 1 => [es[1..][i].0] + ":" + es[1..][i].1);
      assert tailParts == parts[1..];
      assert Render(es) == parts[0] + [','] + Render(es[1..]);
      EntriesRender(es[1..]);
      EntriesOfEntry(es[0].0, es[0].1, Some(Render(es[1..])));
      assert es == [es[0]] + es[1..];
    }
  }

  // ---------------------------------------------------------------------
  // The dictionary
  // ---------------------------------------------------------------------

  /**
   * Dictionary.Add of each entry in turn: the table after the adds that
   * succeed, and the letter of the first entry already present, if any.
   */
  function AddEntries(m: map<char, string>, es: seq<(char, string)>): (r: (map<char, string>, Option<char>))
    ensures r.1.None? ==> forall i :: 0 <= i < |es| ==> es[i].0 in r.0
    ensures forall k :: k in r.0 ==> k in m || exists i :: 0 <= i < |es| && es[i].0 == k
    ensures r.1.Some? ==> r.1.value in r.0
    ensures forall k :: k in m ==> k in r.0 && r.0[k] == m[k]
    decreases |es|
  {
    if es == [] then (m, None)
    else if es[0].0 in m then (m, Some(es[0].0))
    else
      var r := AddEntries(m[es[0].0 := es[0].1], es[1..]);
      assert forall i :: 0 <= i < |es[1..]| ==> es[1..][i] == es[i + 1];
      r
  }

  /** Entries with distinct new letters are all added, each mapping to its own name. */
  lemma {:induction false} AddEntriesDistinct(m: map<char, string>, es: seq<(char, string)>)
    requires forall i :: 0 <= i < |es| ==> es[i].0 !in m
    requires forall i, j :: 0 <= i < j < |es| ==> es[i].0 != es[j].0
    ensures AddEntries(m, es).1 == None
    ensures forall i :: 0 <= i < |es| ==> AddEntries(m, es).0[es[i].0] == es[i].1
    decreases |es|
  {
    if es != [] {
      var m' := m[es[0].0 := es[0].1];
      AddEntriesDistinct(m', es[1..]);
      var r := AddEntries(m', es[1..]);
      assert AddEntries(m, es) == r;
      forall i | 0 <= i < |es| ensures r.0[es[i].0] == es[i].1 {
        if i > 0 {
          assert es[i] == es[1..][i - 1];
        }
      }
    }
  }

  /** A letter that appears twice makes the second Add fail. */
  lemma RepeatedLetterFails(letter: char, a: string, b: string)
    ensures AddEntries(map[], [(letter, a), (letter, b)]) == (map[letter := a], Some(letter))
  {
    var es := [(letter, a), (letter, b)];
    assert es[1..] == [(letter, b)];
  }

  const DefaultModeConversion: string := "D:Auto,T:Transit,W:Walk"

  /** The default parameter gives D, T and W the Auto, Transit and Walk modes. */
  lemma DefaultConversion()
    ensures AddEntries(map[], Entries(DefaultModeConversion)) == (map['D' := "Auto", 'T' := "Transit", 'W' := "Walk"], None)
  {
    var es := [('D', "Auto"), ('T', "Transit"), ('W', "Walk")];
    DefaultEntries(DefaultModeConversion);
    var m1 := map['D' := "Auto"];
    var m2 := m1['T' := "Transit"];
    var m3 := m2['W' := "Walk"];
    assert es[1..] == [('T', "Transit"), ('W', "Walk")];
    assert es[1..][1..] == [('W', "Walk")];
    assert es[1..][1..][1..] == [];
    assert AddEntries(m3, []) == (m3, None);
    assert AddEntries(m2, [('W', "Walk")]) == (m3, None);
    assert AddEntries(m1, es[1..]) == (m3, None);
  }

  lemma DefaultEntries(t: string)
    requires t == DefaultModeConversion
    ensures Entries(t) == [('D', "Auto"), ('T', "Transit"), ('W', "Walk")]
  {
    var es := [('D', "Auto"), ('T', "Transit"), ('W', "Walk")];
    DefaultParts(es);
    DefaultJoin(["D:Auto", "T:Transit", "W:Walk"], t);
    EntriesRender(es);
  }

  lemma DefaultParts(es: seq<(char, string)>)
    requires es == [('D', "Auto"), ('T', "Transit"), ('W', "Walk")]
    ensures Renderable(es)
    ensures seq(|es|, i requires 0 <= i < |es| => [es[i].0] + ":" + es[i].1) == ["D:Auto", "T:Transit", "W:Walk"]
  {
    var parts := seq(|es|, i requires 0 <= i < |es| => [es[i].0] + ":" + es[i].1);
    assert parts[0] == "D:Auto" && parts[1] == "T:Transit" && parts[2] == "W:Walk";
  }

  lemma DefaultJoin(parts: seq<string>, t: string)
    requires parts == ["D:Auto", "T:Transit", "W:Walk"] && t == DefaultModeConversion
    ensures Join(',', parts) == t
  {
    assert parts[1..][1..] == ["W:Walk"];
    assert Join(',', parts[1..]) == "T:Transit" + [','] + "W:Walk";
  }

  // ---------------------------------------------------------------------
  // Per-trip rules of Load
  // ---------------------------------------------------------------------

  datatype Activity = PrimaryWork | SecondaryWork | WorkBasedBusiness | OtherActivity(code: char)

  /** A work trip whose destination is not the person's employment zone becomes work-based business. */
  function ReclassifyPurpose(purpose: Activity, employmentZone: Option<int>, destination: Option<int>): (r: Activity)
    ensures r == WorkBasedBusiness <==> purpose == WorkBasedBusiness || ((purpose == PrimaryWork || purpose == SecondaryWork) && employmentZone != destination)
    ensures r != WorkBasedBusiness ==> r == purpose
  {
    if (purpose == PrimaryWork || purpose == SecondaryWork) && employmentZone != destination then WorkBasedBusiness else purpose
  }

  /** A record begins a new chain when there is none yet, or it leaves home for a home-origin purpose. */
  predicate StartsNewChain(hasChain: bool, origin: Option<int>, homeZone: int, purposeOrigin: char)
  {
    !hasChain || (origin == Some(homeZone) && purposeOrigin == 'H')
  }

  /** The facts of one trip record the chain rules look at. */
  datatype TripRecord = TripRecord(origin: Option<int>, purposeOrigin: char)

  datatype LoadError = NotHomeBased | ModeIndexOutOfRange

  function Flatten(chains: seq<seq<TripRecord>>): seq<TripRecord>
  {
    if chains == [] then [] else Flatten(chains[..|chains| - 1]) + chains[|chains| - 1]
  }

  /**
   * How Load groups one person's records into chains: the first record opens
   * a chain, every later record that StartsNewChain opens another, and every
   * record joins the newest chain. The first record may leave from elsewhere
   * than home only when a non-home-based attachment name is configured.
   */
  method GroupIntoChains(records: seq<TripRecord>, homeZone: int, nonHomeBasedAttachName: string)
    returns (r: Result<seq<seq<TripRecord>>, LoadError>)
    ensures r.Err? <==> |records| > 0 && records[0].origin.Some? && records[0].origin != Some(homeZone) && IsBlank(nonHomeBasedAttachName)
    ensures r.Ok? ==> Flatten(r.value) == records
    ensures r.Ok? ==> forall c :: 0 <= c < |r.value| ==> |r.value[c]| > 0
    ensures r.Ok? ==> forall c :: 1 <= c < |r.value| ==> StartsNewChain(true, r.value[c][0].origin, homeZone, r.value[c][0].purposeOrigin)
    ensures r.Ok? ==> forall c, k :: 0 <= c < |r.value| && 1 <= k < |r.value[c]| ==> !StartsNewChain(true, r.value[c][k].origin, homeZone, r.value[c][k].purposeOrigin)
  {
    if |records| > 0 && records[0].origin.Some? && records[0].origin != Some(homeZone) && IsBlank(nonHomeBasedAttachName) {
      return Err(NotHomeBased);
    }
    var chains: seq<seq<TripRecord>> := [];
    var i := 0;
    while i < |records|
      invariant 0 <= i <= |records|
      invariant Flatten(chains) == records[..i]
      invariant i > 0 ==> |chains| > 0
      invariant WellChained(chains, homeZone)
    {
      var t := records[i];
      if StartsNewChain(|chains| > 0, t.origin, homeZone, t.purposeOrigin) {
        StartChain(chains, t, homeZone);
        chains := chains + [[t]];
      } else {
        ExtendChain(chains, t, homeZone);
        chains := chains[..|chains| - 1] + [chains[|chains| - 1] + [t]];
      }
      assert records[..i + 1] == records[..i] + [t];
      i := i + 1;
    }
    assert records[..i] == records;
    return Ok(chains);
  }

  /** No chain is empty, each chain after the first starts at home, and no record inside a chain does. */
  predicate WellChained(chains: seq<seq<TripRecord>>, homeZone: int)
  {
    NoEmptyChain(chains) && LaterChainsStart(chains, homeZone) && NoStartInside(chains, homeZone)
  }

  predicate NoEmptyChain(chains: seq<seq<TripRecord>>)
  {
    forall c :: 0 <= c < |chains| ==> |chains[c]| > 0
  }

  predicate LaterChainsStart(chains: seq<seq<TripRecord>>, homeZone: int)
  {
    forall c :: 1 <= c < |chains| ==> |chains[c]| > 0 && StartsNewChain(true, chains[c][0].origin, homeZone, chains[c][0].purposeOrigin)
  }

  predicate NoStartInside(chains: seq<seq<TripRecord>>, homeZone: int)
  {
    forall c, k :: 0 <= c < |chains| && 1 <= k < |chains[c]| ==> !StartsNewChain(true, chains[c][k].origin, homeZone, chains[c][k].purposeOrigin)
  }

  /** A record that starts a chain opens a new one. */
  lemma StartChain(chains: seq<seq<TripRecord>>, t: TripRecord, homeZone: int)
    requires WellChained(chains, homeZone) && StartsNewChain(|chains| > 0, t.origin, homeZone, t.purposeOrigin)
    ensures WellChained(chains + [[t]], homeZone)
    ensures Flatten(chains + [[t]]) == Flatten(chains) + [t]
  {
    FlattenSnoc(chains, [t]);
    NoEmptyChainSnoc(chains, [t]);
    LaterChainsStartSnoc(chains, [t], homeZone);
    NoStartInsideSnoc(chains, [t], homeZone);
  }

  /** Any other record joins the newest chain. */
  lemma ExtendChain(chains: seq<seq<TripRecord>>, t: TripRecord, homeZone: int)
    requires WellChained(chains, homeZone) && |chains| > 0 && !StartsNewChain(true, t.origin, homeZone, t.purposeOrigin)
    ensures var longer := chains[..|chains| - 1] + [chains[|chains| - 1] + [t]];
      WellChained(longer, homeZone) && Flatten(longer) == Flatten(chains) + [t]
  {
    var last := |chains| - 1;
    var front := chains[..last];
    var chain := chains[last] + [t];
    assert chains == front + [chains[last]];
    FlattenSnoc(front, chain);
    FlattenSnoc(front, chains[last]);
    WellChainedFront(chains, homeZone);
    NoEmptyChainSnoc(front, chain);
    assert chain[0] == chains[last][0];
    LaterChainsStartSnoc(front, chain, homeZone);
    assert forall k :: 1 <= k < |chains[last]| ==> chain[k] == chains[last][k];
    NoStartInsideSnoc(front, chain, homeZone);
  }

  /** Dropping the newest chain keeps the chains well formed. */
  lemma WellChainedFront(chains: seq<seq<TripRecord>>, homeZone: int)
    requires WellChained(chains, homeZone) && |chains| > 0
    ensures WellChained(chains[..|chains| - 1], homeZone)
  {
    var front := chains[..|chains| - 1];
    assert forall c :: 0 <= c < |front| ==> front[c] == chains[c];
  }

  lemma NoEmptyChainSnoc(chains: seq<seq<TripRecord>>, chain: seq<TripRecord>)
    requires NoEmptyChain(chains) && |chain| > 0
    ensures NoEmptyChain(chains + [chain])
  {
    var more := chains + [chain];
    assert forall c :: 0 <= c < |chains| ==> more[c] == chains[c];
  }

  lemma LaterChainsStartSnoc(chains: seq<seq<TripRecord>>, chain: seq<TripRecord>, homeZone: int)
    requires LaterChainsStart(chains, homeZone) && |chain| > 0
    requires |chains| > 0 ==> StartsNewChain(true, chain[0].origin, homeZone, chain[0].purposeOrigin)
    ensures LaterChainsStart(chains + [chain], homeZone)
  {
    var more := chains + [chain];
    assert forall c :: 0 <= c < |chains| ==> more[c] == chains[c];
  }

  lemma NoStartInsideSnoc(chains: seq<seq<TripRecord>>, chain: seq<TripRecord>, homeZone: int)
    requires NoStartInside(chains, homeZone)
    requires forall k :: 1 <= k < |chain| ==> !StartsNewChain(true, chain[k].origin, homeZone, chain[k].purposeOrigin)
    ensures NoStartInside(chains + [chain], homeZone)
  {
    var more := chains + [chain];
    assert forall c :: 0 <= c < |chains| ==> more[c] == chains[c];
  }

  lemma FlattenSnoc(chains: seq<seq<TripRecord>>, chain: seq<TripRecord>)
    ensures Flatten(chains + [chain]) == Flatten(chains) + chain
  {
    var more := chains + [chain];
    assert more[..|more| - 1] == chains;
  }

  // ---------------------------------------------------------------------
  // The loader's state
  // ---------------------------------------------------------------------

  class TripChainLoader {
    /** The "Mode Conversion" parameter. */
    const modeConversion: string
    /** CharacterToModeNameConversion. */
    var conversion: map<char, string>

    constructor (modeConversion: string)
      ensures this.modeConversion == modeConversion && conversion == map[]
    {
      this.modeConversion := modeConversion;
      conversion := map[];
    }

    /**
     * CreateConversionDictionary: scan the parameter and add its entries to the
     * table; a letter already in the table stops the scan (the Add throws),
     * leaving the entries added before it.
     */
    method CreateConversionDictionary() returns (duplicate: Option<char>)
      modifies this
      ensures (conversion, duplicate) == AddEntries(old(conversion), Entries(modeConversion))
    {
      var s := modeConversion;
      var state := 0;
      var currentLetter: char := 0 as char;
      var currentName: string := "";
      var i := 0;
      while i < |s|
        invariant 0 <= i <= |s|
        invariant 0 <= state <= 2
        invariant AddEntries(old(conversion), Entries(s)) == AddEntries(conversion, Pending(state, currentLetter, currentName, s[i..]))
      {
        var c := s[i];
        assert s[i..][0] == c && s[i..][1..] == s[i + 1..];
        if state == 0 {
          if IsWhiteSpace(c) || c == ',' {
          } else {
            currentLetter := c;
            state := 1;
          }
        } else if state == 1 {
          if c == ':' {
            state := 2;
            currentName := "";
          }
        } else {
          if c == ',' {
            if currentLetter in conversion {
              return Some(currentLetter);
            }
            conversion := conversion[currentLetter := currentName];
            state := 0;
          } else {
            currentName := currentName + [c];
          }
        }
        i := i + 1;
      }
      if state == 2 {
        if currentLetter in conversion {
          return Some(currentLetter);
        }
        conversion := conversion[currentLetter := currentName];
      }
      return None;
    }

    /**
     * The mode Load attaches for an observed-mode letter, as an index into
     * `modeNames` (the names of AllModes): the first mode when the letter is
     * not in the table, otherwise the first mode carrying the mapped name, and
     * none when no mode does.
     */
    method ObservedModeIndex(letter: char, modeNames: seq<string>) returns (r: Result<Option<nat>, LoadError>)
      ensures letter !in conversion ==> r == if |modeNames| == 0 then Err(ModeIndexOutOfRange) else Ok(Some(0))
      ensures letter in conversion ==> r.Ok?
      ensures letter in conversion && r.value.Some? ==>
        r.value.value < |modeNames| && modeNames[r.value.value] == conversion[letter] && conversion[letter] !in modeNames[..r.value.value]
      ensures letter in conversion && r.value.None? ==> conversion[letter] !in modeNames
    {
      if letter !in conversion {
        if |modeNames| == 0 {
          return Err(ModeIndexOutOfRange);
        }
        return Ok(Some(0));
      }
      var name := conversion[letter];
      var i := 0;
      while i < |modeNames|
        invariant 0 <= i <= |modeNames|
        invariant name !in modeNames[..i]
      {
        if modeNames[i] == name {
          return Ok(Some(i));
        }
        assert modeNames[..i + 1] == modeNames[..i] + [modeNames[i]];
        i := i + 1;
      }
      assert modeNames[..i] == modeNames;
      return Ok(None);
    }
  }

  /** The entries still to come from the scanner's state and the unread text. */
  function Pending(state: int, letter: char, name: string, t: string): seq<(char, string)>
  {
    if state == 0 then Entries(t)
    else if state == 1 then KeyEntries(letter, t)
    else NameEntries(letter, name, t)
  }
}
