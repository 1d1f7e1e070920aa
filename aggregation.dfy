/**
 * The Gibbs-sampler Aggregation join: secondary-attribute combinations are
 * encoded as one integer in mixed radix (each attribute's factor is the
 * product of the numbers of values of the attributes after it); an
 * aggregation file lists, per primary-attribute value, the accepted
 * combinations; the pool rows whose combination is accepted become that
 * value's candidates. Pool rows and file rows are sequences of integers.
 */
module Aggregation {
  import opened Common

  datatype Attribute = Attribute(name: string, possibleValues: nat)

  datatype Pool = Pool(name: string, attributes: seq<Attribute>, choices: seq<seq<int>>)

  // ---------------------------------------------------------------------
  // Mixed-radix factors
  // ---------------------------------------------------------------------

  /** The product of the numbers of values. */
  function Product(lengths: seq<nat>): nat
  {
    if lengths == [] then 1 else lengths[0] * Product(lengths[1..])
  }

  /**
   * BuildFactors, in place on the array of attribute lengths: each slot
   * becomes the product of the lengths after it, so the last becomes 1.
   */
  method BuildFactors(lengths: array<nat>)
    modifies lengths
    ensures forall i :: 0 <= i < lengths.Length ==> lengths[i] == Product(old(lengths[..])[i + 1..])
    ensures lengths.Length > 0 ==> lengths[lengths.Length - 1] == 1
  {
    ghost var original := lengths[..];
    var mul: nat := 1;
    var i := lengths.Length - 1;
    assert original[lengths.Length..] == [];
    while i >= 0
      invariant -1 <= i < lengths.Length
      invariant mul == Product(original[i + 1..])
      invariant forall j :: 0 <= j <= i ==> lengths[j] == original[j]
      invariant forall j :: i < j < lengths.Length ==> lengths[j] == Product(original[j + 1..])
    {
      var length := lengths[i];
      lengths[i] := mul;
      assert original[i..][1..] == original[i + 1..];
      mul := mul * length;
      i := i - 1;
    }
  }

  /** Σ combination[k] * factors[k] over k from i to the last factor. */
  function DotFrom(combination: seq<int>, factors: seq<int>, i: nat): (r: int)
    requires i <= |factors| <= |combination|
    ensures (forall k :: i <= k < |factors| ==> combination[k] >= 0 && factors[k] >= 0) ==> r >= 0
    decreases |factors| - i
  {
    if i == |factors| then 0 else combination[i] * factors[i] + DotFrom(combination, factors, i + 1)
  }

  /** GetIndex: the sum of each value times its factor, over all factors. */
  method GetIndex(combination: seq<int>, factors: seq<int>) returns (index: int)
    requires |combination| >= |factors|
    ensures index == DotFrom(combination, factors, 0)
  {
    index := 0;
    var i := 0;
    while i < |factors|
      invariant 0 <= i <= |factors|
      invariant index + DotFrom(combination, factors, i) == DotFrom(combination, factors, 0)
    {
      index := index + combination[i] * factors[i];
      i := i + 1;
    }
  }

  /** The factors BuildFactors produces for the given lengths. */
  function Factors(lengths: seq<nat>): (f: seq<int>)
    ensures |f| == |lengths|
    ensures forall i :: 0 <= i < |lengths| ==> f[i] == Product(lengths[i + 1..])
  {
    seq(|lengths|, i requires 0 <= i < |lengths| => Product(lengths[i + 1..]) as int)
  }

  /** Every value lies in its attribute's range. */
  ghost predicate InRange(combination: seq<int>, lengths: seq<nat>)
  {
    |combination| >= |lengths| && forall i :: 0 <= i < |lengths| ==> 0 <= combination[i] < lengths[i]
  }

  /** One mixed-radix digit: d * p + r stays below l * p when d < l and r < p. */
  lemma DigitBound(d: int, l: int, p: int, r: int)
    requires 0 <= d < l && 0 <= r < p
    ensures 0 <= d * p + r < l * p
  {
    MulSplit(d + 1, l - (d + 1), p);
    MulSplit(d, 1, p);
    MulNonnegative(l - (d + 1), p);
    MulNonnegative(d, p);
  }

  lemma MulSplit(a: int, b: int, p: int)
    ensures (a + b) * p == a * p + b * p
  {
  }

  lemma MulNonnegative(a: int, p: int)
    requires 0 <= a && 0 <= p
    ensures 0 <= a * p
  {
  }

  /** A smaller leading digit gives a smaller number, whatever the lower digits. */
  lemma DigitOrder(d1: int, r1: int, d2: int, r2: int, p: int)
    requires 0 <= r1 < p && 0 <= r2
    ensures d1 < d2 ==> d1 * p + r1 < d2 * p + r2
  {
    if d1 < d2 {
      MulSplit(d1 + 1, d2 - (d1 + 1), p);
      MulSplit(d1, 1, p);
      MulNonnegative(d2 - (d1 + 1), p);
    }
  }

  /** Two mixed-radix digits with remainders below p that give the same value are the same digit. */
  lemma SameDigit(d1: int, r1: int, d2: int, r2: int, p: int)
    requires 0 <= r1 < p && 0 <= r2 < p && d1 * p + r1 == d2 * p + r2
    ensures d1 == d2
  {
    DigitOrder(d1, r1, d2, r2, p);
    DigitOrder(d2, r2, d1, r1, p);
  }

  /** With in-range values, the encoding from position i lies in [0, Π lengths[i..]). */
  lemma {:induction false} EncodingBound(combination: seq<int>, lengths: seq<nat>, i: nat)
    requires InRange(combination, lengths) && i <= |lengths|
    ensures 0 <= DotFrom(combination, Factors(lengths), i) < Product(lengths[i..])
    decreases |lengths| - i
  {
    if i < |lengths| {
      EncodingBound(combination, lengths, i + 1);
      assert lengths[i..][1..] == lengths[i + 1..];
      DigitBound(combination[i], lengths[i], Product(lengths[i + 1..]), DotFrom(combination, Factors(lengths), i + 1));
    } else {
      assert lengths[i..] == [];
    }
  }

  /** GetIndex over BuildFactors is a mixed-radix encoding: in range, and one-to-one on in-range values. */
  lemma {:induction false} EncodingInjective(a: seq<int>, b: seq<int>, lengths: seq<nat>, i: nat)
    requires InRange(a, lengths) && InRange(b, lengths) && i <= |lengths|
    requires DotFrom(a, Factors(lengths), i) == DotFrom(b, Factors(lengths), i)
    ensures a[i..|lengths|] == b[i..|lengths|]
    decreases |lengths| - i
  {
    if i < |lengths| {
      LeadingDigitEqual(a, b, lengths, i);
      EncodingInjective(a, b, lengths, i + 1);
      assert a[i..|lengths|] == [a[i]] + a[i + 1..|lengths|];
      assert b[i..|lengths|] == [b[i]] + b[i + 1..|lengths|];
    }
  }

  /** Equal encodings from position i have the same digit at i, and equal encodings after it. */
  lemma LeadingDigitEqual(a: seq<int>, b: seq<int>, lengths: seq<nat>, i: nat)
    requires InRange(a, lengths) && InRange(b, lengths) && i < |lengths|
    requires DotFrom(a, Factors(lengths), i) == DotFrom(b, Factors(lengths), i)
    ensures a[i] == b[i] && DotFrom(a, Factors(lengths), i + 1) == DotFrom(b, Factors(lengths), i + 1)
  {
    var p := Product(lengths[i + 1..]);
    var ra := DotFrom(a, Factors(lengths), i + 1);
    var rb := DotFrom(b, Factors(lengths), i + 1);
    EncodingBound(a, lengths, i + 1);
    EncodingBound(b, lengths, i + 1);
    assert Factors(lengths)[i] == p;
    SameDigit(a[i], ra, b[i], rb, p);
  }

  /** Two in-range combinations with the same index are the same combination. */
  lemma EncodingOneToOne(a: seq<int>, b: seq<int>, lengths: seq<nat>)
    requires InRange(a, lengths) && InRange(b, lengths)
    ensures 0 <= DotFrom(a, Factors(lengths), 0) < Product(lengths)
    ensures DotFrom(a, Factors(lengths), 0) == DotFrom(b, Factors(lengths), 0) ==> a[..|lengths|] == b[..|lengths|]
  {
    EncodingBound(a, lengths, 0);
    assert lengths[0..] == lengths;
    if DotFrom(a, Factors(lengths), 0) == DotFrom(b, Factors(lengths), 0) {
      EncodingInjective(a, b, lengths, 0);
      assert a[0..|lengths|] == a[..|lengths|];
      assert b[0..|lengths|] == b[..|lengths|];
    }
  }

  // ---------------------------------------------------------------------
  // Columns and validation
  // ---------------------------------------------------------------------

  /** Array.IndexOf over the pool's attributes, or -1. */
  function IndexOfAttribute(attributes: seq<Attribute>, a: Attribute): (r: int)
    ensures -1 <= r < |attributes|
    ensures r >= 0 ==> attributes[r] == a && forall k :: 0 <= k < r ==> attributes[k] != a
    ensures r == -1 <==> a !in attributes
  {
    if attributes == [] then -1
    else if attributes[0] == a then 0
    else
      var k := IndexOfAttribute(attributes[1..], a);
      if k == -1 then -1 else k + 1
  }

  /** The first element whose name is the given one, as FirstOrDefault. */
  function FirstNamed<T>(xs: seq<T>, nameOf: T -> string, name: string): (r: Option<nat>)
    ensures r.Some? ==> (r.value < |xs| && nameOf(xs[r.value]) == name
      && forall k :: 0 <= k < r.value ==> nameOf(xs[k]) != name)
    ensures r.None? ==> forall k :: 0 <= k < |xs| ==> nameOf(xs[k]) != name
  {
    if xs == [] then None
    else if nameOf(xs[0]) == name then Some(0)
    else match FirstNamed(xs[1..], nameOf, name)
      case None => None
      case Some(k) => Some(k + 1)
  }

  function AttributeName(a: Attribute): string { a.name }

  function PoolName(p: Pool): string { p.name }

  /** The first attribute with the given name. */
  function FindAttribute(attributes: seq<Attribute>, name: string): Option<nat>
  {
    FirstNamed(attributes, AttributeName, name)
  }

  /** The first pool with the given name. */
  function FindPool(pools: seq<Pool>, name: string): Option<nat>
  {
    FirstNamed(pools, PoolName, name)
  }

  /** Aggregation.RuntimeValidation: the primary pool must exist. */
  function ValidatePrimaryPool(moduleName: string, pools: seq<Pool>, primaryPoolName: string): (r: Result<nat, string>)
    ensures r.Ok? <==> FindPool(pools, primaryPoolName).Some?
    ensures r.Ok? ==> r.value < |pools| && pools[r.value].name == primaryPoolName
  {
    match FindPool(pools, primaryPoolName)
      case None => Err("In '" + moduleName + "' we were unable to find a pool with the name '" + primaryPoolName + "'.")
      case Some(p) => Ok(p)
  }

  /** What a join's validation binds: the secondary pool, the primary attribute, the secondary attributes. */
  datatype Binding = Binding(secondaryPool: nat, primaryAttribute: nat, secondaryAttributes: seq<nat>)

  /** The first secondary attribute name the pool does not have. */
  function MissingName(attributes: seq<Attribute>, names: seq<string>): (r: Option<nat>)
    ensures r.Some? ==> (r.value < |names| && FindAttribute(attributes, names[r.value]).None?
      && forall k :: 0 <= k < r.value ==> FindAttribute(attributes, names[k]).Some?)
    ensures r.None? ==> forall k :: 0 <= k < |names| ==> FindAttribute(attributes, names[k]).Some?
  {
    if names == [] then None
    else if FindAttribute(attributes, names[0]).None? then Some(0)
    else match MissingName(attributes, names[1..])
      case None => None
      case Some(k) => Some(k + 1)
  }

  /**
   * Join.RuntimeValidation: the secondary pool, then the primary attribute
   * in the primary pool, then every secondary attribute in the secondary
   * pool must be found by name; the first that is not names the error.
   * `secondaryPoolModule` is the name of the module holding the secondary
   * pool's name, which the last message quotes.
   */
  function ValidateJoin(joinName: string, pools: seq<Pool>, primaryPool: Pool, secondaryPoolName: string,
                        primaryAttributeName: string, secondaryNames: seq<string>, secondaryPoolModule: string): (r: Result<Binding, string>)
    ensures r.Ok? <==>
      FindPool(pools, secondaryPoolName).Some?
      && FindAttribute(primaryPool.attributes, primaryAttributeName).Some?
      && forall k :: 0 <= k < |secondaryNames| ==> FindAttribute(pools[FindPool(pools, secondaryPoolName).value].attributes, secondaryNames[k]).Some?
    ensures r.Ok? ==> r.value.secondaryPool < |pools| && r.value.primaryAttribute < |primaryPool.attributes|
    ensures r.Ok? ==>
      var pool := pools[r.value.secondaryPool];
      pool.name == secondaryPoolName
      && primaryPool.attributes[r.value.primaryAttribute].name == primaryAttributeName
      && |r.value.secondaryAttributes| == |secondaryNames|
      && forall k :: 0 <= k < |secondaryNames| ==>
        r.value.secondaryAttributes[k] < |pool.attributes| && pool.attributes[r.value.secondaryAttributes[k]].name == secondaryNames[k]
  {
    match FindPool(pools, secondaryPoolName)
      case None => Err("In '" + joinName + "' we were unable to find a pool with the name '" + secondaryPoolName + "'.")
      case Some(s) =>
        match FindAttribute(primaryPool.attributes, primaryAttributeName)
          case None =>
            Err("In '" + joinName + " we were unable to find an attribute called '" + primaryAttributeName + "' in the pool '" + primaryPool.name + "'.'")
          case Some(a) =>
            var attributes := pools[s].attributes;
            match MissingName(attributes, secondaryNames)
              case Some(k) =>
                Err("In '" + joinName + "' we were unable to find an attribute named '" + secondaryNames[k] + "' in the pool '" + secondaryPoolModule + "'")
              case None =>
                Ok(Binding(s, a, seq(|secondaryNames|, k requires 0 <= k < |secondaryNames| => FindAttribute(attributes, secondaryNames[k]).value)))
  }

  /** The pool column of each bound secondary attribute, as Execute computes them with Array.IndexOf. */
  function Columns(pool: Pool, bound: seq<nat>): (columns: seq<int>)
    requires forall k :: 0 <= k < |bound| ==> bound[k] < |pool.attributes|
    ensures |columns| == |bound|
    ensures forall k :: 0 <= k < |bound| ==> 0 <= columns[k] <= bound[k] && pool.attributes[columns[k]] == pool.attributes[bound[k]]
  {
    seq(|bound|, k requires 0 <= k < |bound| => IndexOfAttribute(pool.attributes, pool.attributes[bound[k]]))
  }

  /**
   * EnsureAllColumnsExist: the first negative column stops the join with a
   * message naming its attribute; otherwise nothing happens.
   */
  method EnsureAllColumnsExist(joinName: string, poolName: string, attributeNames: seq<string>, columns: seq<int>) returns (r: Result<(), string>)
    requires |attributeNames| == |columns|
    ensures r.Ok? <==> forall k :: 0 <= k < |columns| ==> columns[k] >= 0
    ensures r.Err? ==> exists k :: (0 <= k < |columns| && columns[k] < 0
      && (forall j :: 0 <= j < k ==> columns[j] >= 0)
      && r.error == "In '" + joinName + "' an attribute named '" + attributeNames[k] + "' was not found in the pool '" + poolName + "'!")
  {
    var i := 0;
    while i < |columns|
      invariant 0 <= i <= |columns|
      invariant forall k :: 0 <= k < i ==> columns[k] >= 0
    {
      if columns[i] < 0 {
        return Err("In '" + joinName + "' an attribute named '" + attributeNames[i] + "' was not found in the pool '" + poolName + "'!");
      }
      i := i + 1;
    }
    return Ok(());
  }

  /** After a successful validation every column exists, so EnsureAllColumnsExist never fails. */
  lemma ValidatedColumnsExist(pool: Pool, bound: seq<nat>)
    requires forall k :: 0 <= k < |bound| ==> bound[k] < |pool.attributes|
    ensures forall k :: 0 <= k < |bound| ==> Columns(pool, bound)[k] >= 0
  {
  }

  // ---------------------------------------------------------------------
  // The aggregation file
  // ---------------------------------------------------------------------

  datatype LoadError = PrimaryIndexOutOfRange(row: nat)

  /**
   * The combination index of an aggregation-file row as written: every
   * field after the first is multiplied by the factor before its position,
   * so a row with more fields than factors + 1 indexes past the factors.
   */
  function RowIndexAsWritten(row: seq<int>, factors: seq<int>): (r: Option<int>)
    requires |row| >= 1
    ensures r.Some? <==> |row| - 1 <= |factors|
  {
    if |row| - 1 > |factors| then None
    else Some(DotFrom(row[1..], factors[..|row| - 1], 0))
  }

  /** The combination index of a row: its fields after the first, one per factor, encoded. */
  function RowIndex(row: seq<int>, factors: seq<int>): (r: int)
    requires |row| >= |factors| + 1
    ensures r == DotFrom(row[1..|factors| + 1], factors, 0)
  {
    DotPrefix(row[1..], row[1..|factors| + 1], factors, 0);
    DotFrom(row[1..], factors, 0)
  }

  /** A row with exactly the expected fields has the same index both ways. */
  lemma RowIndexAgrees(row: seq<int>, factors: seq<int>)
    requires |row| == |factors| + 1
    ensures RowIndexAsWritten(row, factors) == Some(RowIndex(row, factors))
  {
    assert factors[..|row| - 1] == factors;
  }

  /** One extra field: the loop as written reaches past the last factor, while the intended index ignores the extra field. */
  lemma ExtraFieldOverrunsFactors()
    ensures RowIndexAsWritten([0, 1, 7], [1]) == None
    ensures RowIndex([0, 1, 7], [1]) == 1
  {
    assert [0, 1, 7][1..] == [1, 7];
  }

  /**
   * The accepted combinations per primary value after the given data rows
   * (the header already skipped): rows with fewer than columns + 1 fields
   * are skipped; every other row appends its combination index to the list
   * of the primary value in its first field, which must be in range.
   */
  function Accepted(rows: seq<seq<int>>, values: nat, factors: seq<int>): (r: Result<seq<seq<int>>, LoadError>)
    ensures r.Ok? ==> |r.value| == values
    ensures r.Err? ==> r.error.row < |rows|
  {
    if rows == [] then Ok(seq(values, _ => []))
    else
      var n := |rows| - 1;
      match Accepted(rows[..n], values, factors)
        case Err(e) => Err(e)
        case Ok(lists) =>
          var row := rows[n];
          if |row| < |factors| + 1 then Ok(lists)
          else if !(0 <= row[0] < values) then Err(PrimaryIndexOutOfRange(n))
          else Ok(lists[row[0] := lists[row[0]] + [RowIndex(row, factors)]])
  }

  /** A row that is read lands in exactly one list, at its end; the other lists are untouched. */
  lemma AcceptedStep(rows: seq<seq<int>>, row: seq<int>, values: nat, factors: seq<int>)
    requires Accepted(rows, values, factors).Ok? && |row| >= |factors| + 1 && 0 <= row[0] < values
    ensures var before := Accepted(rows, values, factors).value;
      var after := Accepted(rows + [row], values, factors);
      after.Ok? && after.value[row[0]] == before[row[0]] + [RowIndex(row, factors)]
      && forall v :: 0 <= v < values && v != row[0] ==> after.value[v] == before[v]
  {
    assert (rows + [row])[..|rows|] == rows;
  }

  /** A short row changes nothing. */
  lemma AcceptedSkipsShortRow(rows: seq<seq<int>>, row: seq<int>, values: nat, factors: seq<int>)
    requires |row| < |factors| + 1
    ensures Accepted(rows + [row], values, factors) == Accepted(rows, values, factors)
  {
    assert (rows + [row])[..|rows|] == rows;
  }

  /** A data row that is read rather than skipped: it has a field per factor after the primary value. */
  predicate Wide(row: seq<int>, factors: seq<int>)
  {
    |row| >= |factors| + 1
  }

  /** The codes of the read rows whose primary value is `v`, in file order. */
  function CodesOf(rows: seq<seq<int>>, v: int, factors: seq<int>): (r: seq<int>)
    ensures |r| <= |rows|
  {
    if rows == [] then []
    else
      var n := |rows| - 1;
      var row := rows[n];
      CodesOf(rows[..n], v, factors) + (if Wide(row, factors) && row[0] == v then [RowIndex(row, factors)] else [])
  }

  /**
   * What Accepted means: the read fails exactly when some read row has a
   * primary value out of range, and then at the first such row; otherwise the
   * list of each primary value holds the codes of its rows, in file order.
   */
  lemma {:induction false} AcceptedMeaning(rows: seq<seq<int>>, values: nat, factors: seq<int>)
    ensures Accepted(rows, values, factors).Ok? <==>
      forall k :: 0 <= k < |rows| && Wide(rows[k], factors) ==> 0 <= rows[k][0] < values
    ensures Accepted(rows, values, factors).Ok? ==>
      forall v :: 0 <= v < values ==> Accepted(rows, values, factors).value[v] == CodesOf(rows, v, factors)
    ensures Accepted(rows, values, factors).Err? ==>
      var e := Accepted(rows, values, factors).error.row;
      e < |rows| && Wide(rows[e], factors) && !(0 <= rows[e][0] < values)
      && forall k :: 0 <= k < e && Wide(rows[k], factors) ==> 0 <= rows[k][0] < values
  {
    if rows != [] {
      var n := |rows| - 1;
      AcceptedMeaning(rows[..n], values, factors);
      assert forall k :: 0 <= k < n ==> rows[..n][k] == rows[k];
    }
  }

  /**
   * LoadAggregationFile: skip the header line, then read every row as
   * Accepted says.
   */
  method LoadAggregationFile(lines: seq<seq<int>>, values: nat, factors: seq<int>) returns (r: Result<seq<seq<int>>, LoadError>)
    ensures r == Accepted(if |lines| == 0 then [] else lines[1..], values, factors)
  {
    var rows := if |lines| == 0 then [] else lines[1..];
    var acceptedCombinations: seq<seq<int>> := seq(values, _ => []);
    var expectedColumns := |factors| + 1;
    var i := 0;
    while i < |rows|
      invariant 0 <= i <= |rows|
      invariant Accepted(rows[..i], values, factors) == Ok(acceptedCombinations)
    {
      assert rows[..i + 1][..i] == rows[..i];
      var row := rows[i];
      if |row| >= expectedColumns {
        var primaryIndex := row[0];
        if !(0 <= primaryIndex < values) {
          assert Accepted(rows[..i + 1], values, factors) == Err(PrimaryIndexOutOfRange(i));
          AcceptedStaysFailed(rows, i + 1, values, factors);
          return Err(PrimaryIndexOutOfRange(i));
        }
        var index := GetIndex(row[1..], factors);
        acceptedCombinations := acceptedCombinations[primaryIndex := acceptedCombinations[primaryIndex] + [index]];
      }
      i := i + 1;
    }
    assert rows[..i] == rows;
    return Ok(acceptedCombinations);
  }

  /** Once a prefix of the rows fails, the whole file fails the same way. */
  lemma {:induction false} AcceptedStaysFailed(rows: seq<seq<int>>, k: nat, values: nat, factors: seq<int>)
    requires k <= |rows| && Accepted(rows[..k], values, factors).Err?
    ensures Accepted(rows, values, factors) == Accepted(rows[..k], values, factors)
    decreases |rows| - k
  {
    if k < |rows| {
      assert rows[..k + 1][..k] == rows[..k];
      AcceptedStaysFailed(rows, k + 1, values, factors);
    } else {
      assert rows[..k] == rows;
    }
  }

  // ---------------------------------------------------------------------
  // Candidates
  // ---------------------------------------------------------------------

  /** Every one of the columns is a column of the pool row. */
  predicate Fits(rep: seq<int>, columns: seq<int>)
  {
    forall k :: 0 <= k < |columns| ==> 0 <= columns[k] < |rep|
  }

  /** The pool row's values in the columns encode to an accepted combination. */
  predicate Selected(rep: seq<int>, columns: seq<int>, factors: seq<int>, acceptedSet: seq<int>)
  {
    Fits(rep, columns) && |factors| <= |columns| && DotFrom(Project(rep, columns), factors, 0) in acceptedSet
  }

  /** The members of a non-empty sequence are those of its front and its last element. */
  lemma FrontMembers<T>(s: seq<T>)
    requires s != []
    ensures forall x :: x in s[..|s| - 1] ==> x in s
    ensures forall x :: x in s ==> x in s[..|s| - 1] || x == s[|s| - 1]
  {
    assert s == s[..|s| - 1] + [s[|s| - 1]];
  }

  /** A pool row's values in the secondary attributes' columns. */
  function Project(rep: seq<int>, columns: seq<int>): (r: seq<int>)
    requires Fits(rep, columns)
    ensures |r| == |columns| && forall k :: 0 <= k < |columns| ==> r[k] == rep[columns[k]]
  {
    seq(|columns|, k requires 0 <= k < |columns| => rep[columns[k]])
  }

  /**
   * SeperatePoolsToPrimaryAttributeValue as written: a pool row's index is
   * taken from its first values, position by position, whatever columns
   * the secondary attributes occupy in the pool.
   */
  function CandidatesAsWritten(choices: seq<seq<int>>, factors: seq<int>, acceptedSet: seq<int>): (r: seq<seq<int>>)
    requires forall c :: c in choices ==> |c| >= |factors|
    ensures forall c :: c in r ==> c in choices && DotFrom(c, factors, 0) in acceptedSet
    ensures forall c :: c in choices && DotFrom(c, factors, 0) in acceptedSet ==> c in r
    ensures |r| <= |choices|
  {
    if choices == [] then []
    else
      var n := |choices| - 1;
      FrontMembers(choices);
      CandidatesAsWritten(choices[..n], factors, acceptedSet)
      + (if DotFrom(choices[n], factors, 0) in acceptedSet then [choices[n]] else [])
  }

  /**
   * The candidates for one primary value: the pool rows whose values in the
   * secondary attributes' columns encode to an accepted combination.
   */
  function Candidates(choices: seq<seq<int>>, columns: seq<int>, factors: seq<int>, acceptedSet: seq<int>): (r: seq<seq<int>>)
    requires |factors| == |columns|
    requires forall c :: c in choices ==> Fits(c, columns)
    ensures forall c :: c in r ==> c in choices && Selected(c, columns, factors, acceptedSet)
    ensures forall c :: c in choices && Selected(c, columns, factors, acceptedSet) ==> c in r
    ensures |r| <= |choices|
  {
    if choices == [] then []
    else
      var n := |choices| - 1;
      FrontMembers(choices);
      var before := Candidates(choices[..n], columns, factors, acceptedSet);
      before + (if Selected(choices[n], columns, factors, acceptedSet) then [choices[n]] else [])
  }

  /**
   * A pool whose attributes are A then B, joined on B alone: the row (0, 1)
   * has B = 1, an accepted combination, yet as written its index is read
   * from A and the row is not a candidate.
   */
  lemma ColumnIgnoredAsWritten()
    ensures CandidatesAsWritten([[0, 1]], [1], [1]) == []
    ensures Candidates([[0, 1]], [1], [1], [1]) == [[0, 1]]
  {
    SampleRowReadFromA([[0, 1]]);
    SampleRowReadFromB([[0, 1]]);
  }

  /** The first half of ColumnIgnoredAsWritten: as written, the row's code is read from A, which is 0. */
  lemma SampleRowReadFromA(choices: seq<seq<int>>)
    requires choices == [[0, 1]]
    ensures CandidatesAsWritten(choices, [1], [1]) == []
  {
    assert choices[..0] == [];
    assert DotFrom([0, 1], [1], 0) == 0;
  }

  /** The second half: read from the joined column B, the row's code is 1. */
  lemma SampleRowReadFromB(choices: seq<seq<int>>)
    requires choices == [[0, 1]]
    ensures Candidates(choices, [1], [1], [1]) == [[0, 1]]
  {
    assert choices[..0] == [];
    assert Project([0, 1], [1]) == [1];
    assert DotFrom([1], [1], 0) == 1;
  }

  /** When the secondary attributes are the pool's first columns in order, both readings agree. */
  lemma {:induction false} CandidatesAgreeOnLeadingColumns(choices: seq<seq<int>>, factors: seq<int>, acceptedSet: seq<int>)
    requires forall c :: c in choices ==> |c| >= |factors|
    ensures Candidates(choices, seq(|factors|, k => k), factors, acceptedSet) == CandidatesAsWritten(choices, factors, acceptedSet)
    decreases |choices|
  {
    var columns := seq(|factors|, k => k);
    if choices != [] {
      var n := |choices| - 1;
      FrontMembers(choices);
      LeadingColumnsFit(choices, factors);
      CandidatesAgreeOnLeadingColumns(choices[..n], factors, acceptedSet);
      LeadingSelected(choices[n], factors, acceptedSet);
    }
  }

  lemma LeadingColumnsFit(choices: seq<seq<int>>, factors: seq<int>)
    requires forall c :: c in choices ==> |c| >= |factors|
    ensures forall c :: c in choices ==> Fits(c, seq(|factors|, k => k))
  {
  }

  /** On the leading columns, a row is selected exactly when its leading values encode to an accepted code. */
  lemma LeadingSelected(rep: seq<int>, factors: seq<int>, acceptedSet: seq<int>)
    requires |rep| >= |factors|
    ensures Selected(rep, seq(|factors|, k => k), factors, acceptedSet) <==> DotFrom(rep, factors, 0) in acceptedSet
  {
    var columns := seq(|factors|, k => k);
    DotPrefix(Project(rep, columns), rep, factors, 0);
  }

  /** The encoding reads only the first |factors| values. */
  lemma {:induction false} DotPrefix(a: seq<int>, b: seq<int>, factors: seq<int>, i: nat)
    requires i <= |factors| <= |a| && |factors| <= |b|
    requires forall k :: 0 <= k < |factors| ==> a[k] == b[k]
    ensures DotFrom(a, factors, i) == DotFrom(b, factors, i)
    decreases |factors| - i
  {
    if i < |factors| {
      DotPrefix(a, b, factors, i + 1);
    }
  }

  /** The candidates of every primary value, in primary-value order. */
  function CandidatesByValue(choices: seq<seq<int>>, columns: seq<int>, factors: seq<int>, accepted: seq<seq<int>>): (r: seq<seq<seq<int>>>)
    requires |factors| == |columns|
    requires forall c :: c in choices ==> Fits(c, columns)
    ensures |r| == |accepted| && forall v :: 0 <= v < |accepted| ==> r[v] == Candidates(choices, columns, factors, accepted[v])
  {
    seq(|accepted|, v requires 0 <= v < |accepted| => Candidates(choices, columns, factors, accepted[v]))
  }

  /**
   * The records Execute writes a line for: those whose primary value has at
   * least one candidate, in record order. The random pick among the
   * candidates is not part of this model.
   */
  method WrittenRecords(primaryValues: seq<int>, candidatesByValue: seq<seq<seq<int>>>) returns (r: Result<seq<nat>, nat>)
    ensures r.Ok? ==> (forall k :: 0 <= k < |primaryValues| ==> 0 <= primaryValues[k] < |candidatesByValue|)
    ensures r.Ok? ==> forall i :: 0 <= i < |primaryValues| ==> (i in r.value <==> |candidatesByValue[primaryValues[i]]| > 0)
    ensures r.Ok? ==> forall a, b :: 0 <= a < b < |r.value| ==> r.value[a] < r.value[b]
    ensures r.Err? ==> (r.error < |primaryValues| && !(0 <= primaryValues[r.error] < |candidatesByValue|)
      && forall k :: 0 <= k < r.error ==> 0 <= primaryValues[k] < |candidatesByValue|)
  {
    var written: seq<nat> := [];
    var i := 0;
    while i < |primaryValues|
      invariant 0 <= i <= |primaryValues|
      invariant forall k :: 0 <= k < i ==> 0 <= primaryValues[k] < |candidatesByValue|
      invariant forall k :: 0 <= k < |written| ==> written[k] < i
      invariant forall k :: 0 <= k < i ==> (k in written <==> |candidatesByValue[primaryValues[k]]| > 0)
      invariant forall a, b :: 0 <= a < b < |written| ==> written[a] < written[b]
    {
      var index := primaryValues[i];
      if !(0 <= index < |candidatesByValue|) {
        return Err(i);
      }
      if |candidatesByValue[index]| > 0 {
        written := written + [i];
      }
      i := i + 1;
    }
    return Ok(written);
  }
}
