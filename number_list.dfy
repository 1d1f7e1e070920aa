/**
 * TMG.DataUtility.NumberList: a fixed list of Int32 values read from text
 * such as "1, 2,3\t4". Numbers are separated by tabs, spaces or commas; the
 * digits of a number accumulate with Int32 wrap-around; a newline or any other
 * character stops the parse with an error. The list cannot grow or shrink.
 */
module NumberList {
  import opened Common

  const TwoTo31: int := 0x8000_0000
  const TwoTo32: int := 0x1_0000_0000

  /** C#'s unchecked Int32 arithmetic: the value in [-2^31, 2^31) congruent to x modulo 2^32. */
  function Wrap32(x: int): (r: int)
    ensures -TwoTo31 <= r < TwoTo31
    ensures -TwoTo31 <= x < TwoTo31 ==> r == x
  {
    (x + TwoTo31) % TwoTo32 - TwoTo31
  }

  lemma Wrap32Shift(x: int, k: int)
    ensures Wrap32(x + k * TwoTo32) == Wrap32(x)
  {
    var a := x + TwoTo31;
    var q := a / TwoTo32;
    assert a == q * TwoTo32 + a % TwoTo32;
    assert a + k * TwoTo32 == (q + k) * TwoTo32 + a % TwoTo32;
    assert (a + k * TwoTo32) % TwoTo32 == a % TwoTo32;
  }

  /** Wrapping after every step of `n * 10 + d` is the same as wrapping once at the end. */
  lemma Wrap32Step(x: int, d: int)
    ensures Wrap32(Wrap32(x) * 10 + d) == Wrap32(x * 10 + d)
  {
    var a := x + TwoTo31;
    var q := a / TwoTo32;
    assert a == q * TwoTo32 + a % TwoTo32;
    assert Wrap32(x) == x - q * TwoTo32;
    assert Wrap32(x) * 10 + d == x * 10 + d + (-10 * q) * TwoTo32;
    Wrap32Shift(x * 10 + d, -10 * q);
  }

  // ---------------------------------------------------------------------
  // The text format
  // ---------------------------------------------------------------------

  /** The characters NumberList treats as white space between numbers. */
  predicate IsSeparator(c: char)
  {
    c == '\t' || c == ' ' || c == ','
  }

  predicate IsNewline(c: char)
  {
    c == '\n' || c == '\r'
  }

  /** A character that can be neither part of a number nor between numbers. */
  predicate IsBad(c: char)
  {
    !IsSeparator(c) && !IsDigit(c)
  }

  predicate NoBad(s: string)
  {
    forall j :: 0 <= j < |s| ==> !IsBad(s[j])
  }

  /** The length of the run of non-separators that starts `s`. */
  function RunLength(s: string): (k: nat)
    ensures k <= |s|
    ensures forall j :: 0 <= j < k ==> !IsSeparator(s[j])
    ensures k < |s| ==> IsSeparator(s[k])
  {
    if s == [] || IsSeparator(s[0]) then 0 else 1 + RunLength(s[1..])
  }

  /** The maximal runs of non-separator characters of `s`, in order. */
  function Fields(s: string): (fs: seq<string>)
    ensures forall i :: 0 <= i < |fs| ==> |fs[i]| > 0
    ensures NoBad(s) ==> forall i :: 0 <= i < |fs| ==> AllDigits(fs[i])
    decreases |s|
  {
    if s == [] then []
    else if IsSeparator(s[0]) then Fields(s[1..])
    else
      var k := RunLength(s);
      assert NoBad(s) ==> NoBad(s[k..]);
      [s[..k]] + Fields(s[k..])
  }

  /** The position of the first character that can be neither digit nor separator. */
  function FirstBad(s: string): (r: Option<nat>)
    ensures r.None? <==> NoBad(s)
    ensures r.Some? ==> r.value < |s| && IsBad(s[r.value]) && NoBad(s[..r.value])
  {
    if s == [] then None
    else if IsBad(s[0]) then Some(0)
    else match FirstBad(s[1..])
      case None => None
      case Some(k) =>
        assert s[..k + 1] == [s[0]] + s[1..][..k];
        Some(k + 1)
  }

  /** The value TryParse accumulates for a run of digits: `number * 10 + digit`, wrapping. */
  function Accumulate(s: string): int
    requires AllDigits(s)
  {
    if s == [] then 0 else Wrap32(Accumulate(s[..|s| - 1]) * 10 + DigitValue(s[|s| - 1]))
  }

  function FieldValues(fs: seq<string>): (vs: seq<int>)
    requires forall i :: 0 <= i < |fs| ==> AllDigits(fs[i])
    ensures |vs| == |fs| && forall i :: 0 <= i < |fs| ==> vs[i] == Accumulate(fs[i])
  {
    seq(|fs|, i requires 0 <= i < |fs| => Accumulate(fs[i]))
  }

  lemma FieldValuesSnoc(fs: seq<string>, f: string)
    requires forall i :: 0 <= i < |fs| ==> AllDigits(fs[i])
    requires AllDigits(f)
    ensures FieldValues(fs + [f]) == FieldValues(fs) + [Accumulate(f)]
  {
  }

  datatype ParseError = UnexpectedNewline | UnexpectedCharacter(c: char)

  function ParseErrorMessage(e: ParseError): string
  {
    match e
      case UnexpectedNewline => "Unexpected newline while trying to read in a number string!"
      case UnexpectedCharacter(c) => "We found a(n) '" + [c] + "' while trying to read a number!"
  }

  /**
   * What TryParse makes of a text: the first character that fits neither a
   * number nor a gap is an error; otherwise one number per field.
   */
  function Parse(s: string): (r: Result<seq<int>, ParseError>)
    ensures r.Ok? <==> NoBad(s)
    ensures r.Err? ==> (exists k :: 0 <= k < |s| && NoBad(s[..k]) && IsBad(s[k])
                                  && r.error == (if IsNewline(s[k]) then UnexpectedNewline else UnexpectedCharacter(s[k])))
    ensures r.Ok? ==> |r.value| == |Fields(s)| && forall i :: 0 <= i < |r.value| ==> -TwoTo31 <= r.value[i] < TwoTo31
  {
    match FirstBad(s)
      case Some(k) => Err(if IsNewline(s[k]) then UnexpectedNewline else UnexpectedCharacter(s[k]))
      case None => Ok(FieldValues(Fields(s)))
  }

  // ---------------------------------------------------------------------
  // Properties of the format
  // ---------------------------------------------------------------------

  /** The accumulated value is the decimal value of the digits, wrapped to 32 bits once. */
  lemma {:induction false} AccumulateIsWrappedDecimal(s: string)
    requires AllDigits(s)
    ensures Accumulate(s) == Wrap32(DecimalValue(s))
  {
    if s != [] {
      var p := s[..|s| - 1];
      AccumulateIsWrappedDecimal(p);
      Wrap32Step(DecimalValue(p), DigitValue(s[|s| - 1]));
    }
  }

  /** Numbers below 2^31 are read exactly. */
  lemma AccumulateExact(s: string)
    requires AllDigits(s) && DecimalValue(s) < TwoTo31
    ensures Accumulate(s) == DecimalValue(s)
  {
    AccumulateIsWrappedDecimal(s);
  }

  /** Separators before a text do not change its fields. */
  lemma {:induction false} FieldsSkipSeparators(s: string, k: nat)
    requires k <= |s| && forall j :: 0 <= j < k ==> IsSeparator(s[j])
    ensures Fields(s) == Fields(s[k..])
  {
    if k > 0 {
      assert s[1..][..k - 1] == s[1..k];
      assert s[1..][k - 1..] == s[k..];
      FieldsSkipSeparators(s[1..], k - 1);
    }
  }

  /** A maximal run of non-separators at the front of a text is its first field. */
  lemma FieldsRun(s: string, k: nat)
    requires 0 < k <= |s|
    requires forall j :: 0 <= j < k ==> !IsSeparator(s[j])
    requires k == |s| || IsSeparator(s[k])
    ensures Fields(s) == [s[..k]] + Fields(s[k..])
  {
    RunLengthIs(s, k);
  }

  /** FieldsRun for the run from `start` to `end` inside a larger text. */
  lemma FieldsRunAt(s: string, start: nat, end: nat)
    requires start < end <= |s|
    requires forall j :: start <= j < end ==> IsDigit(s[j])
    requires end == |s| || IsSeparator(s[end])
    ensures Fields(s[start..]) == [s[start..end]] + Fields(s[end..])
  {
    var t := s[start..];
    FieldsRun(t, end - start);
    assert t[..end - start] == s[start..end];
    assert t[end - start..] == s[end..];
  }

  /** FieldsSkipSeparators for the separators from `i` to `j` inside a larger text. */
  lemma FieldsSkipAt(s: string, i: nat, j: nat)
    requires i <= j <= |s|
    requires forall k :: i <= k < j ==> IsSeparator(s[k])
    ensures Fields(s[i..]) == Fields(s[j..])
  {
    var t := s[i..];
    FieldsSkipSeparators(t, j - i);
    assert t[j - i..] == s[j..];
  }

  /** One round of TryParse's outer loop: a number, then the gap after it. */
  lemma FieldsStep(s: string, done: seq<string>, start: nat, end: nat, next: nat)
    requires start < end <= next <= |s|
    requires Fields(s) == done + Fields(s[start..])
    requires forall j :: 0 <= j < start ==> !IsBad(s[j])
    requires forall j :: start <= j < end ==> IsDigit(s[j])
    requires end == |s| || IsSeparator(s[end])
    requires forall k :: end <= k < next ==> IsSeparator(s[k])
    ensures AllDigits(s[start..end])
    ensures Fields(s) == (done + [s[start..end]]) + Fields(s[next..])
    ensures forall j :: 0 <= j < next ==> !IsBad(s[j])
  {
    FieldsStepDigits(s, start, end, next);
    FieldsStepSplit(s, done, start, end, next);
  }

  lemma FieldsStepDigits(s: string, start: nat, end: nat, next: nat)
    requires start < end <= next <= |s|
    requires forall j :: 0 <= j < start ==> !IsBad(s[j])
    requires forall j :: start <= j < end ==> IsDigit(s[j])
    requires forall k :: end <= k < next ==> IsSeparator(s[k])
    ensures AllDigits(s[start..end])
    ensures forall j :: 0 <= j < next ==> !IsBad(s[j])
  {
    var field := s[start..end];
    forall i | 0 <= i < |field|
      ensures IsDigit(field[i])
    {
      assert field[i] == s[start + i];
    }
    forall j | 0 <= j < next
      ensures !IsBad(s[j])
    {
      if j >= end {
        assert IsSeparator(s[j]);
      } else if j >= start {
        assert IsDigit(s[j]);
      }
    }
  }

  lemma FieldsStepSplit(s: string, done: seq<string>, start: nat, end: nat, next: nat)
    requires start < end <= next <= |s|
    requires Fields(s) == done + Fields(s[start..])
    requires forall j :: start <= j < end ==> IsDigit(s[j])
    requires end == |s| || IsSeparator(s[end])
    requires forall k :: end <= k < next ==> IsSeparator(s[k])
    ensures Fields(s) == (done + [s[start..end]]) + Fields(s[next..])
  {
    FieldsRunAt(s, start, end);
    FieldsSkipAt(s, end, next);
    Rechain(Fields(s), done, Fields(s[start..]), s[start..end], Fields(s[end..]), Fields(s[next..]));
  }

  /** Re-associating a list split as `done`, one element, then the rest. */
  lemma Rechain<T>(all: seq<T>, done: seq<T>, rest: seq<T>, x: T, mid: seq<T>, tail: seq<T>)
    requires all == done + rest && rest == [x] + mid && mid == tail
    ensures all == (done + [x]) + tail
  {
    assert done + ([x] + tail) == (done + [x]) + tail;
  }

  lemma {:induction false} RunLengthIs(s: string, k: nat)
    requires k <= |s|
    requires forall j :: 0 <= j < k ==> !IsSeparator(s[j])
    requires k == |s| || IsSeparator(s[k])
    ensures RunLength(s) == k
  {
    if k > 0 {
      RunLengthIs(s[1..], k - 1);
    }
  }

  /** The fields of comma-joined non-empty digit strings are those strings. */
  lemma {:induction false} FieldsOfJoin(parts: seq<string>)
    requires forall i :: 0 <= i < |parts| ==> |parts[i]| > 0 && AllDigits(parts[i])
    ensures Fields(Join(',', parts)) == parts
  {
    if |parts| == 1 {
      assert Join(',', parts) == parts[0];
      FieldsOfDigits(parts[0]);
    } else if |parts| > 1 {
      var rest := Join(',', parts[1..]);
      assert Join(',', parts) == parts[0] + [','] + rest;
      FieldsOfDigitsThenComma(parts[0], rest);
      FieldsOfJoin(parts[1..]);
      assert parts == [parts[0]] + parts[1..];
    }
  }

  /** A non-empty run of digits is one field. */
  lemma FieldsOfDigits(digits: string)
    requires |digits| > 0 && AllDigits(digits)
    ensures Fields(digits) == [digits]
  {
    FieldsRun(digits, |digits|);
    assert digits[..|digits|] == digits;
    assert digits[|digits|..] == [];
  }

  /** A non-empty run of digits and a comma: the run is the first field, the rest follows. */
  lemma FieldsOfDigitsThenComma(digits: string, rest: string)
    requires |digits| > 0 && AllDigits(digits)
    ensures Fields(digits + [','] + rest) == [digits] + Fields(rest)
  {
    var s := digits + [','] + rest;
    var k := |digits|;
    assert s[..k] == digits;
    assert forall j :: 0 <= j < k ==> s[j] == digits[j];
    FieldsRun(s, k);
    assert s[k..][1..] == rest;
  }

  /** Comma-joined digit strings hold only digits and commas. */
  lemma {:induction false} JoinNoBad(parts: seq<string>)
    requires forall i :: 0 <= i < |parts| ==> AllDigits(parts[i])
    ensures NoBad(Join(',', parts))
  {
    if |parts| > 1 {
      JoinNoBad(parts[1..]);
      var s := Join(',', parts);
      assert s == parts[0] + [','] + Join(',', parts[1..]);
      forall j | 0 <= j < |s| ensures !IsBad(s[j]) {
        if j < |parts[0]| {
          assert s[j] == parts[0][j];
        } else if j > |parts[0]| {
          assert s[j] == Join(',', parts[1..])[j - |parts[0]| - 1];
        }
      }
    }
  }

  // ---------------------------------------------------------------------
  // Rendering: ToString as written, and the rendering it evidently intends
  // ---------------------------------------------------------------------

  function DecimalTexts(vs: seq<int>): (ts: seq<string>)
    ensures |ts| == |vs| && forall i :: 0 <= i < |vs| ==> ts[i] == IntToString(vs[i])
  {
    seq(|vs|, i requires 0 <= i < |vs| => IntToString(vs[i]))
  }

  /** The values as decimal text joined by commas; "" for no values. */
  function Render(vs: seq<int>): (r: string)
    ensures r == "" <==> vs == []
    ensures (forall i :: 0 <= i < |vs| ==> vs[i] >= 0) ==> NoBad(r) && Fields(r) == DecimalTexts(vs)
  {
    var texts := DecimalTexts(vs);
    if forall i :: 0 <= i < |vs| ==> vs[i] >= 0 then
      JoinNoBad(texts);
      FieldsOfJoin(texts);
      Join(',', texts)
    else
      Join(',', texts)
  }

  datatype ListError = IndexOutOfRange | ArgumentOutOfRange | NotSupported

  /**
   * ToString as written: the builder holds every value followed by a comma,
   * and the last character is cut off, which fails on an empty builder.
   */
  function ToStringAsWritten(vs: seq<int>): (r: Result<string, ListError>)
    ensures r.Err? <==> vs == []
    ensures r.Err? ==> r.error == ArgumentOutOfRange
  {
    var built := Join(',', DecimalTexts(vs)) + (if vs == [] then "" else ",");
    if |built| == 0 then Err(ArgumentOutOfRange) else Ok(built[..|built| - 1])
  }

  /** The empty text parses to an empty list, but that list cannot be written back. */
  lemma EmptyListRoundTripFails()
    ensures Parse("") == Ok([])
    ensures ToStringAsWritten([]) == Err(ArgumentOutOfRange)
  {
    assert Fields("") == [];
  }

  /** Rendering non-negative Int32 values and parsing the text gives the values back. */
  lemma RenderParseRoundTrip(vs: seq<int>)
    requires forall i :: 0 <= i < |vs| ==> 0 <= vs[i] < TwoTo31
    ensures Parse(Render(vs)) == Ok(vs)
  {
    var texts := DecimalTexts(vs);
    forall i | 0 <= i < |texts| ensures |texts[i]| > 0 && AllDigits(texts[i]) {
    }
    JoinNoBad(texts);
    FieldsOfJoin(texts);
    var s := Render(vs);
    assert FirstBad(s) == None;
    assert Fields(s) == texts;
    var values := FieldValues(texts);
    forall i | 0 <= i < |vs| ensures values[i] == vs[i] {
      NatToStringRoundTrip(vs[i]);
      AccumulateExact(texts[i]);
    }
    assert values == vs;
    assert Parse(s) == Ok(values);
  }

  /** Where the list is not empty, ToString as written produces the intended rendering. */
  lemma {:induction false} ToStringAsWrittenAgrees(vs: seq<int>)
    requires vs != []
    ensures ToStringAsWritten(vs) == Ok(Render(vs))
  {
    var j := Join(',', DecimalTexts(vs));
    assert (j + ",")[..|j + ","| - 1] == j;
  }

  // ---------------------------------------------------------------------
  // The class
  // ---------------------------------------------------------------------

  class NumberList {
    const values: array<int>

    constructor (vs: seq<int>)
      ensures values[..] == vs && fresh(values)
    {
      values := new int[|vs|](i requires 0 <= i < |vs| => vs[i]);
    }

    function Count(): (n: nat)
      ensures n == values.Length
    {
      values.Length
    }

    /** The indexer's getter. */
    method Get(index: int) returns (r: Result<int, ListError>)
      ensures 0 <= index < values.Length ==> r == Ok(values[index])
      ensures !(0 <= index < values.Length) ==> r == Err(IndexOutOfRange)
    {
      if 0 <= index < values.Length {
        r := Ok(values[index]);
      } else {
        r := Err(IndexOutOfRange);
      }
    }

    /** The indexer's setter: the one mutation the list allows. */
    method Set(index: int, value: int) returns (r: Result<(), ListError>)
      modifies values
      ensures 0 <= index < values.Length ==> r == Ok(()) && values[..] == old(values[..])[index := value]
      ensures !(0 <= index < values.Length) ==> r == Err(IndexOutOfRange) && values[..] == old(values[..])
    {
      if 0 <= index < values.Length {
        values[index] := value;
        r := Ok(());
      } else {
        r := Err(IndexOutOfRange);
      }
    }

    /** The first position holding `item`, or -1. */
    method IndexOf(item: int) returns (r: int)
      ensures -1 <= r < values.Length
      ensures r == -1 <==> item !in values[..]
      ensures r >= 0 ==> values[r] == item && item !in values[..r]
    {
      var i := 0;
      while i < values.Length
        invariant 0 <= i <= values.Length
        invariant item !in values[..i]
      {
        if item == values[i] {
          return i;
        }
        assert values[..i + 1] == values[..i] + [values[i]];
        i := i + 1;
      }
      assert values[..] == values[..i];
      return -1;
    }

    method Contains(item: int) returns (b: bool)
      ensures b <==> item in values[..]
    {
      var k := IndexOf(item);
      b := k != -1;
    }

    /** Add, Clear, Insert, Remove and RemoveAt all refuse to change the list. */
    method Mutate(op: Mutation) returns (r: Result<(), ListError>)
      ensures r == Err(NotSupported)
    {
      r := Err(NotSupported);
    }

    /** ToString, following the builder loop; fails on an empty list. */
    method ToString() returns (r: Result<string, ListError>)
      ensures r == ToStringAsWritten(values[..])
      ensures values.Length > 0 ==> r == Ok(Render(values[..]))
    {
      var builder: string := "";
      var i := 0;
      while i < values.Length
        invariant 0 <= i <= values.Length
        invariant builder == Join(',', DecimalTexts(values[..i])) + (if i == 0 then "" else ",")
      {
        JoinSnoc(DecimalTexts(values[..i]), IntToString(values[i]));
        assert DecimalTexts(values[..i + 1]) == DecimalTexts(values[..i]) + [IntToString(values[i])];
        builder := builder + IntToString(values[i]) + ",";
        i := i + 1;
      }
      assert values[..i] == values[..];
      if |builder| == 0 {
        return Err(ArgumentOutOfRange);
      }
      if values.Length > 0 {
        ToStringAsWrittenAgrees(values[..]);
      }
      return Ok(builder[..|builder| - 1]);
    }
  }

  datatype Mutation = Add(item: int) | Clear | Insert(index: int, item: int) | Remove(item: int) | RemoveAt(index: int)

  lemma JoinSnoc(parts: seq<string>, last: string)
    ensures Join(',', parts + [last]) + "," == Join(',', parts) + (if parts == [] then "" else ",") + last + ","
  {
    JoinAppend(parts, last);
  }

  lemma {:induction false} JoinAppend(parts: seq<string>, last: string)
    ensures Join(',', parts + [last]) == if parts == [] then last else Join(',', parts) + "," + last
  {
    if |parts| > 1 {
      var longer := parts + [last];
      assert longer[0] == parts[0];
      assert longer[1..] == parts[1..] + [last];
      JoinAppend(parts[1..], last);
      assert Join(',', longer) == parts[0] + [','] + Join(',', parts[1..] + [last]);
      assert Join(',', parts) == parts[0] + [','] + Join(',', parts[1..]);
    } else if |parts| == 1 {
      var longer := parts + [last];
      assert longer == [parts[0], last];
      assert longer[1..] == [last];
      assert Join(',', longer) == parts[0] + [','] + Join(',', [last]);
    }
  }

  // ---------------------------------------------------------------------
  // TryParse
  // ---------------------------------------------------------------------

  /** BurnWhiteSpace: move past tabs, spaces and commas. */
  method BurnWhiteSpace(i: nat, input: string) returns (j: nat)
    requires i <= |input|
    ensures i <= j <= |input|
    ensures forall k :: i <= k < j ==> IsSeparator(input[k])
    ensures j == |input| || !IsSeparator(input[j])
  {
    j := i;
    while j < |input| && IsSeparator(input[j])
      invariant i <= j <= |input|
      invariant forall k :: i <= k < j ==> IsSeparator(input[k])
    {
      j := j + 1;
    }
  }

  /**
   * The do-while of TryParse: read the number that starts at `start`, stopping at
   * the end of the input or at a separator, or report the first character that
   * fits no number.
   */
  method ReadNumber(input: string, start: nat) returns (r: Result<int, ParseError>, end: nat)
    requires start < |input| && !IsSeparator(input[start])
    requires forall j :: 0 <= j < start ==> !IsBad(input[j])
    ensures r.Err? ==> Parse(input) == Err(r.error)
    ensures r.Ok? ==> start < end <= |input| && (end == |input| || IsSeparator(input[end]))
    ensures r.Ok? ==> (forall j :: start <= j < end ==> IsDigit(input[j])) && r.value == Accumulate(input[start..end])
  {
    var number := 0;
    var i := start;
    while i < |input| && !IsSeparator(input[i])
      invariant start <= i <= |input|
      invariant forall j :: start <= j < i ==> IsDigit(input[j])
      invariant number == Accumulate(input[start..i])
    {
      var c := input[i];
      if IsNewline(c) || c < '0' || c > '9' {
        FirstBadAt(input, i);
        if IsNewline(c) {
          return Err(UnexpectedNewline), i;
        }
        return Err(UnexpectedCharacter(c)), i;
      }
      assert input[start..i + 1][..i - start] == input[start..i];
      number := Wrap32(number * 10 + ((c as int) - ('0' as int)));
      i := i + 1;
    }
    return Ok(number), i;
  }

  /** The values TryParse reads from `input`, or the error it reports. */
  method ParseValues(input: string) returns (r: Result<seq<int>, ParseError>)
    ensures r == Parse(input)
  {
    var values: seq<int> := [];
    ghost var done: seq<string> := [];
    var i := BurnWhiteSpace(0, input);
    FieldsSkipSeparators(input, i);
    var length := |input|;
    while i < length
      invariant 0 <= i <= length
      invariant i == length || !IsSeparator(input[i])
      invariant Fields(input) == done + Fields(input[i..])
      invariant forall j :: 0 <= j < i ==> !IsBad(input[j])
      invariant forall k :: 0 <= k < |done| ==> AllDigits(done[k])
      invariant values == FieldValues(done)
    {
      var start := i;
      var read;
      read, i := ReadNumber(input, start);
      if read.Err? {
        return Err(read.error);
      }
      var next := BurnWhiteSpace(i, input);
      ghost var field := input[start..i];
      FieldsStep(input, done, start, i, next);
      FieldValuesSnoc(done, field);
      done := done + [field];
      values := values + [read.value];
      i := next;
    }
    assert NoBad(input);
    assert Fields(input[i..]) == [];
    assert done == Fields(input);
    return Ok(values);
  }

  lemma FirstBadAt(s: string, i: nat)
    requires i < |s| && IsBad(s[i]) && forall j :: 0 <= j < i ==> !IsBad(s[j])
    ensures FirstBad(s) == Some(i)
  {
    forall k | i < k <= |s| ensures !NoBad(s[..k]) {
      assert s[..k][i] == s[i];
    }
  }

  /** TryParse: on success a new list holding the parsed values, on failure the error text. */
  method TryParse(input: string) returns (ok: bool, error: Option<string>, data: NumberList?)
    ensures ok <==> Parse(input).Ok?
    ensures ok ==> error.None? && data != null && fresh(data) && data.values[..] == Parse(input).value
    ensures !ok ==> data == null && error == Some(ParseErrorMessage(Parse(input).error))
  {
    var r := ParseValues(input);
    if r.Err? {
      return false, Some(ParseErrorMessage(r.error)), null;
    }
    data := new NumberList(r.value);
    return true, None, data;
  }
}
