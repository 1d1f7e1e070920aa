/**
 * Shared vocabulary of the model: the source's exceptions and nullable
 * results as Option/Result, the .NET character classes the code relies on,
 * decimal text for integers, String.Split / String.Join on one separator,
 * and the small path helpers of System.IO.Path.
 */
module Common {

  datatype Option<T> = None | Some(value: T)

  datatype Result<T, E> = Ok(value: T) | Err(error: E)

  // ---------------------------------------------------------------------
  // Character classes
  // ---------------------------------------------------------------------

  /** char.IsWhiteSpace restricted to the ASCII and Latin-1 white space. */
  predicate IsWhiteSpace(c: char)
  {
    c == ' ' || c == '\t' || c == '\n' || c == '\r' || c == '\U{B}' || c == '\U{C}'
    || c == '\U{85}' || c == '\U{A0}'
  }

  /** string.IsNullOrWhiteSpace for a string that is present. */
  predicate IsBlank(s: string)
  {
    forall i :: 0 <= i < |s| ==> IsWhiteSpace(s[i])
  }

  predicate IsDigit(c: char)
  {
    '0' <= c <= '9'
  }

  predicate AllDigits(s: string)
  {
    forall i :: 0 <= i < |s| ==> IsDigit(s[i])
  }

  function DigitChar(d: nat): (c: char)
    requires d < 10
    ensures IsDigit(c) && (c as int) - ('0' as int) == d
  {
    (('0' as int) + d) as char
  }

  function DigitValue(c: char): nat
    requires IsDigit(c)
  {
    (c as int) - ('0' as int)
  }

  /** ASCII case folding, the part of an ordinal case-insensitive comparison the model keeps. */
  function ToLowerAscii(c: char): char
  {
    if 'A' <= c <= 'Z' then ((c as int) + 32) as char else c
  }

  predicate EqualsIgnoreCase(a: string, b: string)
  {
    |a| == |b| && forall i :: 0 <= i < |a| ==> ToLowerAscii(a[i]) == ToLowerAscii(b[i])
  }

  // ---------------------------------------------------------------------
  // Decimal text (Int32.ToString / the digit accumulation of parsers)
  // ---------------------------------------------------------------------

  /** The value of a string of decimal digits, most significant first. */
  function DecimalValue(s: string): nat
    requires AllDigits(s)
  {
    if s == [] then 0 else DecimalValue(s[..|s| - 1]) * 10 + DigitValue(s[|s| - 1])
  }

  /** Invariant-culture decimal text of a natural number, without leading zeros. */
  function NatToString(n: nat): (s: string)
    ensures |s| >= 1 && AllDigits(s)
    ensures |s| > 1 ==> s[0] != '0'
  {
    if n < 10 then [DigitChar(n)] else NatToString(n / 10) + [DigitChar(n % 10)]
  }

  /** Invariant-culture decimal text of an integer: a minus sign before a negative one. */
  function IntToString(n: int): (s: string)
    ensures |s| >= 1
    ensures n >= 0 ==> AllDigits(s)
    ensures n < 0 ==> s[0] == '-' && AllDigits(s[1..])
  {
    if n >= 0 then NatToString(n) else "-" + NatToString(-n)
  }

  lemma {:induction false} NatToStringRoundTrip(n: nat)
    ensures DecimalValue(NatToString(n)) == n
  {
    if n >= 10 {
      var s := NatToString(n);
      var p := NatToString(n / 10);
      assert s == p + [DigitChar(n % 10)];
      assert s[..|s| - 1] == p;
      NatToStringRoundTrip(n / 10);
    }
  }

  /** The decimal text of an integer never contains a separator character. */
  lemma IntToStringHasNo(n: int, c: char)
    requires c != '-' && !IsDigit(c)
    ensures c !in IntToString(n)
  {
    var s := IntToString(n);
    if n < 0 {
      assert s == [s[0]] + s[1..];
      assert c !in s[1..];
    }
  }

  // ---------------------------------------------------------------------
  // Split / Join on one separator character
  // ---------------------------------------------------------------------

  /** The position of the first `c` in `s`, as String.IndexOf(char). */
  function FindChar(s: string, c: char): (r: Option<nat>)
    ensures r.None? <==> c !in s
    ensures r.Some? ==> r.value < |s| && s[r.value] == c && c !in s[..r.value]
  {
    if s == [] then None
    else if s[0] == c then Some(0)
    else match FindChar(s[1..], c)
      case None => None
      case Some(k) =>
        assert s[..k + 1] == [s[0]] + s[1..][..k];
        Some(k + 1)
  }

  function Join(sep: char, parts: seq<string>): string
  {
    if parts == [] then ""
    else if |parts| == 1 then parts[0]
    else parts[0] + [sep] + Join(sep, parts[1..])
  }

  /** String.Split(sep): the fields between separators, at least one. */
  function Split(s: string, sep: char): (r: seq<string>)
    ensures |r| >= 1
    decreases |s|
  {
    match FindChar(s, sep)
      case None => [s]
      case Some(k) => [s[..k]] + Split(s[k + 1..], sep)
  }

  /** No field holds the separator, and joining the fields with it gives the text back. */
  lemma SplitMeaning(s: string, sep: char)
    ensures forall i :: 0 <= i < |Split(s, sep)| ==> sep !in Split(s, sep)[i]
    ensures Join(sep, Split(s, sep)) == s
  {
    SplitFieldsFree(s, sep);
    SplitJoinsBack(s, sep);
  }

  lemma {:induction false} SplitFieldsFree(s: string, sep: char)
    ensures forall i :: 0 <= i < |Split(s, sep)| ==> sep !in Split(s, sep)[i]
    decreases |s|
  {
    match FindChar(s, sep)
      case None =>
      case Some(k) =>
        SplitFieldsFree(s[k + 1..], sep);
        var rest := Split(s[k + 1..], sep);
        assert Split(s, sep) == [s[..k]] + rest;
        assert forall i :: 1 <= i < 1 + |rest| ==> Split(s, sep)[i] == rest[i - 1];
  }

  lemma {:induction false} SplitJoinsBack(s: string, sep: char)
    ensures Join(sep, Split(s, sep)) == s
    decreases |s|
  {
    match FindChar(s, sep)
      case None =>
      case Some(k) =>
        SplitJoinsBack(s[k + 1..], sep);
        var parts := Split(s, sep);
        var rest := Split(s[k + 1..], sep);
        assert parts == [s[..k]] + rest;
        assert parts[1..] == rest;
        assert Join(sep, parts) == s[..k] + [sep] + Join(sep, rest);
        assert s == s[..k] + [sep] + s[k + 1..];
  }

  /** Splitting a join of separator-free fields gives the fields back. */
  lemma {:induction false} SplitJoin(parts: seq<string>, sep: char)
    requires |parts| >= 1
    requires forall i :: 0 <= i < |parts| ==> sep !in parts[i]
    ensures Split(Join(sep, parts), sep) == parts
  {
    if |parts| > 1 {
      var s := Join(sep, parts);
      var tail := Join(sep, parts[1..]);
      assert s == parts[0] + [sep] + tail;
      assert s[..|parts[0]|] == parts[0];
      assert s[|parts[0]|] == sep;
      assert FindChar(s, sep) == Some(|parts[0]|);
      assert s[|parts[0]| + 1..] == tail;
      SplitJoin(parts[1..], sep);
      assert Split(s, sep) == [parts[0]] + parts[1..];
    } else {
      assert Join(sep, parts) == parts[0];
    }
  }

  // ---------------------------------------------------------------------
  // System.IO.Path, on Windows conventions
  // ---------------------------------------------------------------------

  predicate IsDirectorySeparator(c: char)
  {
    c == '\\' || c == '/'
  }

  /** Path.IsPathRooted: a leading separator or a drive letter and colon. */
  predicate IsPathRooted(p: string)
  {
    (|p| >= 1 && IsDirectorySeparator(p[0])) || (|p| >= 2 && p[1] == ':')
  }

  /** Path.Combine(a, b): `b` when it is rooted, otherwise `b` under `a`. */
  function Combine(a: string, b: string): (r: string)
    ensures IsPathRooted(b) || a == "" ==> r == b
    ensures !IsPathRooted(b) && a != "" ==> |r| > |b| && r[|r| - |b|..] == b
  {
    if IsPathRooted(b) || a == "" then b
    else if IsDirectorySeparator(a[|a| - 1]) then a + b
    else a + "\\" + b
  }

  /** Path.GetExtension: from the last '.' of the file name on, or "" when there is none. */
  function GetExtension(p: string): (r: string)
    ensures r != "" ==> 2 <= |r| <= |p| && r[0] == '.' && r == p[|p| - |r|..]
    ensures r != "" ==> forall j :: 1 <= j < |r| ==> r[j] != '.' && !IsDirectorySeparator(r[j])
  {
    ExtensionFrom(p, |p|)
  }

  /** Helper of GetExtension: scan back from position `i`, nothing after it being a dot or separator. */
  function ExtensionFrom(p: string, i: nat): (r: string)
    requires i <= |p|
    requires forall j :: i <= j < |p| ==> p[j] != '.' && !IsDirectorySeparator(p[j])
    ensures r != "" ==> 2 <= |r| <= |p| && r[0] == '.' && r == p[|p| - |r|..]
    ensures r != "" ==> forall j :: 1 <= j < |r| ==> r[j] != '.' && !IsDirectorySeparator(r[j])
  {
    if i == 0 then ""
    else if p[i - 1] == '.' then (if i == |p| then "" else p[i - 1..])
    else if IsDirectorySeparator(p[i - 1]) then ""
    else ExtensionFrom(p, i - 1)
  }

  // ---------------------------------------------------------------------
  // Row-major layout of an n-by-n table of origin-destination pairs
  // ---------------------------------------------------------------------

  /** The row-major position of (o, d) lies inside the n-by-n table. */
  lemma RowMajorBound(n: nat, o: nat, d: nat)
    requires o < n && d < n
    ensures o * n + d < n * n
  {
    assert o * n <= (n - 1) * n;
  }

  /** Two pairs of the table share a row-major position only when they are the same pair. */
  lemma RowMajorInjective(n: nat, o1: nat, d1: nat, o2: nat, d2: nat)
    requires d1 < n && d2 < n
    requires o1 * n + d1 == o2 * n + d2
    ensures o1 == o2 && d1 == d2
  {
    if o1 < o2 {
      EarlierRow(n, o1, d1, o2, d2);
    } else if o2 < o1 {
      EarlierRow(n, o2, d2, o1, d1);
    }
  }

  lemma EarlierRow(n: nat, o1: nat, d1: nat, o2: nat, d2: nat)
    requires o1 < o2 && d1 < n
    ensures o1 * n + d1 < o2 * n + d2
  {
    var k: nat := o2 - o1 - 1;
    assert o2 * n == o1 * n + n + k * n by {
      assert o2 == o1 + 1 + k;
    }
  }
}
