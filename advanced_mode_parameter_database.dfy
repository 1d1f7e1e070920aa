/**
 * GTAModel AdvancedModeParameterDatabase: parameter sets, demographic
 * alternative values and demographic switch rows are read once from three
 * comma-separated files; applying a set picks, for every parameter, the set's
 * value when the switch row says so and the alternative value otherwise.
 * File contents are given as sequences of lines.
 */
module AdvancedModeParameterDatabase {
  import opened Common

  // ---------------------------------------------------------------------
  // Rows and cells
  // ---------------------------------------------------------------------

  /** GetAllButFirst: the fields after the first one, in order. */
  function AllButFirst(split: seq<string>): (r: seq<string>)
    requires |split| >= 1
    ensures |r| == |split| - 1
    ensures forall i :: 0 <= i < |r| ==> r[i] == split[i + 1]
  {
    split[1..]
  }

  /** ParseHeader: the column names are the header's fields after the first. */
  function ParseHeader(line: string): (headers: seq<string>)
    ensures |headers| + 1 == |Split(line, ',')|
    ensures forall i :: 0 <= i < |headers| ==> headers[i] == Split(line, ',')[i + 1]
  {
    AllButFirst(Split(line, ','))
  }

  /** The rows a loader keeps: lines with at least width + 1 fields, without their first field. */
  function KeptRows(lines: seq<string>, width: nat): (rows: seq<seq<string>>)
    ensures |rows| <= |lines|
    ensures forall k :: 0 <= k < |rows| ==> |rows[k]| >= width
  {
    if lines == [] then []
    else KeptRows(lines[..|lines| - 1], width) + KeptRow(lines[|lines| - 1], width)
  }

  /** What one line contributes: nothing when it is short, else its fields after the first. */
  function KeptRow(line: string, width: nat): (rows: seq<seq<string>>)
    ensures |rows| <= 1 && forall k :: 0 <= k < |rows| ==> |rows[k]| >= width
  {
    var split := Split(line, ',');
    if |split| < width + 1 then [] else [AllButFirst(split)]
  }

  /** Keeping rows distributes over the concatenation of two files' lines. */
  lemma {:induction false} KeptRowsAppend(a: seq<string>, b: seq<string>, width: nat)
    ensures KeptRows(a + b, width) == KeptRows(a, width) + KeptRows(b, width)
    decreases |b|
  {
    if b != [] {
      var front := b[..|b| - 1];
      var last := b[|b| - 1];
      assert b == front + [last];
      assert a + b == (a + front) + [last];
      KeptRowsSnoc(a + front, last, width);
      KeptRowsSnoc(front, last, width);
      KeptRowsAppend(a, front, width);
      AppendAssoc(KeptRows(a, width), KeptRows(front, width), KeptRow(last, width));
    } else {
      assert a + b == a;
    }
  }

  /** One more line adds what that line contributes. */
  lemma KeptRowsSnoc(lines: seq<string>, line: string, width: nat)
    ensures KeptRows(lines + [line], width) == KeptRows(lines, width) + KeptRow(line, width)
  {
    var all := lines + [line];
    assert all[..|all| - 1] == lines;
  }

  lemma AppendAssoc<T>(x: seq<T>, y: seq<T>, z: seq<T>)
    ensures (x + y) + z == x + (y + z)
  {
  }

  /** A line with too few fields contributes nothing; any other contributes its fields after the first. */
  lemma KeptRowsOne(line: string, width: nat)
    ensures |Split(line, ',')| < width + 1 ==> KeptRows([line], width) == []
    ensures |Split(line, ',')| >= width + 1 ==> KeptRows([line], width) == [Split(line, ',')[1..]]
  {
    assert [line][..0] == [];
  }

  /** The characters String.Trim removes: white space and NUL. */
  predicate Trimmed(c: char)
  {
    IsWhiteSpace(c) || c == '\0'
  }

  /** The text without the white space and NUL characters at its start. */
  function TrimStart(s: string): (r: string)
    ensures |r| <= |s|
    ensures r != [] ==> !Trimmed(r[0])
  {
    if s != [] && Trimmed(s[0]) then TrimStart(s[1..]) else s
  }

  /** TrimStart removes exactly the leading run of trimmed characters and keeps the rest. */
  lemma {:induction false} TrimStartSuffix(s: string)
    ensures TrimStart(s) == s[|s| - |TrimStart(s)|..]
    ensures forall j :: 0 <= j < |s| - |TrimStart(s)| ==> Trimmed(s[j])
    decreases |s|
  {
    if s != [] && Trimmed(s[0]) {
      TrimStartSuffix(s[1..]);
      assert forall j :: 1 <= j < |s| ==> s[1..][j - 1] == s[j];
    }
  }

  /** The text without the white space and NUL characters at its end. */
  function TrimEnd(s: string): (r: string)
    ensures |r| <= |s|
    ensures r != [] ==> !Trimmed(r[|r| - 1])
  {
    if s != [] && Trimmed(s[|s| - 1]) then TrimEnd(s[..|s| - 1]) else s
  }

  /** TrimEnd removes exactly the trailing run of trimmed characters and keeps the rest. */
  lemma {:induction false} TrimEndPrefix(s: string)
    ensures TrimEnd(s) == s[..|TrimEnd(s)|]
    ensures forall j :: |TrimEnd(s)| <= j < |s| ==> Trimmed(s[j])
    decreases |s|
  {
    if s != [] && Trimmed(s[|s| - 1]) {
      TrimEndPrefix(s[..|s| - 1]);
    }
  }

  /** The text is "true" in any letter case. */
  predicate IsTrueText(t: string)
  {
    |t| == 4 && ToLowerAscii(t[0]) == 't' && ToLowerAscii(t[1]) == 'r' && ToLowerAscii(t[2]) == 'u' && ToLowerAscii(t[3]) == 'e'
  }

  /** The text is "false" in any letter case. */
  predicate IsFalseText(t: string)
  {
    |t| == 5 && ToLowerAscii(t[0]) == 'f' && ToLowerAscii(t[1]) == 'a' && ToLowerAscii(t[2]) == 'l'
    && ToLowerAscii(t[3]) == 's' && ToLowerAscii(t[4]) == 'e'
  }

  /**
   * bool.TryParse: after trimming white space and NUL characters from both
   * ends, "true" or "false" in any letter case.
   */
  function ParseBool(s: string): Option<bool>
  {
    var t := TrimEnd(TrimStart(s));
    if IsTrueText(t) then Some(true)
    else if IsFalseText(t) then Some(false)
    else None
  }

  /** Boolean.ToString. */
  function BoolText(b: bool): string
  {
    if b then "True" else "False"
  }

  /** The letter-by-letter tests are comparisons ignoring case. */
  lemma BooleanTexts(t: string)
    ensures IsTrueText(t) <==> EqualsIgnoreCase(t, "true")
    ensures IsFalseText(t) <==> EqualsIgnoreCase(t, "false")
  {
    if EqualsIgnoreCase(t, "true") {
      assert ToLowerAscii(t[0]) == ToLowerAscii("true"[0]);
      assert ToLowerAscii(t[1]) == ToLowerAscii("true"[1]);
      assert ToLowerAscii(t[2]) == ToLowerAscii("true"[2]);
      assert ToLowerAscii(t[3]) == ToLowerAscii("true"[3]);
    }
    if EqualsIgnoreCase(t, "false") {
      assert ToLowerAscii(t[0]) == ToLowerAscii("false"[0]);
      assert ToLowerAscii(t[1]) == ToLowerAscii("false"[1]);
      assert ToLowerAscii(t[2]) == ToLowerAscii("false"[2]);
      assert ToLowerAscii(t[3]) == ToLowerAscii("false"[3]);
      assert ToLowerAscii(t[4]) == ToLowerAscii("false"[4]);
    }
  }

  /** TryParse accepts exactly the trimmed texts equal to "true" or "false" ignoring case. */
  lemma ParseBoolMeaning(s: string)
    ensures ParseBool(s) == Some(true) <==> EqualsIgnoreCase(TrimEnd(TrimStart(s)), "true")
    ensures ParseBool(s) == Some(false) <==> EqualsIgnoreCase(TrimEnd(TrimStart(s)), "false")
  {
    BooleanTexts(TrimEnd(TrimStart(s)));
  }

  /** Every boolean Boolean.ToString writes, bare or between blanks, parses back. */
  lemma ParseBoolText(b: bool)
    ensures ParseBool(BoolText(b)) == Some(b)
    ensures ParseBool(" " + BoolText(b) + " ") == Some(b)
  {
    var t := BoolText(b);
    assert TrimStart(t) == t;
    assert TrimEnd(t) == t;
    var padded := " " + t + " ";
    assert padded[1..] == t + " ";
    assert TrimStart(padded) == t + " ";
    assert (t + " ")[..|t|] == t;
    assert TrimEnd(t + " ") == t;
  }

  /**
   * The switch values of one kept row: its cells (the fields after the first,
   * one per column) parsed as booleans, or the first column that does not parse.
   */
  function SwitchCells(cells: seq<string>): (r: Result<seq<bool>, nat>)
    ensures r.Ok? ==> |r.value| == |cells|
    ensures r.Err? ==> r.error < |cells|
  {
    if cells == [] then Ok([])
    else
      var head := ParseBool(cells[0]);
      if head.None? then Err(0)
      else
        var rest := SwitchCells(cells[1..]);
        if rest.Err? then Err(rest.error + 1) else Ok([head.value] + rest.value)
  }

  /** A row parses exactly when every cell does, and otherwise fails at its first bad cell. */
  lemma {:induction false} SwitchCellsMeaning(cells: seq<string>)
    ensures var r := SwitchCells(cells);
      (r.Ok? ==> |r.value| == |cells| && forall k :: 0 <= k < |cells| ==> ParseBool(cells[k]) == Some(r.value[k]))
      && (r.Err? ==> r.error < |cells| && ParseBool(cells[r.error]).None? && forall k :: 0 <= k < r.error ==> ParseBool(cells[k]).Some?)
    decreases |cells|
  {
    if cells != [] && ParseBool(cells[0]).Some? {
      SwitchCellsMeaning(cells[1..]);
      assert forall k :: 0 <= k < |cells| - 1 ==> cells[1..][k] == cells[k + 1];
    }
  }

  datatype SwitchError = SwitchError(line: nat, column: nat, value: string)

  /**
   * LoadSwitches as written: the data lines of the switch file, the first of
   * them being line `line`; the counter moves only past rows that were kept,
   * so the line reported for a bad cell is off by the short rows before it.
   * Returns the rows read before any error, and the error.
   */
  function SwitchLinesAsWritten(lines: seq<string>, width: nat, line: nat): (r: (seq<seq<bool>>, Option<SwitchError>))
    ensures |r.0| <= |lines|
    ensures r.1.Some? ==> line <= r.1.value.line <= line + |r.0| && r.1.value.column < width
  {
    if lines == [] then ([], None)
    else
      var split := Split(lines[0], ',');
      if |split| < width + 1 then SwitchLinesAsWritten(lines[1..], width, line)
      else match SwitchCells(split[1..width + 1])
        case Err(col) => ([], Some(SwitchError(line, col, split[1..width + 1][col])))
        case Ok(row) =>
          var rest := SwitchLinesAsWritten(lines[1..], width, line + 1);
          ([row] + rest.0, rest.1)
  }

  /**
   * LoadSwitches with the line counter moving past every line, so an error
   * names the line it is on.
   */
  function SwitchLines(lines: seq<string>, width: nat, line: nat): (r: (seq<seq<bool>>, Option<SwitchError>))
    ensures |r.0| <= |lines|
    ensures r.1.Some? ==> line <= r.1.value.line < line + |lines| && r.1.value.column < width
  {
    if lines == [] then ([], None)
    else
      var split := Split(lines[0], ',');
      if |split| < width + 1 then SwitchLines(lines[1..], width, line + 1)
      else match SwitchCells(split[1..width + 1])
        case Err(col) => ([], Some(SwitchError(line, col, split[1..width + 1][col])))
        case Ok(row) =>
          var rest := SwitchLines(lines[1..], width, line + 1);
          ([row] + rest.0, rest.1)
  }

  /**
   * The error names a line among `lines` (numbered from `line`) that has
   * enough fields, a column that is one of the header's, and that line's
   * cell in that column, which does not parse.
   */
  predicate ErrorLocated(lines: seq<string>, width: nat, line: nat, e: SwitchError)
  {
    line <= e.line < line + |lines|
    && |Split(lines[e.line - line], ',')| >= width + 1
    && e.column < width
    && Split(lines[e.line - line], ',')[e.column + 1] == e.value
    && ParseBool(e.value).None?
  }

  predicate RowsOfWidth(rows: seq<seq<bool>>, width: nat)
  {
    forall k :: 0 <= k < |rows| ==> |rows[k]| == width
  }

  /**
   * The corrected counter names the line the bad cell is on: that line has
   * enough fields, the named column is one of the header's, and its cell is
   * the reported value, which does not parse. Every row read has one value
   * per column.
   */
  lemma {:induction false} SwitchLinesLocatesError(lines: seq<string>, width: nat, line: nat)
    ensures var r := SwitchLines(lines, width, line);
      (r.1.Some? ==> ErrorLocated(lines, width, line, r.1.value)) && RowsOfWidth(r.0, width)
    decreases |lines|
  {
    if lines != [] {
      var split := Split(lines[0], ',');
      var rest := SwitchLines(lines[1..], width, line + 1);
      if |split| < width + 1 {
        SwitchLinesLocatesError(lines[1..], width, line + 1);
        if rest.1.Some? {
          ErrorLocatedShift(lines, width, line, rest.1.value);
        }
      } else {
        var cells := split[1..width + 1];
        match SwitchCells(cells)
        case Err(col) =>
          SwitchErrorHere(lines, width, line);
        case Ok(row) =>
          SwitchLinesLocatesError(lines[1..], width, line + 1);
          if rest.1.Some? {
            ErrorLocatedShift(lines, width, line, rest.1.value);
          }
          RowsOfWidthCons(row, rest.0, width);
      }
    }
  }

  /** An error located in the lines after the first is located in the whole. */
  lemma ErrorLocatedShift(lines: seq<string>, width: nat, line: nat, e: SwitchError)
    requires lines != [] && ErrorLocated(lines[1..], width, line + 1, e)
    ensures ErrorLocated(lines, width, line, e)
  {
    assert lines[1..][e.line - (line + 1)] == lines[e.line - line];
  }

  /** A bad cell on the first line is reported on that line. */
  lemma SwitchErrorHere(lines: seq<string>, width: nat, line: nat)
    requires lines != [] && |Split(lines[0], ',')| >= width + 1
    requires SwitchCells(Split(lines[0], ',')[1..width + 1]).Err?
    ensures SwitchLines(lines, width, line).1.Some?
    ensures ErrorLocated(lines, width, line, SwitchLines(lines, width, line).1.value)
  {
    var split := Split(lines[0], ',');
    var cells := split[1..width + 1];
    SwitchCellsBadCell(cells);
    var col := SwitchCells(cells).error;
    var e := SwitchError(line, col, cells[col]);
    assert SwitchLines(lines, width, line) == ([], Some(e));
    assert cells[col] == split[col + 1];
    assert lines[e.line - line] == lines[0];
  }

  /** The column a row fails at holds a cell that does not parse. */
  lemma {:induction false} SwitchCellsBadCell(cells: seq<string>)
    requires SwitchCells(cells).Err?
    ensures ParseBool(cells[SwitchCells(cells).error]).None?
    decreases |cells|
  {
    if ParseBool(cells[0]).Some? {
      SwitchCellsBadCell(cells[1..]);
    }
  }

  lemma RowsOfWidthCons(row: seq<bool>, rows: seq<seq<bool>>, width: nat)
    requires |row| == width && RowsOfWidth(rows, width)
    ensures RowsOfWidth([row] + rows, width)
  {
    assert forall k :: 1 <= k < 1 + |rows| ==> ([row] + rows)[k] == rows[k - 1];
  }

  /**
   * A short row before a row with a bad cell: the counter as written names
   * the short row's line, one before the line the bad cell is on.
   */
  lemma SkippedRowMisnumbersError(short: string, bad: string, width: nat, line: nat)
    requires |Split(short, ',')| < width + 1
    requires |Split(bad, ',')| >= width + 1 && SwitchCells(Split(bad, ',')[1..width + 1]).Err?
    ensures SwitchLinesAsWritten([short, bad], width, line).1.Some?
    ensures SwitchLinesAsWritten([short, bad], width, line).1.value.line == line
    ensures SwitchLines([short, bad], width, line).1.Some?
    ensures SwitchLines([short, bad], width, line).1.value.line == line + 1
  {
    var lines := [short, bad];
    assert lines[1..] == [bad];
  }

  /**
   * The concrete input: a file whose data lines, from line 2, are "short"
   * and "row,maybe" under one column. As written the error names line 2;
   * the bad value is on line 3.
   */
  lemma ShortRowThenMaybe(short: string, bad: string)
    requires short == "short" && bad == "row,maybe"
    ensures SwitchLinesAsWritten([short, bad], 1, 2).1.Some?
    ensures SwitchLinesAsWritten([short, bad], 1, 2).1.value.line == 2
    ensures SwitchLines([short, bad], 1, 2).1.Some?
    ensures SwitchLines([short, bad], 1, 2).1.value.line == 3
  {
    SampleSplitShort();
    BadLine(bad);
    SkippedRowMisnumbersError(short, bad, 1, 2);
  }

  /** "row,maybe" has a second field, and it is not a boolean. */
  lemma BadLine(bad: string)
    requires bad == "row,maybe"
    ensures |Split(bad, ',')| >= 2 && SwitchCells(Split(bad, ',')[1..2]).Err?
  {
    SampleSplitBad();
    BadSecondField(bad);
  }

  lemma BadSecondField(bad: string)
    requires Split(bad, ',') == ["row", "maybe"]
    ensures |Split(bad, ',')| >= 2 && SwitchCells(Split(bad, ',')[1..2]).Err?
  {
    var fields := Split(bad, ',');
    assert fields[1..2] == ["maybe"];
    SampleBadCell();
  }

  lemma SampleSplitShort()
    ensures Split("short", ',') == ["short"]
  {
    SampleSplit("short", ["short"]);
  }

  lemma SampleSplitBad()
    ensures Split("row,maybe", ',') == ["row", "maybe"]
  {
    var fields := ["row", "maybe"];
    assert fields[1..] == ["maybe"];
    assert Join(',', fields) == "row" + [','] + "maybe";
    SampleSplit("row,maybe", fields);
  }

  lemma SampleBadCell()
    ensures SwitchCells(["maybe"]) == Err(0)
  {
    var maybe := "maybe";
    assert maybe[0] == 'm' && maybe[4] == 'e';
    Untrimmed(maybe);
    assert ParseBool(maybe) == None;
  }

  lemma Untrimmed(s: string)
    requires s != [] && !IsWhiteSpace(s[0]) && s[0] != '\0' && !IsWhiteSpace(s[|s| - 1]) && s[|s| - 1] != '\0'
    ensures TrimStart(s) == s && TrimEnd(s) == s
  {
  }

  lemma SampleSplit(line: string, fields: seq<string>)
    requires |fields| >= 1 && forall i :: 0 <= i < |fields| ==> ',' !in fields[i]
    requires Join(',', fields) == line
    ensures Split(line, ',') == fields
  {
    SplitJoin(fields, ',');
  }

  datatype LoadError = MissingHeader | BadSwitch(message: string) | SetupFailure(message: string)

  function SwitchErrorMessage(fileName: string, headers: seq<string>, e: SwitchError): string
    requires e.column < |headers|
  {
    "In the file '" + fileName + "' on line " + IntToString(e.line) + " under column '" + headers[e.column]
    + "' we were unable to parse the value '" + e.value + "' as a boolean.  Please fix this to be either 'true' or 'false'!"
  }

  // ---------------------------------------------------------------------
  // The database
  // ---------------------------------------------------------------------

  class Parameter {
    const name: string
    var value: Option<string>

    constructor (name: string)
      ensures this.name == name && value == None
    {
      this.name := name;
      value := None;
    }
  }

  class AdvancedModeParameterDatabase {
    /** The lines of the parameter database, alternative and switch files. */
    const databaseLines: seq<string>
    const alternativeLines: seq<string>
    const switchLines: seq<string>
    /** The switch file's full path, as error messages name it. */
    const switchFileName: string

    var parameters: seq<Parameter>
    var parameterSets: seq<seq<string>>
    var demographicAlternatives: seq<seq<string>>
    var demographicSwitches: seq<seq<bool>>
    var loaded: bool

    /** Parameters are distinct objects and every stored row covers every parameter. */
    ghost predicate Valid()
      reads this
    {
      (forall i, j :: 0 <= i < j < |parameters| ==> parameters[i] != parameters[j])
      && |parameters| <= HeaderWidth()
      && (forall k :: 0 <= k < |parameterSets| ==> |parameterSets[k]| >= HeaderWidth())
      && (forall k :: 0 <= k < |demographicAlternatives| ==> |demographicAlternatives[k]| >= HeaderWidth())
      && (forall k :: 0 <= k < |demographicSwitches| ==> |demographicSwitches[k]| >= HeaderWidth())
    }

    /** The number of columns the database file's header names. */
    function HeaderWidth(): nat
    {
      if |databaseLines| == 0 then 0 else |ParseHeader(databaseLines[0])|
    }

    constructor (databaseLines: seq<string>, alternativeLines: seq<string>, switchLines: seq<string>, switchFileName: string)
      ensures Valid() && !loaded
      ensures this.databaseLines == databaseLines && this.alternativeLines == alternativeLines
      ensures this.switchLines == switchLines && this.switchFileName == switchFileName
      ensures parameters == [] && parameterSets == [] && demographicAlternatives == [] && demographicSwitches == []
    {
      this.databaseLines := databaseLines;
      this.alternativeLines := alternativeLines;
      this.switchLines := switchLines;
      this.switchFileName := switchFileName;
      parameters := [];
      parameterSets := [];
      demographicAlternatives := [];
      demographicSwitches := [];
      loaded := false;
    }

    /** SetupParameterObjects: one new parameter per header, in header order. */
    method SetupParameterObjects(headers: seq<string>)
      modifies this
      ensures |parameters| == |headers|
      ensures forall i :: 0 <= i < |headers| ==> fresh(parameters[i]) && parameters[i].name == headers[i] && parameters[i].value == None
      ensures forall i, j :: 0 <= i < j < |parameters| ==> parameters[i] != parameters[j]
      ensures parameterSets == old(parameterSets) && demographicAlternatives == old(demographicAlternatives)
      ensures demographicSwitches == old(demographicSwitches) && loaded == old(loaded)
    {
      parameters := NewParameters(headers);
    }

    static method NewParameters(headers: seq<string>) returns (created: seq<Parameter>)
      ensures |created| == |headers|
      ensures forall i :: 0 <= i < |headers| ==> fresh(created[i]) && created[i].name == headers[i] && created[i].value == None
      ensures forall i, j :: 0 <= i < j < |created| ==> created[i] != created[j]
    {
      created := [];
      var i := 0;
      while i < |headers|
        invariant 0 <= i <= |headers|
        invariant |created| == i
        invariant forall k :: 0 <= k < i ==> fresh(created[k]) && created[k].name == headers[k] && created[k].value == None
        invariant forall k, l :: 0 <= k < l < i ==> created[k] != created[l]
      {
        var p := new Parameter(headers[i]);
        created := created + [p];
        i := i + 1;
      }
    }

    /** A loader's row loop: keep the lines with enough fields, without their first field. */
    static method ReadRows(lines: seq<string>, width: nat) returns (rows: seq<seq<string>>)
      ensures rows == KeptRows(lines, width)
    {
      rows := [];
      var i := 0;
      while i < |lines|
        invariant 0 <= i <= |lines|
        invariant rows == KeptRows(lines[..i], width)
      {
        var split := Split(lines[i], ',');
        assert lines[..i + 1][..i] == lines[..i];
        if |split| >= width + 1 {
          rows := rows + [AllButFirst(split)];
        }
        i := i + 1;
      }
      assert lines[..i] == lines;
    }

    /** LoadParameters: the header names the parameters, the remaining lines are parameter sets. */
    method LoadParameters() returns (r: Result<seq<string>, LoadError>)
      requires Valid()
      modifies this
      ensures Valid()
      ensures |databaseLines| == 0 ==> r == Err(MissingHeader) && parameters == old(parameters) && parameterSets == old(parameterSets)
      ensures |databaseLines| > 0 ==> r == Ok(ParseHeader(databaseLines[0]))
      ensures |databaseLines| > 0 ==> |parameters| == |r.value| && parameterSets == old(parameterSets) + KeptRows(databaseLines[1..], |r.value|)
      ensures |databaseLines| > 0 ==> forall i :: 0 <= i < |parameters| ==> fresh(parameters[i]) && parameters[i].name == r.value[i] && parameters[i].value == None
      ensures demographicAlternatives == old(demographicAlternatives) && demographicSwitches == old(demographicSwitches)
      ensures loaded == old(loaded)
    {
      if |databaseLines| == 0 {
        return Err(MissingHeader);
      }
      var headers := ParseHeader(databaseLines[0]);
      SetupParameterObjects(headers);
      var rows := ReadRows(databaseLines[1..], |headers|);
      parameterSets := parameterSets + rows;
      return Ok(headers);
    }

    /** LoadAlternatives: after the header line, the kept rows are alternative value sets. */
    method LoadAlternatives(headers: seq<string>)
      requires Valid() && |databaseLines| > 0 && headers == ParseHeader(databaseLines[0]) && |headers| == |parameters|
      modifies this
      ensures Valid()
      ensures demographicAlternatives == old(demographicAlternatives) + KeptRows(if |alternativeLines| == 0 then [] else alternativeLines[1..], |headers|)
      ensures parameters == old(parameters) && parameterSets == old(parameterSets)
      ensures demographicSwitches == old(demographicSwitches) && loaded == old(loaded)
    {
      var data := if |alternativeLines| == 0 then [] else alternativeLines[1..];
      var rows := ReadRows(data, |headers|);
      demographicAlternatives := demographicAlternatives + rows;
    }

    /**
     * LoadSwitches: after the header line, each kept row's cells are parsed
     * as booleans; a cell that does not parse stops the load with a message
     * naming the file, the line, the column and the value.
     */
    method LoadSwitches(headers: seq<string>) returns (r: Result<(), LoadError>)
      requires Valid() && |databaseLines| > 0 && headers == ParseHeader(databaseLines[0]) && |headers| == |parameters|
      modifies this
      ensures Valid()
      ensures var data := if |switchLines| == 0 then [] else switchLines[1..];
        var spec := SwitchLines(data, |headers|, 2);
        demographicSwitches == old(demographicSwitches) + spec.0
        && (spec.1.None? ==> r == Ok(()))
        && (spec.1.Some? ==> spec.1.value.column < |headers| && r == Err(BadSwitch(SwitchErrorMessage(switchFileName, headers, spec.1.value))))
      ensures parameters == old(parameters) && parameterSets == old(parameterSets)
      ensures demographicAlternatives == old(demographicAlternatives) && loaded == old(loaded)
    {
      var data := if |switchLines| == 0 then [] else switchLines[1..];
      SwitchLinesLocatesError(data, |headers|, 2);
      var rows, error := ReadSwitches(data, |headers|);
      demographicSwitches := demographicSwitches + rows;
      if error.Some? {
        return Err(BadSwitch(SwitchErrorMessage(switchFileName, headers, error.value)));
      }
      return Ok(());
    }

    /**
     * The line loop of LoadSwitches: rows are read until a cell does not
     * parse; the line counter starts at 2, the first line after the header.
     */
    static method ReadSwitches(data: seq<string>, width: nat) returns (rows: seq<seq<bool>>, error: Option<SwitchError>)
      ensures (rows, error) == SwitchLines(data, width, 2)
    {
      ghost var whole := SwitchLines(data, width, 2);
      rows := [];
      var lineNumber := 2;
      var i := 0;
      assert data[i..] == data;
      assert rows + whole.0 == whole.0;
      while i < |data|
        invariant 0 <= i <= |data|
        invariant lineNumber == 2 + i
        invariant whole == (rows + SwitchLines(data[i..], width, lineNumber).0, SwitchLines(data[i..], width, lineNumber).1)
      {
        assert data[i..][1..] == data[i + 1..];
        var split := Split(data[i], ',');
        if |split| < width + 1 {
          SwitchLinesSkip(data[i..], width, lineNumber);
          lineNumber := lineNumber + 1;
          i := i + 1;
          continue;
        }
        var cells := ParseSwitchRow(split, width);
        if cells.Err? {
          SwitchLinesBad(data[i..], width, lineNumber);
          assert rows + [] == rows;
          return rows, Some(SwitchError(lineNumber, cells.error, split[cells.error + 1]));
        }
        SwitchLinesRow(whole, rows, data[i..], width, lineNumber);
        rows := rows + [cells.value];
        lineNumber := lineNumber + 1;
        i := i + 1;
      }
      assert data[i..] == [];
      assert rows + [] == rows;
      return rows, None;
    }

    /** The inner loop of LoadSwitches: parse one kept row's cells. */
    static method ParseSwitchRow(split: seq<string>, width: nat) returns (r: Result<seq<bool>, nat>)
      requires width < |split|
      ensures r == SwitchCells(split[1..width + 1])
    {
      var cells := split[1..width + 1];
      SwitchCellsMeaning(cells);
      var switchLine: seq<bool> := [];
      var i := 0;
      while i < width
        invariant 0 <= i <= width
        invariant |switchLine| == i
        invariant forall k :: 0 <= k < i ==> ParseBool(cells[k]) == Some(switchLine[k])
      {
        var parsed := ParseBool(split[i + 1]);
        assert cells[i] == split[i + 1];
        if parsed.None? {
          return Err(i);
        }
        switchLine := switchLine + [parsed.value];
        i := i + 1;
      }
      ghost var spec := SwitchCells(cells);
      assert forall k :: 0 <= k < width ==> ParseBool(cells[k]).Some?;
      assert forall k :: 0 <= k < width ==> spec.value[k] == switchLine[k];
      assert spec.value == switchLine;
      return Ok(switchLine);
    }

    /** The lines of the alternatives file after its header. */
    function AlternativeData(): seq<string>
    {
      if |alternativeLines| == 0 then [] else alternativeLines[1..]
    }

    /** The lines of the switch file after its header. */
    function SwitchData(): seq<string>
    {
      if |switchLines| == 0 then [] else switchLines[1..]
    }

    /**
     * What a first Load reports: a database file without a header, or the
     * first switch cell that does not parse, with its message; success
     * otherwise.
     */
    function LoadOutcome(): Result<(), LoadError>
    {
      if |databaseLines| == 0 then Err(MissingHeader)
      else
        var headers := ParseHeader(databaseLines[0]);
        var spec := SwitchLines(SwitchData(), |headers|, 2);
        match spec.1
        case None => Ok(())
        case Some(e) =>
          SwitchLinesLocatesError(SwitchData(), |headers|, 2);
          Err(BadSwitch(SwitchErrorMessage(switchFileName, headers, e)))
    }

    /**
     * The tables after a first Load on a database file with a header: one
     * parameter per header name, and each table extended by the rows its file
     * contributes.
     */
    ghost predicate TablesRead(sets: seq<seq<string>>, alternatives: seq<seq<string>>, switches: seq<seq<bool>>)
      reads this
    {
      |databaseLines| > 0
      && var headers := ParseHeader(databaseLines[0]);
      |parameters| == |headers|
      && (forall i :: 0 <= i < |headers| ==> parameters[i].name == headers[i])
      && parameterSets == sets + KeptRows(databaseLines[1..], |headers|)
      && demographicAlternatives == alternatives + KeptRows(AlternativeData(), |headers|)
      && demographicSwitches == switches + SwitchLines(SwitchData(), |headers|, 2).0
    }

    /**
     * The body of Load once the flag is found clear: the parameters, then the
     * switch and alternative files, both read, as the two parallel loaders
     * are, before a bad switch cell is reported; the flag is set on success.
     */
    method LoadFiles() returns (r: Result<(), LoadError>)
      requires Valid() && !loaded
      modifies this
      ensures Valid()
      ensures r == LoadOutcome() && (loaded <==> r.Ok?)
      ensures forall p :: p in parameters ==> p in old(parameters) || fresh(p)
      ensures |databaseLines| == 0 ==> (parameters == old(parameters) && parameterSets == old(parameterSets)
        && demographicAlternatives == old(demographicAlternatives) && demographicSwitches == old(demographicSwitches))
      ensures |databaseLines| > 0 ==>
        TablesRead(old(parameterSets), old(demographicAlternatives), old(demographicSwitches))
        && forall i :: 0 <= i < |parameters| ==> fresh(parameters[i])
    {
      var headers := LoadParameters();
      if headers.Err? {
        return Err(headers.error);
      }
      var switches := LoadSwitchesAndAlternatives(headers.value);
      if switches.Err? {
        return switches;
      }
      loaded := true;
      return Ok(());
    }

    /**
     * The parallel step of Load: both the switch and the alternative files
     * are read; a bad switch cell is reported once both are done.
     */
    method LoadSwitchesAndAlternatives(headers: seq<string>) returns (r: Result<(), LoadError>)
      requires Valid() && |databaseLines| > 0 && headers == ParseHeader(databaseLines[0]) && |headers| == |parameters|
      modifies this
      ensures Valid()
      ensures r == LoadOutcome()
      ensures demographicSwitches == old(demographicSwitches) + SwitchLines(SwitchData(), |headers|, 2).0
      ensures demographicAlternatives == old(demographicAlternatives) + KeptRows(AlternativeData(), |headers|)
      ensures parameters == old(parameters) && parameterSets == old(parameterSets) && loaded == old(loaded)
    {
      r := LoadSwitches(headers);
      LoadAlternatives(headers);
    }

    /** Load: read all three files once; a later call does nothing. */
    method Load() returns (r: Result<(), LoadError>)
      requires Valid()
      modifies this
      ensures Valid()
      ensures old(loaded) ==> (r == Ok(()) && loaded && parameters == old(parameters) && parameterSets == old(parameterSets)
        && demographicAlternatives == old(demographicAlternatives) && demographicSwitches == old(demographicSwitches))
      ensures !old(loaded) ==> (loaded <==> r.Ok?)
      ensures !old(loaded) && |databaseLines| == 0 ==> r == Err(MissingHeader)
      ensures !old(loaded) && r.Ok? ==> |parameters| == HeaderWidth()
      ensures forall p :: p in parameters ==> p in old(parameters) || fresh(p)
      ensures !old(loaded) ==> r == LoadOutcome()
      ensures !old(loaded) && |databaseLines| == 0 ==> (parameters == old(parameters) && parameterSets == old(parameterSets)
        && demographicAlternatives == old(demographicAlternatives) && demographicSwitches == old(demographicSwitches))
      ensures !old(loaded) && |databaseLines| > 0 ==>
        TablesRead(old(parameterSets), old(demographicAlternatives), old(demographicSwitches))
        && forall i :: 0 <= i < |parameters| ==> fresh(parameters[i])
    {
      if loaded {
        return Ok(());
      }
      r := LoadFiles();
    }

    /**
     * The three rows exist, and each parameter holds the set's value where
     * the switch row says true and the alternative value elsewhere.
     */
    ghost predicate ParametersChosen(parameterSetIndex: int, demographicIndex: int)
      reads this, parameters
    {
      0 <= parameterSetIndex < |parameterSets| && parameterSetIndex < |demographicAlternatives|
      && 0 <= demographicIndex < |demographicSwitches|
      && forall i :: 0 <= i < |parameters| ==>
        i < |demographicSwitches[demographicIndex]| && i < |parameterSets[parameterSetIndex]|
        && i < |demographicAlternatives[parameterSetIndex]|
        && parameters[i].value == Some(if demographicSwitches[demographicIndex][i] then parameterSets[parameterSetIndex][i]
                                       else demographicAlternatives[parameterSetIndex][i])
    }

    /**
     * SetupParameters: after the index checks, in this order, each parameter
     * takes the set's value when the switch row says true and the
     * alternative value otherwise.
     */
    method SetupParameters(parameterSetIndex: int, demographicIndex: int) returns (r: Result<(), LoadError>)
      requires Valid()
      modifies set p | p in parameters
      ensures r == SetupCheck(parameterSetIndex, demographicIndex, |parameterSets|, |demographicAlternatives|, |demographicSwitches|)
      ensures r.Err? ==> forall i :: 0 <= i < |parameters| ==> parameters[i].value == old(parameters[i].value)
      ensures r.Ok? ==> forall i :: 0 <= i < |parameters| ==>
        parameters[i].value == Some(if demographicSwitches[demographicIndex][i] then parameterSets[parameterSetIndex][i]
                                    else demographicAlternatives[parameterSetIndex][i])
      ensures r.Ok? ==> ParametersChosen(parameterSetIndex, demographicIndex)
    {
      var check := SetupCheck(parameterSetIndex, demographicIndex, |parameterSets|, |demographicAlternatives|, |demographicSwitches|);
      if check.Err? {
        return check;
      }
      var parameterSet := parameterSets[parameterSetIndex];
      var demographicAlternative := demographicAlternatives[parameterSetIndex];
      var demographicSwitchLine := demographicSwitches[demographicIndex];
      var length := |parameters|;
      var i := 0;
      while i < length
        invariant 0 <= i <= length
        invariant forall k :: 0 <= k < i ==>
          parameters[k].value == Some(if demographicSwitchLine[k] then parameterSet[k] else demographicAlternative[k])
      {
        if demographicSwitchLine[i] {
          parameters[i].value := Some(parameterSet[i]);
        } else {
          parameters[i].value := Some(demographicAlternative[i]);
        }
        i := i + 1;
      }
      return Ok(());
    }

    /** ApplyParameterSet: load on first use, then set up the parameters. */
    method ApplyParameterSet(parameterSetIndex: int, demographicIndex: int) returns (r: Result<(), LoadError>)
      requires Valid()
      modifies this, set p | p in parameters
      ensures old(loaded) ==> r == SetupCheck(parameterSetIndex, demographicIndex, |parameterSets|, |demographicAlternatives|, |demographicSwitches|)
      ensures !loaded ==> r.Err?
      ensures Valid()
      ensures old(loaded) ==> (loaded && parameters == old(parameters) && parameterSets == old(parameterSets)
        && demographicAlternatives == old(demographicAlternatives) && demographicSwitches == old(demographicSwitches))
      ensures !old(loaded) ==> (loaded <==> LoadOutcome().Ok?)
      ensures !old(loaded) && LoadOutcome().Err? ==> r == LoadOutcome()
      ensures !old(loaded) && |databaseLines| > 0 ==>
        TablesRead(old(parameterSets), old(demographicAlternatives), old(demographicSwitches))
      ensures loaded ==> r == SetupCheck(parameterSetIndex, demographicIndex, |parameterSets|, |demographicAlternatives|, |demographicSwitches|)
      ensures r.Ok? ==> ParametersChosen(parameterSetIndex, demographicIndex)
      ensures old(loaded) && r.Err? ==> forall i :: 0 <= i < |parameters| ==> parameters[i].value == old(parameters[i].value)
    {
      if !loaded {
        var loading := Load();
        if loading.Err? {
          return loading;
        }
      }
      r := SetupParameters(parameterSetIndex, demographicIndex);
    }
  }

  const NegativeSetMessage := "The Mode Choice Parameter Set has to have a non negative index!"
  const NegativeDemographicMessage := "The Mode Choice Demographic Parameter Set has to have a non negative index!"
  const ModeChoiceSetName := "The Mode Choice Parameter Set "
  const AlternativeSetName := "The Demographic Alternative Parameter Set "
  const DemographicSetName := "The Mode Choice Demographic Parameter Set "

  /** The message for a row index past the end of its table. */
  function MissingRowMessage(table: string, index: int): string
  {
    table + IntToString(index) + " does not exist, please check!"
  }

  /** The index checks of SetupParameters, in the order they are made, with their messages. */
  function SetupCheck(parameterSetIndex: int, demographicIndex: int, sets: nat, alternatives: nat, switches: nat): (r: Result<(), LoadError>)
    ensures r.Ok? <==> 0 <= parameterSetIndex < sets && parameterSetIndex < alternatives && 0 <= demographicIndex < switches
  {
    if parameterSetIndex < 0 then
      Err(SetupFailure(NegativeSetMessage))
    else if demographicIndex < 0 then
      Err(SetupFailure(NegativeDemographicMessage))
    else if parameterSetIndex >= sets then
      Err(SetupFailure(MissingRowMessage(ModeChoiceSetName, parameterSetIndex)))
    else if parameterSetIndex >= alternatives then
      Err(SetupFailure(MissingRowMessage(AlternativeSetName, parameterSetIndex)))
    else if demographicIndex >= switches then
      Err(SetupFailure(MissingRowMessage(DemographicSetName, demographicIndex)))
    else Ok(())
  }

  lemma SwitchLinesSkip(lines: seq<string>, width: nat, line: nat)
    requires lines != [] && |Split(lines[0], ',')| < width + 1
    ensures SwitchLines(lines, width, line) == SwitchLines(lines[1..], width, line + 1)
  {
  }

  lemma SwitchLinesBad(lines: seq<string>, width: nat, line: nat)
    requires lines != [] && |Split(lines[0], ',')| >= width + 1
    requires SwitchCells(Split(lines[0], ',')[1..width + 1]).Err?
    ensures var split := Split(lines[0], ',');
      var col := SwitchCells(split[1..width + 1]).error;
      SwitchLines(lines, width, line) == ([], Some(SwitchError(line, col, split[col + 1])))
  {
  }

  lemma SwitchLinesRow(whole: (seq<seq<bool>>, Option<SwitchError>), added: seq<seq<bool>>, lines: seq<string>, width: nat, line: nat)
    requires lines != [] && |Split(lines[0], ',')| >= width + 1
    requires SwitchCells(Split(lines[0], ',')[1..width + 1]).Ok?
    requires whole == (added + SwitchLines(lines, width, line).0, SwitchLines(lines, width, line).1)
    ensures var row := SwitchCells(Split(lines[0], ',')[1..width + 1]).value;
      whole == ((added + [row]) + SwitchLines(lines[1..], width, line + 1).0, SwitchLines(lines[1..], width, line + 1).1)
  {
    var row := SwitchCells(Split(lines[0], ',')[1..width + 1]).value;
    var rest := SwitchLines(lines[1..], width, line + 1);
    assert SwitchLines(lines, width, line) == ([row] + rest.0, rest.1);
    assert (added + [row]) + rest.0 == added + ([row] + rest.0);
  }
}
