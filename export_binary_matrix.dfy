/**
 * The EMME tool wrapper for 'TMG2.IO.ExportBinaryMatrix': it sends the
 * matrix type, the matrix number, the quoted file path and the scenario
 * number as one space-separated argument string through the modeller
 * bridge. The file path is given as the already resolved full path.
 */
module ExportBinaryMatrix {
  import opened Common
  import MC = ModellerController

  const ToolName := "TMG2.IO.ExportBinaryMatrix"
  const NotModellerMessage := "Controller is not a ModellerController!"

  /** The matrix types EMME knows: 1 scalar, 2 origin, 3 destination, 4 full. */
  predicate ValidMatrixType(matrixType: int)
  {
    1 <= matrixType <= 4
  }

  const InvalidTypeText := " is not a valid matrix type."
    + " Valid types are 1 for SCALAR, 2 for ORIGIN, 3 for DESTINATION, and 4 for FULL matrices."

  function InvalidTypeMessage(matrixType: int): string
  {
    "Matrix type " + IntToString(matrixType) + InvalidTypeText
  }

  function Quote(path: string): string
  {
    "\"" + path + "\""
  }

  /** The four fields of the argument string, in the tool's call order. */
  function ArgumentFields(matrixType: int, matrixNumber: int, path: string, scenarioNumber: int): seq<string>
  {
    [IntToString(matrixType), IntToString(matrixNumber), Quote(path), IntToString(scenarioNumber)]
  }

  /** string.Join(" ", ...) of the four fields. */
  function Arguments(matrixType: int, matrixNumber: int, path: string, scenarioNumber: int): string
  {
    Join(' ', ArgumentFields(matrixType, matrixNumber, path, scenarioNumber))
  }

  /**
   * For a path without spaces, splitting the argument string at spaces
   * gives back the four fields: the numbers as written and the quoted path.
   */
  lemma ArgumentsSplitBack(matrixType: int, matrixNumber: int, path: string, scenarioNumber: int)
    requires ' ' !in path
    ensures var fields := Split(Arguments(matrixType, matrixNumber, path, scenarioNumber), ' ');
      && |fields| == 4
      && fields[0] == IntToString(matrixType) && fields[1] == IntToString(matrixNumber)
      && fields[2] == Quote(path) && fields[2][1..|fields[2]| - 1] == path
      && fields[3] == IntToString(scenarioNumber)
  {
    var parts := ArgumentFields(matrixType, matrixNumber, path, scenarioNumber);
    assert ' ' != '-' && !IsDigit(' ');
    IntToStringHasNo(matrixType, ' ');
    IntToStringHasNo(matrixNumber, ' ');
    IntToStringHasNo(scenarioNumber, ' ');
    assert ' ' !in Quote(path) by {
      assert forall k :: 0 <= k < |path| ==> Quote(path)[k + 1] == path[k];
    }
    SplitJoin(parts, ' ');
    assert Quote(path)[1..|Quote(path)| - 1] == path;
  }

  /** The first `c` of a text is the one right after a prefix free of it. */
  lemma FirstOccurrence(s: string, prefix: string, c: char, rest: string)
    requires s == prefix + [c] + rest && c !in prefix
    ensures FindChar(s, c) == Some(|prefix|)
  {
    assert s[..|prefix|] == prefix;
    assert s[|prefix|] == c;
  }

  /**
   * Cutting `s` at its first two quotes gives `before`, then `quoted`
   * between them, then `after`.
   */
  predicate QuotedFields(s: string, before: string, quoted: string, after: string)
  {
    && FindChar(s, '"').Some?
    && var q := FindChar(s, '"').value;
    && s[..q] == before
    && FindChar(s[q + 1..], '"').Some?
    && var e := FindChar(s[q + 1..], '"').value;
    && s[q + 1..][..e] == quoted
    && s[q + 1..][e + 1..] == after
  }

  /** A text holding one quoted part, with no quote before it or inside it, cut at its quotes. */
  lemma CutAtQuotes(prefix: string, quoted: string, rest: string)
    requires '"' !in prefix && '"' !in quoted
    ensures QuotedFields(prefix + ['"'] + quoted + ['"'] + rest, prefix, quoted, rest)
  {
    var tail := quoted + ['"'] + rest;
    var s := prefix + ['"'] + quoted + ['"'] + rest;
    assert s == prefix + ['"'] + tail;
    FirstOccurrence(s, prefix, '"', tail);
    assert s[..|prefix|] == prefix;
    assert s[|prefix| + 1..] == tail;
    FirstOccurrence(tail, quoted, '"', rest);
    assert tail[..|quoted|] == quoted;
  }

  /** The argument string, cut at the quotes around the path. */
  lemma ArgumentsShape(matrixType: int, matrixNumber: int, path: string, scenarioNumber: int)
    ensures Arguments(matrixType, matrixNumber, path, scenarioNumber) ==
      Join(' ', [IntToString(matrixType), IntToString(matrixNumber), ""]) + ['"'] + path + ['"'] + ([' '] + IntToString(scenarioNumber))
  {
    var t, n, c := IntToString(matrixType), IntToString(matrixNumber), IntToString(scenarioNumber);
    assert Join(' ', [Quote(path), c]) == Quote(path) + [' '] + c;
    assert Join(' ', [n, Quote(path), c]) == n + [' '] + (Quote(path) + [' '] + c);
    assert Join(' ', [n, ""]) == n + [' '];
    assert Join(' ', [t, n, ""]) == t + [' '] + (n + [' ']);
  }

  /** The two numbers before the path: free of quotes, and split back at the spaces. */
  lemma NumbersBeforePath(matrixType: int, matrixNumber: int)
    ensures var prefix := Join(' ', [IntToString(matrixType), IntToString(matrixNumber), ""]);
      '"' !in prefix && Split(prefix, ' ') == [IntToString(matrixType), IntToString(matrixNumber), ""]
  {
    var t, n := IntToString(matrixType), IntToString(matrixNumber);
    assert ' ' != '-' && !IsDigit(' ') && '"' != '-' && !IsDigit('"');
    IntToStringHasNo(matrixType, '"');
    IntToStringHasNo(matrixNumber, '"');
    IntToStringHasNo(matrixType, ' ');
    IntToStringHasNo(matrixNumber, ' ');
    assert Join(' ', [n, ""]) == n + [' '];
    assert Join(' ', [t, n, ""]) == t + [' '] + (n + [' ']);
    SplitJoin([t, n, ""], ' ');
  }

  /**
   * Read with the quotes in mind, the argument string gives back the path
   * whatever spaces it holds: the two numbers precede the first quote, the
   * path runs from there to the next quote, and the scenario follows it.
   */
  lemma ArgumentsQuotedPath(matrixType: int, matrixNumber: int, path: string, scenarioNumber: int)
    requires '"' !in path
    ensures var before := Join(' ', [IntToString(matrixType), IntToString(matrixNumber), ""]);
      && QuotedFields(Arguments(matrixType, matrixNumber, path, scenarioNumber), before, path, [' '] + IntToString(scenarioNumber))
      && Split(before, ' ') == [IntToString(matrixType), IntToString(matrixNumber), ""]
  {
    var s := Arguments(matrixType, matrixNumber, path, scenarioNumber);
    var prefix := Join(' ', [IntToString(matrixType), IntToString(matrixNumber), ""]);
    var rest := [' '] + IntToString(scenarioNumber);
    ArgumentsShape(matrixType, matrixNumber, path, scenarioNumber);
    assert s == prefix + ['"'] + path + ['"'] + rest;
    NumbersBeforePath(matrixType, matrixNumber);
    CutAtQuotes(prefix, path, rest);
  }

  /** The validation as the source writes it: `MatrixType > 4 & MatrixType < 1`, which no value satisfies. */
  function RuntimeValidationAsWritten(matrixType: int): (error: Option<string>)
    ensures error == None
  {
    if matrixType > 4 && matrixType < 1 then Some(InvalidTypeMessage(matrixType)) else None
  }

  /** As written, an unknown matrix type such as 7 passes validation. */
  lemma InvalidTypePassesAsWritten()
    ensures !ValidMatrixType(7) && RuntimeValidationAsWritten(7).None?
  {
  }

  /** The intended validation: exactly the types outside 1..4 are refused, with the source's message. */
  function RuntimeValidation(matrixType: int): (error: Option<string>)
    ensures error.Some? <==> !ValidMatrixType(matrixType)
    ensures error.Some? ==> error.value == InvalidTypeMessage(matrixType)
  {
    if matrixType > 4 || matrixType < 1 then Some(InvalidTypeMessage(matrixType)) else None
  }

  class ExportBinaryMatrixFromEmme {
    const matrixType: int
    const matrixNumber: int
    const scenarioNumber: int
    var progress: real

    constructor(matrixType: int, matrixNumber: int, scenarioNumber: int)
      ensures this.matrixType == matrixType && this.matrixNumber == matrixNumber
      ensures this.scenarioNumber == scenarioNumber && progress == 0.0
    {
      this.matrixType := matrixType;
      this.matrixNumber := matrixNumber;
      this.scenarioNumber := scenarioNumber;
      progress := 0.0;
    }

    /**
     * Runs the tool through a modeller controller with a callback that
     * stores each reported progress; `modeller` says whether the controller
     * is a ModellerController. Unlike the network-table export, the
     * progress is not reset first.
     */
    method Execute(modeller: bool, mc: MC.Controller, path: string)
      returns (r: Result<bool, MC.ToolError>, ghost events: seq<MC.Event>)
      requires mc.pipeFromEmme != null ==> mc.pipeFromEmme.Valid()
      modifies this, mc.pipeToEmme, mc.pipeFromEmme
      ensures !modeller ==>
        r == Err(MC.NotModeller(NotModellerMessage)) && progress == old(progress)
        && (mc.pipeToEmme != null ==> unchanged(mc.pipeToEmme)) && (mc.pipeFromEmme != null ==> unchanged(mc.pipeFromEmme))
      ensures modeller ==> progress == MC.ProgressAfter(events, old(progress))
      ensures modeller && old(mc.pipeToEmme) != null && mc.pipeToEmme.Writable() ==>
        mc.pipeToEmme.written == old(mc.pipeToEmme.written)
                                 + MC.RunRequest(ToolName, Arguments(matrixType, matrixNumber, path, scenarioNumber))
      ensures modeller && old(mc.pipeToEmme) != null && mc.pipeToEmme.Writable() && mc.pipeFromEmme != null ==>
        var reply := MC.Respond(old(mc.pipeFromEmme.Rest()), mc.pipeFromEmme.breaksAtEnd, true);
        events == reply.events && (r.Ok? <==> reply.outcome.Ok?) && (r.Ok? ==> r.value)
    {
      if !modeller {
        return Err(MC.NotModeller(NotModellerMessage)), [];
      }
      var args := Arguments(matrixType, matrixNumber, path, scenarioNumber);
      var outcome, evs := mc.Run(ToolName, args, true);
      events := evs;
      progress := MC.ProgressAfter(evs, progress);
      if outcome.Err? {
        return Err(MC.Bridge(outcome.error)), events;
      }
      r := Ok(true);
    }
  }
}
