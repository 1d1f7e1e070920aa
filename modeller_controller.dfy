/**
 * The XTMF side of the EMME Modeller bridge (TMG.Emme.ModellerController):
 * requests written to the pipe towards EMME, the receive loop that waits for
 * EMME's answer, the start handshake, disposal, and the search for EMME's
 * Python directory.
 *
 * Outbound traffic is a sequence of tokens (an Int32 written by
 * BinaryWriter.Write(int) or a string written by BinaryWriter.Write(string));
 * their byte encoding is given separately below. Inbound traffic is a
 * sequence of already-split units (an Int32, a Single, or one char); a unit
 * of another kind where one is expected is reported as `Malformed`, a case
 * the byte stream itself cannot express.
 */
module ModellerController {
  import opened Common

  // ---------------------------------------------------------------------
  // Signal numbers of the bridge protocol
  // ---------------------------------------------------------------------

  const SignalStart := 0
  const SignalTermination := 1
  const SignalStartModule := 2
  const SignalRunComplete := 3
  const SignalParameterError := 4
  const SignalRuntimeError := 5
  const SignalCleanLogbook := 6
  const SignalProgressReport := 7
  const SignalRunCompleteWithParameter := 8
  const SignalCheckToolExists := 9
  const SignalToolDoesNotExistError := 10
  const SignalSentPrintMessage := 11
  const SignalDisableLogbook := 12
  const SignalEnableLogbook := 13
  const SignalStartModuleBinaryParameters := 14

  // ---------------------------------------------------------------------
  // Byte encoding used by BinaryWriter (little-endian Int32, 7-bit length
  // prefix, UTF-8 characters)
  // ---------------------------------------------------------------------

  newtype byte = x: int | 0 <= x < 256

  const TwoTo31: int := 0x8000_0000
  const TwoTo32: int := 0x1_0000_0000

  predicate IsInt32(v: int)
  {
    -TwoTo31 <= v < TwoTo31
  }

  /** BinaryWriter.Write(int): four bytes, least significant first, two's complement. */
  function Int32Bytes(v: int): (bs: seq<byte>)
    requires IsInt32(v)
    ensures |bs| == 4
  {
    var u := if v < 0 then v + TwoTo32 else v;
    var q1 := u / 256;
    var q2 := q1 / 256;
    var q3 := q2 / 256;
    [(u % 256) as byte, (q1 % 256) as byte, (q2 % 256) as byte, q3 as byte]
  }

  /** BinaryReader.ReadInt32 over the first four bytes. */
  function ReadInt32Bytes(bs: seq<byte>): int
    requires |bs| >= 4
  {
    var u := bs[0] as int + 256 * (bs[1] as int) + 65536 * (bs[2] as int) + 16777216 * (bs[3] as int);
    if u >= TwoTo31 then u - TwoTo32 else u
  }

  lemma Int32RoundTrip(v: int, tail: seq<byte>)
    requires IsInt32(v)
    ensures ReadInt32Bytes(Int32Bytes(v) + tail) == v
  {
    var u := if v < 0 then v + TwoTo32 else v;
    var q1 := u / 256;
    var q2 := q1 / 256;
    var q3 := q2 / 256;
    assert u == u % 256 + 256 * q1;
    assert q1 == q1 % 256 + 256 * q2;
    assert q2 == q2 % 256 + 256 * q3;
    assert u == u % 256 + 256 * (q1 % 256) + 65536 * (q2 % 256) + 16777216 * q3;
  }

  /** The 7-bit encoded length BinaryWriter puts before a string: low groups first, high bit = more. */
  function SevenBitEncode(n: nat): (bs: seq<byte>)
    ensures |bs| >= 1
    ensures forall i :: 0 <= i < |bs| ==> (bs[i] < 128 <==> i == |bs| - 1)
  {
    if n < 128 then [n as byte]
    else
      var more := SevenBitEncode(n / 128);
      var bs := [(n % 128 + 128) as byte] + more;
      assert forall i :: 1 <= i < |bs| ==> bs[i] == more[i - 1];
      bs
  }

  /** BinaryReader's reading of a 7-bit encoded length: the value and the bytes it took. */
  function SevenBitDecode(bs: seq<byte>): (r: Option<(nat, nat)>)
    ensures r.Some? ==> 1 <= r.value.1 <= |bs| && bs[r.value.1 - 1] < 128
    ensures r.Some? ==> forall i :: 0 <= i < r.value.1 - 1 ==> bs[i] >= 128
    ensures r.None? ==> forall i :: 0 <= i < |bs| ==> bs[i] >= 128
  {
    if bs == [] then None
    else if bs[0] < 128 then Some((bs[0] as nat, 1))
    else match SevenBitDecode(bs[1..])
      case None => None
      case Some(p) => Some((bs[0] as int - 128 + 128 * p.0, p.1 + 1))
  }

  lemma {:induction false} SevenBitRoundTrip(n: nat, tail: seq<byte>)
    ensures SevenBitDecode(SevenBitEncode(n) + tail) == Some((n, |SevenBitEncode(n)|))
  {
    if n >= 128 {
      var e := SevenBitEncode(n);
      assert e == [(n % 128 + 128) as byte] + SevenBitEncode(n / 128);
      assert (e + tail)[1..] == SevenBitEncode(n / 128) + tail;
      SevenBitRoundTrip(n / 128, tail);
    }
  }

  /** UTF-8 bytes of one Unicode scalar value. */
  function Utf8(c: char): (bs: seq<byte>)
    ensures 1 <= |bs| <= 4
    ensures (c as int) < 0x80 <==> |bs| == 1
    ensures bs[0] < 0x80 || bs[0] >= 0xC0
    ensures forall i :: 1 <= i < |bs| ==> 0x80 <= bs[i] < 0xC0
  {
    var v := c as int;
    if v < 0x80 then [v as byte]
    else if v < 0x800 then [(0xC0 + v / 64) as byte, (0x80 + v % 64) as byte]
    else if v < 0x10000 then
      [(0xE0 + v / 4096) as byte, (0x80 + v / 64 % 64) as byte, (0x80 + v % 64) as byte]
    else
      [(0xF0 + v / 262144) as byte, (0x80 + v / 4096 % 64) as byte,
       (0x80 + v / 64 % 64) as byte, (0x80 + v % 64) as byte]
  }

  function Utf8String(s: string): seq<byte>
  {
    if s == [] then [] else Utf8(s[0]) + Utf8String(s[1..])
  }

  /** BinaryWriter.Write(string): the UTF-8 byte count, 7-bit encoded, then the bytes. */
  function StringBytes(s: string): seq<byte>
  {
    SevenBitEncode(|Utf8String(s)|) + Utf8String(s)
  }

  /** A reader of a written string finds its byte count first and the bytes right after it. */
  lemma StringFraming(s: string, tail: seq<byte>)
    ensures var k := |SevenBitEncode(|Utf8String(s)|)|;
            SevenBitDecode(StringBytes(s) + tail) == Some((|Utf8String(s)|, k))
            && (StringBytes(s) + tail)[k..k + |Utf8String(s)|] == Utf8String(s)
  {
    var n := |Utf8String(s)|;
    assert StringBytes(s) + tail == SevenBitEncode(n) + (Utf8String(s) + tail);
    SevenBitRoundTrip(n, Utf8String(s) + tail);
  }

  /** An ASCII string is written as its length and its characters' codes. */
  lemma {:induction false} AsciiStringBytes(s: string)
    requires forall i :: 0 <= i < |s| ==> (s[i] as int) < 0x80
    ensures |Utf8String(s)| == |s|
    ensures forall i :: 0 <= i < |s| ==> Utf8String(s)[i] as int == s[i] as int
  {
    if s != [] {
      AsciiStringBytes(s[1..]);
      assert Utf8String(s) == [s[0] as int as byte] + Utf8String(s[1..]);
    }
  }

  // ---------------------------------------------------------------------
  // Outbound requests, as token sequences
  // ---------------------------------------------------------------------

  datatype Token = IntToken(i: int) | StrToken(s: string)

  /** A named value sent to a tool in a structured run request. */
  datatype Parameter = Parameter(name: string, value: string)

  function TokenBytes(t: Token): seq<byte>
    requires t.IntToken? ==> IsInt32(t.i)
  {
    match t
      case IntToken(i) => Int32Bytes(i)
      case StrToken(s) => StringBytes(s)
  }

  /** The token's four bytes read back, as EMME reads a signal, give `signal`. */
  predicate SignalToken(t: Token, signal: int)
  {
    t.IntToken? && IsInt32(t.i) && ReadInt32Bytes(TokenBytes(t)) == signal
  }

  /** The token's bytes read back, as EMME reads a string, give the byte count and then the UTF-8 bytes of `s`. */
  predicate StringToken(t: Token, s: string)
  {
    var k := |SevenBitEncode(|Utf8String(s)|)|;
    t.StrToken? && SevenBitDecode(TokenBytes(t)) == Some((|Utf8String(s)|, k))
    && |TokenBytes(t)| == k + |Utf8String(s)| && TokenBytes(t)[k..] == Utf8String(s)
  }

  lemma SignalTokenRead(v: int)
    requires IsInt32(v)
    ensures SignalToken(IntToken(v), v)
  {
    Int32RoundTrip(v, []);
    assert Int32Bytes(v) + [] == Int32Bytes(v);
  }

  lemma StringTokenRead(s: string)
    ensures StringToken(StrToken(s), s)
  {
    StringFraming(s, []);
    assert StringBytes(s) + [] == StringBytes(s);
  }

  /** The clean-logbook request: its signal alone. */
  function CleanLogbookRequest(): (r: seq<Token>)
    ensures |r| == 1 && SignalToken(r[0], SignalCleanLogbook)
  {
    SignalTokenRead(SignalCleanLogbook);
    [IntToken(SignalCleanLogbook)]
  }

  /** The check-tool request: its signal, then the tool's namespace. */
  function CheckToolExistsRequest(toolNamespace: string): (r: seq<Token>)
    ensures |r| == 2 && SignalToken(r[0], SignalCheckToolExists) && StringToken(r[1], toolNamespace)
  {
    SignalTokenRead(SignalCheckToolExists);
    StringTokenRead(toolNamespace);
    [IntToken(SignalCheckToolExists), StrToken(toolNamespace)]
  }

  /** The run request: its signal, the macro name, then the argument string. */
  function RunRequest(macroName: string, arguments: string): seq<Token>
  {
    [IntToken(SignalStartModule), StrToken(macroName), StrToken(arguments)]
  }

  /**
   * EMME reads the run request back as signal 2, the macro name and the
   * argument string. (Kept out of RunRequest's own contract, which every
   * caller that sends a run request would otherwise carry.)
   */
  lemma RunRequestReadsBack(macroName: string, arguments: string)
    ensures var r := RunRequest(macroName, arguments);
      |r| == 3 && SignalToken(r[0], SignalStartModule) && StringToken(r[1], macroName) && StringToken(r[2], arguments)
  {
    SignalTokenRead(SignalStartModule);
    StringTokenRead(macroName);
    StringTokenRead(arguments);
  }

  /** The termination request: its signal alone. */
  function TerminationRequest(): (r: seq<Token>)
    ensures |r| == 1 && SignalToken(r[0], SignalTermination)
  {
    SignalTokenRead(SignalTermination);
    [IntToken(SignalTermination)]
  }

  function NameTokens(ps: seq<Parameter>): (ts: seq<Token>)
    ensures |ts| == |ps| && forall i :: 0 <= i < |ps| ==> ts[i] == StrToken(ps[i].name)
  {
    if ps == [] then [] else [StrToken(ps[0].name)] + NameTokens(ps[1..])
  }

  function ValueTokens(ps: seq<Parameter>): (ts: seq<Token>)
    ensures |ts| == |ps| && forall i :: 0 <= i < |ps| ==> ts[i] == StrToken(ps[i].value)
  {
    if ps == [] then [] else [StrToken(ps[0].value)] + ValueTokens(ps[1..])
  }

  /**
   * The structured run request: signal 14, the tool name, the parameter count
   * as decimal text, every name, then every value; "0" alone for a null array.
   */
  function StructuredRunRequest(macroName: string, arguments: Option<seq<Parameter>>): (ts: seq<Token>)
    ensures |ts| >= 3 && ts[..2] == [IntToken(SignalStartModuleBinaryParameters), StrToken(macroName)]
    ensures arguments.None? ==> ts == [IntToken(SignalStartModuleBinaryParameters), StrToken(macroName), StrToken("0")]
    ensures arguments.Some? ==>
      var n := |arguments.value|;
      |ts| == 3 + 2 * n && ts[2] == StrToken(IntToString(n))
      && (forall i :: 0 <= i < n ==> ts[3 + i] == StrToken(arguments.value[i].name))
      && (forall i :: 0 <= i < n ==> ts[3 + n + i] == StrToken(arguments.value[i].value))
  {
    var head := [IntToken(SignalStartModuleBinaryParameters), StrToken(macroName)];
    match arguments
      case None => head + [StrToken("0")]
      case Some(ps) => head + [StrToken(IntToString(|ps|))] + NameTokens(ps) + ValueTokens(ps)
  }

  predicate AllStrTokens(ts: seq<Token>)
  {
    forall i :: 0 <= i < |ts| ==> ts[i].StrToken?
  }

  function ZipParameters(names: seq<Token>, values: seq<Token>): (ps: seq<Parameter>)
    requires |names| == |values| && AllStrTokens(names) && AllStrTokens(values)
    ensures |ps| == |names|
  {
    seq(|names|, i requires 0 <= i < |names| => Parameter(names[i].s, values[i].s))
  }

  /** How the EMME side reads a structured run request back. */
  function ParseStructuredRunRequest(ts: seq<Token>): (r: Option<(string, seq<Parameter>)>)
    ensures r.Some? ==> (|ts| >= 3 && ts[0] == IntToken(SignalStartModuleBinaryParameters)
                         && ts[1] == StrToken(r.value.0) && |ts| == 3 + 2 * |r.value.1|)
    ensures r.Some? ==> var n := |r.value.1|;
      forall i :: 0 <= i < n ==> ts[3 + i] == StrToken(r.value.1[i].name) && ts[3 + n + i] == StrToken(r.value.1[i].value)
  {
    if |ts| < 3 || ts[0] != IntToken(SignalStartModuleBinaryParameters) || !AllStrTokens(ts[1..])
       || ts[2].s == [] || !AllDigits(ts[2].s)
    then None
    else
      var n := DecimalValue(ts[2].s);
      if |ts| != 3 + 2 * n then None
      else Some((ts[1].s, ZipParameters(ts[3..3 + n], ts[3 + n..])))
  }

  /** Every structured request can be read back into the tool name and its parameters. */
  lemma StructuredRunRequestRoundTrip(macroName: string, arguments: Option<seq<Parameter>>)
    ensures ParseStructuredRunRequest(StructuredRunRequest(macroName, arguments))
            == Some((macroName, if arguments.Some? then arguments.value else []))
  {
    var ts := StructuredRunRequest(macroName, arguments);
    if arguments.Some? {
      var ps := arguments.value;
      NatToStringRoundTrip(|ps|);
      assert ts[2].s == NatToString(|ps|);
      RequestTokensAreStrings(ts, ps);
      RequestZipsBack(ts, ps);
    } else {
      assert ts[2].s == "0" == NatToString(0);
      NatToStringRoundTrip(0);
      assert AllStrTokens(ts[1..]);
      assert ZipParameters(ts[3..3], ts[3..]) == [];
    }
  }

  lemma RequestTokensAreStrings(ts: seq<Token>, ps: seq<Parameter>)
    requires |ts| == 3 + 2 * |ps| && ts[1].StrToken? && ts[2].StrToken?
    requires forall i :: 0 <= i < |ps| ==> ts[3 + i] == StrToken(ps[i].name)
    requires forall i :: 0 <= i < |ps| ==> ts[3 + |ps| + i] == StrToken(ps[i].value)
    ensures AllStrTokens(ts[1..])
  {
    var n := |ps|;
    forall i | 1 <= i < |ts| ensures ts[i].StrToken? {
      if i >= 3 + n {
        var j := i - 3 - n;
        assert ts[3 + n + j] == StrToken(ps[j].value);
      } else if i >= 3 {
        var j := i - 3;
        assert ts[3 + j] == StrToken(ps[j].name);
      }
    }
  }

  lemma RequestZipsBack(ts: seq<Token>, ps: seq<Parameter>)
    requires |ts| == 3 + 2 * |ps|
    requires forall i :: 0 <= i < |ps| ==> ts[3 + i] == StrToken(ps[i].name)
    requires forall i :: 0 <= i < |ps| ==> ts[3 + |ps| + i] == StrToken(ps[i].value)
    ensures AllStrTokens(ts[3..3 + |ps|]) && AllStrTokens(ts[3 + |ps|..])
    ensures ZipParameters(ts[3..3 + |ps|], ts[3 + |ps|..]) == ps
  {
    var n := |ps|;
    var names := ts[3..3 + n];
    var values := ts[3 + n..];
    forall i | 0 <= i < n
      ensures names[i] == StrToken(ps[i].name) && values[i] == StrToken(ps[i].value)
    {
      assert names[i] == ts[3 + i] && values[i] == ts[3 + n + i];
    }
    var zipped := ZipParameters(names, values);
    assert forall i :: 0 <= i < n ==> zipped[i] == ps[i];
  }

  // ---------------------------------------------------------------------
  // Inbound traffic and the errors the bridge reports
  // ---------------------------------------------------------------------

  datatype Unit = Int32(i: int) | Single(f: real) | Char(c: char)

  datatype BridgeError =
    | LicenseLost                       // EndOfStreamException while reading
    | ConnectionLost                    // IOException while reading
    | SendFailed                        // IOException while writing
    | Disposed                          // EnsureWriteAvailable on a disposed bridge
    | NoStream                          // a null pipe handed to a reader or writer
    | Panicked                          // signal 1
    | ToolParameterError(message: string)   // signal 4, EmmeToolParameterException
    | ToolRuntimeError(message: string)     // signal 5, EmmeToolRuntimeException
    | ToolNotFound(message: string)         // signal 10, EmmeToolCouldNotBeFoundException
    | UnknownSignal(signal: int)
    | NegativeLength
    | Malformed                         // a unit of the wrong kind (no byte-level counterpart)
    | NoEmmeInstallation(path: string)
    | NoPythonDirectory

  /** The text each error carries to the user. */
  function ErrorMessage(e: BridgeError): string
  {
    match e
      case LicenseLost =>
        "We were unable to communicate with EMME.  Please make sure you have an active EMME license.  "
        + "If the problem persists, sometimes rebooting has helped fix this issue with EMME."
      case ConnectionLost => "I/O Connection with EMME ended while waiting for data, with:\r\n"
      case SendFailed => "I/O Connection with EMME while sending data, with:\r\n"
      case Disposed => "EMME Bridge was invoked even though it has already been disposed."
      case NoStream => "Value cannot be null."
      case Panicked => "The EMME ModellerBridge panicked and unexpectedly shutdown."
      case ToolParameterError(m) => m
      case ToolRuntimeError(m) => m
      case ToolNotFound(m) => m
      case UnknownSignal(n) => "Unknown message passed back from the EMME ModellerBridge.  Signal number " + IntToString(n)
      case NegativeLength => "Received a negative length for a string coming across the bridge!"
      case Malformed => "Malformed message"
      case NoEmmeInstallation(p) =>
        "We were unable to find an EMME installation in the directory named '" + p
        + "'!\r\nIf you have just installed EMME please reboot your system."
      case NoPythonDirectory => "We were unable to find a version of python inside of EMME!"
  }

  /** What a read at the end of the inbound units fails with. */
  function EndError(breaksAtEnd: bool): BridgeError
  {
    if breaksAtEnd then ConnectionLost else LicenseLost
  }

  /** A decoding result and the number of units it took. */
  datatype Decoded<T> = Decoded(result: Result<T, BridgeError>, consumed: nat)

  function ReadInt32Spec(rest: seq<Unit>, breaksAtEnd: bool): (d: Decoded<int>)
    ensures d.consumed <= |rest|
  {
    if rest == [] then Decoded(Err(EndError(breaksAtEnd)), 0)
    else if rest[0].Int32? then Decoded(Ok(rest[0].i), 1)
    else Decoded(Err(Malformed), 0)
  }

  /** How many char units lead `rest`, up to `count`: what one BinaryReader.Read can deliver. */
  function CharRun(rest: seq<Unit>, count: nat): (n: nat)
    ensures n <= count && n <= |rest|
    ensures forall i :: 0 <= i < n ==> rest[i].Char?
    ensures n < count ==> n == |rest| || !rest[n].Char?
  {
    if count == 0 || rest == [] || !rest[0].Char? then 0 else 1 + CharRun(rest[1..], count - 1)
  }

  function Chars(us: seq<Unit>): (s: string)
    requires forall i :: 0 <= i < |us| ==> us[i].Char?
    ensures |s| == |us| && forall i :: 0 <= i < |us| ==> s[i] == us[i].c
  {
    seq(|us|, i requires 0 <= i < |us| => us[i].c)
  }

  /**
   * ReadString: a length, an error if it is negative, then exactly that many
   * characters; running out of characters is reported like any read past the end.
   */
  function DecodeString(rest: seq<Unit>, breaksAtEnd: bool): (d: Decoded<string>)
    ensures d.consumed <= |rest|
    ensures d.result.Ok? ==> d.consumed == 1 + |d.result.value| && rest[0] == Int32(|d.result.value|)
  {
    var len := ReadInt32Spec(rest, breaksAtEnd);
    if len.result.Err? then Decoded(Err(len.result.error), len.consumed)
    else if len.result.value < 0 then Decoded(Err(NegativeLength), 1)
    else
      var length := len.result.value;
      var n := CharRun(rest[1..], length);
      if n == length then Decoded(Ok(Chars(rest[1..1 + n])), 1 + n)
      else Decoded(Err(if 1 + n == |rest| then EndError(breaksAtEnd) else Malformed), 1 + n)
  }

  /** What the receive loop hands to the outside world besides its result. */
  datatype Event =
    | ConsoleWrite(text: string)        // Console.Write of a print message
    | ConsoleWriteLine(text: string)    // Console.WriteLine before an unknown-signal error
    | ProgressReported(progress: real)  // one call of the progress callback

  /** How an EMME tool's Execute fails. */
  datatype ToolError =
    | NotModeller(message: string)        // the controller given is not a ModellerController
    | Bridge(error: BridgeError)          // the run through the bridge failed

  /**
   * The value held by a progress callback that stores its argument (as the
   * tools' `p => Progress = p`), after the events, starting from `initial`.
   */
  function ProgressAfter(events: seq<Event>, initial: real): real
  {
    if events == [] then initial
    else if events[|events| - 1].ProgressReported? then events[|events| - 1].progress
    else ProgressAfter(events[..|events| - 1], initial)
  }

  /** What one turn of the receive loop decides: keep waiting, or stop with an outcome. */
  datatype Step =
    | Continue(added: seq<Event>)
    | Stop(outcome: Result<Option<string>, BridgeError>, added: seq<Event>)

  /** The outcome of the receive loop: Ok(None) for signal 3, Ok(Some(v)) for signal 8 with value v. */
  datatype Reply = Reply(outcome: Result<Option<string>, BridgeError>, events: seq<Event>, consumed: nat)

  function Shift(k: nat, evs: seq<Event>, r: Reply): Reply
  {
    Reply(r.outcome, evs + r.events, k + r.consumed)
  }

  const UnknownSignalNotice := "An unknown message was passed back through the bridge!"

  /** Signals followed by a string: the return value, the three errors, and a print message. */
  predicate IsStringSignal(signal: int)
  {
    signal == SignalRunCompleteWithParameter || signal == SignalParameterError || signal == SignalRuntimeError
    || signal == SignalToolDoesNotExistError || signal == SignalSentPrintMessage
  }

  /** The answer of WaitForEmmeResponse to the inbound units from the current position on. */
  function Respond(rest: seq<Unit>, breaksAtEnd: bool, reportProgress: bool): (r: Reply)
    ensures r.consumed <= |rest|
    decreases |rest|, 2
  {
    if rest == [] then Reply(Err(EndError(breaksAtEnd)), [], 0)
    else if !rest[0].Int32? then Reply(Err(Malformed), [], 0)
    else Shift(1, [], Answer(rest[0].i, rest[1..], breaksAtEnd, reportProgress))
  }

  /** The loop's answer once it has read `signal`, with `tail` still waiting. */
  function Answer(signal: int, tail: seq<Unit>, breaksAtEnd: bool, reportProgress: bool): (r: Reply)
    ensures r.consumed <= |tail|
    decreases |tail| + 1, 1
  {
    if signal == SignalStart then Respond(tail, breaksAtEnd, reportProgress)
    else if signal == SignalRunComplete then Reply(Ok(None), [], 0)
    else if signal == SignalTermination then Reply(Err(Panicked), [], 0)
    else if signal == SignalProgressReport then
      if tail == [] then Reply(Err(EndError(breaksAtEnd)), [], 0)
      else if !tail[0].Single? then Reply(Err(Malformed), [], 0)
      else
        var evs := if reportProgress then [ProgressReported(tail[0].f)] else [];
        Shift(1, evs, Respond(tail[1..], breaksAtEnd, reportProgress))
    else if IsStringSignal(signal) then
      StringAnswer(signal, DecodeString(tail, breaksAtEnd), tail, breaksAtEnd, reportProgress)
    else Reply(Err(UnknownSignal(signal)), [ConsoleWriteLine(UnknownSignalNotice)], 0)
  }

  /** The loop's answer to a signal that carries a string, once the string is decoded. */
  function StringAnswer(signal: int, d: Decoded<string>, tail: seq<Unit>, breaksAtEnd: bool, reportProgress: bool): (r: Reply)
    requires d.consumed <= |tail|
    ensures r.consumed <= |tail|
    decreases |tail| + 1, 0
  {
    if d.result.Err? then Reply(Err(d.result.error), [], d.consumed)
    else
      var s := d.result.value;
      if signal == SignalRunCompleteWithParameter then Reply(Ok(Some(s)), [], d.consumed)
      else if signal == SignalParameterError then Reply(Err(ToolParameterError("EMME Parameter Error: " + s)), [], d.consumed)
      else if signal == SignalRuntimeError then Reply(Err(ToolRuntimeError("EMME Runtime " + s)), [], d.consumed)
      else if signal == SignalToolDoesNotExistError then Reply(Err(ToolNotFound(s)), [], d.consumed)
      else Shift(d.consumed, [ConsoleWrite(s)], Respond(tail[d.consumed..], breaksAtEnd, reportProgress))
  }

  /** The answer of WaitForStartSignal: only signal 0 is accepted. */
  function StartReply(rest: seq<Unit>, breaksAtEnd: bool): (r: Decoded<bool>)
    ensures r.result.Ok? <==> |rest| > 0 && rest[0] == Int32(SignalStart)
  {
    var sig := ReadInt32Spec(rest, breaksAtEnd);
    if sig.result.Err? then Decoded(Err(sig.result.error), sig.consumed)
    else if sig.result.value == SignalStart then Decoded(Ok(true), 1)
    else Decoded(Err(UnknownSignal(sig.result.value)), 1)
  }

  // ---------------------------------------------------------------------
  // Inbound messages as EMME sends them, and the loop's answer to a script
  // ---------------------------------------------------------------------

  datatype Incoming =
    | StartAck
    | Complete
    | CompleteWith(value: string)
    | Terminate
    | ParameterFailure(message: string)
    | RuntimeFailure(message: string)
    | ToolMissing(message: string)
    | Print(text: string)
    | Progress(progress: real)
    | Unrecognised(signal: int)

  function StringUnits(s: string): (us: seq<Unit>)
    ensures |us| == 1 + |s| && us[0] == Int32(|s|)
    ensures forall i :: 0 <= i < |s| ==> us[1 + i] == Char(s[i])
  {
    [Int32(|s|)] + seq(|s|, i requires 0 <= i < |s| => Char(s[i]))
  }

  function EncodeIncoming(m: Incoming): seq<Unit>
  {
    match m
      case StartAck => [Int32(SignalStart)]
      case Complete => [Int32(SignalRunComplete)]
      case CompleteWith(v) => [Int32(SignalRunCompleteWithParameter)] + StringUnits(v)
      case Terminate => [Int32(SignalTermination)]
      case ParameterFailure(msg) => [Int32(SignalParameterError)] + StringUnits(msg)
      case RuntimeFailure(msg) => [Int32(SignalRuntimeError)] + StringUnits(msg)
      case ToolMissing(msg) => [Int32(SignalToolDoesNotExistError)] + StringUnits(msg)
      case Print(t) => [Int32(SignalSentPrintMessage)] + StringUnits(t)
      case Progress(p) => [Int32(SignalProgressReport), Single(p)]
      case Unrecognised(n) => [Int32(n)]
  }

  predicate IsKnownSignal(n: int)
  {
    0 <= n <= 14
  }

  predicate IsHandledSignal(n: int)
  {
    n in {SignalStart, SignalRunComplete, SignalRunCompleteWithParameter, SignalTermination,
          SignalParameterError, SignalRuntimeError, SignalToolDoesNotExistError,
          SignalSentPrintMessage, SignalProgressReport}
  }

  /** Messages after which the loop keeps waiting. */
  predicate IsIntermediate(m: Incoming)
  {
    m.StartAck? || m.Print? || m.Progress?
  }

  predicate WellFormedIncoming(m: Incoming)
  {
    m.Unrecognised? ==> !IsHandledSignal(m.signal)
  }

  function EncodeScript(ms: seq<Incoming>): seq<Unit>
  {
    if ms == [] then [] else EncodeIncoming(ms[0]) + EncodeScript(ms[1..])
  }

  /** What one intermediate message makes the loop do outside. */
  function IntermediateEvents(m: Incoming, reportProgress: bool): seq<Event>
  {
    match m
      case Print(t) => [ConsoleWrite(t)]
      case Progress(p) => if reportProgress then [ProgressReported(p)] else []
      case _ => []
  }

  function ScriptEvents(ms: seq<Incoming>, reportProgress: bool): seq<Event>
  {
    if ms == [] then [] else IntermediateEvents(ms[0], reportProgress) + ScriptEvents(ms[1..], reportProgress)
  }

  /** What the loop ends with when a final message arrives. */
  function FinalOutcome(m: Incoming): Result<Option<string>, BridgeError>
  {
    match m
      case Complete => Ok(None)
      case CompleteWith(v) => Ok(Some(v))
      case Terminate => Err(Panicked)
      case ParameterFailure(msg) => Err(ToolParameterError("EMME Parameter Error: " + msg))
      case RuntimeFailure(msg) => Err(ToolRuntimeError("EMME Runtime " + msg))
      case ToolMissing(msg) => Err(ToolNotFound(msg))
      case Unrecognised(n) => Err(UnknownSignal(n))
      case _ => Ok(None)
  }

  function FinalEvents(m: Incoming): seq<Event>
  {
    if m.Unrecognised? then [ConsoleWriteLine(UnknownSignalNotice)] else []
  }

  lemma DecodeStringUnits(s: string, tail: seq<Unit>, breaksAtEnd: bool)
    ensures DecodeString(StringUnits(s) + tail, breaksAtEnd) == Decoded(Ok(s), 1 + |s|)
  {
    var rest := StringUnits(s) + tail;
    assert rest[1..][..|s|] == rest[1..1 + |s|];
    assert forall i :: 0 <= i < |s| ==> rest[1..][i] == Char(s[i]);
    assert CharRun(rest[1..], |s|) == |s|;
    assert Chars(rest[1..1 + |s|]) == s;
  }

  /** Reading a signal: the loop's answer is the signal's answer, one unit later. */
  lemma RespondStep(rest: seq<Unit>, breaksAtEnd: bool, reportProgress: bool)
    requires rest != [] && rest[0].Int32?
    ensures Respond(rest, breaksAtEnd, reportProgress)
            == Shift(1, [], Answer(rest[0].i, rest[1..], breaksAtEnd, reportProgress))
  {
  }

  /** A signal followed by a well-formed string. */
  lemma AnswerWithString(signal: int, s: string, tail: seq<Unit>, breaksAtEnd: bool, reportProgress: bool)
    requires IsStringSignal(signal)
    ensures Answer(signal, StringUnits(s) + tail, breaksAtEnd, reportProgress)
            == StringAnswer(signal, Decoded(Ok(s), 1 + |s|), StringUnits(s) + tail, breaksAtEnd, reportProgress)
  {
    DecodeStringUnits(s, tail, breaksAtEnd);
  }

  /** A final message that carries a string. */
  lemma RespondToFinalString(signal: int, v: string, tail: seq<Unit>, breaksAtEnd: bool, reportProgress: bool)
    requires signal == SignalRunCompleteWithParameter || signal == SignalParameterError
             || signal == SignalRuntimeError || signal == SignalToolDoesNotExistError
    ensures Respond([Int32(signal)] + StringUnits(v) + tail, breaksAtEnd, reportProgress)
            == Shift(1, [], StringAnswer(signal, Decoded(Ok(v), 1 + |v|), StringUnits(v) + tail, breaksAtEnd, reportProgress))
  {
    var units := [Int32(signal)] + StringUnits(v) + tail;
    RespondStep(units, breaksAtEnd, reportProgress);
    assert units[1..] == StringUnits(v) + tail;
    AnswerWithString(signal, v, tail, breaksAtEnd, reportProgress);
  }

  /** One final message: the loop stops with its outcome and takes exactly its units. */
  lemma RespondToFinal(m: Incoming, tail: seq<Unit>, breaksAtEnd: bool, reportProgress: bool)
    requires !IsIntermediate(m) && WellFormedIncoming(m)
    ensures Respond(EncodeIncoming(m) + tail, breaksAtEnd, reportProgress)
            == Reply(FinalOutcome(m), FinalEvents(m), |EncodeIncoming(m)|)
  {
    match m
      case CompleteWith(v) =>
        RespondToFinalString(SignalRunCompleteWithParameter, v, tail, breaksAtEnd, reportProgress);
      case ParameterFailure(msg) =>
        RespondToFinalString(SignalParameterError, msg, tail, breaksAtEnd, reportProgress);
      case RuntimeFailure(msg) =>
        RespondToFinalString(SignalRuntimeError, msg, tail, breaksAtEnd, reportProgress);
      case ToolMissing(msg) =>
        RespondToFinalString(SignalToolDoesNotExistError, msg, tail, breaksAtEnd, reportProgress);
      case Complete =>
        RespondStep(EncodeIncoming(m) + tail, breaksAtEnd, reportProgress);
      case Terminate =>
        RespondStep(EncodeIncoming(m) + tail, breaksAtEnd, reportProgress);
      case Unrecognised(n) =>
        RespondStep(EncodeIncoming(m) + tail, breaksAtEnd, reportProgress);
        assert !IsStringSignal(n);
  }

  /** A print message: the loop writes its text and goes on after the string. */
  lemma RespondToPrint(t: string, tail: seq<Unit>, breaksAtEnd: bool, reportProgress: bool)
    ensures Respond([Int32(SignalSentPrintMessage)] + (StringUnits(t) + tail), breaksAtEnd, reportProgress)
            == Shift(2 + |t|, [ConsoleWrite(t)], Respond(tail, breaksAtEnd, reportProgress))
  {
    var units := [Int32(SignalSentPrintMessage)] + (StringUnits(t) + tail);
    RespondStep(units, breaksAtEnd, reportProgress);
    assert units[1..] == StringUnits(t) + tail;
    AnswerWithString(SignalSentPrintMessage, t, tail, breaksAtEnd, reportProgress);
    assert (StringUnits(t) + tail)[1 + |t|..] == tail;
    var r := Respond(tail, breaksAtEnd, reportProgress);
    assert [] + ([ConsoleWrite(t)] + r.events) == [ConsoleWrite(t)] + r.events;
  }

  /** A progress report: the loop reports it when asked to and goes on after the value. */
  lemma RespondToProgress(p: real, tail: seq<Unit>, breaksAtEnd: bool, reportProgress: bool)
    ensures Respond([Int32(SignalProgressReport), Single(p)] + tail, breaksAtEnd, reportProgress)
            == Shift(2, if reportProgress then [ProgressReported(p)] else [], Respond(tail, breaksAtEnd, reportProgress))
  {
    var units := [Int32(SignalProgressReport), Single(p)] + tail;
    RespondStep(units, breaksAtEnd, reportProgress);
    assert units[1..][1..] == tail;
    var evs: seq<Event> := if reportProgress then [ProgressReported(p)] else [];
    var r := Respond(tail, breaksAtEnd, reportProgress);
    assert [] + (evs + r.events) == evs + r.events;
  }

  /** A start acknowledgement: the loop goes on with what follows. */
  lemma RespondToStartAck(tail: seq<Unit>, breaksAtEnd: bool, reportProgress: bool)
    ensures Respond([Int32(SignalStart)] + tail, breaksAtEnd, reportProgress)
            == Shift(1, [], Respond(tail, breaksAtEnd, reportProgress))
  {
    var units := [Int32(SignalStart)] + tail;
    RespondStep(units, breaksAtEnd, reportProgress);
    assert units[1..] == tail;
  }

  /** One intermediate message: the loop reports its event and goes on with what follows. */
  lemma RespondToIntermediate(m: Incoming, tail: seq<Unit>, breaksAtEnd: bool, reportProgress: bool)
    requires IsIntermediate(m)
    ensures Respond(EncodeIncoming(m) + tail, breaksAtEnd, reportProgress)
            == Shift(|EncodeIncoming(m)|, IntermediateEvents(m, reportProgress), Respond(tail, breaksAtEnd, reportProgress))
  {
    match m
      case Print(t) =>
        assert EncodeIncoming(m) + tail == [Int32(SignalSentPrintMessage)] + (StringUnits(t) + tail);
        RespondToPrint(t, tail, breaksAtEnd, reportProgress);
      case Progress(p) =>
        RespondToProgress(p, tail, breaksAtEnd, reportProgress);
      case StartAck =>
        RespondToStartAck(tail, breaksAtEnd, reportProgress);
  }

  /**
   * A run of start, print and progress messages followed by a final message:
   * the loop answers with the final message's outcome, prints every message
   * in order, calls the progress callback once per progress report (when one
   * is given), and takes exactly the units of the script.
   */
  lemma {:induction false} RespondToScript(ms: seq<Incoming>, last: Incoming, tail: seq<Unit>,
                                           breaksAtEnd: bool, reportProgress: bool)
    requires forall i :: 0 <= i < |ms| ==> IsIntermediate(ms[i])
    requires !IsIntermediate(last) && WellFormedIncoming(last)
    ensures Respond(EncodeScript(ms) + EncodeIncoming(last) + tail, breaksAtEnd, reportProgress)
            == Reply(FinalOutcome(last), ScriptEvents(ms, reportProgress) + FinalEvents(last),
                     |EncodeScript(ms)| + |EncodeIncoming(last)|)
  {
    if ms == [] {
      assert EncodeScript(ms) + EncodeIncoming(last) + tail == EncodeIncoming(last) + tail;
      RespondToFinal(last, tail, breaksAtEnd, reportProgress);
    } else {
      var rest := EncodeScript(ms[1..]) + EncodeIncoming(last) + tail;
      ScriptSplit(ms, EncodeIncoming(last), tail);
      RespondToIntermediate(ms[0], rest, breaksAtEnd, reportProgress);
      RespondToScript(ms[1..], last, tail, breaksAtEnd, reportProgress);
      ShiftReply(|EncodeIncoming(ms[0])|, IntermediateEvents(ms[0], reportProgress), FinalOutcome(last),
                 ScriptEvents(ms[1..], reportProgress), FinalEvents(last),
                 |EncodeScript(ms[1..])| + |EncodeIncoming(last)|);
    }
  }

  /** A non-empty script is its first message followed by the others. */
  lemma ScriptSplit(ms: seq<Incoming>, final: seq<Unit>, tail: seq<Unit>)
    requires ms != []
    ensures EncodeScript(ms) + final + tail == EncodeIncoming(ms[0]) + (EncodeScript(ms[1..]) + final + tail)
  {
    assert EncodeScript(ms) == EncodeIncoming(ms[0]) + EncodeScript(ms[1..]);
    Reassociate(EncodeIncoming(ms[0]), EncodeScript(ms[1..]), final, tail);
  }

  lemma Reassociate<T>(a: seq<T>, b: seq<T>, c: seq<T>, d: seq<T>)
    ensures (a + b) + c + d == a + (b + c + d)
  {
  }

  lemma ShiftReply(k: nat, evs: seq<Event>, outcome: Result<Option<string>, BridgeError>,
                   middle: seq<Event>, final: seq<Event>, n: nat)
    ensures Shift(k, evs, Reply(outcome, middle + final, n)) == Reply(outcome, (evs + middle) + final, k + n)
  {
    assert evs + (middle + final) == (evs + middle) + final;
  }

  /** Without a progress callback the loop never reports progress. */
  lemma {:induction false} RespondWithoutCallback(rest: seq<Unit>, breaksAtEnd: bool)
    ensures NoProgressEvents(Respond(rest, breaksAtEnd, false).events)
    decreases |rest|, 1
  {
    if rest != [] && rest[0].Int32? {
      var tail := rest[1..];
      var signal := rest[0].i;
      RespondStep(rest, breaksAtEnd, false);
      if signal == SignalStart {
        RespondWithoutCallback(tail, breaksAtEnd);
      } else if signal == SignalProgressReport && tail != [] && tail[0].Single? {
        RespondWithoutCallback(tail[1..], breaksAtEnd);
      } else if IsStringSignal(signal) {
        StringWithoutCallback(rest, breaksAtEnd);
      }
    }
  }

  predicate NoProgressEvents(events: seq<Event>)
  {
    forall i :: 0 <= i < |events| ==> !events[i].ProgressReported?
  }

  lemma {:induction false} StringWithoutCallback(rest: seq<Unit>, breaksAtEnd: bool)
    requires rest != [] && rest[0].Int32? && IsStringSignal(rest[0].i)
    ensures NoProgressEvents(Answer(rest[0].i, rest[1..], breaksAtEnd, false).events)
    decreases |rest|, 0
  {
    var tail := rest[1..];
    var signal := rest[0].i;
    var d := DecodeString(tail, breaksAtEnd);
    var a := Answer(signal, tail, breaksAtEnd, false);
    assert a == StringAnswer(signal, d, tail, breaksAtEnd, false);
    if d.result.Ok? && signal == SignalSentPrintMessage {
      var next := Respond(tail[d.consumed..], breaksAtEnd, false);
      assert a.events == [ConsoleWrite(d.result.value)] + next.events;
      RespondWithoutCallback(tail[d.consumed..], breaksAtEnd);
    }
  }

  /** A successful reply ends on signal 3, or on signal 8 and the string after it. */
  predicate EndsOnCompletion(rest: seq<Unit>, r: Reply)
  {
    r.outcome.Ok? ==>
      (r.outcome.value.None? ==> 1 <= r.consumed <= |rest| && rest[r.consumed - 1] == Int32(SignalRunComplete))
      && (r.outcome.value.Some? ==>
            2 + |r.outcome.value.value| <= r.consumed <= |rest|
            && rest[r.consumed - 2 - |r.outcome.value.value|] == Int32(SignalRunCompleteWithParameter))
  }

  lemma ShiftEndsOnCompletion(rest: seq<Unit>, k: nat, evs: seq<Event>, r: Reply)
    requires k <= |rest| && EndsOnCompletion(rest[k..], r)
    ensures EndsOnCompletion(rest, Shift(k, evs, r))
  {
    if r.outcome.Ok? {
      if r.outcome.value.None? {
        assert rest[k..][r.consumed - 1] == rest[k + r.consumed - 1];
      } else {
        var v := r.outcome.value.value;
        assert rest[k..][r.consumed - 2 - |v|] == rest[k + r.consumed - 2 - |v|];
      }
    }
  }

  /**
   * The loop only succeeds by reading signal 3 as its last unit, or signal 8
   * followed by the returned string.
   */
  lemma {:induction false} RespondSucceedsOnlyOnCompletion(rest: seq<Unit>, breaksAtEnd: bool, reportProgress: bool)
    ensures EndsOnCompletion(rest, Respond(rest, breaksAtEnd, reportProgress))
    decreases |rest|, 1
  {
    if rest != [] && rest[0].Int32? {
      var tail := rest[1..];
      var signal := rest[0].i;
      if signal == SignalStart {
        StartEndsOnCompletion(rest, breaksAtEnd, reportProgress);
      } else if signal == SignalProgressReport && tail != [] && tail[0].Single? {
        ProgressEndsOnCompletion(rest, breaksAtEnd, reportProgress);
      } else if IsStringSignal(signal) {
        StringEndsOnCompletion(rest, breaksAtEnd, reportProgress);
      } else {
        RespondStep(rest, breaksAtEnd, reportProgress);
      }
    }
  }

  lemma {:induction false} StartEndsOnCompletion(rest: seq<Unit>, breaksAtEnd: bool, reportProgress: bool)
    requires rest != [] && rest[0] == Int32(SignalStart)
    ensures EndsOnCompletion(rest, Respond(rest, breaksAtEnd, reportProgress))
    decreases |rest|, 0
  {
    RespondStep(rest, breaksAtEnd, reportProgress);
    RespondSucceedsOnlyOnCompletion(rest[1..], breaksAtEnd, reportProgress);
    ShiftEndsOnCompletion(rest, 1, [], Respond(rest[1..], breaksAtEnd, reportProgress));
  }

  lemma {:induction false} ProgressEndsOnCompletion(rest: seq<Unit>, breaksAtEnd: bool, reportProgress: bool)
    requires |rest| >= 2 && rest[0] == Int32(SignalProgressReport) && rest[1].Single?
    ensures EndsOnCompletion(rest, Respond(rest, breaksAtEnd, reportProgress))
    decreases |rest|, 0
  {
    var tail := rest[1..];
    RespondStep(rest, breaksAtEnd, reportProgress);
    RespondSucceedsOnlyOnCompletion(tail[1..], breaksAtEnd, reportProgress);
    ShiftEndsOnCompletion(tail, 1, if reportProgress then [ProgressReported(tail[0].f)] else [],
                          Respond(tail[1..], breaksAtEnd, reportProgress));
    ShiftEndsOnCompletion(rest, 1, [], Answer(rest[0].i, tail, breaksAtEnd, reportProgress));
  }

  lemma {:induction false} StringEndsOnCompletion(rest: seq<Unit>, breaksAtEnd: bool, reportProgress: bool)
    requires rest != [] && rest[0].Int32? && IsStringSignal(rest[0].i)
    ensures EndsOnCompletion(rest, Respond(rest, breaksAtEnd, reportProgress))
    decreases |rest|, 0
  {
    RespondStep(rest, breaksAtEnd, reportProgress);
    var tail := rest[1..];
    var signal := rest[0].i;
    var a := Answer(signal, tail, breaksAtEnd, reportProgress);
    var d := DecodeString(tail, breaksAtEnd);
    assert a == StringAnswer(signal, d, tail, breaksAtEnd, reportProgress);
    if d.result.Ok? && signal == SignalSentPrintMessage {
      var next := Respond(tail[d.consumed..], breaksAtEnd, reportProgress);
      RespondSucceedsOnlyOnCompletion(tail[d.consumed..], breaksAtEnd, reportProgress);
      ShiftEndsOnCompletion(tail, d.consumed, [ConsoleWrite(d.result.value)], next);
      ShiftEndsOnCompletion(rest, 1, [], a);
    } else if d.result.Ok? && signal == SignalRunCompleteWithParameter {
      assert a == Reply(Ok(Some(d.result.value)), [], 1 + |d.result.value|);
    }
  }

  // ---------------------------------------------------------------------
  // ReadString as written: a zero-length read never ends the loop
  // ---------------------------------------------------------------------

  /** One turn of ReadString's loop as written: `pos += reader.Read(ret, pos, length - pos)`. */
  function ReadTurnAsWritten(chars: seq<Unit>, pos: nat, length: nat): nat
    requires pos <= length && pos <= |chars|
  {
    pos + CharRun(chars[pos..], length - pos)
  }

  function ReadTurnsAsWritten(chars: seq<Unit>, pos: nat, length: nat, turns: nat): (p: nat)
    requires pos <= length && pos <= |chars|
    ensures p <= length && p <= |chars|
    decreases turns
  {
    if turns == 0 || pos == length then pos
    else ReadTurnsAsWritten(chars, ReadTurnAsWritten(chars, pos, length), length, turns - 1)
  }

  /**
   * When the stream ends after one character of a five-character string, the
   * loop as written never reaches the length, however many turns it takes.
   */
  lemma {:induction false} ReadStringAsWrittenSpins(turns: nat)
    ensures ReadTurnsAsWritten([Char('a')], 0, 5, turns + 1) == 1
  {
    var chars := [Char('a')];
    assert chars[0..] == chars;
    assert CharRun(chars[1..], 4) == 0;
    assert CharRun(chars, 5) == 1;
    assert ReadTurnAsWritten(chars, 0, 5) == 1;
    StaysAtEnd(chars, 1, 5, turns);
  }

  lemma {:induction false} StaysAtEnd(chars: seq<Unit>, pos: nat, length: nat, turns: nat)
    requires pos < length && pos == |chars|
    ensures ReadTurnsAsWritten(chars, pos, length, turns) == pos
  {
    assert chars[pos..] == [];
    if turns > 0 {
      StaysAtEnd(chars, pos, length, turns - 1);
    }
  }

  // ---------------------------------------------------------------------
  // The pipes
  // ---------------------------------------------------------------------

  /** The pipe from EMME: everything EMME sends on it, and how far it has been read. */
  class InboundPipe {
    const units: seq<Unit>
    const breaksAtEnd: bool   // after the last unit: an I/O failure rather than the end of the stream
    var pos: nat
    var connected: bool

    ghost predicate Valid()
      reads this
    {
      pos <= |units|
    }

    function Rest(): seq<Unit>
      reads this
      requires Valid()
    {
      units[pos..]
    }

    constructor (units: seq<Unit>, breaksAtEnd: bool)
      ensures Valid() && this.units == units && this.breaksAtEnd == breaksAtEnd
      ensures pos == 0 && connected
    {
      this.units := units;
      this.breaksAtEnd := breaksAtEnd;
      pos := 0;
      connected := true;
    }

    /** BinaryReader.ReadInt32. */
    method ReadInt32() returns (r: Result<int, BridgeError>)
      requires Valid()
      modifies this`pos
      ensures Valid()
      ensures var d := ReadInt32Spec(old(Rest()), breaksAtEnd); r == d.result && pos == old(pos) + d.consumed
    {
      if pos == |units| {
        r := Err(EndError(breaksAtEnd));
      } else if units[pos].Int32? {
        r := Ok(units[pos].i);
        pos := pos + 1;
      } else {
        r := Err(Malformed);
      }
    }

    /** BinaryReader.ReadSingle. */
    method ReadSingle() returns (r: Result<real, BridgeError>)
      requires Valid()
      modifies this`pos
      ensures Valid()
      ensures old(pos) == |units| ==> r == Err(EndError(breaksAtEnd)) && pos == old(pos)
      ensures old(pos) < |units| && units[old(pos)].Single? ==> r == Ok(units[old(pos)].f) && pos == old(pos) + 1
      ensures old(pos) < |units| && !units[old(pos)].Single? ==> r == Err(Malformed) && pos == old(pos)
    {
      if pos == |units| {
        r := Err(EndError(breaksAtEnd));
      } else if units[pos].Single? {
        r := Ok(units[pos].f);
        pos := pos + 1;
      } else {
        r := Err(Malformed);
      }
    }

    /**
     * BinaryReader.Read(buffer, index, count): some of the characters waiting,
     * at least one when any is waiting, none at all when none is.
     */
    method Read(buffer: array<char>, index: nat, count: nat) returns (n: nat)
      requires Valid() && index + count <= buffer.Length
      modifies this`pos, buffer
      ensures Valid()
      ensures n <= CharRun(old(Rest()), count)
      ensures n == 0 <==> CharRun(old(Rest()), count) == 0
      ensures pos == old(pos) + n
      ensures forall i :: 0 <= i < index ==> buffer[i] == old(buffer[i])
      ensures forall i :: index + n <= i < buffer.Length ==> buffer[i] == old(buffer[i])
      ensures forall i :: index <= i < index + n ==>
                units[old(pos) + i - index].Char? && buffer[i] == units[old(pos) + i - index].c
    {
      var rest := units[pos..];
      n := CharRun(rest, count);
      forall i | index <= i < index + n {
        buffer[i] := rest[i - index].c;
      }
      pos := pos + n;
    }

    /**
     * The loop of ReadString: reads into a buffer of `length` characters
     * until it is full or a read delivers nothing.
     */
    method ReadChars(length: nat) returns (buffer: array<char>, p: nat)
      requires Valid()
      modifies this`pos
      ensures Valid() && fresh(buffer) && buffer.Length == length
      ensures p == CharRun(old(Rest()), length) && pos == old(pos) + p
      ensures forall i :: 0 <= i < p ==> units[old(pos) + i].Char? && buffer[i] == units[old(pos) + i].c
    {
      ghost var rest := Rest();
      ghost var start := pos;
      ghost var total := CharRun(rest, length);
      buffer := new char[length];
      p := 0;
      while p < length
        invariant 0 <= p <= length && Valid()
        invariant pos == start + p && rest == units[start..]
        invariant p <= total
        invariant forall i :: 0 <= i < p ==> units[start + i].Char? && buffer[i] == units[start + i].c
        decreases length - p
      {
        assert Rest() == rest[p..];
        CharRunDrop(rest, length, p);
        ghost var available := CharRun(Rest(), length - p);
        assert p + available == total;
        var n := Read(buffer, p, length - p);
        assert n <= available;
        if n == 0 {
          return;
        }
        p := p + n;
      }
    }
  }

  /** The pipe towards EMME: every token written to it so far. */
  class OutboundPipe {
    var written: seq<Token>
    var connected: bool
    const broken: bool   // the other end is gone: every write fails with an I/O error

    predicate Writable()
      reads this
    {
      connected && !broken
    }

    constructor (broken: bool)
      ensures written == [] && connected && this.broken == broken
    {
      written := [];
      connected := true;
      this.broken := broken;
    }

    /** A flushed sequence of BinaryWriter.Write calls; a failing pipe takes none of it. */
    method Write(tokens: seq<Token>) returns (ok: bool)
      modifies this`written
      ensures ok == Writable()
      ensures written == old(written) + (if ok then tokens else [])
    {
      ok := connected && !broken;
      if ok {
        written := written + tokens;
      }
    }
  }

  // ---------------------------------------------------------------------
  // The controller
  // ---------------------------------------------------------------------

  class Controller {
    var pipeFromEmme: InboundPipe?
    var pipeToEmme: OutboundPipe?

    constructor (fromEmme: InboundPipe, toEmme: OutboundPipe)
      ensures pipeFromEmme == fromEmme && pipeToEmme == toEmme
    {
      pipeFromEmme := fromEmme;
      pipeToEmme := toEmme;
    }

    /** ReadString over the inbound pipe; the loop stops when a read delivers nothing. */
    method ReadString() returns (r: Result<string, BridgeError>)
      requires pipeFromEmme != null && pipeFromEmme.Valid()
      modifies pipeFromEmme`pos
      ensures pipeFromEmme.Valid()
      ensures var d := DecodeString(old(pipeFromEmme.Rest()), pipeFromEmme.breaksAtEnd);
              r == d.result && pipeFromEmme.pos == old(pipeFromEmme.pos) + d.consumed
    {
      var pipe := pipeFromEmme;
      ghost var rest := pipe.Rest();
      ghost var start := pipe.pos;
      var lengthRead := pipe.ReadInt32();
      if lengthRead.Err? {
        return Err(lengthRead.error);
      }
      var length := lengthRead.value;
      if length < 0 {
        return Err(NegativeLength);
      }
      var ret, p := pipe.ReadChars(length);
      if p < length {
        DecodeStringCut(rest, pipe.breaksAtEnd, p);
        return Err(if pipe.pos == |pipe.units| then EndError(pipe.breaksAtEnd) else Malformed);
      }
      DecodeStringComplete(rest, pipe.breaksAtEnd);
      assert Chars(rest[1..1 + length]) == ret[..];
      return Ok(ret[..]);
    }

    /** WaitForEmmeResponse: read signals until one ends the exchange. */
    method WaitForEmmeResponse(reportProgress: bool) returns (r: Result<Option<string>, BridgeError>, events: seq<Event>)
      requires pipeFromEmme != null ==> pipeFromEmme.Valid()
      modifies pipeFromEmme
      ensures pipeFromEmme == null ==> r == Err(NoStream) && events == []
      ensures pipeFromEmme != null ==> pipeFromEmme.Valid()
      ensures pipeFromEmme != null ==>
                var reply := Respond(old(pipeFromEmme.Rest()), pipeFromEmme.breaksAtEnd, reportProgress);
                r == reply.outcome && events == reply.events
                && pipeFromEmme.pos == old(pipeFromEmme.pos) + reply.consumed
    {
      if pipeFromEmme == null {
        return Err(NoStream), [];
      }
      r, events := ReceiveLoop(reportProgress);
    }

    /** The receive loop of WaitForEmmeResponse, once the stream is known to be open. */
    method ReceiveLoop(reportProgress: bool) returns (r: Result<Option<string>, BridgeError>, events: seq<Event>)
      requires pipeFromEmme != null && pipeFromEmme.Valid()
      modifies pipeFromEmme`pos
      ensures pipeFromEmme.Valid()
      ensures var reply := Respond(old(pipeFromEmme.Rest()), pipeFromEmme.breaksAtEnd, reportProgress);
              r == reply.outcome && events == reply.events
              && pipeFromEmme.pos == old(pipeFromEmme.pos) + reply.consumed
    {
      var pipe := pipeFromEmme;
      ghost var whole := Respond(pipe.Rest(), pipe.breaksAtEnd, reportProgress);
      ghost var start := pipe.pos;
      events := [];
      while true
        invariant pipe.Valid() && start <= pipe.pos
        invariant whole == Shift(pipe.pos - start, events, Respond(pipe.Rest(), pipe.breaksAtEnd, reportProgress))
        decreases |pipe.units| - pipe.pos
      {
        ghost var done := pipe.pos - start;
        ghost var here := pipe.pos;
        var step := ReceiveOne(reportProgress);
        if step.Stop? {
          return step.outcome, events + step.added;
        }
        ShiftCompose(done, events, pipe.pos - here, step.added,
                     Respond(pipe.Rest(), pipe.breaksAtEnd, reportProgress));
        events := events + step.added;
      }
    }

    /** One turn of the receive loop: read a signal and handle it. */
    method ReceiveOne(reportProgress: bool) returns (step: Step)
      requires pipeFromEmme != null && pipeFromEmme.Valid()
      modifies pipeFromEmme`pos
      ensures pipeFromEmme.Valid() && old(pipeFromEmme.pos) <= pipeFromEmme.pos
      ensures var a := Respond(old(pipeFromEmme.Rest()), pipeFromEmme.breaksAtEnd, reportProgress);
              (step.Stop? ==> step.outcome == a.outcome && step.added == a.events
                              && pipeFromEmme.pos == old(pipeFromEmme.pos) + a.consumed)
              && (step.Continue? ==>
                    old(pipeFromEmme.pos) < pipeFromEmme.pos
                    && a == Shift(pipeFromEmme.pos - old(pipeFromEmme.pos), step.added,
                                  Respond(pipeFromEmme.Rest(), pipeFromEmme.breaksAtEnd, reportProgress)))
    {
      var pipe := pipeFromEmme;
      ghost var rest := pipe.Rest();
      var signal := pipe.ReadInt32();
      if signal.Err? {
        LoopFail(rest, pipe.breaksAtEnd, reportProgress);
        return Stop(Err(signal.error), []);
      }
      assert pipe.Rest() == rest[1..];
      ghost var here := pipe.pos;
      step := HandleSignal(signal.value, reportProgress);
      if step.Stop? {
        LoopStop(rest, step.outcome, step.added, pipe.pos - here, pipe.breaksAtEnd, reportProgress);
      } else {
        LoopContinue(rest, pipe.pos - here, step.added, pipe.Rest(), pipe.breaksAtEnd, reportProgress);
      }
    }

    /** The body of the receive loop once a signal has been read. */
    method HandleSignal(signal: int, reportProgress: bool) returns (step: Step)
      requires pipeFromEmme != null && pipeFromEmme.Valid()
      modifies pipeFromEmme`pos
      ensures pipeFromEmme.Valid() && old(pipeFromEmme.pos) <= pipeFromEmme.pos
      ensures var a := Answer(signal, old(pipeFromEmme.Rest()), pipeFromEmme.breaksAtEnd, reportProgress);
              (step.Stop? ==> step.outcome == a.outcome && step.added == a.events
                              && pipeFromEmme.pos == old(pipeFromEmme.pos) + a.consumed)
              && (step.Continue? ==>
                    a == Shift(pipeFromEmme.pos - old(pipeFromEmme.pos), step.added,
                               Respond(pipeFromEmme.Rest(), pipeFromEmme.breaksAtEnd, reportProgress)))
    {
      var pipe := pipeFromEmme;
      ghost var rest := pipe.Rest();
      if signal == SignalStart {
        return Continue([]);
      } else if signal == SignalRunComplete {
        return Stop(Ok(None), []);
      } else if signal == SignalTermination {
        return Stop(Err(Panicked), []);
      } else if signal == SignalProgressReport {
        var progress := pipe.ReadSingle();
        if progress.Err? {
          return Stop(Err(progress.error), []);
        }
        assert pipe.Rest() == rest[1..];
        return Continue(if reportProgress then [ProgressReported(progress.value)] else []);
      } else if IsStringSignal(signal) {
        step := HandleStringSignal(signal, reportProgress);
      } else {
        return Stop(Err(UnknownSignal(signal)), [ConsoleWriteLine(UnknownSignalNotice)]);
      }
    }

    /** The signals followed by a string: read it, then stop or print it and go on. */
    method HandleStringSignal(signal: int, reportProgress: bool) returns (step: Step)
      requires pipeFromEmme != null && pipeFromEmme.Valid() && IsStringSignal(signal)
      modifies pipeFromEmme`pos
      ensures pipeFromEmme.Valid() && old(pipeFromEmme.pos) <= pipeFromEmme.pos
      ensures var a := StringAnswer(signal, DecodeString(old(pipeFromEmme.Rest()), pipeFromEmme.breaksAtEnd),
                                    old(pipeFromEmme.Rest()), pipeFromEmme.breaksAtEnd, reportProgress);
              (step.Stop? ==> step.outcome == a.outcome && step.added == a.events
                              && pipeFromEmme.pos == old(pipeFromEmme.pos) + a.consumed)
              && (step.Continue? ==>
                    a == Shift(pipeFromEmme.pos - old(pipeFromEmme.pos), step.added,
                               Respond(pipeFromEmme.Rest(), pipeFromEmme.breaksAtEnd, reportProgress)))
    {
      ghost var rest := pipeFromEmme.Rest();
      ghost var d := DecodeString(rest, pipeFromEmme.breaksAtEnd);
      var s := ReadString();
      if s.Err? {
        return Stop(Err(s.error), []);
      }
      if signal == SignalRunCompleteWithParameter {
        return Stop(Ok(Some(s.value)), []);
      } else if signal == SignalParameterError {
        return Stop(Err(ToolParameterError("EMME Parameter Error: " + s.value)), []);
      } else if signal == SignalRuntimeError {
        return Stop(Err(ToolRuntimeError("EMME Runtime " + s.value)), []);
      } else if signal == SignalToolDoesNotExistError {
        return Stop(Err(ToolNotFound(s.value)), []);
      }
      assert pipeFromEmme.Rest() == rest[d.consumed..];
      return Continue([ConsoleWrite(s.value)]);
    }

    /** WaitForStartSignal: the first signal must be 0. */
    method WaitForStartSignal() returns (r: Result<bool, BridgeError>)
      requires pipeFromEmme != null ==> pipeFromEmme.Valid()
      modifies pipeFromEmme
      ensures pipeFromEmme == null ==> r == Err(NoStream)
      ensures pipeFromEmme != null ==>
                var d := StartReply(old(pipeFromEmme.Rest()), pipeFromEmme.breaksAtEnd);
                r == d.result && pipeFromEmme.pos == old(pipeFromEmme.pos) + d.consumed
    {
      if pipeFromEmme == null {
        return Err(NoStream);
      }
      var signal := pipeFromEmme.ReadInt32();
      if signal.Err? {
        return Err(signal.error);
      }
      if signal.value == SignalStart {
        return Ok(true);
      }
      return Err(UnknownSignal(signal.value));
    }

    /** Send one request and wait for its answer; the sending half of every public call. */
    method Request(tokens: seq<Token>, reportProgress: bool)
      returns (r: Result<Option<string>, BridgeError>, events: seq<Event>)
      requires pipeFromEmme != null ==> pipeFromEmme.Valid()
      modifies pipeToEmme, pipeFromEmme
      ensures pipeFromEmme != null ==> pipeFromEmme.Valid()
      ensures old(pipeToEmme) == null ==>
                r == Err(Disposed) && events == [] && (pipeFromEmme != null ==> unchanged(pipeFromEmme))
      ensures old(pipeToEmme) != null && !pipeToEmme.Writable() ==>
                r == Err(SendFailed) && events == [] && pipeToEmme.written == old(pipeToEmme.written)
                && (pipeFromEmme != null ==> unchanged(pipeFromEmme))
      ensures old(pipeToEmme) != null && pipeToEmme.Writable() ==>
                pipeToEmme.written == old(pipeToEmme.written) + tokens
                && (pipeFromEmme == null ==> r == Err(NoStream) && events == [])
                && (pipeFromEmme != null ==>
                      var reply := Respond(old(pipeFromEmme.Rest()), pipeFromEmme.breaksAtEnd, reportProgress);
                      r == reply.outcome && events == reply.events
                      && pipeFromEmme.pos == old(pipeFromEmme.pos) + reply.consumed)
    {
      if pipeToEmme == null {
        return Err(Disposed), [];
      }
      var sent := pipeToEmme.Write(tokens);
      if !sent {
        return Err(SendFailed), [];
      }
      r, events := WaitForEmmeResponse(reportProgress);
    }

    /** Run(module, macroName, arguments, progressUpdate, ref returnValue). */
    method Run(macroName: string, arguments: string, reportProgress: bool)
      returns (r: Result<Option<string>, BridgeError>, events: seq<Event>)
      requires pipeFromEmme != null ==> pipeFromEmme.Valid()
      modifies pipeToEmme, pipeFromEmme
      ensures pipeFromEmme != null ==> pipeFromEmme.Valid()
      ensures old(pipeToEmme) == null ==> r == Err(Disposed) && events == []
      ensures old(pipeToEmme) != null && pipeToEmme.Writable() ==>
                pipeToEmme.written == old(pipeToEmme.written) + RunRequest(macroName, arguments)
                && (pipeFromEmme == null ==> r == Err(NoStream) && events == [])
                && (pipeFromEmme != null ==>
                      var reply := Respond(old(pipeFromEmme.Rest()), pipeFromEmme.breaksAtEnd, reportProgress);
                      r == reply.outcome && events == reply.events
                      && pipeFromEmme.pos == old(pipeFromEmme.pos) + reply.consumed)
      ensures old(pipeToEmme) != null && !pipeToEmme.Writable() ==>
                r == Err(SendFailed) && events == [] && (pipeFromEmme != null ==> unchanged(pipeFromEmme))
    {
      r, events := Request(RunRequest(macroName, arguments), reportProgress);
    }

    /** Run(module, macroName, ModellerControllerParameter[] arguments, progressUpdate, ref returnValue). */
    method RunStructured(macroName: string, arguments: Option<seq<Parameter>>, reportProgress: bool)
      returns (r: Result<Option<string>, BridgeError>, events: seq<Event>)
      requires pipeFromEmme != null ==> pipeFromEmme.Valid()
      modifies pipeToEmme, pipeFromEmme
      ensures pipeFromEmme != null ==> pipeFromEmme.Valid()
      ensures old(pipeToEmme) == null ==> r == Err(Disposed) && events == []
      ensures old(pipeToEmme) != null && pipeToEmme.Writable() ==>
                pipeToEmme.written == old(pipeToEmme.written) + StructuredRunRequest(macroName, arguments)
                && (pipeFromEmme == null ==> r == Err(NoStream) && events == [])
                && (pipeFromEmme != null ==>
                      var reply := Respond(old(pipeFromEmme.Rest()), pipeFromEmme.breaksAtEnd, reportProgress);
                      r == reply.outcome && events == reply.events
                      && pipeFromEmme.pos == old(pipeFromEmme.pos) + reply.consumed)
      ensures old(pipeToEmme) != null && !pipeToEmme.Writable() ==>
                r == Err(SendFailed) && events == [] && (pipeFromEmme != null ==> unchanged(pipeFromEmme))
    {
      r, events := Request(StructuredRunRequest(macroName, arguments), reportProgress);
    }

    /** CheckToolExists: signal 9 and the tool's namespace, then the answer without progress. */
    method CheckToolExists(toolNamespace: string)
      returns (r: Result<Option<string>, BridgeError>, events: seq<Event>)
      requires pipeFromEmme != null ==> pipeFromEmme.Valid()
      modifies pipeToEmme, pipeFromEmme
      ensures pipeFromEmme != null ==> pipeFromEmme.Valid()
      ensures old(pipeToEmme) == null ==> r == Err(Disposed) && events == []
      ensures old(pipeToEmme) != null && pipeToEmme.Writable() ==>
                pipeToEmme.written == old(pipeToEmme.written) + CheckToolExistsRequest(toolNamespace)
                && (pipeFromEmme == null ==> r == Err(NoStream) && events == [])
                && (pipeFromEmme != null ==>
                      var reply := Respond(old(pipeFromEmme.Rest()), pipeFromEmme.breaksAtEnd, false);
                      r == reply.outcome && events == reply.events
                      && pipeFromEmme.pos == old(pipeFromEmme.pos) + reply.consumed)
      ensures old(pipeToEmme) != null && !pipeToEmme.Writable() ==>
                r == Err(SendFailed) && events == [] && (pipeFromEmme != null ==> unchanged(pipeFromEmme))
    {
      r, events := Request(CheckToolExistsRequest(toolNamespace), false);
    }

    /**
     * CleanLogbook: no disposal check; a null pipe fails in the writer, a
     * failed write answers false, otherwise the answer decides.
     */
    method CleanLogbook() returns (r: Result<bool, BridgeError>, events: seq<Event>)
      requires pipeFromEmme != null ==> pipeFromEmme.Valid()
      modifies pipeToEmme, pipeFromEmme
      ensures pipeFromEmme != null ==> pipeFromEmme.Valid()
      ensures old(pipeToEmme) == null ==> r == Err(NoStream) && events == []
      ensures old(pipeToEmme) != null && !pipeToEmme.Writable() ==> r == Ok(false) && events == []
      ensures old(pipeToEmme) != null && pipeToEmme.Writable() ==>
                pipeToEmme.written == old(pipeToEmme.written) + CleanLogbookRequest()
                && (pipeFromEmme != null ==>
                      var reply := Respond(old(pipeFromEmme.Rest()), pipeFromEmme.breaksAtEnd, false);
                      events == reply.events
                      && (reply.outcome.Ok? ==> r == Ok(true))
                      && (reply.outcome.Err? ==> r == Err(reply.outcome.error)))
    {
      if pipeToEmme == null {
        return Err(NoStream), [];
      }
      var sent := pipeToEmme.Write(CleanLogbookRequest());
      if !sent {
        return Ok(false), [];
      }
      var answer;
      answer, events := WaitForEmmeResponse(false);
      if answer.Err? {
        return Err(answer.error), events;
      }
      return Ok(true), events;
    }

    /**
     * Dispose: a connected inbound pipe is disposed and dropped; a connected
     * outbound pipe first gets the termination signal (a failing write is
     * ignored), then is disposed and dropped. A pipe that is not connected
     * stays where it is.
     */
    method Dispose()
      modifies this, pipeFromEmme, pipeToEmme
      ensures old(pipeFromEmme) != null && old(pipeFromEmme.connected) ==>
                pipeFromEmme == null && !old(pipeFromEmme).connected
      ensures !(old(pipeFromEmme) != null && old(pipeFromEmme.connected)) ==>
                pipeFromEmme == old(pipeFromEmme) && (pipeFromEmme != null ==> unchanged(pipeFromEmme))
      ensures old(pipeToEmme) != null && old(pipeToEmme.connected) ==>
                pipeToEmme == null && !old(pipeToEmme).connected
                && old(pipeToEmme).written
                   == old(pipeToEmme.written) + (if old(pipeToEmme.Writable()) then TerminationRequest() else [])
      ensures !(old(pipeToEmme) != null && old(pipeToEmme.connected)) ==>
                pipeToEmme == old(pipeToEmme) && (pipeToEmme != null ==> unchanged(pipeToEmme))
    {
      if pipeFromEmme != null && pipeFromEmme.connected {
        pipeFromEmme.connected := false;
        pipeFromEmme := null;
      }
      if pipeToEmme != null && pipeToEmme.connected {
        var _ := pipeToEmme.Write(TerminationRequest());
        pipeToEmme.connected := false;
        pipeToEmme := null;
      }
    }
  }

  /** A bridge whose pipes were both dropped by Dispose refuses every later run. */
  method DisposedBridgeRefusesRuns(c: Controller, macroName: string, arguments: string)
    returns (r: Result<Option<string>, BridgeError>)
    requires c.pipeToEmme != null && c.pipeToEmme.connected
    requires c.pipeFromEmme != null ==> c.pipeFromEmme.Valid()
    modifies c, c.pipeFromEmme, c.pipeToEmme
    ensures r == Err(Disposed)
  {
    c.Dispose();
    var events;
    r, events := c.Run(macroName, arguments, false);
  }

  // ---------------------------------------------------------------------
  // FindPythonDirectory
  // ---------------------------------------------------------------------

  /** Path.GetFileName: what follows the last directory separator. */
  function FileName(p: string): (r: string)
    ensures |r| <= |p| && r == p[|p| - |r|..]
    ensures forall i :: 0 <= i < |r| ==> !IsDirectorySeparator(r[i])
  {
    if p == [] || IsDirectorySeparator(p[|p| - 1]) then ""
    else FileName(p[..|p| - 1]) + [p[|p| - 1]]
  }

  /** A directory name EMME's Python lives in: "Python" directly followed by a digit. */
  predicate IsPythonDirectoryName(name: string)
  {
    |name| > 6 && name[..6] == "Python" && IsDigit(name[6])
  }

  /**
   * FindPythonDirectory: the local name of the first sub-directory of the
   * EMME installation that names a Python version.
   */
  method FindPythonDirectory(emmePath: string, installationExists: bool, directories: seq<string>)
    returns (r: Result<string, BridgeError>)
    ensures !installationExists ==> r == Err(NoEmmeInstallation(emmePath))
    ensures installationExists && r.Ok? ==>
              exists k :: 0 <= k < |directories| && r.value == FileName(directories[k])
                && IsPythonDirectoryName(r.value)
                && forall j :: 0 <= j < k ==> !IsPythonDirectoryName(FileName(directories[j]))
    ensures installationExists && r.Err? ==>
              r.error == NoPythonDirectory
              && forall j :: 0 <= j < |directories| ==> !IsPythonDirectoryName(FileName(directories[j]))
  {
    if !installationExists {
      return Err(NoEmmeInstallation(emmePath));
    }
    var i := 0;
    while i < |directories|
      invariant 0 <= i <= |directories|
      invariant forall j :: 0 <= j < i ==> !IsPythonDirectoryName(FileName(directories[j]))
    {
      var localName := FileName(directories[i]);
      if |localName| >= 6 && localName[..6] == "Python" {
        var remainder := localName[6..];
        if |remainder| > 0 && IsDigit(remainder[0]) {
          return Ok(localName);
        }
      }
      i := i + 1;
    }
    return Err(NoPythonDirectory);
  }

  // ---------------------------------------------------------------------
  // Helpers for the proofs above
  // ---------------------------------------------------------------------

  /** The receive loop fails to read a signal: the reply is that failure. */
  lemma LoopFail(rest: seq<Unit>, breaksAtEnd: bool, reportProgress: bool)
    requires ReadInt32Spec(rest, breaksAtEnd).result.Err?
    ensures Respond(rest, breaksAtEnd, reportProgress)
            == Reply(Err(ReadInt32Spec(rest, breaksAtEnd).result.error), [], 0)
  {
  }

  /** The receive loop stops on the signal leading `rest`. */
  lemma LoopStop(rest: seq<Unit>, outcome: Result<Option<string>, BridgeError>, added: seq<Event>, consumed: nat,
                 breaksAtEnd: bool, reportProgress: bool)
    requires rest != [] && rest[0].Int32?
    requires var a := Answer(rest[0].i, rest[1..], breaksAtEnd, reportProgress);
             a.outcome == outcome && a.events == added && a.consumed == consumed
    ensures Respond(rest, breaksAtEnd, reportProgress) == Reply(outcome, added, 1 + consumed)
  {
    RespondStep(rest, breaksAtEnd, reportProgress);
  }

  /** The receive loop goes on after the signal leading `rest` and `consumed` more units. */
  lemma LoopContinue(rest: seq<Unit>, consumed: nat, added: seq<Event>, after: seq<Unit>,
                     breaksAtEnd: bool, reportProgress: bool)
    requires rest != [] && rest[0].Int32?
    requires Answer(rest[0].i, rest[1..], breaksAtEnd, reportProgress)
             == Shift(consumed, added, Respond(after, breaksAtEnd, reportProgress))
    ensures Respond(rest, breaksAtEnd, reportProgress)
            == Shift(1 + consumed, added, Respond(after, breaksAtEnd, reportProgress))
  {
    RespondStep(rest, breaksAtEnd, reportProgress);
  }

  lemma ShiftCompose(a: nat, e1: seq<Event>, b: nat, e2: seq<Event>, r: Reply)
    ensures Shift(a, e1, Shift(b, e2, r)) == Shift(a + b, e1 + e2, r)
  {
    assert e1 + (e2 + r.events) == (e1 + e2) + r.events;
  }

  lemma DecodeStringComplete(rest: seq<Unit>, breaksAtEnd: bool)
    requires |rest| >= 1 && rest[0].Int32? && rest[0].i >= 0 && CharRun(rest[1..], rest[0].i) == rest[0].i
    ensures DecodeString(rest, breaksAtEnd) == Decoded(Ok(Chars(rest[1..1 + rest[0].i])), 1 + rest[0].i)
  {
  }

  lemma DecodeStringCut(rest: seq<Unit>, breaksAtEnd: bool, p: nat)
    requires |rest| >= 1 && rest[0].Int32? && p < rest[0].i && CharRun(rest[1..], rest[0].i) == p
    ensures DecodeString(rest, breaksAtEnd)
            == Decoded(Err(if 1 + p == |rest| then EndError(breaksAtEnd) else Malformed), 1 + p)
  {
  }

  lemma {:induction false} CharRunDrop(rest: seq<Unit>, count: nat, p: nat)
    requires p <= CharRun(rest, count)
    ensures CharRun(rest[p..], count - p) == CharRun(rest, count) - p
  {
    if p > 0 {
      assert rest[p..] == rest[1..][p - 1..];
      CharRunDrop(rest[1..], count - 1, p - 1);
    }
  }
}
