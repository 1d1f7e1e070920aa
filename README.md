# XTMF core components, modelled in Dafny

This project models fifteen components of XTMF, the travel-demand modelling
framework, and proves properties of them. The components are:

- **EMME modeller bridge** (`ModellerController`). It frames requests over a
  named pipe with .NET's binary writer: Int32 signals, and strings with a 7-bit
  length prefix followed by UTF-8. It decodes the replies from EMME (start,
  completion, errors, print messages, progress reports). The model covers
  logbook cleaning, tool-existence checks, module runs, disposal and the
  search for the Python directory.
- **Two EMME tools that drive the bridge.** `ExportNetworkTables` sends a
  structured run with eight named parameters. `ExportBinaryMatrixFromEmme`
  sends a space-separated argument string.
- **`NumberList`**, the comma- and whitespace-separated integer list of
  TMGInterfaces. It covers parsing with 32-bit accumulation, look-ups, and
  rendering back to text.
- **The Toronto households `TripChainLoader`.** It builds the mode-conversion
  dictionary, splits a person's trip records into chains at home, maps
  observed modes, and reclassifies work trips as work-based business.
- **The XTMF 1.1 `ProjectController`.** It covers editing sessions with
  reference counts, loading and creating projects by name, and deleting
  projects that are not being edited.
- **Tasha's `PassengerAlgo`.** It covers sorting auxiliary trip chains, finding
  conflicting chains, and enumerating conflict-free sets of chains.
- **GTAModel's `AdvancedModeParameterDatabase`.** It reads the parameter,
  alternative and switch files, and applies a parameter set for a demographic
  category.
- **Gibbs `Aggregation`.** It covers the mixed-radix encoding of attribute
  combinations, validation of pools and joins, reading the aggregation file,
  and picking candidates.
- **The Beijing `AutoMode`.** It covers trip and chain feasibility (does the
  vehicle come back home?), the income brackets, and binding the vehicle type
  and the network.
- **Tasha's `V4AutoNetwork`.** It holds per-time-period OD buffers. The first
  load stores the values; later loads blend 0.75 old with 0.25 new. Look-ups
  take the first period that covers the time.
- **GTAModel's `NetworkData`.** It covers time periods, the six matrix files
  chosen by iteration, the cache index layout, and load and unload.
- **Tasha's `SchedulerTripChain`.** It covers joint-tour chains, the vehicles
  a chain requires, shallow and deep clones, and the recycling pool.
- **Tasha's `RideShare` mode.** It covers feasibility for joint tours and
  binding the Auto network.
- **TMG.Estimation's `ExecuteGivenParameters`.** It turns the rows of a
  parameter file into estimation jobs, up to a row cap.

Files, pipes, the clock and the rest of the framework become parameters:

- A file is a sequence of lines or of rows.
- A pipe is an object holding the units still to be read, or the tokens
  written so far.
- Other modules are datatypes holding just the fields the component reads.

Objects that the C# code updates in place are Dafny classes. Pure look-ups
and decisions are functions. Loops become methods proved against a
specification function.

## Model

| member | source | states |
|---|---|---|
| ModellerController.Int32Bytes | Code/TMG.Emme/ModellerController.cs:444 | a signal is written as exactly four bytes |
| ModellerController.Int32RoundTrip | Code/TMG.Emme/ModellerController.cs:296 | reading four bytes back, little-endian, yields the Int32 that was written, whatever follows it |
| ModellerController.SevenBitEncode | Code/TMG.Emme/ModellerController.cs:445 | the string length prefix is at least one byte; only its last byte has the high bit clear |
| ModellerController.SevenBitDecode | Code/TMG.Emme/ModellerController.cs:445 | a decoded length prefix takes at least one byte and no more than there are, ends at the first byte below 128, and is missing exactly when no byte is below 128 |
| ModellerController.SevenBitRoundTrip | Code/TMG.Emme/ModellerController.cs:445 | decoding the 7-bit length prefix gives back the length and the number of prefix bytes, whatever follows it |
| ModellerController.Utf8 | Code/TMG.Emme/ModellerController.cs:397 | a character encodes to 1-4 UTF-8 bytes; it takes one byte exactly when it is ASCII; the lead byte is never a continuation byte and the others all are |
| ModellerController.StringFraming | Code/TMG.Emme/ModellerController.cs:445 | a written string is its byte length, 7-bit encoded, followed by exactly its UTF-8 bytes |
| ModellerController.AsciiStringBytes | Code/TMG.Emme/ModellerController.cs:448 | an ASCII string (such as a decimal count) is framed byte for byte |
| ModellerController.CleanLogbookRequest | Code/TMG.Emme/ModellerController.cs:222 | the clean-logbook request is one token whose four bytes read back as signal 6 |
| ModellerController.CheckToolExistsRequest | Code/TMG.Emme/ModellerController.cs:366-367 | the check-tool request is signal 9, read back from its four bytes, then the namespace, read back as its UTF-8 byte count and exactly its bytes |
| ModellerController.RunRequestReadsBack | Code/TMG.Emme/ModellerController.cs:400-402 | the run request is signal 2, then the macro name and the argument string, each read back as its byte count and exactly its bytes |
| ModellerController.TerminationRequest | Code/TMG.Emme/ModellerController.cs:493 | the termination request is one token whose four bytes read back as signal 1 |
| ModellerController.NameTokens | Code/TMG.Emme/ModellerController.cs:449-452 | one name token per parameter, in order |
| ModellerController.ValueTokens | Code/TMG.Emme/ModellerController.cs:453-456 | one value token per parameter, in order |
| ModellerController.StructuredRunRequest | Code/TMG.Emme/ModellerController.cs:444-461 | a structured run starts with its signal and the macro name; with no parameters it sends the count "0" |
| ModellerController.ZipParameters | Code/TMG.Emme/ModellerController.cs:449-456 | pairing the name and value tokens back gives one parameter per name |
| ModellerController.ParseStructuredRunRequest | Code/TMG.Emme/ModellerController.cs:444-461 | a request read back starts with signal 14 and the tool name, holds two tokens per parameter, and gives every parameter its name token and its value token |
| ModellerController.StructuredRunRequestRoundTrip | Code/TMG.Emme/ModellerController.cs:444-461 | parsing the structured request back recovers the macro name and every parameter's name and value; no arguments reads back as none |
| ModellerController.ReadInt32Spec | Code/TMG.Emme/ModellerController.cs:296 | reading a signal never consumes more than is left in the stream |
| ModellerController.CharRun | Code/TMG.Emme/ModellerController.cs:280-283 | the characters one read can deliver: at most the count asked for, all characters, stopping only at the end of the stream or at a non-character |
| ModellerController.Chars | Code/TMG.Emme/ModellerController.cs:283 | the characters read, in order |
| ModellerController.DecodeString | Code/TMG.Emme/ModellerController.cs:271-285 | a string read succeeds only by consuming its Int32 length and then exactly that many characters |
| ModellerController.Respond | Code/TMG.Emme/ModellerController.cs:287-356 | the response loop never consumes more than the stream holds |
| ModellerController.Answer | Code/TMG.Emme/ModellerController.cs:299-344 | handling one signal never consumes more than the stream holds |
| ModellerController.StringAnswer | Code/TMG.Emme/ModellerController.cs:307-331 | handling a signal that carries a string never consumes more than the stream holds |
| ModellerController.StartReply | Code/TMG.Emme/ModellerController.cs:239-269 | the start handshake succeeds exactly when the next Int32 is the start signal |
| ModellerController.StringUnits | Code/TMG.Emme/ModellerController.cs:271-285 | a string on the inbound pipe is its Int32 length followed by its characters |
| ModellerController.DecodeStringUnits | Code/TMG.Emme/ModellerController.cs:271-285 | reading a framed string gives back exactly that string and consumes exactly its frame |
| ModellerController.RespondStep | Code/TMG.Emme/ModellerController.cs:295-297 | each turn of the response loop reads one Int32 signal and hands the rest to that signal's case |
| ModellerController.AnswerWithString | Code/TMG.Emme/ModellerController.cs:307-331 | a string-carrying signal followed by a framed string is answered with exactly that string |
| ModellerController.RespondToFinalString | Code/TMG.Emme/ModellerController.cs:307-327 | completion-with-value and the three error signals stop the loop with the string that follows them |
| ModellerController.RespondToFinal | Code/TMG.Emme/ModellerController.cs:299-327 | a final message (start, complete, complete-with-value, termination, or one of the errors) decides the outcome and consumes exactly its own bytes |
| ModellerController.RespondToIntermediate | Code/TMG.Emme/ModellerController.cs:328-341 | a print message or progress report adds its event and the loop goes on with the rest of the stream |
| ModellerController.RespondToScript | Code/TMG.Emme/ModellerController.cs:287-356 | any run of print/progress messages followed by one final message gives that message's outcome; the intermediate events come in order; the whole script is consumed |
| ModellerController.RespondWithoutCallback | Code/TMG.Emme/ModellerController.cs:334-341 | with no progress callback no progress event is ever reported |
| ModellerController.RespondSucceedsOnlyOnCompletion | Code/TMG.Emme/ModellerController.cs:299-311 | a run succeeds only when the last thing read was a run-complete signal, with or without a value |
| ModellerController.ReadTurnsAsWritten | Code/TMG.Emme/ModellerController.cs:280-283 | the read loop as written never gets past the announced length or the end of the stream |
| ModellerController.ReadStringAsWrittenSpins | Code/TMG.Emme/ModellerController.cs:280-283 | when the stream ends early, any number of further turns of the loop as written makes no progress, so it never terminates |
| ModellerController.StaysAtEnd | Code/TMG.Emme/ModellerController.cs:280-283 | once the stream is exhausted short of the announced length, the loop stays where it is |
| ModellerController.InboundPipe.ReadInt32 | Code/TMG.Emme/ModellerController.cs:296 | reads a signal and advances exactly as the decoding function says |
| ModellerController.InboundPipe.ReadSingle | Code/TMG.Emme/ModellerController.cs:336 | reads a progress value; fails at the end of the stream or on a unit that is not a float, without moving |
| ModellerController.InboundPipe.Read | Code/TMG.Emme/ModellerController.cs:282 | copies the next run of characters into the buffer at the index; it returns 0 only when none are available and leaves the rest of the buffer as it was |
| ModellerController.OutboundPipe.Write | Code/TMG.Emme/ModellerController.cs:397-402 | a writable pipe appends the tokens; a broken or closed one fails and keeps what it had |
| ModellerController.Controller.ReadString | Code/TMG.Emme/ModellerController.cs:271-285 | reads a string exactly as the decoding function says: a stream that ends early is an error, not a spin |
| ModellerController.InboundPipe.ReadChars | Code/TMG.Emme/ModellerController.cs:280-283 | reads into a buffer of the announced length until it is full or a read delivers nothing; the count read is the run of characters waiting, and the buffer holds those characters of the stream |
| ModellerController.Controller.WaitForEmmeResponse | Code/TMG.Emme/ModellerController.cs:287-356 | with no inbound pipe it fails; otherwise outcome, events and position are those of the response function over the unread stream |
| ModellerController.Controller.HandleSignal | Code/TMG.Emme/ModellerController.cs:299-344 | one case of the loop: either stops with the outcome of that signal, or continues in agreement with the response function |
| ModellerController.Controller.HandleStringSignal | Code/TMG.Emme/ModellerController.cs:307-331 | the same for the signals that carry a string |
| ModellerController.Controller.WaitForStartSignal | Code/TMG.Emme/ModellerController.cs:239-269 | succeeds exactly when EMME's first signal is the start signal |
| ModellerController.Controller.Request | Code/TMG.Emme/ModellerController.cs:416-422 | after disposal every request fails and nothing is sent or read; a failed send reads nothing; otherwise the tokens are sent and the reply decoded |
| ModellerController.Controller.Run | Code/TMG.Emme/ModellerController.cs:390-410 | sends the start-module signal, the macro name and the argument string, then returns what the response loop decides and consumes exactly the reply; a disposed controller or a failed send is reported without reading anything, and a missing inbound stream is reported as such |
| ModellerController.Controller.RunStructured | Code/TMG.Emme/ModellerController.cs:435-470 | sends the structured request for the macro and its parameters, then returns what the response loop decides and consumes exactly the reply; a disposed controller or a failed send is reported without reading anything, and a missing inbound stream is reported as such |
| ModellerController.Controller.CheckToolExists | Code/TMG.Emme/ModellerController.cs:358-378 | sends the check-tool signal and the namespace, then returns what the response loop decides and consumes exactly the reply; a disposed controller or a failed send is reported without reading anything, and a missing inbound stream is reported as such |
| ModellerController.Controller.CleanLogbook | Code/TMG.Emme/ModellerController.cs:215-237 | sends the clean-logbook signal and waits for the reply; a write that fails returns false |
| ModellerController.Controller.Dispose | Code/TMG.Emme/ModellerController.cs:477-504 | a connected outbound pipe gets the termination signal if it is writable and is then closed; a connected inbound pipe is closed; the controller forgets both |
| ModellerController.DisposedBridgeRefusesRuns | Code/TMG.Emme/ModellerController.cs:416-422 | once disposed, the bridge refuses every run |
| ModellerController.FileName | Code/TMG.Emme/ModellerController.cs:513 | a directory's name is the suffix of its path after the last separator |
| ModellerController.FindPythonDirectory | Code/TMG.Emme/ModellerController.cs:506-525 | with no EMME installation it fails; otherwise it returns the name of the first directory called "Python" followed by a digit, or fails when there is none |
| NumberList.Wrap32 | Code/TMGInterfaces/DataUtility/NumberList.cs:81 | two's-complement 32-bit wrap: the result is a 32-bit integer, and an in-range value is unchanged |
| NumberList.Wrap32Shift | Code/TMGInterfaces/DataUtility/NumberList.cs:81 | wrapping ignores multiples of 2^32 |
| NumberList.Wrap32Step | Code/TMGInterfaces/DataUtility/NumberList.cs:81 | wrapping after every digit equals wrapping once at the end |
| NumberList.RunLength | Code/TMGInterfaces/DataUtility/NumberList.cs:76-82 | a number's digits run up to the first separator |
| NumberList.Fields | Code/TMGInterfaces/DataUtility/NumberList.cs:58-89 | every field the parser reads is non-empty and, when the text has no bad character, all digits |
| NumberList.FirstBad | Code/TMGInterfaces/DataUtility/NumberList.cs:71-80 | the first character that is neither a digit nor a separator, or none |
| NumberList.FieldValues | Code/TMGInterfaces/DataUtility/NumberList.cs:81 | each field's value is its wrapped decimal accumulation |
| NumberList.Parse | Code/TMGInterfaces/DataUtility/NumberList.cs:58-89 | the text parses exactly when it has no character that is neither digit nor separator; otherwise the error names the first such character, a newline being its own error; on success one 32-bit value per field |
| NumberList.FieldValuesSnoc | Code/TMGInterfaces/DataUtility/NumberList.cs:81 | values of appended fields append |
| NumberList.AccumulateIsWrappedDecimal | Code/TMGInterfaces/DataUtility/NumberList.cs:81 | the digit-by-digit accumulation equals the decimal value wrapped to 32 bits |
| NumberList.AccumulateExact | Code/TMGInterfaces/DataUtility/NumberList.cs:81 | numbers below 2^31 are read exactly |
| NumberList.FieldsSkipSeparators | Code/TMGInterfaces/DataUtility/NumberList.cs:159-165 | leading separators do not change the fields |
| NumberList.FieldsRun | Code/TMGInterfaces/DataUtility/NumberList.cs:76-82 | a run of non-separators up to a separator is the next field |
| NumberList.FieldsOfJoin | Code/TMGInterfaces/DataUtility/NumberList.cs:148-157 | joining digit strings with commas and splitting back into fields gives the same strings |
| NumberList.JoinNoBad | Code/TMGInterfaces/DataUtility/NumberList.cs:148-157 | comma-joined digit strings hold no bad character |
| NumberList.DecimalTexts | Code/TMGInterfaces/DataUtility/NumberList.cs:152 | one decimal text per value |
| NumberList.Render | Code/TMGInterfaces/DataUtility/NumberList.cs:148-157 | the corrected rendering: empty exactly for no values; non-negative values render as digits and commas whose fields are the values' decimal texts |
| NumberList.ToStringAsWritten | Code/TMGInterfaces/DataUtility/NumberList.cs:148-157 | as written, rendering fails with an argument error exactly when the list is empty |
| NumberList.EmptyListRoundTripFails | Code/TMGInterfaces/DataUtility/NumberList.cs:148-157 | the empty text parses to the empty list, but the empty list cannot be rendered as written |
| NumberList.RenderParseRoundTrip | Code/TMGInterfaces/DataUtility/NumberList.cs:58-89 | rendering non-negative 32-bit values and parsing the text gives back the same list, the empty one included |
| NumberList.ToStringAsWrittenAgrees | Code/TMGInterfaces/DataUtility/NumberList.cs:148-157 | for a non-empty list the code as written renders the values comma-separated |
| NumberList.NumberList.Count | Code/TMGInterfaces/DataUtility/NumberList.cs:29-32 | the count is the number of values |
| NumberList.NumberList.Get | Code/TMGInterfaces/DataUtility/NumberList.cs:39-50 | reading in range gives the value at that index; out of range is an error |
| NumberList.NumberList.Set | Code/TMGInterfaces/DataUtility/NumberList.cs:39-50 | writing in range replaces exactly that value; out of range is an error and nothing changes |
| NumberList.NumberList.IndexOf | Code/TMGInterfaces/DataUtility/NumberList.cs:116-126 | the first index holding the item, or -1 exactly when it is absent |
| NumberList.NumberList.Contains | Code/TMGInterfaces/DataUtility/NumberList.cs:101-104 | true exactly when the item is in the list |
| NumberList.NumberList.Mutate | Code/TMGInterfaces/DataUtility/NumberList.cs:91-99 | Add, Clear, Insert, Remove and RemoveAt are not supported |
| NumberList.NumberList.ToString | Code/TMGInterfaces/DataUtility/NumberList.cs:148-157 | a non-empty list renders as its values comma-separated |
| NumberList.BurnWhiteSpace | Code/TMGInterfaces/DataUtility/NumberList.cs:159-165 | skips exactly the separators, stopping at the end or at the first other character |
| NumberList.ReadNumber | Code/TMGInterfaces/DataUtility/NumberList.cs:66-84 | reads one number: its digits up to a separator and their wrapped value; a bad character is the error the whole parse reports |
| NumberList.ParseValues | Code/TMGInterfaces/DataUtility/NumberList.cs:58-89 | the scanning loop computes exactly the specification parse |
| NumberList.TryParse | Code/TMGInterfaces/DataUtility/NumberList.cs:58-89 | succeeds exactly when the text parses, with a fresh list holding the parsed values; otherwise no list and the error message of the first bad character or newline |
| TripChainLoader.NameEntriesRun | TorontoHouseholds/TripChainLoader.cs:279-333 | reading a mode name consumes characters up to the next comma |
| TripChainLoader.EntriesOfEntry | TorontoHouseholds/TripChainLoader.cs:279-333 | "letter:name" is read as one entry, followed by the entries after the comma |
| TripChainLoader.EntriesRender | TorontoHouseholds/TripChainLoader.cs:279-333 | rendering entries as "L:name,..." and parsing gives them back |
| TripChainLoader.AddEntries | TorontoHouseholds/TripChainLoader.cs:279-333 | entries are added to the dictionary and earlier keys are kept; with no duplicate every letter is present; a reported duplicate is a key |
| TripChainLoader.AddEntriesDistinct | TorontoHouseholds/TripChainLoader.cs:279-333 | distinct new letters give no duplicate and map each letter to its name |
| TripChainLoader.RepeatedLetterFails | TorontoHouseholds/TripChainLoader.cs:279-333 | a letter given twice is reported, and the first name is kept |
| TripChainLoader.DefaultConversion | TorontoHouseholds/TripChainLoader.cs:48 | the default conversion maps D to Auto, T to Transit and W to Walk |
| TripChainLoader.DefaultEntries | TorontoHouseholds/TripChainLoader.cs:48 | the default text holds exactly those three entries, in order |
| TripChainLoader.ReclassifyPurpose | TorontoHouseholds/TripChainLoader.cs:235-238 | a trip becomes work-based business exactly when it already was, or is a work trip not ending in the employment zone; otherwise the purpose is unchanged |
| TripChainLoader.GroupIntoChains | TorontoHouseholds/TripChainLoader.cs:179-233 | fails exactly when the first trip starts away from home and no attach name is set; otherwise the chains concatenate to the records, none is empty, each later chain starts at home and no trip inside a chain does |
| TripChainLoader.TripChainLoader.CreateConversionDictionary | TorontoHouseholds/TripChainLoader.cs:279-333 | the dictionary and the duplicate reported are those of adding the parsed entries |
| TripChainLoader.TripChainLoader.ObservedModeIndex | TorontoHouseholds/TripChainLoader.cs:203-224 | an unconverted letter maps to mode 0 (an error when there are no modes); a converted one maps to the first mode with that name, or to none when no mode has it |
| ProjectController.ProjectRepository.AddProject | Code/XTMF1.1/Controller/ProjectController.cs:140-157 | the project is appended to the repository |
| ProjectController.ProjectRepository.Remove | Code/XTMF1.1/Controller/ProjectController.cs:231 | reports whether the project was present; when it was, the list is the old one without its first occurrence, the rest in order; otherwise it is unchanged |
| ProjectController.Position | Code/XTMF1.1/Controller/ProjectController.cs:231 | the index of the first occurrence of a present item |
| ProjectController.IndexOf | Code/XTMF1.1/Controller/ProjectController.cs:187-198 | the first index satisfying the condition, or -1 when none does |
| ProjectController.FindByName | Code/XTMF1.1/Controller/ProjectController.cs:206-214 | the first project whose name matches ignoring case, or none |
| ProjectController.ProjectController.SessionOf | Code/XTMF1.1/Controller/ProjectController.cs:53-75 | the editing session of the project, when one is open |
| ProjectController.ProjectController.EditProject | Code/XTMF1.1/Controller/ProjectController.cs:53-75 | a null project is an error; an open session is shared and its count goes up by one; otherwise a new session is added with count 1 |
| ProjectController.ProjectController.RemoveEditingReference | Code/XTMF1.1/Controller/ProjectController.cs:81-101 | the session's count goes down by one, and the session is dropped when it reaches zero; a null or unknown session is an error and changes nothing |
| ProjectController.ProjectController.Load | Code/XTMF1.1/Controller/ProjectController.cs:119-132 | returns the first project with the name, ignoring case, or an error |
| ProjectController.ProjectController.ValidateProjectName | Code/XTMF1.1/Controller/ProjectController.cs:103-111 | a valid name holds at least one character that is not white space, so the empty name is always refused, whatever the repository's own rule |
| ProjectController.ProjectController.LoadOrCreate | Code/XTMF1.1/Controller/ProjectController.cs:140-157 | returns the existing project; otherwise creates and appends a fresh one when the name is valid, and fails without change when it is not |
| ProjectController.ProjectController.DeleteProject | Code/XTMF1.1/Controller/ProjectController.cs:222-233 | a project being edited is an error and the list is unchanged; otherwise the result says whether it was in the repository, and the list is the old one without its first occurrence (unchanged when absent) |
| ProjectController.ProjectController.DeleteProjectNamed | Code/XTMF1.1/Controller/ProjectController.cs:206-214 | an unknown name and a project being edited are errors without change; otherwise the result is true and the list is the old one without the first project of that name |
| ProjectController.SessionIndex | Code/XTMF1.1/Controller/ProjectController.cs:187-198 | the first session whose project is the given one, or none |
| PassengerAlgo.EffectiveStart | Tasha/ModeChoice/PassengerAlgo.cs:326-347 | an auxiliary chain starts at its own start unless it has a connecting chain and is not a drop-off, in which case the connecting chain's start is used |
| PassengerAlgo.EffectiveEnd | Tasha/ModeChoice/PassengerAlgo.cs:303-324 | it ends at its own end unless it is a drop-off with a connecting chain, in which case the connecting chain's end is used |
| PassengerAlgo.SubReflexive | Tasha/ModeChoice/PassengerAlgo.cs:265-301 | a list is a sub-list of itself |
| PassengerAlgo.SubShorter | Tasha/ModeChoice/PassengerAlgo.cs:265-301 | a sub-list is no longer than its list |
| PassengerAlgo.SubTransitive | Tasha/ModeChoice/PassengerAlgo.cs:265-301 | a sub-list of a sub-list is a sub-list |
| PassengerAlgo.RemoveFirst | Tasha/ModeChoice/PassengerAlgo.cs:290 | removing a chain drops one element when present and leaves the list alone otherwise; the result is a sub-list |
| PassengerAlgo.SortTrips | Tasha/ModeChoice/PassengerAlgo.cs:466-486 | the member's list is sorted in place by start time and holds the same chains; a list already sorted is left exactly as it was |
| PassengerAlgo.Swap | Tasha/ModeChoice/PassengerAlgo.cs:479-484 | the two entries of the list exchange places and nothing else changes |
| PassengerAlgo.EarliestFrom | Tasha/ModeChoice/PassengerAlgo.cs:471-477 | the index of the first chain with the least start time among those from the given index on |
| PassengerAlgo.SelectionStep | Tasha/ModeChoice/PassengerAlgo.cs:479-484 | swapping the earliest remaining chain into place extends the ordered prefix by one and keeps the same chains |
| PassengerAlgo.ConflictsFrom | Tasha/ModeChoice/PassengerAlgo.cs:355-381 | every chain reported is another chain of the list that overlaps the given one in time |
| PassengerAlgo.GetConflictingChains | Tasha/ModeChoice/PassengerAlgo.cs:355-381 | the loop collects exactly the conflicts of the specification, stopping past the chain's end |
| PassengerAlgo.ConflictsComplete | Tasha/ModeChoice/PassengerAlgo.cs:355-381 | on a list sorted by start, every other overlapping chain that starts no later than the chain's end is reported |
| PassengerAlgo.CopyChain | Tasha/ModeChoice/PassengerAlgo.cs:186-194 | the copy holds the same chains in the same order |
| PassengerAlgo.RemoveAll | Tasha/ModeChoice/PassengerAlgo.cs:285-291 | removing the first occurrence of each conflicting chain in turn leaves a sub-list of the input, no longer than it |
| PassengerAlgo.RemoveAllShorter | Tasha/ModeChoice/PassengerAlgo.cs:285-291 | when the first conflicting chain is in the list, the removals make it strictly shorter |
| PassengerAlgo.RemoveConflicts | Tasha/ModeChoice/PassengerAlgo.cs:285-291 | the copy loses the first occurrence of each conflicting chain, in order, which leaves a sub-list, strictly shorter when the first conflict was present |
| PassengerAlgo.Potential | Tasha/ModeChoice/PassengerAlgo.cs:265-301 | the sets the recursion adds, in order: at least one |
| PassengerAlgo.PotentialSubLists | Tasha/ModeChoice/PassengerAlgo.cs:265-301 | every set the recursion adds is the input with some chains removed and the others in order |
| PassengerAlgo.FindPotentialTripChainsRec | Tasha/ModeChoice/PassengerAlgo.cs:265-301 | the recursion appends to the accumulator exactly the sets of the specification, in order: at least one, each a sub-list of its input |
| PassengerAlgo.ChainList.Clear | Tasha/ModeChoice/PassengerAlgo.cs:175 | the list object itself is emptied |
| PassengerAlgo.ClearPassengerTrips | Tasha/ModeChoice/PassengerAlgo.cs:163-179 | every person ends with a present, empty list of auxiliary chains; an existing list is cleared in place and stays the same object, a missing one is replaced by a new one |
| PassengerAlgo.Listed | Tasha/ModeChoice/PassengerAlgo.cs:228-239 | the persons with auxiliary chains, in household order: none exactly when every person has none |
| PassengerAlgo.VisitMember | Tasha/ModeChoice/PassengerAlgo.cs:230-239 | a person without chains is skipped; otherwise its list is sorted in place, keeps its chains, and its sets are those of the specification on the sorted list |
| PassengerAlgo.VisitUntilMissing | Tasha/ModeChoice/PassengerAlgo.cs:226-239 | the loop stops at the end of the household or at the first person without a list, having visited everyone before it |
| PassengerAlgo.VisitingPermutes | Tasha/ModeChoice/PassengerAlgo.cs:226-239 | wherever the loop stops, every person's chains are a permutation of those held on entry |
| PassengerAlgo.VisitedAll | Tasha/ModeChoice/PassengerAlgo.cs:226-241 | after the whole household, every list is sorted and a permutation of its entry, and the entries are one per person with chains, in order, holding the sets of the sorted chains |
| PassengerAlgo.FindAllPotentialModesForTrips | Tasha/ModeChoice/PassengerAlgo.cs:222-241 | the first person without a list is a null-dereference error; every list keeps its chains; otherwise every list ends sorted, and the result holds one entry per person with chains, in household order, whose sets are those of the specification on that person's sorted chains, so it is empty exactly when no person has any chain |
| AdvancedModeParameterDatabase.AllButFirst | Code/GTAModel/ParameterDatabase/AdvancedModeParameterDatabase.cs:170-175 | drops exactly the first element and keeps the rest in order |
| AdvancedModeParameterDatabase.ParseHeader | Code/GTAModel/ParameterDatabase/AdvancedModeParameterDatabase.cs:308-311 | the parameter names are the header's comma fields after the first |
| AdvancedModeParameterDatabase.KeptRows | Code/GTAModel/ParameterDatabase/AdvancedModeParameterDatabase.cs:253-257 | short lines are skipped; every kept row has at least one value per parameter |
| AdvancedModeParameterDatabase.KeptRowsAppend | Code/GTAModel/ParameterDatabase/AdvancedModeParameterDatabase.cs:241-267 | the rows kept from two blocks of lines are those of each block, concatenated |
| AdvancedModeParameterDatabase.KeptRowsOne | Code/GTAModel/ParameterDatabase/AdvancedModeParameterDatabase.cs:253-257 | one line is kept, as its fields after the first, exactly when it has a field for every parameter |
| AdvancedModeParameterDatabase.TrimStart | Code/GTAModel/ParameterDatabase/AdvancedModeParameterDatabase.cs:290 | the trimmed text starts with no white space or NUL and is no longer than the cell |
| AdvancedModeParameterDatabase.TrimStartSuffix | Code/GTAModel/ParameterDatabase/AdvancedModeParameterDatabase.cs:290 | trimming the start removes only white space and NUL characters and keeps the rest of the text unchanged |
| AdvancedModeParameterDatabase.TrimEnd | Code/GTAModel/ParameterDatabase/AdvancedModeParameterDatabase.cs:290 | the trimmed text ends with no white space or NUL and is no longer than the cell |
| AdvancedModeParameterDatabase.TrimEndPrefix | Code/GTAModel/ParameterDatabase/AdvancedModeParameterDatabase.cs:290 | trimming the end removes only white space and NUL characters and keeps the rest of the text unchanged |
| AdvancedModeParameterDatabase.ParseBoolMeaning | Code/GTAModel/ParameterDatabase/AdvancedModeParameterDatabase.cs:290 | a switch cell is true or false exactly when, trimmed, it reads "true" or "false" ignoring case |
| AdvancedModeParameterDatabase.ParseBoolText | Code/GTAModel/ParameterDatabase/AdvancedModeParameterDatabase.cs:290 | "True" and "False", even padded with spaces, read back as themselves |
| AdvancedModeParameterDatabase.SwitchCells | Code/GTAModel/ParameterDatabase/AdvancedModeParameterDatabase.cs:287-296 | either one boolean per cell, or the column of a bad cell |
| AdvancedModeParameterDatabase.SwitchCellsMeaning | Code/GTAModel/ParameterDatabase/AdvancedModeParameterDatabase.cs:287-296 | each boolean is its cell's parse; the error column is the first cell that does not parse |
| AdvancedModeParameterDatabase.SwitchLinesAsWritten | Code/GTAModel/ParameterDatabase/AdvancedModeParameterDatabase.cs:275-298 | as written: at most one row per line; an error names a column of the header and a line number that has advanced only past the rows kept before it |
| AdvancedModeParameterDatabase.SwitchLines | Code/GTAModel/ParameterDatabase/AdvancedModeParameterDatabase.cs:275-298 | corrected: at most one row per line; an error names a column of the header and a line among the data lines |
| AdvancedModeParameterDatabase.SwitchLinesLocatesError | Code/GTAModel/ParameterDatabase/AdvancedModeParameterDatabase.cs:275-298 | the reported line is the file line that holds the bad value, counting skipped short lines; the column and value are those of the failing cell; every row read has one switch per parameter |
| AdvancedModeParameterDatabase.SkippedRowMisnumbersError | Code/GTAModel/ParameterDatabase/AdvancedModeParameterDatabase.cs:283-298 | as written, a skipped short line does not advance the line number, so an error on the next line is reported one line early |
| AdvancedModeParameterDatabase.ShortRowThenMaybe | Code/GTAModel/ParameterDatabase/AdvancedModeParameterDatabase.cs:283-298 | the concrete input: data lines "short" and "row,maybe" from line 2 under one column; as written the error names line 2, corrected it names line 3 |
| AdvancedModeParameterDatabase.AdvancedModeParameterDatabase.SetupParameterObjects | Code/GTAModel/ParameterDatabase/AdvancedModeParameterDatabase.cs:313-321 | one fresh, distinct, unset parameter per header name, in order; nothing else changes |
| AdvancedModeParameterDatabase.AdvancedModeParameterDatabase.NewParameters | Code/GTAModel/ParameterDatabase/AdvancedModeParameterDatabase.cs:313-321 | one fresh, distinct, unset parameter per name |
| AdvancedModeParameterDatabase.AdvancedModeParameterDatabase.ReadRows | Code/GTAModel/ParameterDatabase/AdvancedModeParameterDatabase.cs:241-267 | the reading loop keeps exactly the rows of the specification |
| AdvancedModeParameterDatabase.AdvancedModeParameterDatabase.LoadParameters | Code/GTAModel/ParameterDatabase/AdvancedModeParameterDatabase.cs:241-267 | a file with no header is an error and changes nothing; otherwise the parameters are named by the header and the kept rows become parameter sets |
| AdvancedModeParameterDatabase.AdvancedModeParameterDatabase.LoadAlternatives | Code/GTAModel/ParameterDatabase/AdvancedModeParameterDatabase.cs:215-239 | the alternatives file's kept rows, after its header, are appended to the demographic alternatives |
| AdvancedModeParameterDatabase.AdvancedModeParameterDatabase.LoadSwitches | Code/GTAModel/ParameterDatabase/AdvancedModeParameterDatabase.cs:269-306 | corrected: the switch rows, or the error locating the bad value, are those of the corrected line numbering (SwitchLines) over the lines after the header |
| AdvancedModeParameterDatabase.AdvancedModeParameterDatabase.ReadSwitches | Code/GTAModel/ParameterDatabase/AdvancedModeParameterDatabase.cs:275-298 | corrected: the switch loop, with lines numbered from 2 and a skipped short line still counted, computes exactly SwitchLines |
| AdvancedModeParameterDatabase.AdvancedModeParameterDatabase.ParseSwitchRow | Code/GTAModel/ParameterDatabase/AdvancedModeParameterDatabase.cs:287-296 | parses one row's cells after the first, as the specification says |
| AdvancedModeParameterDatabase.AdvancedModeParameterDatabase.LoadSwitchesAndAlternatives | Code/GTAModel/ParameterDatabase/AdvancedModeParameterDatabase.cs:186-207 | corrected: both files are read: the switch rows and the alternative rows are appended as their loaders say, and a bad switch cell is the reported outcome |
| AdvancedModeParameterDatabase.AdvancedModeParameterDatabase.LoadFiles | Code/GTAModel/ParameterDatabase/AdvancedModeParameterDatabase.cs:184-211 | corrected: the outcome is a missing header, the first bad switch cell, or success, which alone sets the flag; with a header, one fresh parameter per header name, and each table extended by the rows its file contributes |
| AdvancedModeParameterDatabase.AdvancedModeParameterDatabase.Load | Code/GTAModel/ParameterDatabase/AdvancedModeParameterDatabase.cs:177-213 | corrected: a second call changes nothing and succeeds; a first call reports a missing header or the first bad switch cell, sets the flag exactly on success, and leaves the tables as the three loaders make them: one fresh parameter per header name, the kept parameter rows, the kept alternative rows and the switch rows read before any bad cell |
| AdvancedModeParameterDatabase.AdvancedModeParameterDatabase.SetupParameters | Code/GTAModel/ParameterDatabase/AdvancedModeParameterDatabase.cs:323-363 | bad indices are an error and no value changes; otherwise each parameter takes the set's value where the category's switch is on and the alternative's value where it is off |
| AdvancedModeParameterDatabase.AdvancedModeParameterDatabase.ApplyParameterSet | Code/GTAModel/ParameterDatabase/AdvancedModeParameterDatabase.cs:88-96 | corrected: Load followed by SetupParameters: a failed first load is the result; otherwise the tables are those Load leaves, the index checks decide the result, and on success each parameter holds the set's value where the switch row says true and the alternative value elsewhere; a failed check on a loaded database changes no value |
| AdvancedModeParameterDatabase.SetupCheck | Code/GTAModel/ParameterDatabase/AdvancedModeParameterDatabase.cs:323-363 | the indices are accepted exactly when the set, the alternative and the switch row all exist |
| Aggregation.BuildFactors | Code/TMG.Frameworks/Data/Synthesis/Gibbs/Aggregation.cs:172-183 | in place, each entry becomes the product of the lengths after it, so the last is 1 |
| Aggregation.GetIndex | Code/TMG.Frameworks/Data/Synthesis/Gibbs/Aggregation.cs:125-133 | the index is the dot product of the combination's leading values with the factors |
| Aggregation.DotFrom | Code/TMG.Frameworks/Data/Synthesis/Gibbs/Aggregation.cs:125-133 | the code of a combination from a position on; non-negative when every value and factor from there on is |
| Aggregation.Factors | Code/TMG.Frameworks/Data/Synthesis/Gibbs/Aggregation.cs:172-183 | one factor per attribute: the product of the later lengths |
| Aggregation.EncodingBound | Code/TMG.Frameworks/Data/Synthesis/Gibbs/Aggregation.cs:125-133 | a combination within the attribute lengths encodes below the product of the lengths |
| Aggregation.EncodingInjective | Code/TMG.Frameworks/Data/Synthesis/Gibbs/Aggregation.cs:125-133 | two in-range combinations with the same code agree on every attribute |
| Aggregation.EncodingOneToOne | Code/TMG.Frameworks/Data/Synthesis/Gibbs/Aggregation.cs:125-133 | the mixed-radix encoding is in range and one-to-one |
| Aggregation.IndexOfAttribute | Code/TMG.Frameworks/Data/Synthesis/Gibbs/Aggregation.cs:76 | the first position of an attribute in a pool, or -1 exactly when it is absent |
| Aggregation.FirstNamed | Code/TMG.Frameworks/Data/Synthesis/Gibbs/Aggregation.cs:196-219 | the first element with the name (an attribute of a pool, or a pool), or none when no element has it |
| Aggregation.ValidatePrimaryPool | Code/TMG.Frameworks/Data/Synthesis/Gibbs/Aggregation.cs:243-251 | succeeds exactly when a pool has the primary pool's name, and returns it |
| Aggregation.MissingName | Code/TMG.Frameworks/Data/Synthesis/Gibbs/Aggregation.cs:196-219 | the first name with no attribute, or none when all exist |
| Aggregation.ValidateJoin | Code/TMG.Frameworks/Data/Synthesis/Gibbs/Aggregation.cs:196-219 | a join validates exactly when its secondary pool, its primary attribute and every secondary attribute exist, and binds them |
| Aggregation.Columns | Code/TMG.Frameworks/Data/Synthesis/Gibbs/Aggregation.cs:76 | each bound attribute's column is the first column holding that attribute |
| Aggregation.EnsureAllColumnsExist | Code/TMG.Frameworks/Data/Synthesis/Gibbs/Aggregation.cs:185-194 | succeeds exactly when every column was found; otherwise the message names the attribute of the first missing column |
| Aggregation.ValidatedColumnsExist | Code/TMG.Frameworks/Data/Synthesis/Gibbs/Aggregation.cs:185-194 | after validation every column is found |
| Aggregation.RowIndexAsWritten | Code/TMG.Frameworks/Data/Synthesis/Gibbs/Aggregation.cs:158-165 | as written, a row's code can be computed only when it has no more fields than factors plus one |
| Aggregation.RowIndex | Code/TMG.Frameworks/Data/Synthesis/Gibbs/Aggregation.cs:158-165 | corrected: a row's code reads one field per factor after the first field and ignores any extra field |
| Aggregation.RowIndexAgrees | Code/TMG.Frameworks/Data/Synthesis/Gibbs/Aggregation.cs:158-165 | on a row of exactly the expected width, the corrected code and the code as written agree |
| Aggregation.ExtraFieldOverrunsFactors | Code/TMG.Frameworks/Data/Synthesis/Gibbs/Aggregation.cs:158-165 | as written, a row with an extra field runs past the factors; the corrected code ignores the extra field |
| Aggregation.Accepted | Code/TMG.Frameworks/Data/Synthesis/Gibbs/Aggregation.cs:135-170 | corrected: a successful read has one accepted list per primary value, each row coded by the corrected RowIndex; a failure names a row of the file |
| Aggregation.AcceptedMeaning | Code/TMG.Frameworks/Data/Synthesis/Gibbs/Aggregation.cs:135-170 | corrected: the read fails exactly when some row that is read has a primary value out of range, and then at the first such row; otherwise each primary value's list holds the codes of its rows, in file order |
| Aggregation.AcceptedSkipsShortRow | Code/TMG.Frameworks/Data/Synthesis/Gibbs/Aggregation.cs:154 | rows with too few fields are skipped |
| Aggregation.LoadAggregationFile | Code/TMG.Frameworks/Data/Synthesis/Gibbs/Aggregation.cs:135-170 | corrected: the loop reads, after the header, exactly what Accepted (with the corrected RowIndex) accepts |
| Aggregation.AcceptedStaysFailed | Code/TMG.Frameworks/Data/Synthesis/Gibbs/Aggregation.cs:135-170 | the first failing row decides the error and later rows do not matter |
| Aggregation.Project | Code/TMG.Frameworks/Data/Synthesis/Gibbs/Aggregation.cs:118 | the representative's values in the join's columns |
| Aggregation.Candidates | Code/TMG.Frameworks/Data/Synthesis/Gibbs/Aggregation.cs:112-123 | a choice is a candidate exactly when the code of its values in the join's columns is in the accepted set |
| Aggregation.CandidatesAsWritten | Code/TMG.Frameworks/Data/Synthesis/Gibbs/Aggregation.cs:112-123 | as written: a choice is a candidate exactly when the code of its leading values, whatever columns the join names, is accepted; at most one entry per choice |
| Aggregation.ColumnIgnoredAsWritten | Code/TMG.Frameworks/Data/Synthesis/Gibbs/Aggregation.cs:118 | as written, a choice whose joined column matches is missed because the leading values are encoded instead |
| Aggregation.CandidatesAgreeOnLeadingColumns | Code/TMG.Frameworks/Data/Synthesis/Gibbs/Aggregation.cs:112-123 | when the join's columns are the leading ones, the corrected pick and the pick as written agree |
| Aggregation.CandidatesByValue | Code/TMG.Frameworks/Data/Synthesis/Gibbs/Aggregation.cs:112-123 | corrected: one candidate list per primary value, each holding exactly the corrected Candidates of that value |
| Aggregation.WrittenRecords | Code/TMG.Frameworks/Data/Synthesis/Gibbs/Aggregation.cs:93-107 | records are written, in order, exactly for the primary rows that have a candidate; an out-of-range primary value is an error at its first row |
| AutoMode.Bracket | Code/Beijing/Modes/AutoMode.cs:204-227 | income 1 is the first bracket, 2-3 the second, 4-5 the third, and anything else the fourth |
| AutoMode.VehicleTraceAppend | Code/Beijing/Modes/AutoMode.cs:141-165 | tracing the vehicle through two parts of a chain is tracing through the first, then the second |
| AutoMode.VehicleTraceUnused | Code/Beijing/Modes/AutoMode.cs:141-165 | trips that do not use the vehicle leave it where it is |
| AutoMode.ChainWithoutVehicleFeasible | Code/Beijing/Modes/AutoMode.cs:141-165 | a chain that never uses the vehicle is feasible |
| AutoMode.RoundTripFeasible | Code/Beijing/Modes/AutoMode.cs:141-165 | driving from home and back is feasible |
| AutoMode.AutoMode.FeasibleTrip | Code/Beijing/Modes/AutoMode.cs:119-139 | feasible exactly when the person is old enough, licensed when required, and the household owns the vehicle |
| AutoMode.AutoMode.FeasibleChain | Code/Beijing/Modes/AutoMode.cs:141-165 | the loop decides exactly the specification: the vehicle is only picked up where it was left and ends at home |
| AutoMode.AutoMode.FindVehicleType | Code/Beijing/Modes/AutoMode.cs:347-375 | binds the auto type when it has the name, else the first vehicle type with it; otherwise the message names the vehicle |
| AutoMode.AutoMode.FindAutoData | Code/Beijing/Modes/AutoMode.cs:315-345 | no network type or no networks are errors; otherwise it binds the first network of the type, and fails exactly when there is none |
| AutoMode.AutoMode.RuntimeValidation | Code/Beijing/Modes/AutoMode.cs:295-313 | a missing mode name, then a missing vehicle name, then a vehicle type that is neither the auto type nor among the known types are errors with their messages; after that the outcome is the network lookup's (no network type, no networks, or success exactly when a network of the type exists); success means the vehicle type and the first network of the type are bound; a failed validation leaves the bound network as it was |
| Common.DigitChar | Code/TMG.Emme/Analysis/ExportNetworkTables.cs:78 | a digit's character |
| Common.NatToString | Code/TMG.Emme/Analysis/ExportNetworkTables.cs:78 | a natural number's decimal text is digits without a leading zero |
| Common.IntToString | Code/TMG.Emme/ExportBinaryMatrixFromEmme.cs:52 | an integer's text is digits, with a leading minus when negative |
| Common.NatToStringRoundTrip | Code/TMG.Emme/Analysis/ExportNetworkTables.cs:78 | the decimal text reads back as the number |
| Common.IntToStringHasNo | Code/TMG.Emme/ExportBinaryMatrixFromEmme.cs:52 | an integer's text contains no space or other separator |
| Common.FindChar | Code/TMGInterfaces/DataUtility/NumberList.cs:101-104 | the first position of the character, or none exactly when it is absent |
| Common.SplitMeaning | Code/GTAModel/ParameterDatabase/AdvancedModeParameterDatabase.cs:282 | splitting gives fields none of which contains the separator, and joining them back with it gives the line |
| Common.SplitJoin | Code/GTAModel/ParameterDatabase/AdvancedModeParameterDatabase.cs:282 | splitting fields joined by the separator gives them back |
| Common.Combine | Code/GTAModel/Input/NetworkData.cs:271-279 | a rooted path or an empty base is kept as it is; otherwise the local path ends the combined path |
| Common.GetExtension | Code/GTAModel/Input/NetworkData.cs:301 | the extension is a dot and at least one further character, at the end of the path, with no dot or separator after it |
| Common.ExtensionFrom | Code/GTAModel/Input/NetworkData.cs:301 | the same, scanning back from a position |
| Common.RowMajorBound | Tasha/Network/V4AutoNetwork.cs:103 | a row-major OD position is inside the n by n matrix |
| Common.RowMajorInjective | Tasha/Network/V4AutoNetwork.cs:103 | different OD pairs have different row-major positions |
| V4AutoNetwork.FlatIndex | Tasha/Network/V4AutoNetwork.cs:97-98 | a zone's flat index is its position in the zone array, or -1 exactly when it is absent |
| V4AutoNetwork.Slot | Tasha/Network/V4AutoNetwork.cs:103 | an OD pair's slot for a data type is inside the buffer and carries that type's offset |
| V4AutoNetwork.SlotInjective | Tasha/Network/V4AutoNetwork.cs:103 | different OD pairs or data types never share a slot |
| V4AutoNetwork.PointSlot | Tasha/Network/V4AutoNetwork.cs:97-104 | a point is stored exactly when both its zones are in the zone array, and then in a slot of the type |
| V4AutoNetwork.Write | Tasha/Network/V4AutoNetwork.cs:94-122 | storing one point keeps the buffer size |
| V4AutoNetwork.WriteAll | Tasha/Network/V4AutoNetwork.cs:94-122 | storing a reader's points keeps the buffer size |
| V4AutoNetwork.ReadInto | Tasha/Network/V4AutoNetwork.cs:83-124 | a missing reader or any reader keeps the buffer size |
| V4AutoNetwork.StartBuffer | Tasha/Network/V4AutoNetwork.cs:74 | the previous buffer is reused when its size fits the zones; otherwise a zeroed buffer of the right size is used |
| V4AutoNetwork.LoadedBuffer | Tasha/Network/V4AutoNetwork.cs:68-81 | a loaded period holds one slot per OD pair and data type |
| V4AutoNetwork.FirstLoadSlot | Tasha/Network/V4AutoNetwork.cs:94-108 | on the first load each slot holds the last value the reader gives for it, or keeps its value when there is none |
| V4AutoNetwork.OtherTypeUntouched | Tasha/Network/V4AutoNetwork.cs:103-106 | reading one data type never changes the slots of the other |
| V4AutoNetwork.FirstLoadContents | Tasha/Network/V4AutoNetwork.cs:68-81 | after a first load every time slot holds the last travel time read for it and every cost slot the last cost, or its starting value |
| V4AutoNetwork.TimePeriodNetworkData.LoadData | Tasha/Network/V4AutoNetwork.cs:68-81 | loads both readers into the buffer as the specification says, reusing a buffer of the right size and counting the load |
| V4AutoNetwork.TimePeriodNetworkData.LoadReader | Tasha/Network/V4AutoNetwork.cs:83-124 | the reading loop leaves the buffer exactly as the specification: store on the first load, blend 0.75 old with 0.25 new afterwards |
| V4AutoNetwork.TimePeriodNetworkData.StorePoint | Tasha/Network/V4AutoNetwork.cs:99-106 | one point changes the buffer exactly as one step of the load specification: its slot only, and only when both zones are known |
| V4AutoNetwork.TimePeriodNetworkData.GetDataIfInTimePeriod | Tasha/Network/V4AutoNetwork.cs:131-143 | a time outside the period gives nothing and zeros; inside, the OD pair's time and cost slots |
| V4AutoNetwork.FirstPeriod | Tasha/Network/V4AutoNetwork.cs:256-267 | the first period that covers the time, or none |
| V4AutoNetwork.V4AutoNetwork.LoadData | Tasha/Network/V4AutoNetwork.cs:207-220 | records the zones; the periods are loaded only when the network was not loaded yet, and otherwise keep their data |
| V4AutoNetwork.V4AutoNetwork.RuntimeValidation | Tasha/Network/V4AutoNetwork.cs:228-233 | validation always succeeds and marks the network as not loaded |
| V4AutoNetwork.V4AutoNetwork.UnloadData | Tasha/Network/V4AutoNetwork.cs:296-307 | unless unloading is switched off, the zones are forgotten and the network is marked not loaded |
| V4AutoNetwork.V4AutoNetwork.GetData | Tasha/Network/V4AutoNetwork.cs:256-267 | found exactly when some period covers the time, with the first such period's time and cost; otherwise zeros |
| V4AutoNetwork.V4AutoNetwork.TravelTime | Tasha/Network/V4AutoNetwork.cs:269-274 | the first covering period's travel time, or 0 |
| V4AutoNetwork.V4AutoNetwork.TravelCost | Tasha/Network/V4AutoNetwork.cs:276-281 | the first covering period's cost, or 0 |
| V4AutoNetwork.V4AutoNetwork.ValidOD | Tasha/Network/V4AutoNetwork.cs:314-317 | every origin, destination and time is valid |
| V4AutoNetwork.V4AutoNetwork.GetAllDataForZones | Tasha/Network/V4AutoNetwork.cs:245-254 | zones are looked up by number, then the first covering period's time and cost are returned, or zeros |
| NetworkData.LoaderFor | Code/GTAModel/Input/NetworkData.cs:299-310 | a file is read as an EMME/2 matrix exactly when its extension is ".311", otherwise as CSV |
| NetworkData.Emme2Files | Code/GTAModel/Input/NetworkData.cs:301 | a ".311" file is an EMME/2 matrix |
| NetworkData.CsvFiles | Code/GTAModel/Input/NetworkData.cs:306 | a ".csv" file is read as CSV |
| NetworkData.Loads | Code/GTAModel/Input/NetworkData.cs:260-265 | six loads: AM, PM and off-peak travel times, then the same three periods of costs |
| NetworkData.FullPath | Code/GTAModel/Input/NetworkData.cs:271-279 | a rooted path is kept; otherwise it is combined with the input directory |
| NetworkData.Requests | Code/GTAModel/Input/NetworkData.cs:232-247 | one request per load, with its loader, full path, header flag, period and type, when every file exists; an error exactly when one is missing |
| NetworkData.RequestsNameFirstMissing | Code/GTAModel/Input/NetworkData.cs:232-247 | the error names the first missing file |
| NetworkData.Index | Code/GTAModel/Input/NetworkData.cs:324-346 | the cache entry of an OD pair, period and type is in range; the OD pair is the row and period plus three times the type is the column |
| NetworkData.IndexInjective | Code/GTAModel/Input/NetworkData.cs:324-346 | different OD pairs, periods or types never share an entry |
| NetworkData.NetworkData.GetTimePeriod | Code/GTAModel/Input/NetworkData.cs:286-297 | AM when the time is in the AM window, else PM when in the PM window, else off-peak |
| NetworkData.NetworkData.TravelTime | Code/GTAModel/Input/NetworkData.cs:205-210 | the stored travel time of the OD pair in the time's period |
| NetworkData.NetworkData.TravelCost | Code/GTAModel/Input/NetworkData.cs:192-197 | the stored cost of the OD pair in the time's period, three entries after its travel time |
| NetworkData.NetworkData.Generate | Code/GTAModel/Input/NetworkData.cs:249-269 | six requests for existing files, from the updated files after a first load and from the base files before |
| NetworkData.NetworkData.LoadData | Code/GTAModel/Input/NetworkData.cs:153-171 | the cache is chosen by iteration; it is regenerated when missing or when rebuilding after a first load; the data is stored and the load recorded; a missing matrix file fails the load and leaves the stored data, its zone count and its entry count as they were |
| NetworkData.NetworkData.RuntimeValidation | Code/GTAModel/Input/NetworkData.cs:179-184 | validation always succeeds and records whether the model system is iterative; the loaded data and its dimensions are untouched |
| NetworkData.NetworkData.UnloadDataAsWritten | Code/GTAModel/Input/NetworkData.cs:212-220 | as written, the data is cleared only while the cache is open |
| NetworkData.NetworkData.UnloadData | Code/GTAModel/Input/NetworkData.cs:212-220 | unloading always clears the stored data |
| NetworkData.NetworkData.ValidOD | Code/GTAModel/Input/NetworkData.cs:227-230 | every origin, destination and time is valid |
| NetworkData.LoadThenUnloadAsWritten | Code/GTAModel/Input/NetworkData.cs:169 | as written, unloading right after a successful load leaves the data loaded |
| NetworkData.LoadThenUnload | Code/GTAModel/Input/NetworkData.cs:212-220 | with the corrected unload, loading then unloading leaves nothing loaded |
| SchedulerTripChain.Trip.Clone | Tasha/Scheduler/SchedulerTripChain.cs:197 | a fresh trip with the same fields and the same chain |
| SchedulerTripChain.FlattenMembers | Tasha/Scheduler/SchedulerTripChain.cs:70-78 | the household's chains in one list: empty exactly when every person has none, holding every chain and nothing else |
| SchedulerTripChain.LinkedMembers | Tasha/Scheduler/SchedulerTripChain.cs:64-81 | a chain is linked exactly when it belongs to the household and has the joint trip's id |
| SchedulerTripChain.LinkedAppend | Tasha/Scheduler/SchedulerTripChain.cs:64-81 | linking over two groups of chains is linking over each, in order |
| SchedulerTripChain.LinkedCarryId | Tasha/Scheduler/SchedulerTripChain.cs:64-81 | every linked chain carries the joint trip's id |
| SchedulerTripChain.RequiredVehiclesMembers | Tasha/Scheduler/SchedulerTripChain.cs:115-134 | a vehicle type is required exactly when some trip's mode requires it |
| SchedulerTripChain.RequiredVehiclesDistinct | Tasha/Scheduler/SchedulerTripChain.cs:115-134 | each required vehicle type is listed once |
| SchedulerTripChain.RequiredVehiclesPrefix | Tasha/Scheduler/SchedulerTripChain.cs:115-134 | the vehicles required by the first trips are the start of those required by all |
| SchedulerTripChain.SchedulerTripChain.Copy | Tasha/Scheduler/SchedulerTripChain.cs:177-178 | a member-wise copy of the chain with an empty trip list |
| SchedulerTripChain.SchedulerTripChain.JointTripChains | Tasha/Scheduler/SchedulerTripChain.cs:64-81 | none for a chain that is not joint; otherwise the household's chains with the same joint id, in order |
| SchedulerTripChain.LinkedIn | Tasha/Scheduler/SchedulerTripChain.cs:73-77 | one person's chains that carry the joint-tour id, in their order |
| SchedulerTripChain.SchedulerTripChain.RequiresVehicle | Tasha/Scheduler/SchedulerTripChain.cs:115-134 | the loop lists exactly the required vehicle types, in order of first use |
| SchedulerTripChain.SchedulerTripChain.TripChainRequiresPV | Tasha/Scheduler/SchedulerTripChain.cs:147-160 | scanning in order: true at the first trip with a personal-vehicle mode, false when every trip has a non-personal mode, and the null-mode fault naming the first trip without a mode reached before either; when every trip has a mode, true exactly when some trip uses a personal vehicle |
| SchedulerTripChain.SchedulerTripChain.Clone | Tasha/Scheduler/SchedulerTripChain.cs:175-181 | a fresh chain with the same fields, sharing the same trips, with the same start and end times |
| SchedulerTripChain.SchedulerTripChain.DeepClone | Tasha/Scheduler/SchedulerTripChain.cs:187-205 | a fresh chain whose trips are fresh, distinct copies pointing at the new chain, with the same start and end times |
| SchedulerTripChain.SchedulerTripChain.Recycle | Tasha/Scheduler/SchedulerTripChain.cs:207-224 | the chain is reset (no trips, no joint id, no representative, no person) and queued in the pool |
| SchedulerTripChain.SchedulerTripChain.GetTripChain | Tasha/Scheduler/SchedulerTripChain.cs:226-235 | takes the oldest pooled chain, or a fresh one when the pool is empty, reset and given to the person |
| RideShare.FeasibleChain | Tasha/Modes/RideShare.cs:212-216 | a chain is feasible exactly when the household has a non-empty vehicle list |
| RideShare.FeasibleTrip | Tasha/Modes/RideShare.cs:223-230 | a trip outside a joint tour is never feasible |
| RideShare.FeasibleTripIsJointFeasibleChain | Tasha/Modes/RideShare.cs:223-230 | a trip is feasible exactly when its chain is a joint tour and feasible as a chain |
| RideShare.NoVehiclesNoRideShare | Tasha/Modes/RideShare.cs:212-230 | with no vehicles, neither the trip nor its chain is feasible |
| RideShare.FirstAuto | Tasha/Modes/RideShare.cs:254-278 | the first network named "Auto", or none |
| RideShare.RideShare.FeasibleBetween | Tasha/Modes/RideShare.cs:201-204 | feasible between zones exactly when the current category's feasibility is positive |
| RideShare.RideShare.IsObservedMode | Tasha/Modes/RideShare.cs:235-238 | true exactly for the mode's observed letter |
| RideShare.RideShare.RuntimeValidation | Tasha/Modes/RideShare.cs:254-278 | no networks or no "Auto" network is an error that binds nothing; otherwise the first "Auto" network is bound |
| ExportNetworkTables.BoolToString | Code/TMG.Emme/Analysis/ExportNetworkTables.cs:65-68 | flags are sent as "True" or "False" |
| ExportNetworkTables.BoolToStringRoundTrip | Code/TMG.Emme/Analysis/ExportNetworkTables.cs:65-68 | the flag text reads back as the flag |
| ExportNetworkTables.Parameters | Code/TMG.Emme/Analysis/ExportNetworkTables.cs:76-86 | eight parameters, named in the tool's order |
| ExportNetworkTables.RequestReadsBack | Code/TMG.Emme/Analysis/ExportNetworkTables.cs:76-88 | the request sent to EMME reads back as the tool's name with the scenario number, the folder, the prefix and each of the five flags |
| ExportNetworkTables.ExportNetworkTables.RuntimeValidation | Code/TMG.Emme/Analysis/ExportNetworkTables.cs:108-116 | an error exactly when the scenario id is not positive, with the message naming the module |
| ExportNetworkTables.ExportNetworkTables.Execute | Code/TMG.Emme/Analysis/ExportNetworkTables.cs:70-91 | resets progress; a controller that is not a modeller controller is an error and nothing is sent; otherwise the structured request is sent and the result follows EMME's reply |
| ExportBinaryMatrix.ArgumentsSplitBack | Code/TMG.Emme/ExportBinaryMatrixFromEmme.cs:52 | for a path without spaces, splitting the argument string at spaces gives back the matrix type, the matrix number, the quoted path and the scenario |
| ExportBinaryMatrix.ArgumentsQuotedPath | Code/TMG.Emme/ExportBinaryMatrixFromEmme.cs:52 | for any path without a quote character, spaces included, the path is exactly the text between the first two quotes, the two numbers split back from the text before them and the scenario follows them |
| ExportBinaryMatrix.RuntimeValidationAsWritten | Code/TMG.Emme/ExportBinaryMatrixFromEmme.cs:80-89 | as written, validation never fails |
| ExportBinaryMatrix.InvalidTypePassesAsWritten | Code/TMG.Emme/ExportBinaryMatrixFromEmme.cs:82 | matrix type 7 is invalid, yet it passes validation as written |
| ExportBinaryMatrix.RuntimeValidation | Code/TMG.Emme/ExportBinaryMatrixFromEmme.cs:80-89 | an error exactly when the matrix type is outside 1-4, with the message naming it |
| ExportBinaryMatrix.ExportBinaryMatrixFromEmme.Execute | Code/TMG.Emme/ExportBinaryMatrixFromEmme.cs:46-61 | a controller that is not a modeller controller is an error and nothing is sent; otherwise the tool is run with the argument string and the result follows EMME's reply |
| ExecuteGivenParameters.OffsetStep | Code/TMG.Estimation/AI/ExecuteGivenParameters.cs:66-77 | each parameter's values start right after the previous parameter's names |
| ExecuteGivenParameters.SumNamesPrefix | Code/TMG.Estimation/AI/ExecuteGivenParameters.cs:55 | the first parameters' names never outnumber all of them |
| ExecuteGivenParameters.ReadsWithinRow | Code/TMG.Estimation/AI/ExecuteGivenParameters.cs:55-77 | in a row that passes the width check every read is inside the row |
| ExecuteGivenParameters.JobFor | Code/TMG.Estimation/AI/ExecuteGivenParameters.cs:58-77 | a new job is unprocessed with no value, with one setting per parameter keeping its names and bounds |
| ExecuteGivenParameters.EligibleAppend | Code/TMG.Estimation/AI/ExecuteGivenParameters.cs:53-78 | the jobs of two blocks of rows are those of each block, concatenated |
| ExecuteGivenParameters.EligibleCount | Code/TMG.Estimation/AI/ExecuteGivenParameters.cs:55 | at most one job per row; none when every row is too short; one per row, in order, when every row is wide enough |
| ExecuteGivenParameters.ExpectedJobs | Code/TMG.Estimation/AI/ExecuteGivenParameters.cs:43-87 | the jobs are a prefix of those of the rows after the header: all of them when no positive cap is set, at most the cap otherwise |
| ExecuteGivenParameters.HeaderIgnored | Code/TMG.Estimation/AI/ExecuteGivenParameters.cs:50 | the header row never affects the jobs |
| ExecuteGivenParameters.CapReached | Code/TMG.Estimation/AI/ExecuteGivenParameters.cs:79-82 | reading stops as soon as the cap is reached |
| ExecuteGivenParameters.ExecuteGivenParameters.ReadJob | Code/TMG.Estimation/AI/ExecuteGivenParameters.cs:58-77 | the column loop builds exactly the job of the specification |
| ExecuteGivenParameters.ExecuteGivenParameters.CreateJobsForIteration | Code/TMG.Estimation/AI/ExecuteGivenParameters.cs:43-87 | the row loop returns exactly the expected jobs |

## Left out

- Starting EMME, creating the pipes, reading the environment and building the command line (Code/TMG.Emme/ModellerController.cs:113-201) are not modelled. The controller is built from two pipe objects.
- Locks, `Parallel` loops and PLINQ are modelled as sequential code.
- Floating point is modelled as exact reals. This includes the 0.75/0.25 blend in V4AutoNetwork and the progress values.
- File input is not modelled: a file is given as its lines or its parsed rows, and file existence is a set of paths.
- The inbound pipe holds decoded units (Int32, character, float) rather than bytes. The outbound pipe holds tokens, whose byte framing is proved separately. A unit of the wrong kind is a malformed-stream error that cannot happen over a real byte pipe.
- ModellerController.Controller.CleanLogbook: the catch for `EndOfStreamException` is not modelled, because the response loop handles the end of the stream itself.
- ModellerController.InboundPipe.ReadChars, ModellerController.Controller.WaitForEmmeResponse: they follow the corrected string read, which stops and reports the end of the stream when a read delivers nothing. As written (Code/TMG.Emme/ModellerController.cs:280-283) the loop reads again and never ends once the stream has ended before the announced length; that is ReadStringAsWrittenSpins (see Findings).
- Console output of EMME's print messages is modelled as an event. The progress callback is modelled as progress events.
- Character classes (white space, digits, case folding) cover ASCII and Latin-1 only.
- The `ProjectRepository` code is not part of this model. It is a class holding a list of projects and a name check given as a parameter.
- ProjectController.ProjectController.EditProject: the two overloads (53-75 and 165-185) share one member.
- PassengerAlgo.FindPotentialTripChainsRec: a set the recursion adds is a value in the model. In the source, the set added when no chain of the person's list conflicts (268-271) is the person's list object itself, so clearing that list later (`ClearPassengerTrips` at 175, `AddPassengerTrips` at 88) also empties that set. This aliasing is not captured.
- PassengerAlgo.FindAllPotentialModesForTrips: it assumes that no two persons share a list object (`OwnLists`). Its result is a sequence of (person, sets) pairs in household order standing in for the dictionary.
- PassengerAlgo: times are integers. The utility computation, `CalculateU` and the other mode-choice utilities are not modelled.
- PassengerAlgo.FindPotentialTripChainsRec: does not state that the sets it adds are conflict-free, only that each is a sub-list of its input.
- AdvancedModeParameterDatabase.AdvancedModeParameterDatabase.ApplyParameterSet: handing the values to the modes afterwards (`AssignParameters`, `AssignBlendedParameters`, 97-105) is not modelled: the modes are not part of this model.
- AdvancedModeParameterDatabase.AdvancedModeParameterDatabase.Load: the two loaders that run in parallel are run one after the other, switches first; the `AggregateException` rewrapping (194-206) is the reported error itself.
- AdvancedModeParameterDatabase.AdvancedModeParameterDatabase.LoadSwitches, AdvancedModeParameterDatabase.AdvancedModeParameterDatabase.LoadSwitchesAndAlternatives, AdvancedModeParameterDatabase.AdvancedModeParameterDatabase.LoadFiles, AdvancedModeParameterDatabase.AdvancedModeParameterDatabase.Load, AdvancedModeParameterDatabase.AdvancedModeParameterDatabase.ApplyParameterSet: they follow the corrected line numbering (a bad switch cell is reported through `SwitchLines`), which counts a skipped short line; as written (283-298) the error after a skipped line names the line before the bad one (see Findings).
- AdvancedModeParameterDatabase.AdvancedModeParameterDatabase.ReadSwitches: it advances the line number on a skipped short line, which the source does not; the as-written numbering is SwitchLinesAsWritten.
- Aggregation.Accepted: it codes a row with the corrected RowIndex, which ignores fields past the factors; as written (159-165) an extra field indexes past the factors and throws (see Findings).
- Aggregation.LoadAggregationFile: it reads rows with the corrected RowIndex, as Accepted does.
- Aggregation.CandidatesByValue: it uses the corrected Candidates, which code the values in the join's columns; as written (118) the representative's leading values are coded (CandidatesAsWritten, see Findings).
- Aggregation.BuildFactors and Aggregation.GetIndex do not model 32-bit wrap-around of the products, which only matters beyond 2^31 combinations.
- Aggregation: the random choice among candidates is not modelled. The model states which choices are candidates and which records are written.
- AutoMode: feasibility assumes validation has run, so the required vehicle is bound. The utility (`CalculateV`) is floating point and is not modelled.
- V4AutoNetwork and NetworkData: the conversion of travel times to `Time` (`Time.FromMinutes`, Tasha/Network/V4AutoNetwork.cs:249 and Code/GTAModel/Input/NetworkData.cs:209) is not modelled. V4AutoNetwork's times are integers, and NetworkData.NetworkData.TravelTime returns the stored minutes as they are.
- V4AutoNetwork: `TimePeriod.UnloadData` is empty in the source and has no model.
- V4AutoNetwork.TimePeriodNetworkData.GetDataIfInTimePeriod, V4AutoNetwork.V4AutoNetwork.GetData, V4AutoNetwork.V4AutoNetwork.TravelTime, V4AutoNetwork.V4AutoNetwork.TravelCost, V4AutoNetwork.V4AutoNetwork.GetAllDataForZones: require both flat indices inside the zone array and the buffer present (`Covers`, `Answerable`). The source checks neither. It folds the pair into one offset `(NumberOfZones * flatO + flatD) * 2` (Tasha/Network/V4AutoNetwork.cs:139-141, two data types per pair as the enum at 166-171 says), so an index out of range does not always fail: flatD = -1 with flatO >= 1 silently reads the pair (flatO - 1, N - 1), a flatD >= N reads a later origin's row, and only an offset outside the buffer throws `IndexOutOfRangeException` (a missing buffer throws `NullReferenceException`). These silent reads are not modelled. Zone numbers are taken to be non-negative.
- V4AutoNetwork.V4AutoNetwork.GetAllDataForZones: also requires the zone array to be bound (`zoneArray.Some?`). The source (Tasha/Network/V4AutoNetwork.cs:245-254) dereferences `ZoneArray` unchecked, so a call before a load or after an unload throws `NullReferenceException`. That failure is not modelled.
- NetworkData.NetworkData.TravelTime, NetworkData.NetworkData.TravelCost: require `Readable`, that is stored data present, of the full size, and both flat indices inside the zone array. The source (Code/GTAModel/Input/NetworkData.cs:192-210) checks none of this. It computes `(flatOrigin * NumberOfZones + flatDestination) * DataEntries` plus the period and type offset and indexes `StoredData` with it. Missing data throws `NullReferenceException`; an out-of-range index either reads another pair's entry silently (for example flatDestination = -1 with flatOrigin >= 1 reads the pair (flatOrigin - 1, N - 1)) or throws `IndexOutOfRangeException` when the offset leaves the buffer. None of these outcomes is modelled.
- V4AutoNetwork: the `IZone` overloads of `TravelTime` and `TravelCost`, and `IterativeRoot`, are not modelled. `GetAllData(int, ...)` (283-294) is the same loop as `GetData` and is modelled by V4AutoNetwork.V4AutoNetwork.GetData.
- NetworkData: reading the OD cache and `ProcessLoadedData` are inputs to the load. `DataEntries` is fixed at six.
- NetworkData: the `IOException` catch in `FailIfNotExist` is not modelled.
- NetworkData: `GetAllData` throws `NotImplementedException` and is not modelled. Neither are `Dispose`, the `IZone` overloads or saving the generated cache.
- TripChainLoader.GroupIntoChains: an origin or destination zone the zone system does not know is carried as no zone (`None`), which is the behaviour with `OverrideBadZones` set. With it clear, the source throws `XTMFRuntimeException` for an unknown origin (TorontoHouseholds/TripChainLoader.cs:170-176) or destination (196-202); that error path and the flag are not modelled.
- SchedulerTripChain: the household's chains are a parameter standing in for `Household.Persons[..].TripChains`. `ITrip.Clone` is a field copy.
- SchedulerTripChain: `Release` and the `Attachable` base class are not modelled. The static concurrent queue is a `ChainPool` object passed in.
- SchedulerTripChain: `StartTime` and `EndTime` of a chain without trips throw in the source and are excluded.
- RideShare: the utility (`CalculateV`) and the delegation to the shared mode-choice code are not modelled.
- ExportNetworkTables and ExportBinaryMatrix: creating the result directory and resolving `FileLocation` are inputs. The progress callback is applied after the run, from the events the run reports.
- ExecuteGivenParameters: `CsvReader` is not part of this model. A row is a sequence of numbers, a cell past the end of the row reads 0, and parse failures are not modelled.
- ExecuteGivenParameters: `IterationComplete`, `Progress` and `RuntimeValidation` (90-110) do nothing and are not modelled. A job's NaN value is modelled as no value.

## Findings

| source | as written | input that shows it | evidently intended | confidence | as-written member | corrected member |
|---|---|---|---|---|---|---|
| Code/TMG.Emme/ModellerController.cs:280-283 | the string-read loop repeats while fewer characters than announced were read, even when a read returns 0 | a length of 5, one character, then the end of the stream | fail with an end-of-stream error | not executed | ModellerController.ReadStringAsWrittenSpins | ModellerController.Controller.ReadString |
| Code/TMGInterfaces/DataUtility/NumberList.cs:148-157 | `ToString` takes `builder.ToString(0, builder.Length - 1)`, which throws on an empty list | the text "" parses to the empty list, which then cannot be rendered | render the empty list as "" | not executed | NumberList.EmptyListRoundTripFails | NumberList.RenderParseRoundTrip |
| Code/GTAModel/ParameterDatabase/AdvancedModeParameterDatabase.cs:283-298 | a short row is skipped with `continue` before `lineNumber++` | a short line followed by "row,maybe" with one parameter: the error names the line before the bad one | report the file line of the bad value | not executed | AdvancedModeParameterDatabase.ShortRowThenMaybe | AdvancedModeParameterDatabase.SwitchLinesLocatesError |
| Code/TMG.Frameworks/Data/Synthesis/Gibbs/Aggregation.cs:118 | `GetIndex(rep)` encodes the representative's leading values, not the values in the join's columns | pool row [0, 1], join column [1], factors [1], accepted code 1: the row is not picked | encode the values in the join's columns | not executed | Aggregation.ColumnIgnoredAsWritten | Aggregation.Candidates |
| Code/TMG.Frameworks/Data/Synthesis/Gibbs/Aggregation.cs:159-165 | the code of an aggregation row runs over all its fields, indexing the factors by field | row [0, 1, 7] with factors [1] indexes past the factors | encode one field per factor and ignore extra fields | not executed | Aggregation.ExtraFieldOverrunsFactors | Aggregation.RowIndexAgrees |
| Code/GTAModel/Input/NetworkData.cs:212-220 | `UnloadData` clears only when `Data != null`, but `LoadData` sets `Data = null` (169) | any successful load followed by an unload leaves the data loaded | unloading clears the stored data | not executed | NetworkData.LoadThenUnloadAsWritten | NetworkData.LoadThenUnload |
| Code/TMG.Emme/ExportBinaryMatrixFromEmme.cs:82 | the check `MatrixType > 4 & MatrixType < 1` can never hold | matrix type 7 passes validation | reject types outside 1-4 | not executed | ExportBinaryMatrix.InvalidTypePassesAsWritten | ExportBinaryMatrix.RuntimeValidation |
