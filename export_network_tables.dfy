/**
 * The EMME tool wrapper for 'tmg.analysis.export_network_tables': it sends
 * the scenario, the target folder, a file prefix and five export flags as
 * a structured run request through the modeller bridge. The target folder
 * is given as the full name of the directory (creating it is file-system
 * work outside this model).
 */
module ExportNetworkTables {
  import opened Common
  import MC = ModellerController

  const ToolName := "tmg.analysis.export_network_tables"

  /** The tool's run parameters. */
  datatype Settings = Settings(scenarioId: int, filePrefix: string, exportNodes: bool, exportLinks: bool,
                               exportTurns: bool, exportLines: bool, exportSegments: bool)

  /** A flag as Python reads it. */
  function BoolToString(b: bool): (s: string)
    ensures b ==> s == "True"
    ensures !b ==> s == "False"
  {
    if b then "True" else "False"
  }

  /** How the Python side reads a flag back. */
  function StringToBool(s: string): Option<bool>
  {
    if s == "True" then Some(true) else if s == "False" then Some(false) else None
  }

  lemma BoolToStringRoundTrip(b: bool)
    ensures StringToBool(BoolToString(b)) == Some(b)
  {
    assert "True" != "False" by {
      assert "True"[0] != "False"[0];
    }
  }

  /** The eight parameters, in the order the tool declares them. */
  function Parameters(settings: Settings, targetFolder: string): (ps: seq<MC.Parameter>)
    ensures |ps| == 8
    ensures ps[0].name == "scenario_id" && ps[1].name == "target_folder" && ps[2].name == "file_prefix"
    ensures ps[3].name == "export_nodes" && ps[4].name == "export_links" && ps[5].name == "export_turns"
    ensures ps[6].name == "export_lines" && ps[7].name == "export_segments"
  {
    [MC.Parameter("scenario_id", IntToString(settings.scenarioId)),
     MC.Parameter("target_folder", targetFolder),
     MC.Parameter("file_prefix", settings.filePrefix),
     MC.Parameter("export_nodes", BoolToString(settings.exportNodes)),
     MC.Parameter("export_links", BoolToString(settings.exportLinks)),
     MC.Parameter("export_turns", BoolToString(settings.exportTurns)),
     MC.Parameter("export_lines", BoolToString(settings.exportLines)),
     MC.Parameter("export_segments", BoolToString(settings.exportSegments))]
  }

  /**
   * What the EMME side reads from the request of a validated tool: the tool
   * name, the scenario number, the folder and prefix as sent, and every flag.
   */
  lemma RequestReadsBack(settings: Settings, targetFolder: string)
    requires settings.scenarioId > 0
    ensures var parsed := MC.ParseStructuredRunRequest(MC.StructuredRunRequest(ToolName, Some(Parameters(settings, targetFolder))));
      && parsed.Some? && parsed.value.0 == ToolName
      && var ps := parsed.value.1;
      && |ps| == 8
      && AllDigits(ps[0].value) && DecimalValue(ps[0].value) == settings.scenarioId
      && ps[1].value == targetFolder && ps[2].value == settings.filePrefix
      && StringToBool(ps[3].value) == Some(settings.exportNodes)
      && StringToBool(ps[4].value) == Some(settings.exportLinks)
      && StringToBool(ps[5].value) == Some(settings.exportTurns)
      && StringToBool(ps[6].value) == Some(settings.exportLines)
      && StringToBool(ps[7].value) == Some(settings.exportSegments)
  {
    MC.StructuredRunRequestRoundTrip(ToolName, Some(Parameters(settings, targetFolder)));
    NatToStringRoundTrip(settings.scenarioId);
    BoolToStringRoundTrip(settings.exportNodes);
    BoolToStringRoundTrip(settings.exportLinks);
    BoolToStringRoundTrip(settings.exportTurns);
    BoolToStringRoundTrip(settings.exportLines);
    BoolToStringRoundTrip(settings.exportSegments);
  }

  class ExportNetworkTables {
    const name: string
    const settings: Settings
    var progress: real

    constructor(name: string, settings: Settings)
      ensures this.name == name && this.settings == settings && progress == 0.0
    {
      this.name := name;
      this.settings := settings;
      progress := 0.0;
    }

    /** Fails exactly when the scenario id is not positive. */
    function RuntimeValidation(): (error: Option<string>)
      ensures error.Some? <==> settings.scenarioId <= 0
      ensures error.Some? ==> error.value == "In " + name + " the Scenario ID is not set to a valid scenario number."
    {
      if settings.scenarioId <= 0 then Some("In " + name + " the Scenario ID is not set to a valid scenario number.")
      else None
    }

    /**
     * Resets the progress, then runs the tool through a modeller controller
     * with a callback that stores each reported progress. `modeller` says
     * whether the controller is a ModellerController.
     */
    method Execute(modeller: bool, mc: MC.Controller, targetFolder: string)
      returns (r: Result<bool, MC.ToolError>, ghost events: seq<MC.Event>)
      requires mc.pipeFromEmme != null ==> mc.pipeFromEmme.Valid()
      modifies this, mc.pipeToEmme, mc.pipeFromEmme
      ensures !modeller ==>
        r == Err(MC.NotModeller("In " + name + ", the EMME controller was not for modeller!")) && progress == 0.0
        && (mc.pipeToEmme != null ==> unchanged(mc.pipeToEmme)) && (mc.pipeFromEmme != null ==> unchanged(mc.pipeFromEmme))
      ensures modeller ==> progress == MC.ProgressAfter(events, 0.0)
      ensures modeller && old(mc.pipeToEmme) != null && mc.pipeToEmme.Writable() ==>
        mc.pipeToEmme.written == old(mc.pipeToEmme.written) + MC.StructuredRunRequest(ToolName, Some(Parameters(settings, targetFolder)))
      ensures modeller && old(mc.pipeToEmme) != null && mc.pipeToEmme.Writable() && mc.pipeFromEmme != null ==>
        var reply := MC.Respond(old(mc.pipeFromEmme.Rest()), mc.pipeFromEmme.breaksAtEnd, true);
        events == reply.events && (r.Ok? <==> reply.outcome.Ok?) && (r.Ok? ==> r.value)
    {
      progress := 0.0;
      if !modeller {
        return Err(MC.NotModeller("In " + name + ", the EMME controller was not for modeller!")), [];
      }
      var outcome, evs := mc.RunStructured(ToolName, Some(Parameters(settings, targetFolder)), true);
      events := evs;
      progress := MC.ProgressAfter(evs, progress);
      if outcome.Err? {
        return Err(MC.Bridge(outcome.error)), events;
      }
      r := Ok(true);
    }
  }
}
