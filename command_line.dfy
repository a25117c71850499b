/**
 * The command line of the first-generation run configuration: the bootstrap
 * script is executed with the target followed by the parsed runner options.
 */
module CommandLineState {
  import opened Wrappers
  import opened RunConfiguration

  /** The platform's option parser (macro expansion plus shell-like splitting), left abstract. */
  type OptionParser = Option<string> -> seq<string>

  /** A helper package the platform would run instead of the script; this state has none. */
  datatype HelperPackage = HelperPackage(name: string)

  /** A script execution: the script path and the parameters, appended in call order. */
  class PythonScriptExecution {
    var scriptPath: string
    var parameters: seq<string>

    constructor ()
      ensures scriptPath == "" && parameters == []
    {
      scriptPath := "";
      parameters := [];
    }

    method SetPythonScriptPath(path: string)
      modifies this
      ensures scriptPath == path && parameters == old(parameters)
    {
      scriptPath := path;
    }

    method AddParameter(p: string)
      modifies this
      ensures parameters == old(parameters) + [p] && scriptPath == old(scriptPath)
    {
      parameters := parameters + [p];
    }

    method AddParameters(ps: seq<string>)
      modifies this
      ensures parameters == old(parameters) + ps && scriptPath == old(scriptPath)
    {
      parameters := parameters + ps;
    }
  }

  /** A named group of a command line's parameters, appended in call order. */
  class ParamsGroup {
    var parameters: seq<string>

    constructor ()
      ensures parameters == []
    {
      parameters := [];
    }

    method AddParameter(p: string)
      modifies this
      ensures parameters == old(parameters) + [p]
    {
      parameters := parameters + [p];
    }

    /** `addParametersString`: split the string with the platform's parser and append every piece. */
    method AddParametersString(s: Option<string>, parseString: OptionParser)
      modifies this
      ensures parameters == old(parameters) + parseString(s)
    {
      parameters := parameters + parseString(s);
    }
  }

  /**
   * The parameters of the bootstrap script: the target first, then every
   * parsed runner option in the parser's order.
   */
  function ScriptArguments(target: string, runnerOptions: Option<string>, parse: OptionParser): (r: seq<string>)
    ensures |r| == 1 + |parse(runnerOptions)|
    ensures r[0] == target
    ensures forall i :: 0 <= i < |parse(runnerOptions)| ==> r[i + 1] == parse(runnerOptions)[i]
  {
    [target] + parse(runnerOptions)
  }

  /**
   * `buildPythonExecution`: the script path is the bootstrap path mapped into
   * the target environment, the parameters are `ScriptArguments`.
   */
  method BuildPythonExecution(config: VedroRunConfiguration, bootstrapPath: string,
                              targetPathFor: string -> string, parse: OptionParser)
    returns (exec: PythonScriptExecution)
    ensures fresh(exec)
    ensures exec.scriptPath == targetPathFor(bootstrapPath)
    ensures exec.parameters == ScriptArguments(config.target, config.runnerOptions, parse)
  {
    exec := new PythonScriptExecution();
    exec.SetPythonScriptPath(targetPathFor(bootstrapPath));
    exec.AddParameter(config.GetTarget());
    var parameters := parse(config.GetRunnerOptions());
    exec.AddParameters(parameters);
  }

  /**
   * The parameters `addTestRunnerParameters` appends to the script group:
   * bootstrap path, target, the hook's before-parameters, the split options
   * string, the hook's after-parameters.
   */
  function RunnerParameters(bootstrapPath: string, target: string, before: seq<string>, options: seq<string>,
                            after: seq<string>): (r: seq<string>)
    ensures |r| == 2 + |before| + |options| + |after|
    ensures r[0] == bootstrapPath && r[1] == target
    ensures r[2..2 + |before|] == before
    ensures r[2 + |before|..2 + |before| + |options|] == options
    ensures r[2 + |before| + |options|..] == after
  {
    [bootstrapPath, target] + before + options + after
  }

  method AddTestRunnerParameters(config: VedroRunConfiguration, bootstrapPath: string, scriptParams: ParamsGroup,
                                 before: seq<string>, after: seq<string>, parseString: OptionParser)
    modifies scriptParams
    ensures scriptParams.parameters
         == old(scriptParams.parameters)
            + RunnerParameters(bootstrapPath, config.target, before, parseString(config.runnerOptions), after)
  {
    scriptParams.AddParameter(bootstrapPath);
    scriptParams.AddParameter(config.GetTarget());
    scriptParams.parameters := scriptParams.parameters + before;
    scriptParams.AddParametersString(config.GetRunnerOptions(), parseString);
    scriptParams.parameters := scriptParams.parameters + after;
  }

  /** `getTestSpecs`: this state passes no test specifications. */
  function GetTestSpecs(): (r: seq<string>)
    ensures |r| == 0
  {
    []
  }

  /** `getRunner`: there is no helper package; the bootstrap script is run instead. */
  function GetRunner(): (r: Option<HelperPackage>)
    ensures r.None?
  {
    None
  }

  /**
   * Without before- and after-parameters, the script group holds the
   * bootstrap path followed by exactly what `buildPythonExecution` passes,
   * whenever the macro-expanding parser and the string splitter give the
   * same pieces for the options.
   */
  lemma RunnerParametersExtendScriptArguments(bootstrapPath: string, target: string, runnerOptions: Option<string>,
                                              parse: OptionParser, parseString: OptionParser)
    requires parseString(runnerOptions) == parse(runnerOptions)
    ensures RunnerParameters(bootstrapPath, target, [], parseString(runnerOptions), [])
         == [bootstrapPath] + ScriptArguments(target, runnerOptions, parse)
  {
  }
}
