/**
 * The command line of the current run configuration: `python -m vedro run`
 * followed by the target, when there is one, and the parsed runner options.
 */
module ExecutionCommandLineState {
  import opened Wrappers
  import opened RunConfiguration
  import CL = CommandLineState

  const MODULE_NAME := "vedro"
  const RUN_COMMAND := "run"

  /** A module execution: the module name and the parameters, appended in call order. */
  class PythonModuleExecution {
    var moduleName: string
    var parameters: seq<string>

    constructor ()
      ensures moduleName == "" && parameters == []
    {
      moduleName := "";
      parameters := [];
    }

    method SetModuleName(name: string)
      modifies this
      ensures moduleName == name && parameters == old(parameters)
    {
      moduleName := name;
    }

    method AddParameter(p: string)
      modifies this
      ensures parameters == old(parameters) + [p] && moduleName == old(moduleName)
    {
      parameters := parameters + [p];
    }

    method AddParameters(ps: seq<string>)
      modifies this
      ensures parameters == old(parameters) + ps && moduleName == old(moduleName)
    {
      parameters := parameters + ps;
    }
  }

  /**
   * The module's parameters: `run`, then the target unless it is empty, then
   * every parsed runner option in the parser's order.
   */
  function ModuleArguments(target: string, runnerOptions: Option<string>, parse: CL.OptionParser): (r: seq<string>)
    ensures |r| >= 1 && r[0] == RUN_COMMAND
    ensures target != "" ==> |r| == 2 + |parse(runnerOptions)| && r[1] == target
    ensures target == "" ==> |r| == 1 + |parse(runnerOptions)|
    ensures r[|r| - |parse(runnerOptions)|..] == parse(runnerOptions)
  {
    [RUN_COMMAND] + (if target != "" then [target] else []) + parse(runnerOptions)
  }

  /** `buildPythonExecution`: module `vedro` with `ModuleArguments`. */
  method BuildPythonExecution(config: VedroRunConfiguration, parse: CL.OptionParser)
    returns (exec: PythonModuleExecution)
    ensures fresh(exec)
    ensures exec.moduleName == MODULE_NAME
    ensures exec.parameters == ModuleArguments(config.target, config.runnerOptions, parse)
  {
    exec := new PythonModuleExecution();
    exec.SetModuleName(MODULE_NAME);
    exec.AddParameter(RUN_COMMAND);
    var target := config.GetTarget();
    if target != "" {
      exec.AddParameter(target);
    }
    var parameters := parse(config.GetRunnerOptions());
    exec.AddParameters(parameters);
  }

  /** `getTestSpecs`: this state passes no test specifications. */
  function GetTestSpecs(): (r: seq<string>)
    ensures |r| == 0
  {
    []
  }

  /** `getRunner`: there is no helper package; the `vedro` module is run instead. */
  function GetRunner(): (r: Option<CL.HelperPackage>)
    ensures r.None?
  {
    None
  }

  /**
   * For a non-empty target, everything after `run` is exactly what the
   * first-generation state passes to its bootstrap script.
   */
  lemma ModuleArgumentsExtendScriptArguments(target: string, runnerOptions: Option<string>, parse: CL.OptionParser)
    requires target != ""
    ensures ModuleArguments(target, runnerOptions, parse)
         == [RUN_COMMAND] + CL.ScriptArguments(target, runnerOptions, parse)
  {
  }

  /**
   * The target can be read back from the arguments whenever the option
   * parser produces nothing for these options: the second argument, if any.
   */
  lemma TargetReadsBack(target: string, runnerOptions: Option<string>, parse: CL.OptionParser)
    requires parse(runnerOptions) == []
    ensures var r := ModuleArguments(target, runnerOptions, parse);
      (if |r| == 1 then "" else r[1]) == target
  {
  }
}
