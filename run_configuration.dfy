/**
 * The Vedro run configuration (VedroRunConfiguration.java): the fields the
 * plugin keeps, their defaults, setters and getters, and the persistence of
 * the runner options as a `RUNNER_OPTIONS` option of the settings XML.
 */
module RunConfiguration {
  import opened Wrappers

  const DEFAULT_CONFIG_FILE_NAME := "vedro.cfg.py"
  const RUNNER_OPTIONS_FIELD := "RUNNER_OPTIONS"

  /**
   * One `<option name=".." value=".."/>` child of a settings element; the
   * value attribute is absent when a null value was written.
   */
  datatype XmlOption = XmlOption(name: string, value: Option<string>)

  /** `JDOMExternalizerUtil.readField`: the value of the first option with that name, else null. */
  function ReadField(options: seq<XmlOption>, name: string): (r: Option<string>)
    ensures (forall i :: 0 <= i < |options| ==> options[i].name != name) ==> r == None
    ensures r != None ==> exists i :: 0 <= i < |options| && options[i].name == name && options[i].value == r
  {
    if options == [] then None
    else if options[0].name == name then options[0].value
    else ReadField(options[1..], name)
  }

  /** The option `writeField` appends. */
  function WriteField(options: seq<XmlOption>, name: string, value: Option<string>): seq<XmlOption>
  {
    options + [XmlOption(name, value)]
  }

  /**
   * Reading a field back from an element that had no option of that name
   * before the write gives exactly the value written.
   */
  lemma {:induction false} ReadAfterWrite(options: seq<XmlOption>, name: string, value: Option<string>)
    requires forall i :: 0 <= i < |options| ==> options[i].name != name
    ensures ReadField(WriteField(options, name, value), name) == value
  {
    if options != [] {
      assert WriteField(options, name, value)[1..] == WriteField(options[1..], name, value);
      ReadAfterWrite(options[1..], name, value);
    }
  }

  /** A settings XML element that `writeExternal` appends to. */
  class XmlElement {
    var options: seq<XmlOption>

    constructor (options: seq<XmlOption>)
      ensures this.options == options
    {
      this.options := options;
    }
  }

  class VedroRunConfiguration {
    var target: string
    /** None stands for the null that reading a settings element without the option yields. */
    var runnerOptions: Option<string>
    var actionName: string
    var suggestedName: string
    var configFileName: string
    /** The working directory kept by the IDE's base configuration, which the producer sets. */
    var workingDirectory: string

    constructor ()
      ensures target == "" && runnerOptions == Some("")
      ensures actionName == "" && suggestedName == ""
      ensures configFileName == DEFAULT_CONFIG_FILE_NAME
      ensures workingDirectory == ""
    {
      target := "";
      runnerOptions := Some("");
      actionName := "";
      suggestedName := "";
      configFileName := DEFAULT_CONFIG_FILE_NAME;
      workingDirectory := "";
    }

    function GetConfigFileName(): string
      reads this
    {
      configFileName
    }

    function GetTarget(): string
      reads this
    {
      target
    }

    function GetRunnerOptions(): Option<string>
      reads this
    {
      runnerOptions
    }

    function SuggestedName(): string
      reads this
    {
      suggestedName
    }

    function GetActionName(): string
      reads this
    {
      actionName
    }

    method SetTarget(t: string)
      modifies this
      ensures GetTarget() == t
      ensures runnerOptions == old(runnerOptions) && actionName == old(actionName)
      ensures suggestedName == old(suggestedName) && configFileName == old(configFileName)
      ensures workingDirectory == old(workingDirectory)
    {
      target := t;
    }

    method SetRunnerOptions(o: string)
      modifies this
      ensures GetRunnerOptions() == Some(o)
      ensures target == old(target) && actionName == old(actionName)
      ensures suggestedName == old(suggestedName) && configFileName == old(configFileName)
      ensures workingDirectory == old(workingDirectory)
    {
      runnerOptions := Some(o);
    }

    method SetSuggestedName(s: string)
      modifies this
      ensures SuggestedName() == s
      ensures target == old(target) && runnerOptions == old(runnerOptions)
      ensures actionName == old(actionName) && configFileName == old(configFileName)
      ensures workingDirectory == old(workingDirectory)
    {
      suggestedName := s;
    }

    method SetActionName(a: string)
      modifies this
      ensures GetActionName() == a
      ensures target == old(target) && runnerOptions == old(runnerOptions)
      ensures suggestedName == old(suggestedName) && configFileName == old(configFileName)
      ensures workingDirectory == old(workingDirectory)
    {
      actionName := a;
    }

    /** `setWorkingDirectory` of the base configuration. */
    method SetWorkingDirectory(d: string)
      modifies this
      ensures workingDirectory == d
      ensures target == old(target) && runnerOptions == old(runnerOptions)
      ensures actionName == old(actionName) && suggestedName == old(suggestedName)
      ensures configFileName == old(configFileName)
    {
      workingDirectory := d;
    }

    /** `writeExternal`: appends the runner options under RUNNER_OPTIONS. */
    method WriteExternal(element: XmlElement)
      modifies element
      ensures element.options == WriteField(old(element.options), RUNNER_OPTIONS_FIELD, runnerOptions)
    {
      element.options := WriteField(element.options, RUNNER_OPTIONS_FIELD, runnerOptions);
    }

    /** `readExternal`: overwrites the runner options with the stored field, null when it is missing. */
    method ReadExternal(element: XmlElement)
      modifies this
      ensures runnerOptions == ReadField(element.options, RUNNER_OPTIONS_FIELD)
      ensures target == old(target) && actionName == old(actionName)
      ensures suggestedName == old(suggestedName) && configFileName == old(configFileName)
      ensures workingDirectory == old(workingDirectory)
    {
      runnerOptions := ReadField(element.options, RUNNER_OPTIONS_FIELD);
    }
  }

  /**
   * Saving one configuration into a fresh settings element and loading that
   * element into another restores its runner options.
   */
  method SaveAndLoad(from: VedroRunConfiguration, into: VedroRunConfiguration, element: XmlElement)
    requires forall i :: 0 <= i < |element.options| ==> element.options[i].name != RUNNER_OPTIONS_FIELD
    modifies element, into
    ensures into.runnerOptions == old(from.runnerOptions)
  {
    from.WriteExternal(element);
    ReadAfterWrite(old(element.options), RUNNER_OPTIONS_FIELD, old(from.runnerOptions));
    into.ReadExternal(element);
  }
}
