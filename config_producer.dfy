/**
 * Creating a run configuration from the element under the caret
 * (VedroConfigurationProducer.java): find the nearest `vedro.cfg.py` above
 * the file, make the file's path relative to its directory, and target the
 * class, the params variant or the function-style scenario.
 */
module ConfigProducer {
  import opened Wrappers
  import opened Paths
  import opened Psi
  import TestUtils
  import opened RunConfiguration
  import TF = TargetFormat

  const RUNNER_OPTIONS := "-r rich pycharm --pycharm-no-output"
  const CONFIGURATION_NAME := "vedro scenario"

  // findConfigFile

  /** `dir` is a directory with a child called `name`. */
  predicate HasConfig(tree: FileTree, dir: Path, name: string)
  {
    IsDirectory(tree, dir) && name in tree.dirs[dir]
  }

  /**
   * The search order of `findConfigFile`: look among the children of `p`,
   * then stop at the root or at the project directory, else go to the parent.
   */
  function ConfigSearch(tree: FileTree, p: Path, projectPath: Option<Path>, name: string): (r: Option<Path>)
    ensures r.Some? ==> r.value != [] && FileName(r.value) == name
    decreases |p|
  {
    if HasConfig(tree, p, name) then Some(p + [name])
    else if p == [] || Some(p) == projectPath then None
    else ConfigSearch(tree, Parent(p), projectPath, name)
  }

  /**
   * The ancestor of `p` with `k` components is searched: no deeper ancestor
   * (nor `p` itself) is the project directory.
   */
  predicate Visited(p: Path, projectPath: Option<Path>, k: nat)
  {
    k <= |p| && forall j :: k < j <= |p| ==> Some(p[..j]) != projectPath
  }

  /**
   * The file found is `configFileName` in a searched ancestor-or-self of the
   * start, and no nearer ancestor holds one; when nothing is found, no
   * searched ancestor holds one.
   */
  lemma {:induction false} ConfigSearchMeaning(tree: FileTree, p: Path, projectPath: Option<Path>, name: string)
    ensures ConfigSearch(tree, p, projectPath, name).Some? ==>
      exists k: nat :: Visited(p, projectPath, k) && HasConfig(tree, p[..k], name)
        && ConfigSearch(tree, p, projectPath, name).value == p[..k] + [name]
        && forall j :: k < j <= |p| ==> !HasConfig(tree, p[..j], name)
    ensures ConfigSearch(tree, p, projectPath, name).None? ==>
      forall k: nat :: Visited(p, projectPath, k) ==> !HasConfig(tree, p[..k], name)
    decreases |p|
  {
    assert p[..|p|] == p;
    if HasConfig(tree, p, name) {
      assert Visited(p, projectPath, |p|);
    } else if p == [] {
    } else if Some(p) == projectPath {
      assert forall k: nat :: Visited(p, projectPath, k) ==> k == |p|;
    } else {
      var q := Parent(p);
      ConfigSearchMeaning(tree, q, projectPath, name);
      assert forall j :: 0 <= j <= |q| ==> q[..j] == p[..j];
      forall k: nat | Visited(p, projectPath, k) && k < |p| ensures Visited(q, projectPath, k) {
        forall j | k < j <= |q| ensures Some(q[..j]) != projectPath {
          assert q[..j] == p[..j];
        }
      }
      forall k: nat | Visited(q, projectPath, k) ensures Visited(p, projectPath, k) {
        forall j | k < j <= |p| ensures Some(p[..j]) != projectPath {
          if j < |p| { assert q[..j] == p[..j]; }
        }
      }
    }
  }

  /** `findConfigFile`: the loop over one directory's children, then the parent. */
  method FindConfigFile(tree: FileTree, file: Path, projectPath: Option<Path>, configFileName: string)
    returns (r: Option<Path>)
    ensures r == ConfigSearch(tree, file, projectPath, configFileName)
    decreases |file|
  {
    if IsDirectory(tree, file) {
      var children := tree.dirs[file];
      var i := 0;
      while i < |children|
        invariant 0 <= i <= |children|
        invariant forall j :: 0 <= j < i ==> children[j] != configFileName
      {
        if children[i] == configFileName {
          return Some(file + [children[i]]);
        }
        i := i + 1;
      }
    }
    if file == [] || Some(file) == projectPath {
      return None;
    }
    r := FindConfigFile(tree, Parent(file), projectPath, configFileName);
  }

  // getDecoratorIndex

  /** The first revision counts decorators by their short name `params`. */
  predicate IsNamedParams(d: Decorator)
  {
    ValueOf(d.name) == "params"
  }

  function DecoratorIndex(dec: Decorator, target: Option<FunctionInfo>): int
  {
    if target == None || target.value.decoratorList == None then -1
    else Position(target.value.decoratorList.value, IsNamedParams, TestUtils.DecoratorId, dec.id)
  }

  method GetDecoratorIndex(dec: Decorator, target: Option<FunctionInfo>) returns (r: int)
    ensures r == DecoratorIndex(dec, target)
  {
    if target == None {
      return -1;
    }
    if target.value.decoratorList == None {
      return -1;
    }
    var ds := target.value.decoratorList.value;
    var index := 1;
    var i := 0;
    while i < |ds|
      invariant 0 <= i <= |ds|
      invariant Position(ds, IsNamedParams, TestUtils.DecoratorId, dec.id)
                == PositionFrom(ds[i..], IsNamedParams, TestUtils.DecoratorId, dec.id, index)
    {
      assert ds[i..][1..] == ds[i + 1..];
      var d := ds[i];
      var name := ValueOf(d.name);
      if name != "params" {
        i := i + 1;
        continue;
      }
      if d.id == dec.id {
        return index;
      }
      index := index + 1;
      i := i + 1;
    }
    return -1;
  }

  /**
   * -1, or a 1-based N at most the number of decorators named `params`, with
   * N - 1 of them before the matching one; other decorators never count.
   */
  lemma DecoratorIndexMeaning(dec: Decorator, target: Option<FunctionInfo>)
    ensures DecoratorIndex(dec, target) == -1 <==>
      target == None || target.value.decoratorList == None
      || !Hits(target.value.decoratorList.value, IsNamedParams, TestUtils.DecoratorId, dec.id)
    ensures DecoratorIndex(dec, target) != -1 ==>
      var ds := target.value.decoratorList.value;
      && 1 <= DecoratorIndex(dec, target) <= CountWhere(ds, IsNamedParams)
      && exists i: nat :: FirstHitAt(ds, IsNamedParams, TestUtils.DecoratorId, dec.id, i)
           && DecoratorIndex(dec, target) == 1 + CountWhere(ds[..i], IsNamedParams)
  {
    if target != None && target.value.decoratorList != None {
      PositionMeaning(target.value.decoratorList.value, IsNamedParams, TestUtils.DecoratorId, dec.id);
    }
  }

  // setupConfiguration, stated as the plan it carries out

  /** The working directory and target a successful setup writes. */
  datatype Plan = Plan(workingDir: Path, target: string)

  /** The config file's directory when one is found, else the configured working directory. */
  function WorkingDirFor(tree: FileTree, file: Path, basePath: Option<Path>, configFileName: string, workingDirSafe: Path): Path
  {
    match ConfigSearch(tree, file, basePath, configFileName)
    case Some(c) => Parent(c)
    case None => workingDirSafe
  }

  /** `workingDir.relativize(filePath).toString()`. */
  function RelativeTarget(workingDir: Path, file: Path): string
  {
    Join(Relativize(workingDir, file))
  }

  /**
   * What the three setup methods decide: refuse, or the working directory
   * and the target `relpath::Class`, `relpath::Class#N` or
   * `relpath::Scenario_fn`, rendered by `TargetFormat.Format`.
   */
  function SetupPlan(element: Element, tree: FileTree, basePath: Option<Path>, configFileName: string, workingDirSafe: Path)
    : (r: Option<Plan>)
    ensures r.Some? ==>
      && element.shape.Inner?
      && (element.shape.node.ClassNode? || element.shape.node.DecoratorNode? || element.shape.node.FunctionNode?)
    ensures r.Some? ==> r.value.workingDir == WorkingDirFor(tree, element.file, basePath, configFileName, workingDirSafe)
    ensures element.shape.Inner? && element.shape.node.ClassNode? ==>
      (r.Some? <==> element.shape.node.cls.name.Some?)
    ensures element.shape.Inner? && element.shape.node.DecoratorNode? ==>
      (r.Some? <==> TestUtils.GetClassName(element.shape.node.target).Some?
                    && DecoratorIndex(element.shape.node.dec, element.shape.node.target) != -1)
    ensures element.shape.Inner? && element.shape.node.FunctionNode? ==>
      (r.Some? <==> element.shape.node.fn.name.Some?)
  {
    var wd := WorkingDirFor(tree, element.file, basePath, configFileName, workingDirSafe);
    var rel := RelativeTarget(wd, element.file);
    match element.shape
    case Inner(ClassNode(cls)) =>
      if cls.name == None then None else Some(Plan(wd, TF.Format(TF.Target(rel, TF.Scenario(cls.name.value)))))
    case Inner(DecoratorNode(dec, target)) =>
      var clsName := TestUtils.GetClassName(target);
      var index := DecoratorIndex(dec, target);
      if clsName == None || index == -1 then None
      else Some(Plan(wd, TF.Format(TF.Target(rel, TF.ScenarioParams(clsName.value, index)))))
    case Inner(FunctionNode(fn)) =>
      if fn.name == None then None else Some(Plan(wd, TF.Format(TF.Target(rel, TF.Scenario("Scenario_" + fn.name.value)))))
    case _ => None
  }

  predicate NoColon(s: string)
  {
    forall k :: 0 <= k < |s| ==> s[k] != ':'
  }

  /** A scenario class is targeted as `relpath::Class`. */
  lemma ClassTargetReadsBack(cls: ClassInfo, file: Path, tree: FileTree, basePath: Option<Path>,
                             configFileName: string, workingDirSafe: Path)
    requires cls.name.Some? && TF.NameOk(cls.name.value)
    requires NoColon(RelativeTarget(WorkingDirFor(tree, file, basePath, configFileName, workingDirSafe), file))
    ensures var plan := SetupPlan(Element(Inner(ClassNode(cls)), file), tree, basePath, configFileName, workingDirSafe);
      plan.Some? && TF.Parse(plan.value.target)
        == Some(TF.Target(RelativeTarget(plan.value.workingDir, file), TF.Scenario(cls.name.value)))
  {
    var wd := WorkingDirFor(tree, file, basePath, configFileName, workingDirSafe);
    TF.ParseFormat(TF.Target(RelativeTarget(wd, file), TF.Scenario(cls.name.value)));
  }

  /**
   * A params decorator is targeted as `relpath::Class#N`, N its 1-based
   * index among the decorators named `params`.
   */
  lemma DecoratorTargetReadsBack(dec: Decorator, target: Option<FunctionInfo>, file: Path, tree: FileTree,
                                 basePath: Option<Path>, configFileName: string, workingDirSafe: Path)
    requires TestUtils.GetClassName(target).Some? && TF.NameOk(TestUtils.GetClassName(target).value)
    requires DecoratorIndex(dec, target) != -1
    requires NoColon(RelativeTarget(WorkingDirFor(tree, file, basePath, configFileName, workingDirSafe), file))
    ensures var plan := SetupPlan(Element(Inner(DecoratorNode(dec, target)), file), tree, basePath, configFileName, workingDirSafe);
      && plan.Some?
      && 1 <= DecoratorIndex(dec, target) <= CountWhere(target.value.decoratorList.value, IsNamedParams)
      && TF.Parse(plan.value.target)
         == Some(TF.Target(RelativeTarget(plan.value.workingDir, file),
                           TF.ScenarioParams(TestUtils.GetClassName(target).value, DecoratorIndex(dec, target))))
  {
    var wd := WorkingDirFor(tree, file, basePath, configFileName, workingDirSafe);
    DecoratorIndexMeaning(dec, target);
    TF.ParseFormat(TF.Target(RelativeTarget(wd, file),
                             TF.ScenarioParams(TestUtils.GetClassName(target).value, DecoratorIndex(dec, target))));
  }

  /** A function-style scenario is targeted as `relpath::Scenario_<name>`. */
  lemma FunctionTargetReadsBack(fn: FunctionInfo, file: Path, tree: FileTree, basePath: Option<Path>,
                                configFileName: string, workingDirSafe: Path)
    requires fn.name.Some? && TF.NameOk(fn.name.value)
    requires NoColon(RelativeTarget(WorkingDirFor(tree, file, basePath, configFileName, workingDirSafe), file))
    ensures var plan := SetupPlan(Element(Inner(FunctionNode(fn)), file), tree, basePath, configFileName, workingDirSafe);
      plan.Some? && TF.Parse(plan.value.target)
        == Some(TF.Target(RelativeTarget(plan.value.workingDir, file), TF.Scenario("Scenario_" + fn.name.value)))
  {
    var wd := WorkingDirFor(tree, file, basePath, configFileName, workingDirSafe);
    var name := "Scenario_" + fn.name.value;
    assert TF.NameOk(name) by {
      forall k | 0 <= k < |name| ensures name[k] != ':' && name[k] != '#' {
        if k >= 9 { assert name[k] == fn.name.value[k - 9]; }
      }
    }
    TF.ParseFormat(TF.Target(RelativeTarget(wd, file), TF.Scenario(name)));
  }

  // The methods that write the configuration

  /** The state of a configuration after a successful setup with `plan`. */
  predicate Applied(config: VedroRunConfiguration, plan: Plan)
    reads config
  {
    && config.workingDirectory == AbsoluteString(plan.workingDir)
    && config.target == plan.target
    && config.runnerOptions == Some(RUNNER_OPTIONS)
    && config.suggestedName == CONFIGURATION_NAME
    && config.actionName == CONFIGURATION_NAME
  }

  /** `updateConfiguration`: working directory, target, runner options and both names. */
  method UpdateConfiguration(config: VedroRunConfiguration, workingDirectory: Path, target: string)
    modifies config
    ensures Applied(config, Plan(workingDirectory, target))
    ensures config.configFileName == old(config.configFileName)
  {
    config.SetWorkingDirectory(AbsoluteString(workingDirectory));
    config.SetTarget(target);
    config.SetRunnerOptions(RUNNER_OPTIONS);
    config.SetSuggestedName(CONFIGURATION_NAME);
    config.SetActionName(CONFIGURATION_NAME);
  }

  /** The working directory the three setup methods compute from `findConfigFile`. */
  method ResolveWorkingDir(config: VedroRunConfiguration, file: Path, tree: FileTree, basePath: Option<Path>,
                           workingDirSafe: Path)
    returns (wd: Path)
    ensures wd == WorkingDirFor(tree, file, basePath, config.configFileName, workingDirSafe)
  {
    var configFile := FindConfigFile(tree, file, basePath, config.GetConfigFileName());
    wd := if configFile != None then Parent(configFile.value) else workingDirSafe;
  }

  /** The result every setup method promises: what it returns and what it leaves behind. */
  twostate predicate SetupOutcome(config: VedroRunConfiguration, ok: bool, plan: Option<Plan>)
    reads config
  {
    && ok == plan.Some?
    && config.configFileName == old(config.configFileName)
    && (ok ==> Applied(config, plan.value))
    && (!ok ==> config.target == old(config.target) && config.runnerOptions == old(config.runnerOptions)
                && config.actionName == old(config.actionName) && config.suggestedName == old(config.suggestedName)
                && config.workingDirectory == old(config.workingDirectory))
  }

  method SetupConfigurationForPyClass(config: VedroRunConfiguration, cls: ClassInfo, file: Path, tree: FileTree,
                                      basePath: Option<Path>, workingDirSafe: Path)
    returns (ok: bool)
    modifies config
    ensures SetupOutcome(config, ok,
      SetupPlan(Element(Inner(ClassNode(cls)), file), tree, basePath, old(config.configFileName), workingDirSafe))
  {
    var clsName := cls.name;
    if clsName == None {
      return false;
    }
    var workingDir := ResolveWorkingDir(config, file, tree, basePath, workingDirSafe);
    var target := RelativeTarget(workingDir, file);
    UpdateConfiguration(config, workingDir, target + "::" + clsName.value);
    return true;
  }

  method SetupConfigurationForPyDecorator(config: VedroRunConfiguration, dec: Decorator, decTarget: Option<FunctionInfo>,
                                          file: Path, tree: FileTree, basePath: Option<Path>, workingDirSafe: Path)
    returns (ok: bool)
    modifies config
    ensures SetupOutcome(config, ok,
      SetupPlan(Element(Inner(DecoratorNode(dec, decTarget)), file), tree, basePath, old(config.configFileName), workingDirSafe))
  {
    var clsName := TestUtils.GetClassName(decTarget);
    var decoratorIndex := GetDecoratorIndex(dec, decTarget);
    if clsName == None || decoratorIndex == -1 {
      return false;
    }
    var workingDir := ResolveWorkingDir(config, file, tree, basePath, workingDirSafe);
    var target := RelativeTarget(workingDir, file);
    UpdateConfiguration(config, workingDir, target + "::" + clsName.value + "#" + TF.Decimal(decoratorIndex));
    return true;
  }

  method SetupConfigurationForPyFunction(config: VedroRunConfiguration, fn: FunctionInfo, file: Path, tree: FileTree,
                                         basePath: Option<Path>, workingDirSafe: Path)
    returns (ok: bool)
    modifies config
    ensures SetupOutcome(config, ok,
      SetupPlan(Element(Inner(FunctionNode(fn)), file), tree, basePath, old(config.configFileName), workingDirSafe))
  {
    var functionName := fn.name;
    if functionName == None {
      return false;
    }
    var workingDir := ResolveWorkingDir(config, file, tree, basePath, workingDirSafe);
    var target := RelativeTarget(workingDir, file);
    UpdateConfiguration(config, workingDir, target + "::Scenario_" + functionName.value);
    return true;
  }

  /**
   * `setupConfiguration`: dispatch on the element's kind; anything but a
   * class, decorator or function is refused and leaves the configuration as
   * it was.
   */
  method SetupConfiguration(config: VedroRunConfiguration, element: Element, tree: FileTree,
                            basePath: Option<Path>, workingDirSafe: Path)
    returns (ok: bool)
    modifies config
    ensures SetupOutcome(config, ok, SetupPlan(element, tree, basePath, old(config.configFileName), workingDirSafe))
  {
    match element.shape
    case Inner(ClassNode(cls)) =>
      ok := SetupConfigurationForPyClass(config, cls, element.file, tree, basePath, workingDirSafe);
    case Inner(DecoratorNode(dec, target)) =>
      ok := SetupConfigurationForPyDecorator(config, dec, target, element.file, tree, basePath, workingDirSafe);
    case Inner(FunctionNode(fn)) =>
      ok := SetupConfigurationForPyFunction(config, fn, element.file, tree, basePath, workingDirSafe);
    case _ =>
      ok := false;
  }

  /**
   * `isConfigurationFromContext`: set up a fresh scratch configuration (with
   * its own default config-file name and working directory) from the
   * context's element and, on success, copy only its target over.
   */
  method IsConfigurationFromContext(config: VedroRunConfiguration, location: Option<Element>, tree: FileTree,
                                    basePath: Option<Path>, freshWorkingDirSafe: Path)
    returns (r: bool)
    modifies config
    ensures var plan := if location == None then None
                        else SetupPlan(location.value, tree, basePath, DEFAULT_CONFIG_FILE_NAME, freshWorkingDirSafe);
      && r == plan.Some?
      && (r ==> config.target == plan.value.target)
    ensures !r ==> config.target == old(config.target)
    ensures config.runnerOptions == old(config.runnerOptions) && config.actionName == old(config.actionName)
    ensures config.suggestedName == old(config.suggestedName) && config.configFileName == old(config.configFileName)
    ensures config.workingDirectory == old(config.workingDirectory)
  {
    if location == None {
      return false;
    }
    var tmpConf := new VedroRunConfiguration();
    var ok := SetupConfiguration(tmpConf, location.value, tree, basePath, freshWorkingDirSafe);
    if !ok {
      return false;
    }
    config.SetTarget(tmpConf.GetTarget());
    return true;
  }
}
