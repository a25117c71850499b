# vedro-pycharm-plugin core, modelled in Dafny

This project models the decision logic of the Vedro plugin for PyCharm:

- how a run configuration is produced from the code element under the caret: the target string `relpath::Class`, `relpath::Class#N` or `relpath::Scenario_fn`, the working directory taken from the nearest `vedro.cfg.py`, and the runner options and names written into the configuration;
- the `VedroTestUtils` recognisers and index rules for scenario classes, `@scenario` functions, `@params` decorators and `params(...)` calls;
- both generations of the gutter markers: the run icon and the "rename file to match subject" marker with its subject-to-file-name conversion;
- the run-configuration record with its defaults, setters and persisted runner options;
- the argument lists of both command-line states.

PSI elements are plain data (module `Psi`): a decorator holds its identity, its name, its resolved callee and its calls; a function holds its name, containing class and decorator list; an element is a leaf token or an inner node plus the file it lives in. Identity comparison (`isEquivalentTo`) is comparison of the `id` fields, `isSubclass` of the scenario base class is a boolean of the class, and every `getParentOfType` result is a field. Paths are sequences of components; the file system is a map from directories to the names of their children.

The state-changing parts are classes: `RunConfiguration.VedroRunConfiguration` with setter methods, the producer's setup methods that write it, and the execution and parameter-group objects the command-line states append to. Every such method is proved against a specification function (`ConfigProducer.SetupPlan`, `CommandLineState.ScriptArguments`, `ExecutionCommandLineState.ModuleArguments`, ...), and the promised properties are proved about those functions. The counting loops (`getDecoratorIndex`, `getParamsDecoratorIndex`, `getParamsCallIndex`, `isScenarioFunction`, `findConfigFile`) are methods with loop invariants, each proved equal to a specification: a recursive function for the four counting and search loops, and the existential predicate `TestUtils.ScenarioDecorated` for `isScenarioFunction`. The 1-based "position among counted decorators" shared by the index rules is `Psi.Position`, and `Psi.PositionMeaning` proves what it means.

The producer's own `getClassName` (`src/main/java/io/vedro/VedroConfigurationProducer.java`:145-156) is the same code as `VedroTestUtils.getClassName` and is modelled once, as `TestUtils.GetClassName`. The same holds for `convertSubjectToFilename` and the rename skip check of the two subject-marker versions, which are modelled once in `SubjectMarker`.

The target strings are given a reference decoder, `TargetFormat.Parse`, so that "the target names this class / this params index / this function" is a round-trip property (`ConfigProducer.ClassTargetReadsBack` and its siblings).

## Model

| member | source | states |
|---|---|---|
| ConfigProducer.SetupConfiguration | src/main/java/io/vedro/VedroConfigurationProducer.java:33-44 | returns true exactly when `SetupPlan` gives a plan; then the configuration holds the plan's working directory and target, the fixed runner options and both names; for any element that is not a class, decorator or function it returns false and leaves every field as it was |
| ConfigProducer.SetupConfigurationForPyClass | src/main/java/io/vedro/VedroConfigurationProducer.java:46-61 | false for a class without a name (nothing changed); otherwise the configuration is set up with target `relpath::Class` relative to the resolved working directory |
| ConfigProducer.SetupConfigurationForPyDecorator | src/main/java/io/vedro/VedroConfigurationProducer.java:63-80 | false when there is no class name or the params index is -1 (nothing changed); otherwise target `relpath::Class#N` |
| ConfigProducer.SetupConfigurationForPyFunction | src/main/java/io/vedro/VedroConfigurationProducer.java:82-99 | false for a function without a name (nothing changed); otherwise target `relpath::Scenario_fn` |
| ConfigProducer.ResolveWorkingDir | src/main/java/io/vedro/VedroConfigurationProducer.java:54-55 | the working directory is the parent of the config file `findConfigFile` finds, else the configuration's safe working directory |
| ConfigProducer.UpdateConfiguration | src/main/java/io/vedro/VedroConfigurationProducer.java:101-109 | sets the working directory (as an absolute path string) and the target, runner options to `-r rich pycharm --pycharm-no-output`, suggested and action name to `vedro scenario`; the config-file name is unchanged |
| ConfigProducer.IsConfigurationFromContext | src/main/java/io/vedro/VedroConfigurationProducer.java:111-126 | false when there is no location or setup of a fresh scratch configuration fails, leaving the target unchanged; on success the target becomes the scratch configuration's target; no other field ever changes |
| ConfigProducer.SetupPlan | src/main/java/io/vedro/VedroConfigurationProducer.java:33-99 | a plan exists exactly for a named class, a decorator with a class name and an index other than -1, or a named function, and its working directory is the nearest config file's parent or the safe working directory; the target form (`relpath::Class`, `relpath::Class#N`, `relpath::Scenario_fn`) is not in this contract but in the three `*TargetReadsBack` lemmas, which decode it |
| ConfigProducer.ClassTargetReadsBack | src/main/java/io/vedro/VedroConfigurationProducer.java:56-58 | decoding a class plan's target gives back the relative path and `Scenario(Class)` |
| ConfigProducer.DecoratorTargetReadsBack | src/main/java/io/vedro/VedroConfigurationProducer.java:75-77 | decoding a decorator plan's target gives back the relative path, the class and the index N, with `1 <= N` and N at most the number of `params` decorators |
| ConfigProducer.FunctionTargetReadsBack | src/main/java/io/vedro/VedroConfigurationProducer.java:93-96 | decoding a function plan's target gives back the relative path and `Scenario(Scenario_fn)` |
| ConfigProducer.FindConfigFile | src/main/java/io/vedro/VedroConfigurationProducer.java:128-143 | the loop over children and the recursion to the parent compute exactly `ConfigSearch` |
| ConfigProducer.ConfigSearch | src/main/java/io/vedro/VedroConfigurationProducer.java:128-143 | a found path is non-empty and its last component is the config-file name |
| ConfigProducer.ConfigSearchMeaning | src/main/java/io/vedro/VedroConfigurationProducer.java:128-143 | a found file lies in a visited directory (the start or an ancestor, up to and including the project directory) and no nearer visited directory has one; no result means no visited directory holds one |
| ConfigProducer.GetDecoratorIndex | src/main/java/io/vedro/VedroConfigurationProducer.java:158-179 | the loop with its counter and early return computes exactly `DecoratorIndex` |
| ConfigProducer.DecoratorIndexMeaning | src/main/java/io/vedro/VedroConfigurationProducer.java:158-179 | -1 exactly when there is no target, no decorator list, or no decorator named `params` equivalent to this one; otherwise the index is 1 plus the number of `params` decorators before the first match, and at most the number of `params` decorators |
| TestUtils.HasQualifiedName | src/main/java/io/vedro/util/VedroTestUtils.java:160-170 | true exactly for a reference that resolves to a qualified-name owner whose name equals the given one; false for a non-reference, an unresolved reference, a non-owner or a null name |
| TestUtils.IsParamsDecorator | src/main/java/io/vedro/util/VedroTestUtils.java:32-49 | true exactly when the callee is `vedro._params.params`, the target function is named `__init__` and its containing class is a scenario |
| TestUtils.IsScenarioFunction | src/main/java/io/vedro/util/VedroTestUtils.java:54-67 | the search loop returns true exactly when some decorator resolves to `vedro_fn._scenario_decorator.scenario`; false without a decorator list |
| TestUtils.IsParamsCall | src/main/java/io/vedro/util/VedroTestUtils.java:72-84 | true exactly for a params callee inside an enclosing decorator that resolves to the scenario decorator |
| TestUtils.GetClassName | src/main/java/io/vedro/util/VedroTestUtils.java:89-100 | null without a target or a containing class; otherwise the containing class's name |
| TestUtils.GetParamsDecoratorIndex | src/main/java/io/vedro/util/VedroTestUtils.java:105-124 | the loop computes exactly `ParamsDecoratorIndex` |
| TestUtils.ParamsDecoratorIndexMeaning | src/main/java/io/vedro/util/VedroTestUtils.java:105-124 | -1 exactly when there is no target, no list, or no params-qualified decorator equivalent to this one; otherwise the 1-based position among params-qualified decorators only |
| TestUtils.GetParamsCallIndex | src/main/java/io/vedro/util/VedroTestUtils.java:129-158 | the nested loops, with the counter reset per scenario decorator, compute exactly `ParamsCallIndex` |
| TestUtils.CallIndexInMeaning | src/main/java/io/vedro/util/VedroTestUtils.java:137-157 | -1 exactly when no scenario decorator holds an equivalent params call; otherwise the 1-based position of the call among the params calls of the first scenario decorator that holds it |
| TestUtils.ParamsCallIndexMeaning | src/main/java/io/vedro/util/VedroTestUtils.java:129-158 | -1 without an enclosing function or decorator list; a result other than -1 is at least 1 and is the call's position inside one scenario decorator |
| Psi.PositionMeaning | src/main/java/io/vedro/VedroConfigurationProducer.java:166-178 | the shared counting rule: -1 exactly when no counted element matches; otherwise 1 plus the number of counted elements before the first match, between 1 and the number counted |
| SubjectMarker.ConvertSubjectToFilename | src/main/java/io/vedro/VedroSubjectLineMarkerContributor.java:130-150 | the result always ends in `.py`; it is `untitled.py` exactly when the stem is empty (or is itself `untitled`); otherwise it is the stem followed by `.py` |
| SubjectMarker.StemMeaning | src/main/java/io/vedro/VedroSubjectLineMarkerContributor.java:132-141 | the stem holds only letters, digits, `_`, `-`, `(` and `)`, no whitespace, and is an order-preserving subsequence of the lowered, underscore-replaced subject that keeps every allowed character of it (its length is their number), so it is empty exactly when that text has none |
| SubjectMarker.MaximalRunBecomesUnderscore | src/main/java/io/vedro/VedroSubjectLineMarkerContributor.java:135 | a maximal whitespace run between two parts becomes exactly one `_` |
| SubjectMarker.CollapseIdentity | src/main/java/io/vedro/VedroSubjectLineMarkerContributor.java:135 | text without whitespace is left unchanged by the run replacement |
| SubjectMarker.Trim | src/main/java/io/vedro/VedroSubjectLineMarkerContributor.java:94 | `trim()` is a slice of the input with only characters up to U+0020 removed at either end, and what is left starts and ends above U+0020 |
| SubjectMarker.ExtractSubjectInfo | src/main/java/io/vedro/VedroSubjectLineMarkerContributor.java:71-101 | a subject exactly when the first target is a target expression named `subject`, it sits in a scenario class, the value is a string literal and the trimmed value is not empty; the info holds the trimmed value and the file |
| SubjectMarker.GetInfo | src/main/java/io/vedro/VedroSubjectLineMarkerContributor.java:33-50 | a marker exactly for an assignment statement with a recognised subject whose file is not already named after it |
| SubjectMarker.RenameDecision | src/main/java/io/vedro/VedroSubjectLineMarkerContributor.java:103-109 | skip exactly when the file already has the converted name; otherwise rename that file to the converted name |
| SubjectMarker.MarkerImpliesRename | src/main/java/io/vedro/VedroSubjectLineMarkerContributor.java:43-49 | whenever the marker is shown its action has a rename to do |
| SubjectMarker.RenameIsFixpoint | src/main/java/io/vedro/VedroSubjectLineMarkerContributor.java:103-109 | after the file carries the converted name, the marker disappears and a second rename is skipped |
| UiSubjectMarker.ExtractSubjectInfo | src/main/java/io/vedro/ui/markers/VedroSubjectLineMarkerContributor.java:89-108 | a subject exactly when the assignment sits in a scenario class, its value is a string literal and the trimmed value is not empty |
| UiSubjectMarker.GetInfo | src/main/java/io/vedro/ui/markers/VedroSubjectLineMarkerContributor.java:35-63 | nothing for an element with children; a marker exactly for the name identifier of a target expression named `subject` with an enclosing assignment whose subject is recognised and whose file is not already named after it; the marker carries that assignment's subject info |
| UiSubjectMarker.MarkerImpliesRename | src/main/java/io/vedro/ui/markers/VedroSubjectLineMarkerContributor.java:57-63 | whenever this revision shows the marker its action has a rename to do |
| UiSubjectMarker.RenameIsFixpoint | src/main/java/io/vedro/ui/markers/VedroSubjectLineMarkerContributor.java:110-116 | after the file carries the converted name, this revision's marker disappears and a second rename is skipped |
| SubjectMarker.KeepAllowedKeepsEvery | src/main/java/io/vedro/VedroSubjectLineMarkerContributor.java:141 | the filter keeps as many characters as the text has allowed ones, and leaves nothing exactly when none is allowed |
| UiSubjectMarker.AgreesWithEarlierRevision | src/main/java/io/vedro/ui/markers/VedroSubjectLineMarkerContributor.java:35-63 | on the `subject` name token, the marker is exactly the one the first-generation contributor gives for its assignment statement |
| RunMarker.IsScenario | src/main/java/io/vedro/VedroRunLineMarkerContributor.java:19-25 | true exactly for a class whose name starts with `Scenario` and that subclasses `vedro._scenario.Scenario`; a null name fails |
| RunMarker.IsParams | src/main/java/io/vedro/VedroRunLineMarkerContributor.java:27-44 | true exactly for a decorator named `params` on a function named `__init__` whose containing class is a scenario |
| RunMarker.GetInfo | src/main/java/io/vedro/VedroRunLineMarkerContributor.java:46-55 | the scenario icon exactly for a scenario class, the params icon exactly for a params decorator, nothing otherwise |
| UiRunMarker.GetInfo | src/main/java/io/vedro/ui/markers/VedroRunLineMarkerContributor.java:23-51 | a leaf never gets the params icon; the scenario icon exactly for the name identifier of a scenario class or a `@scenario` function; the params icon exactly for a non-leaf params decorator or params call; nothing otherwise |
| RunConfiguration.VedroRunConfiguration.constructor | src/main/java/io/vedro/VedroRunConfiguration.java:20-30 | a fresh configuration has an empty target, empty runner options and config-file name `vedro.cfg.py` |
| RunConfiguration.VedroRunConfiguration.SetTarget | src/main/java/io/vedro/VedroRunConfiguration.java:36-42 | the getter returns the new target; no other field changes |
| RunConfiguration.VedroRunConfiguration.SetRunnerOptions | src/main/java/io/vedro/VedroRunConfiguration.java:44-50 | the getter returns the new options; no other field changes |
| RunConfiguration.VedroRunConfiguration.SetSuggestedName | src/main/java/io/vedro/VedroRunConfiguration.java:53-61 | the getter returns the new name; no other field changes |
| RunConfiguration.VedroRunConfiguration.SetActionName | src/main/java/io/vedro/VedroRunConfiguration.java:63-71 | the getter returns the new name; no other field changes |
| RunConfiguration.VedroRunConfiguration.WriteExternal | src/main/java/io/vedro/VedroRunConfiguration.java:83-87 | appends an option `RUNNER_OPTIONS` holding the runner options |
| RunConfiguration.VedroRunConfiguration.ReadExternal | src/main/java/io/vedro/VedroRunConfiguration.java:89-93 | the runner options become the stored field, null when it is missing; nothing else changes |
| RunConfiguration.ReadAfterWrite | src/main/java/io/vedro/VedroRunConfiguration.java:83-93 | reading the field back after writing it to an element without one gives the value written |
| RunConfiguration.SaveAndLoad | src/main/java/io/vedro/VedroRunConfiguration.java:83-93 | saving one configuration and loading the element into another restores its runner options |
| CommandLineState.BuildPythonExecution | src/main/java/io/vedro/VedroCommandLineState.java:43-62 | the script path is the bootstrap path mapped into the target environment; the parameters are `ScriptArguments` |
| CommandLineState.ScriptArguments | src/main/java/io/vedro/VedroCommandLineState.java:57-59 | the target first, then every parsed runner option in the parser's order, and nothing else |
| CommandLineState.AddTestRunnerParameters | src/main/java/io/vedro/VedroCommandLineState.java:77-87 | appends to the script group exactly `RunnerParameters` of bootstrap path, target, before-parameters, split options, after-parameters |
| CommandLineState.RunnerParameters | src/main/java/io/vedro/VedroCommandLineState.java:81-86 | bootstrap path at 0, target at 1, then the before-parameters, the options and the after-parameters as consecutive slices |
| CommandLineState.RunnerParametersExtendScriptArguments | src/main/java/io/vedro/VedroCommandLineState.java:43-87 | with no hook parameters, and when the string splitter of `addParametersString` and the macro-expanding parser of `buildPythonExecution` give the same pieces for the options, the script group is the bootstrap path followed by what `buildPythonExecution` passes |
| CommandLineState.GetTestSpecs | src/main/java/io/vedro/VedroCommandLineState.java:89-92 | always empty |
| CommandLineState.GetRunner | src/main/java/io/vedro/VedroCommandLineState.java:64-67 | always null |
| ExecutionCommandLineState.BuildPythonExecution | src/main/java/io/vedro/execution/VedroCommandLineState.java:43-55 | the module is `vedro` and the parameters are `ModuleArguments` |
| ExecutionCommandLineState.ModuleArguments | src/main/java/io/vedro/execution/VedroCommandLineState.java:44-55 | `run` first; the target second exactly when it is non-empty; the parsed options, in order, fill the rest |
| ExecutionCommandLineState.ModuleArgumentsExtendScriptArguments | src/main/java/io/vedro/execution/VedroCommandLineState.java:44-55 | for a non-empty target, everything after `run` is what the first-generation state passes to its script |
| ExecutionCommandLineState.TargetReadsBack | src/main/java/io/vedro/execution/VedroCommandLineState.java:48-51 | when the options parse to nothing, the target is the second argument, or empty when there is none |
| ExecutionCommandLineState.GetTestSpecs | src/main/java/io/vedro/execution/VedroCommandLineState.java:75-78 | always empty |
| ExecutionCommandLineState.GetRunner | src/main/java/io/vedro/execution/VedroCommandLineState.java:58-61 | always null |
| Paths.ResolveRelativize | src/main/java/io/vedro/VedroConfigurationProducer.java:56 | resolving the relative target path against the working directory gives back the scenario file |
| Paths.RelativizeDescendant | src/main/java/io/vedro/VedroConfigurationProducer.java:56 | for a file below the working directory the relative path is the part below it |
| TargetFormat.ParseFormat | src/main/java/io/vedro/VedroConfigurationProducer.java:58-96 | decoding a well-formed target string gives back its path and selector |
| TargetFormat.DecimalRoundTrip | src/main/java/io/vedro/VedroConfigurationProducer.java:77 | the decimal rendering of the params index reads back as the same number |

## Left out

- The Swing settings editors, and both configuration factories and types: UI binding and IDE registration with no logic.
- The `execute` overrides of both command-line states: process start, console creation and `invokeAndWait` are IDE process plumbing.
- The rename write action, `invokeLater` and the notifications: file-system I/O and threading. Only the skip-or-rename decision is modelled.
- PSI resolution, `isSubclass`, `isEquivalentTo`, `getParentOfType` and `findChildrenOfType`: IDE services. They are replaced by fields of plain records, so the model takes their answers as given.
- `ProgramParametersConfigurator.expandMacrosAndParseParameters` and `addParametersString`: opaque parser functions passed as parameters. `PySdkTargetPaths.getTargetPathForPythonConsoleExecution` is an opaque mapping of the bootstrap path.
- The bootstrap path is not a field of the run configuration shown; both command-line methods take it as a parameter.
- `addBeforeParameters` and `addAfterParameters` are hooks of the IDE base class; they are given sequences appended to the script group.
- `getWorkingDirectorySafe` and the project base path come from the IDE base configuration; they are parameters.
- The execution command-line state reads `io/vedro/config/VedroRunConfiguration.java`, which is not part of this model; the root configuration class is used, since only the target and runner options are read.
- Unicode: `\p{L}`, `\p{N}` and `toLowerCase` are abstract (`SubjectMarker.CharClasses`). `toLowerCase` is modelled per character, so locale- and context-sensitive lower-casing is out. `\s` is Java's ASCII class.
- Paths are Unix-style: `Paths.Join` renders a relative path with `/`, where Java's `Path.toString` uses the platform separator (`\\` on Windows).
- `Paths.relativize` is modelled for normalised absolute paths: a common prefix followed by one `..` per remaining base component. Symbolic links and non-normalised paths are out.
- Persistence by the superclass (`super.writeExternal`/`readExternal`) and `setGeneratedName`: IDE behaviour.
- SubjectMarker.ConvertSubjectToFilename: the contract proves `.py`-suffix, `untitled.py` and the stem; the Unicode categories themselves stay abstract.
- In-place aliasing of configurations: `IsConfigurationFromContext` allocates the scratch configuration itself, so it never aliases the one passed in. `SaveAndLoad` is stated for two configuration objects that may be the same.
