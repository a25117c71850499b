/**
 * Gutter run icons, first revision (VedroRunLineMarkerContributor.java):
 * recognition by short names and by the scenario base class.
 */
module RunMarker {
  import opened Wrappers
  import opened Psi

  /** The two run icons: a whole scenario, or one params variant. */
  datatype Icon = RunScenario | RunParams

  /**
   * `isScenario`: the class name starts with "Scenario" and the class
   * subclasses `vedro._scenario.Scenario`; a missing name (rendered "null")
   * never qualifies.
   */
  function IsScenario(cls: ClassInfo): (r: bool)
    ensures r <==> cls.name.Some? && "Scenario" <= cls.name.value && cls.subclassesScenario
  {
    var clsName := ValueOf(cls.name);
    if !("Scenario" <= clsName) then false
    else cls.subclassesScenario
  }

  /**
   * `isParams`: a decorator named `params` on a function named `__init__`
   * whose containing class is a scenario.
   */
  function IsParams(dec: Decorator, target: Option<FunctionInfo>): (r: bool)
    ensures r <==>
      && dec.name == Some("params")
      && target.Some? && target.value.name == Some("__init__")
      && target.value.containingClass.Some? && IsScenario(target.value.containingClass.value)
  {
    if ValueOf(dec.name) != "params" then false
    else if target == None then false
    else if ValueOf(target.value.name) != "__init__" then false
    else
      var cls := target.value.containingClass;
      cls != None && IsScenario(cls.value)
  }

  /** `getInfo`: the scenario icon on a scenario class, the params icon on a params decorator. */
  function GetInfo(element: Element): (r: Option<Icon>)
    ensures r == Some(RunScenario) <==>
      element.shape.Inner? && element.shape.node.ClassNode? && IsScenario(element.shape.node.cls)
    ensures r == Some(RunParams) <==>
      && element.shape.Inner? && element.shape.node.DecoratorNode?
      && IsParams(element.shape.node.dec, element.shape.node.target)
  {
    match element.shape
    case Inner(ClassNode(cls)) => if IsScenario(cls) then Some(RunScenario) else None
    case Inner(DecoratorNode(dec, target)) => if IsParams(dec, target) then Some(RunParams) else None
    case _ => None
  }
}
