/**
 * Gutter run icons, later revision (ui/markers/VedroRunLineMarkerContributor.java):
 * scenario icons go on the name token of a scenario class or function, params
 * icons on params decorators and params calls, recognised by qualified name.
 */
module UiRunMarker {
  import opened Wrappers
  import opened Psi
  import TestUtils
  import opened RunMarker

  /** `getInfo`, the decision cascade over leaves and inner nodes. */
  function GetInfo(element: Element): (r: Option<Icon>)
    ensures element.shape.Leaf? ==> r != Some(RunParams)
    ensures r == Some(RunScenario) <==>
      && element.shape.Leaf? && element.shape.isNameIdentifier
      && ((element.shape.parent.ClassNode? && TestUtils.IsScenarioClass(element.shape.parent.cls))
          || (element.shape.parent.FunctionNode? && TestUtils.ScenarioDecorated(element.shape.parent.fn)))
    ensures r == Some(RunParams) <==>
      && element.shape.Inner?
      && ((element.shape.node.DecoratorNode?
           && TestUtils.IsParamsDecorator(element.shape.node.dec, element.shape.node.target))
          || (element.shape.node.CallNode?
              && TestUtils.IsParamsCall(element.shape.node.call, element.shape.node.enclosingDecorator)))
  {
    match element.shape
    case Leaf(parent, isNameIdentifier) =>
      if parent.ClassNode? && isNameIdentifier && TestUtils.IsScenarioClass(parent.cls) then Some(RunScenario)
      else if parent.FunctionNode? && isNameIdentifier && TestUtils.ScenarioDecorated(parent.fn) then Some(RunScenario)
      else None
    case Inner(node) =>
      // In the PSI a decorator is also a call expression, so the source tries
      // `isParamsCall` on a decorator that is not a params decorator as well.
      // That test always fails there: it needs an enclosing decorator, and a
      // decorator never sits inside another one. Keeping decorators and calls
      // apart as node kinds therefore gives the same answers.
      if node.DecoratorNode? && TestUtils.IsParamsDecorator(node.dec, node.target) then Some(RunParams)
      else if node.CallNode? && TestUtils.IsParamsCall(node.call, node.enclosingDecorator) then Some(RunParams)
      else None
  }
}
