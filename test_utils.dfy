/**
 * Recognition of Vedro constructs by the qualified names their callees
 * resolve to, and the 1-based indices of params decorators and params calls
 * (util/VedroTestUtils.java).
 */
module TestUtils {
  import opened Wrappers
  import opened Psi

  const SCENARIO_FN_DECORATOR := "vedro_fn._scenario_decorator.scenario"
  const PARAMS_DECORATOR := "vedro._params.params"

  /** `isSubclass("vedro._scenario.Scenario")`. */
  predicate IsScenarioClass(cls: ClassInfo)
  {
    cls.subclassesScenario
  }

  /**
   * True only for a reference that resolves to a qualified-name owner whose
   * qualified name is exactly `qualifiedName`.
   */
  function HasQualifiedName(ref: Callee, qualifiedName: string): (r: bool)
    ensures r <==> ref == Owner(Some(qualifiedName))
  {
    match ref
    case NotReference => false
    case Unresolved => false
    case NotQualifiedNameOwner => false
    case Owner(name) => name != None && name.value == qualifiedName
  }

  predicate IsParamsCallee(d: Decorator)
  {
    HasQualifiedName(d.callee, PARAMS_DECORATOR)
  }

  predicate IsScenarioDecorator(d: Decorator)
  {
    HasQualifiedName(d.callee, SCENARIO_FN_DECORATOR)
  }

  predicate IsParamsCallExpression(c: Call)
  {
    HasQualifiedName(c.callee, PARAMS_DECORATOR)
  }

  function DecoratorId(d: Decorator): nat { d.id }

  function CallId(c: Call): nat { c.id }

  /**
   * A params decorator of a scenario class: its callee resolves to the params
   * decorator, it decorates a function named `__init__`, and that function's
   * class is a scenario.
   */
  function IsParamsDecorator(dec: Decorator, target: Option<FunctionInfo>): (r: bool)
    ensures r <==>
      && dec.callee == Owner(Some(PARAMS_DECORATOR))
      && target.Some? && target.value.name == Some("__init__")
      && target.value.containingClass.Some?
      && target.value.containingClass.value.subclassesScenario
  {
    if !HasQualifiedName(dec.callee, PARAMS_DECORATOR) then false
    else if target == None then false
    else if ValueOf(target.value.name) != "__init__" then false
    else
      var cls := target.value.containingClass;
      cls != None && IsScenarioClass(cls.value)
  }

  /** Some decorator of `fn` resolves to the function-scenario decorator. */
  predicate ScenarioDecorated(fn: FunctionInfo)
  {
    fn.decoratorList.Some? &&
    exists i :: 0 <= i < |fn.decoratorList.value| && IsScenarioDecorator(fn.decoratorList.value[i])
  }

  /** `isScenarioFunction`: a search over the decorator list that stops at the first hit. */
  method IsScenarioFunction(fn: FunctionInfo) returns (r: bool)
    ensures r == ScenarioDecorated(fn)
  {
    if fn.decoratorList == None {
      return false;
    }
    var ds := fn.decoratorList.value;
    var i := 0;
    while i < |ds|
      invariant 0 <= i <= |ds|
      invariant forall j :: 0 <= j < i ==> !IsScenarioDecorator(ds[j])
    {
      if HasQualifiedName(ds[i].callee, SCENARIO_FN_DECORATOR) {
        return true;
      }
      i := i + 1;
    }
    return false;
  }

  /**
   * A params call of a function-style scenario: its callee resolves to the
   * params decorator and its nearest enclosing decorator resolves to the
   * scenario decorator.
   */
  function IsParamsCall(call: Call, enclosingDecorator: Option<Decorator>): (r: bool)
    ensures r <==>
      && call.callee == Owner(Some(PARAMS_DECORATOR))
      && enclosingDecorator.Some?
      && enclosingDecorator.value.callee == Owner(Some(SCENARIO_FN_DECORATOR))
  {
    if !HasQualifiedName(call.callee, PARAMS_DECORATOR) then false
    else if enclosingDecorator == None || !IsScenarioDecorator(enclosingDecorator.value) then false
    else true
  }

  /** The name of the class whose method the decorator decorates, when there is one. */
  function GetClassName(target: Option<FunctionInfo>): (r: Option<string>)
    ensures target == None || target.value.containingClass == None ==> r == None
    ensures r != None ==> target.Some? && target.value.containingClass.Some?
                          && r == target.value.containingClass.value.name
    ensures target.Some? && target.value.containingClass.Some? ==> r == target.value.containingClass.value.name
  {
    if target == None then None
    else
      var cls := target.value.containingClass;
      if cls == None then None else cls.value.name
  }

  /** The index `getParamsDecoratorIndex` returns, stated without its loop. */
  function ParamsDecoratorIndex(dec: Decorator, target: Option<FunctionInfo>): int
  {
    if target == None || target.value.decoratorList == None then -1
    else Position(target.value.decoratorList.value, IsParamsCallee, DecoratorId, dec.id)
  }

  /**
   * The 1-based position of `dec` among the decorators of its target whose
   * callee resolves to the params decorator; -1 when there is no target, no
   * decorator list, or no such decorator equivalent to `dec`.
   */
  method GetParamsDecoratorIndex(dec: Decorator, target: Option<FunctionInfo>) returns (r: int)
    ensures r == ParamsDecoratorIndex(dec, target)
  {
    if target == None {
      return -1;
    }
    if target.value.decoratorList == None {
      return -1;
    }
    var ds := target.value.decoratorList.value;
    var index := 1;
    var i := 0;
    while i < |ds|
      invariant 0 <= i <= |ds|
      invariant Position(ds, IsParamsCallee, DecoratorId, dec.id)
                == PositionFrom(ds[i..], IsParamsCallee, DecoratorId, dec.id, index)
    {
      assert ds[i..][1..] == ds[i + 1..];
      var d := ds[i];
      if HasQualifiedName(d.callee, PARAMS_DECORATOR) {
        if d.id == dec.id {
          return index;
        }
        index := index + 1;
      }
      i := i + 1;
    }
    return -1;
  }

  /**
   * The index `getParamsCallIndex` returns: the first scenario decorator of
   * the enclosing function that holds a params call equivalent to this one
   * decides, counting params calls within that decorator only.
   */
  function CallIndexIn(ds: seq<Decorator>, callId: nat): int
  {
    if ds == [] then -1
    else if !IsScenarioDecorator(ds[0]) then CallIndexIn(ds[1..], callId)
    else
      var k := Position(ds[0].calls, IsParamsCallExpression, CallId, callId);
      if k != -1 then k else CallIndexIn(ds[1..], callId)
  }

  function ParamsCallIndex(call: Call, enclosingFunction: Option<FunctionInfo>): int
  {
    if enclosingFunction == None || enclosingFunction.value.decoratorList == None then -1
    else CallIndexIn(enclosingFunction.value.decoratorList.value, call.id)
  }

  method GetParamsCallIndex(call: Call, enclosingFunction: Option<FunctionInfo>) returns (r: int)
    ensures r == ParamsCallIndex(call, enclosingFunction)
  {
    if enclosingFunction == None {
      return -1;
    }
    if enclosingFunction.value.decoratorList == None {
      return -1;
    }
    var ds := enclosingFunction.value.decoratorList.value;
    var i := 0;
    while i < |ds|
      invariant 0 <= i <= |ds|
      invariant CallIndexIn(ds, call.id) == CallIndexIn(ds[i..], call.id)
    {
      assert ds[i..][1..] == ds[i + 1..];
      var decorator := ds[i];
      if !HasQualifiedName(decorator.callee, SCENARIO_FN_DECORATOR) {
        i := i + 1;
        continue;
      }
      var calls := decorator.calls;
      var index := 1;
      var j := 0;
      while j < |calls|
        invariant 0 <= j <= |calls|
        invariant index >= 1
        invariant Position(calls, IsParamsCallExpression, CallId, call.id)
                  == PositionFrom(calls[j..], IsParamsCallExpression, CallId, call.id, index)
      {
        assert calls[j..][1..] == calls[j + 1..];
        var current := calls[j];
        if HasQualifiedName(current.callee, PARAMS_DECORATOR) {
          if current.id == call.id {
            return index;
          }
          index := index + 1;
        }
        j := j + 1;
      }
      i := i + 1;
    }
    return -1;
  }

  /**
   * What `getParamsDecoratorIndex` promises: -1 exactly when there is no
   * target, no decorator list, or no params-qualified decorator equivalent to
   * `dec`; otherwise a 1-based N at most the number of params-qualified
   * decorators, with N - 1 of them before the first match. Decorators of any
   * other callee never advance the count.
   */
  lemma ParamsDecoratorIndexMeaning(dec: Decorator, target: Option<FunctionInfo>)
    ensures ParamsDecoratorIndex(dec, target) == -1 <==>
      target == None || target.value.decoratorList == None
      || !Hits(target.value.decoratorList.value, IsParamsCallee, DecoratorId, dec.id)
    ensures ParamsDecoratorIndex(dec, target) != -1 ==>
      var ds := target.value.decoratorList.value;
      && 1 <= ParamsDecoratorIndex(dec, target) <= CountWhere(ds, IsParamsCallee)
      && exists i: nat :: FirstHitAt(ds, IsParamsCallee, DecoratorId, dec.id, i)
           && ParamsDecoratorIndex(dec, target) == 1 + CountWhere(ds[..i], IsParamsCallee)
  {
    if target != None && target.value.decoratorList != None {
      PositionMeaning(target.value.decoratorList.value, IsParamsCallee, DecoratorId, dec.id);
    }
  }

  /** Some scenario decorator in `ds` holds a params call with key `callId`. */
  predicate CallFoundIn(ds: seq<Decorator>, callId: nat)
  {
    exists i :: 0 <= i < |ds| && HoldsCall(ds[i], callId)
  }

  /**
   * The params-call index restarts at 1 in every scenario decorator: it is -1
   * exactly when no scenario decorator holds the call; otherwise it is the
   * call's 1-based position among the params calls of the first scenario
   * decorator that holds it, so at most the number of params calls in that
   * one decorator.
   */
  predicate HoldsCall(d: Decorator, callId: nat)
  {
    IsScenarioDecorator(d) && Hits(d.calls, IsParamsCallExpression, CallId, callId)
  }

  lemma CallFoundInCons(ds: seq<Decorator>, callId: nat)
    requires ds != []
    ensures CallFoundIn(ds, callId) <==> HoldsCall(ds[0], callId) || CallFoundIn(ds[1..], callId)
  {
    if CallFoundIn(ds, callId) && !HoldsCall(ds[0], callId) {
      var i :| 0 <= i < |ds| && HoldsCall(ds[i], callId);
      assert ds[1..][i - 1] == ds[i];
    }
    if CallFoundIn(ds[1..], callId) {
      var i :| 0 <= i < |ds[1..]| && HoldsCall(ds[1..][i], callId);
      assert ds[i + 1] == ds[1..][i];
    }
  }

  lemma {:induction false} CallIndexInNotFound(ds: seq<Decorator>, callId: nat)
    ensures CallIndexIn(ds, callId) == -1 <==> !CallFoundIn(ds, callId)
  {
    if ds != [] {
      CallIndexInNotFound(ds[1..], callId);
      PositionMeaning(ds[0].calls, IsParamsCallExpression, CallId, callId);
      CallFoundInCons(ds, callId);
    }
  }

  lemma {:induction false} CallIndexInFound(ds: seq<Decorator>, callId: nat)
    requires CallIndexIn(ds, callId) != -1
    ensures
      exists i :: 0 <= i < |ds| && IsScenarioDecorator(ds[i])
        && !CallFoundIn(ds[..i], callId)
        && CallIndexIn(ds, callId) == Position(ds[i].calls, IsParamsCallExpression, CallId, callId)
        && 1 <= CallIndexIn(ds, callId) <= CountWhere(ds[i].calls, IsParamsCallExpression)
  {
    PositionMeaning(ds[0].calls, IsParamsCallExpression, CallId, callId);
    if HoldsCall(ds[0], callId) {
      assert ds[..0] == [];
      assert !CallFoundIn(ds[..0], callId);
    } else {
      CallIndexInFound(ds[1..], callId);
      var i :| 0 <= i < |ds[1..]| && IsScenarioDecorator(ds[1..][i])
        && !CallFoundIn(ds[1..][..i], callId)
        && CallIndexIn(ds[1..], callId) == Position(ds[1..][i].calls, IsParamsCallExpression, CallId, callId)
        && 1 <= CallIndexIn(ds[1..], callId) <= CountWhere(ds[1..][i].calls, IsParamsCallExpression);
      assert ds[i + 1] == ds[1..][i];
      var prefix := ds[..i + 1];
      assert prefix[1..] == ds[1..][..i];
      CallFoundInCons(prefix, callId);
    }
  }

  /**
   * The params-call index restarts at 1 in every scenario decorator: it is -1
   * exactly when no scenario decorator holds the call; otherwise it is the
   * call's 1-based position among the params calls of the first scenario
   * decorator that holds it, so at most the number of params calls in that
   * one decorator.
   */
  lemma CallIndexInMeaning(ds: seq<Decorator>, callId: nat)
    ensures CallIndexIn(ds, callId) == -1 <==> !CallFoundIn(ds, callId)
    ensures CallIndexIn(ds, callId) != -1 ==>
      exists i :: 0 <= i < |ds| && IsScenarioDecorator(ds[i])
        && !CallFoundIn(ds[..i], callId)
        && CallIndexIn(ds, callId) == Position(ds[i].calls, IsParamsCallExpression, CallId, callId)
        && 1 <= CallIndexIn(ds, callId) <= CountWhere(ds[i].calls, IsParamsCallExpression)
  {
    CallIndexInNotFound(ds, callId);
    if CallIndexIn(ds, callId) != -1 {
      CallIndexInFound(ds, callId);
    }
  }

  /** `getParamsCallIndex` as a whole: -1 without an enclosing function or decorator list. */
  lemma ParamsCallIndexMeaning(call: Call, enclosingFunction: Option<FunctionInfo>)
    ensures enclosingFunction == None || enclosingFunction.value.decoratorList == None ==>
      ParamsCallIndex(call, enclosingFunction) == -1
    ensures ParamsCallIndex(call, enclosingFunction) != -1 ==>
      var ds := enclosingFunction.value.decoratorList.value;
      exists i :: 0 <= i < |ds| && IsScenarioDecorator(ds[i])
        && !CallFoundIn(ds[..i], call.id)
        && 1 <= ParamsCallIndex(call, enclosingFunction) <= CountWhere(ds[i].calls, IsParamsCallExpression)
        && ParamsCallIndex(call, enclosingFunction) == Position(ds[i].calls, IsParamsCallExpression, CallId, call.id)
  {
    if enclosingFunction != None && enclosingFunction.value.decoratorList != None {
      CallIndexInMeaning(enclosingFunction.value.decoratorList.value, call.id);
    }
  }
}
