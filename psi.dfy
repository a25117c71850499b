/**
 * The parts of the Python syntax tree (PSI) the plugin looks at, as plain
 * records. Name lookups, reference resolution, `isSubclass` and the walks up
 * the tree (`getParentOfType`) are replaced by the values they would return;
 * `isEquivalentTo` compares the `id` of two nodes.
 */
module Psi {
  import opened Wrappers
  import opened Paths

  /** Java's `String.valueOf` on a possibly null name. */
  function ValueOf(s: Option<string>): string
  {
    match s
    case Some(v) => v
    case None => "null"
  }

  /** What a callee expression resolves to, as `hasQualifiedName` inspects it. */
  datatype Callee =
    | NotReference                // null, or not a PyReferenceExpression
    | Unresolved                  // a reference that resolves to nothing
    | NotQualifiedNameOwner       // resolves to something without a qualified name
    | Owner(qualifiedName: Option<string>)

  /** A PyCallExpression. */
  datatype Call = Call(id: nat, callee: Callee)

  /**
   * A PyDecorator: its short name, its callee and the call expressions nested
   * inside it, in the order `findChildrenOfType` returns them.
   */
  datatype Decorator = Decorator(id: nat, name: Option<string>, callee: Callee, calls: seq<Call>)

  /** A PyClass; `subclassesScenario` is `isSubclass("vedro._scenario.Scenario")`. */
  datatype ClassInfo = ClassInfo(name: Option<string>, subclassesScenario: bool)

  /** A PyFunction with its containing class and its decorator list, either possibly absent. */
  datatype FunctionInfo = FunctionInfo(
    name: Option<string>,
    containingClass: Option<ClassInfo>,
    decoratorList: Option<seq<Decorator>>)

  /** A left-hand side of an assignment. */
  datatype AssignTarget = TargetExpression(name: Option<string>) | OtherTarget

  /** The assigned value (`getAssignedValue`, which may be null). */
  datatype AssignedValue = StringLiteral(stringValue: string) | OtherValue | NoValue

  /** A PyAssignmentStatement and the class that encloses it, if any. */
  datatype Assignment = Assignment(
    targets: seq<AssignTarget>,
    value: AssignedValue,
    enclosingClass: Option<ClassInfo>)

  /** The kinds of node the plugin distinguishes. */
  datatype Node =
    | ClassNode(cls: ClassInfo)
    | FunctionNode(fn: FunctionInfo)
      /** a decorator and the function it decorates (`getTarget`) */
    | DecoratorNode(dec: Decorator, target: Option<FunctionInfo>)
      /** a call with its nearest enclosing decorator and function */
    | CallNode(call: Call, enclosingDecorator: Option<Decorator>, enclosingFunction: Option<FunctionInfo>)
    | AssignmentNode(assign: Assignment)
      /** a PyTargetExpression with its nearest enclosing assignment */
    | TargetNode(targetName: Option<string>, enclosingAssignment: Option<Assignment>)
    | OtherNode

  /**
   * A PSI element: either a leaf token (no first child), described by its
   * parent node and whether it is that parent's name identifier, or an inner
   * node.
   */
  datatype Shape = Leaf(parent: Node, isNameIdentifier: bool) | Inner(node: Node)

  /** An element together with the path of its containing file. */
  datatype Element = Element(shape: Shape, file: Path)

  // Counting and locating among the members of a list that pass a filter,
  // used by every "1-based index among params" rule of the plugin.

  /** The number of members of `xs` that `counted` selects. */
  function CountWhere<T>(xs: seq<T>, counted: T -> bool): nat
  {
    if xs == [] then 0 else (if counted(xs[0]) then 1 else 0) + CountWhere(xs[1..], counted)
  }

  predicate IsHit<T>(x: T, counted: T -> bool, key: T -> nat, k: nat)
  {
    counted(x) && key(x) == k
  }

  /**
   * Walking `xs` with a counter that starts at `next` and advances on every
   * counted member: the counter's value at the first counted member whose key
   * is `k`, or -1.
   */
  function PositionFrom<T>(xs: seq<T>, counted: T -> bool, key: T -> nat, k: nat, next: int): (r: int)
    ensures r == -1 || r >= next
  {
    if xs == [] then -1
    else if !counted(xs[0]) then PositionFrom(xs[1..], counted, key, k, next)
    else if key(xs[0]) == k then next
    else PositionFrom(xs[1..], counted, key, k, next + 1)
  }

  /** The 1-based position of the member with key `k` among the counted members, or -1. */
  function Position<T>(xs: seq<T>, counted: T -> bool, key: T -> nat, k: nat): (r: int)
    ensures r == -1 || r >= 1
  {
    PositionFrom(xs, counted, key, k, 1)
  }

  /** The first index of a hit, which exists when `Hits` holds. */
  predicate Hits<T>(xs: seq<T>, counted: T -> bool, key: T -> nat, k: nat)
  {
    exists i :: 0 <= i < |xs| && IsHit(xs[i], counted, key, k)
  }

  predicate FirstHitAt<T>(xs: seq<T>, counted: T -> bool, key: T -> nat, k: nat, i: nat)
  {
    && i < |xs| && IsHit(xs[i], counted, key, k)
    && forall j :: 0 <= j < i ==> !IsHit(xs[j], counted, key, k)
  }

  lemma {:induction false} PositionFromMeaning<T>(xs: seq<T>, counted: T -> bool, key: T -> nat, k: nat, next: int)
    requires next >= 1
    ensures PositionFrom(xs, counted, key, k, next) == -1 <==> !Hits(xs, counted, key, k)
    ensures Hits(xs, counted, key, k) ==>
      exists i: nat :: FirstHitAt(xs, counted, key, k, i)
        && PositionFrom(xs, counted, key, k, next) == next + CountWhere(xs[..i], counted)
    ensures Hits(xs, counted, key, k) ==>
      next <= PositionFrom(xs, counted, key, k, next) < next + CountWhere(xs, counted)
  {
    if xs == [] {
    } else if !counted(xs[0]) {
      PositionFromMeaning(xs[1..], counted, key, k, next);
      HitsTail(xs, counted, key, k);
      if Hits(xs, counted, key, k) {
        var i: nat :| FirstHitAt(xs[1..], counted, key, k, i)
          && PositionFrom(xs[1..], counted, key, k, next) == next + CountWhere(xs[1..][..i], counted);
        assert xs[..i + 1][1..] == xs[1..][..i];
        assert FirstHitAt(xs, counted, key, k, i + 1);
      }
    } else if key(xs[0]) == k {
      assert FirstHitAt(xs, counted, key, k, 0);
      assert xs[..0] == [];
      CountPositive(xs, counted);
    } else {
      PositionFromMeaning(xs[1..], counted, key, k, next + 1);
      HitsTail(xs, counted, key, k);
      if Hits(xs, counted, key, k) {
        var i: nat :| FirstHitAt(xs[1..], counted, key, k, i)
          && PositionFrom(xs[1..], counted, key, k, next + 1) == next + 1 + CountWhere(xs[1..][..i], counted);
        assert xs[..i + 1][1..] == xs[1..][..i];
        assert FirstHitAt(xs, counted, key, k, i + 1);
      }
    }
  }

  lemma HitsTail<T>(xs: seq<T>, counted: T -> bool, key: T -> nat, k: nat)
    requires xs != [] && !IsHit(xs[0], counted, key, k)
    ensures Hits(xs, counted, key, k) <==> Hits(xs[1..], counted, key, k)
  {
    if Hits(xs, counted, key, k) {
      var i :| 0 <= i < |xs| && IsHit(xs[i], counted, key, k);
      assert xs[1..][i - 1] == xs[i];
    }
    if Hits(xs[1..], counted, key, k) {
      var i :| 0 <= i < |xs[1..]| && IsHit(xs[1..][i], counted, key, k);
      assert xs[i + 1] == xs[1..][i];
    }
  }

  lemma CountPositive<T>(xs: seq<T>, counted: T -> bool)
    requires xs != [] && counted(xs[0])
    ensures CountWhere(xs, counted) >= 1
  {
  }

  /**
   * What a 1-based index among counted members means: -1 exactly when no
   * counted member has key `k`; otherwise the index N is at most the number
   * of counted members and N - 1 counted members precede the first hit.
   */
  lemma PositionMeaning<T>(xs: seq<T>, counted: T -> bool, key: T -> nat, k: nat)
    ensures Position(xs, counted, key, k) == -1 <==> !Hits(xs, counted, key, k)
    ensures Hits(xs, counted, key, k) ==>
      exists i: nat :: FirstHitAt(xs, counted, key, k, i)
        && Position(xs, counted, key, k) == 1 + CountWhere(xs[..i], counted)
    ensures Hits(xs, counted, key, k) ==>
      1 <= Position(xs, counted, key, k) <= CountWhere(xs, counted)
  {
    PositionFromMeaning(xs, counted, key, k, 1);
  }
}
