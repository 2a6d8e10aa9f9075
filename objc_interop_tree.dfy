/** Well-formedness of a built interop schema.

    The Swift source does not check it; its doc comments state it. The
    `parentProperty` of a nested class or enum is the wrapper, in the parent
    class, whose slot holds that class or enum; the `owner` of a property
    wrapper is the class whose wrapper list holds it.

    Two views of a well-formed schema are defined here:
    - `ClassTree`, top-down along the ownership edges (class -> its wrappers ->
      the nested class or enum each transitive wrapper stores), the way the
      emitter walks the schema; its `height` bounds the nesting depth, so the
      ownership edges form no cycle;
    - `BackReferenced`, node by node, the two doc-comment relations.
    The lemmas show that the first gives the second at every node, that
    following back-references from any class climbs to the root, and that a
    nested class or enum is stored by exactly one wrapper of the schema. */
module ObjcInteropTree {
  import opened ObjcInteropType

  /** Wrapper `w` is transitive, its slot is assigned, and the slot holds `n`. */
  predicate Stores(w: ObjcInteropPropertyWrapper, n: InteropType)
    reads w
  {
    w.kind.IsTransitive() && w.HasTransitiveType() && w.ObjcTransitiveType() == n
  }

  /** The subtree below class `c` is owned top-down with at most `height`
      levels of nested classes: every wrapper in its list names `c` as
      `owner`, and every transitive wrapper stores a node whose
      `parentProperty` is that wrapper. */
  ghost predicate ClassTree(c: InteropClass, height: nat)
    reads *
    decreases height, 1
  {
    forall w <- c.ObjcPropertyWrappers() :: w.owner == c && WrapperTree(w, height)
  }

  /** The subtree below wrapper `w`, as for `ClassTree`. */
  ghost predicate WrapperTree(w: ObjcInteropPropertyWrapper, height: nat)
    reads *
    decreases height, 0
  {
    w.kind.IsTransitive() ==>
      w.HasTransitiveType() &&
      w.ObjcTransitiveType().ParentProperty() == Some(w) &&
      match w.ObjcTransitiveType()
      case ClassNode(k) => height > 0 && ClassTree(k, height - 1)
      case _ => true
  }

  /** Node `n` lies in the subtree of class `c` (ownership edges only). */
  ghost predicate InClassTree(n: InteropType, c: InteropClass, height: nat)
    reads *
    decreases height, 1
  {
    n == ClassNode(c) || exists w <- c.ObjcPropertyWrappers() :: InWrapperTree(n, w, height)
  }

  /** Node `n` lies in the subtree of wrapper `w`. */
  ghost predicate InWrapperTree(n: InteropType, w: ObjcInteropPropertyWrapper, height: nat)
    reads *
    decreases height, 0
  {
    n == WrapperNode(w) ||
    (Stores(w, n) && !n.ClassNode?) ||
    (w.kind.IsTransitive() && w.HasTransitiveType() && w.ObjcTransitiveType().ClassNode? &&
     height > 0 && InClassTree(n, w.ObjcTransitiveType().cls, height - 1))
  }

  /** The whole schema below a root class. */
  ghost predicate SchemaTree(root: ObjcInteropRootClass, height: nat)
    reads *
  {
    ClassTree(RootClassRef(root), height)
  }

  ghost predicate InSchema(n: InteropType, root: ObjcInteropRootClass, height: nat)
    reads *
  {
    InClassTree(n, RootClassRef(root), height)
  }

  /** The doc-comment relations at one node: a nested class or enum is what
      its `parentProperty` stores; a wrapper is in its `owner`'s wrapper list
      and, when transitive, stores a node whose `parentProperty` is the
      wrapper. */
  ghost predicate BackReferenced(n: InteropType)
    reads *
  {
    match n
    case WrapperNode(w) =>
      w in w.owner.ObjcPropertyWrappers() &&
      (w.kind.IsTransitive() ==>
         w.HasTransitiveType() && w.ObjcTransitiveType().ParentProperty() == Some(w))
    case _ =>
      n.ParentProperty().Some? ==> Stores(n.ParentProperty().value, n)
  }

  /** Every node of a subtree except its top satisfies the doc-comment
      relations. */
  lemma {:induction false} ClassTreeBackReferenced(c: InteropClass, height: nat, n: InteropType)
    requires ClassTree(c, height) && InClassTree(n, c, height)
    requires n != ClassNode(c)
    ensures BackReferenced(n)
    decreases height, 1
  {
    var w :| w in c.ObjcPropertyWrappers() && InWrapperTree(n, w, height);
    WrapperTreeBackReferenced(w, height, n);
  }

  lemma {:induction false} WrapperTreeBackReferenced(w: ObjcInteropPropertyWrapper, height: nat, n: InteropType)
    requires WrapperTree(w, height) && InWrapperTree(n, w, height)
    requires w in w.owner.ObjcPropertyWrappers()
    ensures BackReferenced(n)
    decreases height, 0
  {
    if n == WrapperNode(w) {
    } else if Stores(w, n) {
    } else {
      var k := w.ObjcTransitiveType().cls;
      if n == ClassNode(k) {
      } else {
        ClassTreeBackReferenced(k, height - 1, n);
      }
    }
  }

  /** In a well-formed schema every node, the root included, satisfies the
      doc-comment relations. */
  lemma SchemaBackReferenced(root: ObjcInteropRootClass, height: nat, n: InteropType)
    requires SchemaTree(root, height) && InSchema(n, root, height)
    ensures BackReferenced(n)
  {
    if n != ClassNode(RootClassRef(root)) {
      ClassTreeBackReferenced(RootClassRef(root), height, n);
    }
  }

  /** Two wrappers of a well-formed schema that store the same node are the
      same wrapper: the node's `parentProperty`. */
  lemma StoringWrapperUnique(root: ObjcInteropRootClass, height: nat,
                             w1: ObjcInteropPropertyWrapper, w2: ObjcInteropPropertyWrapper, n: InteropType)
    requires SchemaTree(root, height)
    requires InSchema(WrapperNode(w1), root, height) && InSchema(WrapperNode(w2), root, height)
    requires Stores(w1, n) && Stores(w2, n)
    ensures w1 == w2
    ensures n.ParentProperty() == Some(w1)
  {
    SchemaBackReferenced(root, height, WrapperNode(w1));
    SchemaBackReferenced(root, height, WrapperNode(w2));
  }

  /** The wrapper that `parentProperty` names for a node strictly below
      class `c` lies in the same subtree and stores the node. */
  lemma {:induction false} ParentInClassTree(c: InteropClass, height: nat, n: InteropType)
    requires ClassTree(c, height) && InClassTree(n, c, height)
    requires n != ClassNode(c) && n.ParentProperty().Some?
    ensures InClassTree(WrapperNode(n.ParentProperty().value), c, height)
    ensures Stores(n.ParentProperty().value, n)
    decreases height, 1
  {
    var w :| w in c.ObjcPropertyWrappers() && InWrapperTree(n, w, height);
    ParentInWrapperTree(w, height, n);
  }

  lemma {:induction false} ParentInWrapperTree(w: ObjcInteropPropertyWrapper, height: nat, n: InteropType)
    requires WrapperTree(w, height) && InWrapperTree(n, w, height)
    requires n.ParentProperty().Some?
    ensures InWrapperTree(WrapperNode(n.ParentProperty().value), w, height)
    ensures Stores(n.ParentProperty().value, n)
    decreases height, 0
  {
    if Stores(w, n) && !n.ClassNode? {
      assert n.ParentProperty() == Some(w);
    } else {
      var k := w.ObjcTransitiveType().cls;
      if n == ClassNode(k) {
        assert n.ParentProperty() == Some(w);
      } else {
        ParentInClassTree(k, height - 1, n);
      }
    }
  }

  /** The wrapper that a nested class or enum of a well-formed schema names
      as `parentProperty` belongs to the schema and stores that node. */
  lemma StorerInSchema(root: ObjcInteropRootClass, height: nat, n: InteropType)
    requires SchemaTree(root, height) && InSchema(n, root, height)
    requires n.ParentProperty().Some?
    ensures InSchema(WrapperNode(n.ParentProperty().value), root, height)
    ensures Stores(n.ParentProperty().value, n)
  {
    ParentInClassTree(RootClassRef(root), height, n);
  }

  /** A nested class or enum of a well-formed schema is stored by exactly one
      wrapper of the schema, and that wrapper is its `parentProperty`. */
  lemma ExactlyOneStoringWrapper(root: ObjcInteropRootClass, height: nat, n: InteropType)
    requires SchemaTree(root, height) && InSchema(n, root, height)
    requires n.ParentProperty().Some?
    ensures forall w :: InSchema(WrapperNode(w), root, height) && Stores(w, n) <==> w == n.ParentProperty().value
  {
    var p := n.ParentProperty().value;
    StorerInSchema(root, height, n);
    forall w | InSchema(WrapperNode(w), root, height) && Stores(w, n)
      ensures w == p
    {
      StoringWrapperUnique(root, height, w, p, n);
    }
  }

  /** The class reached from `c` by following `steps` back-references
      (`parentProperty`, then that wrapper's `owner`); a root class stays put. */
  ghost function Climb(c: InteropClass, steps: nat): InteropClass
    reads *
    decreases steps
  {
    if steps == 0 then c
    else match c.ParentProperty()
      case None => c
      case Some(w) => Climb(w.owner, steps - 1)
  }

  lemma {:induction false} ClimbAdd(c: InteropClass, a: nat, b: nat)
    ensures Climb(c, a + b) == Climb(Climb(c, a), b)
    decreases a
  {
    if a > 0 && c.ParentProperty().Some? {
      ClimbAdd(c.ParentProperty().value.owner, a - 1, b);
    }
  }

  /** Every class of a subtree climbs to the subtree's top class in at most
      `height` steps. */
  lemma {:induction false} ClimbToClassTreeTop(c: InteropClass, height: nat, k: InteropClass) returns (steps: nat)
    requires ClassTree(c, height) && InClassTree(ClassNode(k), c, height)
    ensures steps <= height && Climb(k, steps) == c
    decreases height
  {
    if k == c {
      steps := 0;
      return;
    }
    var w :| w in c.ObjcPropertyWrappers() && InWrapperTree(ClassNode(k), w, height);
    var k' := w.ObjcTransitiveType().cls;
    assert Climb(k', 1) == c by {
      assert k'.ParentProperty() == Some(w);
    }
    if k == k' {
      steps := 1;
    } else {
      var below := ClimbToClassTreeTop(k', height - 1, k);
      ClimbAdd(k, below, 1);
      steps := below + 1;
    }
  }

  /** Following back-references from any class of a well-formed schema
      reaches the root within `height` steps and stays there. */
  lemma ClassesClimbToRoot(root: ObjcInteropRootClass, height: nat, k: InteropClass)
    requires SchemaTree(root, height) && InSchema(ClassNode(k), root, height)
    ensures Climb(k, height) == RootClassRef(root)
  {
    var steps := ClimbToClassTreeTop(RootClassRef(root), height, k);
    ClimbAdd(k, steps, height - steps);
  }
}
