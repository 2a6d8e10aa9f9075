# Swift ↔ Objective-C interop schema of the RUM models generator

The RUM models generator turns the Swift data model of RUM events into
Objective-C bridging code. Before emitting that code it builds an intermediate
tree of schema nodes, declared in `ObjcInteropType.swift`:

- `@objc` classes that manage a Swift `struct`: the root class, transitive
  nested classes (and their "referenced" subclass) and non-transitive nested
  classes (elements of arrays of structs);
- `@objc` enums exposing a Swift `enum` (plain, referenced, and enum arrays);
- property wrappers, one per exposed Swift property, pointing back to the
  class that owns them; four transitive kinds each store one nested class or
  enum in a slot filled after construction, and one kind stores any schema
  node;
- plain leaves: `NSNumber`, `NSString`, `Any`, `NSArray` and `NSDictionary`.

This project models those node kinds in Dafny and proves what their
initializers and getters promise, and what the doc comments say about the
links between them.

Module `ObjcInteropType` (`objc_interop_type.dfy`) is the node family. Each
Swift class is a Dafny class. A Swift subclass that adds no state is a `const`
tag on its superclass, set by the constructor:

- `referenced` tags `ObjcInteropReferencedTransitiveClass`;
- `EnumKind` tags `ObjcInteropReferencedEnum` and `ObjcInteropEnumArray`.

The five property-wrapper subclasses are one class, `ObjcInteropPropertyWrapper`.
It has a `const kind: WrapperKind` and one nullable slot per subclass. Each slot
setter requires the kind whose Swift class declares that slot. The protocols
`ObjcInteropType` and `ObjcInteropClass` become datatypes (`InteropType`,
`InteropClass`) that hold one node reference. Fields that the source declares
`let` or `private(set)` are `const`: the source never assigns them outside
an initializer. The Swift payload types (`SwiftStruct`, `SwiftStruct.Property`,
`SwiftEnum`, `SwiftType`, `SwiftPrimitive<String>`,
`SwiftPrimitiveNoObjcInteropType`) are abstract types in module `SwiftSchema`.

Module `ObjcInteropTree` (`objc_interop_tree.dfy`) defines a well-formed schema.
The source does not check it; its doc comments state it. The module gives two
views of it:

- `ClassTree`: a top-down ownership view. A class holds its wrappers, and each
  transitive wrapper stores a nested class or enum. Each wrapper names the class
  as `owner`, and each stored node names the wrapper as `parentProperty`. A
  height bound makes the ownership edges acyclic.
- `BackReferenced`: the doc-comment relations, checked node by node.

The lemmas prove three things about a well-formed schema:

- the tree view gives the back-reference relations at every node;
- following back-references from any class reaches the root;
- each nested class or enum is stored by exactly one wrapper of the schema, its `parentProperty`.

A child is initialized with its owner wrapper already set. The wrapper's slot
and the class's wrapper list are assigned after that, through the setters of
the model. A wrapper's constructor leaves every slot empty, and each setter
keeps `OnlyOwnSlot()`: only the slot of the wrapper's own subclass is ever
filled.

## Model

| member | source | states |
|---|---|---|
| `ObjcInteropType.ObjcInteropRootClass.constructor` | tools/rum-models-generator/Sources/RUMModelsGeneratorCore/Input/ObjcInterop/ObjcInteropType.swift:19-28 | stores exactly the given struct as `bridgedSwiftStruct` (immutable) and starts with an empty wrapper list |
| `ObjcInteropType.ObjcInteropTransitiveNestedClass.constructor` | tools/rum-models-generator/Sources/RUMModelsGeneratorCore/Input/ObjcInterop/ObjcInteropType.swift:30-47 | sets `parentProperty` to the owner wrapper and `bridgedSwiftStruct` to the struct, both immutable, with an empty wrapper list; the referenced subclass gets the same contract with its tag set |
| `ObjcInteropType.ObjcInteropNestedClass.constructor` | tools/rum-models-generator/Sources/RUMModelsGeneratorCore/Input/ObjcInterop/ObjcInteropType.swift:49-63 | same contract as the transitive class: owner, struct, empty wrapper list |
| `ObjcInteropType.ObjcInteropEnum.constructor` | tools/rum-models-generator/Sources/RUMModelsGeneratorCore/Input/ObjcInterop/ObjcInteropType.swift:65-82 | sets `parentProperty` to the owner and `bridgedSwiftEnum` to the enum, both immutable; the referenced-enum and enum-array subclasses share it, differing only in `kind` |
| `ObjcInteropType.ObjcInteropPropertyWrapper.constructor` | tools/rum-models-generator/Sources/RUMModelsGeneratorCore/Input/ObjcInterop/ObjcInteropType.swift:86-97 | sets `owner` and `bridgedSwiftProperty` (both immutable) for every wrapper subclass, with every late-bound slot still unassigned, so `OnlyOwnSlot()` holds |
| `ObjcInteropType.ObjcInteropPropertyWrapper.ObjcTransitiveType` | tools/rum-models-generator/Sources/RUMModelsGeneratorCore/Input/ObjcInterop/ObjcInteropType.swift:99-126 | for each transitive wrapper kind, returns exactly the node in that kind's slot: a nested (never root) class or an enum, an enum array for the enums-array kind; defined only once the slot is assigned |
| `ObjcInteropType.ObjcInteropPropertyWrapper.SetObjcNestedClass` | tools/rum-models-generator/Sources/RUMModelsGeneratorCore/Input/ObjcInterop/ObjcInteropType.swift:104-108 | assigning `objcNestedClass` of a nested-struct wrapper changes that slot only; once it holds a node, `ObjcTransitiveType` returns exactly that node; `OnlyOwnSlot()` is preserved |
| `ObjcInteropType.ObjcInteropPropertyWrapper.SetObjcNestedEnum` | tools/rum-models-generator/Sources/RUMModelsGeneratorCore/Input/ObjcInterop/ObjcInteropType.swift:110-114 | assigning `objcNestedEnum` of a nested-enum wrapper changes that slot only; once it holds a node, `ObjcTransitiveType` returns exactly that node; `OnlyOwnSlot()` is preserved |
| `ObjcInteropType.ObjcInteropPropertyWrapper.SetObjcNestedEnumsArray` | tools/rum-models-generator/Sources/RUMModelsGeneratorCore/Input/ObjcInterop/ObjcInteropType.swift:116-120 | assigning `objcNestedEnumsArray` (an enum array or nothing) of an enums-array wrapper changes that slot only; once it holds a node, `ObjcTransitiveType` returns exactly that node; `OnlyOwnSlot()` is preserved |
| `ObjcInteropType.ObjcInteropPropertyWrapper.SetObjcNestedArrayClass` | tools/rum-models-generator/Sources/RUMModelsGeneratorCore/Input/ObjcInterop/ObjcInteropType.swift:122-126 | assigning the nested class of a structs-array wrapper changes that slot only; once it holds a node, `ObjcTransitiveType` returns exactly that node; `OnlyOwnSlot()` is preserved |
| `ObjcInteropType.ObjcInteropPropertyWrapper.SetObjcInteropType` | tools/rum-models-generator/Sources/RUMModelsGeneratorCore/Input/ObjcInterop/ObjcInteropType.swift:128-131 | assigning `objcInteropType` of a struct-property wrapper changes that slot only; `OnlyOwnSlot()` is preserved |
| `ObjcInteropType.InteropClass.SetObjcPropertyWrappers` | tools/rum-models-generator/Sources/RUMModelsGeneratorCore/Input/ObjcInterop/ObjcInteropType.swift:13-16 | the protocol's settable wrapper list: the new list is exactly the one given, and nothing but that class's list changes |
| `ObjcInteropType.InteropClass.BridgedSwiftStruct` | tools/rum-models-generator/Sources/RUMModelsGeneratorCore/Input/ObjcInterop/ObjcInteropType.swift:13-16 | the protocol's `bridgedSwiftStruct` getter: for each of the three classes, the struct that class stores |
| `ObjcInteropType.InteropClass.ObjcPropertyWrappers` | tools/rum-models-generator/Sources/RUMModelsGeneratorCore/Input/ObjcInterop/ObjcInteropType.swift:13-16 | the protocol's `objcPropertyWrappers` getter: for each of the three classes, that class's current wrapper list |
| `ObjcInteropType.WrapperKind.IsTransitive` | tools/rum-models-generator/Sources/RUMModelsGeneratorCore/Input/ObjcInterop/ObjcInteropType.swift:99-131 | exactly the four `Accessing...` wrapper subclasses conform to the transitive-type protocol; the base wrapper and the struct-property wrapper do not |
| `ObjcInteropType.ObjcInteropPropertyWrapper.HasTransitiveType` | tools/rum-models-generator/Sources/RUMModelsGeneratorCore/Input/ObjcInterop/ObjcInteropType.swift:104-126 | for each transitive kind, holds exactly when that kind's implicitly unwrapped slot has been assigned |
| `ObjcInteropType.InteropClass.ParentProperty` | tools/rum-models-generator/Sources/RUMModelsGeneratorCore/Input/ObjcInterop/ObjcInteropType.swift:18-63 | a root class has no parent property; a transitive or non-transitive nested class has exactly its `parentProperty` |
| `ObjcInteropType.InteropType.ParentProperty` | tools/rum-models-generator/Sources/RUMModelsGeneratorCore/Input/ObjcInterop/ObjcInteropType.swift:30-76 | exactly the nested classes and the enums carry a `parentProperty` back-reference; leaves, wrappers and the root carry none |
| `ObjcInteropType.ObjcInteropNSNumber.constructor` | tools/rum-models-generator/Sources/RUMModelsGeneratorCore/Input/ObjcInterop/ObjcInteropType.swift:135-141 | stores `swiftType` unchanged and immutably |
| `ObjcInteropType.ObjcInteropNSString.constructor` | tools/rum-models-generator/Sources/RUMModelsGeneratorCore/Input/ObjcInterop/ObjcInteropType.swift:143-149 | stores `swiftString` unchanged and immutably |
| `ObjcInteropType.ObjcInteropAny.constructor` | tools/rum-models-generator/Sources/RUMModelsGeneratorCore/Input/ObjcInterop/ObjcInteropType.swift:151-157 | stores `swiftType` unchanged and immutably |
| `ObjcInteropType.ObjcInteropNSArray.constructor` | tools/rum-models-generator/Sources/RUMModelsGeneratorCore/Input/ObjcInterop/ObjcInteropType.swift:159-165 | stores `element` unchanged and immutably |
| `ObjcInteropType.ObjcInteropNSDictionary.constructor` | tools/rum-models-generator/Sources/RUMModelsGeneratorCore/Input/ObjcInterop/ObjcInteropType.swift:167-175 | stores `key` and `value` unchanged and immutably |
| `ObjcInteropTree.ClassTreeBackReferenced` | tools/rum-models-generator/Sources/RUMModelsGeneratorCore/Input/ObjcInterop/ObjcInteropType.swift:30-97 | below a top-down well-formed class, every node meets the doc-comment relations: `parentProperty` stores the node, and `owner` lists the wrapper |
| `ObjcInteropTree.WrapperTreeBackReferenced` | tools/rum-models-generator/Sources/RUMModelsGeneratorCore/Input/ObjcInterop/ObjcInteropType.swift:86-126 | the same below a wrapper listed by its owner: the wrapper, the node its slot stores, and everything beneath meet the doc-comment relations |
| `ObjcInteropTree.SchemaBackReferenced` | tools/rum-models-generator/Sources/RUMModelsGeneratorCore/Input/ObjcInterop/ObjcInteropType.swift:18-97 | every node of a well-formed schema, root included, meets the doc-comment relations |
| `ObjcInteropTree.StoringWrapperUnique` | tools/rum-models-generator/Sources/RUMModelsGeneratorCore/Input/ObjcInterop/ObjcInteropType.swift:30-76 | two wrappers of a well-formed schema that store the same node are one wrapper, the node's `parentProperty` (the at-most-one half) |
| `ObjcInteropTree.ParentInClassTree` | tools/rum-models-generator/Sources/RUMModelsGeneratorCore/Input/ObjcInterop/ObjcInteropType.swift:30-97 | for every nested class or enum strictly below a well-formed class, its `parentProperty` lies in the same subtree and stores it |
| `ObjcInteropTree.ParentInWrapperTree` | tools/rum-models-generator/Sources/RUMModelsGeneratorCore/Input/ObjcInterop/ObjcInteropType.swift:86-126 | the same below a well-formed wrapper: the `parentProperty` of every nested class or enum there lies in the wrapper's subtree and stores it |
| `ObjcInteropTree.StorerInSchema` | tools/rum-models-generator/Sources/RUMModelsGeneratorCore/Input/ObjcInterop/ObjcInteropType.swift:30-97 | the `parentProperty` of a nested class or enum of a well-formed schema is a wrapper of the schema that stores it (the at-least-one half) |
| `ObjcInteropTree.ExactlyOneStoringWrapper` | tools/rum-models-generator/Sources/RUMModelsGeneratorCore/Input/ObjcInterop/ObjcInteropType.swift:30-97 | a wrapper of a well-formed schema stores a given nested class or enum if and only if it is that node's `parentProperty`: exactly one wrapper of the schema stores it |
| `ObjcInteropTree.ClimbToClassTreeTop` | tools/rum-models-generator/Sources/RUMModelsGeneratorCore/Input/ObjcInterop/ObjcInteropType.swift:30-63 | following `parentProperty` then `owner` from any class of a subtree reaches the subtree's top class within its height |
| `ObjcInteropTree.ClassesClimbToRoot` | tools/rum-models-generator/Sources/RUMModelsGeneratorCore/Input/ObjcInterop/ObjcInteropType.swift:18-63 | following back-references from any class of a well-formed schema reaches the root class, where climbing stops |

## Left out

- The schema parser, the classifier that maps Swift types to node kinds, the builder of the tree and the code emitter are not part of this model. The model states no rule about which node kind a Swift type gets or in which order nodes are built.
- The Swift payload types are abstract: nothing about structs, properties, enums or primitives is modelled.
- ARC lifetimes and `unowned` references are not modelled. Back-references are plain references.
- The crash when an implicitly unwrapped slot is read before it is assigned is not modelled. It is the precondition `HasTransitiveType()` of `ObjcTransitiveType`.
- Subclass identity is a `const` tag (`referenced`, `EnumKind`, `WrapperKind`), not a Dafny subtype, because Dafny classes cannot inherit from classes.
- `ObjcInteropPropertyWrapperAccessingNestedStructsArray.objcNestedClass` is named `objcNestedArrayClass`. The merged wrapper class cannot hold two fields with one name.
- `private(set)` fields are `const`. Swift would let the class's own code reassign them, but no code in the source does.
- The well-formedness predicates cover ownership through transitive slots only. The node in `objcInteropType` and the elements of `NSArray` and `NSDictionary` carry no documented back-reference, so the predicates do not walk them.
- `OnlyOwnSlot()` holds as long as slots change only through the constructor and the setters. Dafny lets other code assign the fields directly, and the predicate is not a precondition anywhere.
- `ClassTree` does not forbid listing one wrapper twice in the same class's list. The source says nothing on this.
