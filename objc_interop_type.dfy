/** Payload types of the Swift schema that the interop schema bridges. They are
    defined by the Swift schema model, which is not part of this model: nothing
    is known about them here beyond their existence. */
module SwiftSchema {
  /** A Swift `struct` definition (`SwiftStruct`). */
  type SwiftStruct
  /** One stored property of a Swift `struct` (`SwiftStruct.Property`). */
  type SwiftProperty
  /** A Swift `enum` definition (`SwiftEnum`). */
  type SwiftEnum
  /** Any Swift type (`SwiftType`). */
  type SwiftType
  /** The Swift `String` primitive (`SwiftPrimitive<String>`). */
  type SwiftStringPrimitive
  /** A Swift primitive with no Objective-C counterpart (`SwiftPrimitiveNoObjcInteropType`). */
  type SwiftPrimitiveNoObjcInteropType
}

/** The Swift <-> Objective-C interoperability schema: the nodes the models
    generator builds before it emits the Objective-C bridging code.

    Every Swift class of the schema is a Dafny class. A Swift subclass that adds
    no state is a `const` tag on its superclass, set by the constructor. The
    protocols `ObjcInteropType` and `ObjcInteropClass` ("any node", "any
    `@objc class`") are datatypes holding a reference to one node. Fields that
    the source declares `let` or `private(set)` (and never assigns outside the
    initializer) are `const`; the source's `var` fields are `var`. */
module ObjcInteropType {
  import opened SwiftSchema

  datatype Option<+T> = None | Some(value: T)

  /** `ObjcInteropClass`: any `@objc class` which manages a Swift `struct`. */
  datatype InteropClass =
    | RootClassRef(root: ObjcInteropRootClass)
    | TransitiveClassRef(transitive: ObjcInteropTransitiveNestedClass)
    | NestedClassRef(nested: ObjcInteropNestedClass)
  {
    /** The referenced object itself. */
    function Object(): object
    {
      match this
      case RootClassRef(c) => c
      case TransitiveClassRef(c) => c
      case NestedClassRef(c) => c
    }

    /** The protocol's `bridgedSwiftStruct` getter. */
    function BridgedSwiftStruct(): (s: SwiftStruct)
      ensures RootClassRef? ==> s == root.bridgedSwiftStruct
      ensures TransitiveClassRef? ==> s == transitive.bridgedSwiftStruct
      ensures NestedClassRef? ==> s == nested.bridgedSwiftStruct
    {
      match this
      case RootClassRef(c) => c.bridgedSwiftStruct
      case TransitiveClassRef(c) => c.bridgedSwiftStruct
      case NestedClassRef(c) => c.bridgedSwiftStruct
    }

    /** The protocol's `objcPropertyWrappers` getter. */
    function ObjcPropertyWrappers(): (ws: seq<ObjcInteropPropertyWrapper>)
      reads Object()
      ensures RootClassRef? ==> ws == root.objcPropertyWrappers
      ensures TransitiveClassRef? ==> ws == transitive.objcPropertyWrappers
      ensures NestedClassRef? ==> ws == nested.objcPropertyWrappers
    {
      match this
      case RootClassRef(c) => c.objcPropertyWrappers
      case TransitiveClassRef(c) => c.objcPropertyWrappers
      case NestedClassRef(c) => c.objcPropertyWrappers
    }

    /** The wrapper in the parent class that stores this class: a root class
        has none, every nested class has exactly one. */
    function ParentProperty(): (p: Option<ObjcInteropPropertyWrapper>)
      ensures p.None? <==> RootClassRef?
      ensures TransitiveClassRef? ==> p == Some(transitive.parentProperty)
      ensures NestedClassRef? ==> p == Some(nested.parentProperty)
    {
      match this
      case RootClassRef(_) => None
      case TransitiveClassRef(c) => Some(c.parentProperty)
      case NestedClassRef(c) => Some(c.parentProperty)
    }

    /** The protocol's `objcPropertyWrappers` setter: replaces the wrapper
        list and changes nothing else. */
    method SetObjcPropertyWrappers(wrappers: seq<ObjcInteropPropertyWrapper>)
      modifies Object()
      ensures ObjcPropertyWrappers() == wrappers
    {
      match this
      case RootClassRef(c) => c.objcPropertyWrappers := wrappers;
      case TransitiveClassRef(c) => c.objcPropertyWrappers := wrappers;
      case NestedClassRef(c) => c.objcPropertyWrappers := wrappers;
    }
  }

  /** `ObjcInteropType`: any node of the schema. */
  datatype InteropType =
    | ClassNode(cls: InteropClass)
    | EnumNode(enumSchema: ObjcInteropEnum)
    | WrapperNode(wrapper: ObjcInteropPropertyWrapper)
    | NSNumberNode(nsNumber: ObjcInteropNSNumber)
    | NSStringNode(nsString: ObjcInteropNSString)
    | AnyNode(any: ObjcInteropAny)
    | NSArrayNode(nsArray: ObjcInteropNSArray)
    | NSDictionaryNode(nsDictionary: ObjcInteropNSDictionary)
  {
    /** The `parentProperty` back-reference of a nested class or an enum;
        None for every other kind of node. */
    function ParentProperty(): (p: Option<ObjcInteropPropertyWrapper>)
      ensures p.Some? <==> (ClassNode? && !cls.RootClassRef?) || EnumNode?
      ensures EnumNode? ==> p == Some(enumSchema.parentProperty)
    {
      match this
      case ClassNode(c) => c.ParentProperty()
      case EnumNode(e) => Some(e.parentProperty)
      case _ => None
    }
  }

  /** The root `@objc class`: it holds the mutable value of one Swift struct and
      has no parent. */
  class ObjcInteropRootClass {
    /** The struct whose value this class holds. */
    const bridgedSwiftStruct: SwiftStruct
    /** One wrapper per property of the struct that Objective-C sees. */
    var objcPropertyWrappers: seq<ObjcInteropPropertyWrapper>

    constructor (bridgedSwiftStruct: SwiftStruct)
      ensures this.bridgedSwiftStruct == bridgedSwiftStruct
      ensures objcPropertyWrappers == []
    {
      this.bridgedSwiftStruct := bridgedSwiftStruct;
      objcPropertyWrappers := [];
    }
  }

  /** A transitive `@objc class`: it gives access to a struct nested inside
      the struct of its parent class. With `referenced` set it is the subclass
      `ObjcInteropReferencedTransitiveClass`, used for a struct reached through
      a type reference; that subclass adds no state. */
  class ObjcInteropTransitiveNestedClass {
    /** Back-reference to the wrapper of the parent class whose slot holds this node. */
    const parentProperty: ObjcInteropPropertyWrapper
    /** The nested struct whose value this class gives access to. */
    const bridgedSwiftStruct: SwiftStruct
    /** True for `ObjcInteropReferencedTransitiveClass`. */
    const referenced: bool
    /** One wrapper per property of the struct that Objective-C sees. */
    var objcPropertyWrappers: seq<ObjcInteropPropertyWrapper>

    constructor (owner: ObjcInteropPropertyWrapper, bridgedSwiftStruct: SwiftStruct, referenced: bool)
      ensures parentProperty == owner
      ensures this.bridgedSwiftStruct == bridgedSwiftStruct
      ensures this.referenced == referenced
      ensures objcPropertyWrappers == []
    {
      parentProperty := owner;
      this.bridgedSwiftStruct := bridgedSwiftStruct;
      this.referenced := referenced;
      objcPropertyWrappers := [];
    }
  }

  /** A non-transitive `@objc class`: the element type of an array of structs
      nested inside the struct of its parent class. */
  class ObjcInteropNestedClass {
    /** Back-reference to the wrapper of the parent class whose slot holds this node. */
    const parentProperty: ObjcInteropPropertyWrapper
    /** The struct whose value this class holds. */
    const bridgedSwiftStruct: SwiftStruct
    /** One wrapper per property of the struct that Objective-C sees. */
    var objcPropertyWrappers: seq<ObjcInteropPropertyWrapper>

    constructor (owner: ObjcInteropPropertyWrapper, bridgedSwiftStruct: SwiftStruct)
      ensures parentProperty == owner
      ensures this.bridgedSwiftStruct == bridgedSwiftStruct
      ensures objcPropertyWrappers == []
    {
      parentProperty := owner;
      this.bridgedSwiftStruct := bridgedSwiftStruct;
      objcPropertyWrappers := [];
    }
  }

  /** Which `ObjcInteropEnum` class a node is: the class itself,
      `ObjcInteropReferencedEnum` or `ObjcInteropEnumArray`. */
  datatype EnumKind = PlainEnum | ReferencedEnum | EnumArray

  /** An `@objc enum` standing for the cases of one Swift enum. */
  class ObjcInteropEnum {
    /** Back-reference to the wrapper of the parent class whose slot holds this node. */
    const parentProperty: ObjcInteropPropertyWrapper
    /** The Swift enum whose cases this enum stands for. */
    const bridgedSwiftEnum: SwiftEnum
    /** The subclass this node belongs to; the subclasses add no state. */
    const kind: EnumKind

    constructor (owner: ObjcInteropPropertyWrapper, bridgedSwiftEnum: SwiftEnum, kind: EnumKind)
      ensures parentProperty == owner
      ensures this.bridgedSwiftEnum == bridgedSwiftEnum
      ensures this.kind == kind
    {
      parentProperty := owner;
      this.bridgedSwiftEnum := bridgedSwiftEnum;
      this.kind := kind;
    }
  }

  /** The type of the `objcNestedEnumsArray` slot: nothing yet, or an
      `ObjcInteropEnumArray`. */
  type ObjcInteropEnumArraySlot = e: ObjcInteropEnum? | e == null || e.kind == EnumArray

  /** Which property-wrapper class a node is: `ObjcInteropPropertyWrapper`
      itself, one of the four `ObjcInteropPropertyWrapperAccessing...` classes,
      or `ObjcInteropPropertyWrapperManagingSwiftStructProperty`. */
  datatype WrapperKind =
    | PlainProperty
    | NestedStruct
    | NestedEnum
    | NestedEnumsArray
    | NestedStructsArray
    | SwiftStructProperty
  {
    /** The kinds that conform to `ObjcInteropPropertyWrapperForTransitiveType`:
        all but the base wrapper and the struct-property wrapper. */
    predicate IsTransitive()
      ensures IsTransitive() <==> !(PlainProperty? || SwiftStructProperty?)
    {
      NestedStruct? || NestedEnum? || NestedEnumsArray? || NestedStructsArray?
    }
  }

  /** An `@objc` property standing for one property of the owner's struct.
      The slots filled after construction belong to the
      subclasses: `objcNestedClass` to `...AccessingNestedStruct`,
      `objcNestedEnum` to `...AccessingNestedEnum`, `objcNestedEnumsArray` to
      `...AccessingNestedEnumsArray`, `objcNestedArrayClass` (the source's
      second `objcNestedClass`) to `...AccessingNestedStructsArray` and
      `objcInteropType` to `...ManagingSwiftStructProperty`. A slot holding
      `null` / `None` is the source's implicitly unwrapped optional before it
      is assigned. */
  class ObjcInteropPropertyWrapper {
    /** Back-reference to the class whose wrapper list holds this wrapper. */
    const owner: InteropClass
    /** The property of the owner's struct that this wrapper stands for. */
    const bridgedSwiftProperty: SwiftProperty
    /** The subclass this node belongs to. */
    const kind: WrapperKind

    var objcNestedClass: ObjcInteropTransitiveNestedClass?
    var objcNestedEnum: ObjcInteropEnum?
    var objcNestedEnumsArray: ObjcInteropEnumArraySlot
    var objcNestedArrayClass: ObjcInteropNestedClass?
    var objcInteropType: Option<InteropType>

    constructor (owner: InteropClass, swiftProperty: SwiftProperty, kind: WrapperKind)
      ensures this.owner == owner
      ensures bridgedSwiftProperty == swiftProperty
      ensures this.kind == kind
      ensures objcNestedClass == null && objcNestedEnum == null && objcNestedEnumsArray == null
      ensures objcNestedArrayClass == null && objcInteropType == None
      ensures OnlyOwnSlot()
    {
      this.owner := owner;
      bridgedSwiftProperty := swiftProperty;
      this.kind := kind;
      objcNestedClass := null;
      objcNestedEnum := null;
      objcNestedEnumsArray := null;
      objcNestedArrayClass := null;
      objcInteropType := None;
    }

    /** Every slot that belongs to another wrapper subclass is empty: the state
        a Swift instance of the subclass `kind` stands for. */
    predicate OnlyOwnSlot()
      reads this
    {
      (kind != NestedStruct ==> objcNestedClass == null) &&
      (kind != NestedEnum ==> objcNestedEnum == null) &&
      (kind != NestedEnumsArray ==> objcNestedEnumsArray == null) &&
      (kind != NestedStructsArray ==> objcNestedArrayClass == null) &&
      (kind != SwiftStructProperty ==> objcInteropType == None)
    }

    /** The slot that `objcTransitiveType` reads has been assigned. */
    predicate HasTransitiveType()
      reads this
      requires kind.IsTransitive()
      ensures kind == NestedStruct ==> (HasTransitiveType() <==> objcNestedClass != null)
      ensures kind == NestedEnum ==> (HasTransitiveType() <==> objcNestedEnum != null)
      ensures kind == NestedEnumsArray ==> (HasTransitiveType() <==> objcNestedEnumsArray != null)
      ensures kind == NestedStructsArray ==> (HasTransitiveType() <==> objcNestedArrayClass != null)
    {
      match kind
      case NestedStruct => objcNestedClass != null
      case NestedEnum => objcNestedEnum != null
      case NestedEnumsArray => objcNestedEnumsArray != null
      case NestedStructsArray => objcNestedArrayClass != null
    }

    /** `objcTransitiveType`: the nested class or enum through which this
        wrapper gives access to the nested value, exactly as stored in the
        wrapper's slot. */
    function ObjcTransitiveType(): (t: InteropType)
      reads this
      requires kind.IsTransitive() && HasTransitiveType()
      ensures t.ClassNode? || t.EnumNode?
      ensures t.ClassNode? ==> !t.cls.RootClassRef?
      ensures kind == NestedStruct ==> t == ClassNode(TransitiveClassRef(objcNestedClass))
      ensures kind == NestedEnum ==> t == EnumNode(objcNestedEnum)
      ensures kind == NestedEnumsArray ==> t == EnumNode(objcNestedEnumsArray) && t.enumSchema.kind == EnumArray
      ensures kind == NestedStructsArray ==> t == ClassNode(NestedClassRef(objcNestedArrayClass))
    {
      match kind
      case NestedStruct => ClassNode(TransitiveClassRef(objcNestedClass))
      case NestedEnum => EnumNode(objcNestedEnum)
      case NestedEnumsArray => EnumNode(objcNestedEnumsArray)
      case NestedStructsArray => ClassNode(NestedClassRef(objcNestedArrayClass))
    }

    /** Assigns `objcNestedClass` of a `...AccessingNestedStruct` wrapper. */
    method SetObjcNestedClass(c: ObjcInteropTransitiveNestedClass?)
      requires kind == NestedStruct
      modifies this`objcNestedClass
      ensures objcNestedClass == c
      ensures OnlyOwnSlot() == old(OnlyOwnSlot())
      ensures c != null ==> HasTransitiveType() && ObjcTransitiveType() == ClassNode(TransitiveClassRef(c))
    {
      objcNestedClass := c;
    }

    /** Assigns `objcNestedEnum` of a `...AccessingNestedEnum` wrapper. */
    method SetObjcNestedEnum(e: ObjcInteropEnum?)
      requires kind == NestedEnum
      modifies this`objcNestedEnum
      ensures objcNestedEnum == e
      ensures OnlyOwnSlot() == old(OnlyOwnSlot())
      ensures e != null ==> HasTransitiveType() && ObjcTransitiveType() == EnumNode(e)
    {
      objcNestedEnum := e;
    }

    /** Assigns `objcNestedEnumsArray` of a `...AccessingNestedEnumsArray` wrapper. */
    method SetObjcNestedEnumsArray(e: ObjcInteropEnumArraySlot)
      requires kind == NestedEnumsArray
      modifies this`objcNestedEnumsArray
      ensures objcNestedEnumsArray == e
      ensures OnlyOwnSlot() == old(OnlyOwnSlot())
      ensures e != null ==> HasTransitiveType() && ObjcTransitiveType() == EnumNode(e)
    {
      objcNestedEnumsArray := e;
    }

    /** Assigns `objcNestedClass` of a `...AccessingNestedStructsArray` wrapper. */
    method SetObjcNestedArrayClass(c: ObjcInteropNestedClass?)
      requires kind == NestedStructsArray
      modifies this`objcNestedArrayClass
      ensures objcNestedArrayClass == c
      ensures OnlyOwnSlot() == old(OnlyOwnSlot())
      ensures c != null ==> HasTransitiveType() && ObjcTransitiveType() == ClassNode(NestedClassRef(c))
    {
      objcNestedArrayClass := c;
    }

    /** Assigns `objcInteropType` of a `...ManagingSwiftStructProperty` wrapper. */
    method SetObjcInteropType(t: Option<InteropType>)
      requires kind == SwiftStructProperty
      modifies this`objcInteropType
      ensures objcInteropType == t
      ensures OnlyOwnSlot() == old(OnlyOwnSlot())
    {
      objcInteropType := t;
    }
  }

  /** Schema of an `NSNumber` exposing a Swift numeric or boolean value. */
  class ObjcInteropNSNumber {
    const swiftType: SwiftType

    constructor (swiftType: SwiftType)
      ensures this.swiftType == swiftType
    {
      this.swiftType := swiftType;
    }
  }

  /** Schema of an `NSString` exposing a Swift `String`. */
  class ObjcInteropNSString {
    const swiftString: SwiftStringPrimitive

    constructor (swiftString: SwiftStringPrimitive)
      ensures this.swiftString == swiftString
    {
      this.swiftString := swiftString;
    }
  }

  /** Schema of an `Any` value exposing a Swift primitive with no Objective-C type. */
  class ObjcInteropAny {
    const swiftType: SwiftPrimitiveNoObjcInteropType

    constructor (swiftType: SwiftPrimitiveNoObjcInteropType)
      ensures this.swiftType == swiftType
    {
      this.swiftType := swiftType;
    }
  }

  /** Schema of an `NSArray` of elements of one schema. */
  class ObjcInteropNSArray {
    const element: InteropType

    constructor (element: InteropType)
      ensures this.element == element
    {
      this.element := element;
    }
  }

  /** Schema of an `NSDictionary` with keys and values of one schema each. */
  class ObjcInteropNSDictionary {
    const key: InteropType
    const value: InteropType

    constructor (key: InteropType, value: InteropType)
      ensures this.key == key
      ensures this.value == value
    {
      this.key := key;
      this.value := value;
    }
  }
}
