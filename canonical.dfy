/** The canonical schema tree both converters produce: attributes and
    nested blocks kept in sequences sorted by name. */
module Canonical {
  import opened Outcomes
  import opened CtyTypes
  import opened Values

  /** How a nested block repeats. */
  datatype NestingMode =
    | NestingInvalid
    | NestingSingle
    | NestingGroup
    | NestingList
    | NestingSet
    | NestingMap

  /** How a nested attribute object repeats. */
  datatype ObjectNesting = ObjectSingle | ObjectList | ObjectSet | ObjectMap

  /** The four cross-field constraint lists. */
  datatype Constraints = Constraints(
    conflictsWith: seq<string>,
    exactlyOneOf: seq<string>,
    atLeastOneOf: seq<string>,
    requiredWith: seq<string>)

  const NoConstraints: Constraints := Constraints([], [], [], [])

  /** An attribute's default: a host value as the legacy descriptor holds it
      (`NilHost` when there is none), or a framework plan value. */
  datatype DefaultValue = HostDefault(host: HostValue) | PlanDefault(plan: AttrValue)

  const NoDefault: DefaultValue := HostDefault(NilHost)

  /** The object of a nested attribute. */
  datatype SchemaObject = SchemaObject(attributes: seq<Attribute>, nesting: ObjectNesting)

  /** `typ` and `nestedType` are the source's two optional pointers; a
      nested attribute carries only the second. */
  datatype Attribute = Attribute(
    name: string,
    typ: Option<Type>,
    nestedType: Option<SchemaObject>,
    required: bool,
    optional: bool,
    computed: bool,
    forceNew: Option<bool>,
    default: DefaultValue,
    sensitive: bool,
    constraints: Constraints)

  datatype NestedBlock = NestedBlock(
    typeName: string,
    block: Block,
    nesting: NestingMode,
    required: Option<bool>,
    optional: Option<bool>,
    computed: Option<bool>,
    forceNew: Option<bool>,
    constraints: Constraints,
    minItems: int,
    maxItems: int)

  datatype Block = Block(attributes: seq<Attribute>, blockTypes: seq<NestedBlock>)

  const EmptyBlock: Block := Block([], [])

  datatype Schema = Schema(version: int, block: Block)

  datatype ProviderSchema = ProviderSchema(
    provider: Schema,
    resourceSchemas: map<string, Schema>,
    dataSourceSchemas: map<string, Schema>)

  /** The sort keys of the two lists of a block. */
  function AttributeName(a: Attribute): string { a.name }
  function BlockTypeName(b: NestedBlock): string { b.typeName }
}
