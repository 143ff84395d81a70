/** The framework's schema objects as the converter reads them: attributes
    (possibly nesting an object of further attributes), blocks (nesting an
    object of attributes and blocks) and the top-level schema. The three
    schema packages (provider, resource, data source) share this shape; a
    resource attribute may in addition carry a default. */
module FrameworkSchema {
  import opened Outcomes
  import opened CtyTypes
  import opened Values

  /** The source's nesting codes are `uint8`. */
  type Uint8 = x: int | 0 <= x < 256

  /** Nesting codes of nested attributes (internal/fw/fwschema/types.go). */
  const NestingModeUnknown: Uint8 := 0
  const NestingModeSingle: Uint8 := 1
  const NestingModeList: Uint8 := 2
  const NestingModeSet: Uint8 := 3
  const NestingModeMap: Uint8 := 4

  /** Nesting codes of blocks; note that they are numbered differently. */
  const BlockNestingModeUnknown: Uint8 := 0
  const BlockNestingModeList: Uint8 := 1
  const BlockNestingModeSet: Uint8 := 2
  const BlockNestingModeSingle: Uint8 := 3

  /** Which schema package an object comes from. */
  datatype Variant = ProviderVariant | ResourceVariant | DatasourceVariant

  /** The concrete attribute type, as the resource converter's type switch
      distinguishes it; `OtherAttribute` is any type outside that list. */
  datatype AttributeKind =
    | BoolAttribute
    | Float32Attribute
    | Float64Attribute
    | Int32Attribute
    | Int64Attribute
    | NumberAttribute
    | StringAttribute
    | ListAttribute
    | MapAttribute
    | SetAttribute
    | SingleNestedAttribute
    | ListNestedAttribute
    | MapNestedAttribute
    | SetNestedAttribute
    | ObjectAttribute
    | DynamicAttribute
    | OtherAttribute

  /** A framework attribute.
      `terraformType` is the type obtained from the attribute's Terraform
      type through its JSON form, `None` when that fails.
      `default` is the plan value the attribute's default provider yields,
      `None` when no provider is attached (only resource attributes have one).
      `nested` is present exactly for attributes that nest an object. */
  datatype FwAttribute = FwAttribute(
    kind: AttributeKind,
    required: bool,
    optional: bool,
    computed: bool,
    sensitive: bool,
    terraformType: Option<Type>,
    default: Option<AttrValue>,
    nested: Option<FwNestedAttribute>)

  /** The nesting code and the object of a nested attribute. */
  datatype FwNestedAttribute = FwNestedAttribute(nestingMode: Uint8, nestedObject: FwAttributeObject)

  datatype FwAttributeObject = FwAttributeObject(attributes: map<string, FwAttribute>)

  /** A framework block: its nesting code and its object. */
  datatype FwBlock = FwBlock(nestingMode: Uint8, nestedObject: FwBlockObject)

  datatype FwBlockObject = FwBlockObject(attributes: map<string, FwAttribute>, blocks: map<string, FwBlock>)

  datatype FwSchema = FwSchema(version: int, attributes: map<string, FwAttribute>, blocks: map<string, FwBlock>)
}
