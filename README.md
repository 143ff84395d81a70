# tfpluginschema: a verified model of the schema converters

tfpluginschema turns the schema of a Terraform provider into one canonical
tree: a provider schema, resource and data-source schemas, each a block of
attributes and nested blocks. It reads that schema from two object models:

- the legacy plugin SDK, where a resource is a map from field name to a
  field descriptor (`internal/sdkv2/core_schema.go`). A nested block's
  element type is the object type its block implies
  (`internal/sdkv2/implied_type.go`).
- the plugin framework, where attributes, nested attributes and blocks are
  objects. There is one converter per schema package: provider, resource
  and data source (`internal/fw/attribute.go`, `block.go`, `schema.go`).
  Resource attribute defaults come from framework values, which are lowered
  to plain host values by `internal/fw/attr_value.go`.

The model has these modules:

- `Outcomes`: the error kinds and `Result`.
- `CtyTypes`: the type language: string, number, bool, list, set, map,
  object and the dynamic pseudo-type.
- `Values`: framework values and host values.
- `Canonical`: the output tree. A block holds its attributes and its
  nested blocks as sequences sorted by name, as the converters build them.
- `LegacySchema`: the legacy descriptors.
- `FrameworkSchema`: the framework schema objects.

Each converter comes in two parts:

- A specification function that says what the result is. Entries are taken
  in name order, and the result is a failure when any entry fails.
- An imperative method that walks the Go maps in an arbitrary order
  (`var k :| k in todo`), appends each converted entry, and then sorts the
  lists with an insertion sort (`Ordering.SortBy`).

Each method is proved to give the same outcome as its specification:
success or failure alike, and an equal value on success. A Go panic
becomes a `Failure` with its own error kind.

The three framework schema packages share one converter that takes a
`Variant` parameter. The per-package entry points are thin wrappers.
Lemmas show that the data-source variant is the provider variant, and that
neither ever produces a default.

## Model

| member | source | states |
|---|---|---|
| Sdkv2.FromSchemaMap | internal/sdkv2/core_schema.go:14-72 | Converting a descriptor map has the same outcome as `SchemaMapBlock`: every entry is converted, attributes are sorted by name, nested blocks by type name, and any failing entry fails the whole map. |
| Sdkv2.EmptyMapBlock | internal/sdkv2/core_schema.go:14-17 | An empty descriptor map gives the block with no attributes and no nested blocks. |
| Sdkv2.CollectFields | internal/sdkv2/core_schema.go:24-61 | After the loop, every key has been converted exactly once, into the attribute list or the block list, under its own name. A failure is reported only when the specification fails too. |
| Sdkv2.FromField | internal/sdkv2/core_schema.go:25-60 | The classification ladder has the same outcome as `FieldOf`: no element gives an attribute; a map of sub-resources gives a string-map attribute; then the configuration mode decides; in automatic mode, computed-only gives an attribute, a schema or value-type element gives an attribute, a sub-resource gives a block, and anything else is an error. |
| Sdkv2.AssembledBlock | internal/sdkv2/core_schema.go:63-71 | The collected lists, once sorted, are exactly the specification's block. |
| Sdkv2.FromSchemaAttribute | internal/sdkv2/core_schema.go:74-102 | Converting a descriptor to an attribute has the same outcome as `AttributeOf` and keeps the name. |
| Sdkv2.FromSchemaBlock | internal/sdkv2/core_schema.go:104-158 | The step-by-step item-bound adjustments give the same outcome as `NestedBlockOf`. A non-resource element or a type outside list/set/map is an error. |
| Sdkv2.FromSchemaType | internal/sdkv2/core_schema.go:160-196 | Type inference has the same outcome as `TypeOf`: primitives map directly, and collections wrap the element type (string when there is no element, the implied type for a sub-resource). An unsupported value type always fails with the invalid-schema-type error, and a collection with an element of an unexpected kind always fails with the invalid-element error. |
| Sdkv2.FromResource | internal/sdkv2/core_schema.go:198-204 | A resource schema keeps the schema version and holds the converted map. |
| Sdkv2.FromResourceMap | internal/sdkv2/core_schema.go:215-220 | Converting a map of resources gives one schema per name with the same key set, or fails when any resource fails. |
| Sdkv2.FromProvider | internal/sdkv2/core_schema.go:206-222 | The provider schema has version 0 and the provider's own block. Its resource and data-source schema maps have exactly the input key sets. |
| Sdkv2Properties.FieldNamed | internal/sdkv2/core_schema.go:24-61 | A converted entry is named by its map key. |
| Sdkv2Properties.MapEntriesListed | internal/sdkv2/core_schema.go:24-69 | A converted map lists every key exactly once, as an attribute or as a nested block. Each item is the conversion of its key's descriptor, both lists are strictly sorted, and their lengths add up to the map's size. |
| Sdkv2Properties.KeysPartition | internal/sdkv2/core_schema.go:24-61 | The attribute keys and the block keys partition the map's keys. |
| Sdkv2Properties.MapOfResourceIsStringMap | internal/sdkv2/core_schema.go:29-37 | A map whose element is a sub-resource is an attribute of type map(string), whatever its mode and contents. |
| Sdkv2Properties.BlockClassification | internal/sdkv2/core_schema.go:25-60 | An entry is a nested block if and only if its element is a sub-resource that converts, its type is list or set, and its mode is block, or automatic and not computed-only. The nesting follows the type, so a legacy block is never map-nested. |
| Sdkv2Properties.AttributeCopiesDescriptor | internal/sdkv2/core_schema.go:74-102 | An attribute has a type and no nested object. It copies computed, force-new, sensitive, default and the four constraint lists. It is required if and only if the descriptor is required and its default function is absent or returns (nil, no error). It is optional if and only if the descriptor is optional or was demoted. |
| Sdkv2Properties.BlockItemBounds | internal/sdkv2/core_schema.go:104-155 | The flags are kept as set values. Computed-only blocks get 0/0. Otherwise the maximum is kept, an optional block with a minimum gets 0, a required block without one gets 1, and any other minimum is kept. |
| Sdkv2Properties.ValueTypeElementExample | internal/sdkv2/core_schema_test.go:138-173 | A required list with a bare value-type element `Int` is an attribute of type list(number). |
| Sdkv2Properties.ComputedSubResourceExample | internal/sdkv2/core_schema_test.go:265-297 | A computed-only list of an empty sub-resource with item bounds is an attribute of type list(empty object). |
| Sdkv2Properties.TypeStatic | internal/sdkv2/core_schema.go:160-196 | No type the legacy converter infers contains the dynamic pseudo-type, including types implied by sub-resources. |
| ImpliedTypes.ImpliedType | internal/sdkv2/implied_type.go:10-54 | No block implies the empty object type; otherwise the two loops build exactly `ImpliedTypeOf`. |
| ImpliedTypes.NestedContribution | internal/sdkv2/implied_type.go:28-50 | Set nesting succeeds if and only if the child has no dynamic type. Invalid nesting fails. Single and group nesting give the child's type. List, set and map nesting wrap it in a list, set or map. Under list or map nesting, a child containing the dynamic type becomes the dynamic type itself. |
| ImpliedTypes.ImpliedTypeKeys | internal/sdkv2/implied_type.go:15-53 | The implied type is an object whose keys are exactly the attribute names and the nested-block names. |
| ImpliedTypes.ImpliedTypeOfAttributes | internal/sdkv2/implied_type.go:17-19 | Each attribute's name maps to that attribute's own type. |
| ImpliedTypes.ImpliedTypeOfBlocks | internal/sdkv2/implied_type.go:21-51 | Each nested block's name maps to what its nesting mode makes of its child's implied type. |
| ImpliedTypes.NameCollisionFails | internal/sdkv2/implied_type.go:21-24 | An attribute and a nested block with the same name make the implied type fail. |
| ImpliedTypes.DynamicInSetFails | internal/sdkv2/implied_type.go:37-41 | A set-nested block whose child contains the dynamic type makes the implied type fail. |
| ImpliedTypes.InvalidNestingFails | internal/sdkv2/implied_type.go:48-49 | A nested block with the invalid nesting mode makes the implied type fail. |
| ImpliedTypes.EmptyBlockImpliesEmptyObject | internal/sdkv2/implied_type.go:15-53 | The empty block implies the empty object type. |
| ImpliedTypes.ListNestedExample | internal/sdkv2/implied_type.go:31-36 | A list-nested block holding one string attribute implies list(object({bar = string})). |
| ImpliedTypes.ImpliedTypeStatic | internal/sdkv2/implied_type.go:28-47 | Parts without the dynamic type imply a type without it. |
| Ordering.SortBy | internal/sdkv2/core_schema.go:63-69 | Sorting items with distinct names gives a permutation (equal multisets) that is strictly sorted by name. |
| Ordering.SortedByIsCanonical | internal/fw/schema.go:44-66 | A strictly sorted list that names every key exactly once is determined by its key set. Map order therefore cannot change the sorted result. |
| Ordering.BelowTotal | internal/sdkv2/core_schema.go:63-69 | The name comparison orders any two distinct names one way or the other. |
| Ordering.BelowTransitive | internal/sdkv2/core_schema.go:63-69 | The name comparison is transitive. |
| Gathering.CollectStep | internal/fw/schema.go:24-32 | Appending the next successful conversion keeps the loop invariant: each converted entry is listed once, under its own name. |
| Gathering.GatheredSorted | internal/fw/schema.go:24-66 | Converting every entry in any order and then sorting gives exactly the name-ordered result. |
| Gathering.GatheredFails | internal/fw/schema.go:24-42 | One failing entry fails the whole gathering. |
| Gathering.GatheredContents | internal/fw/block.go:37-81 | A successful gathering lists one result per entry, under its own name, strictly sorted. |
| Framework.ObjectNestingOf | internal/fw/attribute.go:50-62 | Codes 1 to 4 select single, list, set and map object nesting. Every other code, including unknown (0), selects none. |
| Framework.BlockNestingOf | internal/fw/block.go:23-33 | Block codes use their own numbering: 1 selects list, 2 set and 3 single block nesting. Every other code selects none. There is no map nesting. |
| Framework.DefaultOf | internal/fw/attribute.go:105-204 | Outside resources there is no default. For a resource attribute of a listed kind, the default is the plan value when a provider is attached, and none otherwise. Any other kind fails, with or without a default. |
| Framework.AttributeOf | internal/fw/attribute.go:92-264 | No flag set is an error. The name and the four flags are copied. Exactly one of type and nested type is set, and a plain attribute keeps its extracted type. A resource attribute of an unlisted kind fails. When the flags and the default are valid, a missing type fails with the type-extraction error. |
| Framework.BlockOf | internal/fw/block.go:17-84 | An unknown nesting code is an error. The block is named by its key, its nesting follows its code, and it never sets required/optional/computed/force-new or item bounds. |
| Framework.ConvertAttribute | internal/fw/attribute.go:92-264 | Converting an attribute has the same outcome as `AttributeOf`. The errors that do not depend on map order are reported exactly: missing flags, an unhandled resource kind, and a failed type extraction. |
| Framework.ConvertNestedAttributes | internal/fw/attribute.go:238-258 | Converting a nested object's attributes in any order, then sorting them, gives the same outcome as the name-ordered specification. |
| Framework.ConvertBlock | internal/fw/block.go:17-84 | Converting a block has the same outcome as `BlockOf`. |
| Framework.ConvertBlockObject | internal/fw/block.go:35-81 | Converting a block's object has the same outcome as `BlockContentsOf`. |
| Framework.ConvertBlockAttributes | internal/fw/block.go:37-46 | The attribute loop followed by sorting gives the name-ordered attributes, or fails when one fails. |
| Framework.ConvertBlockTypes | internal/fw/block.go:48-57 | The block loop followed by sorting gives the name-ordered nested blocks, or fails when one fails. |
| Framework.ConvertSchema | internal/fw/schema.go:16-76 | Converting a schema has the same outcome as `SchemaOf` and keeps the version. |
| Framework.ProviderSchemaAttribute | internal/fw/attribute.go:20-90 | The provider attribute converter matches the specification, and nothing in its result carries a default. |
| Framework.ResourceSchemaAttribute | internal/fw/attribute.go:92-264 | The resource attribute converter matches the specification. Its default is the attached provider's plan value, or none. |
| Framework.DatasourceSchemaAttribute | internal/fw/attribute.go:266-336 | The data-source attribute converter gives the provider converter's outcome and no defaults. |
| Framework.ProviderBlock | internal/fw/block.go:17-84 | The provider block converter matches `BlockOf`, and its block holds no defaults. |
| Framework.ResourceBlock | internal/fw/block.go:86-153 | The resource block converter matches `BlockOf` for resources. |
| Framework.DatasourceBlock | internal/fw/block.go:155-222 | The data-source block converter gives the provider block converter's outcome. |
| Framework.ConvertProviderSchema | internal/fw/schema.go:16-76 | The provider schema converter matches `SchemaOf`, keeps the version and holds no defaults. |
| Framework.ConvertResourceSchema | internal/fw/schema.go:78-138 | The resource schema converter matches `SchemaOf` for resources and keeps the version. |
| Framework.ConvertDatasourceSchema | internal/fw/schema.go:140-200 | The data-source schema converter gives the provider schema converter's outcome, keeps the version and holds no defaults. |
| Framework.AttributeVariantsAgree | internal/fw/attribute.go:266-336 | The data-source attribute conversion equals the provider one on every input, at every depth. |
| Framework.BlockVariantsAgree | internal/fw/block.go:155-222 | The data-source block conversion equals the provider one. |
| Framework.ContentsVariantsAgree | internal/fw/schema.go:140-200 | The data-source block contents equal the provider ones. |
| Framework.AttributeHasNoDefaults | internal/fw/attribute.go:20-90 | Outside resources, no converted attribute has a default at any depth. |
| Framework.ContentsHaveNoDefaults | internal/fw/schema.go:16-76 | Outside resources, no attribute anywhere in a converted block has a default. |
| Framework.ContentsListed | internal/fw/block.go:37-81 | A converted object lists one attribute per source attribute and one block per source block. Each is the conversion of its entry, strictly sorted by name, with matching counts. |
| Framework.SchemaListsEveryEntry | internal/fw/schema.go:16-76 | A converted schema keeps the version and lists every top-level attribute and block, each converted and sorted by name. |
| Framework.NestedObjectListed | internal/fw/attribute.go:223-261 | A nested attribute's object has the nesting its code selects and lists one converted child per nested name, strictly sorted. |
| Framework.NestedFailureAborts | internal/fw/attribute.go:238-244 | A failing child makes its nested attribute fail. |
| Framework.ContentsFailureAborts | internal/fw/block.go:37-57 | A failing attribute or block makes the enclosing block fail. |
| Framework.SingleNestedExample | internal/fw/core_schema_test.go:420-432 | A required single-nested attribute holding one required string converts to a single-nested object holding that string attribute, with no type of its own. |
| AttrValueLowering.AttrValueToGo | internal/fw/attr_value.go:10-86 | Lowering a value has the same outcome as `Lowered`. Null gives nil, checked before unknown, which is an error. |
| AttrValueLowering.ElementsToGo | internal/fw/attr_value.go:33-62 | A list, set or tuple lowers element by element, in order, to a slice. The first failure aborts. |
| AttrValueLowering.EntriesToGo | internal/fw/attr_value.go:63-80 | An object or map lowers entry by entry to a map over the same keys. A failure aborts. |
| AttrValueLowering.LoweringSucceedsIffLowerable | internal/fw/attr_value.go:10-86 | Lowering succeeds if and only if no unknown value and no unhandled kind is reachable through known composites. |
| AttrValueLowering.LoweringKeepsShape | internal/fw/attr_value.go:33-80 | A lowered collection keeps its length, or its key set, and each item is the lowering of the matching element. |
| AttrValueLowering.ListOfObjectExample | internal/fw/attr_value_test.go:90-98 | A list holding the object {a = true} lowers to a slice holding the map {"a": true}. |

## Left out

- Legacy `DefaultFunc` returning an error: the code makes the attribute optional (`internal/sdkv2/core_schema.go:79`), and the model follows the code.
- `Framework.DefaultOf` stores the framework plan value itself as the default, as `internal/fw/attribute.go:110` does. It is not lowered to a host value, although the framework test expects host values.
- `Sdkv2.FromSchemaMap`, `Framework.ConvertSchema` and the other map loops report which error occurs when several entries fail, and that depends on Go's map order. The methods promise the same success or failure as their specification and the same value on success, but not the same error.
- `AttrValueLowering.AttrValueToGo`: for lists, the specification leaves open which failing element's error is reported. The method reports the first one.
- The nil-first branch of the framework sort comparators is not modelled. Converters never append a nil entry on success. Nil and empty slices are not distinguished.
- Extracting a framework attribute's type (Terraform type, then JSON, then cty type) is not modelled. Its result is the `terraformType` field, and `None` stands for a marshalling or unmarshalling error.
- Default providers and legacy default functions are not run. Their outcomes are recorded in the input.
- Float32, Float64 and big-float payloads are opaque values. No arithmetic is done on them.
- `internal/fw/core_schema.go` is not part of this model. It orchestrates over live provider callbacks and diagnostics.
- `tfpluginschema.go` is not part of this model. It only re-exports the converters.
- JSON tags and `omitempty` in `schema/schema.go` are not modelled.
- A configuration mode outside auto, attribute and block behaves as auto (`internal/sdkv2/core_schema.go:44`). It is represented by `ConfigModeAuto`.
- `ImpliedTypes.ImpliedType` works on the converters' sequence-based block rather than the map-based block of `schema/schema.go`, because `internal/sdkv2/core_schema.go:176` calls it on a converted block.
  - An attribute without a type is reported as `MissingType`. The Go code would dereference a nil type there.
  - When names repeat, attributes are folded in sequence order.
- Go panics (an invalid element, an invalid block type, a name collision, a dynamic type in a set, an invalid nesting mode) are modelled as `Failure` results, not process aborts.
- Path information in framework error messages is not modelled. Only the error kind is kept.
