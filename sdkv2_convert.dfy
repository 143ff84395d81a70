/** The legacy converter (internal/sdkv2/core_schema.go): from the legacy
    SDK's map of field descriptors to the canonical schema tree. */
module Sdkv2 {
  import opened Outcomes
  import opened CtyTypes
  import opened Values
  import opened Canonical
  import opened Ordering
  import opened LegacySchema
  import opened ImpliedTypes

  /** A converted map entry: an attribute or a nested block. */
  datatype Field = AttrField(attr: Attribute) | BlockField(block: NestedBlock)

  function AsAttrField(r: Result<Attribute>): (f: Result<Field>)
    ensures f.Success? == r.Success? && (f.Success? ==> f.value == AttrField(r.value))
  {
    match r
    case Success(a) => Success(AttrField(a))
    case Failure(e) => Failure(e)
  }

  function AsBlockField(r: Result<NestedBlock>): (f: Result<Field>)
    ensures f.Success? == r.Success? && (f.Success? ==> f.value == BlockField(r.value))
  {
    match r
    case Success(b) => Success(BlockField(b))
    case Failure(e) => Failure(e)
  }

  /** The descriptor a map of sub-resources is converted as: the same
      descriptor with a string element. */
  function StringMapDescriptor(d: Descriptor): (s: Descriptor)
    ensures s.elem == ElemSchema(BareDescriptor(TypeString))
  {
    d.(elem := ElemSchema(BareDescriptor(TypeString)))
  }

  lemma StringMapBelow(d: Descriptor)
    requires d.elem.ElemResource?
    ensures Height(StringMapDescriptor(d)) < Height(d)
  {
    assert Height(StringMapDescriptor(d)) == 1;
  }

  /** Whether the default function turns a required descriptor optional:
      it exists and returns an error or a non-nil value. */
  predicate DefaultFuncDemotes(d: Descriptor)
  {
    d.required && d.defaultFunc.Some? &&
    (d.defaultFunc.value.failed || d.defaultFunc.value.value != NilHost)
  }

  /** How the entry `name` of a descriptor map is converted. */
  ghost function FieldOf(name: string, d: Descriptor): Result<Field>
    decreases Height(d), 5
  {
    if d.elem.NoElem? then AsAttrField(AttributeOf(name, d))
    else if d.typ == TypeMap && d.elem.ElemResource? then
      StringMapBelow(d);
      AsAttrField(AttributeOf(name, StringMapDescriptor(d)))
    else match d.configMode
      case ConfigModeAttr => AsAttrField(AttributeOf(name, d))
      case ConfigModeBlock => AsBlockField(NestedBlockOf(name, d))
      case ConfigModeAuto =>
        if d.computed && !d.optional then AsAttrField(AttributeOf(name, d))
        else match d.elem
          case ElemSchema(_) => AsAttrField(AttributeOf(name, d))
          case ElemValueType(_) => AsAttrField(AttributeOf(name, d))
          case ElemResource(_) => AsBlockField(NestedBlockOf(name, d))
          case _ => Failure(InvalidElem)
  }

  /** The attribute a descriptor becomes. */
  ghost function AttributeOf(name: string, d: Descriptor): Result<Attribute>
    decreases Height(d), 4
  {
    match TypeOf(d)
    case Failure(e) => Failure(e)
    case Success(t) =>
      var demoted := DefaultFuncDemotes(d);
      Success(Attribute(name, Some(t), None, d.required && !demoted, d.optional || demoted,
        d.computed, Some(d.forceNew), HostDefault(d.default), d.sensitive, d.constraints))
  }

  /** The collection nesting a block descriptor's type selects. */
  function BlockNesting(t: ValueType): Option<NestingMode>
  {
    match t
    case TypeList => Some(NestingList)
    case TypeSet => Some(NestingSet)
    case TypeMap => Some(NestingMap)
    case _ => None
  }

  /** The item bounds of a block descriptor: computed-only blocks have none,
      optional blocks have no minimum, and a required block without a
      minimum needs at least one item. */
  function MinItemsOf(d: Descriptor): int
  {
    if d.computed && !d.optional then 0
    else if d.optional && d.minItems > 0 then 0
    else if d.required && d.minItems == 0 then 1
    else d.minItems
  }

  function MaxItemsOf(d: Descriptor): int
  {
    if d.computed && !d.optional then 0 else d.maxItems
  }

  /** The nested block a descriptor with a sub-resource becomes. */
  ghost function NestedBlockOf(name: string, d: Descriptor): Result<NestedBlock>
    decreases Height(d), 4
  {
    if !d.elem.ElemResource? then Failure(InvalidElem)
    else
      ResourceBelow(d);
      match SchemaMapBlock(d.elem.resource.schema)
      case Failure(e) => Failure(e)
      case Success(blk) =>
        match BlockNesting(d.typ)
        case None => Failure(InvalidBlockType)
        case Some(mode) =>
          Success(NestedBlock(name, blk, mode, Some(d.required), Some(d.optional), Some(d.computed),
            Some(d.forceNew), d.constraints, MinItemsOf(d), MaxItemsOf(d)))
  }

  /** A bare value type in the element slot is converted through a
      descriptor of the same height; this rank orders the two. */
  function ValueTypeRank(d: Descriptor): nat
  {
    if d.elem.ElemValueType? then 2 else 0
  }

  /** The type of a descriptor: primitives directly, collections around the
      element's type, where no element means string and a sub-resource
      means the type its converted block implies. */
  ghost function TypeOf(d: Descriptor): Result<Type>
    decreases Height(d), ValueTypeRank(d) + 1
  {
    match d.typ
    case TypeString => Success(String)
    case TypeBool => Success(Bool)
    case TypeInt => Success(Number)
    case TypeFloat => Success(Number)
    case TypeList => Collection(d)
    case TypeSet => Collection(d)
    case TypeMap => Collection(d)
    case _ => Failure(InvalidSchemaType)
  }

  ghost function Collection(d: Descriptor): Result<Type>
    requires d.typ == TypeList || d.typ == TypeSet || d.typ == TypeMap
    decreases Height(d), ValueTypeRank(d)
  {
    var elemType :=
      (match d.elem
      case ElemSchema(s) => TypeOf(s)
      case ElemValueType(t) => TypeOf(BareDescriptor(t))
      case ElemResource(r) =>
        ResourceBelow(d);
        var blk := SchemaMapBlock(r.schema);
        (if blk.Failure? then Failure(blk.error) else ImpliedTypeOf(blk.value))
      case NoElem => Success(String)
      case ElemOther => Failure(InvalidElem));
    match elemType
    case Failure(e) => Failure(e)
    case Success(et) =>
      if d.typ == TypeList then Success(List(et))
      else if d.typ == TypeSet then Success(Set(et))
      else Success(Map(et))
  }

  /** The names of the entries of `m` that become attributes, and those
      that become nested blocks, assuming every entry converts. */
  ghost function AttributeKeys(m: map<string, Descriptor>): set<string>
    requires forall k :: k in m ==> FieldOf(k, m[k]).Success?
    decreases MapHeight(m), 0
  {
    set k | k in m && FieldOf(k, m[k]).value.AttrField?
  }

  ghost function BlockKeys(m: map<string, Descriptor>): set<string>
    requires forall k :: k in m ==> FieldOf(k, m[k]).Success?
    decreases MapHeight(m), 0
  {
    set k | k in m && FieldOf(k, m[k]).value.BlockField?
  }

  /** The converted attributes of `m` in name order. */
  ghost function SortedAttributes(m: map<string, Descriptor>): (r: seq<Attribute>)
    requires forall k :: k in m ==> FieldOf(k, m[k]).Success?
    ensures |r| == |SortedKeys(AttributeKeys(m))|
    ensures forall i :: 0 <= i < |r| ==> (SortedKeys(AttributeKeys(m))[i] in m &&
      AttrField(r[i]) == FieldOf(SortedKeys(AttributeKeys(m))[i], m[SortedKeys(AttributeKeys(m))[i]]).value)
    decreases MapHeight(m), 1
  {
    var an := SortedKeys(AttributeKeys(m));
    assert forall i :: 0 <= i < |an| ==> an[i] in AttributeKeys(m);
    seq(|an|, i requires 0 <= i < |an| => FieldOf(an[i], m[an[i]]).value.attr)
  }

  /** The converted nested blocks of `m` in type-name order. */
  ghost function SortedBlockTypes(m: map<string, Descriptor>): (r: seq<NestedBlock>)
    requires forall k :: k in m ==> FieldOf(k, m[k]).Success?
    ensures |r| == |SortedKeys(BlockKeys(m))|
    ensures forall i :: 0 <= i < |r| ==> (SortedKeys(BlockKeys(m))[i] in m &&
      BlockField(r[i]) == FieldOf(SortedKeys(BlockKeys(m))[i], m[SortedKeys(BlockKeys(m))[i]]).value)
    decreases MapHeight(m), 1
  {
    var bn := SortedKeys(BlockKeys(m));
    assert forall i :: 0 <= i < |bn| ==> bn[i] in BlockKeys(m);
    seq(|bn|, i requires 0 <= i < |bn| => FieldOf(bn[i], m[bn[i]]).value.block)
  }

  /** The block a descriptor map becomes: every entry converted, the
      attributes sorted by name, the nested blocks sorted by type name; a
      failure when some entry fails. */
  ghost function SchemaMapBlock(m: map<string, Descriptor>): Result<Block>
    decreases MapHeight(m), 2
  {
    if exists k :: k in m && FieldOf(k, m[k]).Failure? then
      var k :| k in m && FieldOf(k, m[k]).Failure?;
      Failure(FieldOf(k, m[k]).error)
    else
      Success(Block(SortedAttributes(m), SortedBlockTypes(m)))
  }

  ghost function ResourceSchemaOf(res: Resource): Result<Schema>
  {
    match SchemaMapBlock(res.schema)
    case Failure(e) => Failure(e)
    case Success(b) => Success(Schema(res.schemaVersion, b))
  }

  /** One schema per named resource; a failure when some resource fails. */
  ghost function ResourceSchemasOf(rs: map<string, Resource>): Result<map<string, Schema>>
  {
    if exists k :: k in rs && ResourceSchemaOf(rs[k]).Failure? then
      var k :| k in rs && ResourceSchemaOf(rs[k]).Failure?;
      Failure(ResourceSchemaOf(rs[k]).error)
    else
      Success(map k | k in rs :: ResourceSchemaOf(rs[k]).value)
  }

  /** The provider's schema (version 0) and one schema per resource and
      per data source, under the same names. */
  ghost function ProviderSchemaOf(p: Provider): Result<ProviderSchema>
  {
    match SchemaMapBlock(p.schema)
    case Failure(e) => Failure(e)
    case Success(b) =>
      match ResourceSchemasOf(p.resourcesMap)
      case Failure(e) => Failure(e)
      case Success(resources) =>
        match ResourceSchemasOf(p.dataSourcesMap)
        case Failure(e) => Failure(e)
        case Success(dataSources) => Success(ProviderSchema(Schema(0, b), resources, dataSources))
  }

  /** Convert a descriptor map: each entry, in whatever order the map
      yields them, becomes an attribute or a nested block; both lists are
      then sorted by name. */
  method FromSchemaMap(m: map<string, Descriptor>) returns (r: Result<Block>)
    ensures SameOutcome(r, SchemaMapBlock(m))
    ensures m == map[] ==> r == Success(EmptyBlock)
    decreases MapHeight(m), 3
  {
    if |m| == 0 {
      EmptyMapBlock(m);
      return Success(EmptyBlock);
    }
    var collected := CollectFields(m);
    if collected.Failure? {
      return Failure(collected.error);
    }
    var (attributes, blockTypes) := collected.value;
    var sortedAttributes := SortBy(attributes, AttributeName);
    var sortedBlockTypes := SortBy(blockTypes, BlockTypeName);
    r := Success(Block(sortedAttributes, sortedBlockTypes));
    SameElements(attributes, sortedAttributes);
    SameElements(blockTypes, sortedBlockTypes);
    AssembledBlock(m, attributes, blockTypes, sortedAttributes, sortedBlockTypes);
  }

  /** The empty map converts to the block with no attributes and no nested
      blocks. */
  lemma EmptyMapBlock(m: map<string, Descriptor>)
    requires |m| == 0
    ensures SchemaMapBlock(m) == Success(EmptyBlock)
  {
    assert m.Keys == {};
    assert AttributeKeys(m) == {} && BlockKeys(m) == {};
  }

  /** The conversion of every entry of `m`, under its name. */
  ghost function FieldOutcomes(m: map<string, Descriptor>): (fields: map<string, Result<Field>>)
    ensures fields.Keys == m.Keys
    ensures forall k :: k in m ==> fields[k] == FieldOf(k, m[k])
    decreases MapHeight(m), 0
  {
    map k | k in m :: FieldOf(k, m[k])
  }

  /** Whether `attributes` and `blockTypes` hold exactly the converted
      entries named in `done`, once each. */
  ghost predicate Collected(fields: map<string, Result<Field>>, done: set<string>,
    attributes: seq<Attribute>, blockTypes: seq<NestedBlock>)
  {
    done <= fields.Keys &&
    (forall k :: k in done ==> fields[k].Success?) &&
    (forall a :: a in attributes ==> a.name in done && fields[a.name] == Success(AttrField(a))) &&
    (forall b :: b in blockTypes ==> b.typeName in done && fields[b.typeName] == Success(BlockField(b))) &&
    (forall k :: k in done && fields[k].value.AttrField? ==> exists a :: a in attributes && a.name == k) &&
    (forall k :: k in done && fields[k].value.BlockField? ==> exists b :: b in blockTypes && b.typeName == k) &&
    DistinctKeys(attributes, AttributeName) &&
    DistinctKeys(blockTypes, BlockTypeName)
  }

  /** The loop over the entries of a descriptor map: each entry, in
      whatever order the map yields them, is appended to the attributes or
      to the nested blocks; the first entry that fails ends the loop. */
  method CollectFields(m: map<string, Descriptor>) returns (r: Result<(seq<Attribute>, seq<NestedBlock>)>)
    ensures r.Failure? ==> SchemaMapBlock(m).Failure?
    ensures r.Success? ==> Collected(FieldOutcomes(m), m.Keys, r.value.0, r.value.1)
    decreases MapHeight(m), 2
  {
    ghost var fields := FieldOutcomes(m);
    var attributes: seq<Attribute> := [];
    var blockTypes: seq<NestedBlock> := [];
    var todo := m.Keys;
    while todo != {}
      invariant todo <= m.Keys
      invariant Collected(fields, m.Keys - todo, attributes, blockTypes)
      decreases todo
    {
      var name :| name in todo;
      var field := FromField(name, m[name]);
      if field.Failure? {
        FieldFails(m, name);
        return Failure(field.error);
      }
      assert fields[name] == field;
      match field.value {
        case AttrField(a) =>
          attributes := CollectAttribute(fields, m.Keys - todo, attributes, blockTypes, name, a);
        case BlockField(b) =>
          blockTypes := CollectBlockType(fields, m.Keys - todo, attributes, blockTypes, name, b);
      }
      assert m.Keys - (todo - {name}) == (m.Keys - todo) + {name};
      todo := todo - {name};
    }
    assert m.Keys - todo == m.Keys;
    return Success((attributes, blockTypes));
  }

  /** One step of the loop for an entry that became an attribute. */
  method CollectAttribute(ghost fields: map<string, Result<Field>>, ghost done: set<string>,
    attributes: seq<Attribute>, blockTypes: seq<NestedBlock>, name: string, a: Attribute)
    returns (attributes': seq<Attribute>)
    requires Collected(fields, done, attributes, blockTypes)
    requires name in fields && name !in done && fields[name] == Success(AttrField(a)) && a.name == name
    ensures Collected(fields, done + {name}, attributes', blockTypes)
  {
    forall x | x in attributes ensures x.name != name { }
    attributes' := attributes + [a];
    forall k | k in done + {name} && fields[k].value.AttrField?
      ensures exists x :: x in attributes' && x.name == k
    {
      if k == name {
        assert attributes'[|attributes|] == a;
      } else {
        var x :| x in attributes && x.name == k;
        assert x in attributes';
      }
    }
  }

  /** One step of the loop for an entry that became a nested block. */
  method CollectBlockType(ghost fields: map<string, Result<Field>>, ghost done: set<string>,
    attributes: seq<Attribute>, blockTypes: seq<NestedBlock>, name: string, b: NestedBlock)
    returns (blockTypes': seq<NestedBlock>)
    requires Collected(fields, done, attributes, blockTypes)
    requires name in fields && name !in done && fields[name] == Success(BlockField(b)) && b.typeName == name
    ensures Collected(fields, done + {name}, attributes, blockTypes')
  {
    forall x | x in blockTypes ensures x.typeName != name { }
    blockTypes' := blockTypes + [b];
    forall k | k in done + {name} && fields[k].value.BlockField?
      ensures exists x :: x in blockTypes' && x.typeName == k
    {
      if k == name {
        assert blockTypes'[|blockTypes|] == b;
      } else {
        var x :| x in blockTypes && x.typeName == k;
        assert x in blockTypes';
      }
    }
  }

  /** Convert one entry of a descriptor map: plain descriptors and maps of
      sub-resources become attributes, the configuration mode or else the
      element decides between an attribute and a nested block. */
  method FromField(name: string, ps: Descriptor) returns (field: Result<Field>)
    ensures SameOutcome(field, FieldOf(name, ps))
    ensures field.Success? && field.value.AttrField? ==> field.value.attr.name == name
    ensures field.Success? && field.value.BlockField? ==> field.value.block.typeName == name
    decreases Height(ps), 5
  {
    if ps.elem.NoElem? {
      var a := FromSchemaAttribute(name, ps);
      field := AsAttrField(a);
    } else if ps.typ == TypeMap && ps.elem.ElemResource? {
      var sch := StringMapDescriptor(ps);
      StringMapBelow(ps);
      var a := FromSchemaAttribute(name, sch);
      field := AsAttrField(a);
    } else {
      match ps.configMode {
        case ConfigModeAttr =>
          var a := FromSchemaAttribute(name, ps);
          field := AsAttrField(a);
        case ConfigModeBlock =>
          var b := FromSchemaBlock(name, ps);
          field := AsBlockField(b);
        case ConfigModeAuto =>
          if ps.computed && !ps.optional {
            var a := FromSchemaAttribute(name, ps);
            field := AsAttrField(a);
          } else {
            match ps.elem {
              case ElemSchema(_) =>
                var a := FromSchemaAttribute(name, ps);
                field := AsAttrField(a);
              case ElemValueType(_) =>
                var a := FromSchemaAttribute(name, ps);
                field := AsAttrField(a);
              case ElemResource(_) =>
                var b := FromSchemaBlock(name, ps);
                field := AsBlockField(b);
              case ElemOther =>
                field := Failure(InvalidElem);
            }
          }
      }
    }
  }

  lemma FieldFails(m: map<string, Descriptor>, k: string)
    requires k in m && FieldOf(k, m[k]).Failure?
    ensures SchemaMapBlock(m).Failure?
  {
  }

  /** A block assembled from converted entries, one per entry and each
      list sorted by name, is the block the map converts to. */
  lemma AssembledBlock(m: map<string, Descriptor>, attributes: seq<Attribute>, blockTypes: seq<NestedBlock>,
    sortedAttributes: seq<Attribute>, sortedBlockTypes: seq<NestedBlock>)
    requires Collected(FieldOutcomes(m), m.Keys, attributes, blockTypes)
    requires forall x :: x in sortedAttributes <==> x in attributes
    requires forall x :: x in sortedBlockTypes <==> x in blockTypes
    requires StrictlySortedBy(sortedAttributes, AttributeName)
    requires StrictlySortedBy(sortedBlockTypes, BlockTypeName)
    ensures SchemaMapBlock(m) == Success(Block(sortedAttributes, sortedBlockTypes))
  {
    AssembledAttributes(m, sortedAttributes);
    AssembledBlockTypes(m, sortedBlockTypes);
    AllFieldsConvert(m);
  }

  lemma AllFieldsConvert(m: map<string, Descriptor>)
    requires forall k :: k in m ==> FieldOf(k, m[k]).Success?
    ensures SchemaMapBlock(m) == Success(Block(SortedAttributes(m), SortedBlockTypes(m)))
  {
  }

  lemma AssembledAttributes(m: map<string, Descriptor>, attributes: seq<Attribute>)
    requires forall k :: k in m ==> FieldOf(k, m[k]).Success?
    requires forall a :: a in attributes ==> a.name in m && FieldOf(a.name, m[a.name]) == Success(AttrField(a))
    requires forall k :: k in m && FieldOf(k, m[k]).value.AttrField? ==> exists a :: a in attributes && a.name == k
    requires StrictlySortedBy(attributes, AttributeName)
    ensures attributes == SortedAttributes(m)
  {
    SortedByIsCanonical(attributes, AttributeName, AttributeKeys(m));
    var sa := SortedAttributes(m);
    forall i | 0 <= i < |attributes| ensures attributes[i] == sa[i] {
      assert attributes[i] in attributes;
    }
  }

  lemma AssembledBlockTypes(m: map<string, Descriptor>, blockTypes: seq<NestedBlock>)
    requires forall k :: k in m ==> FieldOf(k, m[k]).Success?
    requires forall b :: b in blockTypes ==> b.typeName in m && FieldOf(b.typeName, m[b.typeName]) == Success(BlockField(b))
    requires forall k :: k in m && FieldOf(k, m[k]).value.BlockField? ==> exists b :: b in blockTypes && b.typeName == k
    requires StrictlySortedBy(blockTypes, BlockTypeName)
    ensures blockTypes == SortedBlockTypes(m)
  {
    SortedByIsCanonical(blockTypes, BlockTypeName, BlockKeys(m));
    var sb := SortedBlockTypes(m);
    forall i | 0 <= i < |blockTypes| ensures blockTypes[i] == sb[i] {
      assert blockTypes[i] in blockTypes;
    }
  }

  /** Convert a descriptor to an attribute. A required descriptor whose
      default function yields a value or an error becomes optional. */
  method FromSchemaAttribute(name: string, ps: Descriptor) returns (r: Result<Attribute>)
    ensures SameOutcome(r, AttributeOf(name, ps))
    ensures r.Success? ==> r.value.name == name
    decreases Height(ps), 4
  {
    var reqd := ps.required;
    var opt := ps.optional;
    if reqd && ps.defaultFunc.Some? {
      var outcome := ps.defaultFunc.value;
      if outcome.failed || outcome.value != NilHost {
        reqd := false;
        opt := true;
      }
    }
    var typ := FromSchemaType(ps);
    if typ.Failure? {
      return Failure(typ.error);
    }
    return Success(Attribute(name, Some(typ.value), None, reqd, opt, ps.computed, Some(ps.forceNew),
      HostDefault(ps.default), ps.sensitive, ps.constraints));
  }

  /** Convert a descriptor whose element is a sub-resource to a nested
      block, adjusting the item bounds one rule after another. */
  method FromSchemaBlock(name: string, ps: Descriptor) returns (r: Result<NestedBlock>)
    ensures SameOutcome(r, NestedBlockOf(name, ps))
    ensures r.Success? ==> r.value.typeName == name
    decreases Height(ps), 4
  {
    var ret := NestedBlock(name, EmptyBlock, NestingInvalid, Some(ps.required), Some(ps.optional),
      Some(ps.computed), Some(ps.forceNew), ps.constraints, 0, 0);
    if !ps.elem.ElemResource? {
      return Failure(InvalidElem);
    }
    ResourceBelow(ps);
    var nested := FromResource(ps.elem.resource);
    if nested.Failure? {
      return Failure(nested.error);
    }
    ret := ret.(block := nested.value.block);
    match ps.typ {
      case TypeList => ret := ret.(nesting := NestingList);
      case TypeSet => ret := ret.(nesting := NestingSet);
      case TypeMap => ret := ret.(nesting := NestingMap);
      case _ => return Failure(InvalidBlockType);
    }
    ret := ret.(minItems := ps.minItems, maxItems := ps.maxItems);
    if ps.required && ps.minItems == 0 {
      ret := ret.(minItems := 1);
    }
    if ps.optional && ps.minItems > 0 {
      ret := ret.(minItems := 0);
    }
    if ps.computed && !ps.optional {
      ret := ret.(minItems := 0, maxItems := 0);
    }
    return Success(ret);
  }

  /** The type of a descriptor. */
  method FromSchemaType(ps: Descriptor) returns (r: Result<Type>)
    ensures SameOutcome(r, TypeOf(ps))
    ensures !(ps.typ in {TypeString, TypeBool, TypeInt, TypeFloat, TypeList, TypeSet, TypeMap}) ==>
      r == Failure(InvalidSchemaType)
    ensures ps.typ in {TypeList, TypeSet, TypeMap} && ps.elem.ElemOther? ==> r == Failure(InvalidElem)
    decreases Height(ps), ValueTypeRank(ps) + 1
  {
    match ps.typ {
      case TypeString => return Success(String);
      case TypeBool => return Success(Bool);
      case TypeInt => return Success(Number);
      case TypeFloat => return Success(Number);
      case TypeList =>
      case TypeSet =>
      case TypeMap =>
      case _ => return Failure(InvalidSchemaType);
    }
    var elemType: Type;
    match ps.elem {
      case ElemSchema(s) =>
        var e := FromSchemaType(s);
        if e.Failure? {
          return Failure(e.error);
        }
        elemType := e.value;
      case ElemValueType(t) =>
        var e := FromSchemaType(BareDescriptor(t));
        if e.Failure? {
          return Failure(e.error);
        }
        elemType := e.value;
      case ElemResource(res) =>
        ResourceBelow(ps);
        var nested := FromResource(res);
        if nested.Failure? {
          return Failure(nested.error);
        }
        var e := ImpliedType(Some(nested.value.block));
        if e.Failure? {
          return Failure(e.error);
        }
        elemType := e.value;
      case NoElem =>
        elemType := String;
      case ElemOther =>
        return Failure(InvalidElem);
    }
    match ps.typ {
      case TypeList => return Success(List(elemType));
      case TypeSet => return Success(Set(elemType));
      case TypeMap => return Success(Map(elemType));
    }
  }

  /** Convert a resource: its schema version and its converted map. */
  method FromResource(res: Resource) returns (r: Result<Schema>)
    ensures SameOutcome(r, ResourceSchemaOf(res))
    ensures r.Success? ==> r.value.version == res.schemaVersion
    decreases MapHeight(res.schema), 4
  {
    var block := FromSchemaMap(res.schema);
    if block.Failure? {
      return Failure(block.error);
    }
    return Success(Schema(res.schemaVersion, block.value));
  }

  /** Convert every resource of a map under its name: the loop the
      provider conversion runs over its resources and its data sources. */
  method FromResourceMap(rs: map<string, Resource>) returns (r: Result<map<string, Schema>>)
    ensures SameOutcome(r, ResourceSchemasOf(rs))
  {
    var schemas: map<string, Schema> := map[];
    var todo := rs.Keys;
    while todo != {}
      invariant todo <= rs.Keys
      invariant schemas.Keys == rs.Keys - todo
      invariant forall k :: k in schemas ==> ResourceSchemaOf(rs[k]) == Success(schemas[k])
      decreases todo
    {
      var name :| name in todo;
      var s := FromResource(rs[name]);
      if s.Failure? {
        ResourceFails(rs, name);
        return Failure(s.error);
      }
      schemas := schemas[name := s.value];
      todo := todo - {name};
    }
    ResourcesConverted(rs, schemas);
    return Success(schemas);
  }

  lemma ResourceFails(rs: map<string, Resource>, k: string)
    requires k in rs && ResourceSchemaOf(rs[k]).Failure?
    ensures ResourceSchemasOf(rs).Failure?
  {
  }

  lemma ResourcesConverted(rs: map<string, Resource>, schemas: map<string, Schema>)
    requires schemas.Keys == rs.Keys
    requires forall k :: k in rs ==> ResourceSchemaOf(rs[k]) == Success(schemas[k])
    ensures ResourceSchemasOf(rs) == Success(schemas)
  {
    assert schemas == map k | k in rs :: ResourceSchemaOf(rs[k]).value;
  }

  /** Convert a provider: its own schema (version 0), then every resource
      and every data source under its name. */
  method FromProvider(p: Provider) returns (r: Result<ProviderSchema>)
    ensures SameOutcome(r, ProviderSchemaOf(p))
    ensures r.Success? ==> r.value.provider.version == 0
    ensures r.Success? ==> r.value.resourceSchemas.Keys == p.resourcesMap.Keys
    ensures r.Success? ==> r.value.dataSourceSchemas.Keys == p.dataSourcesMap.Keys
  {
    var block := FromSchemaMap(p.schema);
    if block.Failure? {
      return Failure(block.error);
    }
    var resourceSchemas := FromResourceMap(p.resourcesMap);
    if resourceSchemas.Failure? {
      return Failure(resourceSchemas.error);
    }
    var dataSourceSchemas := FromResourceMap(p.dataSourcesMap);
    if dataSourceSchemas.Failure? {
      return Failure(dataSourceSchemas.error);
    }
    return Success(ProviderSchema(Schema(0, block.value), resourceSchemas.value, dataSourceSchemas.value));
  }
}
