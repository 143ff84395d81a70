/** The framework converter (internal/fw/attribute.go, block.go, schema.go):
    from framework schema objects to the canonical schema tree. The source
    repeats each converter once per schema package; here each is written
    once with a `Variant` parameter, and the named per-package entry points
    are thin wrappers. */
module Framework {
  import opened Outcomes
  import opened CtyTypes
  import opened Values
  import opened Canonical
  import opened Ordering
  import opened Gathering
  import opened FrameworkSchema

  /** The object nesting a nested attribute's code selects; unknown codes,
      including `NestingModeUnknown`, select none. */
  function ObjectNestingOf(code: Uint8): (r: Option<ObjectNesting>)
    ensures r.Some? <==> NestingModeSingle <= code <= NestingModeMap
    ensures code == NestingModeSingle ==> r == Some(ObjectSingle)
    ensures code == NestingModeList ==> r == Some(ObjectList)
    ensures code == NestingModeSet ==> r == Some(ObjectSet)
    ensures code == NestingModeMap ==> r == Some(ObjectMap)
  {
    if code == NestingModeSingle then Some(ObjectSingle)
    else if code == NestingModeList then Some(ObjectList)
    else if code == NestingModeSet then Some(ObjectSet)
    else if code == NestingModeMap then Some(ObjectMap)
    else None
  }

  /** The block nesting a block's code selects: list, set or single only;
      there is no map nesting for framework blocks. */
  function BlockNestingOf(code: Uint8): (r: Option<NestingMode>)
    ensures r.Some? <==> BlockNestingModeList <= code <= BlockNestingModeSingle
    ensures r.Some? ==> r.value in {NestingList, NestingSet, NestingSingle}
    ensures code == BlockNestingModeList ==> r == Some(NestingList)
    ensures code == BlockNestingModeSet ==> r == Some(NestingSet)
    ensures code == BlockNestingModeSingle ==> r == Some(NestingSingle)
  {
    if code == BlockNestingModeList then Some(NestingList)
    else if code == BlockNestingModeSet then Some(NestingSet)
    else if code == BlockNestingModeSingle then Some(NestingSingle)
    else None
  }

  /** The default an attribute carries. Only resource attributes have one:
      every listed kind takes its provider's plan value when a provider is
      attached, and a kind outside the list is an error whether or not a
      default is attached. */
  function DefaultOf(v: Variant, a: FwAttribute): (r: Result<DefaultValue>)
    ensures v != ResourceVariant ==> r == Success(NoDefault)
    ensures v == ResourceVariant ==> (r.Failure? <==> a.kind == OtherAttribute)
    ensures v == ResourceVariant && r.Failure? ==> r.error == UnhandledDefaultType
    ensures v == ResourceVariant && r.Success? ==>
      r.value == if a.default.Some? then PlanDefault(a.default.value) else NoDefault
  {
    if v != ResourceVariant then Success(NoDefault)
    else if a.kind == OtherAttribute then Failure(UnhandledDefaultType)
    else if a.default.Some? then Success(PlanDefault(a.default.value))
    else Success(NoDefault)
  }

  /** The attribute a framework attribute becomes. */
  ghost function AttributeOf(v: Variant, name: string, a: FwAttribute): (r: Result<Attribute>)
    ensures !(a.required || a.optional || a.computed) ==> r == Failure(MissingRequiredOptionalComputed)
    ensures r.Success? ==> (r.value.name == name && r.value.required == a.required &&
      r.value.optional == a.optional && r.value.computed == a.computed && r.value.sensitive == a.sensitive)
    ensures r.Success? ==> r.value.forceNew.None? && r.value.constraints == NoConstraints
    ensures r.Success? ==> (r.value.typ.Some? <==> a.nested.None?) && (r.value.nestedType.Some? <==> a.nested.Some?)
    ensures r.Success? && a.nested.None? ==> r.value.typ == a.terraformType
    ensures r.Success? ==> DefaultOf(v, a) == Success(r.value.default)
    ensures v == ResourceVariant && (a.required || a.optional || a.computed) && a.kind == OtherAttribute ==>
      r == Failure(UnhandledDefaultType)
    ensures (a.required || a.optional || a.computed) && DefaultOf(v, a).Success? && a.terraformType.None? ==>
      r == Failure(TypeExtractionFailed)
    decreases a, 0
  {
    if !(a.required || a.optional || a.computed) then Failure(MissingRequiredOptionalComputed)
    else match DefaultOf(v, a)
      case Failure(e) => Failure(e)
      case Success(d) =>
        if a.terraformType.None? then Failure(TypeExtractionFailed)
        else
          var plain := Attribute(name, a.terraformType, None, a.required, a.optional, a.computed, None, d,
            a.sensitive, NoConstraints);
          if a.nested.None? then Success(plain)
          else match ObjectNestingOf(a.nested.value.nestingMode)
            case None => Failure(UnrecognizedNestingMode)
            case Some(mode) =>
              match NestedAttributesOf(v, a.nested.value.nestedObject)
              case Failure(e) => Failure(e)
              case Success(attributes) =>
                Success(plain.(typ := None, nestedType := Some(SchemaObject(attributes, mode))))
  }

  /** The conversions of the attributes of a nested attribute's object,
      under their names. */
  ghost function NestedAttributeOutcomes(v: Variant, o: FwAttributeObject): map<string, Result<Attribute>>
    decreases o, 0
  {
    map k | k in o.attributes :: AttributeOf(v, k, o.attributes[k])
  }

  ghost function NestedAttributesOf(v: Variant, o: FwAttributeObject): Result<seq<Attribute>>
    decreases o, 1
  {
    Gathered(NestedAttributeOutcomes(v, o))
  }

  /** The nested block a framework block becomes: no flags and no item
      bounds, whatever the package. */
  ghost function BlockOf(v: Variant, name: string, b: FwBlock): (r: Result<NestedBlock>)
    ensures BlockNestingOf(b.nestingMode).None? ==> r == Failure(UnrecognizedNestingMode)
    ensures r.Success? ==> r.value.typeName == name && Some(r.value.nesting) == BlockNestingOf(b.nestingMode)
    ensures r.Success? ==> (r.value.required.None? && r.value.optional.None? && r.value.computed.None? &&
      r.value.forceNew.None? && r.value.minItems == 0 && r.value.maxItems == 0)
    decreases b, 0
  {
    match BlockNestingOf(b.nestingMode)
    case None => Failure(UnrecognizedNestingMode)
    case Some(mode) =>
      match BlockContentsOf(v, b.nestedObject)
      case Failure(e) => Failure(e)
      case Success(blk) => Success(NestedBlock(name, blk, mode, None, None, None, None, NoConstraints, 0, 0))
  }

  ghost function BlockAttributeOutcomes(v: Variant, o: FwBlockObject): map<string, Result<Attribute>>
    decreases o, 0
  {
    map k | k in o.attributes :: AttributeOf(v, k, o.attributes[k])
  }

  ghost function BlockTypeOutcomes(v: Variant, o: FwBlockObject): map<string, Result<NestedBlock>>
    decreases o, 0
  {
    map k | k in o.blocks :: BlockOf(v, k, o.blocks[k])
  }

  /** The block an object of attributes and blocks becomes: both converted
      and each sorted by name. */
  ghost function BlockContentsOf(v: Variant, o: FwBlockObject): Result<Block>
    decreases o, 1
  {
    match Gathered(BlockAttributeOutcomes(v, o))
    case Failure(e) => Failure(e)
    case Success(attributes) =>
      match Gathered(BlockTypeOutcomes(v, o))
      case Failure(e) => Failure(e)
      case Success(blockTypes) => Success(Block(attributes, blockTypes))
  }

  /** The schema a framework schema becomes. */
  ghost function SchemaOf(v: Variant, s: FwSchema): Result<Schema>
  {
    match BlockContentsOf(v, FwBlockObject(s.attributes, s.blocks))
    case Failure(e) => Failure(e)
    case Success(blk) => Success(Schema(s.version, blk))
  }

  /** Convert an attribute: flags first, then (for resources) the default,
      then the type; a nested attribute then has its object converted, and
      its type cleared. */
  method ConvertAttribute(v: Variant, name: string, a: FwAttribute) returns (r: Result<Attribute>)
    ensures SameOutcome(r, AttributeOf(v, name, a))
    ensures !(a.required || a.optional || a.computed) ==> r == Failure(MissingRequiredOptionalComputed)
    ensures v == ResourceVariant && (a.required || a.optional || a.computed) && a.kind == OtherAttribute ==>
      r == Failure(UnhandledDefaultType)
    ensures (a.required || a.optional || a.computed) && DefaultOf(v, a).Success? && a.terraformType.None? ==>
      r == Failure(TypeExtractionFailed)
    decreases a, 0
  {
    if !a.required && !a.optional && !a.computed {
      return Failure(MissingRequiredOptionalComputed);
    }
    var attribute := Attribute(name, None, None, a.required, a.optional, a.computed, None, NoDefault,
      a.sensitive, NoConstraints);
    var default := DefaultOf(v, a);
    if default.Failure? {
      return Failure(default.error);
    }
    attribute := attribute.(default := default.value);
    if a.terraformType.None? {
      return Failure(TypeExtractionFailed);
    }
    attribute := attribute.(typ := a.terraformType);
    if a.nested.None? {
      return Success(attribute);
    }
    var nesting := ObjectNestingOf(a.nested.value.nestingMode);
    if nesting.None? {
      return Failure(UnrecognizedNestingMode);
    }
    var attributes := ConvertNestedAttributes(v, a.nested.value.nestedObject);
    if attributes.Failure? {
      return Failure(attributes.error);
    }
    attribute := attribute.(nestedType := Some(SchemaObject(attributes.value, nesting.value)));
    attribute := attribute.(typ := None);
    return Success(attribute);
  }

  /** Convert every attribute of a nested attribute's object, in whatever
      order the map yields them, then sort them by name. */
  method ConvertNestedAttributes(v: Variant, o: FwAttributeObject) returns (r: Result<seq<Attribute>>)
    ensures SameOutcome(r, NestedAttributesOf(v, o))
    decreases o, 1
  {
    ghost var outcomes := NestedAttributeOutcomes(v, o);
    var attributes: seq<Attribute> := [];
    var todo := o.attributes.Keys;
    assert outcomes.Keys == todo;
    CollectedInitially(outcomes, AttributeName);
    while todo != {}
      invariant todo <= o.attributes.Keys
      invariant Collected(outcomes, o.attributes.Keys - todo, attributes, AttributeName)
      decreases todo
    {
      var name :| name in todo;
      var attribute := ConvertAttribute(v, name, o.attributes[name]);
      if attribute.Failure? {
        GatheredFails(outcomes, name);
        return Failure(attribute.error);
      }
      CollectStep(outcomes, o.attributes.Keys - todo, attributes, AttributeName, name, attribute.value);
      attributes := attributes + [attribute.value];
      assert o.attributes.Keys - (todo - {name}) == (o.attributes.Keys - todo) + {name};
      todo := todo - {name};
    }
    assert o.attributes.Keys - todo == outcomes.Keys;
    var sorted := SortBy(attributes, AttributeName);
    SameElements(attributes, sorted);
    GatheredSorted(outcomes, attributes, sorted, AttributeName);
    return Success(sorted);
  }

  /** Convert a block: its nesting code, then its object. */
  method ConvertBlock(v: Variant, name: string, b: FwBlock) returns (r: Result<NestedBlock>)
    ensures SameOutcome(r, BlockOf(v, name, b))
    decreases b, 0
  {
    var nesting := BlockNestingOf(b.nestingMode);
    if nesting.None? {
      return Failure(UnrecognizedNestingMode);
    }
    var block := ConvertBlockObject(v, b.nestedObject);
    if block.Failure? {
      return Failure(block.error);
    }
    return Success(NestedBlock(name, block.value, nesting.value, None, None, None, None, NoConstraints, 0, 0));
  }

  /** Convert the attributes, then the blocks, of an object; each list is
      sorted by name. */
  method ConvertBlockObject(v: Variant, o: FwBlockObject) returns (r: Result<Block>)
    ensures SameOutcome(r, BlockContentsOf(v, o))
    decreases o, 2
  {
    var attributes := ConvertBlockAttributes(v, o);
    if attributes.Failure? {
      return Failure(attributes.error);
    }
    var blockTypes := ConvertBlockTypes(v, o);
    if blockTypes.Failure? {
      return Failure(blockTypes.error);
    }
    return Success(Block(attributes.value, blockTypes.value));
  }

  method ConvertBlockAttributes(v: Variant, o: FwBlockObject) returns (r: Result<seq<Attribute>>)
    ensures SameOutcome(r, Gathered(BlockAttributeOutcomes(v, o)))
    decreases o, 1
  {
    ghost var outcomes := BlockAttributeOutcomes(v, o);
    var attributes: seq<Attribute> := [];
    var todo := o.attributes.Keys;
    assert outcomes.Keys == todo;
    CollectedInitially(outcomes, AttributeName);
    while todo != {}
      invariant todo <= o.attributes.Keys
      invariant Collected(outcomes, o.attributes.Keys - todo, attributes, AttributeName)
      decreases todo
    {
      var name :| name in todo;
      var attribute := ConvertAttribute(v, name, o.attributes[name]);
      if attribute.Failure? {
        GatheredFails(outcomes, name);
        return Failure(attribute.error);
      }
      CollectStep(outcomes, o.attributes.Keys - todo, attributes, AttributeName, name, attribute.value);
      attributes := attributes + [attribute.value];
      assert o.attributes.Keys - (todo - {name}) == (o.attributes.Keys - todo) + {name};
      todo := todo - {name};
    }
    assert o.attributes.Keys - todo == outcomes.Keys;
    var sorted := SortBy(attributes, AttributeName);
    SameElements(attributes, sorted);
    GatheredSorted(outcomes, attributes, sorted, AttributeName);
    return Success(sorted);
  }

  method ConvertBlockTypes(v: Variant, o: FwBlockObject) returns (r: Result<seq<NestedBlock>>)
    ensures SameOutcome(r, Gathered(BlockTypeOutcomes(v, o)))
    decreases o, 1
  {
    ghost var outcomes := BlockTypeOutcomes(v, o);
    var blockTypes: seq<NestedBlock> := [];
    var todo := o.blocks.Keys;
    assert outcomes.Keys == todo;
    CollectedInitially(outcomes, BlockTypeName);
    while todo != {}
      invariant todo <= o.blocks.Keys
      invariant Collected(outcomes, o.blocks.Keys - todo, blockTypes, BlockTypeName)
      decreases todo
    {
      var name :| name in todo;
      var block := ConvertBlock(v, name, o.blocks[name]);
      if block.Failure? {
        GatheredFails(outcomes, name);
        return Failure(block.error);
      }
      CollectStep(outcomes, o.blocks.Keys - todo, blockTypes, BlockTypeName, name, block.value);
      blockTypes := blockTypes + [block.value];
      assert o.blocks.Keys - (todo - {name}) == (o.blocks.Keys - todo) + {name};
      todo := todo - {name};
    }
    assert o.blocks.Keys - todo == outcomes.Keys;
    var sorted := SortBy(blockTypes, BlockTypeName);
    SameElements(blockTypes, sorted);
    GatheredSorted(outcomes, blockTypes, sorted, BlockTypeName);
    return Success(sorted);
  }

  /** Convert a schema: its version, and its attributes and blocks as the
      contents of its block. */
  method ConvertSchema(v: Variant, s: FwSchema) returns (r: Result<Schema>)
    ensures SameOutcome(r, SchemaOf(v, s))
    ensures r.Success? ==> r.value.version == s.version
  {
    var block := ConvertBlockObject(v, FwBlockObject(s.attributes, s.blocks));
    if block.Failure? {
      return Failure(block.error);
    }
    return Success(Schema(s.version, block.value));
  }

  /** The per-package entry points. */
  method ProviderSchemaAttribute(name: string, a: FwAttribute) returns (r: Result<Attribute>)
    ensures SameOutcome(r, AttributeOf(ProviderVariant, name, a))
    ensures r.Success? ==> DefaultFree(r.value)
  {
    r := ConvertAttribute(ProviderVariant, name, a);
    if r.Success? {
      AttributeHasNoDefaults(ProviderVariant, name, a);
    }
  }

  method ResourceSchemaAttribute(name: string, a: FwAttribute) returns (r: Result<Attribute>)
    ensures SameOutcome(r, AttributeOf(ResourceVariant, name, a))
    ensures r.Success? ==> r.value.default == if a.default.Some? then PlanDefault(a.default.value) else NoDefault
  {
    r := ConvertAttribute(ResourceVariant, name, a);
  }

  method DatasourceSchemaAttribute(name: string, a: FwAttribute) returns (r: Result<Attribute>)
    ensures SameOutcome(r, AttributeOf(ProviderVariant, name, a))
    ensures r.Success? ==> DefaultFree(r.value)
  {
    r := ConvertAttribute(DatasourceVariant, name, a);
    AttributeVariantsAgree(name, a);
    if r.Success? {
      AttributeHasNoDefaults(DatasourceVariant, name, a);
    }
  }

  method ProviderBlock(name: string, b: FwBlock) returns (r: Result<NestedBlock>)
    ensures SameOutcome(r, BlockOf(ProviderVariant, name, b))
    ensures r.Success? ==> DefaultFreeBlock(r.value.block)
  {
    r := ConvertBlock(ProviderVariant, name, b);
    if r.Success? {
      BlockHasNoDefaults(ProviderVariant, name, b);
    }
  }

  method ResourceBlock(name: string, b: FwBlock) returns (r: Result<NestedBlock>)
    ensures SameOutcome(r, BlockOf(ResourceVariant, name, b))
  {
    r := ConvertBlock(ResourceVariant, name, b);
  }

  method DatasourceBlock(name: string, b: FwBlock) returns (r: Result<NestedBlock>)
    ensures SameOutcome(r, BlockOf(ProviderVariant, name, b))
    ensures r.Success? ==> DefaultFreeBlock(r.value.block)
  {
    r := ConvertBlock(DatasourceVariant, name, b);
    BlockVariantsAgree(name, b);
    if r.Success? {
      BlockHasNoDefaults(DatasourceVariant, name, b);
    }
  }

  method ConvertProviderSchema(s: FwSchema) returns (r: Result<Schema>)
    ensures SameOutcome(r, SchemaOf(ProviderVariant, s))
    ensures r.Success? ==> r.value.version == s.version && DefaultFreeBlock(r.value.block)
  {
    r := ConvertSchema(ProviderVariant, s);
    if r.Success? {
      ContentsHaveNoDefaults(ProviderVariant, FwBlockObject(s.attributes, s.blocks));
    }
  }

  method ConvertResourceSchema(s: FwSchema) returns (r: Result<Schema>)
    ensures SameOutcome(r, SchemaOf(ResourceVariant, s))
    ensures r.Success? ==> r.value.version == s.version
  {
    r := ConvertSchema(ResourceVariant, s);
  }

  method ConvertDatasourceSchema(s: FwSchema) returns (r: Result<Schema>)
    ensures SameOutcome(r, SchemaOf(ProviderVariant, s))
    ensures r.Success? ==> r.value.version == s.version && DefaultFreeBlock(r.value.block)
  {
    r := ConvertSchema(DatasourceVariant, s);
    ContentsVariantsAgree(FwBlockObject(s.attributes, s.blocks));
    if r.Success? {
      ContentsHaveNoDefaults(DatasourceVariant, FwBlockObject(s.attributes, s.blocks));
    }
  }

  /** The data-source converter is the provider converter: neither package
      has defaults, and nothing else depends on the package. */
  lemma {:induction false} AttributeVariantsAgree(name: string, a: FwAttribute)
    ensures AttributeOf(ProviderVariant, name, a) == AttributeOf(DatasourceVariant, name, a)
    decreases a, 1
  {
    if a.nested.Some? {
      NestedVariantsAgree(a.nested.value.nestedObject);
    }
  }

  lemma {:induction false} NestedVariantsAgree(o: FwAttributeObject)
    ensures NestedAttributesOf(ProviderVariant, o) == NestedAttributesOf(DatasourceVariant, o)
    decreases o, 2
  {
    forall k | k in o.attributes
      ensures AttributeOf(ProviderVariant, k, o.attributes[k]) == AttributeOf(DatasourceVariant, k, o.attributes[k])
    {
      AttributeVariantsAgree(k, o.attributes[k]);
    }
    assert NestedAttributeOutcomes(ProviderVariant, o) == NestedAttributeOutcomes(DatasourceVariant, o);
  }

  lemma {:induction false} BlockVariantsAgree(name: string, b: FwBlock)
    ensures BlockOf(ProviderVariant, name, b) == BlockOf(DatasourceVariant, name, b)
    decreases b, 1
  {
    ContentsVariantsAgree(b.nestedObject);
  }

  lemma {:induction false} ContentsVariantsAgree(o: FwBlockObject)
    ensures BlockContentsOf(ProviderVariant, o) == BlockContentsOf(DatasourceVariant, o)
    decreases o, 2
  {
    forall k | k in o.attributes
      ensures AttributeOf(ProviderVariant, k, o.attributes[k]) == AttributeOf(DatasourceVariant, k, o.attributes[k])
    {
      AttributeVariantsAgree(k, o.attributes[k]);
    }
    forall k | k in o.blocks
      ensures BlockOf(ProviderVariant, k, o.blocks[k]) == BlockOf(DatasourceVariant, k, o.blocks[k])
    {
      BlockVariantsAgree(k, o.blocks[k]);
    }
    assert BlockAttributeOutcomes(ProviderVariant, o) == BlockAttributeOutcomes(DatasourceVariant, o);
    assert BlockTypeOutcomes(ProviderVariant, o) == BlockTypeOutcomes(DatasourceVariant, o);
  }

  /** No attribute anywhere in the tree carries a default. */
  ghost predicate DefaultFree(a: Attribute)
    decreases a
  {
    a.default == NoDefault &&
    (a.nestedType.Some? ==> forall x :: x in a.nestedType.value.attributes ==> DefaultFree(x))
  }

  ghost predicate DefaultFreeBlock(b: Block)
    decreases b
  {
    (forall x :: x in b.attributes ==> DefaultFree(x)) &&
    (forall nb :: nb in b.blockTypes ==> DefaultFreeBlock(nb.block))
  }

  /** Outside the resource package no converted attribute, at any depth,
      has a default. */
  lemma {:induction false} AttributeHasNoDefaults(v: Variant, name: string, a: FwAttribute)
    requires v != ResourceVariant
    requires AttributeOf(v, name, a).Success?
    ensures DefaultFree(AttributeOf(v, name, a).value)
    decreases a, 1
  {
    if a.nested.Some? {
      NestedHaveNoDefaults(v, a.nested.value.nestedObject);
    }
  }

  lemma {:induction false} NestedHaveNoDefaults(v: Variant, o: FwAttributeObject)
    requires v != ResourceVariant
    requires NestedAttributesOf(v, o).Success?
    ensures forall x :: x in NestedAttributesOf(v, o).value ==> DefaultFree(x)
    decreases o, 2
  {
    var outcomes := NestedAttributeOutcomes(v, o);
    GatheredContents(outcomes, AttributeName);
    forall x | x in NestedAttributesOf(v, o).value ensures DefaultFree(x) {
      AttributeHasNoDefaults(v, x.name, o.attributes[x.name]);
    }
  }

  lemma {:induction false} BlockHasNoDefaults(v: Variant, name: string, b: FwBlock)
    requires v != ResourceVariant
    requires BlockOf(v, name, b).Success?
    ensures DefaultFreeBlock(BlockOf(v, name, b).value.block)
    decreases b, 1
  {
    ContentsHaveNoDefaults(v, b.nestedObject);
  }

  lemma {:induction false} ContentsHaveNoDefaults(v: Variant, o: FwBlockObject)
    requires v != ResourceVariant
    requires BlockContentsOf(v, o).Success?
    ensures DefaultFreeBlock(BlockContentsOf(v, o).value)
    decreases o, 2
  {
    var attributeOutcomes := BlockAttributeOutcomes(v, o);
    var blockOutcomes := BlockTypeOutcomes(v, o);
    GatheredContents(attributeOutcomes, AttributeName);
    GatheredContents(blockOutcomes, BlockTypeName);
    var blk := BlockContentsOf(v, o).value;
    forall x | x in blk.attributes ensures DefaultFree(x) {
      AttributeHasNoDefaults(v, x.name, o.attributes[x.name]);
    }
    forall nb | nb in blk.blockTypes ensures DefaultFreeBlock(nb.block) {
      BlockHasNoDefaults(v, nb.typeName, o.blocks[nb.typeName]);
    }
  }

  /** A converted object lists its attributes, and its blocks, strictly
      sorted by name, one per entry of the source maps and each the
      conversion of the entry under its name. */
  lemma ContentsListed(v: Variant, o: FwBlockObject)
    requires BlockContentsOf(v, o).Success?
    ensures StrictlySortedBy(BlockContentsOf(v, o).value.attributes, AttributeName)
    ensures StrictlySortedBy(BlockContentsOf(v, o).value.blockTypes, BlockTypeName)
    ensures forall x :: x in BlockContentsOf(v, o).value.attributes ==>
      x.name in o.attributes && AttributeOf(v, x.name, o.attributes[x.name]) == Success(x)
    ensures forall k :: k in o.attributes ==> exists x :: x in BlockContentsOf(v, o).value.attributes && x.name == k
    ensures forall nb :: nb in BlockContentsOf(v, o).value.blockTypes ==>
      nb.typeName in o.blocks && BlockOf(v, nb.typeName, o.blocks[nb.typeName]) == Success(nb)
    ensures forall k :: k in o.blocks ==> exists nb :: nb in BlockContentsOf(v, o).value.blockTypes && nb.typeName == k
    ensures |BlockContentsOf(v, o).value.attributes| == |o.attributes|
    ensures |BlockContentsOf(v, o).value.blockTypes| == |o.blocks|
  {
    AttributesListed(v, o);
    BlockTypesListed(v, o);
  }

  lemma AttributesListed(v: Variant, o: FwBlockObject)
    requires Gathered(BlockAttributeOutcomes(v, o)).Success?
    ensures StrictlySortedBy(Gathered(BlockAttributeOutcomes(v, o)).value, AttributeName)
    ensures forall x :: x in Gathered(BlockAttributeOutcomes(v, o)).value ==>
      x.name in o.attributes && AttributeOf(v, x.name, o.attributes[x.name]) == Success(x)
    ensures forall k :: k in o.attributes ==> exists x :: x in Gathered(BlockAttributeOutcomes(v, o)).value && x.name == k
    ensures |Gathered(BlockAttributeOutcomes(v, o)).value| == |o.attributes|
  {
    var outcomes := BlockAttributeOutcomes(v, o);
    assert outcomes.Keys == o.attributes.Keys;
    GatheredContents(outcomes, AttributeName);
  }

  lemma BlockTypesListed(v: Variant, o: FwBlockObject)
    requires Gathered(BlockTypeOutcomes(v, o)).Success?
    ensures StrictlySortedBy(Gathered(BlockTypeOutcomes(v, o)).value, BlockTypeName)
    ensures forall nb :: nb in Gathered(BlockTypeOutcomes(v, o)).value ==>
      nb.typeName in o.blocks && BlockOf(v, nb.typeName, o.blocks[nb.typeName]) == Success(nb)
    ensures forall k :: k in o.blocks ==> exists nb :: nb in Gathered(BlockTypeOutcomes(v, o)).value && nb.typeName == k
    ensures |Gathered(BlockTypeOutcomes(v, o)).value| == |o.blocks|
  {
    var outcomes := BlockTypeOutcomes(v, o);
    assert outcomes.Keys == o.blocks.Keys;
    GatheredContents(outcomes, BlockTypeName);
  }

  /** A converted schema keeps the version and lists every top-level
      attribute and block, sorted by name. */
  lemma SchemaListsEveryEntry(v: Variant, s: FwSchema)
    requires SchemaOf(v, s).Success?
    ensures SchemaOf(v, s).value.version == s.version
    ensures StrictlySortedBy(SchemaOf(v, s).value.block.attributes, AttributeName)
    ensures StrictlySortedBy(SchemaOf(v, s).value.block.blockTypes, BlockTypeName)
    ensures forall x :: x in SchemaOf(v, s).value.block.attributes ==>
      x.name in s.attributes && AttributeOf(v, x.name, s.attributes[x.name]) == Success(x)
    ensures forall k :: k in s.attributes ==> exists x :: x in SchemaOf(v, s).value.block.attributes && x.name == k
    ensures forall nb :: nb in SchemaOf(v, s).value.block.blockTypes ==>
      nb.typeName in s.blocks && BlockOf(v, nb.typeName, s.blocks[nb.typeName]) == Success(nb)
    ensures forall k :: k in s.blocks ==> exists nb :: nb in SchemaOf(v, s).value.block.blockTypes && nb.typeName == k
  {
    ContentsListed(v, FwBlockObject(s.attributes, s.blocks));
  }

  /** A converted nested attribute holds its object's attributes, sorted by
      name, one per entry, under the nesting its code selects. */
  lemma NestedObjectListed(v: Variant, name: string, a: FwAttribute)
    requires AttributeOf(v, name, a).Success? && a.nested.Some?
    ensures Some(AttributeOf(v, name, a).value.nestedType.value.nesting) == ObjectNestingOf(a.nested.value.nestingMode)
    ensures StrictlySortedBy(AttributeOf(v, name, a).value.nestedType.value.attributes, AttributeName)
    ensures forall x :: x in AttributeOf(v, name, a).value.nestedType.value.attributes ==>
      x.name in a.nested.value.nestedObject.attributes &&
      AttributeOf(v, x.name, a.nested.value.nestedObject.attributes[x.name]) == Success(x)
    ensures forall k :: k in a.nested.value.nestedObject.attributes ==>
      exists x :: x in AttributeOf(v, name, a).value.nestedType.value.attributes && x.name == k
  {
    var outcomes := NestedAttributeOutcomes(v, a.nested.value.nestedObject);
    assert outcomes.Keys == a.nested.value.nestedObject.attributes.Keys;
    GatheredContents(outcomes, AttributeName);
  }

  /** One failing child makes its nested attribute fail: no partial
      result. */
  lemma NestedFailureAborts(v: Variant, name: string, a: FwAttribute, k: string)
    requires a.nested.Some? && k in a.nested.value.nestedObject.attributes
    requires AttributeOf(v, k, a.nested.value.nestedObject.attributes[k]).Failure?
    ensures AttributeOf(v, name, a).Failure?
  {
    GatheredFails(NestedAttributeOutcomes(v, a.nested.value.nestedObject), k);
  }

  /** One failing attribute or block makes the enclosing block, or schema,
      fail. */
  lemma ContentsFailureAborts(v: Variant, o: FwBlockObject, k: string)
    requires (k in o.attributes && AttributeOf(v, k, o.attributes[k]).Failure?) ||
      (k in o.blocks && BlockOf(v, k, o.blocks[k]).Failure?)
    ensures BlockContentsOf(v, o).Failure?
  {
    if k in o.attributes && AttributeOf(v, k, o.attributes[k]).Failure? {
      GatheredFails(BlockAttributeOutcomes(v, o), k);
    } else {
      GatheredFails(BlockTypeOutcomes(v, o), k);
    }
  }

  /** A required single-nested attribute holding one required string: its
      type gives way to a single-nested object listing the converted string
      attribute. */
  lemma SingleNestedExample()
    ensures AttributeOf(ProviderVariant, "single_nested", FwAttribute(SingleNestedAttribute, true, false, false, false,
      Some(Object(map["string" := String])), None,
      Some(FwNestedAttribute(NestingModeSingle, FwAttributeObject(map["string" :=
        FwAttribute(StringAttribute, true, false, false, false, Some(String), None, None)]))))) ==
      Success(Attribute("single_nested", None,
        Some(SchemaObject([Attribute("string", Some(String), None, true, false, false, None, NoDefault, false,
          NoConstraints)], ObjectSingle)),
        true, false, false, None, NoDefault, false, NoConstraints))
  {
    var inner := FwAttribute(StringAttribute, true, false, false, false, Some(String), None, None);
    var o := FwAttributeObject(map["string" := inner]);
    var x := Attribute("string", Some(String), None, true, false, false, None, NoDefault, false, NoConstraints);
    var outcomes := NestedAttributeOutcomes(ProviderVariant, o);
    assert DefaultOf(ProviderVariant, inner) == Success(NoDefault);
    assert AttributeOf(ProviderVariant, "string", inner) == Success(x);
    assert outcomes.Keys == {"string"};
    assert outcomes["string"] == Success(x);
    CollectedInitially(outcomes, AttributeName);
    CollectStep(outcomes, {}, [], AttributeName, "string", x);
    assert outcomes.Keys == {} + {"string"};
    GatheredSorted(outcomes, [x], [x], AttributeName);
  }
}

