/** What the legacy converter promises about its output: every map entry
    listed once under its own name, the classification ladder, the
    default-function rule, the item bounds and the inferred types. */
module Sdkv2Properties {
  import opened Outcomes
  import opened CtyTypes
  import opened Values
  import opened Canonical
  import opened Ordering
  import opened LegacySchema
  import opened ImpliedTypes
  import opened Sdkv2

  /** A converted entry carries the name of its map key. */
  lemma FieldNamed(name: string, d: Descriptor)
    requires FieldOf(name, d).Success?
    ensures FieldOf(name, d).value.AttrField? ==> FieldOf(name, d).value.attr.name == name
    ensures FieldOf(name, d).value.BlockField? ==> FieldOf(name, d).value.block.typeName == name
  {
    if FieldOf(name, d).value.AttrField? {
      AttributeFieldSource(name, d);
    } else {
      BlockFieldSource(name, d);
    }
  }

  /** A converted map lists every entry exactly once, as an attribute or
      as a nested block named by its key and converted from that key's
      descriptor; the attributes are strictly sorted by name and the
      nested blocks by type name. */
  lemma MapEntriesListed(m: map<string, Descriptor>)
    requires SchemaMapBlock(m).Success?
    ensures StrictlySortedBy(SchemaMapBlock(m).value.attributes, AttributeName)
    ensures StrictlySortedBy(SchemaMapBlock(m).value.blockTypes, BlockTypeName)
    ensures forall a :: a in SchemaMapBlock(m).value.attributes ==>
      a.name in m && FieldOf(a.name, m[a.name]) == Success(AttrField(a))
    ensures forall b :: b in SchemaMapBlock(m).value.blockTypes ==>
      b.typeName in m && FieldOf(b.typeName, m[b.typeName]) == Success(BlockField(b))
    ensures forall k :: k in m ==>
      (exists a :: a in SchemaMapBlock(m).value.attributes && a.name == k) ||
      (exists b :: b in SchemaMapBlock(m).value.blockTypes && b.typeName == k)
    ensures |SchemaMapBlock(m).value.attributes| + |SchemaMapBlock(m).value.blockTypes| == |m|
  {
    assert forall k :: k in m ==> FieldOf(k, m[k]).Success?;
    AllFieldsConvert(m);
    AttributesListed(m);
    BlockTypesListed(m);
    KeysPartition(m);
  }

  /** Every key becomes an attribute or a nested block, never both. */
  lemma KeysPartition(m: map<string, Descriptor>)
    requires forall k :: k in m ==> FieldOf(k, m[k]).Success?
    ensures AttributeKeys(m) + BlockKeys(m) == m.Keys
    ensures |AttributeKeys(m)| + |BlockKeys(m)| == |m|
  {
    var ak := AttributeKeys(m);
    var bk := BlockKeys(m);
    assert ak + bk == m.Keys;
    assert ak * bk == {};
    assert |ak + bk| == |ak| + |bk|;
  }

  lemma AttributesListed(m: map<string, Descriptor>)
    requires forall k :: k in m ==> FieldOf(k, m[k]).Success?
    ensures StrictlySortedBy(SortedAttributes(m), AttributeName)
    ensures forall a :: a in SortedAttributes(m) ==> a.name in m && FieldOf(a.name, m[a.name]) == Success(AttrField(a))
    ensures forall k :: k in AttributeKeys(m) ==> exists a :: a in SortedAttributes(m) && a.name == k
    ensures |SortedAttributes(m)| == |AttributeKeys(m)|
  {
    var attributes := SortedAttributes(m);
    var ks := SortedKeys(AttributeKeys(m));
    forall i | 0 <= i < |attributes| ensures attributes[i].name == ks[i] {
      FieldNamed(ks[i], m[ks[i]]);
    }
    forall a | a in attributes ensures a.name in m && FieldOf(a.name, m[a.name]) == Success(AttrField(a)) {
      var i :| 0 <= i < |attributes| && attributes[i] == a;
      assert ks[i] in AttributeKeys(m);
    }
    forall k | k in AttributeKeys(m) ensures exists a :: a in attributes && a.name == k {
      var i :| 0 <= i < |ks| && ks[i] == k;
      assert attributes[i] in attributes;
    }
  }

  lemma BlockTypesListed(m: map<string, Descriptor>)
    requires forall k :: k in m ==> FieldOf(k, m[k]).Success?
    ensures StrictlySortedBy(SortedBlockTypes(m), BlockTypeName)
    ensures forall b :: b in SortedBlockTypes(m) ==> b.typeName in m && FieldOf(b.typeName, m[b.typeName]) == Success(BlockField(b))
    ensures forall k :: k in BlockKeys(m) ==> exists b :: b in SortedBlockTypes(m) && b.typeName == k
    ensures |SortedBlockTypes(m)| == |BlockKeys(m)|
  {
    var blockTypes := SortedBlockTypes(m);
    var ks := SortedKeys(BlockKeys(m));
    forall i | 0 <= i < |blockTypes| ensures blockTypes[i].typeName == ks[i] {
      FieldNamed(ks[i], m[ks[i]]);
    }
    forall b | b in blockTypes ensures b.typeName in m && FieldOf(b.typeName, m[b.typeName]) == Success(BlockField(b)) {
      var i :| 0 <= i < |blockTypes| && blockTypes[i] == b;
      assert ks[i] in BlockKeys(m);
    }
    forall k | k in BlockKeys(m) ensures exists b :: b in blockTypes && b.typeName == k {
      var i :| 0 <= i < |ks| && ks[i] == k;
      assert blockTypes[i] in blockTypes;
    }
  }

  /** A map whose element is a sub-resource is an attribute of type map of
      string, whatever its configuration mode and whatever the sub-resource
      holds. */
  lemma MapOfResourceIsStringMap(name: string, d: Descriptor)
    requires d.typ == TypeMap && d.elem.ElemResource?
    ensures FieldOf(name, d).Success? && FieldOf(name, d).value.AttrField?
    ensures FieldOf(name, d).value.attr.typ == Some(Map(String))
  {
    var s := StringMapDescriptor(d);
    assert TypeOf(BareDescriptor(TypeString)) == Success(String);
    assert Collection(s) == Success(Map(String));
    assert AttributeOf(name, s).Success? && AttributeOf(name, s).value.typ == Some(Map(String));
    assert FieldOf(name, d) == AsAttrField(AttributeOf(name, s));
  }

  /** The descriptor an attribute entry is converted from: the entry's own,
      or its string-element form for a map of sub-resources. */
  function AttributeSource(d: Descriptor): (s: Descriptor)
    ensures s.(elem := d.elem) == d
  {
    if d.typ == TypeMap && d.elem.ElemResource? then StringMapDescriptor(d) else d
  }

  lemma AttributeFieldSource(name: string, d: Descriptor)
    requires FieldOf(name, d).Success? && FieldOf(name, d).value.AttrField?
    ensures AttributeOf(name, AttributeSource(d)) == Success(FieldOf(name, d).value.attr)
  {
    if d.elem.NoElem? {
    } else if d.typ == TypeMap && d.elem.ElemResource? {
    } else if d.configMode == ConfigModeAttr {
    } else if d.configMode == ConfigModeBlock {
      assert false;
    } else if d.computed && !d.optional {
    } else {
      assert !d.elem.ElemResource?;
    }
  }

  lemma BlockFieldSource(name: string, d: Descriptor)
    requires FieldOf(name, d).Success? && FieldOf(name, d).value.BlockField?
    ensures !(d.typ == TypeMap && d.elem.ElemResource?)
    ensures d.configMode == ConfigModeBlock || (d.configMode == ConfigModeAuto && !(d.computed && !d.optional))
    ensures NestedBlockOf(name, d) == Success(FieldOf(name, d).value.block)
  {
    if d.elem.NoElem? {
      assert false;
    } else if d.typ == TypeMap && d.elem.ElemResource? {
      assert false;
    } else if d.configMode == ConfigModeAttr {
      assert false;
    } else if d.configMode == ConfigModeBlock {
    } else if d.computed && !d.optional {
      assert false;
    } else {
      assert d.elem.ElemResource?;
    }
  }

  /** What a successful nested-block conversion needs of its descriptor. */
  lemma NestedBlockNeeds(name: string, d: Descriptor)
    requires NestedBlockOf(name, d).Success?
    ensures d.elem.ElemResource? && SchemaMapBlock(d.elem.resource.schema).Success?
    ensures BlockNesting(d.typ) == Some(NestedBlockOf(name, d).value.nesting)
    ensures NestedBlockOf(name, d).value.minItems == MinItemsOf(d)
    ensures NestedBlockOf(name, d).value.maxItems == MaxItemsOf(d)
    ensures NestedBlockOf(name, d).value.required == Some(d.required)
    ensures NestedBlockOf(name, d).value.optional == Some(d.optional)
    ensures NestedBlockOf(name, d).value.computed == Some(d.computed)
    ensures NestedBlockOf(name, d).value.forceNew == Some(d.forceNew)
  {
  }

  /** An entry becomes a nested block exactly when its element is a
      sub-resource that converts, its type is a list or a set, and its mode
      says block or, left automatic, it is not computed-only. The nesting
      follows the type, so a legacy nested block is never map-nested. */
  lemma BlockClassification(name: string, d: Descriptor)
    ensures (FieldOf(name, d).Success? && FieldOf(name, d).value.BlockField?) <==>
      (d.elem.ElemResource? && (d.typ == TypeList || d.typ == TypeSet) &&
       SchemaMapBlock(d.elem.resource.schema).Success? &&
       (d.configMode == ConfigModeBlock || (d.configMode == ConfigModeAuto && !(d.computed && !d.optional))))
    ensures FieldOf(name, d).Success? && FieldOf(name, d).value.BlockField? ==>
      FieldOf(name, d).value.block.nesting == (if d.typ == TypeList then NestingList else NestingSet)
  {
    if FieldOf(name, d).Success? && FieldOf(name, d).value.BlockField? {
      BlockFieldSource(name, d);
      NestedBlockNeeds(name, d);
    } else if d.elem.ElemResource? && (d.typ == TypeList || d.typ == TypeSet) &&
       SchemaMapBlock(d.elem.resource.schema).Success? &&
       (d.configMode == ConfigModeBlock || (d.configMode == ConfigModeAuto && !(d.computed && !d.optional)))
    {
      assert NestedBlockOf(name, d).Success?;
      assert FieldOf(name, d) == AsBlockField(NestedBlockOf(name, d));
    }
  }

  /** The attribute a descriptor converts to, field by field. */
  lemma AttributeOfCopies(name: string, d: Descriptor, a: Attribute)
    requires AttributeOf(name, d) == Success(a)
    ensures a.typ.Some? && a.nestedType.None?
    ensures a.computed == d.computed && a.sensitive == d.sensitive && a.forceNew == Some(d.forceNew)
    ensures a.default == HostDefault(d.default) && a.constraints == d.constraints
    ensures a.required == (d.required && !DefaultFuncDemotes(d))
    ensures a.optional == (d.optional || DefaultFuncDemotes(d))
  {
  }

  /** An attribute carries a type and no nested object; it copies the
      descriptor's computed, force-new, sensitive, default and constraint
      settings; a required descriptor whose default function returns an
      error or a non-nil value becomes optional instead, and only then. */
  lemma AttributeCopiesDescriptor(name: string, d: Descriptor, a: Attribute)
    requires FieldOf(name, d) == Success(AttrField(a))
    ensures a.typ.Some? && a.nestedType.None?
    ensures a.computed == d.computed && a.sensitive == d.sensitive && a.forceNew == Some(d.forceNew)
    ensures a.default == HostDefault(d.default) && a.constraints == d.constraints
    ensures a.required <==> (d.required &&
      (d.defaultFunc.None? || (!d.defaultFunc.value.failed && d.defaultFunc.value.value == NilHost)))
    ensures a.optional <==> (d.optional ||
      (d.required && d.defaultFunc.Some? && (d.defaultFunc.value.failed || d.defaultFunc.value.value != NilHost)))
  {
    AttributeFieldSource(name, d);
    AttributeOfCopies(name, AttributeSource(d), a);
  }

  /** A nested block keeps the descriptor's flags as set values; a
      computed-only block has no item bounds; otherwise the maximum is kept,
      an optional block with a minimum loses it, a required block
      without one needs one item, and any other minimum is kept. */
  lemma BlockItemBounds(name: string, d: Descriptor, b: NestedBlock)
    requires FieldOf(name, d) == Success(BlockField(b))
    ensures b.required == Some(d.required) && b.optional == Some(d.optional)
    ensures b.computed == Some(d.computed) && b.forceNew == Some(d.forceNew)
    ensures d.computed && !d.optional ==> b.minItems == 0 && b.maxItems == 0
    ensures !(d.computed && !d.optional) ==> b.maxItems == d.maxItems
    ensures !(d.computed && !d.optional) && d.optional && d.minItems > 0 ==> b.minItems == 0
    ensures !(d.computed && !d.optional) && !(d.optional && d.minItems > 0) && d.required && d.minItems == 0 ==>
      b.minItems == 1
    ensures !d.required && !(d.optional && d.minItems > 0) && !(d.computed && !d.optional) ==> b.minItems == d.minItems
    ensures !(d.computed && !d.optional) && !(d.optional && d.minItems > 0) && !(d.required && d.minItems == 0) ==>
      b.minItems == d.minItems
  {
    BlockFieldSource(name, d);
    NestedBlockNeeds(name, d);
  }

  /** A list whose element slot holds a bare value type is typed as a list
      of that type. */
  lemma ValueTypeElementExample(name: string)
    ensures FieldOf(name, BareDescriptor(TypeList).(elem := ElemValueType(TypeInt), required := true)) ==
      Success(AttrField(Attribute(name, Some(List(Number)), None, true, false, false, Some(false),
        NoDefault, false, NoConstraints)))
  {
    assert TypeOf(BareDescriptor(TypeInt)) == Success(Number);
  }

  /** A computed-only list of an empty sub-resource is an attribute of type
      list of the empty object; its item bounds play no part. */
  lemma ComputedSubResourceExample(name: string)
    ensures FieldOf(name, BareDescriptor(TypeList).(elem := ElemResource(Resource(0, map[])),
      computed := true, minItems := 1, maxItems := 1)) ==
      Success(AttrField(Attribute(name, Some(List(EmptyObject)), None, false, false, true, Some(false),
        NoDefault, false, NoConstraints)))
  {
    EmptyMapBlock(map[]);
    EmptyBlockImpliesEmptyObject();
  }

  /** The legacy value types have no dynamic counterpart: every type the
      legacy converter infers, including those implied by sub-resources,
      is free of the dynamic pseudo-type. */
  lemma {:induction false} TypeStatic(d: Descriptor)
    ensures TypeOf(d).Success? ==> !HasDynamic(TypeOf(d).value)
    decreases Height(d), ValueTypeRank(d) + 1
  {
    if d.typ == TypeList || d.typ == TypeSet || d.typ == TypeMap {
      CollectionStatic(d);
    }
  }

  lemma {:induction false} CollectionStatic(d: Descriptor)
    requires d.typ == TypeList || d.typ == TypeSet || d.typ == TypeMap
    ensures Collection(d).Success? ==> !HasDynamic(Collection(d).value)
    decreases Height(d), ValueTypeRank(d)
  {
    match d.elem
    case ElemSchema(s) => TypeStatic(s);
    case ElemValueType(t) => TypeStatic(BareDescriptor(t));
    case ElemResource(r) =>
      ResourceBelow(d);
      SchemaMapStatic(r.schema);
      if SchemaMapBlock(r.schema).Success? {
        ImpliedTypeStatic(SchemaMapBlock(r.schema).value);
      }
    case NoElem =>
    case ElemOther =>
  }

  /** The block a descriptor map converts to has static parts. */
  lemma {:induction false} SchemaMapStatic(m: map<string, Descriptor>)
    ensures SchemaMapBlock(m).Success? ==> StaticParts(SchemaMapBlock(m).value)
    decreases MapHeight(m), 0
  {
    if SchemaMapBlock(m).Success? {
      var b := SchemaMapBlock(m).value;
      MapEntriesListed(m);
      forall a | a in b.attributes && a.typ.Some? ensures !HasDynamic(a.typ.value) {
        AttributeStatic(a.name, m[a.name], a);
      }
      forall nb | nb in b.blockTypes && ImpliedTypeOf(nb.block).Success?
        ensures !HasDynamic(ImpliedTypeOf(nb.block).value)
      {
        NestedBlockStatic(nb.typeName, m[nb.typeName], nb);
      }
    }
  }

  lemma {:induction false} AttributeStatic(name: string, d: Descriptor, a: Attribute)
    requires FieldOf(name, d) == Success(AttrField(a))
    ensures a.typ.Some? && !HasDynamic(a.typ.value)
    decreases Height(d), 4
  {
    AttributeFieldSource(name, d);
    if d.typ == TypeMap && d.elem.ElemResource? {
      StringMapBelow(d);
    }
    TypeStatic(AttributeSource(d));
  }

  lemma {:induction false} NestedBlockStatic(name: string, d: Descriptor, nb: NestedBlock)
    requires FieldOf(name, d) == Success(BlockField(nb))
    ensures ImpliedTypeOf(nb.block).Success? ==> !HasDynamic(ImpliedTypeOf(nb.block).value)
    decreases Height(d), 3
  {
    BlockFieldSource(name, d);
    NestedBlockNeeds(name, d);
    ResourceBelow(d);
    SchemaMapStatic(d.elem.resource.schema);
    ImpliedTypeStatic(nb.block);
  }
}

