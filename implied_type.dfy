/** The object type a block implies (internal/sdkv2/implied_type.go),
    written over the canonical block whose attributes and nested blocks are
    sequences. */
module ImpliedTypes {
  import opened Outcomes
  import opened CtyTypes
  import opened Canonical
  import opened Ordering

  /** What a nested block whose own block implies `child` contributes
      under nesting mode `mode`. */
  function NestedContribution(mode: NestingMode, child: Type): (r: Result<Type>)
    ensures mode == NestingInvalid ==> r == Failure(InvalidNesting)
    ensures mode == NestingSet ==> (r.Success? <==> !HasDynamic(child))
    ensures r.Success? && HasDynamic(child) ==> r.value == child || r.value == Dynamic
    ensures mode == NestingSingle || mode == NestingGroup ==> r == Success(child)
    ensures mode == NestingList ==> r == Success(if HasDynamic(child) then Dynamic else List(child))
    ensures mode == NestingMap ==> r == Success(if HasDynamic(child) then Dynamic else Map(child))
    ensures mode == NestingSet && !HasDynamic(child) ==> r == Success(Set(child))
  {
    match mode
    case NestingSingle => Success(child)
    case NestingGroup => Success(child)
    case NestingList => if HasDynamic(child) then Success(Dynamic) else Success(List(child))
    case NestingSet => if HasDynamic(child) then Failure(DynamicInSet) else Success(Set(child))
    case NestingMap => if HasDynamic(child) then Success(Dynamic) else Success(Map(child))
    case NestingInvalid => Failure(InvalidNesting)
  }

  /** The attribute-type mapping built from the first `n` attributes; a
      later attribute with the same name replaces an earlier one, as an
      assignment into a Go map does. */
  ghost function AttributeTypes(attrs: seq<Attribute>, n: nat): Result<map<string, Type>>
    requires n <= |attrs|
  {
    if n == 0 then Success(map[])
    else match AttributeTypes(attrs, n - 1)
      case Failure(e) => Failure(e)
      case Success(atys) =>
        if attrs[n - 1].typ.None? then Failure(MissingType)
        else Success(atys[attrs[n - 1].name := attrs[n - 1].typ.value])
  }

  /** The mapping after all attributes and the first `n` nested blocks. */
  ghost function FieldTypes(b: Block, n: nat): Result<map<string, Type>>
    requires n <= |b.blockTypes|
    decreases b, n
  {
    if n == 0 then AttributeTypes(b.attributes, |b.attributes|)
    else match FieldTypes(b, n - 1)
      case Failure(e) => Failure(e)
      case Success(atys) =>
        var nb := b.blockTypes[n - 1];
        if nb.typeName in atys then Failure(NameCollision)
        else match ImpliedTypeOf(nb.block)
          case Failure(e) => Failure(e)
          case Success(child) =>
            match NestedContribution(nb.nesting, child)
            case Failure(e) => Failure(e)
            case Success(t) => Success(atys[nb.typeName := t])
  }

  /** The object type of `b`, keyed by every attribute and nested-block name. */
  ghost function ImpliedTypeOf(b: Block): Result<Type>
    decreases b, |b.blockTypes| + 1
  {
    match FieldTypes(b, |b.blockTypes|)
    case Failure(e) => Failure(e)
    case Success(atys) => Success(Object(atys))
  }

  /** A failure among the first attributes is the final outcome. */
  lemma {:induction false} AttributeFailureSticks(attrs: seq<Attribute>, n: nat, m: nat)
    requires n <= m <= |attrs|
    requires AttributeTypes(attrs, n).Failure?
    ensures AttributeTypes(attrs, m) == AttributeTypes(attrs, n)
    decreases m
  {
    if m > n {
      AttributeFailureSticks(attrs, n, m - 1);
    }
  }

  /** A failure among the first nested blocks is the final outcome. */
  lemma {:induction false} FieldFailureSticks(b: Block, n: nat, m: nat)
    requires n <= m <= |b.blockTypes|
    requires FieldTypes(b, n).Failure?
    ensures FieldTypes(b, m) == FieldTypes(b, n)
    decreases m
  {
    if m > n {
      FieldFailureSticks(b, n, m - 1);
    }
  }

  /** The names the first `n` attributes contribute. */
  ghost function AttributeNames(attrs: seq<Attribute>, n: nat): set<string>
    requires n <= |attrs|
  {
    set i | 0 <= i < n :: attrs[i].name
  }

  ghost function BlockNames(b: Block, n: nat): set<string>
    requires n <= |b.blockTypes|
  {
    set i | 0 <= i < n :: b.blockTypes[i].typeName
  }

  lemma {:induction false} AttributeTypesKeys(attrs: seq<Attribute>, n: nat)
    requires n <= |attrs|
    requires AttributeTypes(attrs, n).Success?
    ensures AttributeTypes(attrs, n).value.Keys == AttributeNames(attrs, n)
  {
    if n > 0 {
      AttributeTypesKeys(attrs, n - 1);
      assert AttributeNames(attrs, n) == AttributeNames(attrs, n - 1) + {attrs[n - 1].name};
    }
  }

  lemma {:induction false} FieldTypesKeys(b: Block, n: nat)
    requires n <= |b.blockTypes|
    requires FieldTypes(b, n).Success?
    ensures FieldTypes(b, n).value.Keys == AttributeNames(b.attributes, |b.attributes|) + BlockNames(b, n)
    decreases n
  {
    if n == 0 {
      AttributeTypesKeys(b.attributes, |b.attributes|);
    } else {
      FieldTypesKeys(b, n - 1);
      assert BlockNames(b, n) == BlockNames(b, n - 1) + {b.blockTypes[n - 1].typeName};
    }
  }

  /** When the implied type exists it is an object whose keys are exactly
      the attribute names and the nested-block names. */
  lemma ImpliedTypeKeys(b: Block)
    requires ImpliedTypeOf(b).Success?
    ensures ImpliedTypeOf(b).value.Object?
    ensures ImpliedTypeOf(b).value.attributes.Keys
      == AttributeNames(b.attributes, |b.attributes|) + BlockNames(b, |b.blockTypes|)
  {
    FieldTypesKeys(b, |b.blockTypes|);
  }

  /** Every attribute's name maps to its own type once attribute names are
      distinct, and the nested blocks never overwrite an attribute. */
  lemma {:induction false} FieldTypesKeepAttributes(b: Block, n: nat)
    requires n <= |b.blockTypes|
    requires FieldTypes(b, n).Success?
    requires DistinctKeys(b.attributes, AttributeName)
    ensures forall i :: 0 <= i < |b.attributes| ==>
      b.attributes[i].typ.Some? && b.attributes[i].name in FieldTypes(b, n).value &&
      FieldTypes(b, n).value[b.attributes[i].name] == b.attributes[i].typ.value
    decreases n
  {
    if n == 0 {
      AttributeTypesAt(b.attributes, |b.attributes|);
    } else {
      FieldTypesKeepAttributes(b, n - 1);
      FieldTypesKeys(b, n - 1);
    }
  }

  lemma {:induction false} AttributeTypesAt(attrs: seq<Attribute>, n: nat)
    requires n <= |attrs|
    requires AttributeTypes(attrs, n).Success?
    requires DistinctKeys(attrs, AttributeName)
    ensures forall i :: 0 <= i < n ==>
      attrs[i].typ.Some? && attrs[i].name in AttributeTypes(attrs, n).value &&
      AttributeTypes(attrs, n).value[attrs[i].name] == attrs[i].typ.value
  {
    if n > 0 {
      AttributeTypesAt(attrs, n - 1);
      forall i | 0 <= i < n - 1 ensures attrs[i].name != attrs[n - 1].name {
        assert AttributeName(attrs[i]) != AttributeName(attrs[n - 1]);
      }
    }
  }

  lemma ImpliedTypeOfAttributes(b: Block)
    requires ImpliedTypeOf(b).Success?
    requires DistinctKeys(b.attributes, AttributeName)
    ensures forall i :: 0 <= i < |b.attributes| ==>
      b.attributes[i].typ.Some? && b.attributes[i].name in ImpliedTypeOf(b).value.attributes &&
      ImpliedTypeOf(b).value.attributes[b.attributes[i].name] == b.attributes[i].typ.value
  {
    FieldTypesKeepAttributes(b, |b.blockTypes|);
    FieldTypesKeys(b, |b.blockTypes|);
    forall i | 0 <= i < |b.attributes| ensures b.attributes[i].name in AttributeNames(b.attributes, |b.attributes|) {
    }
  }

  lemma {:induction false} FieldTypesKeepBlocks(b: Block, n: nat)
    requires n <= |b.blockTypes|
    requires FieldTypes(b, n).Success?
    ensures forall j :: 0 <= j < n ==>
      ImpliedTypeOf(b.blockTypes[j].block).Success? &&
      NestedContribution(b.blockTypes[j].nesting, ImpliedTypeOf(b.blockTypes[j].block).value).Success? &&
      b.blockTypes[j].typeName in FieldTypes(b, n).value &&
      FieldTypes(b, n).value[b.blockTypes[j].typeName]
        == NestedContribution(b.blockTypes[j].nesting, ImpliedTypeOf(b.blockTypes[j].block).value).value
    decreases n
  {
    if n > 0 {
      FieldTypesKeepBlocks(b, n - 1);
    }
  }

  /** Each nested block's name maps to what its nesting mode makes of the
      type its own block implies: the child type itself for single and
      group, a list, set or map of it, or the dynamic pseudo-type for a list
      or map whose child contains it. */
  lemma ImpliedTypeOfBlocks(b: Block)
    requires ImpliedTypeOf(b).Success?
    ensures forall j :: 0 <= j < |b.blockTypes| ==>
      ImpliedTypeOf(b.blockTypes[j].block).Success? &&
      NestedContribution(b.blockTypes[j].nesting, ImpliedTypeOf(b.blockTypes[j].block).value).Success? &&
      b.blockTypes[j].typeName in ImpliedTypeOf(b).value.attributes &&
      ImpliedTypeOf(b).value.attributes[b.blockTypes[j].typeName]
        == NestedContribution(b.blockTypes[j].nesting, ImpliedTypeOf(b.blockTypes[j].block).value).value
  {
    FieldTypesKeepBlocks(b, |b.blockTypes|);
  }

  /** An attribute and a nested block of the same name make the implied
      type fail. */
  lemma NameCollisionFails(b: Block, i: nat, j: nat)
    requires i < |b.attributes| && j < |b.blockTypes|
    requires b.attributes[i].name == b.blockTypes[j].typeName
    ensures ImpliedTypeOf(b).Failure?
  {
    if FieldTypes(b, j).Success? {
      FieldTypesKeys(b, j);
      assert b.attributes[i].name in AttributeNames(b.attributes, |b.attributes|);
      assert FieldTypes(b, j + 1).Failure?;
      FieldFailureSticks(b, j + 1, |b.blockTypes|);
    } else {
      FieldFailureSticks(b, j, |b.blockTypes|);
    }
  }

  /** A set-nested block whose own block implies a type containing the
      dynamic pseudo-type makes the implied type fail. */
  lemma DynamicInSetFails(b: Block, j: nat)
    requires j < |b.blockTypes|
    requires b.blockTypes[j].nesting == NestingSet
    requires ImpliedTypeOf(b.blockTypes[j].block).Success?
    requires HasDynamic(ImpliedTypeOf(b.blockTypes[j].block).value)
    ensures ImpliedTypeOf(b).Failure?
  {
    if FieldTypes(b, j).Success? {
      assert FieldTypes(b, j + 1).Failure?;
      FieldFailureSticks(b, j + 1, |b.blockTypes|);
    } else {
      FieldFailureSticks(b, j, |b.blockTypes|);
    }
  }

  /** A nested block with the invalid nesting mode makes the implied type
      fail. */
  lemma InvalidNestingFails(b: Block, j: nat)
    requires j < |b.blockTypes|
    requires b.blockTypes[j].nesting == NestingInvalid
    ensures ImpliedTypeOf(b).Failure?
  {
    if FieldTypes(b, j).Success? {
      assert FieldTypes(b, j + 1).Failure?;
      FieldFailureSticks(b, j + 1, |b.blockTypes|);
    } else {
      FieldFailureSticks(b, j, |b.blockTypes|);
    }
  }

  /** A block whose attribute types and whose nested blocks' implied types
      are free of the dynamic pseudo-type. */
  ghost predicate StaticParts(b: Block)
  {
    (forall a :: a in b.attributes && a.typ.Some? ==> !HasDynamic(a.typ.value)) &&
    (forall nb :: nb in b.blockTypes && ImpliedTypeOf(nb.block).Success? ==>
      !HasDynamic(ImpliedTypeOf(nb.block).value))
  }

  lemma {:induction false} AttributeTypesStatic(attrs: seq<Attribute>, n: nat)
    requires n <= |attrs|
    requires forall a :: a in attrs && a.typ.Some? ==> !HasDynamic(a.typ.value)
    requires AttributeTypes(attrs, n).Success?
    ensures forall k :: k in AttributeTypes(attrs, n).value ==> !HasDynamic(AttributeTypes(attrs, n).value[k])
  {
    if n > 0 {
      AttributeTypesStatic(attrs, n - 1);
      assert attrs[n - 1] in attrs;
    }
  }

  lemma {:induction false} FieldTypesStatic(b: Block, n: nat)
    requires n <= |b.blockTypes|
    requires StaticParts(b)
    requires FieldTypes(b, n).Success?
    ensures forall k :: k in FieldTypes(b, n).value ==> !HasDynamic(FieldTypes(b, n).value[k])
    decreases n
  {
    if n == 0 {
      AttributeTypesStatic(b.attributes, |b.attributes|);
    } else {
      FieldTypesStatic(b, n - 1);
      assert b.blockTypes[n - 1] in b.blockTypes;
    }
  }

  /** Without the dynamic pseudo-type among its parts, a block implies a
      type without it; the list and map fallbacks to the dynamic type and
      the set-of-dynamic failure then never arise. */
  lemma ImpliedTypeStatic(b: Block)
    requires StaticParts(b)
    ensures ImpliedTypeOf(b).Success? ==> !HasDynamic(ImpliedTypeOf(b).value)
  {
    if ImpliedTypeOf(b).Success? {
      FieldTypesStatic(b, |b.blockTypes|);
    }
  }

  /** The empty block implies the empty object type. */
  lemma EmptyBlockImpliesEmptyObject()
    ensures ImpliedTypeOf(EmptyBlock) == Success(EmptyObject)
  {
  }

  /** A block with one list-nested block `foo` holding one string attribute
      `bar` implies `object({foo = list(object({bar = string}))})`. */
  lemma ListNestedExample()
    ensures ImpliedTypeOf(Block([], [NestedBlock("foo",
      Block([Attribute("bar", Some(String), None, false, true, false, None, NoDefault, false, NoConstraints)], []),
      NestingList, None, None, None, None, NoConstraints, 0, 0)]))
      == Success(Object(map["foo" := List(Object(map["bar" := String]))]))
  {
    var inner := Block([Attribute("bar", Some(String), None, false, true, false, None, NoDefault, false, NoConstraints)], []);
    assert AttributeTypes(inner.attributes, 1) == Success(map["bar" := String]);
    assert ImpliedTypeOf(inner) == Success(Object(map["bar" := String]));
    assert !HasDynamic(Object(map["bar" := String]));
    var outer := Block([], [NestedBlock("foo", inner, NestingList, None, None, None, None, NoConstraints, 0, 0)]);
    assert FieldTypes(outer, 0) == Success(map[]);
    assert FieldTypes(outer, 1) == Success(map["foo" := List(Object(map["bar" := String]))]);
  }

  /** The object type of `b`, or of no block at all. */
  method ImpliedType(b: Option<Block>) returns (r: Result<Type>)
    ensures b.None? ==> r == Success(EmptyObject)
    ensures b.Some? ==> r == ImpliedTypeOf(b.value)
    decreases if b.Some? then b.value else EmptyBlock, 1
  {
    if b.None? {
      return Success(EmptyObject);
    }
    var blk := b.value;
    var atys: map<string, Type> := map[];
    for i := 0 to |blk.attributes|
      invariant AttributeTypes(blk.attributes, i) == Success(atys)
    {
      var attr := blk.attributes[i];
      if attr.typ.None? {
        AttributeFailureSticks(blk.attributes, i + 1, |blk.attributes|);
        FieldFailureSticks(blk, 0, |blk.blockTypes|);
        return Failure(MissingType);
      }
      atys := atys[attr.name := attr.typ.value];
    }
    for i := 0 to |blk.blockTypes|
      invariant FieldTypes(blk, i) == Success(atys)
    {
      var nb := blk.blockTypes[i];
      if nb.typeName in atys {
        FieldFailureSticks(blk, i + 1, |blk.blockTypes|);
        return Failure(NameCollision);
      }
      var child := ImpliedType(Some(nb.block));
      if child.Failure? {
        FieldFailureSticks(blk, i + 1, |blk.blockTypes|);
        return child;
      }
      var childType := child.value;
      match nb.nesting {
        case NestingSingle =>
          atys := atys[nb.typeName := childType];
        case NestingGroup =>
          atys := atys[nb.typeName := childType];
        case NestingList =>
          if HasDynamic(childType) {
            atys := atys[nb.typeName := Dynamic];
          } else {
            atys := atys[nb.typeName := List(childType)];
          }
        case NestingSet =>
          if HasDynamic(childType) {
            FieldFailureSticks(blk, i + 1, |blk.blockTypes|);
            return Failure(DynamicInSet);
          }
          atys := atys[nb.typeName := Set(childType)];
        case NestingMap =>
          if HasDynamic(childType) {
            atys := atys[nb.typeName := Dynamic];
          } else {
            atys := atys[nb.typeName := Map(childType)];
          }
        case NestingInvalid =>
          FieldFailureSticks(blk, i + 1, |blk.blockTypes|);
          return Failure(InvalidNesting);
      }
    }
    return Success(Object(atys));
  }
}
