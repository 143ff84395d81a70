/** Lowering of a framework value to a plain host value
    (internal/fw/attr_value.go). */
module AttrValueLowering {
  import opened Outcomes
  import opened Values

  /** The host value `v` lowers to: null is nil, unknown is an error,
      scalars pass through, lists, sets and tuples become slices, objects
      and maps become maps, a dynamic value lowers its underlying value, and
      any other kind is an error. */
  ghost function Lowered(v: AttrValue): Result<HostValue>
    decreases v, 1
  {
    if v.state == Null then Success(NilHost)
    else if v.state == Unknown then Failure(UnexpectedUnknown)
    else match v
      case BoolValue(_, b) => Success(BoolHost(b))
      case Int32Value(_, i) => Success(Int32Host(i))
      case Int64Value(_, i) => Success(Int64Host(i))
      case Float32Value(_, f) => Success(Float32Host(f))
      case Float64Value(_, f) => Success(Float64Host(f))
      case NumberValue(_, n) => Success(BigFloatHost(n))
      case StringValue(_, s) => Success(StringHost(s))
      case ListValue(_, _) => LoweredElements(v)
      case SetValue(_, _) => LoweredElements(v)
      case TupleValue(_, _) => LoweredElements(v)
      case ObjectValue(_, m) => LoweredEntries(v, m)
      case MapValue(_, m) => LoweredEntries(v, m)
      case DynamicValue(_, u) => Lowered(u)
      case OtherValue(_) => Failure(UnhandledValueType)
  }

  /** The elements of a list, set or tuple lowered one by one into a slice
      in the same order; fails when some element fails. */
  ghost function LoweredElements(v: AttrValue): Result<HostValue>
    requires v.ListValue? || v.SetValue? || v.TupleValue?
    decreases v, 0
  {
    var es := v.elements;
    if exists i :: 0 <= i < |es| && Lowered(es[i]).Failure? then
      var i :| 0 <= i < |es| && Lowered(es[i]).Failure?;
      Failure(Lowered(es[i]).error)
    else
      Success(SliceHost(seq(|es|, i requires 0 <= i < |es| => Lowered(es[i]).value)))
  }

  /** The entries of an object or map lowered one by one into a map with
      the same keys; fails when some entry fails. */
  ghost function LoweredEntries(v: AttrValue, m: map<string, AttrValue>): Result<HostValue>
    requires (v.ObjectValue? && m == v.attributes) || (v.MapValue? && m == v.entries)
    decreases v, 0
  {
    if exists k :: k in m && Lowered(m[k]).Failure? then
      var k :| k in m && Lowered(m[k]).Failure?;
      Failure(Lowered(m[k]).error)
    else
      Success(MapHost(map k | k in m :: Lowered(m[k]).value))
  }

  /** The values lowering accepts: nothing reachable through known
      composites is unknown or of an unhandled kind. */
  ghost predicate Lowerable(v: AttrValue)
    decreases v
  {
    v.state == Null ||
    (v.state == Known &&
     match v
     case ListValue(_, es) => forall i :: 0 <= i < |es| ==> Lowerable(es[i])
     case SetValue(_, es) => forall i :: 0 <= i < |es| ==> Lowerable(es[i])
     case TupleValue(_, es) => forall i :: 0 <= i < |es| ==> Lowerable(es[i])
     case ObjectValue(_, m) => forall k :: k in m ==> Lowerable(m[k])
     case MapValue(_, m) => forall k :: k in m ==> Lowerable(m[k])
     case DynamicValue(_, u) => Lowerable(u)
     case OtherValue(_) => false
     case _ => true)
  }

  /** Lowering succeeds exactly on the lowerable values: an unknown value
      anywhere under known composites, or a value kind with no host form,
      makes the whole lowering fail. */
  lemma {:induction false} LoweringSucceedsIffLowerable(v: AttrValue)
    ensures Lowered(v).Success? <==> Lowerable(v)
    decreases v
  {
    if v.state == Known {
      match v
      case ListValue(_, es) => ElementsLowerable(v);
      case SetValue(_, es) => ElementsLowerable(v);
      case TupleValue(_, es) => ElementsLowerable(v);
      case ObjectValue(_, m) => EntriesLowerable(v, m);
      case MapValue(_, m) => EntriesLowerable(v, m);
      case DynamicValue(_, u) => LoweringSucceedsIffLowerable(u);
      case _ =>
    }
  }

  lemma {:induction false} ElementsLowerable(v: AttrValue)
    requires v.ListValue? || v.SetValue? || v.TupleValue?
    ensures LoweredElements(v).Success? <==> forall i :: 0 <= i < |v.elements| ==> Lowerable(v.elements[i])
    decreases v, 0
  {
    forall i | 0 <= i < |v.elements| {
      LoweringSucceedsIffLowerable(v.elements[i]);
    }
  }

  lemma {:induction false} EntriesLowerable(v: AttrValue, m: map<string, AttrValue>)
    requires (v.ObjectValue? && m == v.attributes) || (v.MapValue? && m == v.entries)
    ensures LoweredEntries(v, m).Success? <==> forall k :: k in m ==> Lowerable(m[k])
    decreases v, 0
  {
    forall k | k in m {
      LoweringSucceedsIffLowerable(m[k]);
    }
  }

  /** Lowering keeps the shape of a known collection: a slice as long as
      the list, set or tuple whose items are the lowered elements, or a map
      over the same keys whose entries are the lowered entries. */
  lemma LoweringKeepsShape(v: AttrValue)
    requires v.state == Known && Lowered(v).Success?
    ensures (v.ListValue? || v.SetValue? || v.TupleValue?) ==>
      Lowered(v).value.SliceHost? && |Lowered(v).value.items| == |v.elements| &&
      forall i :: 0 <= i < |v.elements| ==> Lowered(v.elements[i]) == Success(Lowered(v).value.items[i])
    ensures v.ObjectValue? ==>
      Lowered(v).value.MapHost? && Lowered(v).value.entries.Keys == v.attributes.Keys &&
      forall k :: k in v.attributes ==> Lowered(v.attributes[k]) == Success(Lowered(v).value.entries[k])
    ensures v.MapValue? ==>
      Lowered(v).value.MapHost? && Lowered(v).value.entries.Keys == v.entries.Keys &&
      forall k :: k in v.entries ==> Lowered(v.entries[k]) == Success(Lowered(v).value.entries[k])
  {
  }

  /** A list holding one object `{a = true}` lowers to a slice holding the
      map `{"a": true}`. */
  lemma ListOfObjectExample()
    ensures Lowered(ListValue(Known, [ObjectValue(Known, map["a" := BoolValue(Known, true)])]))
      == Success(SliceHost([MapHost(map["a" := BoolHost(true)])]))
  {
    var obj := ObjectValue(Known, map["a" := BoolValue(Known, true)]);
    assert Lowered(obj.attributes["a"]) == Success(BoolHost(true));
    assert (map k | k in obj.attributes :: Lowered(obj.attributes[k]).value) == map["a" := BoolHost(true)];
    assert Lowered(obj) == Success(MapHost(map["a" := BoolHost(true)]));
    var l := ListValue(Known, [obj]);
    assert l.elements[0] == obj;
    assert seq(1, i requires 0 <= i < 1 => Lowered(l.elements[i]).value) == [MapHost(map["a" := BoolHost(true)])];
  }

  /** Lower `v` to a host value. The error reported when several map entries
      fail depends on the order in which the entries are visited. */
  method AttrValueToGo(v: AttrValue) returns (r: Result<HostValue>)
    ensures SameOutcome(r, Lowered(v))
    ensures v.state == Null ==> r == Success(NilHost)
    ensures v.state == Unknown ==> r == Failure(UnexpectedUnknown)
    decreases v, 1
  {
    if v.state == Null {
      return Success(NilHost);
    }
    if v.state == Unknown {
      return Failure(UnexpectedUnknown);
    }
    match v {
      case BoolValue(_, b) => r := Success(BoolHost(b));
      case Int32Value(_, i) => r := Success(Int32Host(i));
      case Int64Value(_, i) => r := Success(Int64Host(i));
      case Float32Value(_, f) => r := Success(Float32Host(f));
      case Float64Value(_, f) => r := Success(Float64Host(f));
      case NumberValue(_, n) => r := Success(BigFloatHost(n));
      case StringValue(_, s) => r := Success(StringHost(s));
      case ListValue(_, _) => r := ElementsToGo(v);
      case SetValue(_, _) => r := ElementsToGo(v);
      case TupleValue(_, _) => r := ElementsToGo(v);
      case ObjectValue(_, m) => r := EntriesToGo(v, m);
      case MapValue(_, m) => r := EntriesToGo(v, m);
      case DynamicValue(_, u) => r := AttrValueToGo(u);
      case OtherValue(_) => r := Failure(UnhandledValueType);
    }
  }

  /** The loop shared by lists, sets and tuples: lower each element in
      order, stopping at the first failure. */
  method ElementsToGo(v: AttrValue) returns (r: Result<HostValue>)
    requires v.ListValue? || v.SetValue? || v.TupleValue?
    ensures SameOutcome(r, LoweredElements(v))
    decreases v, 0
  {
    var es := v.elements;
    var items: seq<HostValue> := [];
    for i := 0 to |es|
      invariant |items| == i
      invariant forall j :: 0 <= j < i ==> Lowered(es[j]) == Success(items[j])
    {
      var item := AttrValueToGo(es[i]);
      if item.Failure? {
        return Failure(item.error);
      }
      items := items + [item.value];
    }
    assert items == seq(|es|, i requires 0 <= i < |es| => Lowered(es[i]).value);
    return Success(SliceHost(items));
  }

  /** The loop shared by objects and maps: lower each entry, in whatever
      order the map yields them, stopping at the first failure. */
  method EntriesToGo(v: AttrValue, m: map<string, AttrValue>) returns (r: Result<HostValue>)
    requires (v.ObjectValue? && m == v.attributes) || (v.MapValue? && m == v.entries)
    ensures SameOutcome(r, LoweredEntries(v, m))
    decreases v, 0
  {
    var out: map<string, HostValue> := map[];
    var todo := m.Keys;
    while todo != {}
      invariant todo <= m.Keys
      invariant out.Keys == m.Keys - todo
      invariant forall k :: k in out ==> Lowered(m[k]) == Success(out[k])
      decreases todo
    {
      var k :| k in todo;
      var entry := AttrValueToGo(m[k]);
      if entry.Failure? {
        return Failure(entry.error);
      }
      out := out[k := entry.value];
      todo := todo - {k};
    }
    assert out == map k | k in m :: Lowered(m[k]).value;
    return Success(MapHost(out));
  }
}
