/** The legacy SDK's field descriptors, as the legacy converter reads them. */
module LegacySchema {
  import opened Outcomes
  import opened Values
  import opened Canonical

  /** The legacy value types. */
  datatype ValueType =
    | TypeInvalid
    | TypeBool
    | TypeInt
    | TypeFloat
    | TypeString
    | TypeList
    | TypeMap
    | TypeSet
    | TypeObject

  /** The configuration-mode override; an out-of-range mode behaves as `Auto`. */
  datatype ConfigMode = ConfigModeAuto | ConfigModeAttr | ConfigModeBlock

  /** What a descriptor's default function returns when called: a value
      (`NilHost` for nil) and whether it returned an error. */
  datatype DefaultFuncOutcome = DefaultFuncOutcome(value: HostValue, failed: bool)

  /** The element slot of a descriptor: empty, a nested descriptor, a bare
      value type, a sub-resource, or anything else. */
  datatype Elem =
    | NoElem
    | ElemSchema(schema: Descriptor)
    | ElemValueType(valueType: ValueType)
    | ElemResource(resource: Resource)
    | ElemOther

  datatype Descriptor = Descriptor(
    typ: ValueType,
    elem: Elem,
    required: bool,
    optional: bool,
    computed: bool,
    forceNew: bool,
    sensitive: bool,
    default: HostValue,
    defaultFunc: Option<DefaultFuncOutcome>,
    constraints: Constraints,
    minItems: int,
    maxItems: int,
    configMode: ConfigMode)

  datatype Resource = Resource(schemaVersion: int, schema: map<string, Descriptor>)

  datatype Provider = Provider(
    schema: map<string, Descriptor>,
    resourcesMap: map<string, Resource>,
    dataSourcesMap: map<string, Resource>)

  /** A descriptor that sets only its type, every other field zero. */
  function BareDescriptor(t: ValueType): (d: Descriptor)
    ensures d.typ == t && d.elem.NoElem? && d.configMode == ConfigModeAuto
  {
    Descriptor(t, NoElem, false, false, false, false, false, NilHost, None, NoConstraints, 0, 0, ConfigModeAuto)
  }

  /** How deeply element slots nest below `d`: the measure the mutually
      recursive conversions decrease. */
  ghost function Height(d: Descriptor): nat
    decreases d
  {
    match d.elem
    case ElemSchema(s) => Height(s) + 1
    case ElemResource(r) => MaxHeight(r, r.schema.Keys) + 2
    case _ => 0
  }

  /** The largest height among the entries of `r.schema` named in `ks`. */
  ghost function MaxHeight(r: Resource, ks: set<string>): (h: nat)
    requires ks <= r.schema.Keys
    ensures forall k :: k in ks ==> Height(r.schema[k]) <= h
    ensures ks == {} ==> h == 0
    ensures ks != {} ==> exists k :: k in ks && h == Height(r.schema[k])
    decreases r, ks
  {
    if ks == {} then 0
    else
      var k :| k in ks;
      var rest := MaxHeight(r, ks - {k});
      if Height(r.schema[k]) >= rest then Height(r.schema[k]) else rest
  }

  /** A bound strictly above the height of every entry of `m`. */
  ghost function MapHeight(m: map<string, Descriptor>): (h: nat)
    ensures forall k :: k in m ==> Height(m[k]) < h
  {
    MaxHeight(Resource(0, m), m.Keys) + 1
  }

  /** A sub-resource in the element slot sits strictly below its descriptor. */
  lemma ResourceBelow(d: Descriptor)
    requires d.elem.ElemResource?
    ensures MapHeight(d.elem.resource.schema) < Height(d)
  {
    var r := d.elem.resource;
    var ks := r.schema.Keys;
    if ks != {} {
      var k0 :| k0 in ks && MaxHeight(r, ks) == Height(r.schema[k0]);
      var k1 :| k1 in ks && MaxHeight(Resource(0, r.schema), ks) == Height(r.schema[k1]);
    }
  }
}
