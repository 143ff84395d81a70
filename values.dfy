/** Values of the declarative framework (the typed plan values that default
    providers yield) and the plain host values they lower to. */
module Values {

  type Int32 = x: int | -0x8000_0000 <= x < 0x8000_0000
  type Int64 = x: int | -0x8000_0000_0000_0000 <= x < 0x8000_0000_0000_0000

  /** Every framework value is null, unknown, or known. */
  datatype ValueState = Known | Null | Unknown

  /** A framework value. Floating-point payloads are kept as opaque bit
      patterns; an arbitrary-precision number is a `real`. `OtherValue`
      stands for any value kind outside the ones listed (a custom type). */
  datatype AttrValue =
    | BoolValue(state: ValueState, boolean: bool)
    | Int32Value(state: ValueState, int32: Int32)
    | Int64Value(state: ValueState, int64: Int64)
    | Float32Value(state: ValueState, float32: bv32)
    | Float64Value(state: ValueState, float64: bv64)
    | NumberValue(state: ValueState, number: real)
    | StringValue(state: ValueState, str: string)
    | ListValue(state: ValueState, elements: seq<AttrValue>)
    | SetValue(state: ValueState, elements: seq<AttrValue>)
    | TupleValue(state: ValueState, elements: seq<AttrValue>)
    | ObjectValue(state: ValueState, attributes: map<string, AttrValue>)
    | MapValue(state: ValueState, entries: map<string, AttrValue>)
    | DynamicValue(state: ValueState, underlying: AttrValue)
    | OtherValue(state: ValueState)

  /** A plain host value: nil, a scalar, a slice of host values or a map
      from strings to host values. */
  datatype HostValue =
    | NilHost
    | BoolHost(boolean: bool)
    | Int32Host(int32: Int32)
    | Int64Host(int64: Int64)
    | Float32Host(float32: bv32)
    | Float64Host(float64: bv64)
    | BigFloatHost(number: real)
    | StringHost(str: string)
    | SliceHost(items: seq<HostValue>)
    | MapHost(entries: map<string, HostValue>)
}
