/** The part of the type system of the configuration language that the
    converters produce: primitive types, collections, objects and the
    dynamic pseudo-type. */
module CtyTypes {

  datatype Type =
    | String
    | Number
    | Bool
    | List(elem: Type)
    | Set(elem: Type)
    | Map(elem: Type)
    | Object(attributes: map<string, Type>)
    | Dynamic

  /** The empty object type. */
  const EmptyObject: Type := Object(map[])

  /** Whether the dynamic pseudo-type occurs anywhere inside `t`. */
  predicate HasDynamic(t: Type)
  {
    match t
    case Dynamic => true
    case List(e) => HasDynamic(e)
    case Set(e) => HasDynamic(e)
    case Map(e) => HasDynamic(e)
    case Object(attrs) => exists k :: k in attrs && HasDynamic(attrs[k])
    case _ => false
  }
}
