/**
 The JavaScript values that cross the resolver layer (GraphQL arguments, the current user,
 read-model records) and the two pieces of JavaScript semantics the resolvers rely on:
 the nullish-coalescing operator `??` and the property access `v[0]`.
 */
module Values {
  import opened Outcomes

  /** A JavaScript value. Numbers are modelled as integers. */
  datatype Json =
    | Undefined
    | Null
    | Bool(b: bool)
    | Num(n: int)
    | Str(s: string)
    | Arr(items: seq<Json>)
    | Obj(fields: map<string, Json>)

  /** The empty object literal `{}`. */
  const EmptyObject: Json := Obj(map[])

  /** True of the two values that `??` replaces. */
  predicate IsNullish(v: Json) {
    v.Undefined? || v.Null?
  }

  /** `v ?? fallback`: the fallback replaces exactly `null` and `undefined`. */
  function Coalesce(v: Json, fallback: Json): (r: Json)
    ensures IsNullish(v) ==> r == fallback
    ensures !IsNullish(v) ==> r == v
    ensures r == v || r == fallback
  {
    match v
    case Undefined => fallback
    case Null => fallback
    case _ => v
  }

  /**
   `v[0]`: the first element of an array (undefined when it is empty), the first character
   of a string, the property named "0" of an object, undefined on numbers and booleans.
   Reading a property of `null` or `undefined` throws a TypeError, modelled as None.
   */
  function ElementZero(v: Json): (r: Option<Json>)
    ensures r.None? <==> IsNullish(v)
    ensures v.Arr? && |v.items| > 0 ==> r == Some(v.items[0])
    ensures v.Arr? && |v.items| == 0 ==> r == Some(Undefined)
  {
    match v
    case Undefined => None
    case Null => None
    case Bool(_) => Some(Undefined)
    case Num(_) => Some(Undefined)
    case Str(s) => Some(if |s| == 0 then Undefined else Str([s[0]]))
    case Arr(items) => Some(if |items| == 0 then Undefined else items[0])
    case Obj(fields) => Some(if "0" in fields then fields["0"] else Undefined)
  }
}
