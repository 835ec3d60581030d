/** JavaScript values and plain records, as far as the tagged-union runtime sees them.
    A record is a finite map from property name to value; the variant tag lives in
    the reserved property `_type`. */
module Records {

  /** The JavaScript values a data record can hold. Numbers are kept as reals:
      nothing in the library computes on them. */
  datatype Value =
    | Undefined
    | Null
    | Bool(b: bool)
    | Num(n: real)
    | Str(s: string)
    | Arr(items: seq<Value>)
    | Obj(fields: map<string, Value>)

  /** A plain object: its own enumerable properties and their values. */
  type Record = map<string, Value>

  /** The reserved property that holds an instance's tag. */
  const TagField: string := "_type"

  /** Property access `x.f`: a missing property reads as `undefined`. */
  function Get(x: Record, f: string): Value
  {
    if f in x then x[f] else Undefined
  }

  /** `x._type === k`: strict equality, so only the string `k` itself matches. */
  predicate HasTag(x: Record, k: string)
  {
    TagField in x && x[TagField] == Str(k)
  }

  /** A tagged instance: a record whose `_type` holds a string. */
  predicate IsInstance(x: Record)
  {
    TagField in x && x[TagField].Str?
  }

  /** The tag of an instance. */
  function TagOf(x: Record): (k: string)
    requires IsInstance(x)
    ensures HasTag(x, k)
  {
    x[TagField].s
  }

  /** An instance of a schema: its tag is one of the schema's variant names. */
  predicate InstanceOf(x: Record, schema: set<string>)
  {
    IsInstance(x) && TagOf(x) in schema
  }
}
