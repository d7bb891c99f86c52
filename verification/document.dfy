/** The parsed document the validator receives: a tree of mappings, lists
    and scalars, as a YAML or JSON parser produces it. */
module Document {

  /** One node of a parsed document. Mapping keys are strings. */
  datatype Value =
    | Null
    | Bool(b: bool)
    | Num(n: int)
    | Str(s: string)
    | List(items: seq<Value>)
    | Dict(fields: map<string, Value>)

  /** Python's `str.startswith`. */
  predicate StartsWith(s: string, prefix: string) {
    |prefix| <= |s| && s[..|prefix|] == prefix
  }

  /** Python's `x in [..]` over a list of string literals: only a string can match. */
  predicate OneOf(v: Value, allowed: set<string>) {
    v.Str? && v.s in allowed
  }
}
