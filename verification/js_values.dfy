/**
  The JavaScript values the component passes through without looking inside
  (authentication settings, usage plans, custom domains, service identifiers,
  the provisioned function name, ...), and the one thing it does ask of them:
  whether they are truthy.
 */
module JsValues {
  import opened Wrappers

  /** A JavaScript value. Numbers are modelled as integers. */
  datatype Value =
    | Undefined
    | Null
    | Bool(b: bool)
    | Number(n: int)
    | Str(s: string)
    | Array(items: seq<Value>)
    | Object(fields: map<string, Value>)

  /** The falsy values: `undefined`, `null`, `false`, `0` and `""`. */
  const FalsyValues: set<Value> := {Undefined, Null, Bool(false), Number(0), Str("")}

  /** JavaScript's ToBoolean: exactly the five falsy values are falsy; arrays and objects, even empty ones, are truthy. */
  predicate Truthy(v: Value)
    ensures Truthy(v) <==> v !in FalsyValues
    ensures v.Array? || v.Object? ==> Truthy(v)
  {
    match v
    case Undefined => false
    case Null => false
    case Bool(b) => b
    case Number(n) => n != 0
    case Str(s) => s != ""
    case Array(_) => true
    case Object(_) => true
  }

  /** `a || b`: the first operand when it is truthy, otherwise the second. */
  function Or(a: Value, b: Value): (r: Value)
    ensures Truthy(r) <==> Truthy(a) || Truthy(b)
    ensures Truthy(a) ==> r == a
    ensures !Truthy(a) ==> r == b
  {
    if Truthy(a) then a else b
  }

  /** An optional string read in a `||` chain: absent reads like the falsy `""`. */
  function TextOf(o: Option<string>): string {
    o.GetOr("")
  }

  /**
    `c0 || c1 || ... || cn` over strings: the first non-empty candidate, or
    the last candidate when all of them are empty.
   */
  function FirstNonEmpty(cs: seq<string>): (r: string)
    requires |cs| > 0
    ensures r in cs
    ensures (forall i :: 0 <= i < |cs| ==> cs[i] == "") ==> r == ""
    ensures forall i :: 0 <= i < |cs| && cs[i] != "" && (forall j :: 0 <= j < i ==> cs[j] == "") ==> r == cs[i]
    decreases |cs|
  {
    if |cs| == 1 || cs[0] != "" then cs[0] else FirstNonEmpty(cs[1..])
  }
}
