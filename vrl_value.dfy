/** Runtime values of the expression language, their kinds, and the static
    type definitions that functions report to the compiler. */
module VrlValue {
  import opened Wrappers

  /** A 64-bit float that is not NaN, kept as its bit pattern: nothing here computes with it. */
  type FloatBits = bv64

  datatype Value =
    | Bytes(bytes: seq<bv8>)
    | Integer(i: int)
    | Float(f: FloatBits)
    | Boolean(b: bool)
    | Timestamp(nanos: int)
    | Regex(pattern: string)
    | Null
    | Array(items: seq<Value>)
    | Object(fields: map<string, Value>)

  /** The kinds a value of a scalar variant has. */
  datatype Scalar = BytesKind | IntegerKind | FloatKind | BooleanKind | TimestampKind | RegexKind | NullKind

  /** A static kind: the scalar kinds a value may have, whether it may be an array, and
      then the kind of each of its elements, and whether it may be an object. Array kinds
      are exact-shape: the known element kinds, with no part for further indices. */
  datatype Kind = Kind(scalars: set<Scalar>, arrayShape: Option<seq<Kind>>, objectAllowed: bool)

  /** A type definition: a kind, and whether evaluating the expression can fail. */
  datatype TypeDef = TypeDef(kind: Kind, fallible: bool)

  /** Runtime errors of function calls, by their message. */
  datatype ExpressionError = ExpressionError(message: string)

  type Resolved = Result<Value, ExpressionError>

  function ScalarOf(v: Value): Scalar
    requires !v.Array? && !v.Object?
  {
    match v
    case Bytes(_) => BytesKind
    case Integer(_) => IntegerKind
    case Float(_) => FloatKind
    case Boolean(_) => BooleanKind
    case Timestamp(_) => TimestampKind
    case Regex(_) => RegexKind
    case Null => NullKind
  }

  /** The exact kind of a value. */
  function KindOf(v: Value): Kind
  {
    match v
    case Array(items) => Kind({}, Some(KindsOf(items)), false)
    case Object(_) => Kind({}, None, true)
    case _ => Kind({ScalarOf(v)}, None, false)
  }

  function KindsOf(items: seq<Value>): (r: seq<Kind>)
    ensures |r| == |items| && forall i :: 0 <= i < |items| ==> r[i] == KindOf(items[i])
  {
    if items == [] then [] else [KindOf(items[0])] + KindsOf(items[1..])
  }

  /** Whether `v` is one of the values `k` allows. */
  predicate Conforms(v: Value, k: Kind)
  {
    match v
    case Array(items) =>
      k.arrayShape.Some? && |items| == |k.arrayShape.value| &&
      forall i :: 0 <= i < |items| ==> Conforms(items[i], k.arrayShape.value[i])
    case Object(_) => k.objectAllowed
    case _ => ScalarOf(v) in k.scalars
  }

  /** The name of a value's kind, as error messages print it. */
  function KindName(v: Value): (name: string)
    ensures name == "float" <==> v.Float?
  {
    match v
    case Bytes(_) => "string"
    case Integer(_) => "integer"
    case Float(_) => "float"
    case Boolean(_) => "boolean"
    case Timestamp(_) => "timestamp"
    case Regex(_) => "regex"
    case Null => "null"
    case Array(_) => "array"
    case Object(_) => "object"
  }
}
