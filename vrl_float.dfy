/** The expression-language function `float(value)`: a check that a value is a float. */
module VrlFloat {
  import opened Wrappers
  import V = VrlValue

  /** `float`: a float is returned unchanged; anything else is an error naming its kind. */
  function Float(v: V.Value): (r: V.Resolved)
    ensures r.Ok? <==> v.Float?
    ensures r.Ok? ==> r.value == v
    ensures r.Err? ==> r.error == V.ExpressionError("expected float, got " + V.KindName(v))
  {
    match v
    case Float(_) => Ok(v)
    case _ => Err(V.ExpressionError("expected float, got " + V.KindName(v)))
  }

  /** The kind of exactly the floats. */
  const FloatOnly := V.Kind({V.FloatKind}, None, false)

  /** `is_float`: the kind allows floats and nothing else. */
  predicate IsFloat(k: V.Kind)
  {
    k == FloatOnly
  }

  /** `FloatFn::type_def`: always a float, fallible unless the argument is statically a float. */
  function FloatTypeDef(arg: V.TypeDef): (r: V.TypeDef)
    ensures r.kind == FloatOnly
    ensures r.fallible <==> !IsFloat(arg.kind)
  {
    V.TypeDef(FloatOnly, !IsFloat(arg.kind))
  }

  /** `float!(true)` fails with "expected float, got boolean". */
  lemma FloatOfBoolean()
    ensures Float(V.Boolean(true)) == Err(V.ExpressionError("expected float, got boolean"))
  {
    assert V.KindName(V.Boolean(true)) == "boolean";
    assert "expected float, got " + "boolean" == "expected float, got boolean";
  }

  /** The type definition is sound: an infallible call cannot fail, and a result always
      has the reported kind. */
  lemma FloatTypeDefSound(arg: V.TypeDef, v: V.Value)
    requires V.Conforms(v, arg.kind)
    ensures !FloatTypeDef(arg).fallible ==> Float(v) == Ok(v)
    ensures Float(v).Ok? ==> V.Conforms(Float(v).value, FloatTypeDef(arg).kind)
  {
  }

  /** The type definition is tight: if some value of the argument's type is not a float,
      the call is reported fallible. */
  lemma FloatTypeDefTight(arg: V.TypeDef, v: V.Value)
    requires V.Conforms(v, arg.kind) && !v.Float?
    ensures FloatTypeDef(arg).fallible
    ensures Float(v).Err?
  {
  }
}
