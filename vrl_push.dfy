/** The expression-language function `push(value, item)`. */
module VrlPush {
  import opened Wrappers
  import opened VrlValue

  /** `push`: the array with the item appended; any other first argument is an error. */
  function Push(list: Value, item: Value): (r: Resolved)
    ensures r.Ok? <==> list.Array?
    ensures r.Ok? ==>
      && r.value.Array?
      && |r.value.items| == |list.items| + 1
      && r.value.items[..|list.items|] == list.items
      && r.value.items[|list.items|] == item
    ensures r.Err? ==> r.error == ExpressionError("expected array, got " + KindName(list))
  {
    match list
    case Array(items) => Ok(Array(items + [item]))
    case _ => Err(ExpressionError("expected array, got " + KindName(list)))
  }

  /** Pushing onto an empty array gives the one-element array. */
  lemma PushOntoEmpty(item: Value)
    ensures Push(Array([]), item) == Ok(Array([item]))
  {
  }

  /** Every original element keeps its position. */
  lemma PushKeepsElements(items: seq<Value>, item: Value, i: nat)
    requires i < |items|
    ensures Push(Array(items), item).value.items[i] == items[i]
  {
  }

  /** There is no deduplication: the item is added once more however often it occurs. */
  lemma PushDuplicates(items: seq<Value>, item: Value)
    ensures multiset(Push(Array(items), item).value.items)[item] == multiset(items)[item] + 1
  {
    assert Push(Array(items), item).value.items == items + [item];
  }

  /** `PushFn::type_def`: the array part of the value's type with the item's kind at the
      next index; infallible. The parameter `value` is declared as an array, so the
      compiler only passes arguments whose kind allows one. */
  function PushTypeDef(value: TypeDef, item: TypeDef): (r: TypeDef)
    requires value.kind.arrayShape.Some?
    ensures !r.fallible
    ensures r.kind.scalars == {} && !r.kind.objectAllowed && r.kind.arrayShape.Some?
    ensures var elems := value.kind.arrayShape.value;
      |r.kind.arrayShape.value| == |elems| + 1
      && r.kind.arrayShape.value[..|elems|] == elems
      && r.kind.arrayShape.value[|elems|] == item.kind
  {
    TypeDef(Kind({}, Some(value.kind.arrayShape.value + [item.kind]), false), false)
  }

  /** The type definition is sound: when the arguments conform to their types and the
      value is an array, `push` succeeds with a result of the reported kind. */
  lemma PushTypeDefSound(value: TypeDef, item: TypeDef, list: Value, x: Value)
    requires value.kind.arrayShape.Some?
    requires Conforms(list, value.kind) && Conforms(x, item.kind) && list.Array?
    ensures Push(list, x).Ok? && Conforms(Push(list, x).value, PushTypeDef(value, item).kind)
  {
    var r := Push(list, x).value;
    var k := PushTypeDef(value, item).kind;
    forall i | 0 <= i < |r.items|
      ensures Conforms(r.items[i], k.arrayShape.value[i])
    {
      if i < |list.items| {
        assert r.items[i] == list.items[i] && k.arrayShape.value[i] == value.kind.arrayShape.value[i];
      }
    }
  }

  /** For literal arguments the type definition is exact: the result's kind is the
      kind of the array that `push` returns. */
  lemma PushTypeDefExact(items: seq<Value>, x: Value, valueFallible: bool, itemFallible: bool)
    ensures PushTypeDef(TypeDef(KindOf(Array(items)), valueFallible), TypeDef(KindOf(x), itemFallible))
      == TypeDef(KindOf(Push(Array(items), x).value), false)
  {
    assert KindsOf(items + [x]) == KindsOf(items) + [KindOf(x)];
  }
}
