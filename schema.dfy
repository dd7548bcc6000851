/** Querying the configuration schema: finding definitions by their custom
    attributes, classifying a schema object, reading its attributes, and
    recognising component schemas.

    JSON values and schema objects keep only the parts these operations read. */
module ConfigSchema {
  import opened Wrappers

  /** A JSON value. Numbers are kept only as an opaque integer: nothing here reads them. */
  datatype Json =
    | Null
    | Bool(b: bool)
    | Number(n: int)
    | String(s: string)
    | Array(items: seq<Json>)
    | Object(fields: map<string, Json>)

  datatype InstanceType = NullType | BooleanType | ObjectType | ArrayType | NumberType | StringType | IntegerType

  datatype SingleOrVec<T> = Single(single: T) | Vec(many: seq<T>)

  datatype Schema = BoolSchema(accepts: bool) | ObjectSchema(obj: SchemaObject)

  /** The subschema keywords: `allOf`, `anyOf`, `oneOf` and `not`. */
  datatype Subschemas = Subschemas(
    allOf: Option<seq<Schema>>,
    anyOf: Option<seq<Schema>>,
    oneOf: Option<seq<Schema>>,
    notSchema: Option<Schema>)

  /** A schema object: its `type`, `const`, `enum`, subschemas and extension keywords. */
  datatype SchemaObject = SchemaObject(
    instanceType: Option<SingleOrVec<InstanceType>>,
    constValue: Option<Json>,
    enumValues: Option<seq<Json>>,
    subschemas: Option<Subschemas>,
    extensions: map<string, Json>)

  /** A custom attribute: a flag, or a key with a string value. */
  datatype CustomAttribute = Flag(key: string) | KeyValue(key: string, value: string)

  datatype QueryError = NoMatches | MultipleMatches(len: nat) | AttributeNotFlag | AttributeMultipleValues

  /** The extension under which custom attributes are stored. */
  const MetadataKey := "_metadata"

  const EmptyObject := SchemaObject(None, None, None, None, map[])

  /** The object form of a boolean schema: `true` is the empty object, `false` is `not {}`. */
  function ToSimpleSchema(s: Schema): (o: SchemaObject)
    ensures s.ObjectSchema? ==> o == s.obj
    ensures s == BoolSchema(true) ==> o == EmptyObject
    ensures s == BoolSchema(false) ==>
      o == EmptyObject.(subschemas := Some(Subschemas(None, None, None, Some(ObjectSchema(EmptyObject)))))
  {
    match s
    case BoolSchema(true) => EmptyObject
    case BoolSchema(false) => EmptyObject.(subschemas := Some(Subschemas(None, None, None, Some(ObjectSchema(EmptyObject)))))
    case ObjectSchema(o) => o
  }

  // ---------------------------------------------------------------------------
  // Queries
  // ---------------------------------------------------------------------------

  /** A query over the values of the root schema's definitions, in iteration order,
      with the custom-attribute constraints added so far. */
  datatype SchemaQueryBuilder = SchemaQueryBuilder(definitions: seq<Schema>, attributes: seq<CustomAttribute>)

  /** A new query has no constraints. */
  function FromSchema(definitions: seq<Schema>): (b: SchemaQueryBuilder)
    ensures b.definitions == definitions && b.attributes == []
  {
    SchemaQueryBuilder(definitions, [])
  }

  /** Adding a constraint appends it to those already present. */
  function WithCustomAttribute(b: SchemaQueryBuilder, a: CustomAttribute): (r: SchemaQueryBuilder)
    ensures r.definitions == b.definitions && r.attributes == b.attributes + [a]
  {
    b.(attributes := b.attributes + [a])
  }

  /** Whether some element of `values` is the string `value`. */
  function ContainsString(values: seq<Json>, value: string): (r: bool)
    ensures r <==> exists i :: 0 <= i < |values| && values[i] == String(value)
  {
    if values == [] then false
    else
      var n := |values| - 1;
      (values[n].String? && values[n].s == value) || ContainsString(values[..n], value)
  }

  /** Whether one constraint holds of a schema's metadata attributes. */
  predicate AttributeMatches(a: CustomAttribute, attributes: map<string, Json>)
  {
    a.key in attributes &&
    match a
    case Flag(_) => attributes[a.key] == Bool(true)
    case KeyValue(_, value) =>
      match attributes[a.key]
      case String(s) => s == value
      case Array(values) => ContainsString(values, value)
      case _ => false
  }

  /** Whether `run` keeps a schema object. With constraints, it must carry metadata;
      the constraints are only checked when that metadata is a JSON object. */
  predicate Accepts(attributes: seq<CustomAttribute>, o: SchemaObject)
  {
    if attributes != [] && MetadataKey !in o.extensions then false
    else if MetadataKey in o.extensions && o.extensions[MetadataKey].Object? then
      forall i :: 0 <= i < |attributes| ==> AttributeMatches(attributes[i], o.extensions[MetadataKey].fields)
    else true
  }

  /** The object-schema definitions, in order. */
  function Objects(definitions: seq<Schema>): (r: seq<SchemaObject>)
    ensures |r| <= |definitions|
  {
    if definitions == [] then []
    else
      var n := |definitions| - 1;
      Objects(definitions[..n]) + (if definitions[n].ObjectSchema? then [definitions[n].obj] else [])
  }

  /** `Objects` holds exactly the schema objects that appear as object definitions. */
  lemma {:induction false} ObjectsMembership(definitions: seq<Schema>, o: SchemaObject)
    ensures o in Objects(definitions) <==> ObjectSchema(o) in definitions
  {
    if definitions != [] {
      var n := |definitions| - 1;
      ObjectsMembership(definitions[..n], o);
      assert definitions == definitions[..n] + [definitions[n]];
    }
  }

  /** The definitions a query returns, in order. */
  function Matching(definitions: seq<Schema>, attributes: seq<CustomAttribute>): seq<SchemaObject>
  {
    if definitions == [] then []
    else
      var n := |definitions| - 1;
      Matching(definitions[..n], attributes)
        + (if definitions[n].ObjectSchema? && Accepts(attributes, definitions[n].obj) then [definitions[n].obj] else [])
  }

  /** `SchemaQueryBuilder::run`. */
  method Run(b: SchemaQueryBuilder) returns (matches: seq<SchemaObject>)
    ensures matches == Matching(b.definitions, b.attributes)
  {
    matches := [];
    label schemas:
    for i := 0 to |b.definitions|
      invariant matches == Matching(b.definitions[..i], b.attributes)
    {
      assert b.definitions[..i + 1][..i] == b.definitions[..i];
      match b.definitions[i] {
        case BoolSchema(_) =>
          continue;
        case ObjectSchema(o) =>
          var hasAttributeMatchers := |b.attributes| != 0;
          if hasAttributeMatchers && MetadataKey !in o.extensions {
            continue schemas;
          }
          if MetadataKey in o.extensions && o.extensions[MetadataKey].Object? {
            var fields := o.extensions[MetadataKey].fields;
            for j := 0 to |b.attributes|
              invariant forall k :: 0 <= k < j ==> AttributeMatches(b.attributes[k], fields)
            {
              var matched := AttributeMatches(b.attributes[j], fields);
              if !matched {
                continue schemas;
              }
            }
          }
          matches := matches + [o];
      }
    }
    assert b.definitions[..|b.definitions|] == b.definitions;
  }

  /** `SchemaQueryBuilder::run_single`: the one match, or why there is not exactly one. */
  method RunSingle(b: SchemaQueryBuilder) returns (r: Result<SchemaObject, QueryError>)
    ensures var m := Matching(b.definitions, b.attributes);
      && (|m| == 0 <==> r == Err(NoMatches))
      && (|m| == 1 <==> r.Ok?)
      && (|m| == 1 ==> r == Ok(m[0]))
      && (|m| >= 2 <==> r == Err(MultipleMatches(|m|)))
  {
    var matches := Run(b);
    if |matches| == 0 {
      r := Err(NoMatches);
    } else if |matches| == 1 {
      r := Ok(matches[0]);
    } else {
      r := Err(MultipleMatches(|matches|));
    }
  }

  /** `xs` can be obtained from `ys` by deleting elements. */
  predicate IsSubsequence<T(==)>(xs: seq<T>, ys: seq<T>)
    decreases |ys|
  {
    if xs == [] then true
    else if ys == [] then false
    else if xs[|xs| - 1] == ys[|ys| - 1] then IsSubsequence(xs[..|xs| - 1], ys[..|ys| - 1])
    else IsSubsequence(xs, ys[..|ys| - 1])
  }

  lemma {:induction false} SubsequenceDropLast<T>(xs: seq<T>, ys: seq<T>)
    requires xs != [] && IsSubsequence(xs, ys)
    ensures IsSubsequence(xs[..|xs| - 1], ys)
    decreases |ys|, 0
  {
    var p := xs[..|xs| - 1];
    if p != [] {
      if xs[|xs| - 1] == ys[|ys| - 1] {
        assert IsSubsequence(p, ys[..|ys| - 1]);
        SubsequenceExtend(p, ys[..|ys| - 1], ys[|ys| - 1]);
        assert ys[..|ys| - 1] + [ys[|ys| - 1]] == ys;
      } else {
        SubsequenceDropLast(xs, ys[..|ys| - 1]);
        SubsequenceExtend(p, ys[..|ys| - 1], ys[|ys| - 1]);
        assert ys[..|ys| - 1] + [ys[|ys| - 1]] == ys;
      }
    }
  }

  lemma {:induction false} SubsequenceExtend<T>(xs: seq<T>, ys: seq<T>, y: T)
    requires IsSubsequence(xs, ys)
    ensures IsSubsequence(xs, ys + [y])
    decreases |ys|, 1
  {
    assert (ys + [y])[..|ys|] == ys;
    if xs != [] && xs[|xs| - 1] == y {
      SubsequenceDropLast(xs, ys);
    }
  }

  /** Appending the same element to both sides keeps a subsequence. */
  lemma SubsequenceAppendBoth<T>(xs: seq<T>, ys: seq<T>, y: T)
    requires IsSubsequence(xs, ys)
    ensures IsSubsequence(xs + [y], ys + [y])
  {
    assert (xs + [y])[..|xs|] == xs && (ys + [y])[..|ys|] == ys;
  }

  /** One more definition adds its object, if any, to `Objects`, and either the same
      object or nothing to the matches. */
  lemma LastDefinition(definitions: seq<Schema>, attributes: seq<CustomAttribute>)
    requires definitions != []
    ensures var n := |definitions| - 1;
      var last := if definitions[n].ObjectSchema? then [definitions[n].obj] else [];
      && Objects(definitions) == Objects(definitions[..n]) + last
      && (Matching(definitions, attributes) == Matching(definitions[..n], attributes) + last
          || Matching(definitions, attributes) == Matching(definitions[..n], attributes))
  {
  }

  /** `run` returns object definitions only, in definition order, each at most once
      for each time it is defined. */
  lemma {:induction false} RunReturnsSubsequenceOfObjects(definitions: seq<Schema>, attributes: seq<CustomAttribute>)
    ensures IsSubsequence(Matching(definitions, attributes), Objects(definitions))
  {
    if definitions != [] {
      var n := |definitions| - 1;
      var m, os := Matching(definitions[..n], attributes), Objects(definitions[..n]);
      RunReturnsSubsequenceOfObjects(definitions[..n], attributes);
      LastDefinition(definitions, attributes);
      if definitions[n].ObjectSchema? {
        var o := definitions[n].obj;
        if Matching(definitions, attributes) == m + [o] {
          SubsequenceAppendBoth(m, os, o);
        } else {
          SubsequenceExtend(m, os, o);
        }
      } else {
        assert os + [] == os && m + [] == m;
      }
    }
  }

  /** An object is returned exactly when it is an object definition that the constraints accept. */
  lemma {:induction false} RunMembership(definitions: seq<Schema>, attributes: seq<CustomAttribute>, o: SchemaObject)
    ensures o in Matching(definitions, attributes) <==> o in Objects(definitions) && Accepts(attributes, o)
  {
    if definitions != [] {
      RunMembership(definitions[..|definitions| - 1], attributes, o);
    }
  }

  /** Boolean definitions are never returned: wherever one sits among the definitions,
      removing it leaves the result unchanged. */
  lemma {:induction false} RunSkipsBooleanSchemas(front: seq<Schema>, b: bool, back: seq<Schema>, attributes: seq<CustomAttribute>)
    ensures Matching(front + [BoolSchema(b)] + back, attributes) == Matching(front + back, attributes)
    decreases |back|
  {
    var all := front + [BoolSchema(b)] + back;
    if back == [] {
      assert all[..|all| - 1] == front;
      assert front + back == front;
    } else {
      var n := |back| - 1;
      RunSkipsBooleanSchemas(front, b, back[..n], attributes);
      assert all[..|all| - 1] == front + [BoolSchema(b)] + back[..n];
      assert (front + back)[..|front + back| - 1] == front + back[..n];
      assert all[|all| - 1] == back[n] == (front + back)[|front + back| - 1];
    }
  }

  /** Without constraints every object definition is returned. */
  lemma {:induction false} RunWithoutConstraints(definitions: seq<Schema>)
    ensures Matching(definitions, []) == Objects(definitions)
  {
    if definitions != [] {
      RunWithoutConstraints(definitions[..|definitions| - 1]);
    }
  }

  /** Adding a constraint can only remove matches, and keeps the rest in order. */
  lemma {:induction false} ConstraintNarrowsRun(definitions: seq<Schema>, attributes: seq<CustomAttribute>, a: CustomAttribute)
    ensures IsSubsequence(Matching(definitions, attributes + [a]), Matching(definitions, attributes))
  {
    if definitions != [] {
      var n := |definitions| - 1;
      var narrow, wide := Matching(definitions[..n], attributes + [a]), Matching(definitions[..n], attributes);
      ConstraintNarrowsRun(definitions[..n], attributes, a);
      if definitions[n].ObjectSchema? {
        var o := definitions[n].obj;
        assert Matching(definitions, attributes) == wide + (if Accepts(attributes, o) then [o] else []);
        assert Matching(definitions, attributes + [a]) == narrow + (if Accepts(attributes + [a], o) then [o] else []);
        if Accepts(attributes + [a], o) {
          assert Accepts(attributes, o) by {
            if MetadataKey in o.extensions && o.extensions[MetadataKey].Object? {
              forall i | 0 <= i < |attributes|
                ensures AttributeMatches(attributes[i], o.extensions[MetadataKey].fields)
              {
                assert (attributes + [a])[i] == attributes[i];
              }
            }
          }
          assert (narrow + [o])[..|narrow|] == narrow && (wide + [o])[..|wide|] == wide;
        } else if Accepts(attributes, o) {
          assert narrow + [] == narrow;
          SubsequenceExtend(narrow, wide, o);
        } else {
          assert narrow + [] == narrow && wide + [] == wide;
        }
      } else {
        assert Matching(definitions, attributes) == wide && Matching(definitions, attributes + [a]) == narrow;
      }
    }
  }

  /** With constraints, a schema without metadata is never returned. */
  lemma MissingMetadataNeverMatches(attributes: seq<CustomAttribute>, o: SchemaObject)
    requires attributes != [] && MetadataKey !in o.extensions
    ensures !Accepts(attributes, o)
  {
  }

  /** Metadata that is present but not a JSON object is never checked against the constraints. */
  lemma NonObjectMetadataIsNotChecked(attributes: seq<CustomAttribute>, o: SchemaObject)
    requires MetadataKey in o.extensions && !o.extensions[MetadataKey].Object?
    ensures Accepts(attributes, o)
  {
  }

  /** With object metadata, the constraints are ANDed: one failing constraint rejects. */
  lemma ConstraintsAreAnded(attributes: seq<CustomAttribute>, o: SchemaObject, i: nat)
    requires MetadataKey in o.extensions && o.extensions[MetadataKey].Object?
    requires i < |attributes| && !AttributeMatches(attributes[i], o.extensions[MetadataKey].fields)
    ensures !Accepts(attributes, o)
  {
  }

  /** A flag constraint holds exactly when the key is present with the value `true`. */
  lemma FlagMatch(key: string, attributes: map<string, Json>)
    ensures AttributeMatches(Flag(key), attributes) <==> key in attributes && attributes[key] == Bool(true)
  {
  }

  /** A key/value constraint holds exactly when the key holds that string, or an array
      with that string among its elements. */
  lemma KeyValueMatch(key: string, value: string, attributes: map<string, Json>)
    ensures AttributeMatches(KeyValue(key, value), attributes) <==>
      key in attributes &&
      (|| attributes[key] == String(value)
       || (attributes[key].Array? && String(value) in attributes[key].items))
  {
  }

  // ---------------------------------------------------------------------------
  // Reading one schema object
  // ---------------------------------------------------------------------------

  datatype OneOrMany<T> = One(one: T) | Many(many: seq<T>)

  datatype SchemaType =
    | AllOf(allOf: seq<SchemaObject>)
    | OneOf(oneOf: seq<SchemaObject>)
    | Constant(constant: Json)
    | Enum(values: seq<Json>)
    | Typed(types: OneOrMany<InstanceType>)

  /** The schemas `schema_type` can classify without panicking. */
  predicate TypeDetectable(o: SchemaObject)
  {
    if o.subschemas.Some? then o.subschemas.value.allOf.Some? || o.subschemas.value.oneOf.Some?
    else o.instanceType.Some? || o.constValue.Some? || o.enumValues.Some?
  }

  function ToSimpleSchemas(schemas: seq<Schema>): (r: seq<SchemaObject>)
    ensures |r| == |schemas| && forall i :: 0 <= i < |r| ==> r[i] == ToSimpleSchema(schemas[i])
  {
    seq(|schemas|, i requires 0 <= i < |schemas| => ToSimpleSchema(schemas[i]))
  }

  /** `schema_type`: subschemas first (`allOf` before `oneOf`), then `type`, `const`, `enum`. */
  function SchemaTypeOf(o: SchemaObject): (t: SchemaType)
    requires TypeDetectable(o)
    ensures t.AllOf? <==> o.subschemas.Some? && o.subschemas.value.allOf.Some?
    ensures t.OneOf? <==> o.subschemas.Some? && o.subschemas.value.allOf.None? && o.subschemas.value.oneOf.Some?
    ensures t.Typed? <==> o.subschemas.None? && o.instanceType.Some?
    ensures t.Constant? <==> o.subschemas.None? && o.instanceType.None? && o.constValue.Some?
    ensures t.Enum? <==> o.subschemas.None? && o.instanceType.None? && o.constValue.None?
    ensures t.AllOf? ==> t.allOf == ToSimpleSchemas(o.subschemas.value.allOf.value)
    ensures t.OneOf? ==> t.oneOf == ToSimpleSchemas(o.subschemas.value.oneOf.value)
    ensures t.Typed? ==> t.types == match o.instanceType.value
      case Single(x) => One(x)
      case Vec(xs) => Many(xs)
    ensures t.Constant? ==> t.constant == o.constValue.value
    ensures t.Enum? ==> t.values == o.enumValues.value
  {
    if o.subschemas.Some? then
      if o.subschemas.value.allOf.Some? then AllOf(ToSimpleSchemas(o.subschemas.value.allOf.value))
      else OneOf(ToSimpleSchemas(o.subschemas.value.oneOf.value))
    else if o.instanceType.Some? then
      match o.instanceType.value
      case Single(single) => Typed(One(single))
      case Vec(many) => Typed(Many(many))
    else if o.constValue.Some? then Constant(o.constValue.value)
    else Enum(o.enumValues.value)
  }

  /** Neither object form of a boolean schema can be classified. */
  lemma BoolSchemasHaveNoType(b: bool)
    ensures !TypeDetectable(ToSimpleSchema(BoolSchema(b)))
  {
  }

  /** The raw value stored under `key` in an object-valued metadata extension. */
  function RawAttribute(o: SchemaObject, key: string): Option<Json>
  {
    if MetadataKey in o.extensions && o.extensions[MetadataKey].Object? && key in o.extensions[MetadataKey].fields
    then Some(o.extensions[MetadataKey].fields[key])
    else None
  }

  /** The values an attribute may hold: the flag `true`, a string, or an array of strings. */
  predicate ValidAttributeValue(v: Json)
  {
    v == Bool(true) || v.String? || (v.Array? && forall i :: 0 <= i < |v.items| ==> v.items[i].String?)
  }

  /** The schemas `get_attributes(key)` reads without panicking: metadata, when present,
      is an object, and the value under `key`, when present, is a valid attribute value. */
  predicate AttributesWellFormed(o: SchemaObject, key: string)
  {
    MetadataKey in o.extensions ==>
      o.extensions[MetadataKey].Object? &&
      (key in o.extensions[MetadataKey].fields ==> ValidAttributeValue(o.extensions[MetadataKey].fields[key]))
  }

  /** One key/value attribute per string of an array attribute value. */
  function KeyValues(key: string, items: seq<Json>): (r: seq<CustomAttribute>)
    requires forall i :: 0 <= i < |items| ==> items[i].String?
    ensures |r| == |items| && forall i :: 0 <= i < |items| ==> r[i] == KeyValue(key, items[i].s)
  {
    if items == [] then [] else [KeyValue(key, items[0].s)] + KeyValues(key, items[1..])
  }

  /** `get_attributes`: the attribute or attributes stored under `key`. */
  function GetAttributes(o: SchemaObject, key: string): (r: Option<OneOrMany<CustomAttribute>>)
    requires AttributesWellFormed(o, key)
    ensures r.None? <==> RawAttribute(o, key).None?
    ensures r == Some(One(Flag(key))) <==> RawAttribute(o, key) == Some(Bool(true))
    ensures forall s :: r == Some(One(KeyValue(key, s))) <==> RawAttribute(o, key) == Some(String(s))
    ensures r.Some? && r.value.Many? <==> RawAttribute(o, key).Some? && RawAttribute(o, key).value.Array?
    ensures r.Some? && r.value.Many? ==>
      var items := RawAttribute(o, key).value.items;
      |r.value.many| == |items| && forall i :: 0 <= i < |items| ==> r.value.many[i] == KeyValue(key, items[i].s)
  {
    match RawAttribute(o, key)
    case None => None
    case Some(v) =>
      match v
      case String(s) => Some(One(KeyValue(key, s)))
      case Array(items) => Some(Many(KeyValues(key, items)))
      case _ => Some(One(Flag(key)))
  }

  /** `get_attribute`: the single attribute under `key`. Any array, whatever its length,
      counts as multiple values. */
  function GetAttribute(o: SchemaObject, key: string): (r: Result<Option<CustomAttribute>, QueryError>)
    requires AttributesWellFormed(o, key)
    ensures r == Ok(None) <==> RawAttribute(o, key).None?
    ensures r == Err(AttributeMultipleValues) <==> RawAttribute(o, key).Some? && RawAttribute(o, key).value.Array?
    ensures r.Err? ==> r.error == AttributeMultipleValues
    ensures r == Ok(Some(Flag(key))) <==> RawAttribute(o, key) == Some(Bool(true))
    ensures forall s :: r == Ok(Some(KeyValue(key, s))) <==> RawAttribute(o, key) == Some(String(s))
  {
    match GetAttributes(o, key)
    case None => Ok(None)
    case Some(One(attr)) => Ok(Some(attr))
    case Some(Many(_)) => Err(AttributeMultipleValues)
  }

  /** `has_flag_attribute`. */
  function HasFlagAttribute(o: SchemaObject, key: string): (r: Result<bool, QueryError>)
    requires AttributesWellFormed(o, key)
    ensures r == Ok(false) <==> RawAttribute(o, key).None?
    ensures r == Ok(true) <==> RawAttribute(o, key) == Some(Bool(true))
    ensures r == Err(AttributeNotFlag) <==> RawAttribute(o, key).Some? && RawAttribute(o, key).value.String?
    ensures r == Err(AttributeMultipleValues) <==> RawAttribute(o, key).Some? && RawAttribute(o, key).value.Array?
  {
    match GetAttribute(o, key)
    case Err(e) => Err(e)
    case Ok(None) => Ok(false)
    case Ok(Some(attr)) => if attr.Flag? then Ok(true) else Err(AttributeNotFlag)
  }

  /** A one-constraint flag query keeps a schema with metadata exactly when
      `has_flag_attribute` answers `true` for it. */
  lemma FlagQueryAgreesWithHasFlag(o: SchemaObject, key: string)
    requires AttributesWellFormed(o, key) && MetadataKey in o.extensions
    ensures Accepts([Flag(key)], o) <==> HasFlagAttribute(o, key) == Ok(true)
  {
    assert [Flag(key)][0] == Flag(key);
  }

  /** A one-constraint key/value query keeps a schema with metadata exactly when the
      attributes `get_attributes` reads for that key include the pair. */
  lemma KeyValueQueryAgreesWithGetAttributes(o: SchemaObject, key: string, value: string)
    requires AttributesWellFormed(o, key) && MetadataKey in o.extensions
    ensures Accepts([KeyValue(key, value)], o) <==>
      match GetAttributes(o, key)
      case None => false
      case Some(One(a)) => a == KeyValue(key, value)
      case Some(Many(attrs)) => KeyValue(key, value) in attrs
  {
    assert [KeyValue(key, value)][0] == KeyValue(key, value);
    var fields := o.extensions[MetadataKey].fields;
    if key in fields && fields[key].Array? {
      var items := fields[key].items;
      var attrs := GetAttributes(o, key).value.many;
      if KeyValue(key, value) in attrs {
        var i :| 0 <= i < |attrs| && attrs[i] == KeyValue(key, value);
        assert items[i] == String(value);
      }
      if String(value) in items {
        var i :| 0 <= i < |items| && items[i] == String(value);
        assert attrs[i] == KeyValue(key, value);
      }
    }
  }

  // ---------------------------------------------------------------------------
  // Component schemas
  // ---------------------------------------------------------------------------

  /** The component types, by the names they carry in schemas. */
  datatype ComponentType = Source | Transform | Sink

  function ParseComponentType(s: string): (r: Option<ComponentType>)
    ensures r.Some? <==> s in {"source", "transform", "sink"}
  {
    if s == "source" then Some(Source)
    else if s == "transform" then Some(Transform)
    else if s == "sink" then Some(Sink)
    else None
  }

  datatype SchemaError = InvalidComponentSchema(pointer: string, reason: string)

  datatype ComponentSchema = ComponentSchema(schema: SchemaObject, componentName: string, componentType: ComponentType)

  const ComponentTypeKey := "docs::component_type"
  const ComponentNameKey := "docs::component_name"

  const AttributeMessagePrefix := "found matching attribute but "

  /** The display text of a query error. */
  function QueryErrorMessage(e: QueryError): string
  {
    match e
    case NoMatches => "no schemas matched the query"
    case MultipleMatches(len) => "multiple schemas matched the query (" + NatToString(len) + ")"
    case AttributeNotFlag => AttributeMessagePrefix + "was not a flag"
    case AttributeMultipleValues => AttributeMessagePrefix + "expected single value; multiple values present"
  }

  /** The decimal rendering of `len` in `MultipleMatches`. */
  function NatToString(n: nat): (s: string)
    ensures |s| > 0 && IsDecimal(s) && (|s| > 1 ==> s[0] != '0')
    ensures DecimalValue(s) == n
    decreases n
  {
    var digit := ["0", "1", "2", "3", "4", "5", "6", "7", "8", "9"][n % 10];
    if n < 10 then digit
    else
      var prefix := NatToString(n / 10);
      assert (prefix + digit)[..|prefix|] == prefix;
      prefix + digit
  }

  predicate IsDecimal(s: string)
  {
    forall i :: 0 <= i < |s| ==> '0' <= s[i] <= '9'
  }

  /** The number a string of decimal digits denotes. */
  function DecimalValue(s: string): nat
    requires IsDecimal(s)
  {
    if s == [] then 0 else DecimalValue(s[..|s| - 1]) * 10 + (s[|s| - 1] as int - '0' as int)
  }

  /** Only the multiple-matches message begins with 'm'. */
  lemma MessageInitial(e: QueryError)
    ensures |QueryErrorMessage(e)| > 0 && (QueryErrorMessage(e)[0] == 'm' <==> e.MultipleMatches?)
  {
    match e
    case NoMatches =>
    case MultipleMatches(_) =>
    case AttributeNotFlag =>
    case AttributeMultipleValues =>
  }

  /** Different query errors display differently. */
  lemma QueryErrorMessageInjective(e1: QueryError, e2: QueryError)
    ensures QueryErrorMessage(e1) == QueryErrorMessage(e2) ==> e1 == e2
  {
    var m1, m2 := QueryErrorMessage(e1), QueryErrorMessage(e2);
    if m1 == m2 {
      if e1.MultipleMatches? && e2.MultipleMatches? {
        var p := "multiple schemas matched the query (";
        var s1, s2 := NatToString(e1.len), NatToString(e2.len);
        assert |s1| == |s2|;
        assert s1 == m1[|p|..|p| + |s1|];
        assert s2 == m2[|p|..|p| + |s2|];
      } else if e1.MultipleMatches? || e2.MultipleMatches? {
        MessageInitial(e1);
        MessageInitial(e2);
      } else {
        assert |m1| == |m2|;
      }
    }
  }

  /** The string value of the key/value attribute under `pointer`, or why there is none. */
  function RequireKeyValue(o: SchemaObject, pointer: string): (r: Result<string, SchemaError>)
    requires AttributesWellFormed(o, pointer)
    ensures r.Ok? <==> RawAttribute(o, pointer).Some? && RawAttribute(o, pointer).value.String?
    ensures r.Ok? ==> RawAttribute(o, pointer) == Some(String(r.value))
    ensures r.Err? ==> r.error.pointer == pointer
    ensures RawAttribute(o, pointer).None? ==> r.error.reason == "attribute must be present"
    ensures RawAttribute(o, pointer) == Some(Bool(true)) ==> r.error.reason == "expected key/value attribute"
    ensures RawAttribute(o, pointer).Some? && RawAttribute(o, pointer).value.Array? ==>
      r.error.reason == QueryErrorMessage(AttributeMultipleValues)
  {
    match GetAttribute(o, pointer)
    case Err(e) => Err(InvalidComponentSchema(pointer, QueryErrorMessage(e)))
    case Ok(None) => Err(InvalidComponentSchema(pointer, "attribute must be present"))
    case Ok(Some(Flag(_))) => Err(InvalidComponentSchema(pointer, "expected key/value attribute"))
    case Ok(Some(KeyValue(_, value))) => Ok(value)
  }

  /** The schemas whose component type attribute names a component type. */
  predicate HasComponentType(o: SchemaObject)
  {
    var t := RawAttribute(o, ComponentTypeKey);
    t.Some? && t.value.String? && ParseComponentType(t.value.s).Some?
  }

  /** `ComponentSchema::try_from`: the component type is checked first, then the name. */
  function ComponentSchemaFrom(o: SchemaObject): (r: Result<ComponentSchema, SchemaError>)
    requires AttributesWellFormed(o, ComponentTypeKey)
    requires HasComponentType(o) ==> AttributesWellFormed(o, ComponentNameKey)
    ensures r.Ok? <==>
      HasComponentType(o) && RawAttribute(o, ComponentNameKey).Some? && RawAttribute(o, ComponentNameKey).value.String?
    ensures r.Ok? ==>
      && r.value.schema == o
      && Some(r.value.componentType) == ParseComponentType(RawAttribute(o, ComponentTypeKey).value.s)
      && RawAttribute(o, ComponentNameKey) == Some(String(r.value.componentName))
    ensures r.Err? ==> r.error.pointer == if HasComponentType(o) then ComponentNameKey else ComponentTypeKey
    ensures RequireKeyValue(o, ComponentTypeKey).Ok? && !HasComponentType(o) ==>
      r == Err(InvalidComponentSchema(ComponentTypeKey, "value was not a valid component type"))
  {
    match RequireKeyValue(o, ComponentTypeKey)
    case Err(e) => Err(e)
    case Ok(typeName) =>
      match ParseComponentType(typeName)
      case None => Err(InvalidComponentSchema(ComponentTypeKey, "value was not a valid component type"))
      case Some(componentType) =>
        match RequireKeyValue(o, ComponentNameKey)
        case Err(e) => Err(e)
        case Ok(name) => Ok(ComponentSchema(o, name, componentType))
  }
}
