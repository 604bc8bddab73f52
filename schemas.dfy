/** The part of the domain-entity schema check that the entities below rely on: an object
    whose required properties are present and whose declared properties, when present, have
    one of the JSON types the schema lists for them. */
module Schemas {
  import opened JsValues
  import opened Results

  /** The JSON-schema type names used by the entity schemas. */
  datatype JsonType = StringType | NumberType | BooleanType | ArrayType | ObjectType | NullType

  /** The JSON-schema type of a defined value (a Date object is an object). */
  function TypeOf(v: Value): JsonType
    requires v != Undefined
  {
    match v
    case Null => NullType
    case Bool(_) => BooleanType
    case Num(_) => NumberType
    case Str(_) => StringType
    case Arr(_) => ArrayType
    case _ => ObjectType
  }

  /** A declared property and the types it may take. */
  datatype Property = Property(name: string, types: set<JsonType>)

  /** A schema: its declared properties, in order, and the names of the required ones. */
  datatype Schema = Schema(properties: seq<Property>, required: seq<string>)

  /** A property counts as present when it is an own property whose value is not `undefined`. */
  predicate Present(v: Value, key: string) {
    HasKey(v, key) && v.props[key] != Undefined
  }

  /** A declared property that is present has one of its allowed types. */
  predicate WellTyped(v: Value, p: Property) {
    Present(v, p.name) ==> TypeOf(v.props[p.name]) in p.types
  }

  /** Declarative meaning of "`v` is valid for `schema`". */
  predicate Conforms(schema: Schema, v: Value) {
    && v.Obj?
    && (forall k :: k in schema.required ==> Present(v, k))
    && (forall p :: p in schema.properties ==> WellTyped(v, p))
  }

  /** Why an object was refused. */
  datatype Violation = NotAnObject | MissingRequired(key: string) | WrongType(key: string)

  /** The first required property, in schema order, that `v` lacks. */
  function FirstMissing(required: seq<string>, v: Value): Option<string> {
    if required == [] then None
    else if !Present(v, required[0]) then Some(required[0])
    else FirstMissing(required[1..], v)
  }

  /** The first declared property, in schema order, that `v` holds with a wrong type. */
  function FirstMistyped(properties: seq<Property>, v: Value): Option<string> {
    if properties == [] then None
    else if !WellTyped(v, properties[0]) then Some(properties[0].name)
    else FirstMistyped(properties[1..], v)
  }

  lemma {:induction false} FirstMissingMeans(required: seq<string>, v: Value)
    ensures FirstMissing(required, v).None? <==> forall k :: k in required ==> Present(v, k)
    ensures FirstMissing(required, v).Some? ==>
              FirstMissing(required, v).value in required && !Present(v, FirstMissing(required, v).value)
  {
    if required != [] {
      FirstMissingMeans(required[1..], v);
      assert forall k :: k in required ==> k == required[0] || k in required[1..];
    }
  }

  lemma {:induction false} FirstMistypedMeans(properties: seq<Property>, v: Value)
    ensures FirstMistyped(properties, v).None? <==> forall p :: p in properties ==> WellTyped(v, p)
    ensures FirstMistyped(properties, v).Some? ==>
              exists p :: p in properties && p.name == FirstMistyped(properties, v).value && !WellTyped(v, p)
  {
    if properties != [] {
      FirstMistypedMeans(properties[1..], v);
      assert forall p :: p in properties ==> p == properties[0] || p in properties[1..];
      if !WellTyped(v, properties[0]) {
        assert properties[0] in properties;
      }
    }
  }

  /** The schema check: passes exactly for the objects that conform, and otherwise names the
      first problem found (not an object, then missing required properties, then wrong types). */
  function Validate(schema: Schema, v: Value): (r: Outcome<Violation>)
    ensures r.Pass? <==> Conforms(schema, v)
    ensures r == Fail(NotAnObject) <==> !v.Obj?
    ensures r.Fail? && r.error.MissingRequired? ==>
              r.error.key in schema.required && !Present(v, r.error.key)
    ensures r.Fail? && r.error.WrongType? ==>
              v.Obj? && (forall k :: k in schema.required ==> Present(v, k)) &&
              exists p :: p in schema.properties && p.name == r.error.key && !WellTyped(v, p)
  {
    FirstMissingMeans(schema.required, v);
    FirstMistypedMeans(schema.properties, v);
    if !v.Obj? then Fail(NotAnObject)
    else match FirstMissing(schema.required, v)
      case Some(k) => Fail(MissingRequired(k))
      case None =>
        match FirstMistyped(schema.properties, v)
        case Some(k) => Fail(WrongType(k))
        case None => Pass
  }

  /** An object that lacks any required property is refused. */
  lemma MissingRequiredRefused(schema: Schema, v: Value, k: string)
    requires k in schema.required && !Present(v, k)
    ensures Validate(schema, v).Fail?
  {
  }
}
