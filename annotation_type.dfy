/** The definition of a custom field ("annotation type"): its value type, whether it is
    required, and for select types how many values may be chosen and from which options. */
module AnnotationTypes {
  import opened JsValues
  import opened Results
  import Schemas

  /** The value types an annotation can hold (AnnotationValueType). */
  const TEXT := "Text"
  const NUMBER := "Number"
  const DATE_TIME := "DateTime"
  const SELECT := "Select"

  /** The allowed values of `maxValueCount` (AnnotationMaxValueCount). */
  const NONE: Value := Num(0)
  const SELECT_SINGLE: Value := Num(1)
  const SELECT_MULTIPLE: Value := Num(2)

  /** The option a newly added select option starts with. */
  const EMPTY_OPTION: Value := Str("")

  const NOT_SELECT_PREFIX := "value type is not select: "
  const LAST_OPTION_ERROR := "options is empty, cannot remove any more options"

  /** The properties an annotation type must have. */
  const REQUIRED_FIELDS: seq<string> := ["id", "slug", "name", "valueType", "required"]

  /** AnnotationType.SCHEMA. */
  const SCHEMA: Schemas.Schema := Schemas.Schema(
    [ Schemas.Property("id", {Schemas.StringType}),
      Schemas.Property("slug", {Schemas.StringType}),
      Schemas.Property("name", {Schemas.StringType}),
      Schemas.Property("description", {Schemas.StringType, Schemas.NullType}),
      Schemas.Property("valueType", {Schemas.StringType}),
      Schemas.Property("maxValueCount", {Schemas.NumberType, Schemas.NullType}),
      Schemas.Property("options", {Schemas.ArrayType}),
      Schemas.Property("required", {Schemas.BooleanType}) ],
    REQUIRED_FIELDS)

  /** JavaScript `Array.prototype.splice(index, 1)`: the position it removes at, where a
      negative index counts back from the end and an index past the end is clamped. */
  function SpliceStart(len: nat, index: int): (k: nat)
    ensures k <= len
  {
    if index < 0 then (if len + index < 0 then 0 else len + index)
    else if index > len then len
    else index
  }

  /** The contents of an array after `splice(index, 1)`. */
  function Splice(s: seq<Value>, index: int): seq<Value> {
    var k := SpliceStart(|s|, index);
    if k < |s| then s[..k] + s[k + 1..] else s
  }

  /** For an index inside the array, splice removes exactly the element at that index. */
  lemma SpliceInRange(s: seq<Value>, i: int)
    requires 0 <= i < |s|
    ensures |Splice(s, i)| == |s| - 1
    ensures Splice(s, i) == s[..i] + s[i + 1..]
    ensures forall j :: 0 <= j < i ==> Splice(s, i)[j] == s[j]
    ensures forall j :: i <= j < |s| - 1 ==> Splice(s, i)[j] == s[j + 1]
  {
  }

  /** A negative index names a position counted from the end. */
  lemma SpliceFromEnd(s: seq<Value>, i: int)
    requires -|s| <= i < 0
    ensures Splice(s, i) == s[..|s| + i] + s[|s| + i + 1..]
  {
  }

  /** An index at or past the end removes nothing. */
  lemma SplicePastEnd(s: seq<Value>, i: int)
    requires i >= |s|
    ensures Splice(s, i) == s
  {
  }

  /** Splice never removes more than one element, so a list of two or more keeps at least one. */
  lemma SpliceLeavesOne(s: seq<Value>, i: int)
    requires |s| > 1
    ensures |s| - 1 <= |Splice(s, i)| <= |s|
    ensures |Splice(s, i)| >= 1
  {
  }

  /** The `reduce` behind validOptions: `memo && pool.includes(option)` folded from the left. */
  function IncludesAll(memo: bool, xs: seq<Value>, pool: seq<Value>): bool {
    if xs == [] then memo else IncludesAll(memo && xs[0] in pool, xs[1..], pool)
  }

  lemma {:induction false} IncludesAllMeans(memo: bool, xs: seq<Value>, pool: seq<Value>)
    ensures IncludesAll(memo, xs, pool) <==> memo && forall i :: 0 <= i < |xs| ==> xs[i] in pool
  {
    if xs != [] {
      IncludesAllMeans(memo && xs[0] in pool, xs[1..], pool);
      assert forall i :: 1 <= i < |xs| ==> xs[i] == xs[1..][i - 1];
    }
  }

  class AnnotationType {
    var id: string
    var slug: string
    var name: string
    var description: Value
    var valueType: string
    var maxValueCount: Value
    var options: seq<Value>
    var required: bool

    constructor (id: string, slug: string, name: string, description: Value, valueType: string,
                 maxValueCount: Value, options: seq<Value>, required: bool)
      ensures this.id == id && this.slug == slug && this.name == name
      ensures this.description == description && this.valueType == valueType
      ensures this.maxValueCount == maxValueCount && this.options == options
      ensures this.required == required
    {
      this.id := id;
      this.slug := slug;
      this.name := name;
      this.description := description;
      this.valueType := valueType;
      this.maxValueCount := maxValueCount;
      this.options := options;
      this.required := required;
    }

    /** A text type is none of the other value types. */
    predicate IsValueTypeText()
      reads this
      ensures IsValueTypeText() ==> valueType != NUMBER && valueType != DATE_TIME && valueType != SELECT
    {
      valueType == TEXT
    }

    /** A number type is none of the other value types. */
    predicate IsValueTypeNumber()
      reads this
      ensures IsValueTypeNumber() ==> valueType != TEXT && valueType != DATE_TIME && valueType != SELECT
    {
      valueType == NUMBER
    }

    /** A date-time type is none of the other value types. */
    predicate IsValueTypeDateTime()
      reads this
      ensures IsValueTypeDateTime() ==> valueType != TEXT && valueType != NUMBER && valueType != SELECT
    {
      valueType == DATE_TIME
    }

    /** A select type is none of the other value types. */
    predicate IsValueTypeSelect()
      reads this
      ensures IsValueTypeSelect() ==> valueType != TEXT && valueType != NUMBER && valueType != DATE_TIME
    {
      valueType == SELECT
    }

    /** A single select is a select type. */
    predicate IsSingleSelect()
      reads this
      ensures IsSingleSelect() ==> IsValueTypeSelect()
    {
      valueType == SELECT && maxValueCount == SELECT_SINGLE
    }

    /** A multiple select is a select type. */
    predicate IsMultipleSelect()
      reads this
      ensures IsMultipleSelect() ==> IsValueTypeSelect()
    {
      valueType == SELECT && maxValueCount == SELECT_MULTIPLE
    }

    /** The `maxValueCount` rule: a select type must allow one or many values; any other type
        must have no count (`null`) or NONE. */
    predicate IsMaxValueCountValid()
      reads this
      ensures IsValueTypeSelect() ==>
                (IsMaxValueCountValid() <==> maxValueCount == SELECT_SINGLE || maxValueCount == SELECT_MULTIPLE)
      ensures !IsValueTypeSelect() ==>
                (IsMaxValueCountValid() <==> maxValueCount == Null || maxValueCount == NONE)
    {
      if IsValueTypeSelect() then IsSingleSelect() || IsMultipleSelect()
      else maxValueCount == Null || maxValueCount == NONE
    }

    /** Called after `valueType` was edited: clears the options, and for a non-select type resets
        the count to NONE, which makes the count valid. */
    method ValueTypeChanged()
      modifies this
      ensures options == []
      ensures !IsValueTypeSelect() ==> maxValueCount == NONE && IsMaxValueCountValid()
      ensures IsValueTypeSelect() ==> maxValueCount == old(maxValueCount)
      ensures valueType == old(valueType) && id == old(id) && slug == old(slug) && name == old(name)
      ensures description == old(description) && required == old(required)
    {
      if !IsValueTypeSelect() {
        maxValueCount := NONE;
      }
      options := [];
    }

    /** Appends an empty option to a select type; any other type is refused and left as it was. */
    method AddOption() returns (r: Outcome<string>)
      modifies this`options
      ensures IsValueTypeSelect() ==> r == Pass && options == old(options) + [EMPTY_OPTION]
      ensures !IsValueTypeSelect() ==> r == Fail(NOT_SELECT_PREFIX + valueType) && options == old(options)
    {
      if !IsValueTypeSelect() {
        return Fail(NOT_SELECT_PREFIX + valueType);
      }
      options := options + [EMPTY_OPTION];
      r := Pass;
    }

    /** Removes the option at `index` (with splice semantics) unless at most one option is left.
        The value type is not consulted. */
    method RemoveOption(index: int) returns (r: Outcome<string>)
      modifies this`options
      ensures |old(options)| <= 1 ==> r == Fail(LAST_OPTION_ERROR) && options == old(options)
      ensures |old(options)| > 1 ==> r == Pass && options == Splice(old(options), index) && |options| >= 1
      ensures |old(options)| > 1 && 0 <= index < |old(options)| ==>
                |options| == |old(options)| - 1 && options == old(options)[..index] + old(options)[index + 1..]
    {
      if |options| <= 1 {
        return Fail(LAST_OPTION_ERROR);
      }
      SpliceLeavesOne(options, index);
      if 0 <= index < |options| {
        SpliceInRange(options, index);
      }
      options := Splice(options, index);
      r := Pass;
    }

    /** True iff every candidate is one of this type's options; true for no candidates. */
    function ValidOptions(candidates: seq<Value>): (r: bool)
      reads this
      ensures r <==> forall i :: 0 <= i < |candidates| ==> candidates[i] in options
    {
      IncludesAllMeans(true, candidates, options);
      IncludesAll(true, candidates, options)
    }

    /** AnnotationType.create: builds an annotation type from a server object, refusing any object
        that fails the schema (in particular one missing a required field). An absent `options`
        becomes the empty list; absent `description` and `maxValueCount` stay `undefined`. */
    static method Create(obj: Value) returns (r: Result<AnnotationType, Schemas.Violation>)
      ensures r.Err? <==> !Schemas.Conforms(SCHEMA, obj)
      ensures r.Err? ==> r.error == Schemas.Validate(SCHEMA, obj).error
      ensures r.Ok? ==> fresh(r.value)
      ensures r.Ok? ==> Str(r.value.id) == Get(obj, "id") && Str(r.value.slug) == Get(obj, "slug")
      ensures r.Ok? ==> Str(r.value.name) == Get(obj, "name") && Str(r.value.valueType) == Get(obj, "valueType")
      ensures r.Ok? ==> Bool(r.value.required) == Get(obj, "required")
      ensures r.Ok? ==> r.value.description == Get(obj, "description")
      ensures r.Ok? ==> r.value.maxValueCount == Get(obj, "maxValueCount")
      ensures r.Ok? ==> Arr(r.value.options) == Or(Get(obj, "options"), Arr([]))
    {
      var validation := Schemas.Validate(SCHEMA, obj);
      if validation.Fail? {
        return Err(validation.error);
      }
      assert forall k :: k in REQUIRED_FIELDS ==> Schemas.Present(obj, k);
      assert "id" in REQUIRED_FIELDS && "slug" in REQUIRED_FIELDS && "name" in REQUIRED_FIELDS;
      assert "valueType" in REQUIRED_FIELDS && "required" in REQUIRED_FIELDS;
      assert Schemas.WellTyped(obj, SCHEMA.properties[0]);
      assert Schemas.WellTyped(obj, SCHEMA.properties[1]);
      assert Schemas.WellTyped(obj, SCHEMA.properties[2]);
      assert Schemas.WellTyped(obj, SCHEMA.properties[4]);
      assert Schemas.WellTyped(obj, SCHEMA.properties[6]);
      assert Schemas.WellTyped(obj, SCHEMA.properties[7]);
      var opts := Or(Get(obj, "options"), Arr([]));
      var t := new AnnotationType(Get(obj, "id").s, Get(obj, "slug").s, Get(obj, "name").s,
                                  Get(obj, "description"), Get(obj, "valueType").s,
                                  Get(obj, "maxValueCount"), opts.items, Get(obj, "required").b);
      r := Ok(t);
    }
  }

  /** At most one of the four value-type predicates holds. */
  lemma ValueTypesExclusive(t: AnnotationType)
    ensures t.IsValueTypeText() ==> !t.IsValueTypeNumber() && !t.IsValueTypeDateTime() && !t.IsValueTypeSelect()
    ensures t.IsValueTypeNumber() ==> !t.IsValueTypeDateTime() && !t.IsValueTypeSelect()
    ensures t.IsValueTypeDateTime() ==> !t.IsValueTypeSelect()
  {
  }

  /** No annotation type is both a single and a multiple select. */
  lemma SelectKindsExclusive(t: AnnotationType)
    ensures !(t.IsSingleSelect() && t.IsMultipleSelect())
  {
  }

  /** Every object without one of the required fields is refused by the schema check. */
  lemma CreateNeedsRequiredFields(obj: Value, k: string)
    requires k in REQUIRED_FIELDS && !Schemas.Present(obj, k)
    ensures !Schemas.Conforms(SCHEMA, obj)
  {
  }
}
