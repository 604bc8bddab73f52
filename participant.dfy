/** A study participant and the client-side work of adding one: every annotation is mapped to
    its server form, and the command is refused when any annotation is not valid. Annotation
    behaviour (validity and server form) and the pairing of annotations with their types
    (setAnnotationTypes) belong to other classes and are supplied as functions. */
module Participants {
  import opened JsValues
  import opened Results
  import Schemas

  const REST_API_URL_SUFFIX := "participants"

  const INVALID_ANNOTATION_PREFIX := "required annotation has no value: annotationId: "

  /** The participant's own part of its schema (the inherited entity fields are not modelled). */
  const SCHEMA: Schemas.Schema := Schemas.Schema(
    [ Schemas.Property("slug", {Schemas.StringType}),
      Schemas.Property("uniqueId", {Schemas.StringType}),
      Schemas.Property("studyId", {Schemas.StringType}),
      Schemas.Property("annotations", {Schemas.ArrayType}) ],
    ["slug", "uniqueId", "annotations"])

  /** How the annotations held by a participant behave: `annotation.isValueValid()` and
      `annotation.getServerAnnotation()`. */
  datatype AnnotationBehaviour = AnnotationBehaviour(
    isValueValid: Value -> bool,
    getServerAnnotation: Value -> Value)

  /** The body of the add request: the unique id and the annotations in server form. */
  datatype Command = Command(uniqueId: Value, annotations: seq<Value>)

  /** A POST request: the path items of its URL and its body. */
  datatype Post = Post(url: seq<Value>, body: Command)

  /** Why `add` refused: an annotation was invalid (the last one found is named), or the
      annotations are a truthy value that is not a list. */
  datatype AddError = InvalidAnnotation(annotationTypeId: Value) | AnnotationsNotAList

  /** Participant.url(...paths): the path items below the participants endpoint. */
  function Url(paths: seq<Value>): (r: seq<Value>)
    ensures |r| == |paths| + 1 && r[0] == Str(REST_API_URL_SUFFIX) && r[1..] == paths
  {
    [Str(REST_API_URL_SUFFIX)] + paths
  }

  /** The text `add` rejects with. It is known when the offending annotation type id is a string;
      the template's rendering of other ids is not modelled. */
  function RejectionMessage(e: AddError): (m: Option<string>)
    ensures m.Some? <==> e.InvalidAnnotation? && e.annotationTypeId.Str?
    ensures m.Some? ==> |m.value| == |INVALID_ANNOTATION_PREFIX| + |e.annotationTypeId.s|
    ensures m.Some? ==> m.value[..|INVALID_ANNOTATION_PREFIX|] == INVALID_ANNOTATION_PREFIX
    ensures m.Some? ==> m.value[|INVALID_ANNOTATION_PREFIX|..] == e.annotationTypeId.s
  {
    if e.InvalidAnnotation? && e.annotationTypeId.Str? then
      Some(INVALID_ANNOTATION_PREFIX + e.annotationTypeId.s)
    else None
  }

  /** `annotations.map(a => a.getServerAnnotation())`. */
  function ServerAnnotations(xs: seq<Value>, f: Value -> Value): seq<Value> {
    if xs == [] then [] else ServerAnnotations(xs[..|xs| - 1], f) + [f(xs[|xs| - 1])]
  }

  /** The last annotation whose value is not valid, if any. */
  function LastInvalid(xs: seq<Value>, valid: Value -> bool): Option<Value> {
    if xs == [] then None
    else if !valid(xs[|xs| - 1]) then Some(xs[|xs| - 1])
    else LastInvalid(xs[..|xs| - 1], valid)
  }

  /** What `add` does before the network call: the request it posts, or why it refuses. */
  function AddOutcome(studyId: Value, uniqueId: Value, annotations: Value, behaviour: AnnotationBehaviour)
    : Result<Post, AddError>
  {
    if annotations.Arr? then
      match LastInvalid(annotations.items, behaviour.isValueValid)
      case Some(a) => Err(InvalidAnnotation(Get(a, "annotationTypeId")))
      case None => Ok(Post(Url([studyId]), Command(uniqueId, ServerAnnotations(annotations.items, behaviour.getServerAnnotation))))
    else if Truthy(annotations) then Err(AnnotationsNotAList)
    else Ok(Post(Url([studyId]), Command(uniqueId, [])))
  }

  /** The server forms keep the length and the order of the annotations. */
  lemma {:induction false} ServerAnnotationsMap(xs: seq<Value>, f: Value -> Value)
    ensures |ServerAnnotations(xs, f)| == |xs|
    ensures forall i :: 0 <= i < |xs| ==> ServerAnnotations(xs, f)[i] == f(xs[i])
  {
    if xs != [] {
      ServerAnnotationsMap(xs[..|xs| - 1], f);
    }
  }

  /** No annotation is reported invalid exactly when every annotation is valid. */
  lemma {:induction false} LastInvalidNone(xs: seq<Value>, valid: Value -> bool)
    ensures LastInvalid(xs, valid).None? <==> forall i :: 0 <= i < |xs| ==> valid(xs[i])
  {
    if xs != [] {
      LastInvalidNone(xs[..|xs| - 1], valid);
    }
  }

  /** The annotation reported is invalid and every annotation after it is valid. */
  lemma {:induction false} LastInvalidIsLast(xs: seq<Value>, valid: Value -> bool) returns (k: nat)
    requires LastInvalid(xs, valid).Some?
    ensures k < |xs| && xs[k] == LastInvalid(xs, valid).value && !valid(xs[k])
    ensures forall j :: k < j < |xs| ==> valid(xs[j])
  {
    if !valid(xs[|xs| - 1]) {
      k := |xs| - 1;
    } else {
      k := LastInvalidIsLast(xs[..|xs| - 1], valid);
    }
  }

  /** `add` refuses exactly when the annotations are a list holding an invalid annotation (or a
      truthy non-list); the refusal names the last invalid annotation's type id. */
  lemma AddRefusesInvalid(studyId: Value, uniqueId: Value, xs: seq<Value>, behaviour: AnnotationBehaviour)
    ensures AddOutcome(studyId, uniqueId, Arr(xs), behaviour).Err? <==>
              exists i :: 0 <= i < |xs| && !behaviour.isValueValid(xs[i])
    ensures AddOutcome(studyId, uniqueId, Arr(xs), behaviour).Err? ==>
              exists k :: 0 <= k < |xs| && !behaviour.isValueValid(xs[k]) &&
                AddOutcome(studyId, uniqueId, Arr(xs), behaviour).error == InvalidAnnotation(Get(xs[k], "annotationTypeId")) &&
                forall j :: k < j < |xs| ==> behaviour.isValueValid(xs[j])
  {
    LastInvalidNone(xs, behaviour.isValueValid);
    if LastInvalid(xs, behaviour.isValueValid).Some? {
      var k := LastInvalidIsLast(xs, behaviour.isValueValid);
      assert !behaviour.isValueValid(xs[k]);
    }
  }

  /** An invalid annotation followed only by valid ones is the one reported. */
  lemma {:induction false} LastInvalidAt(xs: seq<Value>, valid: Value -> bool, k: nat)
    requires k < |xs| && !valid(xs[k])
    requires forall j :: k < j < |xs| ==> valid(xs[j])
    ensures LastInvalid(xs, valid) == Some(xs[k])
  {
    if k < |xs| - 1 {
      var prefix := xs[..|xs| - 1];
      assert forall j :: k < j < |prefix| ==> prefix[j] == xs[j];
      LastInvalidAt(prefix, valid, k);
    }
  }

  /** The text `add` rejects with names the type id of the last invalid annotation. */
  lemma AddRejectionText(studyId: Value, uniqueId: Value, xs: seq<Value>, behaviour: AnnotationBehaviour, k: nat)
    requires k < |xs| && !behaviour.isValueValid(xs[k])
    requires forall j :: k < j < |xs| ==> behaviour.isValueValid(xs[j])
    requires Get(xs[k], "annotationTypeId").Str?
    ensures AddOutcome(studyId, uniqueId, Arr(xs), behaviour).Err?
    ensures RejectionMessage(AddOutcome(studyId, uniqueId, Arr(xs), behaviour).error)
              == Some(INVALID_ANNOTATION_PREFIX + Get(xs[k], "annotationTypeId").s)
  {
    LastInvalidAt(xs, behaviour.isValueValid, k);
  }

  /** When every annotation is valid, `add` posts to `participants/<studyId>` a command holding the
      unique id and the server form of each annotation, in order; with no annotations (a falsy
      value) the command's annotations are empty. */
  lemma AddCommandShape(studyId: Value, uniqueId: Value, annotations: Value, behaviour: AnnotationBehaviour)
    requires annotations.Arr? ==> forall i :: 0 <= i < |annotations.items| ==> behaviour.isValueValid(annotations.items[i])
    requires !annotations.Arr? ==> !Truthy(annotations)
    ensures AddOutcome(studyId, uniqueId, annotations, behaviour).Ok?
    ensures var post := AddOutcome(studyId, uniqueId, annotations, behaviour).value;
            && post.url == [Str(REST_API_URL_SUFFIX), studyId]
            && post.body.uniqueId == uniqueId
            && (!annotations.Arr? ==> post.body.annotations == [])
            && (annotations.Arr? ==>
                  |post.body.annotations| == |annotations.items| &&
                  forall i :: 0 <= i < |annotations.items| ==>
                    post.body.annotations[i] == behaviour.getServerAnnotation(annotations.items[i]))
  {
    if annotations.Arr? {
      LastInvalidNone(annotations.items, behaviour.isValueValid);
      ServerAnnotationsMap(annotations.items, behaviour.getServerAnnotation);
    }
  }

  /** `Object.assign(defaults, obj)` for one property: the value `obj` has, else the default. */
  function Assigned(obj: Value, key: string, default: Value): Value {
    if HasKey(obj, key) then obj.props[key] else default
  }

  class Participant {
    var uniqueId: Value
    var studyId: Value
    var annotations: Value
    var study: Value

    /** Defaults `uniqueId` to `''`, `studyId` to `null` and `annotations` to `[]`, each overridden
        by `obj`; an `annotations` argument other than `undefined` overrides both; a truthy
        study is then set with `setStudy`. */
    constructor (obj: Value, study: Value, annotations: Value, setAnnotationTypes: (Value, Value) -> Value)
      ensures uniqueId == Assigned(obj, "uniqueId", Str(""))
      ensures !Truthy(study) ==> studyId == Assigned(obj, "studyId", Null)
      ensures !Truthy(study) ==> this.annotations == (if annotations != Undefined then annotations else Assigned(obj, "annotations", Arr([])))
      ensures this.study == study
      ensures Truthy(study) ==> studyId == Get(study, "id")
      ensures Truthy(study) ==>
                this.annotations == setAnnotationTypes(if annotations != Undefined then annotations else Assigned(obj, "annotations", Arr([])),
                                                       Get(study, "annotationTypes"))
    {
      uniqueId := Assigned(obj, "uniqueId", Str(""));
      studyId := Assigned(obj, "studyId", Null);
      this.annotations := if annotations != Undefined then annotations else Assigned(obj, "annotations", Arr([]));
      this.study := study;
      new;
      if Truthy(study) {
        SetStudy(study, setAnnotationTypes);
      }
    }

    /** Records the study and its id, and pairs the annotations with the study's annotation types. */
    method SetStudy(s: Value, setAnnotationTypes: (Value, Value) -> Value)
      requires !IsNil(s)
      modifies this
      ensures study == s && studyId == Get(s, "id")
      ensures annotations == setAnnotationTypes(old(annotations), Get(s, "annotationTypes"))
      ensures uniqueId == old(uniqueId)
    {
      study := s;
      studyId := Get(s, "id");
      annotations := setAnnotationTypes(annotations, Get(s, "annotationTypes"));
    }

    /** Participant.add up to the POST: maps every annotation to its server form while noting the
        last invalid one, then refuses or yields the request. */
    method Add(behaviour: AnnotationBehaviour) returns (r: Result<Post, AddError>)
      ensures r == AddOutcome(studyId, uniqueId, annotations, behaviour)
    {
      var invalid: Option<Value> := None;
      var cmdAnnotations: seq<Value> := [];
      if annotations.Arr? {
        var xs := annotations.items;
        var i := 0;
        while i < |xs|
          invariant 0 <= i <= |xs|
          invariant cmdAnnotations == ServerAnnotations(xs[..i], behaviour.getServerAnnotation)
          invariant invalid == LastInvalid(xs[..i], behaviour.isValueValid)
        {
          var annotation := xs[i];
          if !behaviour.isValueValid(annotation) {
            invalid := Some(annotation);
          }
          cmdAnnotations := cmdAnnotations + [behaviour.getServerAnnotation(annotation)];
          assert xs[..i + 1][..i] == xs[..i];
          i := i + 1;
        }
        assert xs[..i] == xs;
      } else if Truthy(annotations) {
        return Err(AnnotationsNotAList);
      }
      if invalid.Some? {
        return Err(InvalidAnnotation(Get(invalid.value, "annotationTypeId")));
      }
      r := Ok(Post(Url([studyId]), Command(uniqueId, cmdAnnotations)));
    }

    /** Participant.create: refuses an object that fails the schema; otherwise builds the
        participant and keeps the raw annotation objects unchanged. */
    static method Create(obj: Value) returns (r: Result<Participant, Schemas.Violation>)
      ensures r.Err? <==> !Schemas.Conforms(SCHEMA, obj)
      ensures r.Err? ==> r.error == Schemas.Validate(SCHEMA, obj).error
      ensures r.Ok? ==> fresh(r.value)
      ensures r.Ok? ==> r.value.annotations == Get(obj, "annotations")
      ensures r.Ok? ==> r.value.uniqueId == Get(obj, "uniqueId")
      ensures r.Ok? ==> r.value.studyId == Assigned(obj, "studyId", Null) && r.value.study == Undefined
    {
      var validation := Schemas.Validate(SCHEMA, obj);
      if validation.Fail? {
        return Err(validation.error);
      }
      assert "uniqueId" in SCHEMA.required && "annotations" in SCHEMA.required;
      // No study is given, so the pairing function is never applied.
      var p := new Participant(obj, Undefined, Undefined, (a, types) => a);
      if Truthy(Get(obj, "annotations")) {
        p.annotations := Get(obj, "annotations");
      }
      r := Ok(p);
    }
  }
}
