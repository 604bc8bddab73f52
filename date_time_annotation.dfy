/** An annotation whose value is a date and time. Date parsing (`new Date(...)` on a string)
    and the time service's formatting are supplied by the caller as functions. */
module DateTimeAnnotations {
  import opened JsValues
  import AnnotationTypes

  /** The host's date facilities: JavaScript's parsing of a date string, and the time
      service's display and UTC formatting. */
  datatype DateFacilities = DateFacilities(
    parse: string -> Date,
    toDisplayString: Value -> string,
    toUtcString: Value -> string)

  /** The wire form of an annotation. */
  datatype ServerAnnotation = ServerAnnotation(annotationTypeId: Value, stringValue: string, selectedValues: seq<Value>)

  const VALUE_TYPE := "DateTime"

  /** The server annotation as the object sent over the wire. */
  function ServerObject(a: ServerAnnotation): Value {
    Obj(map["annotationTypeId" := a.annotationTypeId,
            "stringValue" := Str(a.stringValue),
            "selectedValues" := Arr(a.selectedValues)])
  }

  /** The largest distance from the epoch, in milliseconds, that a JavaScript Date can hold. */
  const MAX_TIME_MILLIS := 8_640_000_000_000_000

  /** A time value as a Date: outside the range a Date can hold it is the invalid date. */
  function TimeClip(n: int): (d: Date)
    ensures d.At? <==> -MAX_TIME_MILLIS <= n <= MAX_TIME_MILLIS
    ensures d.At? ==> d.millis == n
  {
    if -MAX_TIME_MILLIS <= n <= MAX_TIME_MILLIS then At(n) else InvalidDate
  }

  /** JavaScript `new Date(v)`. Objects and arrays, which JavaScript first converts to a string,
      are taken to give the invalid date. */
  function NewDate(v: Value, parse: string -> Date): Date {
    match v
    case Str(s) => parse(s)
    case Num(n) => TimeClip(n)
    case Bool(b) => At(if b then 1 else 0)
    case Null => At(0)
    case DateV(d) => d
    case _ => InvalidDate
  }

  /** The value the constructor stores for `obj`: a Date when `obj.value` is truthy, else `null`. */
  function InitialValue(obj: Value, parse: string -> Date): (r: Value)
    ensures r.Null? <==> !Truthy(Get(obj, "value"))
    ensures r.Null? || r.DateV?
  {
    if Truthy(Get(obj, "value")) then DateV(NewDate(Get(obj, "value"), parse)) else Null
  }

  /** The client object that `create` builds from a server annotation: the type's id and the
      server's `stringValue`, or `null` when that is empty or missing. */
  function ClientObject(serverObj: Value, annotationTypeId: string): Value {
    Obj(map["annotationTypeId" := Str(annotationTypeId),
            "value" := Or(Get(serverObj, "stringValue"), Null)])
  }

  /** What `create` stores: an empty or missing `stringValue` gives `null`; a non-empty string
      gives the date it parses to. */
  lemma CreatedValue(serverObj: Value, annotationTypeId: string, parse: string -> Date)
    ensures !Truthy(Get(serverObj, "stringValue")) ==> InitialValue(ClientObject(serverObj, annotationTypeId), parse) == Null
    ensures Get(serverObj, "stringValue").Str? && Get(serverObj, "stringValue").s != "" ==>
              InitialValue(ClientObject(serverObj, annotationTypeId), parse) == DateV(parse(Get(serverObj, "stringValue").s))
    ensures Get(ClientObject(serverObj, annotationTypeId), "annotationTypeId") == Str(annotationTypeId)
  {
  }

  class DateTimeAnnotation {
    var annotationType: AnnotationTypes.AnnotationType
    var annotationTypeId: Value
    var valueType: string
    var value: Value

    /** Stores the annotation type, takes `annotationTypeId` from `obj` (what the base
        annotation's constructor is assumed to do), and normalises `obj.value`: falsy becomes `null`, anything else a Date. */
    constructor (obj: Value, annotationType: AnnotationTypes.AnnotationType, parse: string -> Date)
      ensures this.annotationType == annotationType
      ensures annotationTypeId == Get(obj, "annotationTypeId")
      ensures valueType == VALUE_TYPE
      ensures value == InitialValue(obj, parse)
      ensures value.Null? <==> !Truthy(Get(obj, "value"))
    {
      this.annotationType := annotationType;
      annotationTypeId := Get(obj, "annotationTypeId");
      valueType := VALUE_TYPE;
      value := InitialValue(obj, parse);
    }

    /** The value for display: `null` exactly when no value is set, else the formatted date. */
    function GetValue(dates: DateFacilities): (r: Value)
      reads this
      ensures r.Null? <==> value.Null?
      ensures !value.Null? ==> r == Str(dates.toDisplayString(value))
    {
      if value.Null? then Null else Str(dates.toDisplayString(value))
    }

    /** A string is parsed into a Date; any other value is stored as given. Nothing else changes. */
    method SetValue(v: Value, parse: string -> Date)
      modifies this`value
      ensures v.Str? ==> value == DateV(parse(v.s))
      ensures !v.Str? ==> value == v
    {
      if v.Str? {
        value := DateV(parse(v.s));
      } else {
        value := v;
      }
    }

    /** The wire form: no selected values, the UTC string of the value or `''` when unset, and the
        annotation type's id. */
    function GetServerAnnotation(toUtcString: Value -> string): (r: ServerAnnotation)
      reads this
      ensures r.selectedValues == []
      ensures r.annotationTypeId == annotationTypeId
      ensures !Truthy(value) ==> r.stringValue == ""
      ensures Truthy(value) ==> r.stringValue == toUtcString(value)
    {
      ServerAnnotation(annotationTypeId, if Truthy(value) then toUtcString(value) else "", [])
    }

    /** DateTimeAnnotation.create: builds the client object from a server annotation and
        constructs the annotation from it. */
    static method Create(serverObj: Value, annotationType: AnnotationTypes.AnnotationType, parse: string -> Date)
      returns (a: DateTimeAnnotation)
      ensures fresh(a)
      ensures a.annotationType == annotationType && a.valueType == VALUE_TYPE
      ensures a.annotationTypeId == Str(annotationType.id)
      ensures a.value == InitialValue(ClientObject(serverObj, annotationType.id), parse)
      ensures !Truthy(Get(serverObj, "stringValue")) ==> a.value == Null
    {
      CreatedValue(serverObj, annotationType.id, parse);
      a := new DateTimeAnnotation(ClientObject(serverObj, annotationType.id), annotationType, parse);
    }
  }

  /** Round trip: an annotation holding date `d` is sent to the server and re-created from the
      reply with the same annotation type; when the UTC string is non-empty and parses back to
      `d`, the re-created annotation holds `d` and names the same annotation type. */
  lemma {:induction false} ServerRoundTrip(a: DateTimeAnnotation, dates: DateFacilities, d: Date)
    requires a.value == DateV(d)
    requires a.annotationTypeId == Str(a.annotationType.id)
    requires dates.toUtcString(DateV(d)) != ""
    requires dates.parse(dates.toUtcString(DateV(d))) == d
    ensures var sent := ServerObject(a.GetServerAnnotation(dates.toUtcString));
            var client := ClientObject(sent, a.annotationType.id);
            InitialValue(client, dates.parse) == DateV(d) &&
            Get(client, "annotationTypeId") == a.annotationTypeId
  {
    var server := a.GetServerAnnotation(dates.toUtcString);
    assert server.stringValue == dates.toUtcString(DateV(d));
    var sent := ServerObject(server);
    assert Get(sent, "stringValue") == Str(server.stringValue);
    CreatedValue(sent, a.annotationType.id, dates.parse);
  }
}
