/** Summary information for a study: its identity, name and state. */
module StudyNames {
  import opened JsValues

  /** The study states (StudyState). */
  const DISABLED := "disabled"
  const ENABLED := "enabled"
  const RETIRED := "retired"
  const STUDY_STATES: seq<string> := [DISABLED, ENABLED, RETIRED]

  /** The object a StudyName is built from when none is given. */
  const DEFAULT_OBJECT: Value := Obj(map["state" := Str(DISABLED)])

  datatype StudyName = StudyName(id: Value, slug: Value, name: Value, state: Value) {

    /** A disabled study is neither enabled nor retired. */
    predicate IsDisabled()
      ensures IsDisabled() ==> state != Str(ENABLED) && state != Str(RETIRED)
    {
      state == Str(DISABLED)
    }

    /** An enabled study is neither disabled nor retired. */
    predicate IsEnabled()
      ensures IsEnabled() ==> state != Str(DISABLED) && state != Str(RETIRED)
    {
      state == Str(ENABLED)
    }

    /** A retired study is neither disabled nor enabled. */
    predicate IsRetired()
      ensures IsRetired() ==> state != Str(DISABLED) && state != Str(ENABLED)
    {
      state == Str(RETIRED)
    }
  }

  /** `new StudyName(obj)`: the fields come from `obj`, and a missing argument is replaced by an
      object in the disabled state. */
  function New(obj: Value): (sn: StudyName)
    ensures obj == Undefined ==> sn.IsDisabled() && !sn.IsEnabled() && !sn.IsRetired()
    ensures obj == Undefined ==> sn.id == Undefined && sn.slug == Undefined && sn.name == Undefined
    ensures obj != Undefined ==> sn.state == Get(obj, "state") && sn.id == Get(obj, "id")
    ensures obj != Undefined ==> sn.slug == Get(obj, "slug") && sn.name == Get(obj, "name")
  {
    var o := if obj == Undefined then DEFAULT_OBJECT else obj;
    StudyName(Get(o, "id"), Get(o, "slug"), Get(o, "name"), Get(o, "state"))
  }

  /** For every study state, exactly the predicate of that state holds. */
  lemma StatePredicatesExact(sn: StudyName, st: string)
    requires st in STUDY_STATES && sn.state == Str(st)
    ensures sn.IsDisabled() <==> st == DISABLED
    ensures sn.IsEnabled() <==> st == ENABLED
    ensures sn.IsRetired() <==> st == RETIRED
    ensures (if sn.IsDisabled() then 1 else 0) + (if sn.IsEnabled() then 1 else 0) + (if sn.IsRetired() then 1 else 0) == 1
  {
  }

  /** A state outside the three leaves every predicate false. */
  lemma UnknownStateMatchesNone(sn: StudyName)
    requires forall st :: st in STUDY_STATES ==> sn.state != Str(st)
    ensures !sn.IsDisabled() && !sn.IsEnabled() && !sn.IsRetired()
  {
    assert DISABLED in STUDY_STATES && ENABLED in STUDY_STATES && RETIRED in STUDY_STATES;
  }

  /** StudyName.url(...paths): the path items below `studies/names`. */
  function Url(paths: seq<Value>): (r: seq<Value>)
    ensures |r| == |paths| + 2
    ensures r[0] == Str("studies") && r[1] == Str("names") && r[2..] == paths
  {
    [Str("studies"), Str("names")] + paths
  }
}
