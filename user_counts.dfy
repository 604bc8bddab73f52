/** Counts of users by state, as shown on the administration pages. */
module Users {
  import opened JsValues

  /** The four counts a UserCounts object holds. */
  const COUNT_KEYS: seq<string> := ["total", "registered", "active", "locked"]

  datatype UserCounts = UserCounts(total: Value, registered: Value, active: Value, locked: Value)

  /** The count stored under one of the four keys. */
  function Count(c: UserCounts, key: string): Value
    requires key in COUNT_KEYS
  {
    if key == "total" then c.total
    else if key == "registered" then c.registered
    else if key == "active" then c.active
    else c.locked
  }

  /** `_.extend(this, defaults, _.pick(options, keys))` for one key: the option when `options` has
      that property (whatever its value), else the default 0. */
  function PickedOrZero(options: Value, key: string): Value {
    if HasKey(options, key) then options.props[key] else Num(0)
  }

  /** `new UserCounts(options)`: each of the four counts is the option of that name when an
      options object supplies it, and 0 otherwise. */
  function New(options: Value): (c: UserCounts)
    ensures forall key :: key in COUNT_KEYS ==>
              Count(c, key) == if options.Obj? && key in options.props then options.props[key] else Num(0)
  {
    var o := Or(options, EmptyObject);
    UserCounts(PickedOrZero(o, "total"), PickedOrZero(o, "registered"),
               PickedOrZero(o, "active"), PickedOrZero(o, "locked"))
  }

  /** With no options every count is 0. */
  lemma NoOptionsAllZero(options: Value)
    requires !options.Obj?
    ensures New(options) == UserCounts(Num(0), Num(0), Num(0), Num(0))
  {
  }

  /** A known key that is supplied overrides its default; one that is not supplied stays 0. */
  lemma SuppliedCountsOverride(m: map<string, Value>, key: string)
    requires key in COUNT_KEYS
    ensures Count(New(Obj(m)), key) == if key in m then m[key] else Num(0)
  {
  }

  /** Keys other than the four counts are ignored. */
  lemma OtherKeysIgnored(m: map<string, Value>, key: string, v: Value)
    requires key !in COUNT_KEYS
    ensures New(Obj(m[key := v])) == New(Obj(m))
  {
  }

  /** The counts built from the server's reply to `UserCounts.get`: `total` as is, and
      `registeredCount`, `activeCount` and `lockedCount` under their short names. */
  function FromServerReply(response: Value): (c: UserCounts)
    ensures c.total == Get(response, "total")
    ensures c.registered == Get(response, "registeredCount")
    ensures c.active == Get(response, "activeCount")
    ensures c.locked == Get(response, "lockedCount")
  {
    New(Obj(map["total" := Get(response, "total"),
                "registered" := Get(response, "registeredCount"),
                "active" := Get(response, "activeCount"),
                "locked" := Get(response, "lockedCount")]))
  }
}
