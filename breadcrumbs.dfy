/** Breadcrumbs for the application's navigation bar: which label each navigation state shows. */
module Breadcrumbs {
  import opened Results

  /** A display-name function: `() => gettextCatalog.getString(msgid)`, known by its message id. */
  datatype Label = Translated(msgid: string)

  /** A breadcrumb: the state it routes to and the function giving its display name. */
  datatype Breadcrumb<F> = Breadcrumb(route: string, displayNameFn: F)

  const ADD_LABEL := Translated("Add")
  const ROLE_LABEL := Translated("Roles")

  const UNDEFINED_STATE_PREFIX := "display name function is undefined for state: "

  /** The fixed map from navigation state to display-name function. */
  const STATE_LABELS: map<string, Label> := map[
    "home" := Translated("Home"),
    "home.about" := Translated("About"),
    "home.contact" := Translated("Contact"),
    "home.admin" := Translated("Administration"),
    "home.admin.studies" := Translated("Studies"),
    "home.admin.centres" := Translated("Centres"),
    "home.admin.access" := Translated("Users"),
    "home.admin.access.users" := Translated("Manage users"),
    "home.admin.access.users.user.roles" := ROLE_LABEL,
    "home.admin.access.roles" := ROLE_LABEL,
    "home.admin.access.memberships" := Translated("Memberships"),
    "home.collection" := Translated("Collection"),
    "home.shipping" := Translated("Shipping"),
    "home.shipping.add" := Translated("Add shipment"),
    "home.collection.study.participantAdd" := Translated("Add participant"),
    "home.admin.centres.add" := ADD_LABEL,
    "home.admin.studies.add" := ADD_LABEL,
    "home.admin.access.memberships.add" := ADD_LABEL
  ]

  /** The breadcrumb for a known state; an unknown state is an error naming it. */
  function ForState(stateName: string): (r: Result<Breadcrumb<Label>, string>)
    ensures r.Ok? <==> stateName in STATE_LABELS
    ensures r.Ok? ==> r.value.route == stateName && r.value.displayNameFn == STATE_LABELS[stateName]
    ensures r.Err? ==> r.error == UNDEFINED_STATE_PREFIX + stateName
  {
    if stateName !in STATE_LABELS then Err(UNDEFINED_STATE_PREFIX + stateName)
    else Ok(Breadcrumb(stateName, STATE_LABELS[stateName]))
  }

  /** A breadcrumb for any state with a caller-supplied display-name function: no lookup, no failure. */
  function ForStateWithFunc<F>(stateName: string, displayNameFn: F): (r: Breadcrumb<F>)
    ensures r.route == stateName && r.displayNameFn == displayNameFn
  {
    Breadcrumb(stateName, displayNameFn)
  }

  /** The breadcrumb of every state the service's tests list resolves, routing to that state. */
  lemma ListedStatesResolve(stateName: string)
    requires stateName in ["home", "home.about", "home.contact", "home.admin", "home.admin.studies",
                           "home.admin.centres", "home.admin.access", "home.admin.access.users",
                           "home.admin.access.roles", "home.admin.access.memberships", "home.collection",
                           "home.shipping", "home.shipping.add", "home.collection.study.participantAdd",
                           "home.admin.centres.add", "home.admin.studies.add", "home.admin.access.memberships.add"]
    ensures ForState(stateName).Ok? && ForState(stateName).value.route == stateName
  {
  }

  /** The two role states share one label function, and so do the three admin `add` states. */
  lemma SharedLabels()
    ensures STATE_LABELS["home.admin.access.users.user.roles"] == STATE_LABELS["home.admin.access.roles"] == ROLE_LABEL
    ensures STATE_LABELS["home.admin.centres.add"] == STATE_LABELS["home.admin.studies.add"]
              == STATE_LABELS["home.admin.access.memberships.add"] == ADD_LABEL
  {
  }
}
