/** A role: a named set of permissions held by users, with parent and child roles. The model
    covers the client-side work around the REST calls: the add command's id lists, the guards
    on roles that were never saved, the update-description body and the list query parameters. */
module Roles {
  import opened JsValues
  import opened Results

  const URL_PREFIX := "access/roles"
  const NOT_PERSISTED := "role has not been persisted"

  /** The options that `list` passes on as query parameters. */
  const LIST_KEYS: seq<string> := ["filter", "page", "limit"]

  /** Identifying information about another entity (a user or a role). */
  datatype EntityInfo = EntityInfo(id: Value, name: Value)

  /** `new EntityInfo(info)`: the id and name of a raw entity-info object. */
  function EntityInfoOf(info: Value): EntityInfo {
    EntityInfo(Get(info, "id"), Get(info, "name"))
  }

  /** `infos.map(info => new EntityInfo(info))`. */
  function ToEntityInfos(xs: seq<Value>): seq<EntityInfo> {
    if xs == [] then [] else [EntityInfoOf(xs[0])] + ToEntityInfos(xs[1..])
  }

  /** `infos.map(info => info.id)`. */
  function Ids(infos: seq<EntityInfo>): seq<Value> {
    if infos == [] then [] else [infos[0].id] + Ids(infos[1..])
  }

  lemma {:induction false} ToEntityInfosMap(xs: seq<Value>)
    ensures |ToEntityInfos(xs)| == |xs|
    ensures forall i :: 0 <= i < |xs| ==> ToEntityInfos(xs)[i] == EntityInfoOf(xs[i])
  {
    if xs != [] {
      ToEntityInfosMap(xs[1..]);
    }
  }

  lemma {:induction false} IdsMap(infos: seq<EntityInfo>)
    ensures |Ids(infos)| == |infos|
    ensures forall i :: 0 <= i < |infos| ==> Ids(infos)[i] == infos[i].id
  {
    if infos != [] {
      IdsMap(infos[1..]);
    }
  }

  /** An entity-info list property that is either absent or an array. */
  predicate InfoListGiven(obj: Value, key: string) {
    !HasKey(obj, key) || Get(obj, key).Arr?
  }

  /** The entity-info list a role takes from `obj[key]`, defaulting to the empty list. */
  function InfoList(obj: Value, key: string): (r: seq<EntityInfo>)
    requires InfoListGiven(obj, key)
    ensures !HasKey(obj, key) ==> r == []
    ensures HasKey(obj, key) ==>
              (|r| == |Get(obj, key).items| &&
               forall i :: 0 <= i < |r| ==> r[i] == EntityInfoOf(Get(obj, key).items[i]))
  {
    if HasKey(obj, key) then
      ToEntityInfosMap(Get(obj, key).items);
      ToEntityInfos(Get(obj, key).items)
    else []
  }

  /** The JSON body of the add request. */
  datatype RoleJson = RoleJson(name: Value, description: Value, userIds: seq<Value>, parentIds: seq<Value>, childIds: seq<Value>)

  /** A request: its URL path items and its JSON body. */
  datatype Post = Post(url: seq<Value>, json: RoleJson)
  datatype Update = Update(url: seq<Value>, json: map<string, Value>)

  /** Role.url(...pathItems): the path items below the roles endpoint. */
  function Url(pathItems: seq<Value>): (r: seq<Value>)
    ensures |r| == |pathItems| + 1 && r[0] == Str(URL_PREFIX) && r[1..] == pathItems
  {
    [Str(URL_PREFIX)] + pathItems
  }

  /** The body of the update-description request: the description when it is truthy, otherwise
      the empty object. */
  function DescriptionBody(description: Value): (body: map<string, Value>)
    ensures body.Keys <= {"description"}
    ensures "description" in body <==> Truthy(description)
    ensures "description" in body ==> body["description"] == description
  {
    if Truthy(description) then map["description" := description] else map[]
  }

  /** lodash `_.pick(obj, keys)`: the listed properties that `obj` has. */
  function Pick(obj: Value, keys: seq<string>): map<string, Value> {
    if obj.Obj? then map k | k in keys && k in obj.props :: obj.props[k] else map[]
  }

  /** `_.omitBy(m, value => value === '')`. */
  function OmitEmptyStrings(m: map<string, Value>): map<string, Value> {
    map k | k in m && m[k] != Str("") :: m[k]
  }

  /** The query parameters `list` sends: the `filter`, `page` and `limit` options that are given and
      not the empty string, with their values; nothing for absent options. */
  function ListParams(options: Value): (params: map<string, Value>)
    ensures forall k :: k in params <==> k in LIST_KEYS && HasKey(options, k) && options.props[k] != Str("")
    ensures forall k :: k in params ==> HasKey(options, k) && params[k] == options.props[k]
    ensures !options.Obj? ==> params == map[]
  {
    OmitEmptyStrings(Pick(Or(options, EmptyObject), LIST_KEYS))
  }

  class Role {
    var id: Value
    var version: Value
    var name: Value
    var description: Value
    var userData: seq<EntityInfo>
    var parentData: seq<EntityInfo>
    var childData: seq<EntityInfo>

    /** Takes the role's fields from `obj`; each entity-info list defaults to empty and otherwise
        has one entity info per raw entry, in order. */
    constructor (obj: Value)
      requires InfoListGiven(obj, "userData") && InfoListGiven(obj, "parentData") && InfoListGiven(obj, "childData")
      ensures id == Get(obj, "id") && version == Get(obj, "version")
      ensures name == Get(obj, "name") && description == Get(obj, "description")
      ensures userData == InfoList(obj, "userData")
      ensures parentData == InfoList(obj, "parentData")
      ensures childData == InfoList(obj, "childData")
    {
      id := Get(obj, "id");
      version := Get(obj, "version");
      name := Get(obj, "name");
      description := Get(obj, "description");
      userData := InfoList(obj, "userData");
      parentData := InfoList(obj, "parentData");
      childData := InfoList(obj, "childData");
    }

    /** The add request: name and description, and the ids of the users, parent roles and child
        roles, each list in the order and of the length of the role's entity infos. */
    function AddRequest(): (r: Post)
      reads this
      ensures r.url == Url([])
      ensures r.json.name == name && r.json.description == description
      ensures |r.json.userIds| == |userData| && forall i :: 0 <= i < |userData| ==> r.json.userIds[i] == userData[i].id
      ensures |r.json.parentIds| == |parentData| && forall i :: 0 <= i < |parentData| ==> r.json.parentIds[i] == parentData[i].id
      ensures |r.json.childIds| == |childData| && forall i :: 0 <= i < |childData| ==> r.json.childIds[i] == childData[i].id
    {
      IdsMap(userData);
      IdsMap(parentData);
      IdsMap(childData);
      Post(Url([]), RoleJson(name, description, Ids(userData), Ids(parentData), Ids(childData)))
    }

    /** The delete request of `remove`; refused for a role that has no id. */
    function RemoveRequest(): (r: Result<seq<Value>, string>)
      reads this
      ensures r.Err? <==> IsNil(id)
      ensures r.Err? ==> r.error == NOT_PERSISTED
      ensures r.Ok? ==> r.value == Url([id, version])
    {
      if IsNil(id) then Err(NOT_PERSISTED) else Ok(Url([id, version]))
    }

    /** The delete request that unlinks another entity from this role: to
        `access/roles/<relation>/<id>/<version>/<otherId>`, refused for a role that has no id. */
    function RemoveRelationRequest(relation: string, otherId: Value): (r: Result<seq<Value>, string>)
      reads this
      ensures r.Err? <==> IsNil(id)
      ensures r.Err? ==> r.error == NOT_PERSISTED
      ensures r.Ok? ==> r.value == Url([Str(relation), id, version, otherId])
    {
      if IsNil(id) then Err(NOT_PERSISTED) else Ok(Url([Str(relation), id, version, otherId]))
    }

    /** The delete request of `removeUser`. */
    function RemoveUserRequest(userId: Value): (r: Result<seq<Value>, string>)
      reads this
      ensures r.Err? <==> IsNil(id)
      ensures r.Ok? ==> r.value == Url([Str("user"), id, version, userId])
    {
      RemoveRelationRequest("user", userId)
    }

    /** The delete request of `removeParentRole`. */
    function RemoveParentRoleRequest(parentId: Value): (r: Result<seq<Value>, string>)
      reads this
      ensures r.Err? <==> IsNil(id)
      ensures r.Ok? ==> r.value == Url([Str("parent"), id, version, parentId])
    {
      RemoveRelationRequest("parent", parentId)
    }

    /** The delete request of `removeChildRole`. */
    function RemoveChildRoleRequest(childId: Value): (r: Result<seq<Value>, string>)
      reads this
      ensures r.Err? <==> IsNil(id)
      ensures r.Ok? ==> r.value == Url([Str("child"), id, version, childId])
    {
      RemoveRelationRequest("child", childId)
    }

    /** The update request of `updateDescription`: to `access/roles/description/<id>`, carrying the
        description only when it is truthy. */
    function UpdateDescriptionRequest(newDescription: Value): (r: Update)
      reads this
      ensures r.url == Url([Str("description"), id])
      ensures r.json.Keys <= {"description"}
      ensures "description" in r.json <==> Truthy(newDescription)
      ensures "description" in r.json ==> r.json["description"] == newDescription
    {
      Update(Url([Str("description"), id]), DescriptionBody(newDescription))
    }
  }

  /** The four removal operations agree: each is refused, with the same message, exactly when the
      role has not been persisted. */
  lemma RemovalGuardsAgree(role: Role, other: Value)
    ensures role.RemoveRequest().Err? == role.RemoveUserRequest(other).Err?
              == role.RemoveParentRoleRequest(other).Err? == role.RemoveChildRoleRequest(other).Err?
    ensures role.RemoveRequest().Err? ==>
              role.RemoveRequest() == role.RemoveUserRequest(other) == Err(NOT_PERSISTED) &&
              role.RemoveParentRoleRequest(other) == role.RemoveChildRoleRequest(other) == Err(NOT_PERSISTED)
  {
  }
}
