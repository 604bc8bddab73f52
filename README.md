# Biobank client domain layer, modelled in Dafny

This project models the client-side domain layer of the biobank web application. That layer is
the set of small entity classes that check and reshape data before or after a REST call:

- annotation types, which define custom fields: value-type predicates, the `maxValueCount` rule,
  editing of the option list, and the schema check on creation;
- date-time annotations: normalising the value, and its wire form;
- participants: building the add command and refusing it when an annotation is invalid;
- roles: the id lists of the add command, the guards on roles that were never saved, the
  update-description body, and the list query parameters;
- study names, user counts, and the breadcrumb labels of navigation states.

The HTTP calls are cut off. Each operation is modelled up to the request it would send, or the
error it raises (as a `Result`/`Outcome` value). JavaScript values are modelled by
`JsValues.Value`, so `undefined`, `null`, truthiness, `||` and property reads behave as in the
source. The schema engine behind the entity `isValid` methods is modelled in `Schemas`: an
object conforms when all required properties are present (a property whose value is
`undefined` counts as absent) and each declared property that is present has one of the
listed JSON types.

Files:

- `results.dfy`, `js_values.dfy`: shared wrappers and JavaScript values.
- `schemas.dfy`: the schema check.
- `annotation_type.dfy`: AnnotationType.js.
- `date_time_annotation.dfy`: DateTimeAnnotation.js.
- `participant.dfy`: Participant.js.
- `role.dfy`: Role.js.
- `study_name.dfy`: StudyName.js.
- `user_counts.dfy`: UserCounts.js.
- `breadcrumbs.dfy`: breadcrumbService.js.

Some collaborators are not part of this model: the date parser, the time service, the base
`Annotation` class's `isValueValid` and `getServerAnnotation`, and `HasAnnotations.setAnnotationTypes`.
The model receives them as function-valued parameters (`DateFacilities`, `AnnotationBehaviour`,
`setAnnotationTypes`).

Several constant objects are not part of this model either. For these the model uses the values
of the wire format:

- AnnotationValueType: `"Text"`, `"Number"`, `"DateTime"`, `"Select"`;
- AnnotationMaxValueCount: NONE 0, SELECT_SINGLE 1, SELECT_MULTIPLE 2;
- StudyState: `"disabled"`, `"enabled"`, `"retired"`.

Every property proved depends only on these constants being distinct.

Notes on the code:

- **Required fields.** The annotation type schema requires `slug` along with `id`, `name`,
  `valueType` and `required` (AnnotationType.js:179).
- **Count validity.** `valueTypeChanged` leaves a select type's count as it was, so
  `isMaxValueCountValid()` can be false afterwards. `removeOption` does not look at the value
  type.

## Model

| member | source | states |
|---|---|---|
| `AnnotationTypes.AnnotationType.IsValueTypeText` | app/assets/javascripts/domain/annotations/AnnotationType/AnnotationType.js:75-77 | a text type has none of the other three value types |
| `AnnotationTypes.AnnotationType.IsValueTypeNumber` | app/assets/javascripts/domain/annotations/AnnotationType/AnnotationType.js:79-81 | a number type has none of the other three value types |
| `AnnotationTypes.AnnotationType.IsValueTypeDateTime` | app/assets/javascripts/domain/annotations/AnnotationType/AnnotationType.js:83-85 | a date-time type has none of the other three value types |
| `AnnotationTypes.AnnotationType.IsValueTypeSelect` | app/assets/javascripts/domain/annotations/AnnotationType/AnnotationType.js:87-89 | a select type has none of the other three value types |
| `AnnotationTypes.ValueTypesExclusive` | app/assets/javascripts/domain/annotations/AnnotationType/AnnotationType.js:75-89 | at most one of the Text, Number, DateTime and Select predicates holds |
| `AnnotationTypes.AnnotationType.IsSingleSelect` | app/assets/javascripts/domain/annotations/AnnotationType/AnnotationType.js:91-94 | a single select is a select value type |
| `AnnotationTypes.AnnotationType.IsMultipleSelect` | app/assets/javascripts/domain/annotations/AnnotationType/AnnotationType.js:96-99 | a multiple select is a select value type |
| `AnnotationTypes.SelectKindsExclusive` | app/assets/javascripts/domain/annotations/AnnotationType/AnnotationType.js:91-99 | no annotation type is both a single and a multiple select |
| `AnnotationTypes.AnnotationType.IsMaxValueCountValid` | app/assets/javascripts/domain/annotations/AnnotationType/AnnotationType.js:104-110 | for Select: valid iff the count is SELECT_SINGLE or SELECT_MULTIPLE; otherwise: valid iff it is `null` or NONE (`undefined` is not valid) |
| `AnnotationTypes.AnnotationType.ValueTypeChanged` | app/assets/javascripts/domain/annotations/AnnotationType/AnnotationType.js:115-120 | options become empty; a non-select type gets count NONE and a valid count; a select type keeps its count; no other field changes |
| `AnnotationTypes.AnnotationType.AddOption` | app/assets/javascripts/domain/annotations/AnnotationType/AnnotationType.js:125-130 | a non-select type fails with "value type is not select: <type>" and keeps its options; a select type appends exactly one `''` after the earlier options |
| `AnnotationTypes.AnnotationType.RemoveOption` | app/assets/javascripts/domain/annotations/AnnotationType/AnnotationType.js:135-140 | fails when at most one option is left; otherwise the options become the splice of the old ones and are never empty; for an in-range index, exactly that element goes and the length drops by one |
| `AnnotationTypes.SpliceInRange` | app/assets/javascripts/domain/annotations/AnnotationType/AnnotationType.js:139 | `splice(i, 1)` with `0 <= i < length` removes exactly element `i` |
| `AnnotationTypes.SpliceFromEnd` | app/assets/javascripts/domain/annotations/AnnotationType/AnnotationType.js:139 | a negative index removes the element counted back from the end |
| `AnnotationTypes.SplicePastEnd` | app/assets/javascripts/domain/annotations/AnnotationType/AnnotationType.js:139 | an index at or past the end removes nothing |
| `AnnotationTypes.SpliceLeavesOne` | app/assets/javascripts/domain/annotations/AnnotationType/AnnotationType.js:135-140 | splice removes at most one element, so a list of two or more keeps at least one |
| `AnnotationTypes.IncludesAllMeans` | app/assets/javascripts/domain/annotations/AnnotationType/AnnotationType.js:148 | the `reduce` with `memo && options.includes(x)` is `memo` and "every element is an option" |
| `AnnotationTypes.AnnotationType.ValidOptions` | app/assets/javascripts/domain/annotations/AnnotationType/AnnotationType.js:147-149 | true iff every candidate is among the options; true for no candidates |
| `AnnotationTypes.AnnotationType.Create` | app/assets/javascripts/domain/annotations/AnnotationType/AnnotationType.js:155-163 | fails, naming the violation, exactly when the object does not conform to the schema; otherwise a fresh type whose fields are the object's |
| `AnnotationTypes.CreateNeedsRequiredFields` | app/assets/javascripts/domain/annotations/AnnotationType/AnnotationType.js:166-180 | an object missing any of `id`, `slug`, `name`, `valueType`, `required` does not conform |
| `Schemas.Validate` | app/assets/javascripts/domain/annotations/AnnotationType/AnnotationType.js:151-153 | passes iff the object conforms; otherwise names the reason: not an object, a missing required property, or a property of the wrong type |
| `Schemas.MissingRequiredRefused` | app/assets/javascripts/domain/annotations/AnnotationType/AnnotationType.js:179 | a missing required property makes the check fail |
| `DateTimeAnnotations.TimeClip` | app/assets/javascripts/domain/annotations/DateTimeAnnotation/DateTimeAnnotation.js:26 | a number given to `new Date` is a valid date, of that many milliseconds, iff it is within 8.64e15 of the epoch |
| `DateTimeAnnotations.InitialValue` | app/assets/javascripts/domain/annotations/DateTimeAnnotation/DateTimeAnnotation.js:25-29 | the stored value is `null` iff `obj.value` is falsy, and a Date otherwise |
| `DateTimeAnnotations.DateTimeAnnotation.constructor` | app/assets/javascripts/domain/annotations/DateTimeAnnotation/DateTimeAnnotation.js:21-31 | value type is always DateTime; the value is `null` iff `obj.value` is falsy |
| `DateTimeAnnotations.DateTimeAnnotation.GetValue` | app/assets/javascripts/domain/annotations/DateTimeAnnotation/DateTimeAnnotation.js:35-37 | `null` iff the value is `null`; otherwise the display string of the value |
| `DateTimeAnnotations.DateTimeAnnotation.SetValue` | app/assets/javascripts/domain/annotations/DateTimeAnnotation/DateTimeAnnotation.js:44-50 | a string is stored as the date it parses to; any other value is stored unchanged; only the value changes |
| `DateTimeAnnotations.DateTimeAnnotation.GetServerAnnotation` | app/assets/javascripts/domain/annotations/DateTimeAnnotation/DateTimeAnnotation.js:55-61 | `selectedValues` is `[]`; `stringValue` is `''` for an unset value, else its UTC string; `annotationTypeId` is the annotation's |
| `DateTimeAnnotations.CreatedValue` | app/assets/javascripts/domain/annotations/DateTimeAnnotation/DateTimeAnnotation.js:74-82 | an empty or missing `stringValue` gives `null`; a non-empty one gives its parsed date; the type id is the annotation type's id |
| `DateTimeAnnotations.DateTimeAnnotation.Create` | app/assets/javascripts/domain/annotations/DateTimeAnnotation/DateTimeAnnotation.js:74-82 | a fresh annotation naming the annotation type's id, with the value `create` would compute |
| `DateTimeAnnotations.ServerRoundTrip` | app/assets/javascripts/domain/annotations/DateTimeAnnotation/DateTimeAnnotation.js:55-82 | the wire form of a date, re-created with the same type, gives back that date and type id whenever the UTC string parses back to it |
| `Participants.Participant.constructor` | app/assets/javascripts/domain/participants/Participant/Participant.js:55-95 | defaults: `uniqueId` `''`, `studyId` `null`, `annotations` `[]`, each overridden by the object; an `annotations` argument overrides both; a truthy study is set |
| `Participants.Participant.SetStudy` | app/assets/javascripts/domain/participants/Participant/Participant.js:97-101 | `study` is the study, `studyId` its id, and the annotations are paired with its annotation types |
| `Participants.Participant.Add` | app/assets/javascripts/domain/participants/Participant/Participant.js:107-132 | the loop's result equals the specification `AddOutcome` |
| `Participants.ServerAnnotationsMap` | app/assets/javascripts/domain/participants/Participant/Participant.js:113-121 | the server forms have the length and order of the annotations |
| `Participants.LastInvalidNone` | app/assets/javascripts/domain/participants/Participant/Participant.js:114-119 | no annotation is reported invalid iff every annotation is valid |
| `Participants.LastInvalidIsLast` | app/assets/javascripts/domain/participants/Participant/Participant.js:114-119 | the annotation reported is invalid and all after it are valid |
| `Participants.AddRefusesInvalid` | app/assets/javascripts/domain/participants/Participant/Participant.js:107-128 | `add` is refused iff some annotation is invalid, and the refusal names the last invalid annotation's type id |
| `Participants.LastInvalidAt` | app/assets/javascripts/domain/participants/Participant/Participant.js:114-119 | an invalid annotation followed only by valid ones is the one reported |
| `Participants.RejectionMessage` | app/assets/javascripts/domain/participants/Participant/Participant.js:117-118 | for a string type id the rejection text is the fixed prefix followed by that id, and nothing else |
| `Participants.AddRejectionText` | app/assets/javascripts/domain/participants/Participant/Participant.js:114-125 | when the last invalid annotation has a string type id, `add` is rejected with the prefix followed by that id |
| `Participants.AddCommandShape` | app/assets/javascripts/domain/participants/Participant/Participant.js:109-130 | with all annotations valid, the post goes to `participants/<studyId>`; the command holds the unique id and each annotation's server form in order (`[]` for absent annotations) and nothing else |
| `Participants.Participant.Create` | app/assets/javascripts/domain/participants/Participant/Participant.js:183-200 | fails exactly when the schema check fails; otherwise the participant holds the raw `obj.annotations` unchanged |
| `Participants.Url` | app/assets/javascripts/domain/participants/Participant/Participant.js:225-228 | the path is `participants` followed by the given items |
| `Roles.Role.constructor` | app/assets/javascripts/domain/access/Role/Role.js:33-50 | entity-info lists default to empty; given lists keep their length and order |
| `Roles.InfoList` | app/assets/javascripts/domain/access/Role/Role.js:41-49 | an absent list gives `[]`; a given list gives one entity info per entry, in order |
| `Roles.ToEntityInfosMap` | app/assets/javascripts/domain/access/Role/Role.js:48 | mapping to entity infos keeps length and order |
| `Roles.IdsMap` | app/assets/javascripts/domain/access/Role/Role.js:58-62 | mapping entity infos to ids keeps length and order |
| `Roles.Role.AddRequest` | app/assets/javascripts/domain/access/Role/Role.js:57-64 | posts name, description and the three id lists, each of the length and order of its entity-info list |
| `Roles.Role.RemoveRequest` | app/assets/javascripts/domain/access/Role/Role.js:71-78 | fails with "role has not been persisted" iff the id is nil; otherwise deletes `access/roles/<id>/<version>` |
| `Roles.Role.RemoveRelationRequest` | app/assets/javascripts/domain/access/Role/Role.js:112-142 | refused with "role has not been persisted" iff the id is nil; otherwise deletes `access/roles/<relation>/<id>/<version>/<otherId>` |
| `Roles.Role.RemoveUserRequest` | app/assets/javascripts/domain/access/Role/Role.js:112-118 | same guard; otherwise deletes `access/roles/user/<id>/<version>/<userId>` |
| `Roles.Role.RemoveParentRoleRequest` | app/assets/javascripts/domain/access/Role/Role.js:124-130 | same guard; otherwise deletes `access/roles/parent/<id>/<version>/<parentId>` |
| `Roles.Role.RemoveChildRoleRequest` | app/assets/javascripts/domain/access/Role/Role.js:136-142 | same guard; otherwise deletes `access/roles/child/<id>/<version>/<childId>` |
| `Roles.RemovalGuardsAgree` | app/assets/javascripts/domain/access/Role/Role.js:71-142 | the four removals are refused together, with the same error |
| `Roles.DescriptionBody` | app/assets/javascripts/domain/access/Role/Role.js:105 | `{description: d}` when `d` is truthy, `{}` otherwise |
| `Roles.Role.UpdateDescriptionRequest` | app/assets/javascripts/domain/access/Role/Role.js:103-106 | the update goes to `access/roles/description/<id>` and carries the description iff it is truthy |
| `Roles.ListParams` | app/assets/javascripts/domain/access/Role/Role.js:225-230 | a key is sent iff it is `filter`, `page` or `limit`, is given, and is not `''`; it keeps its value; absent options send nothing |
| `Roles.Url` | app/assets/javascripts/domain/access/Role/Role.js:144-146 | the path is `access/roles` followed by the given items |
| `StudyNames.New` | app/assets/javascripts/domain/studies/StudyName/StudyName.js:35-44 | built with no object, the study name is disabled (and not enabled or retired) and its id, slug and name are `undefined`; otherwise its id, slug, name and state are the object's |
| `StudyNames.StudyName.IsDisabled` | app/assets/javascripts/domain/studies/StudyName/StudyName.js:64-66 | a disabled study is neither enabled nor retired |
| `StudyNames.StudyName.IsEnabled` | app/assets/javascripts/domain/studies/StudyName/StudyName.js:73-75 | an enabled study is neither disabled nor retired |
| `StudyNames.StudyName.IsRetired` | app/assets/javascripts/domain/studies/StudyName/StudyName.js:82-84 | a retired study is neither disabled nor enabled |
| `StudyNames.StatePredicatesExact` | app/assets/javascripts/domain/studies/StudyName/StudyNameSpec.js:62-69 | for each study state, exactly the matching predicate holds |
| `StudyNames.UnknownStateMatchesNone` | app/assets/javascripts/domain/studies/StudyName/StudyName.js:64-84 | a state outside the three satisfies none of the predicates |
| `StudyNames.Url` | app/assets/javascripts/domain/studies/StudyName/StudyName.js:97-100 | the path is `studies`, `names`, then the given items |
| `Users.New` | app/assets/javascripts/domain/user/UserCounts/UserCounts.js:14-24 | each of the four counts is the option of that name when an options object supplies it (even as `undefined`), and 0 otherwise |
| `Users.NoOptionsAllZero` | app/assets/javascripts/domain/user/UserCounts/UserCounts.js:14-24 | with no options all four counts are 0 |
| `Users.SuppliedCountsOverride` | app/assets/javascripts/domain/user/UserCounts/UserCounts.js:23 | a supplied known key overrides its default; an unsupplied one stays 0 |
| `Users.OtherKeysIgnored` | app/assets/javascripts/domain/user/UserCounts/UserCounts.js:23 | keys outside the four counts make no difference |
| `Users.FromServerReply` | app/assets/javascripts/domain/user/UserCounts/UserCounts.js:26-35 | `total` is copied, and `registeredCount`, `activeCount`, `lockedCount` become `registered`, `active`, `locked` |
| `Breadcrumbs.ForState` | app/assets/javascripts/common/services/breadcrumbs/breadcrumbService.js:38-44 | succeeds iff the state is a key of the fixed map, with route the state and its label; otherwise fails with "display name function is undefined for state: <state>" |
| `Breadcrumbs.ForStateWithFunc` | app/assets/javascripts/common/services/breadcrumbs/breadcrumbService.js:46-48 | `{route: s, displayNameFn: f}` for every state, with no lookup and no failure |
| `Breadcrumbs.ListedStatesResolve` | app/assets/javascripts/common/services/breadcrumbs/breadcrumbServiceSpec.js:23-51 | every state the service's test lists resolves and routes to itself |
| `Breadcrumbs.SharedLabels` | app/assets/javascripts/common/services/breadcrumbs/breadcrumbService.js:25-34 | the two role states share one label, and so do the three admin `add` states |

## Left out

- `AnnotationTypes.AnnotationType.Create`: the DomainEntity constructor is not part of this model. The model assumes it does the following:
  - The five required fields and `required` are copied from the object.
  - An absent `options` becomes the empty list.
  - An absent `description` or `maxValueCount` stays `undefined`. As a result, `IsMaxValueCountValid` is false for a created non-select type without a count.
  - With plain copying, `options` would stay `undefined` and `addOption`, `removeOption` and `validOptions` would throw a TypeError.
- `DateTimeAnnotations.DateTimeAnnotation.constructor`: the base `Annotation` constructor is not part of this model. The model assumes it stores the annotation type and copies `annotationTypeId` from the object. It also assumes `getAnnotationTypeId()` returns that field.
- `AnnotationTypes.AnnotationType.ValidOptions`: tests membership by value equality. JavaScript's `includes` compares objects by identity, so an equal but distinct candidate object would fail there.
- A `null` argument to `new DateTimeAnnotation`, `DateTimeAnnotation.create` or `new Role` throws a TypeError in JavaScript. The model reads `null` as an object with no properties.
- The `$log.error` calls of `AnnotationType.create` and `Participant.create`, made before the error is thrown, are logging only.
- Sharing through other references is not modelled. `options` is a value sequence, so the change that `addOption` (push) and `removeOption` (splice) make in place to the array the type was built from is not visible through `obj.options`. `setValue` stores the caller's Date object itself, while the model stores a date value.
- `Participants.RejectionMessage`: gives no text when the offending annotation type id is not a string. JavaScript's template renders such an id, for example as `undefined` or as a number.
- The REST calls (`biobankApi`) and the promise chaining in `add`, `get`, `list`, `update`, `remove*`, `addAnnotation` and `removeAnnotation`. The model stops at the request that would be sent, or at the error.
- Role `updateName`, `addUser`, `addParentRole` and `addChildRole`. Their only work is an `update` call.
- `Role.create` and `StudyName.create`, which only validate and construct; `Role.get`, `StudyName.list` and `allLocations`, which only call the network.
- Message wording of the schema engine. `Schemas.Validate` returns a `Violation` value instead of the engine's text.
- The inherited schema parts and constructors of DomainEntity, ConcurrencySafeEntity, AccessItem and EntityNameAndState, and the EntityInfo constructor. These are not part of this model. The model assumes their constructors copy the object's properties onto the entity, apart from the `options` default named above for `AnnotationType`. It also assumes AccessItem reads `parentData` and `childData` the way Role reads `userData`, and that `new EntityInfo(info)` keeps the info's `id` and `name` (`Roles.EntityInfoOf`), on which the id lists of `Roles.Role.AddRequest` depend.
- Nested `$ref` item schemas, such as the annotations of a participant.
- The annotations of a participant are not checked against the Annotation schema.
- The base `Annotation.create`'s own checks. `DateTimeAnnotations.DateTimeAnnotation.Create` applies only the client-object transform.
- Date parsing, display formatting and UTC conversion. These are parameters of the model.
- `new Date(x)` on an object or array, which JavaScript converts to a string first. The model maps this to the invalid date.
- JavaScript numbers are integers in the model. NaN, fractions and infinities are left out.
- `Roles.Role.constructor`: requires `userData`, `parentData` and `childData` to be absent or arrays. In JavaScript, a present falsy value is kept as is, and a non-array truthy value throws.
- `Participants.Participant.SetStudy`: requires a non-nil study. JavaScript throws a TypeError on `null.id`.
- `Participants.Participant.Add`: a truthy non-array `annotations` gives the error `AnnotationsNotAList`. JavaScript would throw a TypeError from `.map`.
- Lodash `_.pick` on a non-object also looks at properties inherited from the prototype. `Roles.ListParams` treats every non-object as having no options.
- Label functions are known by their translation message id. `gettextCatalog` translation itself is left out.
- The breadcrumb map is a constant. A lookup therefore cannot change it.
