# Chassis API resource — a Dafny model

This project models the representation pipeline of Ironic's chassis REST
controller (`ironic/api/controllers/v1/chassis.py`):

- **Representation construction** (`Chassis.__init__`): the API object lists the
  record's declared fields that the API class exposes, in declaration order, and
  sets each from the keyword arguments or leaves it `Unset`.
- **Link synthesis with projection** (`Chassis._convert_with_links`,
  `Chassis.convert_with_links`): the uuid is captured first; a field filter is
  validated against the representation before anything else; the `self` and
  `bookmark` links are always built; the `nodes` links only without a filter.
- **Collection mapping** (`ChassisCollection.convert_with_links`).
- **Listing rules** (`_get_chassis_collection`, `get_all`, `detail`): limit,
  then sort direction, then marker lookup, then the `extra` sort-key refusal,
  then the list query; the default `('uuid', 'description')` field set; the
  `detail` parent-segment rule.
- **Patch-then-diff merge** (`ChassisController.patch`): a JSON-patch
  exception becomes `PatchError` and any other exception passes through
  unchanged; otherwise every exposed declared field takes the patched
  value (`Unset` written as `None`), hidden fields are untouched, and only
  fields whose stored value differs under Python's `!=` are assigned (so
  `True` replacing `1`, or `{"a": true}` replacing `{"a": 1}`, assigns nothing).

Files: `wrappers.dfy` (Option/Result/Outcome), `types.dfy` (values, slots,
links, schema, records, errors, and Python's `==` on JSON values as `PyEq`), `chassis.dfy` (module `Chassis`, the API
class), `collection.dfy` (module `ChassisCollection`), `controller.dfy`
(module `ChassisController`).

The collaborators the controller calls but that are defined elsewhere are the
fields of `ChassisController.Env`: `objects.Chassis.get_by_uuid`, `list` and
`create`, `api_utils.validate_limit`, `validate_sort_dir`,
`check_allow_specify_fields`, `apply_jsonpatch`, `APIBase.unset_fields_except`,
`Collection.get_next`, and the request's host url. Each of them that can raise
returns a `Result` whose failure the controller propagates (the list query
included). The one property assumed of them is that the records persistence
hands out carry every declared field and a string uuid (`EnvOk`). `link.Link.make_link` is kept as the tuple of its
arguments (`Types.Link`). The record's declared field list
(`objects.Chassis.fields`, not part of this model) is a `Schema` parameter;
`Types.IronicChassis` is the chassis layout with its non-exposed database `id`.

Projection may clear `uuid` (`unset_fields_except` unsets every attribute
not named in the filter), which is why `_convert_with_links` captures it first
(chassis.py:76-79); the model promises nothing about `uuid` after projection
and builds the links from the captured value.

One consequence of the code worth knowing: the field filter is checked once
per converted record, so a listing whose page is empty accepts any field names
(`ChassisController.EmptyPageSkipsFieldCheck`).

## Model

| member | source | states |
|---|---|---|
| `Chassis.ExposedFields` | ironic/api/controllers/v1/chassis.py:66-71 | a name is in the field list exactly when the record declares it and the API class exposes it; never longer than the declaration |
| `Chassis.ExposedFieldsAppend` | ironic/api/controllers/v1/chassis.py:67-71 | the field list keeps the record's declaration order (filtering distributes over concatenation) |
| `Chassis.ExposedFieldsNoDuplicates` | ironic/api/controllers/v1/chassis.py:67-71 | distinct declared fields give a field list without repeats |
| `Chassis.Init` | ironic/api/controllers/v1/chassis.py:65-72 | the field list is the exposed declared fields in declaration order, and the attributes are exactly those; each is set from kwargs when present and `Unset` otherwise; unknown kwargs are ignored; links and nodes start unset |
| `Chassis.AsDict` | ironic/api/controllers/v1/chassis.py:105-108 | the dictionary holds exactly the listed attributes that are set, each with its set value; `Unset` attributes are omitted |
| `Chassis.InitAsDictRoundTrip` | ironic/api/controllers/v1/chassis.py:65-72 | reading the new representation back yields exactly the kwargs restricted to exposed declared fields |
| `Chassis.SelfAndBookmark` | ironic/api/controllers/v1/chassis.py:93-100 | two links, `self` (not a bookmark) then `bookmark` (bookmark), both for the chassis resource with the given id and base url |
| `Chassis.AttachLinks` | ironic/api/controllers/v1/chassis.py:75-101 | resource links always built from the uuid read before projection; without a filter the nodes links on `uuid/nodes` are added and attributes kept; with one, attributes are projected and nodes left as they were |
| `Chassis.CheckForInvalidFields` | ironic/api/controllers/v1/chassis.py:107-108 | fails with InvalidParameterValue exactly when some requested name is not available |
| `Chassis.ConvertWithLinks` | ironic/api/controllers/v1/chassis.py:103-111 | fails (InvalidParameterValue, no representation) exactly when a requested field is not an exposed declared field the record holds; on success links carry the record's uuid, nodes appear iff no filter, unfiltered data equals the record's |
| `Chassis.UndeclaredFieldRejected` | ironic/api/controllers/v1/chassis.py:107-111 | requesting a field the record does not declare always fails with InvalidParameterValue |
| `Chassis.LinksIndependentOfFields` | ironic/api/controllers/v1/chassis.py:79-100 | for any valid filter the resource links equal those of the unfiltered representation |
| `Chassis.ConvertRoundTrip` | ironic/api/controllers/v1/chassis.py:104-111 | the unfiltered representation reads back exactly the record's exposed declared values |
| `ChassisCollection.Collect` | ironic/api/controllers/v1/chassis.py:136-137 | the comprehension succeeds iff every element does and keeps length and order; otherwise it raises the error of the first failing element |
| `ChassisCollection.ConvertAll` | ironic/api/controllers/v1/chassis.py:136-137 | every record converted with the same filter, in order; fails iff some record's conversion fails, always with InvalidParameterValue |
| `ChassisCollection.ConvertCollection` | ironic/api/controllers/v1/chassis.py:133-140 | items are the per-record conversions in order; an empty resource url is passed on as none |
| `ChassisController.ResolveMarker` | ironic/api/controllers/v1/chassis.py:169-172 | the marker is looked up only when present and non-empty; a failed lookup is propagated |
| `ChassisController.GetChassisCollection` | ironic/api/controllers/v1/chassis.py:165-186 | a bad limit wins over everything, then a bad sort direction, then a failed marker lookup, then the `extra` sort key (InvalidParameterValue), then a failing list query (its error propagated); once every check and the query pass, the result is the collection built from the records listed with the validated limit, resolved marker and validated direction, with the given resource url and filter; on success item i is the conversion of the i-th listed record |
| `ChassisController.InvalidSortKeyNeverQueries` | ironic/api/controllers/v1/chassis.py:174-181 | with sort key `extra` the listing fails and its result does not depend on the list query |
| `ChassisController.NoMarkerNoLookup` | ironic/api/controllers/v1/chassis.py:169-172 | without a marker the result does not depend on the uuid lookup |
| `ChassisController.EmptyPageSkipsFieldCheck` | ironic/api/controllers/v1/chassis.py:136-137 | an empty listed page succeeds whatever fields are named; a non-empty one fails when a named field is undeclared |
| `ChassisController.GetAll` | ironic/api/controllers/v1/chassis.py:188-205 | the field-permission check comes first; no fields means `uuid` and `description`; listed items never carry nodes links but always the two resource links |
| `ChassisController.SplitJoin` | ironic/api/controllers/v1/chassis.py:218 | `'/'.join(path.split('/'))` gives back the path, and there is always at least one segment |
| `ChassisController.SplitSegmentsSlashFree` | ironic/api/controllers/v1/chassis.py:218 | no segment of `path.split('/')` holds a slash; with `SplitJoin`, the segments are the path cut at every slash |
| `ChassisController.SplitNoSlash` | ironic/api/controllers/v1/chassis.py:218 | a string without a slash is a single segment |
| `ChassisController.SplitAppend` | ironic/api/controllers/v1/chassis.py:218 | splitting `a/b` gives the segments of `a` followed by those of `b` |
| `ChassisController.ParentSegment` | ironic/api/controllers/v1/chassis.py:218 | the parent segment exists exactly when the path has at least two segments |
| `ChassisController.Detail` | ironic/api/controllers/v1/chassis.py:207-224 | a path with one segment raises IndexError; a parent other than `chassis` gives HTTPNotFound before any parameter check; otherwise the unfiltered listing, every item carrying two nodes links and two resource links |
| `ChassisController.ParentOfDetailPath` | ironic/api/controllers/v1/chassis.py:218-219 | any path ending in `/chassis/detail` has parent `chassis` |
| `ChassisController.DetailBelowChassis` | ironic/api/controllers/v1/chassis.py:217-224 | a path ending in `/chassis/detail` is served as the unfiltered listing with resource url `chassis/detail` |
| `ChassisController.GetOne` | ironic/api/controllers/v1/chassis.py:226-237 | permission check, then lookup (its failure propagated); when both pass, the result is the conversion of the fetched record with the requested filter, whose links carry its uuid |
| `ChassisController.Post` | ironic/api/controllers/v1/chassis.py:239-250 | a failed create is propagated; otherwise the full representation of the created record, with nodes and resource links and data equal to the record's |
| `ChassisController.UpdateChangedFields` | ironic/api/controllers/v1/chassis.py:269-279 | afterwards every exposed field in the walk holds its patched value (`Unset` as `None`) unless the stored value is already equal to it under Python's `==`, in which case the stored value is kept; every other field is unchanged; a field is assigned exactly when the values compare unequal; nothing unequal means nothing assigned |
| `ChassisController.UpdateChangedFieldsIdempotent` | ironic/api/controllers/v1/chassis.py:269-279 | repeating the diff with the same patched representation assigns nothing and leaves the record as it was |
| `ChassisController.Patch` | ironic/api/controllers/v1/chassis.py:254-279 | a failed lookup is propagated; a JSON-patch exception becomes PatchError and any other exception from applying the patch passes through unchanged, with nothing saved; a successful lookup and patch always succeed, and then exposed declared fields hold the patched dictionary's value (absent meaning `None`) unless the stored value compares equal to it under Python's `==`, all others are unchanged, and exactly the unequal ones are reported changed |
| `ChassisController.NoOpPatchChangesNothing` | ironic/api/controllers/v1/chassis.py:260-279 | a patch that leaves the dictionary as it was saves the same record and changes no field |
| `ChassisController.ReplaceOneField` | ironic/api/controllers/v1/chassis.py:260-279 | replacing one exposed field with a value unequal (Python `!=`) to the stored one saves exactly that change and reports only that field |
| `ChassisController.EqualValuePatchIsNoOp` | ironic/api/controllers/v1/chassis.py:278-279 | replacing one field with a value equal under Python's `==` to the stored one (though perhaps of another type) saves the record unchanged and reports nothing |
| `ChassisController.BoolForIntPatchIsNoOp` | ironic/api/controllers/v1/chassis.py:278-279 | with the chassis layout, patching `extra` from `{"a": 1}` to `{"a": true}` assigns nothing |
| `ChassisController.RemovedFieldSavedAsNone` | ironic/api/controllers/v1/chassis.py:272-279 | removing an exposed field leaves it `Unset`, so `None` is assigned to it, and it is reported exactly when the stored value was not already `None` |
| `Types.PyEqReflexive` | ironic/api/controllers/v1/chassis.py:278 | every JSON value equals itself under Python's `==`, so the diff never reassigns a field to its own value |
| `Types.BoolEqualsIntInsideDict` | ironic/api/controllers/v1/chassis.py:278 | `{"a": 1} == {"a": True}` holds although the two values differ structurally |
| `ChassisController.HiddenFieldNeverPatched` | ironic/api/controllers/v1/chassis.py:270-275 | a declared field the API does not expose is never written or reported, whatever the patch says |
| `ChassisController.DatabaseIdNeverPatched` | ironic/api/controllers/v1/chassis.py:270-275 | with the chassis layout, the database `id` is never changed by a patch |

## Left out

- `link.Link.make_link`: the href text is not modelled; a link is the tuple of its arguments.
- `unset_fields_except`, `validate_limit`, `validate_sort_dir`, `check_allow_specify_fields`, `apply_jsonpatch`, `Collection.get_next` and the persistence calls are defined in files not part of this model; they are uninterpreted `Env` fields, so no property of their own (next-link presence, limit capping, patch semantics, uuid preservation under projection) is claimed.
- `Chassis.CheckForInvalidFields`: follows the documented contract of `api_utils.check_for_invalid_fields` (reject iff some name is unavailable); its message text is not modelled.
- `ChassisController.Patch`: stops at the record handed to `save()`; the final `convert_with_links` of the saved record is not composed, because rendering needs the uuid to survive the patch, which JSON-patch type validation outside this model ensures.
- `ChassisController.GetAll`: pagination (next link when a page is full) lives in `get_next` and is not stated.
- `ChassisController.UpdateChangedFields`: the assigned value is stored as given; the conversion the object layer's field types apply on assignment (a string for `description`, a dict for `extra`) is not modelled.
- Attribute type checking by wsme when the patched representation is built (a wrong-typed value raises a client error) is not modelled: every JSON value is accepted.
- `delete`: a lookup followed by `destroy`, pure persistence with no rule of its own.
- The pecan/wsme plumbing: `expose` decorators, `wsme.validate`, the request context, and the Location header set by `post`.
- The `sample()` fixtures and `datetime` values; timestamps are plain JSON values here.
- The nested `NodesController` routing, which belongs to the node controller.
- Concurrency: the lost-update window between fetch and save is not modelled (each call is a pure function).
