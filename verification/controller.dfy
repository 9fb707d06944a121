/**
 * `ChassisController`: query-parameter rules of the listings, the `/detail`
 * path rule, single-resource retrieval and the patch-then-diff update.
 * Persistence, request context and the api_utils helpers are the fields of
 * an `Env`; nothing is assumed of them beyond the shape of their results.
 */
module ChassisController {
  import opened Wrappers
  import opened Types
  import opened Chassis
  import opened ChassisCollection

  /** Fields a plain listing returns when the caller names none. */
  const DefaultReturnFields: seq<FieldName> := ["uuid", "description"]

  /** Sort keys refused because the column has no usable order. */
  const InvalidSortKeys: seq<string> := ["extra"]

  /** The collaborators the controller calls but that live elsewhere. */
  datatype Env = Env(
    hostUrl: string,                                                      // pecan.request.host_url
    getByUuid: string -> Result<Record, Error>,                           // objects.Chassis.get_by_uuid
    create: map<FieldName, Json> -> Result<Record, Error>,                // objects.Chassis(...).create()
    list: (nat, Option<Record>, string, string) -> Result<seq<Record>, Error>, // objects.Chassis.list
    validateLimit: Option<int> -> Result<nat, Error>,                     // api_utils.validate_limit
    validateSortDir: string -> Result<string, Error>,                     // api_utils.validate_sort_dir
    checkAllowSpecifyFields: Option<seq<FieldName>> -> Outcome<Error>,    // api_utils.check_allow_specify_fields
    applyJsonPatch: (map<FieldName, Json>, PatchDoc) -> Result<map<FieldName, Json>, PatchFailure>,
    unsetFieldsExcept: UnsetFn,
    getNext: NextFn)

  /** Persistence hands out fully loaded records with a string uuid. */
  ghost predicate EnvOk(schema: Schema, env: Env) {
    && (forall u :: env.getByUuid(u).Success? ==> RecordOk(schema, env.getByUuid(u).value))
    && (forall d :: env.create(d).Success? ==> RecordOk(schema, env.create(d).value))
    && (forall l, m, k, d, i :: env.list(l, m, k, d).Success? && 0 <= i < |env.list(l, m, k, d).value| ==>
          RecordOk(schema, env.list(l, m, k, d).value[i]))
  }

  /** Python truthiness of the optional marker: present and non-empty. */
  predicate MarkerGiven(marker: Option<string>) {
    marker.Some? && marker.value != ""
  }

  /** The marker record, looked up only when a marker is given. */
  function ResolveMarker(env: Env, marker: Option<string>): (r: Result<Option<Record>, Error>)
    ensures !MarkerGiven(marker) ==> r == Success(None)
    ensures MarkerGiven(marker) && env.getByUuid(marker.value).Failure? ==> r == Failure(env.getByUuid(marker.value).error)
    ensures MarkerGiven(marker) && env.getByUuid(marker.value).Success? ==> r == Success(Some(env.getByUuid(marker.value).value))
  {
    if MarkerGiven(marker) then
      match env.getByUuid(marker.value)
      case Failure(e) => Failure(e)
      case Success(rec) => Success(Some(rec))
    else Success(None)
  }

  /**
   * Every check the listing makes before querying: the limit, then the sort
   * direction, then the marker, then the sort key.
   */
  predicate ListingParamsOk(env: Env, marker: Option<string>, limit: Option<int>, sortKey: string, sortDir: string) {
    && env.validateLimit(limit).Success?
    && env.validateSortDir(sortDir).Success?
    && ResolveMarker(env, marker).Success?
    && sortKey !in InvalidSortKeys
  }

  /** The list query made with validated parameters: a page of records, or the error it raised. */
  function ListedRecords(env: Env, marker: Option<string>, limit: Option<int>, sortKey: string, sortDir: string)
    : Result<seq<Record>, Error>
    requires ListingParamsOk(env, marker, limit, sortKey, sortDir)
  {
    env.list(env.validateLimit(limit).value, ResolveMarker(env, marker).value, sortKey, env.validateSortDir(sortDir).value)
  }

  /** `ChassisController._get_chassis_collection`. */
  function GetChassisCollection(schema: Schema, env: Env, marker: Option<string>, limit: Option<int>,
                                sortKey: string, sortDir: string,
                                resourceUrl: Option<string>, fields: Option<seq<FieldName>>)
    : (r: Result<Collection, Error>)
    requires SchemaOk(schema) && EnvOk(schema, env)
    ensures env.validateLimit(limit).Failure? ==> r == Failure(env.validateLimit(limit).error)
    ensures env.validateLimit(limit).Success? && env.validateSortDir(sortDir).Failure? ==>
      r == Failure(env.validateSortDir(sortDir).error)
    ensures (&& env.validateLimit(limit).Success? && env.validateSortDir(sortDir).Success?
             && MarkerGiven(marker) && env.getByUuid(marker.value).Failure?) ==>
      r == Failure(env.getByUuid(marker.value).error)
    ensures (&& env.validateLimit(limit).Success? && env.validateSortDir(sortDir).Success?
             && ResolveMarker(env, marker).Success? && sortKey in InvalidSortKeys) ==>
      r.Failure? && r.error.InvalidParameterValue?
    ensures r.Success? ==> ListingParamsOk(env, marker, limit, sortKey, sortDir)
    ensures ListingParamsOk(env, marker, limit, sortKey, sortDir) && ListedRecords(env, marker, limit, sortKey, sortDir).Failure? ==>
      r == Failure(ListedRecords(env, marker, limit, sortKey, sortDir).error)
    ensures ListingParamsOk(env, marker, limit, sortKey, sortDir) && ListedRecords(env, marker, limit, sortKey, sortDir).Success? ==>
      r == ConvertCollection(schema, ListedRecords(env, marker, limit, sortKey, sortDir).value,
                             env.validateLimit(limit).value, env.hostUrl, resourceUrl, fields,
                             sortKey, env.validateSortDir(sortDir).value,
                             env.unsetFieldsExcept, env.getNext)
    ensures r.Success? ==> ListedRecords(env, marker, limit, sortKey, sortDir).Success?
    ensures r.Success? ==> |r.value.chassis| == |ListedRecords(env, marker, limit, sortKey, sortDir).value|
    ensures r.Success? ==> forall i :: 0 <= i < |r.value.chassis| ==>
      && ConvertWithLinks(schema, ListedRecords(env, marker, limit, sortKey, sortDir).value[i],
                          env.hostUrl, fields, env.unsetFieldsExcept).Success?
      && r.value.chassis[i]
           == ConvertWithLinks(schema, ListedRecords(env, marker, limit, sortKey, sortDir).value[i],
                               env.hostUrl, fields, env.unsetFieldsExcept).value
  {
    var lim :- env.validateLimit(limit);
    var dir :- env.validateSortDir(sortDir);
    var markerObj :- ResolveMarker(env, marker);
    if sortKey in InvalidSortKeys then
      Failure(InvalidParameterValue("The sort_key value " + sortKey + " is an invalid field for sorting"))
    else
      var recs :- env.list(lim, markerObj, sortKey, dir);
      ConvertCollection(schema, recs, lim, env.hostUrl, resourceUrl, fields, sortKey, dir,
                        env.unsetFieldsExcept, env.getNext)
  }

  /**
   * An unsortable key is refused before the list query: the result does not
   * depend on what the persistence layer would have listed.
   */
  lemma InvalidSortKeyNeverQueries(schema: Schema, env: Env,
                                   otherList: (nat, Option<Record>, string, string) -> Result<seq<Record>, Error>,
                                   marker: Option<string>, limit: Option<int>, sortKey: string, sortDir: string,
                                   resourceUrl: Option<string>, fields: Option<seq<FieldName>>)
    requires SchemaOk(schema) && EnvOk(schema, env) && EnvOk(schema, env.(list := otherList))
    requires sortKey in InvalidSortKeys
    ensures GetChassisCollection(schema, env, marker, limit, sortKey, sortDir, resourceUrl, fields).Failure?
    ensures GetChassisCollection(schema, env.(list := otherList), marker, limit, sortKey, sortDir, resourceUrl, fields)
         == GetChassisCollection(schema, env, marker, limit, sortKey, sortDir, resourceUrl, fields)
  {
  }

  /**
   * The field filter is checked once per listed record, so a listing that
   * returns no records accepts any field names.
   */
  lemma EmptyPageSkipsFieldCheck(schema: Schema, env: Env, marker: Option<string>, limit: Option<int>,
                                 sortKey: string, sortDir: string, resourceUrl: Option<string>, fields: Option<seq<FieldName>>)
    requires SchemaOk(schema) && EnvOk(schema, env)
    requires ListingParamsOk(env, marker, limit, sortKey, sortDir)
    ensures ListedRecords(env, marker, limit, sortKey, sortDir) == Success([]) ==>
      GetChassisCollection(schema, env, marker, limit, sortKey, sortDir, resourceUrl, fields).Success?
    ensures (&& ListedRecords(env, marker, limit, sortKey, sortDir).Success?
             && ListedRecords(env, marker, limit, sortKey, sortDir).value != []
             && fields.Some? && exists f :: f in fields.value && f !in schema.declared) ==>
      GetChassisCollection(schema, env, marker, limit, sortKey, sortDir, resourceUrl, fields).Failure?
  {
    var listed := ListedRecords(env, marker, limit, sortKey, sortDir);
    if listed.Success? && listed.value != [] && fields.Some? && exists f :: f in fields.value && f !in schema.declared {
      var recs := listed.value;
      assert ConvertWithLinks(schema, recs[0], env.hostUrl, fields, env.unsetFieldsExcept).Failure?;
    }
  }

  /** Without a marker the lookup is never made. */
  lemma NoMarkerNoLookup(schema: Schema, env: Env, otherLookup: string -> Result<Record, Error>,
                         marker: Option<string>, limit: Option<int>, sortKey: string, sortDir: string,
                         resourceUrl: Option<string>, fields: Option<seq<FieldName>>)
    requires SchemaOk(schema) && EnvOk(schema, env) && EnvOk(schema, env.(getByUuid := otherLookup))
    requires !MarkerGiven(marker)
    ensures GetChassisCollection(schema, env.(getByUuid := otherLookup), marker, limit, sortKey, sortDir, resourceUrl, fields)
         == GetChassisCollection(schema, env, marker, limit, sortKey, sortDir, resourceUrl, fields)
  {
  }

  /** `ChassisController.get_all`: a filtered listing, `uuid` and `description` by default. */
  function GetAll(schema: Schema, env: Env, marker: Option<string>, limit: Option<int>,
                  sortKey: string := "id", sortDir: string := "asc", fields: Option<seq<FieldName>> := None)
    : (r: Result<Collection, Error>)
    requires SchemaOk(schema) && EnvOk(schema, env)
    ensures env.checkAllowSpecifyFields(fields).Fail? ==> r == Failure(env.checkAllowSpecifyFields(fields).error)
    ensures env.checkAllowSpecifyFields(fields).Pass? && fields.None? ==>
      r == GetChassisCollection(schema, env, marker, limit, sortKey, sortDir, None, Some(DefaultReturnFields))
    ensures env.checkAllowSpecifyFields(fields).Pass? && fields.Some? ==>
      r == GetChassisCollection(schema, env, marker, limit, sortKey, sortDir, None, fields)
    ensures r.Success? ==> forall i :: 0 <= i < |r.value.chassis| ==>
      r.value.chassis[i].nodes == None && r.value.chassis[i].links.Some? && |r.value.chassis[i].links.value| == 2
  {
    match env.checkAllowSpecifyFields(fields)
    case Fail(e) => Failure(e)
    case Pass =>
      var requested := if fields.None? then DefaultReturnFields else fields.value;
      GetChassisCollection(schema, env, marker, limit, sortKey, sortDir, None, Some(requested))
  }

  /** Python's `s.split('/')`: always at least one segment, none holding a slash. */
  function Split(s: string): (parts: seq<string>)
    ensures |parts| >= 1
  {
    if s == [] then [""]
    else
      var rest := Split(s[1..]);
      if s[0] == '/' then [""] + rest
      else [[s[0]] + rest[0]] + rest[1..]
  }

  /** Python's `'/'.join(parts)`. */
  function Join(parts: seq<string>): string
    requires |parts| >= 1
  {
    if |parts| == 1 then parts[0] else parts[0] + "/" + Join(parts[1..])
  }

  /** Joining the segments with the separator gives back the path. */
  lemma {:induction false} SplitJoin(s: string)
    ensures Join(Split(s)) == s
  {
    if s != [] {
      var rest := Split(s[1..]);
      SplitJoin(s[1..]);
      if s[0] == '/' {
        assert Split(s) == [""] + rest;
        assert ([""] + rest)[1..] == rest;
        assert s == "" + "/" + s[1..];
      } else {
        assert Split(s) == [[s[0]] + rest[0]] + rest[1..];
        JoinPrepend(s[0], rest);
        assert s == [s[0]] + s[1..];
      }
    }
  }

  /** Prefixing the first segment prefixes the joined path. */
  lemma {:induction false} JoinPrepend(c: char, parts: seq<string>)
    requires |parts| >= 1
    ensures Join([[c] + parts[0]] + parts[1..]) == [c] + Join(parts)
  {
    var front := [[c] + parts[0]] + parts[1..];
    assert front[0] == [c] + parts[0];
    if |parts| > 1 {
      assert front[1..] == parts[1..];
      var tail := Join(parts[1..]);
      assert Join(front) == ([c] + parts[0]) + "/" + tail;
      assert Join(parts) == parts[0] + "/" + tail;
      assert ([c] + parts[0]) + "/" + tail == [c] + (parts[0] + "/" + tail);
    }
  }

  /** No segment holds a slash: the path is cut at every slash. */
  lemma {:induction false} SplitSegmentsSlashFree(s: string)
    ensures forall i :: 0 <= i < |Split(s)| ==> '/' !in Split(s)[i]
  {
    if s != [] {
      SplitSegmentsSlashFree(s[1..]);
      var rest := Split(s[1..]);
      if s[0] == '/' {
        forall i | 0 < i < |Split(s)| ensures '/' !in Split(s)[i] {
          assert Split(s)[i] == rest[i - 1];
        }
      } else {
        assert Split(s)[0] == [s[0]] + rest[0];
        forall i | 0 < i < |Split(s)| ensures '/' !in Split(s)[i] {
          assert Split(s)[i] == rest[i];
        }
      }
    }
  }

  /** A string without a slash is a single segment. */
  lemma {:induction false} SplitNoSlash(s: string)
    requires '/' !in s
    ensures Split(s) == [s]
  {
    if s != [] {
      assert '/' !in s[1..] by {
        forall k | 0 <= k < |s[1..]| ensures s[1..][k] != '/' {
          assert s[1..][k] == s[k + 1];
        }
      }
      SplitNoSlash(s[1..]);
      assert [s[0]] + s[1..] == s;
    }
  }

  /** Splitting at a slash concatenates the segments of both sides. */
  lemma {:induction false} SplitAppend(a: string, b: string)
    ensures Split(a + "/" + b) == Split(a) + Split(b)
  {
    var s := a + "/" + b;
    if a == [] {
      assert s[0] == '/' && s[1..] == b;
    } else {
      assert s[0] == a[0] && s[1..] == a[1..] + "/" + b;
      SplitAppend(a[1..], b);
      var rest := Split(a[1..]);
      if a[0] != '/' {
        assert (rest + Split(b))[0] == rest[0];
        assert (rest + Split(b))[1..] == rest[1..] + Split(b);
      }
    }
  }

  /** The segment before the last one, when there is one. */
  function ParentSegment(path: string): (p: Option<string>)
    ensures p.Some? <==> |Split(path)| >= 2
  {
    var segs := Split(path);
    if |segs| < 2 then None else Some(segs[|segs| - 2])
  }

  /**
   * `ChassisController.detail`: only reachable directly below the chassis
   * collection; then an unfiltered listing, so every item is fully expanded.
   */
  function Detail(schema: Schema, env: Env, path: string, marker: Option<string>, limit: Option<int>,
                  sortKey: string := "id", sortDir: string := "asc")
    : (r: Result<Collection, Error>)
    requires SchemaOk(schema) && EnvOk(schema, env)
    ensures ParentSegment(path).None? ==> r == Failure(IndexError)
    ensures ParentSegment(path).Some? && ParentSegment(path).value != "chassis" ==> r == Failure(HttpNotFound)
    ensures ParentSegment(path) == Some("chassis") ==>
      r == GetChassisCollection(schema, env, marker, limit, sortKey, sortDir, Some("chassis/detail"), None)
    ensures r.Success? ==> ParentSegment(path) == Some("chassis")
    ensures r.Success? ==> forall i :: 0 <= i < |r.value.chassis| ==>
      && r.value.chassis[i].nodes.Some? && |r.value.chassis[i].nodes.value| == 2
      && r.value.chassis[i].links.Some? && |r.value.chassis[i].links.value| == 2
  {
    match ParentSegment(path)
    case None => Failure(IndexError)
    case Some(parent) =>
      if parent != "chassis" then Failure(HttpNotFound)
      else GetChassisCollection(schema, env, marker, limit, sortKey, sortDir, Some("chassis/detail"), None)
  }

  /** Any path ending in `/chassis/detail` passes the parent check. */
  lemma DetailBelowChassis(schema: Schema, env: Env, prefix: string, marker: Option<string>, limit: Option<int>,
                           sortKey: string, sortDir: string)
    requires SchemaOk(schema) && EnvOk(schema, env)
    ensures Detail(schema, env, prefix + "/chassis/detail", marker, limit, sortKey, sortDir)
         == GetChassisCollection(schema, env, marker, limit, sortKey, sortDir, Some("chassis/detail"), None)
  {
    ParentOfDetailPath(prefix);
  }

  lemma ParentOfDetailPath(prefix: string)
    ensures ParentSegment(prefix + "/chassis/detail") == Some("chassis")
  {
    var path := prefix + "/chassis/detail";
    assert path == prefix + "/" + "chassis/detail";
    SplitAppend(prefix, "chassis/detail");
    SplitDetailSuffix();
    var front := Split(prefix);
    var segs := Split(path);
    assert segs == front + ["chassis", "detail"];
    assert |segs| == |front| + 2;
    assert segs[|front|] == "chassis";
  }

  lemma SplitDetailSuffix()
    ensures Split("chassis/detail") == ["chassis", "detail"]
  {
    assert "chassis" + "/" + "detail" == "chassis/detail";
    SplitNoSlash("chassis");
    SplitNoSlash("detail");
    SplitAppend("chassis", "detail");
  }

  /** `ChassisController.get_one`. */
  function GetOne(schema: Schema, env: Env, uuid: string, fields: Option<seq<FieldName>>): (r: Result<Chassis, Error>)
    requires SchemaOk(schema) && EnvOk(schema, env)
    ensures env.checkAllowSpecifyFields(fields).Fail? ==> r == Failure(env.checkAllowSpecifyFields(fields).error)
    ensures env.checkAllowSpecifyFields(fields).Pass? && env.getByUuid(uuid).Failure? ==>
      r == Failure(env.getByUuid(uuid).error)
    ensures env.checkAllowSpecifyFields(fields).Pass? && env.getByUuid(uuid).Success? ==>
      r == ConvertWithLinks(schema, env.getByUuid(uuid).value, env.hostUrl, fields, env.unsetFieldsExcept)
    ensures r.Success? ==> env.getByUuid(uuid).Success?
    ensures r.Success? ==> r.value.links == Some(SelfAndBookmark(env.hostUrl, env.getByUuid(uuid).value.values["uuid"].s))
  {
    match env.checkAllowSpecifyFields(fields)
    case Fail(e) => Failure(e)
    case Pass =>
      var rec :- env.getByUuid(uuid);
      ConvertWithLinks(schema, rec, env.hostUrl, fields, env.unsetFieldsExcept)
  }

  /**
   * `ChassisController.post`: persist the body's set attributes and render
   * the new record in full (no field filter).
   */
  function Post(schema: Schema, env: Env, body: Chassis): (r: Result<Chassis, Error>)
    requires SchemaOk(schema) && EnvOk(schema, env)
    ensures env.create(AsDict(body)).Failure? ==> r == Failure(env.create(AsDict(body)).error)
    ensures env.create(AsDict(body)).Success? ==> r.Success?
    ensures r.Success? ==>
      var rec := env.create(AsDict(body)).value;
      && r.value.links == Some(SelfAndBookmark(env.hostUrl, rec.values["uuid"].s))
      && r.value.nodes == Some(SelfAndBookmark(env.hostUrl, rec.values["uuid"].s + "/nodes"))
      && AsDict(r.value) == map f | f in rec.values && f in schema.declared && f in schema.exposed :: rec.values[f]
  {
    var rec :- env.create(AsDict(body));
    ConvertRoundTrip(schema, rec, env.hostUrl, env.unsetFieldsExcept);
    ConvertWithLinks(schema, rec, env.hostUrl, None, env.unsetFieldsExcept)
  }

  /** The value an attribute of the patched representation writes back: `Unset` is `None`. */
  function PatchValue(s: Slot): Json {
    match s
    case Unset => JNull
    case Set(v) => v
  }

  /**
   * The field-diff loop of `ChassisController.patch`: walk the declared
   * fields in order, skip those the representation does not expose, and
   * assign (and report) only the ones whose value differs under Python's
   * `!=`, so a value equal to the stored one (`True` for `1`) is kept as stored.
   */
  function UpdateChangedFields(fields: seq<FieldName>, values: map<FieldName, Json>, patched: Chassis)
    : (r: (map<FieldName, Json>, seq<FieldName>))
    requires forall f :: f in fields ==> f in values
    ensures r.0.Keys == values.Keys
    ensures forall f :: f in fields && f in patched.attrs ==>
      r.0[f] == (if PyEq(values[f], PatchValue(patched.attrs[f])) then values[f] else PatchValue(patched.attrs[f]))
    ensures forall f :: f in values && !(f in fields && f in patched.attrs) ==> r.0[f] == values[f]
    ensures forall f :: f in r.1 <==> f in fields && f in patched.attrs && !PyEq(values[f], PatchValue(patched.attrs[f]))
    ensures (forall f :: f in fields && f in patched.attrs ==> PyEq(values[f], PatchValue(patched.attrs[f]))) ==> r.1 == []
  {
    if fields == [] then (values, [])
    else
      var f := fields[0];
      if f !in patched.attrs then UpdateChangedFields(fields[1..], values, patched)
      else
        var v := PatchValue(patched.attrs[f]);
        if !PyEq(values[f], v) then
          var rest := UpdateChangedFields(fields[1..], values[f := v], patched);
          (rest.0, [f] + rest.1)
        else UpdateChangedFields(fields[1..], values, patched)
  }

  /** Running the diff a second time with the same patched representation changes nothing. */
  lemma UpdateChangedFieldsIdempotent(fields: seq<FieldName>, values: map<FieldName, Json>, patched: Chassis)
    requires forall f :: f in fields ==> f in values
    ensures UpdateChangedFields(fields, UpdateChangedFields(fields, values, patched).0, patched).1 == []
    ensures UpdateChangedFields(fields, UpdateChangedFields(fields, values, patched).0, patched).0
         == UpdateChangedFields(fields, values, patched).0
  {
    var once := UpdateChangedFields(fields, values, patched).0;
    forall f | f in fields && f in patched.attrs
      ensures PyEq(once[f], PatchValue(patched.attrs[f]))
    {
      PyEqReflexive(PatchValue(patched.attrs[f]));
    }
  }

  /** What the patched dictionary says a field should now hold (absent means `None`). */
  function PatchedValue(patched: map<FieldName, Json>, f: FieldName): Json {
    if f in patched then patched[f] else JNull
  }

  /** The record as saved and the fields that were assigned before saving. */
  datatype PatchResult = PatchResult(saved: Record, changed: seq<FieldName>)

  /**
   * `ChassisController.patch` up to `save()`: fetch, apply the JSON patch to
   * the record's dictionary, rebuild the representation, and copy back the
   * exposed fields that differ.
   */
  function Patch(schema: Schema, env: Env, uuid: string, doc: PatchDoc): (r: Result<PatchResult, Error>)
    requires SchemaOk(schema) && EnvOk(schema, env)
    ensures env.getByUuid(uuid).Failure? ==> r == Failure(env.getByUuid(uuid).error)
    ensures (&& env.getByUuid(uuid).Success?
             && env.applyJsonPatch(env.getByUuid(uuid).value.values, doc).Failure?
             && env.applyJsonPatch(env.getByUuid(uuid).value.values, doc).error.JsonPatchException?) ==>
      r == Failure(PatchError(env.applyJsonPatch(env.getByUuid(uuid).value.values, doc).error.reason))
    ensures (&& env.getByUuid(uuid).Success?
             && env.applyJsonPatch(env.getByUuid(uuid).value.values, doc).Failure?
             && env.applyJsonPatch(env.getByUuid(uuid).value.values, doc).error.OtherException?) ==>
      r == Failure(env.applyJsonPatch(env.getByUuid(uuid).value.values, doc).error.error)
    ensures env.getByUuid(uuid).Success? && env.applyJsonPatch(env.getByUuid(uuid).value.values, doc).Success? ==>
      r.Success?
    ensures r.Success? ==>
      var rec := env.getByUuid(uuid).value.values;
      var patched := env.applyJsonPatch(rec, doc).value;
      && r.value.saved.values.Keys == rec.Keys
      && (forall f :: f in schema.declared && f in schema.exposed ==>
            r.value.saved.values[f]
              == (if PyEq(rec[f], PatchedValue(patched, f)) then rec[f] else PatchedValue(patched, f)))
      && (forall f :: f in rec && !(f in schema.declared && f in schema.exposed) ==>
            r.value.saved.values[f] == rec[f])
      && (forall f :: f in r.value.changed <==>
            f in schema.declared && f in schema.exposed && !PyEq(rec[f], PatchedValue(patched, f)))
  {
    var rec :- env.getByUuid(uuid);
    match env.applyJsonPatch(rec.values, doc)
    case Failure(JsonPatchException(reason)) => Failure(PatchError(reason))
    case Failure(OtherException(e)) => Failure(e)
    case Success(patched) =>
      var chassis := Init(schema, patched);
      var (saved, changed) := UpdateChangedFields(schema.declared, rec.values, chassis);
      Success(PatchResult(Record(saved), changed))
  }

  /** A patch that leaves the dictionary as it was saves the record unchanged and assigns nothing. */
  lemma NoOpPatchChangesNothing(schema: Schema, env: Env, uuid: string, doc: PatchDoc)
    requires SchemaOk(schema) && EnvOk(schema, env)
    requires env.getByUuid(uuid).Success?
    requires env.applyJsonPatch(env.getByUuid(uuid).value.values, doc) == Success(env.getByUuid(uuid).value.values)
    ensures Patch(schema, env, uuid, doc) == Success(PatchResult(env.getByUuid(uuid).value, []))
  {
    var rec := env.getByUuid(uuid).value;
    forall f | f in rec.values
      ensures PyEq(rec.values[f], rec.values[f])
    {
      PyEqReflexive(rec.values[f]);
    }
    var r := Patch(schema, env, uuid, doc).value;
    assert r.saved.values == rec.values;
  }

  /**
   * Replacing one exposed field with a new value saves exactly that change
   * and reports only that field.
   */
  lemma ReplaceOneField(schema: Schema, env: Env, uuid: string, doc: PatchDoc, f: FieldName, v: Json)
    requires SchemaOk(schema) && EnvOk(schema, env)
    requires env.getByUuid(uuid).Success?
    requires f in schema.declared && f in schema.exposed
    requires !PyEq(env.getByUuid(uuid).value.values[f], v)
    requires env.applyJsonPatch(env.getByUuid(uuid).value.values, doc) == Success(env.getByUuid(uuid).value.values[f := v])
    ensures Patch(schema, env, uuid, doc).Success?
    ensures Patch(schema, env, uuid, doc).value.saved.values == env.getByUuid(uuid).value.values[f := v]
    ensures forall g :: g in Patch(schema, env, uuid, doc).value.changed <==> g == f
  {
    var rec := env.getByUuid(uuid).value.values;
    var patched := rec[f := v];
    var c := Init(schema, patched);
    var diff := UpdateChangedFields(schema.declared, rec, c);
    assert Patch(schema, env, uuid, doc) == Success(PatchResult(Record(diff.0), diff.1));
    forall g | g in rec
      ensures diff.0[g] == patched[g]
      ensures g in diff.1 <==> g == f
    {
      PyEqReflexive(rec[g]);
    }
    assert diff.0 == patched;
  }

  /**
   * Replacing an exposed field with a value Python deems equal to the stored
   * one keeps the stored value and assigns nothing.
   */
  lemma EqualValuePatchIsNoOp(schema: Schema, env: Env, uuid: string, doc: PatchDoc, f: FieldName, v: Json)
    requires SchemaOk(schema) && EnvOk(schema, env)
    requires env.getByUuid(uuid).Success?
    requires f in env.getByUuid(uuid).value.values
    requires PyEq(env.getByUuid(uuid).value.values[f], v)
    requires env.applyJsonPatch(env.getByUuid(uuid).value.values, doc) == Success(env.getByUuid(uuid).value.values[f := v])
    ensures Patch(schema, env, uuid, doc) == Success(PatchResult(env.getByUuid(uuid).value, []))
  {
    var rec := env.getByUuid(uuid).value;
    forall g | g in rec.values
      ensures PyEq(rec.values[g], rec.values[g])
    {
      PyEqReflexive(rec.values[g]);
    }
    var r := Patch(schema, env, uuid, doc).value;
    assert r.saved.values == rec.values;
  }

  /**
   * Patching `extra` from `{"a": 1}` to `{"a": true}` assigns nothing: the
   * two dictionaries are equal in Python, so the stored value is kept.
   */
  lemma BoolForIntPatchIsNoOp(env: Env, uuid: string, doc: PatchDoc)
    requires EnvOk(IronicChassis, env)
    requires env.getByUuid(uuid).Success?
    requires env.getByUuid(uuid).value.values["extra"] == JObj(map["a" := JNum(1)])
    requires env.applyJsonPatch(env.getByUuid(uuid).value.values, doc)
          == Success(env.getByUuid(uuid).value.values["extra" := JObj(map["a" := JBool(true)])])
    ensures Patch(IronicChassis, env, uuid, doc) == Success(PatchResult(env.getByUuid(uuid).value, []))
  {
    IronicChassisHidesId();
    BoolEqualsIntInsideDict();
    EqualValuePatchIsNoOp(IronicChassis, env, uuid, doc, "extra", JObj(map["a" := JBool(true)]));
  }

  /**
   * A patch that removes an exposed field leaves its attribute `Unset`, which
   * is saved as `None` and reported when the stored value was not already `None`.
   */
  lemma RemovedFieldSavedAsNone(schema: Schema, env: Env, uuid: string, doc: PatchDoc, f: FieldName)
    requires SchemaOk(schema) && EnvOk(schema, env)
    requires env.getByUuid(uuid).Success?
    requires f in schema.declared && f in schema.exposed
    requires env.applyJsonPatch(env.getByUuid(uuid).value.values, doc) == Success(env.getByUuid(uuid).value.values - {f})
    ensures Patch(schema, env, uuid, doc).Success?
    ensures Patch(schema, env, uuid, doc).value.saved.values[f] == JNull
    ensures f in Patch(schema, env, uuid, doc).value.changed <==> env.getByUuid(uuid).value.values[f] != JNull
  {
    var rec := env.getByUuid(uuid).value.values;
    var patched := rec - {f};
    var c := Init(schema, patched);
    assert c.attrs[f] == Unset;
    assert PatchValue(c.attrs[f]) == JNull;
    assert PyEq(rec[f], JNull) <==> rec[f] == JNull;
  }

  /**
   * A declared field the API does not expose is never written or reported,
   * whatever the patch document says.
   */
  lemma HiddenFieldNeverPatched(schema: Schema, env: Env, uuid: string, doc: PatchDoc, f: FieldName)
    requires SchemaOk(schema) && EnvOk(schema, env)
    requires f in schema.declared && f !in schema.exposed
    ensures Patch(schema, env, uuid, doc).Success? ==>
      && env.getByUuid(uuid).Success? && f in env.getByUuid(uuid).value.values
      && Patch(schema, env, uuid, doc).value.saved.values[f] == env.getByUuid(uuid).value.values[f]
      && f !in Patch(schema, env, uuid, doc).value.changed
  {
  }

  /** With the chassis layout this protects the database `id`. */
  lemma DatabaseIdNeverPatched(env: Env, uuid: string, doc: PatchDoc)
    requires EnvOk(IronicChassis, env)
    ensures Patch(IronicChassis, env, uuid, doc).Success? ==>
      && env.getByUuid(uuid).Success? && "id" in env.getByUuid(uuid).value.values
      && Patch(IronicChassis, env, uuid, doc).value.saved.values["id"] == env.getByUuid(uuid).value.values["id"]
      && "id" !in Patch(IronicChassis, env, uuid, doc).value.changed
  {
    IronicChassisHidesId();
    HiddenFieldNeverPatched(IronicChassis, env, uuid, doc, "id");
  }

  lemma IronicChassisHidesId()
    ensures SchemaOk(IronicChassis)
    ensures "id" in IronicChassis.declared && "id" !in IronicChassis.exposed
  {
  }
}
