/**
 * The API representation of a chassis (the `Chassis` class of
 * ironic/api/controllers/v1/chassis.py): construction from keyword
 * arguments, the `as_dict` view, and conversion with hyperlinks.
 */
module Chassis {
  import opened Wrappers
  import opened Types

  /**
   * The representation. `fields` is the instance's field list, `attrs` holds
   * the data attributes set by the constructor, and `links` / `nodes` are
   * the two read-only link lists (`None` while still wsme's `Unset`).
   */
  datatype Chassis = Chassis(
    fields: seq<FieldName>,
    attrs: map<FieldName, Slot>,
    links: Option<seq<Link>>,
    nodes: Option<seq<Link>>)

  /** `APIBase.unset_fields_except`, whose definition lives outside this model. */
  type UnsetFn = (map<FieldName, Slot>, seq<FieldName>) -> map<FieldName, Slot>

  /** The declared fields that the API class exposes, in declaration order. */
  function ExposedFields(declared: seq<FieldName>, exposed: set<FieldName>): (r: seq<FieldName>)
    ensures forall f :: f in r <==> f in declared && f in exposed
    ensures |r| <= |declared|
  {
    if declared == [] then []
    else if declared[0] in exposed then [declared[0]] + ExposedFields(declared[1..], exposed)
    else ExposedFields(declared[1..], exposed)
  }

  /** Filtering commutes with concatenation, so the record's order is kept. */
  lemma {:induction false} ExposedFieldsAppend(a: seq<FieldName>, b: seq<FieldName>, exposed: set<FieldName>)
    ensures ExposedFields(a + b, exposed) == ExposedFields(a, exposed) + ExposedFields(b, exposed)
  {
    if a == [] {
      assert a + b == b;
    } else {
      assert (a + b)[1..] == a[1..] + b;
      ExposedFieldsAppend(a[1..], b, exposed);
    }
  }

  predicate NoDuplicates<T(==)>(s: seq<T>) {
    forall i, j :: 0 <= i < j < |s| ==> s[i] != s[j]
  }

  /** A record whose field names are distinct yields distinct exposed names. */
  lemma {:induction false} ExposedFieldsNoDuplicates(declared: seq<FieldName>, exposed: set<FieldName>)
    requires NoDuplicates(declared)
    ensures NoDuplicates(ExposedFields(declared, exposed))
  {
    if declared != [] {
      var tail := declared[1..];
      assert NoDuplicates(tail) by {
        forall i, j | 0 <= i < j < |tail| ensures tail[i] != tail[j] {
          assert tail[i] == declared[i + 1] && tail[j] == declared[j + 1];
        }
      }
      ExposedFieldsNoDuplicates(tail, exposed);
      assert declared[0] !in tail by {
        forall k | 0 <= k < |tail| ensures tail[k] != declared[0] {
          assert tail[k] == declared[k + 1];
        }
      }
    }
  }

  /**
   * `Chassis(**kwargs)`: every exposed declared field becomes an attribute,
   * set from `kwargs` or left `Unset`; unknown keys are ignored.
   */
  function Init(schema: Schema, kwargs: map<FieldName, Json>): (c: Chassis)
    ensures c.fields == ExposedFields(schema.declared, schema.exposed)
    ensures forall f :: f in c.fields <==> f in schema.declared && f in schema.exposed
    ensures forall f :: f in c.attrs <==> f in schema.declared && f in schema.exposed
    ensures forall f :: f in c.attrs && f in kwargs ==> c.attrs[f] == Set(kwargs[f])
    ensures forall f :: f in c.attrs && f !in kwargs ==> c.attrs[f] == Unset
    ensures c.links == None && c.nodes == None
  {
    var fields := ExposedFields(schema.declared, schema.exposed);
    Chassis(fields,
            map f | f in fields :: if f in kwargs then Set(kwargs[f]) else Unset,
            None, None)
  }

  /** `APIBase.as_dict`: the listed attributes that are not `Unset`. */
  function AsDict(c: Chassis): (d: map<FieldName, Json>)
    ensures forall f :: f in d <==> f in c.fields && f in c.attrs && c.attrs[f].Set?
    ensures forall f :: f in d ==> c.attrs[f] == Set(d[f])
  {
    map f | f in c.fields && f in c.attrs && c.attrs[f].Set? :: c.attrs[f].value
  }

  /**
   * Building a representation and reading it back yields exactly the
   * record's values of the exposed declared fields.
   */
  lemma InitAsDictRoundTrip(schema: Schema, kwargs: map<FieldName, Json>)
    ensures AsDict(Init(schema, kwargs)).Keys
         == set f | f in kwargs && f in schema.declared && f in schema.exposed
    ensures forall f :: f in AsDict(Init(schema, kwargs)) ==> AsDict(Init(schema, kwargs))[f] == kwargs[f]
  {
    var c := Init(schema, kwargs);
    assert forall f :: f in AsDict(c) <==> f in kwargs && f in schema.declared && f in schema.exposed;
  }

  /** The uuid attribute is set to a string (it is captured for the links). */
  predicate HasUuid(c: Chassis) {
    "uuid" in c.attrs && c.attrs["uuid"].Set? && c.attrs["uuid"].value.JStr?
  }

  function CapturedUuid(c: Chassis): string
    requires HasUuid(c)
  {
    c.attrs["uuid"].value.s
  }

  /** The `self` link followed by the version-free `bookmark` link. */
  function SelfAndBookmark(url: string, id: string): (ls: seq<Link>)
    ensures |ls| == 2
    ensures ls[0].rel == "self" && !ls[0].bookmark
    ensures ls[1].rel == "bookmark" && ls[1].bookmark
    ensures forall l :: l in ls ==> l.baseUrl == url && l.resourceType == "chassis" && l.resourceId == id
  {
    [Link("self", url, "chassis", id, false), Link("bookmark", url, "chassis", id, true)]
  }

  /**
   * `Chassis._convert_with_links`: with no field filter the `nodes` links
   * are synthesized; with one, the data attributes are projected and `nodes`
   * is left as it was. The resource links are always built, from the uuid
   * read before any projection.
   */
  function AttachLinks(c: Chassis, url: string, fields: Option<seq<FieldName>>, unsetExcept: UnsetFn): (r: Chassis)
    requires HasUuid(c)
    ensures r.links == Some(SelfAndBookmark(url, CapturedUuid(c)))
    ensures fields.None? ==> r.nodes == Some(SelfAndBookmark(url, CapturedUuid(c) + "/nodes"))
    ensures fields.None? ==> r.attrs == c.attrs
    ensures fields.Some? ==> r.nodes == c.nodes && r.attrs == unsetExcept(c.attrs, fields.value)
    ensures r.fields == c.fields
  {
    var uuid := CapturedUuid(c);
    var projected :=
      if fields.Some? then c.(attrs := unsetExcept(c.attrs, fields.value))
      else c.(nodes := Some(SelfAndBookmark(url, uuid + "/nodes")));
    projected.(links := Some(SelfAndBookmark(url, uuid)))
  }

  /** `api_utils.check_for_invalid_fields`: every requested name must be available. */
  function CheckForInvalidFields(fields: seq<FieldName>, available: set<FieldName>): (o: Outcome<Error>)
    ensures o.Fail? <==> exists f :: f in fields && f !in available
    ensures o.Fail? ==> o.error.InvalidParameterValue?
  {
    if forall f :: f in fields ==> f in available then Pass
    else Fail(InvalidParameterValue("invalid field requested"))
  }

  /** A requested field is available when the record has it and the API exposes it. */
  predicate Available(schema: Schema, rec: Record, f: FieldName) {
    f in schema.declared && f in schema.exposed && f in rec.values
  }

  /**
   * `Chassis.convert_with_links`: build the representation of `rec`,
   * validate a field filter against it before anything else, then attach
   * links.
   */
  function ConvertWithLinks(schema: Schema, rec: Record, url: string, fields: Option<seq<FieldName>>, unsetExcept: UnsetFn)
    : (r: Result<Chassis, Error>)
    requires SchemaOk(schema) && RecordOk(schema, rec)
    ensures r.Failure? <==> fields.Some? && exists f :: f in fields.value && !Available(schema, rec, f)
    ensures r.Failure? ==> r.error.InvalidParameterValue?
    ensures r.Success? ==> r.value.links == Some(SelfAndBookmark(url, rec.values["uuid"].s))
    ensures r.Success? && fields.None? ==> r.value.nodes == Some(SelfAndBookmark(url, rec.values["uuid"].s + "/nodes"))
    ensures r.Success? && fields.None? ==> AsDict(r.value) == AsDict(Init(schema, rec.values))
    ensures r.Success? && fields.Some? ==> r.value.nodes == None
    ensures r.Success? && fields.Some? ==> r.value.attrs == unsetExcept(Init(schema, rec.values).attrs, fields.value)
  {
    var c := Init(schema, rec.values);
    assert AsDict(c).Keys == set f | f in rec.values && Available(schema, rec, f) by {
      InitAsDictRoundTrip(schema, rec.values);
    }
    :- if fields.Some? then CheckForInvalidFields(fields.value, AsDict(c).Keys) else Pass;
    Success(AttachLinks(c, url, fields, unsetExcept))
  }

  /** A name the record does not even declare is always rejected. */
  lemma UndeclaredFieldRejected(schema: Schema, rec: Record, url: string, fields: seq<FieldName>, unsetExcept: UnsetFn, f: FieldName)
    requires SchemaOk(schema) && RecordOk(schema, rec)
    requires f in fields && f !in schema.declared
    ensures ConvertWithLinks(schema, rec, url, Some(fields), unsetExcept).Failure?
    ensures ConvertWithLinks(schema, rec, url, Some(fields), unsetExcept).error.InvalidParameterValue?
  {
  }

  /**
   * The resource links do not depend on the field filter: asking for any
   * subset of fields leaves them exactly as in the full representation.
   */
  lemma LinksIndependentOfFields(schema: Schema, rec: Record, url: string, fields: seq<FieldName>, unsetExcept: UnsetFn)
    requires SchemaOk(schema) && RecordOk(schema, rec)
    requires forall f :: f in fields ==> Available(schema, rec, f)
    ensures ConvertWithLinks(schema, rec, url, Some(fields), unsetExcept).Success?
    ensures ConvertWithLinks(schema, rec, url, Some(fields), unsetExcept).value.links
         == ConvertWithLinks(schema, rec, url, None, unsetExcept).value.links
  {
  }

  /**
   * Full round trip: the unfiltered representation of a record reads back
   * exactly the record's values of the exposed fields.
   */
  lemma ConvertRoundTrip(schema: Schema, rec: Record, url: string, unsetExcept: UnsetFn)
    requires SchemaOk(schema) && RecordOk(schema, rec)
    ensures ConvertWithLinks(schema, rec, url, None, unsetExcept).Success?
    ensures AsDict(ConvertWithLinks(schema, rec, url, None, unsetExcept).value)
         == map f | f in rec.values && f in schema.declared && f in schema.exposed :: rec.values[f]
  {
    InitAsDictRoundTrip(schema, rec.values);
  }
}
