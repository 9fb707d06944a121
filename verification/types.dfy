/**
 * The values that flow through the chassis API: the persisted record, the
 * three-valued attribute slot of the API representation, hyperlinks and the
 * error taxonomy.
 */
module Types {
  import opened Wrappers

  type FieldName = string

  /** A JSON-serialisable value; `JNull` is the Python `None`. */
  datatype Json =
    | JNull
    | JBool(b: bool)
    | JNum(n: int)
    | JReal(x: real)
    | JStr(s: string)
    | JArr(items: seq<Json>)
    | JObj(entries: map<string, Json>)

  /** Python's `bool` is a subtype of `int`, and `int`s compare with `float`s by value. */
  predicate IsNumeric(j: Json) {
    j.JBool? || j.JNum? || j.JReal?
  }

  function NumericValue(j: Json): real
    requires IsNumeric(j)
  {
    match j
    case JBool(b) => if b then 1.0 else 0.0
    case JNum(n) => n as real
    case JReal(x) => x
  }

  /**
   * Python's `==` on JSON-shaped values: numbers (booleans included) by
   * value, strings by content, lists element-wise, dicts by key set and
   * per-key equality.
   */
  predicate PyEq(a: Json, b: Json) {
    if IsNumeric(a) && IsNumeric(b) then NumericValue(a) == NumericValue(b)
    else
      match (a, b)
      case (JNull, JNull) => true
      case (JStr(s), JStr(t)) => s == t
      case (JArr(xs), JArr(ys)) => |xs| == |ys| && forall i :: 0 <= i < |xs| ==> PyEq(xs[i], ys[i])
      case (JObj(m), JObj(n)) => m.Keys == n.Keys && forall k :: k in m ==> PyEq(m[k], n[k])
      case _ => false
  }

  /** Every value equals itself under Python's `==` (there are no NaNs here). */
  lemma {:induction false} PyEqReflexive(a: Json)
    ensures PyEq(a, a)
  {
    match a
    case JArr(xs) =>
      forall i | 0 <= i < |xs| ensures PyEq(xs[i], xs[i]) {
        PyEqReflexive(xs[i]);
      }
    case JObj(m) =>
      forall k | k in m ensures PyEq(m[k], m[k]) {
        PyEqReflexive(m[k]);
      }
    case _ =>
  }

  /** `{"a": 1} == {"a": True}` holds in Python, although the values differ structurally. */
  lemma BoolEqualsIntInsideDict()
    ensures PyEq(JObj(map["a" := JNum(1)]), JObj(map["a" := JBool(true)]))
    ensures JObj(map["a" := JNum(1)]) != JObj(map["a" := JBool(true)])
  {
    assert JObj(map["a" := JNum(1)]).entries["a"] != JObj(map["a" := JBool(true)]).entries["a"];
  }

  /**
   * One attribute of the API representation: either never assigned
   * (wsme's `Unset` sentinel) or assigned a value, which may be `JNull`.
   */
  datatype Slot = Unset | Set(value: Json)

  /**
   * A hyperlink as `link.Link.make_link(rel, url, resource_type, resource_id,
   * bookmark)` would build it. The rendering of the href text belongs to the
   * link module and is kept as the tuple of its inputs.
   */
  datatype Link = Link(rel: string, baseUrl: string, resourceType: string, resourceId: string, bookmark: bool)

  /**
   * The declared layout shared by the persisted object and the API class:
   * `declared` is the field order of `objects.Chassis.fields`, `exposed` the
   * data attributes the API class declares (so that `hasattr` is true).
   */
  datatype Schema = Schema(declared: seq<FieldName>, exposed: set<FieldName>)

  /** The uuid is a declared field of the record and an exposed attribute. */
  predicate SchemaOk(schema: Schema) {
    "uuid" in schema.declared && "uuid" in schema.exposed
  }

  /**
   * One instance of the layout: the chassis object declares `id`, `uuid`,
   * `extra`, `description` and the two timestamps; the API class exposes all
   * of them except the database `id`.
   */
  const IronicChassis: Schema :=
    Schema(["created_at", "updated_at", "id", "uuid", "extra", "description"],
           {"created_at", "updated_at", "uuid", "extra", "description"})

  /** A persisted chassis: the fields it has loaded, by name. */
  datatype Record = Record(values: map<FieldName, Json>)

  /**
   * A record as the persistence layer hands it out: every declared field is
   * loaded and the uuid is a string.
   */
  predicate RecordOk(schema: Schema, rec: Record) {
    && (forall f :: f in schema.declared ==> f in rec.values)
    && "uuid" in rec.values && rec.values["uuid"].JStr?
  }

  /** One operation of a JSON Patch document (RFC 6902). */
  datatype PatchOp =
    | Add(path: string, value: Json)
    | Replace(path: string, value: Json)
    | Remove(path: string)

  type PatchDoc = seq<PatchOp>

  /**
   * The exceptions the controller raises or lets through. The controller
   * itself raises `InvalidParameterValue`, `HttpNotFound`, `PatchError` and
   * `IndexError`; the others are what its collaborators raise: the limit and
   * sort-direction validators (`ClientSideError`), the uuid lookup
   * (`ChassisNotFound`) and the field-permission check (`NotAcceptable`).
   */
  datatype Error =
    | InvalidParameterValue(detail: string)
    | ClientSideError(detail: string)
    | ChassisNotFound(uuid: string)
    | HttpNotFound
    | PatchError(reason: string)
    | NotAcceptable
    | IndexError

  /**
   * How applying a JSON patch can fail: with one of the JSON-patch
   * exceptions the controller catches, or with any other exception, which
   * it lets through unchanged.
   */
  datatype PatchFailure =
    | JsonPatchException(reason: string)
    | OtherException(error: Error)
}
