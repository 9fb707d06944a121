/** `ChassisCollection`: a page of chassis representations plus the next-page link. */
module ChassisCollection {
  import opened Wrappers
  import opened Types
  import opened Chassis

  datatype Collection = Collection(chassis: seq<Chassis>, next: Option<string>)

  /**
   * The list comprehension over converted records: the first raised error
   * aborts it, otherwise every converted item is kept in order.
   */
  function Collect<T, E>(results: seq<Result<T, E>>): (r: Result<seq<T>, E>)
    ensures r.Success? <==> forall i :: 0 <= i < |results| ==> results[i].Success?
    ensures r.Success? ==> |r.value| == |results|
    ensures r.Success? ==> forall i :: 0 <= i < |results| ==> r.value[i] == results[i].value
    ensures r.Failure? ==> exists i :: && 0 <= i < |results| && results[i] == Failure(r.error)
                                      && forall j :: 0 <= j < i ==> results[j].Success?
  {
    if results == [] then Success([])
    else
      match results[0]
      case Failure(e) => Failure(e)
      case Success(head) =>
        match Collect(results[1..])
        case Failure(e) => Failure(e)
        case Success(tail) => Success([head] + tail)
  }

  /** Conversion of every record of a listing with the same field filter. */
  function ConvertAll(schema: Schema, recs: seq<Record>, url: string, fields: Option<seq<FieldName>>, unsetExcept: UnsetFn)
    : (r: Result<seq<Chassis>, Error>)
    requires SchemaOk(schema)
    requires forall i :: 0 <= i < |recs| ==> RecordOk(schema, recs[i])
    ensures r.Success? <==> forall i :: 0 <= i < |recs| ==> ConvertWithLinks(schema, recs[i], url, fields, unsetExcept).Success?
    ensures r.Success? ==> |r.value| == |recs|
    ensures r.Success? ==> forall i :: 0 <= i < |recs| ==> r.value[i] == ConvertWithLinks(schema, recs[i], url, fields, unsetExcept).value
    ensures r.Failure? ==> r.error.InvalidParameterValue?
  {
    var results := seq(|recs|, i requires 0 <= i < |recs| => ConvertWithLinks(schema, recs[i], url, fields, unsetExcept));
    assert forall i :: 0 <= i < |recs| ==> results[i] == ConvertWithLinks(schema, recs[i], url, fields, unsetExcept);
    var r := Collect(results);
    assert r.Failure? ==> r.error.InvalidParameterValue? by {
      if r.Failure? {
        var i :| 0 <= i < |results| && results[i] == Failure(r.error);
        assert results[i].error.InvalidParameterValue?;
      }
    }
    r
  }

  /**
   * `collection.Collection.get_next(limit, url, sort_key, sort_dir)`, computed
   * from the page's items; its definition lives outside this model.
   */
  type NextFn = (seq<Chassis>, nat, Option<string>, string, string) -> Option<string>

  /**
   * `ChassisCollection.convert_with_links`: every record is converted with
   * the same field filter, an empty resource url counts as none, and the
   * next link is asked of `getNext`.
   */
  function ConvertCollection(schema: Schema, recs: seq<Record>, limit: nat, hostUrl: string,
                             url: Option<string>, fields: Option<seq<FieldName>>,
                             sortKey: string, sortDir: string,
                             unsetExcept: UnsetFn, getNext: NextFn)
    : (r: Result<Collection, Error>)
    requires SchemaOk(schema)
    requires forall i :: 0 <= i < |recs| ==> RecordOk(schema, recs[i])
    ensures r.Success? <==> ConvertAll(schema, recs, hostUrl, fields, unsetExcept).Success?
    ensures r.Success? ==> |r.value.chassis| == |recs|
    ensures r.Success? ==> forall i :: 0 <= i < |recs| ==>
      r.value.chassis[i] == ConvertWithLinks(schema, recs[i], hostUrl, fields, unsetExcept).value
    ensures r.Success? ==>
      r.value.next == getNext(r.value.chassis, limit, if url == Some("") then None else url, sortKey, sortDir)
  {
    var items :- ConvertAll(schema, recs, hostUrl, fields, unsetExcept);
    var nextUrl := if url == Some("") then None else url;
    Success(Collection(items, getNext(items, limit, nextUrl, sortKey, sortDir)))
  }
}
