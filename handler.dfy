/** `ResourceHandler`: one resource's request handlers. Each request loads
    the resource's data file, checks and changes the list of records, and
    writes the whole list back. The data file is the field `items` and the
    resource's schema file the field `schema`; a read of the data file reads
    `items` and a save assigns it. */
module Handler {
  import opened Wrappers
  import opened Json
  import opened Validation
  import opened Pagination
  import opened Store

  /** A request body as the handler sees it. */
  datatype Body =
    | NotJson          // Content-Type is not application/json
    | Malformed        // `request.get_json()` raises
    | Json(doc: Document)

  /** The error responses, with their HTTP statuses. */
  datatype Error =
    | BadContentType   // 400, "Content-Type must be application/json"
    | Invalid          // 400, the schema rejected the body
    | NotFound         // 404, "<Resource> not found"
    | ServerError      // 500, "Error creating/updating <resource>"

  /** `{"data": [...], "metadata": {...}}` of a listing. */
  datatype Listing = Listing(data: seq<Record>, metadata: Metadata)

  /** `{"data": record, "metadata": {"total_items": n}}`. */
  datatype Single = Single(data: Record, totalItems: nat)

  class ResourceHandler {
    const resourceName: string
    /** Regular-expression search, `re.search(pattern, text)`, used by the validator. */
    const matches: (string, string) -> bool
    /** The resource's schema file; `None` when it is missing or empty. */
    var schema: Option<Schema>
    /** The resource's data file; a missing file reads as `[]`. */
    var items: seq<Record>

    constructor (name: string, schemaFile: Option<Schema>, matcher: (string, string) -> bool,
                 dataFile: seq<Record>)
      ensures resourceName == name && schema == schemaFile && matches == matcher
      ensures items == dataFile
    {
      resourceName := name;
      schema := schemaFile;
      matches := matcher;
      items := dataFile;
    }

    /** `get_all`: the requested page of records and its metadata. The page
        sliced is the unclamped requested page, so a page past the end is
        empty while the metadata names the last page as current. */
    method GetAll(pageArg: QueryArg, perPageArg: QueryArg) returns (r: Listing)
      ensures var p := PaginationParams(pageArg, perPageArg);
              && r.data == PageOf(items, p.page, p.perPage)
              && r.metadata == PaginationMetadata(|items|, p.page, p.perPage)
      ensures |r.data| <= MaxPageSize
      ensures r.metadata.totalItems == |items|
    {
      var stored := items;
      var params := PaginationParams(pageArg, perPageArg);
      var start := PageStart(params.page, params.perPage);
      var end := start + params.perPage;
      var page := stored[Min(start, |stored|)..Min(end, |stored|)];
      r := Listing(page, PaginationMetadata(|stored|, params.page, params.perPage));
    }

    /** `get_one`: the first record whose `str(id)` equals the path id. */
    method GetOne(itemId: string) returns (r: Result<Single, Error>)
      ensures r.Failure? <==> forall j :: 0 <= j < |items| ==> IdText(items[j]) != itemId
      ensures r.Failure? ==> r.error == NotFound
      ensures r.Success? ==> r.value.totalItems == |items| && IdText(r.value.data) == itemId
      ensures r.Success? ==> exists k :: 0 <= k < |items| && r.value.data == items[k]
                                && forall j :: 0 <= j < k ==> IdText(items[j]) != itemId
    {
      var stored := items;
      var found := Lookup(stored, itemId);
      if found.None? {
        return Failure(NotFound);
      }
      r := Success(Single(found.value, |stored|));
      assert stored[FindIndex(stored, itemId).value] == found.value;
    }

    /** `create`: check the body with required fields enforced, then append
        `{'id': len(items) + 1, **data}` and save. Every failure leaves the
        data file as it was. */
    method Create(body: Body) returns (r: Result<Single, Error>)
      modifies this`items
      ensures body.NotJson? ==> r == Failure(BadContentType)
      ensures body.Malformed? ==> r == Failure(ServerError)
      ensures body.Json? && !ValidateData(schema, body.doc, true, matches) ==> r == Failure(Invalid)
      ensures body.Json? && body.doc.NonObject? && ValidateData(schema, body.doc, true, matches) ==>
                r == Failure(ServerError)
      ensures r.Success? <==> body.Json? && body.doc.Object? && ValidateData(schema, body.doc, true, matches)
      ensures r.Failure? ==> items == old(items)
      ensures r.Success? ==> items == Appended(old(items), body.doc.fields)
      ensures r.Success? ==> r.value == Single(WithId(Int(|old(items)| + 1), body.doc.fields), |old(items)| + 1)
    {
      if body.NotJson? {
        return Failure(BadContentType);
      }
      if body.Malformed? {
        return Failure(ServerError);
      }
      var data := body.doc;
      if !ValidateData(schema, data, true, matches) {
        return Failure(Invalid);
      }
      var stored := items;
      if data.NonObject? {
        // `{**data}` on a non-mapping raises TypeError
        return Failure(ServerError);
      }
      var newItem := WithId(Int(|stored| + 1), data.fields);
      stored := stored + [newItem];
      items := stored;
      r := Success(Single(newItem, |stored|));
    }

    /** `update`: check the body with `required` emptied, find the record,
        replace it by `{'id': old id, **data}` and save. Every failure leaves
        the data file as it was. */
    method Update(itemId: string, body: Body) returns (r: Result<Single, Error>)
      modifies this`items
      ensures body.NotJson? ==> r == Failure(BadContentType)
      ensures body.Malformed? ==> r == Failure(ServerError)
      ensures body.Json? && !ValidateData(schema, body.doc, false, matches) ==> r == Failure(Invalid)
      ensures body.Json? && ValidateData(schema, body.doc, false, matches) ==>
                match FindIndex(old(items), itemId)
                case None => r == Failure(NotFound)
                case Some(k) =>
                  if "id" !in old(items)[k] || body.doc.NonObject? then r == Failure(ServerError)
                  else r.Success?
      ensures r.Failure? ==> items == old(items)
      ensures r.Success? ==>
                && body.Json? && body.doc.Object?
                && FindIndex(old(items), itemId).Some?
                && var k := FindIndex(old(items), itemId).value;
                && "id" in old(items)[k]
                && items == Replaced(old(items), k, body.doc.fields)
                && r.value == Single(items[k], |items|)
    {
      if body.NotJson? {
        return Failure(BadContentType);
      }
      if body.Malformed? {
        return Failure(ServerError);
      }
      var data := body.doc;
      if !ValidateData(schema, data, false, matches) {
        return Failure(Invalid);
      }
      var stored := items;
      var index := FindIndex(stored, itemId);
      if index.None? {
        return Failure(NotFound);
      }
      var k := index.value;
      if "id" !in stored[k] {
        // `items[item_index]['id']` raises KeyError: the record matched the path id "None"
        return Failure(ServerError);
      }
      if data.NonObject? {
        return Failure(ServerError);
      }
      var updated := WithId(stored[k]["id"], data.fields);
      stored := stored[k := updated];
      items := stored;
      r := Success(Single(updated, |stored|));
    }

    /** `delete`: find the record, pop it and save; the others are not
        renumbered. A missing id leaves the data file as it was. */
    method Delete(itemId: string) returns (r: Result<Single, Error>)
      modifies this`items
      ensures r.Failure? <==> FindIndex(old(items), itemId).None?
      ensures r.Failure? ==> r.error == NotFound && items == old(items)
      ensures r.Success? ==>
                var k := FindIndex(old(items), itemId).value;
                && items == Removed(old(items), k)
                && r.value == Single(old(items)[k], |old(items)| - 1)
    {
      var stored := items;
      var index := FindIndex(stored, itemId);
      if index.None? {
        return Failure(NotFound);
      }
      var k := index.value;
      var deleted := stored[k];
      stored := stored[..k] + stored[k + 1..];
      items := stored;
      r := Success(Single(deleted, |stored|));
    }
  }

  /** A devices resource with its built-in schema and an empty data file:
      creating a thermostat gives it id 1, and a listing then shows that one
      record. */
  method CreateDeviceScenario(matcher: (string, string) -> bool)
    returns (h: ResourceHandler, created: Result<Single, Error>, listed: Listing)
    ensures created.Success? && "id" in created.value.data && created.value.data["id"] == Int(1)
    ensures created.value.totalItems == 1 && h.items == [created.value.data]
    ensures listed.metadata.totalItems == 1 && listed.data == [created.value.data]
  {
    h := new ResourceHandler("devices", DefaultSchema("devices"), matcher, []);
    ThermostatAccepted(matcher);
    created := h.Create(Json(Object(ThermostatBody)));
    listed := h.GetAll(Absent, Absent);
    assert PaginationParams(Absent, Absent) == PageParams(1, DefaultPageSize);
  }

  /** Continuing from there: deleting id 1 returns the record and leaves no
      records, and a later lookup of id 1 is not found. */
  method DeleteDeviceScenario(h: ResourceHandler, record: Record)
    returns (deleted: Result<Single, Error>, again: Result<Single, Error>)
    requires h.items == [record] && "id" in record && record["id"] == Int(1)
    modifies h
    ensures deleted == Success(Single(record, 0)) && h.items == []
    ensures again == Failure(NotFound)
  {
    assert IdText(record) == "1" by { assert IntText(1) == "1"; }
    FirstMatch(h.items, "1", 0);
    deleted := h.Delete("1");
    again := h.GetOne("1");
  }
}
