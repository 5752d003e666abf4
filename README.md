# rest-server resource handler, in Dafny

This project models the file-backed CRUD engine of a small REST server. The
server turns each JSON file in its data directory into a *resource*. A
resource is an ordered list of *records*, which are JSON objects with an `id`
field. For each resource the server offers five operations:

- list, with offset pagination;
- get one record by id;
- create, update and delete a record.

Create and update can check the request body against a JSON schema. Every
request loads the whole file. Every create, update or delete that succeeds
writes the whole list back; reads and error responses write nothing.

The model has one module per part of `ResourceHandler`:

- `Json` (json.dfy): the JSON values stored in a file, and Python's `str()` of
  them. The handler finds a record by comparing `str(record.get('id'))` with
  the id taken from the URL path, so a record whose id is the string `"3"`
  matches path id `3` just as the integer `3` does.
- `Validation` (validation.dfy): `validate_data` over the JSON Schema keywords
  the resource schemas use, plus the four built-in schemas. Regular-expression
  search is the one part of the validator left abstract. It is the parameter
  `matches(pattern, text)`.
- `Pagination` (pagination.dfy): the query-parameter clamps, the page slice
  and the metadata block. A page link is the pair (page number, per_page) that
  the URL `{base_url}?page=..&per_page=..` carries.
- `Store` (store.dfy): the first-match search by id, the record literal
  `{'id': ..., **data}`, and append, replace and pop as functions on
  sequences. It also holds the lemmas about how ids behave.
- `Handler` (handler.dfy): the class `ResourceHandler`. Its field `items` is
  the resource's data file and its field `schema` is the resource's schema
  file. `GetAll` and `GetOne` only read. `Create`, `Update` and `Delete` load
  `items`, change the list, and assign it back, which stands for the
  whole-file save. Each is proved against the `Store` functions. Each leaves
  `items` unchanged on every error path.
- `Routes` (routes.dfy): the five URL rules registered per resource.

## Behaviour of the code worth knowing

The model follows the code in each case below.

- **A payload `id` wins, on update as well as on create.** The record literals
  put the payload after `id` (main.py:262-265, 307-310). So a body that carries
  its own `id` replaces the computed id on create and the original id on
  update, although the comment at main.py:306 states the intent "Update the
  item while preserving its ID". Every built-in schema lists `id` as an
  allowed property, so such a body passes validation
  (`Validation.BuiltinSchemasAdmitId`, `Store.UpdateCanChangeId`).
- **Ids are not unique.** The new id is `len(items) + 1`. After a deletion, a
  create can therefore repeat the id of a surviving record
  (`Store.DeleteThenCreateDuplicatesId`). A lookup of that id then finds the
  older record.
- **Current page of an empty resource.** The current page is
  `min(max(1, page), max(1, total_pages))`. With no records it is 1 while
  `total_pages` is 0, so it is not clamped into `[1, total_pages]`.
- **Malformed JSON bodies get a 500.** `request.get_json()` raises inside the
  `try`, and the generic `except Exception` turns that into a 500, not a 400.
  A body that is JSON but not an object, when no schema rejects it first,
  ends in a 500 on create, and on update once the id is found, because
  `{**data}` raises `TypeError`. On update with an unknown id the lookup
  answers 404 before that.
- **A record without `id`.** `str(item.get('id'))` is `"None"` for such a
  record, so path id `None` finds it. `update` then raises `KeyError` on
  `items[item_index]['id']` and answers 500.

## Model

| member | source | states |
|---|---|---|
| `Json.IntText` | main.py:236 | Python's `str()` of an int: leading `-` exactly for negatives, digits otherwise |
| `Json.Render` | main.py:236 | Python's `str()` of a loaded value: an integer gives its decimal text, never `None`, `True` or `False`; a string gives itself; the text `None` comes only from null, a string or a compound value |
| `Json.IdText` | main.py:236 | `str(record.get('id'))`: `"None"` when the record has no id, the decimal text for an integer id |
| `Json.IntTextInjective` | main.py:236 | two integer ids with the same `str()` are equal, so a path id names at most one integer id |
| `Validation.Satisfies` | main.py:168 | a float, array or object value satisfies no property; a value that satisfies one has one of its types, meets its `minimum` when an integer, and meets its `minLength` and `pattern` when a string |
| `Validation.Conforms` | main.py:168 | a conforming object has every required field, has only listed fields when `additionalProperties` is false, and with no required fields and extra fields allowed conforms exactly when each listed field satisfies its property |
| `Validation.ValidateData` | main.py:154-171 | with no schema every body passes; with a schema a non-object body fails; a passing body has every required field when they are enforced, only listed fields when extras are forbidden, and each listed field satisfies its property |
| `Validation.Relaxed` | main.py:163-167 | the update check keeps properties and `additionalProperties` and empties `required`; the create check keeps the schema as it is |
| `Validation.NoSchemaAcceptsAll` | main.py:156-159 | with no schema every body passes, in both modes |
| `Validation.CreateCheckIsUpdateCheckPlusRequired` | main.py:154-171 | a body passes the create check iff it passes the update check and has every required field |
| `Validation.DefaultSchema` | main.py:35-84 | exactly users, locations, devices and consumption have built-in schemas; each forbids extra fields and lists `id` |
| `Validation.BuiltinSchemasAdmitId` | main.py:35-84 | adding a positive integer `id` to a body that passes a built-in schema keeps it passing, in both modes |
| `Validation.UsersRequireEmail` | main.py:36-49 | a users body without `email` fails the create check |
| `Validation.UsersRejectUnknownField` | main.py:36-49 | a users body with a field other than id, name or email fails in both modes |
| `Validation.UserWithIdAccepted` | main.py:36-49 | a users body with name, a pattern-matching email and `id` 7 passes the create check |
| `Validation.ThermostatAccepted` | main.py:60-71 | a devices body with name, type and a positive location_id passes the create check |
| `Pagination.PaginationParams` | main.py:173-184 | page is at least 1 and per_page is in [1, 100]; absent parameters give (1, 10); an unparseable one resets both to (1, 10); values in range are kept and values out of range are clamped |
| `Pagination.ArgOr` | main.py:176-179 | an absent parameter reads as its default; the result is missing exactly when a given parameter does not parse, and otherwise is the parsed value |
| `Pagination.CeilDiv` | main.py:188 | the page count is 0 exactly when there are no items, and at most 1 when the items fit on one page |
| `Pagination.CeilDivIsCeiling` | main.py:188 | `total_pages` is the least q with q * per_page >= total_items, and it is 0 exactly for no items |
| `Pagination.PageUrl` | main.py:194-195 | page number 0 gives no link, any other page number gives one |
| `Pagination.PaginationMetadata` | main.py:186-206 | the current page is at least 1, at most total_pages when there are items, 1 when the requested page is below 1, and equal to the requested page when that page is in range; the first link always exists; the last link is absent iff there are no items; the next link exists iff current < total_pages and points to current + 1; the prev link exists iff current > 1 and points to current - 1 |
| `Pagination.PageStart` | main.py:218 | the offset of page 1 is 0, and a later page starts at least one page in |
| `Pagination.PageOf` | main.py:217-222 | the page holds at most per_page records; it is empty when its offset is past the end; otherwise it is the contiguous run of stored records from the offset, of length min(per_page, remaining) |
| `Pagination.ItemOnItsPage` | main.py:217-222 | record i appears on page i / per_page + 1, at position i % per_page |
| `Pagination.PagesCoverAll` | main.py:186-222 | pages 1..total_pages laid end to end are exactly the stored records, in order |
| `Pagination.PastLastPageIsEmpty` | main.py:186-222 | a page past the last is empty, while the metadata names the last page as current |
| `Pagination.TwentyFiveItemsExample` | main.py:186-222 | 25 records at 10 per page give 3 pages of 10, 10 and 5, with no prev link on page 1 and no next link on page 3 |
| `Store.FindIndex` | main.py:299-300 | the result is the first index whose `str(id)` equals the path id; no result means no record matches |
| `Store.Lookup` | main.py:236 | a record is found iff some record's `str(id)` matches, and it is the record at the first matching index |
| `Store.WithId` | main.py:262-265 | `{'id': x, **data}` has the payload's keys plus `id` and the payload's values; its id is the payload's if present, else x |
| `Store.Appended` | main.py:262-266 | create adds one record at the end, leaves earlier records untouched, and gives the new record id len + 1 unless the payload has one |
| `Store.Replaced` | main.py:307-311 | update keeps the length and every other index; the new record has exactly the payload's fields plus `id`, which is the payload's if present, else the old id |
| `Store.Removed` | main.py:343 | delete shortens the list by one; records before the index stay put and later ones shift down by one, with no renumbering |
| `Store.RemovedLosesOnlyIt` | main.py:343 | the records left after a delete, plus the removed record, are the records before, as a multiset |
| `Store.CreateKeepsDense` | main.py:262-266 | with ids 1..n and a payload without `id`, a create keeps ids 1..n+1 |
| `Store.FirstMatch` | main.py:299-300 | the search returns index m whenever record m matches and no earlier record does |
| `Store.DenseLookup` | main.py:299-300 | with ids 1..n, path id `str(k+1)` finds index k |
| `Store.RemovedFromDense` | main.py:343 | after deleting record k from ids 1..n, the survivors keep their ids: 1..k, then k+2..n |
| `Store.EarlierIdsDiffer` | main.py:262-344 | after such a delete and a create, no record before the last survivor answers to `str(n)` |
| `Store.LastTwoShareId` | main.py:262-344 | after deleting a record other than the last from ids 1..n and creating one, the last two records both have id n |
| `Store.DeleteThenCreateDuplicatesId` | main.py:262-344 | deleting any record but the last from ids 1..n and then creating gives two records with id n, and a lookup of n finds the older one |
| `Store.CreateThenLookup` | main.py:232-267 | if no stored record answers to `str(len + 1)`, getting that id after a create returns the created record |
| `Store.UpdateCanChangeId` | main.py:306-311 | a payload `id` that differs from the stored one changes the record's id on update |
| `Handler.ResourceHandler.constructor` | main.py:149-152 | a handler is bound to one resource name, its schema file and its data file |
| `Handler.ResourceHandler.GetAll` | main.py:208-230 | the listing is the page slice at the clamped parameters, with the matching metadata; it holds at most 100 records and reports the stored count |
| `Handler.ResourceHandler.GetOne` | main.py:232-247 | not found iff no record's `str(id)` matches; otherwise the first matching record and the stored count |
| `Handler.ResourceHandler.Create` | main.py:249-282 | a non-JSON body gives 400; a malformed body gives 500; a body the schema rejects gives 400; a non-object body gives 500; success iff the body is an accepted object, and then the store is the old store plus the new record and the total is len + 1; every failure leaves the store unchanged |
| `Handler.ResourceHandler.Update` | main.py:284-327 | the checks run in the source's order: content type, parsing, the schema with `required` emptied, lookup (404), a matched record without `id` or a non-object body (500); on success only the matched index is replaced, as `Store.Replaced`; every failure leaves the store unchanged |
| `Handler.ResourceHandler.Delete` | main.py:329-353 | not found iff no record matches, with the store unchanged; otherwise the first match is removed as `Store.Removed` and returned with total len - 1 |
| `Handler.CreateDeviceScenario` | main.py:208-282 | from an empty devices file, the created thermostat gets id 1 and total 1, and the default listing then shows exactly that record |
| `Handler.DeleteDeviceScenario` | main.py:232-353 | from a file holding one record with id 1, deleting id 1 returns that record with total 0 and empties the file, and getting id 1 is then not found |
| `Routes.RuleFor` | main.py:396-428 | the rule of an operation belongs to that resource and operation, and its endpoint is the operation's prefix plus the resource name |
| `Routes.ResourceRules` | main.py:392-429 | each resource gets five rules, one per operation, in registration order (list, get, create, update, delete) |
| `Routes.RulesDispatchUniquely` | main.py:396-428 | no two rules of a resource share both verb and path, so each request reaches one operation |
| `Routes.RouteTable` | main.py:386-431 | the table holds five rules per discovered resource |
| `Routes.RouteTableSound` | main.py:392-429 | every rule in the table is the rule of some operation of a discovered resource |
| `Routes.RouteTableComplete` | main.py:392-429 | every operation of every discovered resource has its rule in the table |
| `Routes.EndpointNameInjective` | main.py:396-428 | an endpoint name determines its operation and its resource |
| `Routes.EndpointsDistinct` | main.py:392-429 | distinct resource names give distinct endpoint names across the whole table |

## Left out

- Flask plumbing: `request`, `jsonify`, status tuples and `add_url_rule` dispatch. Errors are the four kinds `BadContentType`, `Invalid`, `NotFound` and `ServerError`, not message texts. The `.title()` casing of the resource name in messages is not modelled.
- Disk I/O. The data file is the field `items`, and a missing file reads as `[]`. That a read of a missing file also creates it is not modelled. Neither are a data file that is malformed or not a list of objects, nor a failing save.
- Schema storage. The schema file is the field `schema`, with a missing or empty schema as `None`. `SchemaHandler`, `init_schemas` and the schema endpoints are file passthrough with no logic. A schema that the validator rejects as a schema (`SchemaError`, a 500) is not modelled.
- JSON Schema keywords. The model covers the keywords the resource schemas use: `type` (integer, string, null, boolean), `minimum`, `minLength` and `pattern`, plus `required` and `additionalProperties` at object level. Schemas using other keywords are outside the model. Regex search is an abstract parameter. `format` is not asserted, because the validator gets no format checker. An integral float such as `1.0`, which JSON Schema counts as an integer, is modelled as having no type.
- Schemas without an object type or without per-property types. The `Schema` datatype always stands for `"type": "object"` with a `type` on every property, so a schema uploaded through the schema endpoints that leaves either out is not expressible. Under such a schema the source lets a non-object body or an untyped value through to `{**data}` (a 500 for a non-object), where the model's check answers `Invalid`.
- Compound field values. A float, array or object field is carried with its `str()` text rather than its structure.
- Python's `int()` parsing of query parameters. Each parameter is absent, or present with its parse result or a parse failure.
- The float division in `ceil(total_items / per_page)`. The model uses exact integer ceiling division; float rounding for very large counts is not modelled.
- Dictionary key order. Records are maps, so the position of `id` first in a created or updated record's JSON is not modelled.
- Resource discovery: `get_resource_files` is the sequence of names handed to `Routes.RouteTable`.
- Races between concurrent requests on the same file (no locking in the source). Logging, the documentation pages, and the startup and port handling.
