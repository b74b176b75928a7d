# Item store and proxy: a Dafny model

This project models the two services of the repository.

- **Service A** is an item store. It has one `items` table whose rows are `Item(id, value)`. The model keeps the table as a sequence of rows in storage order, the `items` field of class `ItemStore.Store`. Create, update and delete are methods that change that field. List, count, search and read-by-id are functions over it. Id-addressed handlers answer `404` / `"Item not found"` when no row has the id. The health probe is a constant.
- **Service B** is a proxy. `ProxyClient` models two things. The first is the fetch of Service A's list as an abstract HTTP exchange. The second is the transform that writes `source = "service_a"` into every fetched item. The transform is a loop (`TagEach`), and `TagAll` / `Transformed` are the functions that specify it. `ProxyService.ProxyItems` maps the whole exchange to an answer. A fully transformed body gives `200`. Any failure raised by the fetch or by the transform gives `503`, with the detail `"Error communicating with Service A: " + str(error)`.

The table's invariant, `Store.Valid()`, is that ids strictly increase along storage order. So ids are unique, and listing order is both creation order and id order. The storage engine is SQLite, the default of the connection setting. Creation allocates ids the way SQLite does: one more than the largest stored id, or 1 for an empty table.

Files:
- `wrappers.dfy`: Option and Result.
- `json_value.dfy`: JSON values.
- `item_store.dfy`: Service A.
- `proxy_client.dfy`: Service B's client.
- `proxy_service.dfy`: Service B's handlers.

Two consequences of the code are worth stating:
- Service B has only the `/proxy-items` and `/health` endpoints. A 404 from Service A's list becomes a 503 like every other failure (`ErrorStatusIs503`).
- Ids can be reused. SQLite, the default engine (`service_a/app/db.py:6`), gives the next row the largest stored id plus one. Deleting the row with the largest id therefore frees that id for the next create. `NextId` models this rule.

## Model

| member | source | states |
|---|---|---|
| `ItemStore.Store.constructor` | service_a/app/main.py:11 | a fresh database starts with an empty table, which satisfies the id invariant |
| `ItemStore.Store.CreateItem` | service_a/app/main.py:13-20 | appends exactly one row holding the given value; its id is held by no stored row; old rows are unchanged; the count rises by one; reading that id afterwards returns the new row; the invariant is kept |
| `ItemStore.NextId` | service_a/app/models.py:8 | the allocated id is larger than every stored id, so it is fresh; it is 1 on an empty table |
| `ItemStore.MaxId` | service_a/app/models.py:8 | the largest stored id bounds every id and is held by some row |
| `ItemStore.Store.ReadItems` | service_a/app/main.py:22-26 | the answer is the window `items[skip..]` of length `min(limit, count - skip)`: element i is stored row skip+i; it has at most `limit` rows; it is empty when `skip >= count`; the defaults are skip 0 and limit 100 |
| `ItemStore.ListInCreationOrder` | service_a/tests/test_items.py:62-74 | two rows created in turn are listed, with the default window, as exactly those two rows in creation order |
| `ItemStore.Store.CountItems` | service_a/app/main.py:28-32 | the count is the number of stored rows, and 0 exactly when the table is empty |
| `ItemStore.Store.SearchItems` | service_a/app/main.py:34-38 | a row is in the answer iff it is stored and its value contains `q`; the answer keeps storage order (ids increase) and is no longer than the table; an empty `q` returns the whole table |
| `ItemStore.Matching` | service_a/app/main.py:37 | the filter keeps exactly the rows whose value contains `q` and never grows the table |
| `ItemStore.MatchingKeepsOrder` | service_a/app/main.py:37 | the filter keeps storage order: on a table whose ids increase, the answer's ids increase too |
| `ItemStore.FirstIdSmallest` | service_a/app/models.py:8 | under the invariant, every row after the first has a larger id, and the rest of the table keeps the invariant |
| `ItemStore.MatchingEmptyQuery` | service_a/app/main.py:37 | filtering with the empty string keeps every row in place |
| `ItemStore.EmptyIsSubstring` | service_a/app/main.py:37 | every value contains the empty string |
| `ItemStore.Store.ReadItem` | service_a/app/main.py:40-46 | the answer is a row iff some stored row has the id; that row is stored, has the id and is the only one with it; otherwise the answer is 404 "Item not found" |
| `ItemStore.IndexOfId` | service_a/app/main.py:43 | the lookup gives the first position holding the id, and nothing iff no row holds it |
| `ItemStore.UniqueRow` | service_a/app/models.py:8 | under the invariant, at most one position holds a given id |
| `ItemStore.Store.DeleteItem` | service_a/app/main.py:48-56 | succeeds (204) iff the id was stored; on success the table is the old one without that row, the others kept in order, and one row shorter; on a missing id the answer is 404 and the table is unchanged; afterwards reading the id answers 404 |
| `ItemStore.Without` | service_a/app/main.py:54 | dropping an id never grows the table |
| `ItemStore.WithoutMembers` | service_a/app/main.py:54 | dropping an id keeps exactly the rows with other ids |
| `ItemStore.WithoutKeepsOrder` | service_a/app/main.py:54 | dropping an id keeps the remaining ids increasing |
| `ItemStore.RemoveAtIsWithout` | service_a/app/main.py:51-55 | when only one position holds the id, removing the row at that position equals dropping the id, and the table shrinks by exactly one |
| `ItemStore.WithoutAbsent` | service_a/app/main.py:51-53 | dropping an id no row holds leaves the table unchanged |
| `ItemStore.Store.UpdateItem` | service_a/app/main.py:58-67 | succeeds iff the id was stored; the row at that position gets the new value and keeps its id; every other row and the table length are unchanged; the answer is the updated row, which a later read returns; on a missing id the answer is 404 and the table is unchanged |
| `ItemStore.AppleLifecycle` | service_a/app/main.py:13-56 | on an empty table: creating "apple" gives id 1; searching "app" finds exactly that row; deleting it answers 204; reading it again answers 404 |
| `ItemStore.HealthCheck` | service_a/app/main.py:70-73 | the body is `{"status": "healthy"}`, and the function reads no table |
| `ProxyClient.GetItems` | service_b/app/client.py:8-18 | the fetch yields the body iff a response arrived with a 2xx status and a JSON body; otherwise it fails with the transport error, the status error or the decoder error, in that order |
| `ProxyClient.Tag` | service_b/app/client.py:37-40 | the tagged item has the item's keys plus `source`; `source` is "service_a" even when the item had its own; every other field is unchanged |
| `ProxyClient.LoopElements` | service_b/app/client.py:35 | iterating a list yields exactly its elements; a string yields exactly its one-character strings, in order; an empty dict yields nothing; a non-empty dict fails with `'str' object is not a mapping`, the error its first key (a str) raises at `**`; null, booleans and numbers fail with `'<type>' object is not iterable` |
| `ProxyClient.TagAll` | service_b/app/client.py:33-41 | succeeds iff every element is an object; on success the output has the same length and element i is element i tagged |
| `ProxyClient.TagAllFailsAtFirst` | service_b/app/client.py:35-38 | when element j is the first that is not an object, the whole loop raises the "not a mapping" error for element j's type, whatever follows it |
| `ProxyClient.TagAllStep` | service_b/app/client.py:35-41 | once a prefix is tagged, every element in it is an object; tagging one more object element appends its tagged copy |
| `ProxyClient.Transformed` | service_b/app/client.py:20-43 | a body that is not an object fails on `.get`; a successful result has exactly one top-level key, `items`, holding a list; a body without `items` gives `{"items": []}`; for an iterable `items` it succeeds iff every element is an object, keeping the count |
| `ProxyClient.TagEach` | service_b/app/client.py:33-41 | the append loop computes exactly `TagAll` of the items |
| `ProxyClient.TransformItems` | service_b/app/client.py:20-43 | the handler's steps compute exactly `Transformed` of the body |
| `ProxyClient.TransformTagsEveryItem` | service_b/app/client.py:35-41 | for a list of items, output i comes from input i: same count; keys of input i plus `source`; `source` is "service_a"; other fields unchanged |
| `ProxyClient.EveryOutputTagged` | service_b/app/client.py:37-40 | every element of a successful output is an object with `source == "service_a"` |
| `ProxyClient.SourceOverridden` | service_b/app/client.py:37-40 | an item's own `source` is overwritten, not kept, and no key is added |
| `ProxyClient.StrElementsFail` | service_b/app/client.py:35-38 | a non-empty string or dict under `items` makes the transform fail with the "not a mapping" error for type `str` (text `'str' object is not a mapping`), since what the loop yields is a str |
| `ProxyClient.OtherTopLevelKeysDropped` | service_b/app/client.py:43 | no top-level key other than `items` survives the transform |
| `ProxyClient.TwoItemsTagged` | service_b/tests/test_proxy.py:21-38 | the two test items come out tagged, in order, with their ids and values |
| `ProxyClient.Message` | service_b/app/main.py:29 | the text of a raised exception starts with the offending value's type name in quotes, as CPython words `AttributeError` and `TypeError`, and goes on past it |
| `ProxyService.Unavailable` | service_b/app/main.py:25-30 | a failure becomes status 503 with the body `{"detail": prefix + message}` |
| `ProxyService.ProxyItems` | service_b/app/main.py:9-30 | the status is 200 or 503; it is 200 iff the fetch and the transform both succeed, and then the body is the transformed data; a fetch failure gives 503 with its text; a transform failure gives 503 with the exception's text |
| `ProxyService.AllOrNothing` | service_b/app/main.py:17-30 | a 200 body holds only `items`, a list; a 503 body holds only `detail`, a string that starts with "Error communicating with Service A: " |
| `ProxyService.UnreachableIs503` | service_b/tests/test_proxy.py:40-51 | with Service A down, the answer is 503 and the detail is the prefix followed by the transport error |
| `ProxyService.ErrorStatusIs503` | service_b/app/client.py:17 | any non-2xx reply from Service A, 404 included, becomes 503 with the status error's text |
| `ProxyService.TwoItemsProxied` | service_b/tests/test_proxy.py:10-38 | with the two test items from Service A, the answer is 200 holding both items tagged, in order |
| `ProxyService.HealthCheck` | service_b/app/main.py:32-35 | the body is `{"status": "healthy"}`, whatever the upstream exchange |

## Left out

- ItemStore.Store.SearchItems: models literal, case-sensitive substring containment. The SQL `LIKE '%q%'` that the ORM emits also treats `%` and `_` in `q` as wildcards, and under SQLite it folds ASCII case.
- ItemStore.Store.ReadItems: `skip` and `limit` are natural numbers. What the storage engine does with negative values is not modelled.
- ItemStore.NextId: the 64-bit rowid ceiling is not modelled, nor the engine's random id choice once that ceiling is reached.
- ProxyClient.GetItems: the text of the status error (URL, reason phrase) and of the decoder's error is taken as given. It is not built. Status codes outside 2xx are not split further.
- ProxyClient.LoopElements: the order of a dict's keys is not modelled. Only whether the dict is empty matters to the outcome.
- JSON: floating-point numbers are not modelled, nor the key order of objects (fields are a map).
- ItemStore.Store: the storage engine is SQLite, the default of `service_a/app/db.py:6`. Three things rest on that: ids are allocated as the largest stored id plus one, the id of a deleted last row is reused, and an unordered scan returns rows in id order (`Valid()`, used by `ReadItems` and `SearchItems`). Another engine named by `DATABASE_URL` would draw ids from a sequence that never reuses them, and would promise no order for the unordered queries. The SQLite-only `check_same_thread` connect argument is not modelled either.
- ItemStore.Store.constructor: models a fresh database. Table creation keeps the rows of an existing database file, and a restart on such a file is not modelled.
- ItemStore.Store.ReadItem: the id is an unbounded integer. SQLite binds it as a signed 64-bit value, so an id outside that range gives an error (500) or a validation failure (422) in the service, not the 404 the model gives.
- ItemStore.Store.DeleteItem: the same 64-bit limit on the id is not modelled; an out-of-range id gives an error, not 404.
- ItemStore.Store.UpdateItem: the same 64-bit limit on the id is not modelled; an out-of-range id gives an error, not 404.
- ItemStore.Store.ReadItems: `skip` and `limit` beyond the signed 64-bit range give an error in the service; the model returns a window for them.
- ItemStore.Store.CreateItem: the 201 status of a successful create is not returned; the method returns only the created row.
- Storage machinery is not modelled: sessions, commit and refresh. Each handler is one atomic step on the table.
- Storage faults (generic 500s) are not modelled.
- HTTP is not modelled: the client library, the base-URL setting, framework routing, request validation (422), JSON serialisation, async/await, concurrency between requests, and the server start-up blocks.
- The schema and model declarations have no behaviour. They are folded into the `Item` datatype. The packaging files and test fixtures are not modelled.
