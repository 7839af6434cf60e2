# Shopping-list service — a Dafny model

This project models the core of a per-user shopping-list service. A list is
stored in a key-value table and addressed by its owner (`userId`, the
partition key) and its own `id` (the sort key). The service
(`ShoppingListService`) applies a small set of rules before it reads or
changes the table:

- getById refuses a missing user and a missing list;
- create checks a list quota against a counter, assigns a new id, refuses a
  list that already exists or has too many items, then stores the whole
  record;
- update checks the id, the title length, that the list exists and the item
  quota, then stores the whole record over the old one;
- delete removes a list that exists and returns only its id;
- getAll returns the user's lists and sets the counter that create's quota
  check reads.

The request handler resolves the caller from the authorizer's `sub` claim.
It forces the owner (and, for update, the id from the path) onto the parsed
body, makes one service call, and turns the outcome into a status code, the
CORS headers and a body.

Files:

- `shoplist.dfy` (module `ShopList`): the record, the error kinds and the
  exact error messages.
- `service.dfy` (module `Service`): the rule checks as functions of the table
  and the input. For create, update and delete there is a reference
  definition (`CreateOutcome`, `UpdateOutcome`, `DeleteOutcome`) whose
  contract states the rules. The class `ShoppingListService` has the table,
  the counter and the two quotas as fields. Its methods carry out each
  operation step by step and are proved equal to the reference definition.
  `GetAll` runs a loop over the user's partition.
- `handler.dfy` (module `Handler`): getUserId, the input preparation, the
  outcome-to-response mapping, one method per route over a service object,
  and a five-request session proved to give statuses 201, 200, 400, 200, 404.

What the model does not contain:

- The table client, UUID generation and the configuration are external. The
  table is a Dafny `map` from `(userId, id)` to the stored record.
- The UUID is the parameter `newId`.
- The quotas are integers given to the constructor. An unset setting gives
  50 (lists) and 1000 (items).

Two behaviours of the code worth knowing:

- update applies the title rule only when a title is present. An update
  without a title passes that step.
- getById answers 404 for every service error, `user_id_is_missing`
  included, and not only for a missing list.

The list quota is checked against a counter that only getAll sets. The
counter starts at -1 and is shared by all users of the service. The model
reproduces this, and two lemmas spell out what it means:
`InitialCounterNeverRefuses` and `CounterIsNotPerUser`.

## Model

| member | source | states |
|---|---|---|
| `ShopList.Message` | src/shoplist/service.ts:35-185 | The message starts with the error's tag. `not_authorized` is the tag alone. Every other kind adds ": " and a payload: `user_id_is_missing` the list id asked for (not the user); `list_not_found` `user/id`; `too_many_lists` the counter in decimal, minus sign included; `too_many_items` the item count; `id_is_missing` the id, or "undefined" when absent, then a space; `shoplist_already_exists` the id; `title_is_too_short` the title then a space; the table's refusal "Missing the key userId in the item". |
| `ShopList.MessageCarriesTag` | src/shoplist/handler.ts:26-75 | Reading a message up to its first colon gives back exactly the error's tag, for every error kind. |
| `Service.QueryStripped` | src/shoplist/service.ts:20-31 | The result holds every list stored in the user's partition, without `userId`, each exactly once, and nothing else. Its length is the number of lists the user owns. |
| `Service.ListingsArePermutations` | src/shoplist/service.ts:20-32 | Any two answers for the same partition contain the same lists. They can differ only in order, which the model leaves open. |
| `Service.ShoppingListService.GetAll` | src/shoplist/service.ts:12-32 | Returns exactly the user's lists, without `userId`. Sets `itemCount` to how many there are. Leaves the table unchanged. |
| `Service.FindList` | src/shoplist/service.ts:35-54 | A falsy userId gives `user_id_is_missing` whatever the table holds. Otherwise it fails with `list_not_found` iff `(userId, id)` is absent. On success it returns the stored record without `userId`, and the record's id is the id asked for. |
| `Service.ShoppingListService.GetById` | src/shoplist/service.ts:35-54 | Reads the table only. Its result is `FindList` on the current table. |
| `Service.CheckQuotas` | src/shoplist/service.ts:136-140 | Refuses with `too_many_lists` iff the counter is at or above the list quota. The user it is called for plays no part. |
| `Service.Validate` | src/shoplist/service.ts:142-147 | Passes iff `items` is absent or has at most the item quota of entries. Exactly the quota is accepted. Otherwise fails with `too_many_items` and the count. |
| `Service.ValidateCreate` | src/shoplist/service.ts:149-165 | Passes iff the id is truthy, the owner does not already have a list with that id, and the item quota holds. The checks run in that order, each with its own error: a falsy id gives `id_is_missing` with the id; a list already stored under `(userId, id)` gives `shoplist_already_exists` with the id; too many items give `too_many_items` with the count. Lookup errors are swallowed, so no other error can come out. |
| `Service.ValidateUpdate` | src/shoplist/service.ts:172-185 | Passes iff: the id is truthy; the title, if present, has at least 3 characters; the owner is truthy and the list exists; and the item quota holds. The checks run in that order, each with its own error: `id_is_missing` with the id, `title_is_too_short` with the title, the lookup's own error (`user_id_is_missing` or `list_not_found`), then `too_many_items` with the count. |
| `Service.ValidateDelete` | src/shoplist/service.ts:167-170 | Passes iff the owner is non-empty and the list exists. Otherwise it passes on the lookup's error. |
| `Service.CreateOutcome` | src/shoplist/service.ts:56-77 | Fails with `too_many_lists` iff the counter is at or above the quota. Below the quota, a failing create check (run on the input with the new id) gives exactly that check's error. A record without `userId` that passes the checks gives the table's `MissingKeyAttribute` refusal. States exactly when create succeeds. Any failure leaves the table unchanged, and no lookup error escapes. On success the generated id replaces any id in the input. The table gains exactly the key `(userId, newId)`, holding the input, and no other key changes. The result is the input without `userId`, and reading it back gives the same record. The table stays well keyed. |
| `Service.ShoppingListService.Create` | src/shoplist/service.ts:56-77 | Gives the same result and new table as `CreateOutcome` with the current counter. Never changes `itemCount`. |
| `Service.UpdateOutcome` | src/shoplist/service.ts:79-97 | Succeeds iff `ValidateUpdate` passes, and otherwise fails with its error and leaves the table unchanged. On success the record at `(userId, id)` is replaced by the input as a whole (not merged), and the result is the input without `userId`. |
| `Service.ShoppingListService.Update` | src/shoplist/service.ts:79-97 | Gives the same result and new table as `UpdateOutcome`. Never changes `itemCount`. |
| `Service.DeleteOutcome` | src/shoplist/service.ts:99-112 | Succeeds iff the owner is non-empty and the list exists. A failure is getById's error and leaves the table unchanged. On success exactly that key is removed, every other key is kept, the result is `{id}` only, and a later getById gives `list_not_found`. |
| `Service.ShoppingListService.Delete` | src/shoplist/service.ts:99-112 | Gives the same result and new table as `DeleteOutcome`. Never changes `itemCount`. |
| `Service.ShoppingListService.constructor` | src/shoplist/service.ts:5-10 | The service starts on an existing table with the counter at -1. Each quota is its setting, or 50 and 1000 when unset. |
| `Service.InitialCounterNeverRefuses` | src/shoplist/service.ts:136-140 | While the counter is at its initial -1 and the quota is not negative, create never fails with `too_many_lists`, however many lists the user owns. |
| `Service.CounterIsNotPerUser` | src/shoplist/service.ts:136-140 | Once the counter has reached the quota, a user who owns no list is still refused with `too_many_lists`. |
| `Handler.GetUserId` | src/shoplist/handler.ts:78-84 | Fails with `not_authorized` iff the authorizer is absent. Otherwise returns the `sub` claim. |
| `Handler.GetAllResponse` | src/shoplist/handler.ts:19-23 | Status 200, the CORS headers, and the lists as the body. |
| `Handler.GetByIdResponse` | src/shoplist/handler.ts:29-34 | Success gives 200 with the record. Any service error gives 404 with `{message}`. Always the CORS headers. |
| `Handler.CreateResponse` | src/shoplist/handler.ts:42-47 | Success gives 201 with the created record. Any error gives 400 with `{message}`. Always the CORS headers. |
| `Handler.UpdateResponse` | src/shoplist/handler.ts:57-62 | Success gives 200 with the record. Any error gives 400 with `{message}`. Always the CORS headers. |
| `Handler.RemoveResponse` | src/shoplist/handler.ts:69-74 | Success gives 200 with the record it is handed, unchanged; delete hands it `{id}` (see `Handler.Remove` and `Service.DeleteOutcome`). Any error, not-found included, gives 400 with `{message}`. Always the CORS headers. |
| `Handler.CreateInput` | src/shoplist/handler.ts:40-41 | The owner is the authenticated user whatever the body said. No other attribute changes. |
| `Handler.UpdateInput` | src/shoplist/handler.ts:53-56 | The owner is the authenticated user and the id is the path id, whatever the body said. No other attribute changes. |
| `Handler.NotFoundStatuses` | src/shoplist/handler.ts:26-75 | A missing list gives 404 from getById and 400 from remove, both with the message `list_not_found: <user>/<id>`. |
| `Handler.GetAll` | src/shoplist/handler.ts:19-23 | With no authorizer the invocation throws `not_authorized`, and the counter is untouched. Otherwise it answers 200 with exactly the caller's lists and sets the counter to their number. |
| `Handler.GetById` | src/shoplist/handler.ts:26-35 | With no authorizer the invocation throws. Otherwise it answers `GetByIdResponse` of the service lookup for the caller and the path id. No record in the body has `userId`. |
| `Handler.Create` | src/shoplist/handler.ts:38-48 | With no authorizer the invocation throws and the table is unchanged. Otherwise the service creates from the body with the caller as owner, and the answer is `CreateResponse` of that outcome. No record in the body has `userId`. |
| `Handler.Update` | src/shoplist/handler.ts:51-63 | With no authorizer the invocation throws and the table is unchanged. Otherwise the service updates from the body with the caller as owner and the path id as id, and the answer is `UpdateResponse` of that outcome. |
| `Handler.Remove` | src/shoplist/handler.ts:66-75 | With no authorizer the invocation throws and the table is unchanged. Otherwise the answer is `RemoveResponse` of the delete for the caller and the path id. |
| `Handler.Session` | src/shoplist/handler.ts:38-75 | On a fresh service: create, read back, rename to "Gr", delete, read again. These give 201, 200, 400, 200 and 404. The read-back equals the created record, which has the new id and no `userId`. The two failures carry the messages of `TitleIsTooShort("Gr")` and `ListNotFound("u1", "list-1")`. |
| `Handler.ShortTitleMessage` | src/shoplist/service.ts:176-179 | The rename's message is `title_is_too_short: Gr `, trailing space included. |
| `Handler.MissingListMessage` | src/shoplist/service.ts:49-52 | The message after the delete is `list_not_found: u1/list-1`. |

## Left out

- Table client calls (query, get, put, delete): the table is a `map`. The
  order of query results is not modelled: the table returns a partition in
  ascending `id` order (compared as UTF-8 bytes), and the model leaves the
  order open. Query pagination is not modelled
  either: a user whose lists exceed one result page would get a shorter
  list and a smaller counter.
- Read consistency: get and query (src/shoplist/service.ts:13-22, 39-45)
  use eventually consistent reads, since neither sets `ConsistentRead`. The
  model reads the latest table state. Its read-back results (`CreateOutcome`,
  `UpdateOutcome`, `DeleteOutcome`) and the existence checks of update and
  delete therefore assume each read sees the last write. In the deployed
  table, update can refuse a list that was just created, and delete can
  accept one that was just deleted.
- Table validation of key values: the model table accepts an empty string
  as a key value, which the real table refuses. It does refuse an item
  without `userId` (`MissingKeyAttribute`, the table's own message).
- Failures of the table service (throttling, network): not modelled. Such a
  failure in getAll would throw past the handler, since getAll has no catch.
- UUID generation: the new id is the parameter `newId`. An empty `newId`
  takes the code's `id_is_missing` branch.
- Configuration: the table name and the string-to-number coercion of quota
  settings read from the environment are not modelled.
- Concurrency: requests on one running instance share the counter and can
  race on it, and two writers can overwrite each other. Each operation is
  modelled as one atomic step.
- JSON parsing and serialisation: bodies are already-parsed records. A body
  that fails to parse throws before the handler's catch; this is not
  modelled.
- Record attributes other than `userId`, `id`, `title`, `items` and
  `issuedAt`: the source stores and returns them unchanged, and the model
  does not carry them. Values of other JSON types (a `null` title, a
  non-array `items`) are not modelled either.
- Title length: counted in Unicode characters, not UTF-16 code units.
- In-place mutation of the caller's input object (`id` assigned, `userId`
  deleted): the model works on record values. create and update return the
  mutated input object itself, and the handler serialises it. The model's
  result (`Strip` of the record with its new id) is that object's final
  value, so no observable behaviour is lost.
- The shape of the request event: the model's `Authorizer(sub)` always
  has a `sub` claim and its `Event` always has a path id. In the code an
  authorizer without `claims` throws a TypeError before the handler's
  catch (src/shoplist/handler.ts:83). `claims` without `sub` gives an
  undefined owner: getById then answers 404 `user_id_is_missing`, remove
  answers 400, and create fails at the store. A request without
  `pathParameters` throws before the catch (src/shoplist/handler.ts:28,
  53, 68). None of these paths is modelled.
- The two partial-update expression builders at src/shoplist/service.ts:114-134
  are never called. They are not part of this model.
