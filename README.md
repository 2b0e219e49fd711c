# Todo service core in Dafny

A model of the core of a small Rust CRUD service for "todo" items. The service is
layered as handlers, then a use-case service, then a storage port, then a storage
adapter. The model covers four parts:

- **`Model`**: the entity model. A todo has a `u32` id, a text and a two-valued
  state (`Opened | Closed`). A `TodoInput` is what a client submits. It has no id.
  It is valid exactly when its text has 1 to 200 characters; otherwise it fails
  with the single message "Can not be empty or longer then 200 characters".
- **`Errors`**: the error taxonomy. It is a closed set of five kinds (not found,
  bad JSON, bad path, failed validation, unexpected). Each kind has a total mapping
  to an error code, an HTTP status, an optional detail and a `type://` URL. The
  module also covers the translation of storage errors into domain errors, and the
  problem document (`ApiError`) built from an error. `Decimal` gives the decimal
  rendering of the id inside the not-found title.
- **`InMemoryStore`**: the in-memory adapter. It is a class whose field `todos`
  is the stored sequence, changed in place by create, update and delete. Pure
  functions give the meaning of the store's iterator scans and of the state each
  operation leaves behind (`Position`, `MaxId`, `NextId`, `Lookup`, `Created`,
  `Updated`, `Deleted`). The methods are proved against those functions. Lemmas
  state what holds across operations: ids stay unique, a lookup after an update
  finds the new todo, and a lookup after a delete fails.
- **`UseCases`**: `TodoService`. It is a class holding the store and forwarding
  every operation to it unchanged. The service's four unit tests, and a
  create/get/delete/get round trip, are written as scenario methods whose
  postconditions state the asserted outcome.

Behaviour kept exactly as the code has it:

- The first id the in-memory store assigns is 2, not 1. This is because the id is
  `max().unwrap_or(1) + 1`.
- `update_todo` and `delete_todo` unwrap the position of the id. On a missing id
  they panic rather than return `ResourceNotFound`. The model makes presence a
  precondition (`HasId`).
- `create_todo` does no validation itself. Validation happens before the store is
  reached, in the request extractors.
- `get_todo`, `update_todo` and `delete_todo` act on the *first* todo with the id.
  With unique ids, which every operation preserves, there is only one.

## Model

| member | source | states |
|---|---|---|
| `Model.Validate` | src/model.rs:18-27 | no violations exactly when 1 <= text length <= 200; at most one violation, always on field `text` with code `length` and the fixed message |
| `Model.EmptyTextIsRejected` | src/model.rs:20-24 | empty text yields exactly the one `length` violation with the fixed message |
| `Model.OverlongTextIsRejected` | src/model.rs:20-24 | text longer than 200 characters yields exactly the one `length` violation |
| `Model.BoundaryLengthsAreAccepted` | src/model.rs:20-24 | texts of length 1 and 200 are valid |
| `Model.TodoStateHasTwoValues` | src/model.rs:6-9 | every state is `Opened` or `Closed`, and the two differ |
| `Model.TodoEqualityIsStructural` | src/model.rs:11-16 | two todos are equal exactly when id, text and state are equal |
| `Model.FromInput` | src/todo_store/inmemory.rs:43-47 | a todo built from an input takes its text and state from the input and its id from the caller |
| `Model.InputDoesNotFixId` | src/model.rs:18-27 | the same input gives equal todos only under the same id, so the id is never chosen by the input |
| `Decimal.ToDecimal` | src/error.rs:17 | the shortest decimal numeral: a non-empty digit string with no leading zero, and exactly "0" for 0 |
| `Decimal.ParseToDecimal` | src/error.rs:17 | parsing the rendered id gives the id back |
| `Decimal.ToDecimalInjective` | src/error.rs:17 | different ids render differently |
| `Errors.ErrorCode` | src/error.rs:34-42 | each of the four codes is returned exactly for its kinds: not-found, JSON or validator, path, unexpected |
| `Errors.StatusCode` | src/error.rs:44-52 | 404 exactly for not-found, 400 exactly for the three client-input kinds, 500 exactly when the code is `error.unexpected`; no other status |
| `Errors.Details` | src/error.rs:54-61 | present exactly for the client-input kinds, carrying the rejection body text or the rendered validation errors |
| `Errors.TypeUrl` | src/error.rs:63-65 | the URL is `type://` followed by the error code |
| `Errors.TypeUrlMatchesCode` | src/error.rs:63-65 | two errors have the same type URL exactly when they have the same code |
| `Errors.Title` | src/error.rs:17-29 | each fixed title belongs to exactly its kind; the not-found title is the prefix with the entity name, a non-empty middle that is exactly the decimal numeral of the id, and the suffix, and the id parses back from it, written without leading zeros ("0" only for id 0) |
| `Errors.TitleIgnoresPayload` | src/error.rs:17-29 | apart from not-found, the title depends on the kind only, never on the payload |
| `Errors.NotFoundTitleDeterminesId` | src/error.rs:17-18 | for a given entity name, the not-found title determines the id |
| `Errors.FromWithContext` | src/error.rs:67-75 | "no row" becomes not-found carrying the caller's name and id unchanged; every other storage error becomes unexpected with that cause |
| `Errors.FromDbError` | src/error.rs:107-111 | the plain conversion always gives unexpected (status 500), even for "no row" |
| `Errors.ContextMattersOnlyForRowNotFound` | src/error.rs:67-75 | the context-aware and the plain conversion differ exactly on "no row" |
| `Errors.ToApiProblem` | src/error.rs:78-97 | the problem carries status, title, type URL and code of the error, and a message exactly when details exist |
| `Errors.UnexpectedProblemHidesCause` | src/error.rs:78-97 | an unexpected error gives the same 500 problem with no message whatever its cause |
| `InMemoryStore.Position` | src/todo_store/inmemory.rs:56 | found exactly when the id is stored; then the index holds the id and no earlier index does |
| `InMemoryStore.MaxId` | src/todo_store/inmemory.rs:43 | the largest stored id (at least every stored id and one of them), and 1 for an empty store |
| `InMemoryStore.MaxOfIds` | src/todo_store/inmemory.rs:43 | the largest id of a non-empty sequence: bounds every id and is one of them |
| `InMemoryStore.NextId` | src/todo_store/inmemory.rs:43-45 | one more than the largest stored id, so above every stored id; 2 for an empty store |
| `InMemoryStore.Lookup` | src/todo_store/inmemory.rs:27-39 | succeeds exactly when the id is stored, with the first stored todo of that id; otherwise fails with not-found for `todo` and that id |
| `InMemoryStore.Created` | src/todo_store/inmemory.rs:41-52 | one todo appended at the end with the next id and the input's text and state, earlier todos unchanged |
| `InMemoryStore.Updated` | src/todo_store/inmemory.rs:54-62 | same length; at the first match the todo keeps its id and takes the input's text and state; every other todo unchanged |
| `InMemoryStore.Deleted` | src/todo_store/inmemory.rs:64-70 | length one less; the first match removed and the rest kept in order |
| `InMemoryStore.InMemoryTodoStore.constructor` | src/todo_store/inmemory.rs:14-18 | a new store is empty and its ids are unique |
| `InMemoryStore.InMemoryTodoStore.ListTodos` | src/todo_store/inmemory.rs:23-25 | returns exactly the stored todos in insertion order, changing nothing |
| `InMemoryStore.InMemoryTodoStore.GetTodo` | src/todo_store/inmemory.rs:27-39 | its `find` loop returns what `Lookup` gives, changing nothing |
| `InMemoryStore.InMemoryTodoStore.ScanMaxId` | src/todo_store/inmemory.rs:43 | the id scan returns `MaxId` of the contents |
| `InMemoryStore.InMemoryTodoStore.FindPosition` | src/todo_store/inmemory.rs:56 | the position scan returns `Position` of the contents |
| `InMemoryStore.InMemoryTodoStore.CreateTodo` | src/todo_store/inmemory.rs:41-52 | returns the new todo with the next id; the contents become `Created`; unique ids are kept |
| `InMemoryStore.InMemoryTodoStore.UpdateTodo` | src/todo_store/inmemory.rs:54-62 | for a stored id, returns the todo with that id and the input's text and state; the contents become `Updated`; unique ids are kept |
| `InMemoryStore.InMemoryTodoStore.DeleteTodo` | src/todo_store/inmemory.rs:64-70 | for a stored id, the contents become `Deleted`; unique ids are kept |
| `InMemoryStore.CreatedKeepsUniqueIds` | src/todo_store/inmemory.rs:43-50 | appending with the next id keeps ids unique |
| `InMemoryStore.UpdatedKeepsUniqueIds` | src/todo_store/inmemory.rs:56-59 | replacing text and state keeps ids unique |
| `InMemoryStore.DeletedKeepsUniqueIds` | src/todo_store/inmemory.rs:66-68 | removing an element keeps ids unique |
| `InMemoryStore.LookupFindsTheStoredTodo` | src/todo_store/inmemory.rs:27-39 | with unique ids, looking up the id of any stored todo returns exactly that todo |
| `InMemoryStore.CreatedIdIgnoresInput` | src/todo_store/inmemory.rs:43-48 | the id of a created todo is the store's next id whatever the input, since `TodoInput` carries no id |
| `InMemoryStore.EmptyLookupFails` | src/todo_store/inmemory.rs:14-18 | in an empty store every lookup fails with not-found for that id |
| `InMemoryStore.LookupAfterCreate` | src/todo_store/inmemory.rs:41-52 | after create, the new id finds the created todo and every other id answers as before |
| `InMemoryStore.LookupAfterUpdate` | src/todo_store/inmemory.rs:54-62 | after update, the id finds the updated todo and every other id answers as before |
| `InMemoryStore.LookupAfterDelete` | src/todo_store/inmemory.rs:64-70 | with unique ids, after delete the id is not found and every other id answers as before |
| `UseCases.Forward` | src/use_cases.rs:46-64 | `Ok(result?)` returns its argument unchanged, success or error |
| `UseCases.TodoService.constructor` | src/use_cases.rs:36-40 | the service holds the store it is given |
| `UseCases.TodoService.ListTodos` | src/use_cases.rs:46-48 | returns exactly the store's todos |
| `UseCases.TodoService.GetTodo` | src/use_cases.rs:50-52 | returns exactly the store's lookup result, success or not-found |
| `UseCases.TodoService.CreateTodo` | src/use_cases.rs:54-56 | same result and same new store state as the store's create |
| `UseCases.TodoService.UpdateTodo` | src/use_cases.rs:58-60 | same result and same new store state as the store's update |
| `UseCases.TodoService.DeleteTodo` | src/use_cases.rs:62-64 | same result and same new store state as the store's delete |
| `UseCases.ListReturnsAllItems` | src/use_cases.rs:74-92 | two creates on a fresh store, then list: two todos |
| `UseCases.CreateAddsItem` | src/use_cases.rs:95-108 | one create, then list: one todo, equal to the returned one |
| `UseCases.GetReturnsExistingItem` | src/use_cases.rs:111-123 | get by the inserted id returns the inserted todo |
| `UseCases.GetMissingItemFails` | src/use_cases.rs:126-140 | get 999 on a fresh store fails with not-found for `todo` and 999 |
| `UseCases.CreateGetDeleteGet` | src/use_cases.rs:46-64 | create gets id 2, get returns it, delete succeeds, a second get fails with a 404 problem coded `error.entity.not-found` |

## Left out

- The storage port is a Rust trait used through `Arc<dyn …>`. Traits are not used here, so `TodoService` holds the in-memory store directly. The SQLite adapter (src/todo_store/sqlite.rs) is not part of this model. Its behaviour is SQL run by the database. Its error handling uses the two modelled conversions: get and update map storage errors through `from_with_context` (`Errors.FromWithContext`), while list, create and delete use `?`, which goes through the plain `From<sqlx::Error>` conversion (`Errors.FromDbError`) and always gives `Unexpected`. Its delete returns success even when no row was removed.
- `Mutex`, `Arc`, `async` and `Send + Sync`: the model is one sequential store with no locking and no interleaving.
- `InMemoryStore.InMemoryTodoStore.CreateTodo`: requires that the largest stored id is below `u32::MAX`. At `u32::MAX`, `max_id + 1` panics in a debug build and wraps to 0 in a release build; neither is modelled.
- `InMemoryStore.InMemoryTodoStore.UpdateTodo` and `DeleteTodo`: require the id to be stored, because the source panics on `unwrap()` when it is not. The panic is not modelled as a value.
- The `error!` log written for unexpected errors is a tracing side effect and is not modelled.
- The detail strings (`body_text()` of the axum rejections, `to_string()` of the validator's errors) and the `Debug` text of storage errors are opaque strings carried by the payload datatypes. Their contents are not modelled.
- `anyhow::Error` is modelled as the storage error it wraps. In this core, storage errors are the only thing ever wrapped into `Unexpected`.
- HTTP status codes are plain numbers. The rendering of the problem document as an HTTP response (`IntoResponse`) is not modelled.
- The request extractors (src/extractors.rs), handlers (src/handlers.rs), router and server (src/server.rs, src/main.rs) and configuration (src/config.rs) are framework and I/O wiring, and are not part of this model.
