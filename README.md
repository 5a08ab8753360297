# Task store of a small REST task service

The service keeps tasks in one in-memory table, keyed by task ID, and serves four endpoints
over it: list all tasks (`GET /tasks`), create or replace a task (`POST /tasks`), fetch one
task (`GET /tasks/{id}`) and delete one task (`DELETE /tasks/{id}`). It starts with two
seeded tasks under the keys "1" and "2". This project models that table and what each
handler decides: which status code it answers with, what value it sends back, and how the
table changes.

- `tasks.dfy`, module `Tasks`: the `Task` record, the table type `Store`, the seeded table,
  the status codes, the fixed not-found message, and the invariant `WellKeyed` (every entry
  is stored under its own ID).
- `handlers.dfy`, module `Handlers`: each handler's decision as a function from the table
  (and the request's inputs) to an `Outcome`, which is the response plus the new table.
  `Replay` serves a sequence of requests one at a time, and the lemmas relate several
  requests: post then get, post then delete then get, delete twice, overwriting,
  creating many tasks, and the invariant over every reachable table.
- `store.dfy`, module `Server`: the table as an object, `TaskStore`, whose field `tasks` the
  create and delete handlers update in place. Its four methods follow the handlers' early
  returns in order and are proved against the functions of `Handlers`. A client session
  shows the create, fetch, delete, fetch sequence end to end.

Reading the request body and JSON decoding are library calls. Their outcome is an input to
the create handler: `PostBody` is a read failure, a decode failure, or a decoded task. JSON
encoding is also a library call. Whether it succeeds is an input (`Encoding`), and a
successful response carries the encoded value (a task or the whole table) instead of bytes.

## Model

| member | source | states |
|---|---|---|
| `Tasks.Seed` | precode.go:20-43 | the starting table has exactly the keys "1" and "2", and each entry's ID equals its key |
| `Handlers.List` | precode.go:45-65 | listing answers 200 with the whole table, or 500 with the error text when encoding fails; the table is unchanged either way |
| `Handlers.Post` | precode.go:67-97 | a decoded task is stored under its own ID, replacing any entry there (an empty ID included), every other entry is kept, and the answer is 201 with no body; a read or decode failure answers 400 with the error text and leaves the table unchanged; the table stays well-keyed |
| `Handlers.Get` | precode.go:99-130 | an absent ID answers 400 with the fixed not-found message; a present ID answers 200 with exactly the stored task, or 400 with the error text when encoding fails; 200 is answered exactly when the ID is present and encoding succeeds; the table is never changed; on a well-keyed table the returned task carries the requested ID |
| `Handlers.Delete` | precode.go:132-154 | an absent ID answers 400 with the fixed not-found message and leaves the table unchanged; a present ID answers 200, removes that one key and keeps every other entry; the table stays well-keyed |
| `Handlers.ReplayKeepsWellKeyed` | precode.go:70-154 | every sequence of requests served one at a time keeps every entry stored under its own ID |
| `Handlers.ReachableWellKeyed` | precode.go:21-43 | every table reachable from the seeded one by any sequence of requests is well-keyed |
| `Handlers.ReadsLeaveStore` | precode.go:45-130 | any sequence of list and fetch requests leaves the table as it was |
| `Handlers.PostThenGet` | precode.go:90-112 | after posting a task, fetching its ID answers 200 with that task |
| `Handlers.PostOverwrites` | precode.go:67-90 | posting two tasks with the same ID leaves the same table as posting only the second, and fetching that ID returns the second |
| `Handlers.RejectedPostIsNoOp` | precode.go:76-87 | a post whose body cannot be read or decoded answers 400 and makes no difference to any sequence of requests that follows |
| `Handlers.PostDeleteGet` | precode.go:140-147 | after posting a task and deleting its ID (answered 200), fetching that ID answers 400 with the not-found message |
| `Handlers.DeleteTwice` | precode.go:140-144 | deleting the same ID a second time answers 400 with the not-found message and leaves the table as the first delete left it |
| `Handlers.CreatesGrow` | precode.go:90 | creating tasks with distinct IDs not yet stored adds exactly those IDs as keys, and the table grows by exactly that many entries |
| `Handlers.CreatesStore` | precode.go:90 | after such creates each new task is stored under its ID and every earlier entry is unchanged |
| `Handlers.ListAfterCreates` | precode.go:47-64 | after such creates, listing answers 200 with exactly the old keys plus the new IDs, as many entries as old plus new, each new task under its own ID, all entries well-keyed |
| `Server.TaskStore.constructor` | precode.go:21-43 | a new store holds the seeded table, with keys "1" and "2", and is well-keyed |
| `Server.TaskStore.GetTasks` | precode.go:47-65 | answers as `Handlers.List` does on the current table: 200 with the whole table, otherwise 500; it cannot modify the table |
| `Server.TaskStore.PostTask` | precode.go:70-97 | answers as `Handlers.Post`; the table becomes the old one with the decoded task's ID mapped to it, or is unchanged on a read or decode failure; the invariant is kept |
| `Server.TaskStore.GetTask` | precode.go:101-130 | answers as `Handlers.Get` on the current table: 200 with exactly the stored task when the ID is present and encoding succeeds, 400 with the not-found message when absent; it cannot modify the table |
| `Server.TaskStore.DeleteTask` | precode.go:134-154 | answers as `Handlers.Delete`; on a present ID the table becomes the old one without that key, on an absent ID it is unchanged; the invariant is kept |
| `Server.CreateFetchDeleteFetch` | precode.go:70-153 | on a fresh store, creating task "3", fetching it, deleting it and fetching it again answers 201, 200 with the task, 200, then 400 |

## Left out

- Routing and server start-up (precode.go:156-178): binding paths to handlers and listening on port 8080 are HTTP plumbing; each endpoint is one `Server.TaskStore` method or `Handlers.Request` case.
- Reading the body, JSON decoding and JSON encoding: library calls, modelled as their outcome (`PostBody`, `Encoding`) given as an input. Which inputs make decoding or encoding fail, and the bytes produced, are not modelled.
- Response headers and the trailing newline of plain-text error bodies: only the status code and the returned value or error text are kept.
- Concurrency: handlers run in parallel and race on the unsynchronised table. The model serves requests one at a time in sequence.
- Extracting the `{id}` URL parameter: the ID is an input to the fetch and delete methods.
