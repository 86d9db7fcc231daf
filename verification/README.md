# task-api request pipeline, modelled in Dafny

The service is a small in-memory task tracker over HTTP: `GET /tasks` lists
the tasks, `POST /tasks` with `{"title": ...}` creates one, anything else is
404, and a handler that rejects (a body that is not JSON, or a failed body
stream) is turned into a 500 by the server's top-level `.catch`.

The model treats the whole pipeline as a pure state machine:

- `TaskStore` (store.dfy): `Task`, the `Store` of the `tasks` list and the
  `nextId` counter, task creation, and the store invariant `Valid`.
- `Json` (json.dfy): the values `JSON.parse` yields, with JavaScript's
  `typeof` and own-property lookup.
- `Validator` (validator.dfy): the `isCreateTaskBody` type guard.
- `BodyParser` (body.dfy): `parseBody` over a body that has fully arrived
  (or whose stream failed).
- `Server` (server.dfy): the routing table, both handlers, and `Step`, which
  is one request through the server callback and its `.catch`.
- `Trace` (trace.dfy): request sequences handled in order, and the
  properties that hold across them.
- `Wire` (wire.dfy): the JSON value each payload is serialised from, with a
  client-side decoder that is not part of the service; its round trip shows
  that the serialised shape loses nothing, not that the service decodes anything.

Three things the pipeline depends on are parameters: `JSON.parse` on
non-empty text (`parse: string -> Option<Json>`, `None` where it throws),
the clock reading that becomes `createdAt` (`now`), and the request body
as delivered (`Arrived(raw)` or `StreamError(message)`). The source writes
`JSON.parse(raw || "{}")`; the model reads an empty body directly as the
empty object, because that is what `JSON.parse("{}")` returns.

The 400 message is the literal the code sends, `"title は必須の文字列です"`
(index.ts:82).

## Model

| member | source | states |
|---|---|---|
| TaskStore.Create | index.ts:86-92 | the new task takes the old counter as id, the given title, `done == false` and the clock reading; the counter goes up by one and the list is the old list with that task appended |
| TaskStore.InitialValid | index.ts:12-14 | the store at process start (no tasks, next id 1) satisfies the invariant |
| TaskStore.CreatePreservesValid | index.ts:86-92 | creating a task with a non-empty title keeps ids equal to 1..N by position and the counter at N + 1, and the new id is N + 1 |
| TaskStore.ValidIdsStrictlyIncrease | index.ts:87 | under the invariant, ids strictly increase along the list, never repeat, and all lie below the counter |
| Json.TypeOf | index.ts:54 | `typeof` gives "object" exactly for null, arrays and objects, and "string" exactly for strings |
| Json.OwnProperty | index.ts:56-57 | the `in` test and the property read agree: for an object, a key is present exactly when it is a member, and its value is that member's value |
| Validator.IsCreateTaskBodyIff | index.ts:52-59 | the guard holds exactly for objects whose `title` member is a non-empty string; null, arrays, primitives, a missing key, a non-string title and "" are refused |
| Validator.TitleOf | index.ts:88 | the title read from an accepted body is that body's `title` string and is non-empty |
| Validator.TitledObjectAccepted | index.ts:52-59 | an object carrying `title: t` is accepted exactly when t is non-empty, whatever other members it has, and its title is then t |
| Validator.EmptyObjectRefused | index.ts:52-59 | the empty object `{}` is refused |
| BodyParser.ParseBody | index.ts:36-43 | an empty body is read as `{}`; other text succeeds exactly when `JSON.parse` does and yields its value; a parse failure rejects with "Invalid JSON"; a stream error rejects with the stream's message |
| Server.RouteOf | index.ts:107-113 | the routing table is total: ("/tasks", GET) lists, ("/tasks", POST) creates, and every other pair is unrouted |
| Server.HandleGetTasks | index.ts:66-68 | listing answers 200 with the current list and leaves the store as it was |
| Server.HandlePostTask | index.ts:75-94 | the create handler rejects exactly when the body fails to parse, with the parser's message and no store change; a parsed body is answered 400 exactly when the guard refuses it, and a 400 carries the fixed message with no store change; any answer is 400 or 201 |
| Server.RequestHandler | index.ts:101-114 | a request that is not a creation never rejects and never changes the store; an unrouted request answers 404 "Not Found" |
| Server.Step | index.ts:118-122 | the callback's `.catch` answers a rejected handler with 500 `{error: message}` carrying the rejection's message and leaves the store unchanged; a handler that settles normally has its own response sent; any 500 carries an error payload |
| Server.OnlyCreatedMutates | index.ts:81-93 | every request whose answer is not 201 leaves the list and the counter unchanged |
| Server.StepResponseShape | index.ts:66-121 | every answer is 200, 201, 400, 404 or 500, with a task list for 200, one task for 201 and an error payload otherwise |
| Server.GetIsReadOnly | index.ts:107-108 | GET /tasks answers 200 with the current list and does not change the state, whatever its body |
| Server.GetTwiceIdentical | index.ts:66-68 | two GETs in a row return identical responses |
| Server.UnroutedIsNotFound | index.ts:107-113 | every other (url, method) pair answers 404 `{error: "Not Found"}` and leaves the store unchanged |
| Server.CreateSucceeds | index.ts:86-93 | POST /tasks with an accepted body answers 201 with the task (old counter, body's title, not done, clock reading), and the store becomes the old list plus that task with the counter one higher |
| Server.InvalidBodyRefused | index.ts:81-84 | POST /tasks whose parsed body the guard refuses answers 400 with the fixed message and changes neither list nor counter |
| Server.EmptyBodyRefused | index.ts:36-40 | POST /tasks with an empty body is read as `{}` and answered 400 with the store untouched, whatever `JSON.parse` would do |
| Server.BodyFailureIsInternalError | index.ts:118-121 | a malformed body answers 500 `{error: "Invalid JSON"}` and a stream error answers 500 with that stream's message; the store is untouched either way |
| Server.InternalErrorOnlyFromBody | index.ts:118-121 | a 500 occurs exactly for POST /tasks whose body failed to arrive or parse, and it carries that failure's message |
| Server.StepPreservesValid | index.ts:86-92 | any request keeps the store invariant; a 201's task has id N + 1 and is appended to the list |
| Trace.Run | index.ts:118-122 | handling a request sequence yields exactly one response per request |
| Trace.RunKeepsValid | index.ts:86-92 | over any request sequence from a valid store the invariant holds at the end, and the final list is the old list followed by the tasks of the 201 answers, in answer order |
| Trace.IdsAreOneToN | index.ts:12-14 | from process start, the tasks created by any request sequence have ids exactly 1..N in creation order, strictly increasing; the store holds exactly them and the counter is N + 1 |
| Trace.QuietRunKeepsStore | index.ts:81-84 | a request sequence with no 201 answer leaves list and counter exactly as they were |
| Trace.GetsAroundQuietRunAgree | index.ts:66-68 | two GET /tasks separated only by requests that created nothing return identical answers |
| Trace.BuyMilkScenario | index.ts:86-93 | creating "Buy milk" on a fresh store answers 201 with task 1, and a following GET lists exactly that task |
| Trace.RefusalKeepsCounter | index.ts:81-87 | a refused empty-body POST consumes no id: the next successful creation still gets id 1 |
| Wire.TaskRoundTrip | index.ts:4-9 | a task's `{id, title, done, createdAt}` object reads back as the same task |
| Wire.TasksRoundTrip | index.ts:67 | the JSON array of a task list reads back as the same list |
| Wire.PayloadRoundTrip | index.ts:22-25 | a payload whose kind fits its status reads back from its JSON value as the same payload |
| Wire.StepResponsesDecode | index.ts:22-25 | every response the server sends reads back from its JSON value as the payload it meant |
| Wire.FirstGetIsEmptyArray | index.ts:12 | before any creation, GET /tasks answers 200 with the empty JSON array |

## Left out

- The HTTP server, `server.listen`, the port constant 3000 and the startup log (index.ts:116-126): socket I/O.
- `res.writeHead` and the `Content-Type` header (index.ts:23): a response is modelled as status and payload only.
- Chunk accumulation and the `data`/`end`/`error` events of `parseBody` (index.ts:33-36, 43): the body is modelled as already delivered, or as the stream's error. A body stream that neither ends nor errors leaves the promise of index.ts:32-44 pending and the request unanswered; the model has no such case, so `Trace.Run`'s one response per request holds only for requests whose body was delivered or failed.
- The internals of `JSON.parse` and `JSON.stringify`: `JSON.parse` on non-empty text is a parameter; `JSON.stringify` stops at the JSON value the payload is serialised from.
- `new Date().toISOString()` (index.ts:90): the clock reading is the `now` parameter.
- Interleaving of concurrent requests: requests are handled one at a time, in the order their handlers resume.
- Json.OwnProperty: inherited `Object.prototype` and `Array.prototype` members are not modelled; none of them is named `title`, so the guard is unaffected.
- TaskStore.Create: ids are unbounded integers; the source's `nextId` is a JavaScript number, exact only up to 2^53.
- Json.Json: strings are Dafny strings, i.e. sequences of Unicode scalar values, whereas a JavaScript string is a sequence of UTF-16 code units; a title containing a lone surrogate (which `JSON.parse` accepts and the service stores with 201) cannot be represented.
- Json.Json: JSON numbers are modelled as reals, without floating-point rounding.
