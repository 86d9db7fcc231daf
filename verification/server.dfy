/** The request pipeline: routing, the two handlers, and the top-level
    boundary that turns a rejected handler into a 500 response. */
module Server {
  import opened Outcomes
  import opened Json
  import opened TaskStore
  import opened Validator
  import opened BodyParser

  /** A request as the pipeline sees it: method (`verb`), url, and the body the
      stream delivered (read only by the create handler). */
  datatype Request = Request(verb: string, url: string, body: Body)

  /** What a response carries before JSON serialisation. */
  datatype Payload =
    | TaskList(tasks: seq<Task>)
    | OneTask(task: Task)
    | ErrorBody(error: string)

  datatype Response = Response(status: int, payload: Payload)

  const StatusOk: int := 200
  const StatusCreated: int := 201
  const StatusBadRequest: int := 400
  const StatusNotFound: int := 404
  const StatusInternalError: int := 500

  /** The fixed message of a refused creation body. */
  const TitleRequired: string := "title は必須の文字列です"
  /** The fixed message of an unrouted request. */
  const NotFoundMessage: string := "Not Found"

  /** The state after a handler's promise settles, and how it settled: with
      the response the handler sent, or with a rejection it did not catch. */
  datatype Completion = Completion(store: Store, settled: Settled<Response>)

  /** Where the router sends a request. */
  datatype Route = ListTasks | CreateTask | NoRoute

  /** The routing table: exactly two (url, method) pairs reach a handler. */
  function RouteOf(url: string, verb: string): (r: Route)
    ensures r == ListTasks <==> url == "/tasks" && verb == "GET"
    ensures r == CreateTask <==> url == "/tasks" && verb == "POST"
    ensures r == NoRoute <==> !(url == "/tasks" && (verb == "GET" || verb == "POST"))
  {
    if url == "/tasks" && verb == "GET" then ListTasks
    else if url == "/tasks" && verb == "POST" then CreateTask
    else NoRoute
  }

  /** `handleGetTasks`: the current list with 200; never changes the store. */
  function HandleGetTasks(s: Store): (c: Completion)
    ensures c.store == s
    ensures c.settled == Fulfilled(Response(StatusOk, TaskList(s.tasks)))
  {
    Completion(s, Fulfilled(Response(StatusOk, TaskList(s.tasks))))
  }

  /** `handlePostTask`: await the body, refuse it with 400 unless the guard
      accepts it, otherwise create the task and answer 201 with it. A body
      that fails to arrive or parse rejects the handler before any change. */
  function HandlePostTask(s: Store, body: Body, now: string, parse: JsonParse): (c: Completion)
    ensures c.settled.Rejected? <==> ParseBody(body, parse).Rejected?
    ensures c.settled.Rejected? ==> c.store == s && c.settled.message == ParseBody(body, parse).message
    ensures c.settled.Fulfilled? && c.settled.value.status == StatusBadRequest ==>
      c.store == s && c.settled.value.payload == ErrorBody(TitleRequired)
    ensures c.settled.Fulfilled? ==>
      c.settled.value.status == StatusBadRequest || c.settled.value.status == StatusCreated
    ensures ParseBody(body, parse).Fulfilled? ==>
      ((c.settled.Fulfilled? && c.settled.value.status == StatusBadRequest) <==>
        !IsCreateTaskBody(ParseBody(body, parse).value))
  {
    match ParseBody(body, parse)
    case Rejected(m) => Completion(s, Rejected(m))
    case Fulfilled(v) =>
      if !IsCreateTaskBody(v) then
        Completion(s, Fulfilled(Response(StatusBadRequest, ErrorBody(TitleRequired))))
      else
        var (t, s') := Create(s, TitleOf(v), now);
        Completion(s', Fulfilled(Response(StatusCreated, OneTask(t))))
  }

  /** `requestHandler`: dispatch on the routing table; anything unrouted is
      answered 404 without touching the store. */
  function RequestHandler(s: Store, req: Request, now: string, parse: JsonParse): (c: Completion)
    ensures RouteOf(req.url, req.verb) != CreateTask ==> c.store == s && c.settled.Fulfilled?
    ensures RouteOf(req.url, req.verb) == NoRoute ==>
      c.settled == Fulfilled(Response(StatusNotFound, ErrorBody(NotFoundMessage)))
  {
    match RouteOf(req.url, req.verb)
    case ListTasks => HandleGetTasks(s)
    case CreateTask => HandlePostTask(s, req.body, now, parse)
    case NoRoute => Completion(s, Fulfilled(Response(StatusNotFound, ErrorBody(NotFoundMessage))))
  }

  /** The server callback with its `.catch`: one request taken from state
      `s` to a response and the next state. `now` is the clock reading
      used as `createdAt`; `parse` stands for `JSON.parse`. */
  function Step(s: Store, req: Request, now: string, parse: JsonParse): (r: (Response, Store))
    ensures r.0.status == StatusInternalError ==> r.0.payload.ErrorBody?
    ensures RequestHandler(s, req, now, parse).settled.Rejected? ==>
      r == (Response(StatusInternalError, ErrorBody(RequestHandler(s, req, now, parse).settled.message)), s)
    ensures RequestHandler(s, req, now, parse).settled.Fulfilled? ==>
      r.0 == RequestHandler(s, req, now, parse).settled.value
  {
    var c := RequestHandler(s, req, now, parse);
    match c.settled
    case Fulfilled(resp) => (resp, c.store)
    case Rejected(m) => (Response(StatusInternalError, ErrorBody(m)), c.store)
  }

  /** Only a 201 changes the store; every other answer leaves it as it was. */
  lemma OnlyCreatedMutates(s: Store, req: Request, now: string, parse: JsonParse)
    ensures Step(s, req, now, parse).0.status != StatusCreated ==> Step(s, req, now, parse).1 == s
  {
  }

  /** Every response has one of the five statuses, with the payload kind
      that status implies. */
  lemma StepResponseShape(s: Store, req: Request, now: string, parse: JsonParse)
    ensures var resp := Step(s, req, now, parse).0;
      && (resp.status == StatusOk ==> resp.payload.TaskList?)
      && (resp.status == StatusCreated ==> resp.payload.OneTask?)
      && (resp.status in {StatusBadRequest, StatusNotFound, StatusInternalError} ==> resp.payload.ErrorBody?)
      && resp.status in {StatusOk, StatusCreated, StatusBadRequest, StatusNotFound, StatusInternalError}
  {
  }

  /** GET /tasks answers 200 with the current list and changes nothing. */
  lemma GetIsReadOnly(s: Store, body: Body, now: string, parse: JsonParse)
    ensures Step(s, Request("GET", "/tasks", body), now, parse) == (Response(StatusOk, TaskList(s.tasks)), s)
  {
  }

  /** Two GETs in a row return identical payloads, whatever their bodies
      and clocks. */
  lemma GetTwiceIdentical(s: Store, b1: Body, b2: Body, now1: string, now2: string, parse: JsonParse)
    ensures var (r1, s1) := Step(s, Request("GET", "/tasks", b1), now1, parse);
      Step(s1, Request("GET", "/tasks", b2), now2, parse).0 == r1
  {
  }

  /** Any (url, method) pair outside the table answers 404 "Not Found" and
      leaves the store unchanged, whatever the body. */
  lemma UnroutedIsNotFound(s: Store, req: Request, now: string, parse: JsonParse)
    requires !(req.url == "/tasks" && (req.verb == "GET" || req.verb == "POST"))
    ensures Step(s, req, now, parse) == (Response(StatusNotFound, ErrorBody(NotFoundMessage)), s)
  {
  }

  /** A POST /tasks whose body the guard accepts answers 201 with a task
      carrying the old counter as id, the body's title, `done == false` and
      the clock reading; the store gains exactly that task at the end. */
  lemma CreateSucceeds(s: Store, body: Body, now: string, parse: JsonParse)
    requires ParseBody(body, parse).Fulfilled? && IsCreateTaskBody(ParseBody(body, parse).value)
    ensures var (resp, s') := Step(s, Request("POST", "/tasks", body), now, parse);
      var t := Task(s.nextId, TitleOf(ParseBody(body, parse).value), false, now);
      && resp == Response(StatusCreated, OneTask(t))
      && s' == Store(s.tasks + [t], s.nextId + 1)
  {
  }

  /** A POST /tasks whose parsed body the guard refuses answers 400 with the
      fixed message and changes neither the list nor the counter. */
  lemma InvalidBodyRefused(s: Store, body: Body, now: string, parse: JsonParse)
    requires ParseBody(body, parse).Fulfilled? && !IsCreateTaskBody(ParseBody(body, parse).value)
    ensures Step(s, Request("POST", "/tasks", body), now, parse)
      == (Response(StatusBadRequest, ErrorBody(TitleRequired)), s)
  {
  }

  /** An empty body is read as `{}`, so POST /tasks with it is refused with
      400 and the store is untouched, whatever `JSON.parse` does. */
  lemma EmptyBodyRefused(s: Store, now: string, parse: JsonParse)
    ensures Step(s, Request("POST", "/tasks", Arrived("")), now, parse)
      == (Response(StatusBadRequest, ErrorBody(TitleRequired)), s)
  {
    EmptyObjectRefused();
  }

  /** Malformed JSON rejects the handler with "Invalid JSON", and a stream
      error with the stream's message; the boundary answers 500 carrying
      that message and the store is untouched. */
  lemma BodyFailureIsInternalError(s: Store, body: Body, now: string, parse: JsonParse)
    requires body.StreamError? || (body.raw != "" && parse(body.raw).None?)
    ensures var msg := if body.StreamError? then body.message else InvalidJson;
      Step(s, Request("POST", "/tasks", body), now, parse)
        == (Response(StatusInternalError, ErrorBody(msg)), s)
  {
  }

  /** A 500 arises only from POST /tasks whose body failed to arrive or to
      parse, and then carries exactly that failure's message. */
  lemma InternalErrorOnlyFromBody(s: Store, req: Request, now: string, parse: JsonParse)
    ensures Step(s, req, now, parse).0.status == StatusInternalError <==>
      RouteOf(req.url, req.verb) == CreateTask && ParseBody(req.body, parse).Rejected?
    ensures Step(s, req, now, parse).0.status == StatusInternalError ==>
      Step(s, req, now, parse).0.payload == ErrorBody(ParseBody(req.body, parse).message)
  {
  }

  /** A request keeps the store valid. */
  lemma StepPreservesValid(s: Store, req: Request, now: string, parse: JsonParse)
    requires Valid(s)
    ensures Valid(Step(s, req, now, parse).1)
    ensures Step(s, req, now, parse).0.status == StatusCreated ==>
      var t := Step(s, req, now, parse).0.payload.task;
      t.id == |s.tasks| + 1 && Step(s, req, now, parse).1.tasks == s.tasks + [t]
  {
    var c := RequestHandler(s, req, now, parse);
    if RouteOf(req.url, req.verb) == CreateTask {
      var p := ParseBody(req.body, parse);
      if p.Fulfilled? && IsCreateTaskBody(p.value) {
        CreatePreservesValid(s, TitleOf(p.value), now);
      }
    }
  }
}
