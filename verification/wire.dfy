/** The JSON value each response payload is handed to `JSON.stringify` as,
    and a decoder a client would apply to it. */
module Wire {
  import opened Outcomes
  import opened Json
  import opened TaskStore
  import opened BodyParser
  import opened Server

  /** `{id, title, done, createdAt}`, the object shape of a task. */
  function TaskToJson(t: Task): Json {
    JObject(map["id" := JNumber(t.id as real), "title" := JString(t.title),
                "done" := JBool(t.done), "createdAt" := JString(t.createdAt)])
  }

  /** Reads a task back from an object with the four members of the right
      types and an integral id; any other member is ignored. */
  function TaskFromJson(j: Json): (r: Option<Task>)
    ensures r.Some? ==> j.JObject? && "title" in j.members && "id" in j.members
    ensures r.Some? ==> j.members["title"] == JString(r.value.title)
    ensures r.Some? ==> j.members["id"] == JNumber(r.value.id as real)
  {
    if && j.JObject?
       && "id" in j.members && j.members["id"].JNumber?
       && j.members["id"].n == j.members["id"].n.Floor as real
       && "title" in j.members && j.members["title"].JString?
       && "done" in j.members && j.members["done"].JBool?
       && "createdAt" in j.members && j.members["createdAt"].JString?
    then Some(Task(j.members["id"].n.Floor, j.members["title"].s,
                   j.members["done"].b, j.members["createdAt"].s))
    else None
  }

  function TasksToJson(ts: seq<Task>): (items: seq<Json>)
    ensures |items| == |ts|
  {
    if |ts| == 0 then [] else TasksToJson(ts[..|ts| - 1]) + [TaskToJson(ts[|ts| - 1])]
  }

  /** Reads every element of an array as a task; fails if any element fails. */
  function TasksFromJson(items: seq<Json>): (r: Option<seq<Task>>)
    ensures r.Some? ==> |r.value| == |items|
  {
    if |items| == 0 then Some([])
    else
      var front := TasksFromJson(items[..|items| - 1]);
      var last := TaskFromJson(items[|items| - 1]);
      if front.Some? && last.Some? then Some(front.value + [last.value]) else None
  }

  /** The value `sendJson` serialises for a payload: an array of tasks, one
      task object, or `{error: message}`. */
  function PayloadToJson(p: Payload): Json {
    match p
    case TaskList(ts) => JArray(TasksToJson(ts))
    case OneTask(t) => TaskToJson(t)
    case ErrorBody(m) => JObject(map["error" := JString(m)])
  }

  /** A client's reading of a response body, guided by its status. */
  function PayloadFromJson(status: int, j: Json): (r: Option<Payload>)
    ensures r.Some? && status == StatusOk ==> r.value.TaskList?
    ensures r.Some? && status == StatusCreated ==> r.value.OneTask?
    ensures r.Some? && status != StatusOk && status != StatusCreated ==> r.value.ErrorBody?
  {
    if status == StatusOk then
      if j.JArray? then
        match TasksFromJson(j.items)
        case Some(ts) => Some(TaskList(ts))
        case None => None
      else None
    else if status == StatusCreated then
      match TaskFromJson(j)
      case Some(t) => Some(OneTask(t))
      case None => None
    else if j.JObject? && "error" in j.members && j.members["error"].JString? then
      Some(ErrorBody(j.members["error"].s))
    else None
  }

  /** A status and payload kind that belong together. */
  predicate WellShaped(resp: Response) {
    && (resp.status == StatusOk <==> resp.payload.TaskList?)
    && (resp.status == StatusCreated <==> resp.payload.OneTask?)
  }

  lemma TaskRoundTrip(t: Task)
    ensures TaskFromJson(TaskToJson(t)) == Some(t)
  {
  }

  /** Decoding an array with one more element appends that element's task. */
  lemma TasksFromJsonSnoc(front: seq<Json>, j: Json)
    ensures TasksFromJson(front + [j]) ==
      if TasksFromJson(front).Some? && TaskFromJson(j).Some?
      then Some(TasksFromJson(front).value + [TaskFromJson(j).value]) else None
  {
    assert (front + [j])[..|front|] == front;
  }

  lemma {:induction false} TasksRoundTrip(ts: seq<Task>)
    ensures TasksFromJson(TasksToJson(ts)) == Some(ts)
  {
    if |ts| > 0 {
      var init, last := ts[..|ts| - 1], ts[|ts| - 1];
      assert init + [last] == ts;
      assert TasksToJson(ts) == TasksToJson(init) + [TaskToJson(last)];
      TasksRoundTrip(init);
      TaskRoundTrip(last);
      TasksFromJsonSnoc(TasksToJson(init), TaskToJson(last));
    }
  }

  /** A well-shaped response's body decodes back to its payload. */
  lemma PayloadRoundTrip(resp: Response)
    requires WellShaped(resp)
    ensures PayloadFromJson(resp.status, PayloadToJson(resp.payload)) == Some(resp.payload)
  {
    match resp.payload
    case TaskList(ts) => TasksRoundTrip(ts);
    case OneTask(t) => TaskRoundTrip(t);
    case ErrorBody(_) =>
  }

  /** Every response the server sends decodes back to what it meant. */
  lemma StepResponsesDecode(s: Store, req: Request, now: string, parse: JsonParse)
    ensures var resp := Step(s, req, now, parse).0;
      PayloadFromJson(resp.status, PayloadToJson(resp.payload)) == Some(resp.payload)
  {
    StepResponseShape(s, req, now, parse);
    PayloadRoundTrip(Step(s, req, now, parse).0);
  }

  /** Before any creation, GET /tasks sends the empty JSON array with 200. */
  lemma FirstGetIsEmptyArray(body: Body, now: string, parse: JsonParse)
    ensures var resp := Step(Initial, Request("GET", "/tasks", body), now, parse).0;
      resp.status == StatusOk && PayloadToJson(resp.payload) == JArray([])
  {
  }
}
