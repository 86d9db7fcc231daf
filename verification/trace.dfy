/** Sequences of requests handled one after another from one store. */
module Trace {
  import opened Outcomes
  import opened Json
  import opened TaskStore
  import opened Validator
  import opened BodyParser
  import opened Server

  /** One request together with the clock reading its handler would see. */
  datatype Input = Input(req: Request, now: string)

  /** Handles `inputs` in order from `s`: the responses, one per request,
      and the final store. */
  function Run(s: Store, inputs: seq<Input>, parse: JsonParse): (r: (seq<Response>, Store))
    ensures |r.0| == |inputs|
    decreases |inputs|
  {
    if |inputs| == 0 then ([], s)
    else
      var (rs, s1) := Run(s, inputs[..|inputs| - 1], parse);
      var last := inputs[|inputs| - 1];
      var (resp, s2) := Step(s1, last.req, last.now, parse);
      (rs + [resp], s2)
  }

  /** The tasks carried by the 201 responses, in order. */
  function CreatedTasks(rs: seq<Response>): (ts: seq<Task>)
    ensures |ts| <= |rs|
  {
    if |rs| == 0 then []
    else
      var ts := CreatedTasks(rs[..|rs| - 1]);
      var last := rs[|rs| - 1];
      if last.status == StatusCreated && last.payload.OneTask? then ts + [last.payload.task] else ts
  }

  /** No response in `rs` is a 201. */
  predicate NoneCreated(rs: seq<Response>) {
    forall i :: 0 <= i < |rs| ==> rs[i].status != StatusCreated
  }

  /** From a valid store, any request sequence keeps the store valid, and
      the final list is the old one followed by the created tasks, in the
      order their 201 responses were sent. */
  lemma {:induction false} RunKeepsValid(s: Store, inputs: seq<Input>, parse: JsonParse)
    requires Valid(s)
    ensures Valid(Run(s, inputs, parse).1)
    ensures Run(s, inputs, parse).1.tasks == s.tasks + CreatedTasks(Run(s, inputs, parse).0)
    decreases |inputs|
  {
    if |inputs| > 0 {
      var init := inputs[..|inputs| - 1];
      RunKeepsValid(s, init, parse);
      var (rs, s1) := Run(s, init, parse);
      var last := inputs[|inputs| - 1];
      StepPreservesValid(s1, last.req, last.now, parse);
      StepResponseShape(s1, last.req, last.now, parse);
      OnlyCreatedMutates(s1, last.req, last.now, parse);
      var (resp, s2) := Step(s1, last.req, last.now, parse);
      assert (rs + [resp])[..|rs|] == rs;
    }
  }

  /** From process start, the tasks created by any request sequence get ids
      exactly 1..N in the order they were created, with no gaps or repeats;
      the store holds exactly them and the counter stands at N + 1. */
  lemma IdsAreOneToN(inputs: seq<Input>, parse: JsonParse)
    ensures var (rs, s') := Run(Initial, inputs, parse);
      var ts := CreatedTasks(rs);
      && s'.tasks == ts
      && s'.nextId == |ts| + 1
      && (forall i :: 0 <= i < |ts| ==> ts[i].id == i + 1)
      && (forall i, j :: 0 <= i < j < |ts| ==> ts[i].id < ts[j].id)
  {
    var (rs, s') := Run(Initial, inputs, parse);
    InitialValid();
    RunKeepsValid(Initial, inputs, parse);
    assert s'.tasks == CreatedTasks(rs);
    ValidIdsStrictlyIncrease(s');
  }

  /** A request sequence none of whose responses is a 201 (reads, refused
      bodies, failed bodies, unrouted requests) leaves the store exactly as
      it was: neither the list nor the counter moves. */
  lemma {:induction false} QuietRunKeepsStore(s: Store, inputs: seq<Input>, parse: JsonParse)
    requires NoneCreated(Run(s, inputs, parse).0)
    ensures Run(s, inputs, parse).1 == s
    decreases |inputs|
  {
    if |inputs| > 0 {
      var init := inputs[..|inputs| - 1];
      var (rs, s1) := Run(s, init, parse);
      var last := inputs[|inputs| - 1];
      var (resp, s2) := Step(s1, last.req, last.now, parse);
      assert forall i :: 0 <= i < |rs| ==> rs[i] == (rs + [resp])[i];
      QuietRunKeepsStore(s, init, parse);
      assert resp == (rs + [resp])[|rs|];
      OnlyCreatedMutates(s1, last.req, last.now, parse);
    }
  }

  /** Two GET /tasks separated only by requests that created nothing
      return identical payloads. */
  lemma GetsAroundQuietRunAgree(s: Store, b1: Body, b2: Body, now1: string, now2: string,
                                between: seq<Input>, parse: JsonParse)
    requires NoneCreated(Run(Step(s, Request("GET", "/tasks", b1), now1, parse).1, between, parse).0)
    ensures var (r1, s1) := Step(s, Request("GET", "/tasks", b1), now1, parse);
      var (_, s2) := Run(s1, between, parse);
      Step(s2, Request("GET", "/tasks", b2), now2, parse).0 == r1
  {
    var s1 := Step(s, Request("GET", "/tasks", b1), now1, parse).1;
    QuietRunKeepsStore(s1, between, parse);
    GetIsReadOnly(s, b1, now1, parse);
  }

  /** Creating "Buy milk" on a fresh store answers 201 with task 1, and a
      following GET lists exactly that task. */
  lemma BuyMilkScenario(raw: string, now1: string, now2: string, getBody: Body, parse: JsonParse)
    requires raw != "" && parse(raw) == Some(JObject(map["title" := JString("Buy milk")]))
    ensures var t := Task(1, "Buy milk", false, now1);
      Run(Initial, [Input(Request("POST", "/tasks", Arrived(raw)), now1),
                    Input(Request("GET", "/tasks", getBody), now2)], parse).0
        == [Response(StatusCreated, OneTask(t)), Response(StatusOk, TaskList([t]))]
  {
    var inputs := [Input(Request("POST", "/tasks", Arrived(raw)), now1),
                   Input(Request("GET", "/tasks", getBody), now2)];
    var b := JObject(map["title" := JString("Buy milk")]);
    TitledObjectAccepted(map[], "Buy milk");
    assert map[]["title" := JString("Buy milk")] == b.members;
    assert ParseBody(Arrived(raw), parse) == Fulfilled(b);
    CreateSucceeds(Initial, Arrived(raw), now1, parse);
    var (r1, s1) := Step(Initial, inputs[0].req, now1, parse);
    assert inputs[..1][..0] == [];
    assert inputs[..1] == [inputs[0]];
    assert Run(Initial, inputs[..1], parse) == ([] + [r1], s1);
    GetIsReadOnly(s1, getBody, now2, parse);
  }

  /** A refused empty body does not consume an id: the next successful
      creation still gets id 1. */
  lemma RefusalKeepsCounter(raw: string, now1: string, now2: string, parse: JsonParse)
    requires raw != "" && parse(raw) == Some(JObject(map["title" := JString("Buy milk")]))
    ensures Run(Initial, [Input(Request("POST", "/tasks", Arrived("")), now1),
                          Input(Request("POST", "/tasks", Arrived(raw)), now2)], parse).0[1]
      == Response(StatusCreated, OneTask(Task(1, "Buy milk", false, now2)))
  {
    var inputs := [Input(Request("POST", "/tasks", Arrived("")), now1),
                   Input(Request("POST", "/tasks", Arrived(raw)), now2)];
    EmptyBodyRefused(Initial, now1, parse);
    var (r1, s1) := Step(Initial, inputs[0].req, now1, parse);
    assert inputs[..1][..0] == [];
    assert inputs[..1] == [inputs[0]];
    assert Run(Initial, inputs[..1], parse) == ([] + [r1], s1);
    var b := JObject(map["title" := JString("Buy milk")]);
    TitledObjectAccepted(map[], "Buy milk");
    assert map[]["title" := JString("Buy milk")] == b.members;
    assert ParseBody(Arrived(raw), parse) == Fulfilled(b);
    CreateSucceeds(s1, Arrived(raw), now2, parse);
  }
}
