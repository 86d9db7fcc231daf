/** The creation-body type guard `isCreateTaskBody`. */
module Validator {
  import opened Json

  /** True when `body` is a non-null object-typed value with a `title`
      property holding a string other than "". Each conjunct is one test of
      the source's guard, in the same short-circuit order. */
  predicate IsCreateTaskBody(body: Json) {
    && TypeOf(body) == "object"
    && body != JNull
    && OwnProperty(body, "title").Some?
    && TypeOf(OwnProperty(body, "title").value) == "string"
    && OwnProperty(body, "title").value != JString("")
  }

  /** The title of a body the guard accepted. */
  function TitleOf(body: Json): (t: string)
    requires IsCreateTaskBody(body)
    ensures body.JObject? && "title" in body.members && body.members["title"] == JString(t)
    ensures t != ""
  {
    IsCreateTaskBodyIff(body);
    body.members["title"].s
  }

  /** "title" is not one of an array's own property names. */
  lemma TitleNotArrayKey()
    ensures "title" != "length" && !IsIndexKey("title")
  {
    assert !IsDigit("title"[0]);
  }

  /** The guard holds exactly for objects whose `title` member is a
      non-empty string; null, arrays, primitives, a missing key, a
      non-string title and "" are all refused. */
  lemma IsCreateTaskBodyIff(body: Json)
    ensures IsCreateTaskBody(body) <==>
      body.JObject? && "title" in body.members
      && body.members["title"].JString? && body.members["title"].s != ""
  {
    if body.JArray? {
      TitleNotArrayKey();
    }
  }

  /** The body `{"title": t, ...}` passes exactly when `t` is non-empty,
      whatever other members it carries. */
  lemma TitledObjectAccepted(members: map<string, Json>, t: string)
    ensures IsCreateTaskBody(JObject(members["title" := JString(t)])) <==> t != ""
    ensures t != "" ==> TitleOf(JObject(members["title" := JString(t)])) == t
  {
    IsCreateTaskBodyIff(JObject(members["title" := JString(t)]));
  }

  /** The empty object, which an empty request body parses to, is refused. */
  lemma EmptyObjectRefused()
    ensures !IsCreateTaskBody(EmptyObject)
  {
    IsCreateTaskBodyIff(EmptyObject);
  }
}
