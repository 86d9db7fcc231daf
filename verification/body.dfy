/** `parseBody`: turning the request's fully-arrived body into a JSON value. */
module BodyParser {
  import opened Outcomes
  import opened Json

  /** What the request stream delivered: either all of its text, or the
      error the stream emitted instead. */
  datatype Body = Arrived(raw: string) | StreamError(message: string)

  /** The message of the error a malformed body is rejected with. */
  const InvalidJson: string := "Invalid JSON"

  /** `JSON.parse` on non-empty text: a value, or None when the library
      throws. It is a parameter because its internals are not modelled. */
  type JsonParse = string -> Option<Json>

  /** Settles like the source's promise: an empty body counts as `{}`, other
      text goes through `parse`, a parse failure rejects with "Invalid JSON",
      and a stream error rejects with the stream's own message. */
  function ParseBody(body: Body, parse: JsonParse): (r: Settled<Json>)
    ensures body.Arrived? && body.raw == "" ==> r == Fulfilled(EmptyObject)
    ensures body.Arrived? && body.raw != "" ==>
      (r.Fulfilled? <==> parse(body.raw).Some?) &&
      (r.Fulfilled? ==> r.value == parse(body.raw).value) &&
      (r.Rejected? ==> r.message == InvalidJson)
    ensures body.StreamError? ==> r == Rejected(body.message)
  {
    match body
    case StreamError(m) => Rejected(m)
    case Arrived(raw) =>
      if raw == "" then Fulfilled(EmptyObject)
      else
        match parse(raw)
        case Some(v) => Fulfilled(v)
        case None => Rejected(InvalidJson)
  }
}
