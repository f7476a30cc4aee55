/** The standard response dictionaries every view answers with. */
module Envelope {

  import opened Wrappers

  /** A value stored in a response dictionary. */
  datatype Value<T> = Flag(flag: bool) | Text(text: string) | Payload(payload: T)

  const DefaultSuccessMessage: string := "Success"
  const DefaultErrorMessage: string := "Error"

  /** `success_response(message, data)`. */
  function SuccessResponse<T>(message: string, data: Option<T>): (r: map<string, Value<T>>)
    ensures r.Keys == {"success", "message"} + (if data.Some? then {"data"} else {})
    ensures r["success"] == Flag(true) && r["message"] == Text(message)
    ensures data.Some? ==> r["data"] == Payload(data.value)
  {
    var base := map["success" := Flag(true), "message" := Text(message)];
    if data.Some? then base["data" := Payload(data.value)] else base
  }

  /** `error_response(message, errors)`. */
  function ErrorResponse<T>(message: string, errors: Option<T>): (r: map<string, Value<T>>)
    ensures r.Keys == {"success", "message"} + (if errors.Some? then {"errors"} else {})
    ensures r["success"] == Flag(false) && r["message"] == Text(message)
    ensures errors.Some? ==> r["errors"] == Payload(errors.value)
  {
    var base := map["success" := Flag(false), "message" := Text(message)];
    if errors.Some? then base["errors" := Payload(errors.value)] else base
  }

  /** What a client reads back from the optional key of a response. */
  function Field<T>(r: map<string, Value<T>>, key: string): Option<T> {
    if key in r && r[key].Payload? then Some(r[key].payload) else None
  }

  /** A client reads back exactly the data it was sent, and no `errors` key. */
  lemma SuccessRoundTrip<T>(message: string, data: Option<T>)
    ensures Field(SuccessResponse(message, data), "data") == data
    ensures "errors" !in SuccessResponse(message, data)
  {
  }

  /** A client reads back exactly the errors it was sent, and no `data` key. */
  lemma ErrorRoundTrip<T>(message: string, errors: Option<T>)
    ensures Field(ErrorResponse(message, errors), "errors") == errors
    ensures "data" !in ErrorResponse(message, errors)
  {
  }

  /** The `success` flag tells the two kinds of response apart. */
  lemma SuccessAndErrorDiffer<T>(m1: string, d: Option<T>, m2: string, e: Option<T>)
    ensures SuccessResponse(m1, d) != ErrorResponse(m2, e)
  {
    assert SuccessResponse(m1, d)["success"] != ErrorResponse(m2, e)["success"];
  }

  const Status200: nat := 200
  const Status201: nat := 201
  const Status400: nat := 400
  const Status403: nat := 403
  const Status404: nat := 404
  const Status500: nat := 500

  /** An HTTP reply: a status code and a response dictionary. */
  datatype Reply<T> = Reply(status: nat, body: map<string, Value<T>>)

  function Success<T>(status: nat, message: string, data: Option<T>): Reply<T> {
    Reply(status, SuccessResponse(message, data))
  }

  function Failure<T>(status: nat, message: string): Reply<T> {
    Reply(status, ErrorResponse(message, None))
  }

  /** The `data` a client reads from a reply, if any. */
  function DataOf<T>(r: Reply<T>): Option<T> {
    Field(r.body, "data")
  }

  predicate Succeeded<T>(r: Reply<T>) {
    "success" in r.body && r.body["success"] == Flag(true)
  }
}
