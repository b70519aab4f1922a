/** The response shape every handler returns. */
module Http {
  import opened Options
  import opened Json

  /** A handler result. `body` is the JSON value the handler serialises;
      `None` is a body of `JSON.stringify(undefined)`, i.e. no body at all. */
  datatype Response = Response(status: nat, body: Option<Json>)

  /** The fixed error body `{ error: msg }`. */
  function ErrorBody(msg: string): Json {
    JObj(map["error" := JStr(msg)])
  }

  /** A failure response carrying the fixed error body. */
  function ErrorResponse(status: nat, msg: string): (r: Response)
    ensures r.status == status && r.body.Some? && r.body.value.JObj?
    ensures r.body.value.fields.Keys == {"error"}
    ensures r.body.value.fields["error"] == JStr(msg)
  {
    Response(status, Some(ErrorBody(msg)))
  }
}
