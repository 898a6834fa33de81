/** The server's response envelope. */
module Models {
  import opened Json
  import opened Exceptions

  /** `ResultBase`: a missing field is Python's None, i.e. `JNull`. */
  datatype ResultBase = ResultBase(status: Json, data: Json, error: Json, metrics: Json)

  /**
   * `ResultBase(status=response['status'], data=response.get('data'), ...)`:
   * a body that is not a dictionary cannot be subscripted, and one without
   * `status` raises KeyError.
   */
  function Envelope(response: Json): (r: Result<ResultBase>)
    ensures r.Ok? <==> response.JObj? && Lookup(response.entries, "status").Some?
    ensures r.Ok? ==> Lookup(response.entries, "status") == Some(r.value.status)
    ensures r.Ok? ==> r.value.data == GetOr(response.entries, "data", JNull)
    ensures r.Ok? ==> r.value.error == GetOr(response.entries, "error", JNull)
    ensures r.Err? ==> !r.exc.kind.IsAparaviError()
  {
    if !response.JObj? then Err(KeySubscriptError(response))
    else match Lookup(response.entries, "status")
      case None => Err(Exception(KeyError, "'status'"))
      case Some(status) =>
        Ok(ResultBase(status,
                      GetOr(response.entries, "data", JNull),
                      GetOr(response.entries, "error", JNull),
                      GetOr(response.entries, "metrics", JNull)))
  }

  /** `result.status == 'Error'`. */
  predicate IsError(rb: ResultBase)
  {
    rb.status == JStr("Error")
  }
}
