/** An HTTP response as a status and a body, and what the front end's HTTP
    client makes of it: a call resolves with the body of a 2xx response and
    rejects on any other status or when no response arrives. */
module Http {
  import opened Common

  datatype Response<+B> = Response(status: int, body: B)

  predicate IsSuccess(status: int) {
    200 <= status < 300
  }

  /** The outcome of an awaited request: `Some(body)` when the promise resolves,
      `None` when it rejects. `r == None` stands for a transport failure. */
  function Resolve<B>(r: Option<Response<B>>): (v: Option<B>)
    ensures v.Some? <==> r.Some? && IsSuccess(r.value.status)
    ensures v.Some? ==> v.value == r.value.body
  {
    if r.Some? && IsSuccess(r.value.status) then Some(r.value.body) else None
  }
}
