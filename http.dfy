/** What both scripts see of an HTTP exchange with `requests`. */
module Http {
  import opened Wrappers
  import opened PyValues

  /** One HTTP answer: its status and its decoded JSON body (`None` when the
      body is not JSON). */
  datatype Response = Response(status: int, body: Option<Value>)

  /** `requests.Response.ok`: false exactly for 4xx and 5xx statuses, the
      ones on which `raise_for_status()` raises `HTTPError`. */
  predicate IsOk(status: int)
  {
    !(400 <= status < 600)
  }
}
