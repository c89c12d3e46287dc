/**
 * The upstream catalogue as the views see it: a request yields either a JSON
 * payload, an HTTP error status (4xx/5xx, what `raise_for_status` turns into
 * an exception carrying the response) or a transport failure with no response
 * (connection errors, timeouts, bodies that are not JSON).
 */
module Upstream {
  import opened Json

  datatype Request =
    | CountQuery                             // pokemon/?limit=1
    | ListQuery(offset: int, limit: int)     // pokemon/?offset={offset}&limit={limit}
    | DetailAt(url: string)                  // the `url` of a list entry
    | DetailOf(id: int)                      // pokemon/{id}/

  /** The statuses for which `raise_for_status` raises. */
  type ErrorStatus = s: int | 400 <= s < 600 witness 400

  datatype Fetch = Ok(payload: Json) | HttpErr(status: ErrorStatus) | NetErr

  /**
   * The answers upstream gives, fixed for the duration of a request, and the
   * log of requests made.
   */
  class Api {
    var answer: Request -> Fetch
    ghost var calls: seq<Request>

    constructor (answer: Request -> Fetch)
      ensures this.answer == answer && calls == []
    {
      this.answer := answer;
      calls := [];
    }

    /** One `requests.get`. */
    method Get(req: Request) returns (r: Fetch)
      modifies this`calls
      ensures r == answer(req)
      ensures calls == old(calls) + [req]
    {
      r := answer(req);
      calls := calls + [req];
    }
  }
}
