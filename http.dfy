/** HTTP errors raised by the handlers and the range checks that FastAPI's
    `Query(default, ge=…, le=…)` performs before a handler runs. */
module Http {
  import opened Wrappers

  /** An `HTTPException`: status code, detail text, and whether the response
      carries the `WWW-Authenticate: Bearer` challenge header. */
  datatype HttpError = HttpError(status: int, detail: string, bearerChallenge: bool)

  const BAD_REQUEST := 400
  const UNAUTHORIZED := 401
  const UNPROCESSABLE := 422
  const INTERNAL_ERROR := 500

  /** The error FastAPI returns when a query parameter is out of range. */
  const VALIDATION_ERROR := HttpError(UNPROCESSABLE, "Validation error", false)

  /** `Query(default, ge=lo, le=hi)` on an integer parameter: an absent value
      takes the default; a value outside `[lo, hi]` is refused with 422. */
  function QueryInt(q: Option<int>, default: int, lo: int, hi: Option<int>): (r: Result<int, HttpError>)
    ensures var v := if q.Some? then q.value else default;
      && (r.Ok? <==> lo <= v && (hi.None? || v <= hi.value))
      && (r.Ok? ==> r.value == v)
      && (r.Err? ==> r.error == VALIDATION_ERROR)
  {
    var v := if q.Some? then q.value else default;
    if v < lo || (hi.Some? && v > hi.value) then Err(VALIDATION_ERROR) else Ok(v)
  }
}
