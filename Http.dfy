/** HTTP status codes and their reason phrases, as listed in section 15 of
    RFC 9110 (and as the `http-status-codes` package reports them). */
module Http {
  import opened Js

  const OK := 200
  const CREATED := 201
  const NO_CONTENT := 204
  const BAD_REQUEST := 400
  const UNAUTHORIZED := 401
  const FORBIDDEN := 403
  const NOT_FOUND := 404
  const CONFLICT := 409
  const INTERNAL_SERVER_ERROR := 500

  /** The reason phrase of each status code the modelled code uses. The
      table covers only those codes; `getReasonPhrase` knows many more, and
      None here stands for a code outside the table, not for one it rejects. */
  function ReasonPhrase(code: int): Option<string> {
    if code == OK then Some("OK")
    else if code == CREATED then Some("Created")
    else if code == NO_CONTENT then Some("No Content")
    else if code == BAD_REQUEST then Some("Bad Request")
    else if code == UNAUTHORIZED then Some("Unauthorized")
    else if code == FORBIDDEN then Some("Forbidden")
    else if code == NOT_FOUND then Some("Not Found")
    else if code == CONFLICT then Some("Conflict")
    else if code == INTERNAL_SERVER_ERROR then Some("Internal Server Error")
    else None
  }
}
