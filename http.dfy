/** The parts of an Express request and response the core reads and writes. */
module Http {
  import opened Outcomes

  /** The `authorization` header (absent or a string) and the parsed `req.cookies`. */
  datatype Request = Request(authorization: Option<string>, cookies: map<string, string>)

  datatype SameSite = Lax | Unset

  /** `expires: new Date(ms)` or `maxAge: ms`. */
  datatype Expiry = ExpiresAt(ms: int) | MaxAge(ms: int)

  datatype CookieOptions = CookieOptions(httpOnly: bool, secure: bool, sameSite: SameSite, expiry: Expiry)

  /** One `res.cookie(name, value, options)` call; the value as the string sent. */
  datatype Cookie = Cookie(value: string, options: CookieOptions)

  /** The cookies written to the response so far, by name (a later write of a name replaces an earlier one). */
  datatype Response = Response(cookies: map<string, Cookie>)

  const AccessCookie := "access_token"
  const RefreshCookie := "refresh_token"
  const LoggedInCookie := "logged_in"

  /** A JavaScript string is truthy when it is not empty. */
  predicate Truthy(s: string) {
    s != ""
  }
}
