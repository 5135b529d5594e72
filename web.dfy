/** What the route handlers exchange with the web framework: the incoming
    request's header and cookies, the signed server-side session, HTTP
    errors, redirects and cookie instructions. */
module Web {
  import opened Wrappers

  /** An `HTTPException` (or an unhandled exception, status 500). */
  datatype HttpError = HttpError(status: int, detail: string)

  datatype CookieOp = SetCookie(name: string, value: string) | DeleteCookie(name: string)

  /** A `RedirectResponse` together with the cookies it sets or deletes. */
  datatype Redirect = Redirect(url: string, status: int, cookies: seq<CookieOp>)

  /** The parts of a request the authentication dependency looks at. */
  datatype Request = Request(authorization: Option<string>, cookies: map<string, string>)

  datatype SessionValue = SInt(i: int) | SStr(s: string)

  /** The server-side session (`request.session`), a dictionary kept per browser. */
  class WebSession {
    var entries: map<string, SessionValue>

    constructor (entries: map<string, SessionValue>)
      ensures this.entries == entries
    {
      this.entries := entries;
    }

    /** `request.session.get("user_id")` when it holds an integer. */
    function SessionUser(): (r: Option<int>)
      reads this
      ensures r.Some? <==> "user_id" in entries && entries["user_id"].SInt?
      ensures r.Some? ==> entries["user_id"] == SInt(r.value)
    {
      if "user_id" in entries && entries["user_id"].SInt? then Some(entries["user_id"].i) else None
    }

    /** The logged-in user as the routes test it (`if not user_id`): an
        integer id other than 0. */
    function LoggedInUser(): (r: Option<int>)
      reads this
      ensures r.Some? <==> SessionUser().Some? && SessionUser().value != 0
      ensures r.Some? ==> r == SessionUser()
    {
      match SessionUser()
      case Some(id) => if id != 0 then Some(id) else None
      case None => None
    }
  }
}
