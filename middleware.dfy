/** The backend's authentication middleware: where the token comes from, and
    how each way of failing becomes a status and a message. Token
    verification and the user query are given as functions. */
module AuthMiddleware {
  import opened Wrappers
  import opened JsText

  /** The columns the middleware selects from `users`. */
  datatype DbUser = DbUser(id: string, email: string, username: string, firstName: string, lastName: string, role: string)

  /** What `jwt.verify` does with a token: it decodes the user id, or throws
      an error with the given `name`. */
  datatype Verdict = Decoded(userId: string) | VerifyThrew(name: string)

  /** What the user query does: it returns rows, or throws. */
  datatype Query = Rows(users: seq<DbUser>) | QueryThrew(name: string)

  /** How the middleware ended: it let the request through with the user, or
      answered with a status and message. */
  datatype Outcome = Pass(user: DbUser) | Deny(status: int, message: string)

  const NoToken := "Access denied. Please login to continue."
  const UserGone := "User no longer exists. Please login again."
  const InvalidToken := "Invalid token. Please login again."
  const SessionExpired := "Session expired. Please login again."
  const AuthFailed := "Authentication failed. Please try again."

  /** `req.headers.authorization?.split(' ')[1] || req.cookies?.token`: the
      second space-separated field of the header when there is one and it is
      not empty, otherwise the cookie. `None` and `Some("")` both mean no token. */
  function ExtractToken(header: Option<string>, cookie: Option<string>): (t: Option<string>)
    ensures header.Some? && |Split(header.value, ' ')| >= 2 && Split(header.value, ' ')[1] != "" ==>
      t == Some(Split(header.value, ' ')[1])
    ensures !(header.Some? && |Split(header.value, ' ')| >= 2 && Split(header.value, ' ')[1] != "") ==>
      t == cookie
  {
    if header.Some? then
      var fields := Split(header.value, ' ');
      if |fields| >= 2 && fields[1] != "" then Some(fields[1]) else cookie
    else cookie
  }

  /** A `Bearer` header carrying a token without spaces yields that token,
      whatever the cookie says. */
  lemma BearerToken(token: string, cookie: Option<string>)
    requires token != "" && ' ' !in token
    ensures ExtractToken(Some("Bearer " + token), cookie) == Some(token)
  {
    SplitField("Bearer", token, ' ');
    SplitNoSep(token, ' ');
    assert "Bearer " + token == "Bearer" + [' '] + token;
  }

  /** A header with no space in it falls back to the cookie. */
  lemma HeaderWithoutSpace(header: string, cookie: Option<string>)
    requires ' ' !in header
    ensures ExtractToken(Some(header), cookie) == cookie
  {
    SplitNoSep(header, ' ');
  }

  /** The `catch` block: the error's name decides the answer. */
  function Classify(errorName: string): (r: Outcome)
    ensures r.Deny?
    ensures r.status == 401 <==> errorName == "JsonWebTokenError" || errorName == "TokenExpiredError"
    ensures r.status != 401 ==> r == Deny(500, AuthFailed)
    ensures errorName == "JsonWebTokenError" ==> r.message == InvalidToken
    ensures errorName == "TokenExpiredError" ==> r.message == SessionExpired
  {
    if errorName == "JsonWebTokenError" then Deny(401, InvalidToken)
    else if errorName == "TokenExpiredError" then Deny(401, SessionExpired)
    else Deny(500, AuthFailed)
  }

  /** The whole middleware as a function of what the request carries and what
      verification and the query do. */
  function Authenticate(header: Option<string>, cookie: Option<string>,
                        verify: string -> Verdict, query: string -> Query): (r: Outcome)
  {
    var token := ExtractToken(header, cookie);
    if token.None? || token.value == "" then Deny(401, NoToken)
    else match verify(token.value)
      case VerifyThrew(name) => Classify(name)
      case Decoded(id) => match query(id)
        case QueryThrew(name) => Classify(name)
        case Rows(users) => if |users| == 0 then Deny(401, UserGone) else Pass(users[0])
  }

  /** A request passes exactly when it carries a token that verifies and whose
      user still exists, and it then carries the first row of that user;
      every refusal is a 401 except errors the middleware does not know, which
      are a 500. */
  lemma AuthenticateOutcomes(header: Option<string>, cookie: Option<string>,
                             verify: string -> Verdict, query: string -> Query)
    ensures var r := Authenticate(header, cookie, verify, query);
      var token := ExtractToken(header, cookie);
      && (r.Pass? <==>
          token.Some? && token.value != "" && verify(token.value).Decoded?
          && query(verify(token.value).userId).Rows? && |query(verify(token.value).userId).users| > 0)
      && (r.Pass? ==> r.user == query(verify(token.value).userId).users[0])
      && (token.None? || token.value == "" ==> r == Deny(401, NoToken))
      && (r.Deny? ==> r.status == 401 || r == Deny(500, AuthFailed))
  {
  }

  /** An expired token is refused with 401 before the user is looked up. */
  lemma ExpiredTokenRefused(header: Option<string>, cookie: Option<string>,
                            verify: string -> Verdict, query: string -> Query)
    requires ExtractToken(header, cookie).Some? && ExtractToken(header, cookie).value != ""
    requires verify(ExtractToken(header, cookie).value) == VerifyThrew("TokenExpiredError")
    ensures Authenticate(header, cookie, verify, query) == Deny(401, SessionExpired)
  {
  }

  /** One request passing through the middleware: `req.user`, the response
      sent, and whether `next` was called. */
  class Exchange {
    var user: Option<DbUser>
    var response: Option<(int, string)>
    var nextCalled: bool

    constructor()
      ensures user == None && response == None && !nextCalled
    {
      user := None;
      response := None;
      nextCalled := false;
    }

    /** `authMiddleware`: either it answers and does not call `next`, or it
        attaches the user and then calls `next`. */
    method Handle(header: Option<string>, cookie: Option<string>,
                  verify: string -> Verdict, query: string -> Query)
      requires user == None && response == None && !nextCalled
      modifies this
      ensures nextCalled <==> Authenticate(header, cookie, verify, query).Pass?
      ensures nextCalled ==> user == Some(Authenticate(header, cookie, verify, query).user) && response == None
      ensures !nextCalled ==>
        && user == None
        && response == Some((Authenticate(header, cookie, verify, query).status,
                             Authenticate(header, cookie, verify, query).message))
    {
      var token := ExtractToken(header, cookie);
      if token.None? || token.value == "" {
        response := Some((401, NoToken));
        return;
      }
      var decoded := verify(token.value);
      if decoded.VerifyThrew? {
        var c := Classify(decoded.name);
        response := Some((c.status, c.message));
        return;
      }
      var rows := query(decoded.userId);
      if rows.QueryThrew? {
        var c := Classify(rows.name);
        response := Some((c.status, c.message));
        return;
      }
      if |rows.users| == 0 {
        response := Some((401, UserGone));
        return;
      }
      user := Some(rows.users[0]);
      Next();
    }

    /** Hands the request on; only ever called once the user is attached. */
    method Next()
      requires user.Some?
      modifies this
      ensures nextCalled && user == old(user) && response == old(response)
    {
      nextCalled := true;
    }
  }
}
