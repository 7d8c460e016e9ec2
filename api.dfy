/**
 * The API server's routes (api/src/index.ts): the endpoint listing at "/", the authorization
 * check at "/auth" and session issuance at "/session". The identity provider is a fake
 * `Provider` whose answers are fixed functions of the arguments and which records every call;
 * the framework's reply object is `Reply`, which records every response sent.
 */
module Api {
  import opened Wrappers
  import opened Text
  import opened Bearer
  import opened Http

  /** What the provider returns on a successful verification; not interpreted here. */
  datatype Identity = Identity(uid: string, claims: map<string, string>)

  /** What the provider throws; it is echoed to the client as it is. */
  datatype ProviderError = ProviderError(code: string, message: string)

  type Outcome<T> = Result<T, ProviderError>

  /** One call into the provider, with its arguments. */
  datatype Call =
    | VerifiedSessionCookie(cookie: string)
    | VerifiedIdToken(token: string)
    | CreatedSessionCookie(token: string, expiresIn: int)

  /** An entry of the "/" listing; `verb` (the `method` key) is absent for the GET routes. */
  datatype Endpoint = Endpoint(url: string, verb: Option<string>)

  /** The JSON bodies the routes send. */
  datatype Body =
    | Listing(status: string, endpoints: seq<Endpoint>)
    | AuthReport(user: Option<Identity>, cookies: map<string, string>, headers: map<string, string>)
    | Failure(error: ProviderError)
    | BadRequest(code: int, message: string)
    | SessionIssued(user: Option<Identity>, customToken: Option<string>, idToken: string, session: string)

  datatype Response = Response(status: int, body: Body)

  /** The provider calls a request causes, in order, and the one response it gets. */
  datatype Exchange = Exchange(calls: seq<Call>, response: Response)

  /** An inbound request: its headers and its `cookie` header as `cookie.parse` reads it. */
  datatype Request = Request(headers: map<string, string>, cookies: map<string, string>)

  /** Two weeks in milliseconds, the lifetime asked for every session cookie. */
  const MaxCookieExpiry: int := 2 * 604800000

  const MissingHeaderMessage: string := "Bad Request: missing Authorization header"

  /** The routes of the "/" listing, in order. */
  const Routes: seq<string> := ["", "docker", "auth", "logout", "session"]

  function AuthHeader(req: Request): string
  {
    Header(req.headers, "authorization")
  }

  function SessionCookie(req: Request): Option<string>
  {
    Cookie(req.cookies, "session")
  }

  // ---------------------------------------------------------------------------------------
  // GET /

  /** `${host}` in a template literal: an unset host prints as "undefined". */
  function HostText(host: Option<string>): string
  {
    if host.Some? then host.value else "undefined"
  }

  function Origin(host: Option<string>): string
  {
    "https://" + HostText(host) + "/"
  }

  /**
   * The listed endpoints: one per route, each an absolute https URL on the configured host,
   * marked "post" exactly for the logout and session routes.
   */
  function Endpoints(host: Option<string>): (r: seq<Endpoint>)
    ensures |r| == |Routes|
    ensures forall i :: 0 <= i < |r| ==> r[i].url == Origin(host) + Routes[i]
    ensures forall i :: 0 <= i < |r| ==>
      (r[i].verb == Some("post") <==> Routes[i] == "logout" || Routes[i] == "session")
    ensures forall i :: 0 <= i < |r| ==> r[i].verb == None || r[i].verb == Some("post")
  {
    var origin := Origin(host);
    [ Endpoint(origin, None),
      Endpoint(origin + "docker", None),
      Endpoint(origin + "auth", None),
      Endpoint(origin + "logout", Some("post")),
      Endpoint(origin + "session", Some("post")) ]
  }

  /** The "/" handler's answer: status "ok" and the listing, sent with the default 200. */
  function Index(host: Option<string>): (r: Response)
    ensures r.status == 200 && r.body == Listing("ok", Endpoints(host))
    ensures |r.body.endpoints| == 5
  {
    Response(200, Listing("ok", Endpoints(host)))
  }

  /** No two listed endpoints share a URL. */
  lemma EndpointUrlsDistinct(host: Option<string>)
    ensures forall i, j :: 0 <= i < j < |Endpoints(host)| ==> Endpoints(host)[i].url != Endpoints(host)[j].url
  {
    var r := Endpoints(host);
    var origin := Origin(host);
    forall i, j | 0 <= i < j < |r| ensures r[i].url != r[j].url {
      assert r[i].url[|origin|..] == Routes[i];
      assert r[j].url[|origin|..] == Routes[j];
    }
  }

  // ---------------------------------------------------------------------------------------
  // GET /auth

  /** The identity the chosen verification call returned, or what it threw. */
  function Verification(c: Call, sessionVerdict: string -> Outcome<Identity>,
                        tokenVerdict: string -> Outcome<Identity>): Outcome<Identity>
    requires !c.CreatedSessionCookie?
  {
    match c
    case VerifiedSessionCookie(cookie) => sessionVerdict(cookie)
    case VerifiedIdToken(token) => tokenVerdict(token)
  }

  /** The end of the try block: a throw is answered 401 with the error, an identity 200 with a report. */
  function Settle(req: Request, verdict: Outcome<Identity>): Response
  {
    match verdict
    case Err(e) => Response(401, Failure(e))
    case Ok(user) => Response(200, AuthReport(Some(user), req.cookies, req.headers))
  }

  /**
   * What GET /auth does with a request. A truthy session cookie is verified and nothing else
   * is; otherwise a bearer token is verified; otherwise nothing is called and the answer is
   * 401 with no user. One verification at most, and its outcome alone decides the response:
   * a throw is never followed by a try with the other credential.
   */
  function AuthExchange(req: Request, sessionVerdict: string -> Outcome<Identity>,
                        tokenVerdict: string -> Outcome<Identity>): (x: Exchange)
    ensures Truthy(SessionCookie(req)) ==>
      x.calls == [VerifiedSessionCookie(SessionCookie(req).value)]
    ensures !Truthy(SessionCookie(req)) && ExtractBearer(AuthHeader(req)).Some? ==>
      x.calls == [VerifiedIdToken(ExtractBearer(AuthHeader(req)).value)]
    ensures !Truthy(SessionCookie(req)) && ExtractBearer(AuthHeader(req)).None? ==>
      x.calls == [] && x.response == Response(401, AuthReport(None, req.cookies, req.headers))
    ensures |x.calls| <= 1
    ensures |x.calls| == 1 ==>
      (!x.calls[0].CreatedSessionCookie? &&
       x.response == Settle(req, Verification(x.calls[0], sessionVerdict, tokenVerdict)))
    ensures x.response.status == 200 || x.response.status == 401
    ensures x.response.status == 200 <==>
      |x.calls| == 1 && Verification(x.calls[0], sessionVerdict, tokenVerdict).Ok?
  {
    var session := SessionCookie(req);
    if Truthy(session) then
      Exchange([VerifiedSessionCookie(session.value)], Settle(req, sessionVerdict(session.value)))
    else match ExtractBearer(AuthHeader(req))
      case Some(token) => Exchange([VerifiedIdToken(token)], Settle(req, tokenVerdict(token)))
      case None => Exchange([], Response(401, AuthReport(None, req.cookies, req.headers)))
  }

  /**
   * With a truthy session cookie the authorization header makes no difference to which
   * provider calls are made or to the status: the bearer path is not consulted.
   */
  lemma SessionCookieMasksHeader(cookies: map<string, string>, h1: map<string, string>, h2: map<string, string>,
                                 sessionVerdict: string -> Outcome<Identity>, tokenVerdict: string -> Outcome<Identity>)
    requires Truthy(Cookie(cookies, "session"))
    ensures AuthExchange(Request(h1, cookies), sessionVerdict, tokenVerdict).calls
         == AuthExchange(Request(h2, cookies), sessionVerdict, tokenVerdict).calls
    ensures AuthExchange(Request(h1, cookies), sessionVerdict, tokenVerdict).response.status
         == AuthExchange(Request(h2, cookies), sessionVerdict, tokenVerdict).response.status
  {
  }

  // ---------------------------------------------------------------------------------------
  // POST /session

  /**
   * What POST /session does with a request. Without a truthy bearer token the answer is a
   * fixed 400 and nothing is called. Otherwise the token is verified and, only if that
   * succeeds, a two-week session cookie is minted from the same token; either throw is
   * answered 401 with the error, and success 200 with the identity, the token and the cookie.
   */
  function SessionExchange(req: Request, tokenVerdict: string -> Outcome<Identity>,
                           mintVerdict: (string, int) -> Outcome<string>): (x: Exchange)
    ensures ExtractBearer(AuthHeader(req)).None? <==> x.response.status == 400
    ensures ExtractBearer(AuthHeader(req)).None? ==>
      x == Exchange([], Response(400, BadRequest(400, "Bad Request: missing Authorization header")))
    ensures ExtractBearer(AuthHeader(req)).Some? ==>
      var token := ExtractBearer(AuthHeader(req)).value;
      1 <= |x.calls| && x.calls[0] == VerifiedIdToken(token) &&
      (tokenVerdict(token).Err? ==>
         x == Exchange([VerifiedIdToken(token)], Response(401, Failure(tokenVerdict(token).error)))) &&
      (tokenVerdict(token).Ok? ==>
         x.calls == [VerifiedIdToken(token), CreatedSessionCookie(token, 1209600000)]) &&
      (tokenVerdict(token).Ok? && mintVerdict(token, 1209600000).Err? ==>
         x.response == Response(401, Failure(mintVerdict(token, 1209600000).error)))
    ensures forall i :: 0 <= i < |x.calls| && x.calls[i].CreatedSessionCookie? ==>
      i == 1 && x.calls[0] == VerifiedIdToken(x.calls[i].token) &&
      tokenVerdict(x.calls[i].token).Ok? && x.calls[i].expiresIn == 1209600000
    ensures x.response.status == 200 || x.response.status == 400 || x.response.status == 401
    ensures x.response.status == 200 <==>
      ExtractBearer(AuthHeader(req)).Some? &&
      tokenVerdict(ExtractBearer(AuthHeader(req)).value).Ok? &&
      mintVerdict(ExtractBearer(AuthHeader(req)).value, 1209600000).Ok?
    ensures x.response.status == 200 ==>
      var token := ExtractBearer(AuthHeader(req)).value;
      x.response.body == SessionIssued(Some(tokenVerdict(token).value), None, token,
                                       mintVerdict(token, 1209600000).value)
  {
    match ExtractBearer(AuthHeader(req))
    case None => Exchange([], Response(400, BadRequest(400, MissingHeaderMessage)))
    case Some(token) =>
      match tokenVerdict(token)
      case Err(e) => Exchange([VerifiedIdToken(token)], Response(401, Failure(e)))
      case Ok(user) =>
        var calls := [VerifiedIdToken(token), CreatedSessionCookie(token, MaxCookieExpiry)];
        match mintVerdict(token, MaxCookieExpiry)
        case Err(e) => Exchange(calls, Response(401, Failure(e)))
        case Ok(session) => Exchange(calls, Response(200, SessionIssued(Some(user), None, token, session)))
  }

  /**
   * Without a session cookie, /auth and /session read the same token from the same header:
   * /auth consults exactly the verification /session starts with, and it answers 200
   * exactly when that verification succeeds.
   */
  lemma AuthAgreesWithSession(req: Request, tokenVerdict: string -> Outcome<Identity>,
                              sessionVerdict: string -> Outcome<Identity>,
                              mintVerdict: (string, int) -> Outcome<string>)
    requires !Truthy(SessionCookie(req))
    requires ExtractBearer(AuthHeader(req)).Some?
    ensures SessionExchange(req, tokenVerdict, mintVerdict).response.status != 400
    ensures AuthExchange(req, sessionVerdict, tokenVerdict).calls
         == SessionExchange(req, tokenVerdict, mintVerdict).calls[..1]
    ensures AuthExchange(req, sessionVerdict, tokenVerdict).response.status == 200 <==>
      tokenVerdict(ExtractBearer(AuthHeader(req)).value).Ok?
  {
  }

  // ---------------------------------------------------------------------------------------
  // The collaborators the handlers act on

  /** The identity provider, with fixed answers and a record of the calls made to it. */
  class Provider {
    const sessionVerdict: string -> Outcome<Identity>
    const tokenVerdict: string -> Outcome<Identity>
    const mintVerdict: (string, int) -> Outcome<string>
    var calls: seq<Call>

    constructor (sessionVerdict: string -> Outcome<Identity>, tokenVerdict: string -> Outcome<Identity>,
                 mintVerdict: (string, int) -> Outcome<string>)
      ensures this.sessionVerdict == sessionVerdict && this.tokenVerdict == tokenVerdict
      ensures this.mintVerdict == mintVerdict && calls == []
    {
      this.sessionVerdict := sessionVerdict;
      this.tokenVerdict := tokenVerdict;
      this.mintVerdict := mintVerdict;
      calls := [];
    }

    /** `auth.verifySessionCookie(cookie)`. */
    method VerifySessionCookie(cookie: string) returns (r: Outcome<Identity>)
      modifies this
      ensures calls == old(calls) + [VerifiedSessionCookie(cookie)]
      ensures r == sessionVerdict(cookie)
    {
      calls := calls + [VerifiedSessionCookie(cookie)];
      r := sessionVerdict(cookie);
    }

    /** `auth.verifyIdToken(token)`. */
    method VerifyIdToken(token: string) returns (r: Outcome<Identity>)
      modifies this
      ensures calls == old(calls) + [VerifiedIdToken(token)]
      ensures r == tokenVerdict(token)
    {
      calls := calls + [VerifiedIdToken(token)];
      r := tokenVerdict(token);
    }

    /** `auth.createSessionCookie(token, { expiresIn })`. */
    method CreateSessionCookie(token: string, expiresIn: int) returns (r: Outcome<string>)
      modifies this
      ensures calls == old(calls) + [CreatedSessionCookie(token, expiresIn)]
      ensures r == mintVerdict(token, expiresIn)
    {
      calls := calls + [CreatedSessionCookie(token, expiresIn)];
      r := mintVerdict(token, expiresIn);
    }
  }

  /** The framework's reply: `code` sets the status, `send` sends a body with it. */
  class Reply {
    var status: int
    var sent: seq<Response>

    constructor ()
      ensures status == 200 && sent == []
    {
      status := 200;
      sent := [];
    }

    method Code(status: int)
      modifies this
      ensures this.status == status && sent == old(sent)
    {
      this.status := status;
    }

    method Send(body: Body)
      modifies this
      ensures status == old(status) && sent == old(sent) + [Response(status, body)]
    {
      sent := sent + [Response(status, body)];
    }
  }

  // ---------------------------------------------------------------------------------------
  // The handlers

  /** GET /auth, step by step; it makes exactly the calls and sends exactly the one response of `AuthExchange`. */
  method HandleAuth(req: Request, provider: Provider, reply: Reply)
    modifies provider, reply
    ensures var x := AuthExchange(req, provider.sessionVerdict, provider.tokenVerdict);
      provider.calls == old(provider.calls) + x.calls &&
      reply.sent == old(reply.sent) + [x.response] && reply.status == x.response.status
  {
    var cookies := req.cookies;
    var authHeader := Header(req.headers, "authorization");
    var idToken: Option<string> := None;
    var user: Option<Identity> := None;
    if MentionsBearer(authHeader) {
      idToken := SecondPiece(authHeader);
    }
    var authorized := false;
    var session := Cookie(cookies, "session");
    if Truthy(session) {
      var verdict := provider.VerifySessionCookie(session.value);
      if verdict.Err? {
        reply.Code(401);
        reply.Send(Failure(verdict.error));
        return;
      }
      user := Some(verdict.value);
      authorized := user.Some?;
    } else if Truthy(idToken) {
      var verdict := provider.VerifyIdToken(idToken.value);
      if verdict.Err? {
        reply.Code(401);
        reply.Send(Failure(verdict.error));
        return;
      }
      user := Some(verdict.value);
      authorized := user.Some?;
    }
    if authorized {
      reply.Code(200);
      reply.Send(AuthReport(user, cookies, req.headers));
    } else {
      reply.Code(401);
      reply.Send(AuthReport(user, cookies, req.headers));
    }
  }

  /** POST /session, step by step; it makes exactly the calls and sends exactly the one response of `SessionExchange`. */
  method HandleSession(req: Request, provider: Provider, reply: Reply)
    modifies provider, reply
    ensures var x := SessionExchange(req, provider.tokenVerdict, provider.mintVerdict);
      provider.calls == old(provider.calls) + x.calls &&
      reply.sent == old(reply.sent) + [x.response] && reply.status == x.response.status
  {
    var idToken: Option<string> := None;
    var customToken: Option<string> := None;
    var authHeader := Header(req.headers, "authorization");
    if MentionsBearer(authHeader) {
      idToken := SecondPiece(authHeader);
    }
    if !Truthy(idToken) {
      reply.Code(400);
      reply.Send(BadRequest(400, MissingHeaderMessage));
      return;
    }
    var user := provider.VerifyIdToken(idToken.value);
    if user.Err? {
      reply.Code(401);
      reply.Send(Failure(user.error));
      return;
    }
    var session := provider.CreateSessionCookie(idToken.value, MaxCookieExpiry);
    if session.Err? {
      reply.Code(401);
      reply.Send(Failure(session.error));
      return;
    }
    reply.Code(200);
    reply.Send(SessionIssued(Some(user.value), customToken, idToken.value, session.value));
  }
}
