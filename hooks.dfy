/**
 * The front end's request hook (app/src/hooks.ts): it gives each browser an anonymous
 * visitor id kept in a `userid` cookie, copies a bearer token into the request's locals,
 * applies the `_method` override and wraps the page render.
 */
module Hooks {
  import opened Wrappers
  import opened Text
  import opened Bearer
  import opened Http

  /** The `set-cookie` value that hands a new visitor its id: no Secure flag, no expiry. */
  function SetCookieValue(userid: string): string
  {
    "userid=" + userid + "; Path=/; HttpOnly"
  }

  /** The visitor id a request gets, and the `set-cookie` value its response gets, if any. */
  datatype Visit = Visit(userid: string, setCookie: Option<string>)

  /**
   * `cookies.userid || uuid()` and the first-visit check after render: a truthy `userid`
   * cookie is reused and nothing is set; otherwise the fresh id is taken and handed back
   * in a cookie.
   */
  function AssignVisitor(cookies: map<string, string>, freshId: string): (v: Visit)
    ensures Truthy(Cookie(cookies, "userid")) ==> v.userid == cookies["userid"]
    ensures !Truthy(Cookie(cookies, "userid")) ==> v.userid == freshId
    ensures v.setCookie.Some? <==> !Truthy(Cookie(cookies, "userid"))
    ensures v.setCookie.Some? ==> v.setCookie.value == SetCookieValue(v.userid)
  {
    var incoming := Cookie(cookies, "userid");
    var userid := if Truthy(incoming) then incoming.value else freshId;
    Visit(userid, if Truthy(incoming) then None else Some(SetCookieValue(userid)))
  }

  /**
   * A browser that sends back the id it was handed keeps it: the second request reuses the
   * same id, ignores the new fresh id, and its response sets no cookie.
   */
  lemma ReturningVisitor(first: map<string, string>, freshId: string,
                         later: map<string, string>, laterId: string)
    requires !Truthy(Cookie(first, "userid")) && freshId != ""
    requires Cookie(later, "userid") == Some(AssignVisitor(first, freshId).userid)
    ensures AssignVisitor(first, freshId) == Visit(freshId, Some(SetCookieValue(freshId)))
    ensures AssignVisitor(later, laterId) == Visit(freshId, None)
  {
  }

  /**
   * The `set-cookie` value reads back, split on ';', as the `userid=<id>` pair followed by
   * exactly the two attributes `Path=/` and `HttpOnly`, whenever the id has no ';'.
   */
  lemma SetCookieAttributes(userid: string)
    requires ';' !in userid
    ensures Split(SetCookieValue(userid), ';') == ["userid=" + userid, " Path=/", " HttpOnly"]
  {
    var pieces := ["userid=" + userid, " Path=/", " HttpOnly"];
    assert ';' !in "userid=" + userid;
    assert pieces[1..] == [" Path=/", " HttpOnly"];
    assert Join([" Path=/", " HttpOnly"], ';') == " Path=/" + [';'] + " HttpOnly";
    assert Join(pieces, ';') == "userid=" + userid + [';'] + (" Path=/" + [';'] + " HttpOnly");
    assert Join(pieces, ';') == SetCookieValue(userid);
    SplitJoin(pieces, ';');
  }

  /** The request the hook works on: headers, parsed cookies and query are fixed; the method and locals change. */
  class HookRequest {
    /** `request.method`, renamed because `method` is a Dafny keyword. */
    var verb: string
    const headers: map<string, string>
    const cookies: map<string, string>
    /** `request.query`, each name with the first value `get` returns. */
    const query: map<string, string>
    /** `request.locals.userid`. */
    var userid: Option<string>
    /** `request.locals.idToken`. */
    var idToken: Option<string>

    constructor (verb: string, headers: map<string, string>, cookies: map<string, string>, query: map<string, string>)
      ensures this.verb == verb && this.headers == headers && this.cookies == cookies && this.query == query
      ensures userid == None && idToken == None
    {
      this.verb := verb;
      this.headers := headers;
      this.cookies := cookies;
      this.query := query;
      userid := None;
      idToken := None;
    }
  }

  /** What the page render sees of the request. */
  datatype RenderedRequest = RenderedRequest(verb: string, userid: Option<string>, idToken: Option<string>)

  function View(request: HookRequest): RenderedRequest
    reads request
  {
    RenderedRequest(request.verb, request.userid, request.idToken)
  }

  /** A rendered page response, whose headers the hook may add to. */
  class Page {
    var status: int
    var headers: map<string, string>
    var body: string

    constructor (status: int, headers: map<string, string>, body: string)
      ensures this.status == status && this.headers == headers && this.body == body
    {
      this.status := status;
      this.headers := headers;
      this.body := body;
    }
  }

  /** The framework's `render`: it answers with its page and records what it was asked to render. */
  class Renderer {
    const page: Page
    var seen: seq<RenderedRequest>

    constructor (page: Page)
      ensures this.page == page && seen == []
    {
      this.page := page;
      seen := [];
    }

    method Render(request: HookRequest) returns (response: Page)
      modifies this
      ensures seen == old(seen) + [View(request)]
      ensures response == page
    {
      seen := seen + [View(request)];
      response := page;
    }
  }

  /**
   * The hook `handle`. `freshId` is the value `uuid()` would give. The request leaves with its
   * visitor id, the bearer piece of its header when the header mentions bearer (its old
   * token otherwise) and the override method; render is called once with that request; the
   * page it returns goes back with one `set-cookie` header more exactly on a first visit.
   */
  method Handle(request: HookRequest, renderer: Renderer, freshId: string) returns (response: Page)
    modifies request, renderer, renderer.page
    ensures request.userid == Some(AssignVisitor(request.cookies, freshId).userid)
    ensures var auth := Header(request.headers, "authorization");
      request.idToken == if MentionsBearer(auth) then SecondPiece(auth) else old(request.idToken)
    ensures request.verb ==
      if "_method" in request.query then Upper(request.query["_method"]) else old(request.verb)
    ensures renderer.seen == old(renderer.seen) + [View(request)]
    ensures response == renderer.page
    ensures response.status == old(renderer.page.status) && response.body == old(renderer.page.body)
    ensures response.headers ==
      match AssignVisitor(request.cookies, freshId).setCookie
      case None => old(renderer.page.headers)
      case Some(value) => old(renderer.page.headers)["set-cookie" := value]
  {
    var cookies := request.cookies;
    var incoming := Cookie(cookies, "userid");
    request.userid := Some(if Truthy(incoming) then incoming.value else freshId);
    var authHeader := Header(request.headers, "authorization");
    if MentionsBearer(authHeader) {
      request.idToken := SecondPiece(authHeader);
    }

    if "_method" in request.query {
      request.verb := Upper(request.query["_method"]);
    }

    response := renderer.Render(request);

    if !Truthy(incoming) {
      response.headers := response.headers["set-cookie" := SetCookieValue(request.userid.value)];
    }
  }
}
