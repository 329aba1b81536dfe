/** newservice/service/middleware.py: `UserHeaderMiddleware`, the gate that
    every request passes before a view. Header names are matched exactly here. */
module Middleware {
  import opened Wrappers

  const EXCLUDED_PATHS: seq<string> := ["/service/"]
  const USER_ID_HEADER := "X-User-ID"
  const ROLE_HEADER := "X-User-Role"
  const DEFAULT_ROLE := "user"
  const MISSING_USER_ID := "Header X-User-ID em falta"

  /** A JSON error produced by the middleware itself, or what the view returned. */
  datatype Response = JsonDetail(status: int, detail: string) | ViewResponse(content: string)

  /** What the middleware does with a request. */
  datatype Gate = PassThrough | Unauthorized | Attach(userId: string, role: string)

  function Decide(path: string, headers: map<string, string>): (g: Gate)
    ensures g.PassThrough? <==> path in EXCLUDED_PATHS
    ensures g.Unauthorized? <==>
      path !in EXCLUDED_PATHS && (USER_ID_HEADER !in headers || headers[USER_ID_HEADER] == "")
    ensures g.Attach? ==>
      && USER_ID_HEADER in headers && g.userId == headers[USER_ID_HEADER] && g.userId != ""
      && g.role == (if ROLE_HEADER in headers then headers[ROLE_HEADER] else DEFAULT_ROLE)
  {
    if path in EXCLUDED_PATHS then PassThrough
    else if USER_ID_HEADER !in headers || headers[USER_ID_HEADER] == "" then Unauthorized
    else Attach(headers[USER_ID_HEADER], if ROLE_HEADER in headers then headers[ROLE_HEADER] else DEFAULT_ROLE)
  }

  /** Exclusion is exact membership: a path below an excluded one is checked. */
  lemma ExclusionIsExactMatch()
    ensures Decide("/service/", map[]) == PassThrough
    ensures Decide("/service/teste/", map[]) == Unauthorized
  {
  }

  /** An incoming request; `userId` and `role` are the attributes the middleware
      attaches (None while unset). */
  class Request {
    const path: string
    const headers: map<string, string>
    var userId: Option<string>
    var role: Option<string>

    constructor (path: string, headers: map<string, string>)
      ensures this.path == path && this.headers == headers
      ensures userId == None && role == None
    {
      this.path := path;
      this.headers := headers;
      userId := None;
      role := None;
    }
  }

  /** The wrapped `get_response`: answers `reply` and records, per call, the
      user id and role the request carried at that moment. */
  class Handler {
    var seen: seq<(Option<string>, Option<string>)>
    const reply: Response

    constructor (reply: Response)
      ensures seen == [] && this.reply == reply
    {
      seen := [];
      this.reply := reply;
    }

    method Handle(request: Request) returns (response: Response)
      modifies this
      ensures seen == old(seen) + [(request.userId, request.role)]
      ensures response == reply
    {
      seen := seen + [(request.userId, request.role)];
      response := reply;
    }
  }

  class UserHeaderMiddleware {
    const getResponse: Handler

    constructor (getResponse: Handler)
      ensures this.getResponse == getResponse
    {
      this.getResponse := getResponse;
    }

    /** `__call__(request)` */
    method Call(request: Request) returns (response: Response)
      modifies request`userId, request`role, getResponse
      ensures Decide(request.path, request.headers).PassThrough? ==>
        && request.userId == old(request.userId) && request.role == old(request.role)
        && getResponse.seen == old(getResponse.seen) + [(old(request.userId), old(request.role))]
        && response == getResponse.reply
      ensures Decide(request.path, request.headers).Unauthorized? ==>
        && request.userId == old(request.userId) && request.role == old(request.role)
        && getResponse.seen == old(getResponse.seen)
        && response == JsonDetail(401, MISSING_USER_ID)
      ensures Decide(request.path, request.headers).Attach? ==>
        var g := Decide(request.path, request.headers);
        && request.userId == Some(g.userId) && request.role == Some(g.role)
        && getResponse.seen == old(getResponse.seen) + [(Some(g.userId), Some(g.role))]
        && response == getResponse.reply
    {
      var gate := Decide(request.path, request.headers);
      match gate
      case PassThrough =>
        response := getResponse.Handle(request);
      case Unauthorized =>
        response := JsonDetail(401, MISSING_USER_ID);
      case Attach(userId, role) =>
        request.userId := Some(userId);
        request.role := Some(role);
        response := getResponse.Handle(request);
    }
  }
}
