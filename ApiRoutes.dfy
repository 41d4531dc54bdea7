/**
 * The REST routes of the node template (src/routes/api.js), mounted under
 * `/api`. Each handler is a function from the request's parameters, and the
 * clock and environment values it reads, to the status code and JSON body
 * it sends.
 */
module ApiRoutes {
  import opened Wrappers
  import opened JsText
  import opened JsNumber
  import opened Json
  import opened Email

  /** What a handler sends: the status code and the JSON body. */
  datatype Response = Response(status: nat, body: Json)

  /**
   * What the handlers read besides the request: `process.env.npm_package_version`,
   * `new Date().toISOString()` and `Date.now()`.
   */
  datatype Context = Context(envVersion: Option<string>, nowIso: string, nowMillis: int)

  /** `{ success: false, error }` with status 400. */
  function BadRequest(error: string): Response
  {
    Response(400, JObj([Member("success", JBool(false)), Member("error", JStr(error))]))
  }

  const MissingFields: string := "姓名和邮箱是必填字段"
  const BadEmail: string := "邮箱格式不正确"
  const BadUserId: string := "无效的用户ID"

  /** `GET /api/health`: the version falls back to `1.0.0` when the variable is unset or empty. */
  function Health(ctx: Context): (r: Response)
    ensures r.status == 200
    ensures Field(r.body, "status") == Some(JStr("OK"))
    ensures Field(r.body, "timestamp") == Some(JStr(ctx.nowIso))
    ensures var v := Field(r.body, "version");
            v.Some? && v.value.JStr? && v.value.s != ""
            && (v.value.s == "1.0.0" <==> ctx.envVersion.None? || ctx.envVersion.value in {"", "1.0.0"})
    ensures ctx.envVersion.Some? && ctx.envVersion.value != "" ==>
              Field(r.body, "version") == Some(JStr(ctx.envVersion.value))
    ensures Field(r.body, "message") == Some(JStr("API服务运行正常"))
  {
    var version := if ctx.envVersion.Some? && ctx.envVersion.value != "" then ctx.envVersion.value else "1.0.0";
    var ms := [Member("status", JStr("OK")), Member("message", JStr("API服务运行正常")),
               Member("timestamp", JStr(ctx.nowIso)), Member("version", JStr(version))];
    GetOfDistinct(ms, 0);
    GetOfDistinct(ms, 1);
    GetOfDistinct(ms, 2);
    GetOfDistinct(ms, 3);
    Response(200, JObj(ms))
  }

  /** A user record as the handlers build it. */
  datatype User = User(id: Json, name: string, email: string)

  function UserJson(u: User): Json
  {
    JObj([Member("id", u.id), Member("name", JStr(u.name)), Member("email", JStr(u.email))])
  }

  /** The fixed list `GET /api/users` serves. */
  const SampleUsers: seq<User> := [
    User(JNum(1), "张三", ExampleAddress("zhangsan")),
    User(JNum(2), "李四", ExampleAddress("lisi")),
    User(JNum(3), "王五", ExampleAddress("wangwu"))
  ]

  /** An address at the documentation domain `example.com`. */
  function ExampleAddress(local: string): string
  {
    local + "@example.com"
  }

  /** `GET /api/users`: every sample user, in order, and `count` equal to how many. */
  function GetUsers(): (r: Response)
    ensures r.status == 200
    ensures Field(r.body, "success") == Some(JBool(true))
    ensures var data := Field(r.body, "data");
            data.Some? && data.value.JArr?
            && Field(r.body, "count") == Some(JNum(|data.value.items|))
            && |data.value.items| == |SampleUsers|
            && forall i :: 0 <= i < |SampleUsers| ==> data.value.items[i] == UserJson(SampleUsers[i])
  {
    var data := seq(|SampleUsers|, i requires 0 <= i < |SampleUsers| => UserJson(SampleUsers[i]));
    var ms := [Member("success", JBool(true)), Member("data", JArr(data)), Member("count", JNum(|data|))];
    GetOfDistinct(ms, 0);
    GetOfDistinct(ms, 1);
    GetOfDistinct(ms, 2);
    Response(200, JObj(ms))
  }

  /** The sample users have distinct ids. */
  lemma SampleIdsDistinct()
    ensures forall i, j :: 0 <= i < j < |SampleUsers| ==> SampleUsers[i].id != SampleUsers[j].id
  {
  }

  /** The sample users' addresses pass the creation route's check. */
  lemma SampleEmailsValid()
    ensures forall i :: 0 <= i < |SampleUsers| ==> IsValidEmail(SampleUsers[i].email)
  {
    forall i | 0 <= i < |SampleUsers|
      ensures IsValidEmail(SampleUsers[i].email)
    {
      SampleEmailAt(i);
    }
  }

  lemma SampleEmailAt(i: nat)
    requires i < |SampleUsers|
    ensures IsValidEmail(SampleUsers[i].email)
  {
    if i == 0 {
      SampleEmailValid("zhangsan");
    } else if i == 1 {
      SampleEmailValid("lisi");
    } else {
      SampleEmailValid("wangwu");
    }
  }

  lemma SampleEmailValid(local: string)
    requires local != [] && forall k :: 0 <= k < |local| ==> 'a' <= local[k] <= 'z'
    ensures IsValidEmail(ExampleAddress(local))
  {
    LettersArePartChars(local);
    ExampleDomainValid(local);
  }

  /** `${userId}` and the JSON value of `userId` for the result of `parseInt`. */
  function IdText(n: JsInt): string
  {
    if n.NaN? then "NaN" else IntToString(n.value)
  }

  function IdJson(n: JsInt): Json
  {
    if n.NaN? then JNull else JNum(n.value)
  }

  /** The record `GET /api/users/:id` makes up for a parsed id. */
  function MadeUpUser(n: JsInt): User
  {
    User(IdJson(n), "用户" + IdText(n), "user" + IdText(n) + "@example.com")
  }

  /**
   * `GET /api/users/:id`: an id that `isNaN` rejects gives 400; any other id
   * is read with `parseInt` and a user record is made up from it.
   */
  function GetUser(id: string, ctx: Context): (r: Response)
    ensures r.status == 400 <==> !IsNumericString(id)
    ensures r.status == 400 ==> r == BadRequest(BadUserId)
    ensures r.status != 400 ==>
              var data := Field(r.body, "data");
              r.status == 200
              && Field(r.body, "success") == Some(JBool(true))
              && data.Some? && UserRecordFields(data.value, ParseInt(id), ctx.nowIso)
  {
    if !IsNumericString(id) then BadRequest(BadUserId)
    else Found(UserRecord(ParseInt(id), ctx.nowIso))
  }

  /** `{ success: true, data }` with status 200. */
  function Found(data: Json): (r: Response)
    ensures r.status == 200
    ensures Field(r.body, "success") == Some(JBool(true)) && Field(r.body, "data") == Some(data)
  {
    var ms := [Member("success", JBool(true)), Member("data", data)];
    GetOfDistinct(ms, 0);
    GetOfDistinct(ms, 1);
    Response(200, JObj(ms))
  }

  /** The fields of the made-up record: id, name and address from the parsed id, and the time. */
  ghost predicate UserRecordFields(v: Json, n: JsInt, nowIso: string)
  {
    Field(v, "id") == Some(IdJson(n))
    && Field(v, "name") == Some(JStr("用户" + IdText(n)))
    && Field(v, "email") == Some(JStr("user" + IdText(n) + "@example.com"))
    && Field(v, "createdAt") == Some(JStr(nowIso))
  }

  function UserRecord(n: JsInt, nowIso: string): (v: Json)
    ensures UserRecordFields(v, n, nowIso)
  {
    var u := MadeUpUser(n);
    var ms := [Member("id", u.id), Member("name", JStr(u.name)), Member("email", JStr(u.email)),
               Member("createdAt", JStr(nowIso))];
    GetOfDistinct(ms, 0);
    GetOfDistinct(ms, 1);
    GetOfDistinct(ms, 2);
    GetOfDistinct(ms, 3);
    JObj(ms)
  }

  /**
   * A canonical decimal id is served back unchanged: the record's id is its
   * value, and the name and address embed the id as written.
   */
  lemma GetUserOfDecimalId(d: string, ctx: Context)
    requires Canonical(d)
    ensures var r := GetUser(d, ctx);
            var data := Field(r.body, "data");
            r.status == 200 && data.Some?
            && Field(data.value, "id") == Some(JNum(DecimalValue(d)))
            && Field(data.value, "name") == Some(JStr("用户" + d))
            && Field(data.value, "email") == Some(JStr("user" + d + "@example.com"))
  {
    DigitsAreNumeric(d);
    NatToStringOfValue(d);
  }

  /** Every integer the client writes as `String` would print it is served under that id. */
  lemma GetUserOfIntegerId(n: int, ctx: Context)
    ensures var r := GetUser(IntToString(n), ctx);
            r.status == 200 && Field(Field(r.body, "data").value, "id") == Some(JNum(n))
  {
    ParseIntOfIntToString(n);
  }

  /** `isNaN` rejects trailing letters, although `parseInt` would read a number. */
  lemma TrailingLettersRejected(ctx: Context)
    ensures GetUser("12abc", ctx) == BadRequest(BadUserId)
  {
    TrailingLettersAreNaN();
  }

  /** A blank id passes `isNaN` (it reads as 0) but `parseInt` gives NaN: the record has id null. */
  lemma BlankIdGivesNaNUser(ctx: Context)
    ensures var r := GetUser(" ", ctx);
            r.status == 200
            && Field(Field(r.body, "data").value, "id") == Some(JNull)
            && Field(Field(r.body, "data").value, "name") == Some(JStr("用户NaN"))
  {
    assert IsJsSpace(' ');
    assert TrimStart(" ") == [];
    assert Trim(" ") == [];
    assert ParseInt(" ") == NaN;
    assert IsNumericString(" ");
    assert "用户" + IdText(NaN) == "用户NaN";
  }

  /** The characters of a printed id are digits or a minus sign: no space and no `@`. */
  lemma IdTextChars(n: JsInt)
    ensures AllPartChars(IdText(n))
  {
    if n.Int? {
      var d := NatToString(if n.value < 0 then -n.value else n.value);
      DigitsArePartChars(d);
      if n.value < 0 {
        assert IdText(n) == "-" + d;
        MinusPartChars(d);
      }
    }
  }

  lemma DigitsArePartChars(d: string)
    requires AllDigits(d)
    ensures AllPartChars(d)
  {
    forall k | 0 <= k < |d|
      ensures IsPartChar(d[k])
    {
      assert IsDigit(d[k]);
    }
  }

  lemma MinusPartChars(d: string)
    requires AllPartChars(d)
    ensures AllPartChars("-" + d)
  {
    assert forall k :: 1 <= k < |d| + 1 ==> ("-" + d)[k] == d[k - 1];
  }

  /** The made-up address of `GET /api/users/:id` passes the creation route's check. */
  lemma MadeUpEmailValid(n: JsInt)
    ensures IsValidEmail(MadeUpUser(n).email)
  {
    var local := "user" + IdText(n);
    IdTextChars(n);
    assert forall k :: 4 <= k < |local| ==> local[k] == IdText(n)[k - 4];
    ExampleDomainValid(local);
    assert MadeUpUser(n).email == local + "@example.com";
  }

  /**
   * `POST /api/users`: 400 when `name` or `email` is falsy, 400 when the
   * address, coerced to a string, fails the pattern, else 201 with a record
   * holding the given values and `Date.now()` as id.
   */
  function PostUser(body: Json, ctx: Context): (r: Response)
    ensures r.status == 201 || r.status == 400
    ensures var name := Field(body, "name");
            var email := Field(body, "email");
            (!Truthy(name) || !Truthy(email) <==> r == BadRequest(MissingFields))
            && (r.status == 201 <==> Truthy(name) && Truthy(email) && MatchesPattern(ToStr(email.value)))
            && (Truthy(name) && Truthy(email) && !MatchesPattern(ToStr(email.value)) ==> r == BadRequest(BadEmail))
    ensures r.status == 201 ==>
              var data := Field(r.body, "data");
              Field(r.body, "success") == Some(JBool(true))
              && data.Some?
              && Field(data.value, "id") == Some(JNum(ctx.nowMillis))
              && Field(data.value, "name") == Field(body, "name")
              && Field(data.value, "email") == Field(body, "email")
  {
    var name := Field(body, "name");
    var email := Field(body, "email");
    if !Truthy(name) || !Truthy(email) then BadRequest(MissingFields)
    else if !IsValidEmail(ToStr(email.value)) then BadRequest(BadEmail)
    else Created(NewUserRecord(ctx.nowMillis, name.value, email.value, ctx.nowIso))
  }

  /** `{ success: true, message, data }` with status 201. */
  function Created(data: Json): (r: Response)
    ensures r.status == 201
    ensures Field(r.body, "success") == Some(JBool(true)) && Field(r.body, "data") == Some(data)
  {
    var ms := [Member("success", JBool(true)), Member("message", JStr("用户创建成功")),
               Member("data", data)];
    GetOfDistinct(ms, 0);
    GetOfDistinct(ms, 1);
    GetOfDistinct(ms, 2);
    Response(201, JObj(ms))
  }

  /** The record `POST /api/users` answers with: id, the given name and address, the time. */
  function NewUserRecord(id: int, name: Json, email: Json, nowIso: string): (v: Json)
    ensures Field(v, "id") == Some(JNum(id)) && Field(v, "name") == Some(name)
            && Field(v, "email") == Some(email) && Field(v, "createdAt") == Some(JStr(nowIso))
  {
    var fields := [Member("id", JNum(id)), Member("name", name),
                   Member("email", email), Member("createdAt", JStr(nowIso))];
    GetOfDistinct(fields, 0);
    GetOfDistinct(fields, 1);
    GetOfDistinct(fields, 2);
    GetOfDistinct(fields, 3);
    JObj(fields)
  }

  /** `regex.test` coerces its argument: an array holding one valid address is accepted as is. */
  lemma ArrayEmailAccepted(ctx: Context)
    ensures var body := JObj([Member("name", JStr("a")), Member("email", JArr([JStr("a@b.c")]))]);
            var r := PostUser(body, ctx);
            r.status == 201 && Field(Field(r.body, "data").value, "email") == Some(JArr([JStr("a@b.c")]))
  {
    assert IsSplit("a@b.c", 1, 3);
  }

  /** One segment of a route path: a literal, or a named parameter matching any one segment. */
  datatype Segment = Lit(text: string) | Param(name: string)

  /** One registration on the router: HTTP method and path pattern below the mount point. */
  datatype Route = Route(verb: string, pattern: seq<Segment>)

  /** The path as written in the registration, e.g. `/users/:id`. */
  function PatternText(pattern: seq<Segment>): string
  {
    if pattern == [] then ""
    else "/" + (match pattern[0] case Lit(t) => t case Param(n) => ":" + n) + PatternText(pattern[1..])
  }

  /** The prefix the router is mounted under, and its registrations in order. */
  const Mount: string := "/api"
  const Routes: seq<Route> := [
    Route("GET", [Lit("health")]),
    Route("GET", [Lit("users")]),
    Route("GET", [Lit("users"), Param("id")]),
    Route("POST", [Lit("users")]),
    Route("GET", [Lit("docs")])
  ]

  /** One entry of the list `GET /api/docs` sends. */
  datatype Endpoint = Endpoint(verb: string, path: string, description: string)

  /** The documented endpoints, written out in the handler independently of the registrations. */
  const DocumentedEndpoints: seq<Endpoint> := [
    Endpoint("GET", "/api/health", "检查API健康状况"),
    Endpoint("GET", "/api/users", "获取用户列表"),
    Endpoint("GET", "/api/users/:id", "获取特定用户"),
    Endpoint("POST", "/api/users", "创建新用户"),
    Endpoint("GET", "/api/docs", "获取API文档")
  ]


  /**
   * The documentation agrees with the router: one entry per registration, in
   * registration order, with its method and its full path below the mount point.
   */
  lemma DocsMatchRoutes()
    ensures |DocumentedEndpoints| == |Routes|
    ensures forall i :: 0 <= i < |Routes| ==>
              DocumentedEndpoints[i].verb == Routes[i].verb
              && DocumentedEndpoints[i].path == Mount + PatternText(Routes[i].pattern)
  {
    forall i | 0 <= i < |Routes|
      ensures DocumentedEndpoints[i].verb == Routes[i].verb
              && DocumentedEndpoints[i].path == Mount + PatternText(Routes[i].pattern)
    {
      DocMatchesRoute(i);
    }
  }

  lemma DocMatchesRoute(i: nat)
    requires i < |Routes|
    ensures DocumentedEndpoints[i].verb == Routes[i].verb
    ensures DocumentedEndpoints[i].path == Mount + PatternText(Routes[i].pattern)
  {
    if i == 0 {
      LiteralPath("health");
    } else if i == 2 {
      UserPath();
    } else if i == 4 {
      LiteralPath("docs");
    } else {
      LiteralPath("users");
    }
  }

  lemma LiteralPath(name: string)
    ensures Mount + PatternText([Lit(name)]) == "/api/" + name
  {
    assert PatternText([Lit(name)]) == "/" + name + PatternText([]);
  }

  lemma UserPath()
    ensures Mount + PatternText([Lit("users"), Param("id")]) == "/api/users/:id"
  {
    assert PatternText([Lit("users"), Param("id")]) == "/users" + PatternText([Param("id")]);
    assert PatternText([Param("id")]) == "/:id" + PatternText([]);
  }

  function EndpointJson(e: Endpoint): Json
  {
    JObj([Member("method", JStr(e.verb)), Member("path", JStr(e.path)), Member("description", JStr(e.description))])
  }

  lemma EndpointFields()
    ensures forall e :: Field(EndpointJson(e), "method") == Some(JStr(e.verb))
                        && Field(EndpointJson(e), "path") == Some(JStr(e.path))
                        && Field(EndpointJson(e), "description") == Some(JStr(e.description))
  {
    forall e: Endpoint
      ensures Field(EndpointJson(e), "method") == Some(JStr(e.verb))
              && Field(EndpointJson(e), "path") == Some(JStr(e.path))
              && Field(EndpointJson(e), "description") == Some(JStr(e.description))
    {
      var ms := [Member("method", JStr(e.verb)), Member("path", JStr(e.path)), Member("description", JStr(e.description))];
      GetOfDistinct(ms, 0);
      GetOfDistinct(ms, 1);
      GetOfDistinct(ms, 2);
    }
  }

  /**
   * `GET /api/docs`: the documented list, which names every registered route
   * with its method and full path, in registration order.
   */
  function Docs(): (r: Response)
    ensures r.status == 200
    ensures var eps := Field(r.body, "endpoints");
            eps.Some? && eps.value.JArr? && |eps.value.items| == |Routes|
            && forall i :: 0 <= i < |Routes| ==>
                 Field(eps.value.items[i], "method") == Some(JStr(Routes[i].verb))
                 && Field(eps.value.items[i], "path") == Some(JStr(Mount + PatternText(Routes[i].pattern)))
                 && Field(eps.value.items[i], "description") == Some(JStr(DocumentedEndpoints[i].description))
  {
    var eps := seq(|DocumentedEndpoints|, i requires 0 <= i < |DocumentedEndpoints| => EndpointJson(DocumentedEndpoints[i]));
    var ms := [Member("message", JStr("API文档")), Member("endpoints", JArr(eps))];
    GetOfDistinct(ms, 1);
    EndpointFields();
    DocsMatchRoutes();
    Response(200, JObj(ms))
  }

  /** A request below `/api`: HTTP method, path segments after the mount point, and body. */
  datatype Request = Request(verb: string, segments: seq<string>, body: Json)

  /**
   * The segments a router matches: with `strict` off, the Express default, one
   * trailing slash (an empty last segment) is ignored.
   */
  function RoutedSegments(segments: seq<string>): (p: seq<string>)
    ensures p <= segments && |segments| - 1 <= |p|
    ensures p == segments <==> segments == [] || segments[|segments| - 1] != ""
  {
    if segments != [] && segments[|segments| - 1] == "" then segments[..|segments| - 1] else segments
  }

  /** With `caseSensitive` off, the Express default, literal text matches ignoring ASCII case. */
  predicate SameIgnoringCase(a: string, b: string)
  {
    |a| == |b| && forall k :: 0 <= k < |a| ==> ToLower(a[k]) == ToLower(b[k])
  }

  /** Whether a registration matches the request; a parameter takes one non-empty segment. */
  predicate Serves(route: Route, req: Request)
  {
    var segs := RoutedSegments(req.segments);
    route.verb == req.verb && |segs| == |route.pattern|
    && forall k :: 0 <= k < |route.pattern| ==>
         match route.pattern[k]
         case Lit(t) => SameIgnoringCase(segs[k], t)
         case Param(_) => segs[k] != ""
  }

  /** The first registration from `from` on that matches, as Express tries them in order. */
  function FirstMatch(req: Request, from: nat): (r: Option<nat>)
    requires from <= |Routes|
    ensures r.Some? ==> from <= r.value < |Routes| && Serves(Routes[r.value], req)
    ensures r.Some? ==> forall i :: from <= i < r.value ==> !Serves(Routes[i], req)
    ensures r.None? ==> forall i :: from <= i < |Routes| ==> !Serves(Routes[i], req)
    decreases |Routes| - from
  {
    if from == |Routes| then None
    else if Serves(Routes[from], req) then Some(from)
    else FirstMatch(req, from + 1)
  }

  /** The handler registered at index `i`, applied to a request it matches. */
  function Dispatch(i: nat, req: Request, ctx: Context): Response
    requires i < |Routes| && Serves(Routes[i], req)
  {
    if i == 0 then Health(ctx)
    else if i == 1 then GetUsers()
    else if i == 2 then GetUser(RoutedSegments(req.segments)[1], ctx)
    else if i == 3 then PostUser(req.body, ctx)
    else Docs()
  }

  /**
   * The router: the handler of the first matching registration, or None when
   * the request falls through to the application's 404 handler.
   */
  function Handle(req: Request, ctx: Context): (r: Option<Response>)
    ensures r.Some? <==> exists i :: 0 <= i < |Routes| && Serves(Routes[i], req)
  {
    var m := FirstMatch(req, 0);
    if m.None? then None else Some(Dispatch(m.value, req, ctx))
  }

  /** What a matching request shares with its route: method, segment count, first segment. */
  lemma ServesKey(i: nat, req: Request)
    requires i < |Routes|
    ensures Serves(Routes[i], req) ==>
              var segs := RoutedSegments(req.segments);
              req.verb == Routes[i].verb && |segs| == |Routes[i].pattern|
              && |segs[0]| == |Routes[i].pattern[0].text|
  {
    assert Routes[i].pattern[0].Lit?;
  }

  /** The registrations do not overlap, so each request reaches the handler of its own route. */
  lemma RoutesDisjoint(req: Request, ctx: Context, i: nat)
    requires i < |Routes| && Serves(Routes[i], req)
    ensures Handle(req, ctx) == Some(Dispatch(i, req, ctx))
  {
    forall j | 0 <= j < |Routes| && j != i
      ensures !Serves(Routes[j], req)
    {
      ServesKey(i, req);
      ServesKey(j, req);
    }
  }

  /** One trailing slash changes nothing: the request reaches the same handler with the same answer. */
  lemma TrailingSlashIgnored(req: Request, ctx: Context)
    requires req.segments == [] || req.segments[|req.segments| - 1] != ""
    ensures Handle(Request(req.verb, req.segments + [""], req.body), ctx) == Handle(req, ctx)
  {
    var slashed := Request(req.verb, req.segments + [""], req.body);
    assert (req.segments + [""])[..|req.segments|] == req.segments;
    SameRoutedHandled(slashed, req, ctx);
  }

  /** Requests that agree on method, routed segments and body get the same answer. */
  lemma SameRoutedHandled(a: Request, b: Request, ctx: Context)
    requires a.verb == b.verb && a.body == b.body
    requires RoutedSegments(a.segments) == RoutedSegments(b.segments)
    ensures Handle(a, ctx) == Handle(b, ctx)
  {
    SameFirstMatch(a, b, 0);
    var m := FirstMatch(a, 0);
    if m.Some? {
      SameDispatch(m.value, a, b, ctx);
    }
  }

  lemma SameDispatch(i: nat, a: Request, b: Request, ctx: Context)
    requires i < |Routes| && Serves(Routes[i], a) && Serves(Routes[i], b)
    requires a.body == b.body && RoutedSegments(a.segments) == RoutedSegments(b.segments)
    ensures Dispatch(i, a, ctx) == Dispatch(i, b, ctx)
  {
  }

  lemma {:induction false} SameFirstMatch(a: Request, b: Request, from: nat)
    requires a.verb == b.verb && RoutedSegments(a.segments) == RoutedSegments(b.segments)
    requires from <= |Routes|
    ensures FirstMatch(a, from) == FirstMatch(b, from)
    decreases |Routes| - from
  {
    if from < |Routes| {
      SameRoutedSegments(Routes[from], a, b);
      SameFirstMatch(a, b, from + 1);
    }
  }

  /** Two requests with the same method and the same routed segments match the same routes. */
  lemma SameRoutedSegments(route: Route, a: Request, b: Request)
    requires a.verb == b.verb && RoutedSegments(a.segments) == RoutedSegments(b.segments)
    ensures Serves(route, a) == Serves(route, b)
  {
  }

  /** `GET /api/USERS/` reaches the user list: case and a trailing slash are ignored. */
  lemma UpperCaseSlashedUsers(ctx: Context)
    ensures Handle(Request("GET", ["USERS", ""], JNull), ctx) == Some(GetUsers())
  {
    var req := Request("GET", ["USERS", ""], JNull);
    assert RoutedSegments(req.segments) == ["USERS"];
    assert SameIgnoringCase("USERS", "users");
    assert Serves(Routes[1], req);
    RoutesDisjoint(req, ctx, 1);
  }

  /** `GET /api/users/42` reaches the user handler with id `42`. */
  lemma UserByIdDispatch(ctx: Context)
    ensures Handle(Request("GET", ["users", "42"], JNull), ctx) == Some(GetUser("42", ctx))
  {
    var req := Request("GET", ["users", "42"], JNull);
    assert RoutedSegments(req.segments) == req.segments;
    assert SameIgnoringCase("users", "users");
    assert Serves(Routes[2], req);
    RoutesDisjoint(req, ctx, 2);
  }
}
