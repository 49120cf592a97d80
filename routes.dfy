/**
 * The dispatcher of routes.js as a pure decision: from the request facts and the user collection
 * (which getCurrentUser reads) to the action taken, either a response helper or a controller call.
 */
module Routes {
  import opened Wrappers
  import opened SchemaTypes
  import opened UserModel
  import opened Requests
  import opened ResponseUtils
  import opened Auth

  /** The known collection routes and the methods each accepts, in their declared order. */
  const AllowedMethods: map<string, seq<string>> := map[
    "/api/register" := ["POST"],
    "/api/users" := ["GET"],
    "/api/products" := ["POST", "GET"],
    "/api/orders" := ["POST", "GET"]]

  /** Array.prototype.join. */
  function Join(parts: seq<string>, sep: string): (r: string)
    decreases |parts|
  {
    if |parts| == 0 then "" else if |parts| == 1 then parts[0] else parts[0] + sep + Join(parts[1..], sep)
  }

  /** String.prototype.split on a one-character separator: always at least one piece. */
  function Split(s: string, sep: char): (r: seq<string>)
    ensures |r| >= 1
    decreases |s|
  {
    if |s| == 0 then [""]
    else if s[0] == sep then [""] + Split(s[1..], sep)
    else
      var rest := Split(s[1..], sep);
      [[s[0]] + rest[0]] + rest[1..]
  }

  lemma {:induction false} SplitWithoutSeparator(a: string, sep: char)
    requires sep !in a
    ensures Split(a, sep) == [a]
  {
    if |a| > 0 {
      SplitWithoutSeparator(a[1..], sep);
      assert [a[0]] + a[1..] == a;
    }
  }

  /** Splitting at the first separator: the text before it is the first piece. */
  lemma {:induction false} SplitAtFirst(a: string, b: string, sep: char)
    requires sep !in a
    ensures Split(a + [sep] + b, sep) == [a] + Split(b, sep)
  {
    var s := a + [sep] + b;
    if |a| == 0 {
      assert s[1..] == b;
    } else {
      assert s[1..] == a[1..] + [sep] + b;
      SplitAtFirst(a[1..], b, sep);
      assert [a[0]] + a[1..] == a;
    }
  }

  /** Joining pieces free of the separator and splitting again gives the pieces back. */
  lemma {:induction false} SplitJoin(parts: seq<string>, sep: char)
    requires |parts| >= 1
    requires forall i :: 0 <= i < |parts| ==> sep !in parts[i]
    ensures Split(Join(parts, [sep]), sep) == parts
    decreases |parts|
  {
    if |parts| == 1 {
      SplitWithoutSeparator(parts[0], sep);
    } else {
      SplitAtFirst(parts[0], Join(parts[1..], [sep]), sep);
      SplitJoin(parts[1..], sep);
      assert [parts[0]] + parts[1..] == parts;
    }
  }

  /** sendOptions: 204 with the CORS headers for a known route, 404 for any other path. */
  function SendOptions(filePath: string): (r: Response)
    ensures filePath !in AllowedMethods ==> r == NotFound()
    ensures filePath in AllowedMethods ==>
              && StatusOnly(r.(headers := map[]), 204)
              && "Access-Control-Allow-Methods" in r.headers
              && Split(r.headers["Access-Control-Allow-Methods"], ',') == AllowedMethods[filePath]
  {
    if filePath in AllowedMethods then
      OptionsListsAllowedMethods(filePath);
      Response(204, map[
        "Access-Control-Allow-Methods" := Join(AllowedMethods[filePath], ","),
        "Access-Control-Allow-Headers" := "Content-Type,Accept",
        "Access-Control-Max-Age" := "86400",
        "Access-Control-Expose-Headers" := "Content-Type,Accept"], NoBody)
    else NotFound()
  }

  /** The Allow-Methods header value reads back as the route's method list. */
  lemma OptionsListsAllowedMethods(filePath: string)
    requires filePath in AllowedMethods
    ensures Split(Join(AllowedMethods[filePath], ","), ',') == AllowedMethods[filePath]
  {
    var ms := AllowedMethods[filePath];
    assert forall i :: 0 <= i < |ms| ==> ',' !in ms[i];
    SplitJoin(ms, ',');
  }

  /** One character of the id pattern `[0-9a-z]`. */
  predicate IsIdChar(c: char) {
    '0' <= c <= '9' || 'a' <= c <= 'z'
  }

  /** A whole id token: 8 to 24 such characters. */
  predicate IsIdToken(s: string) {
    8 <= |s| <= 24 && forall i :: 0 <= i < |s| ==> IsIdChar(s[i])
  }

  /** The part of the pattern after the optional `/api` group: `/<prefix>/<id>` up to the end. */
  predicate MatchesAfterGroup(url: string, prefix: string) {
    var head := "/" + prefix + "/";
    |head| <= |url| && url[..|head|] == head && IsIdToken(url[|head|..])
  }

  /** matchIdRoute: the anchored pattern `^(/api)?/<prefix>/[0-9a-z]{8,24}$`. */
  predicate MatchIdRoute(url: string, prefix: string) {
    ("/api" <= url && MatchesAfterGroup(url[4..], prefix)) || MatchesAfterGroup(url, prefix)
  }

  predicate MatchUserId(url: string) {
    MatchIdRoute(url, "users")
  }

  predicate MatchProductId(url: string) {
    MatchIdRoute(url, "products")
  }

  predicate MatchOrderId(url: string) {
    MatchIdRoute(url, "orders")
  }

  /** The id a matching url ends in. */
  function MatchedId(url: string, prefix: string): (id: string)
    requires MatchIdRoute(url, prefix)
    ensures IsIdToken(id)
    ensures url == "/api/" + prefix + "/" + id || url == "/" + prefix + "/" + id
  {
    var head := "/" + prefix + "/";
    if "/api" <= url && MatchesAfterGroup(url[4..], prefix) then
      var id := url[4..][|head|..];
      assert url == "/api" + url[4..];
      assert url[4..] == head + id;
      id
    else
      var id := url[|head|..];
      assert url == head + id;
      id
  }

  /** Both forms of an item path match the pattern. */
  lemma ItemPathsMatch(prefix: string, id: string)
    requires IsIdToken(id)
    ensures MatchIdRoute("/api/" + prefix + "/" + id, prefix)
    ensures MatchIdRoute("/" + prefix + "/" + id, prefix)
  {
    var head := "/" + prefix + "/";
    var url := "/api/" + prefix + "/" + id;
    assert url[4..] == head + id;
    assert (url[4..])[..|head|] == head && (url[4..])[|head|..] == id;
    var short := "/" + prefix + "/" + id;
    assert short[..|head|] == head && short[|head|..] == id;
  }

  /** The pattern matches exactly `/api/<prefix>/<id>` and `/<prefix>/<id>` for an id token. */
  lemma MatchIdRouteShape(url: string, prefix: string)
    ensures MatchIdRoute(url, prefix) <==>
            exists id :: IsIdToken(id) && (url == "/api/" + prefix + "/" + id || url == "/" + prefix + "/" + id)
  {
    if MatchIdRoute(url, prefix) {
      var id := MatchedId(url, prefix);
      assert IsIdToken(id);
    }
    if exists id :: IsIdToken(id) && (url == "/api/" + prefix + "/" + id || url == "/" + prefix + "/" + id) {
      var id :| IsIdToken(id) && (url == "/api/" + prefix + "/" + id || url == "/" + prefix + "/" + id);
      ItemPathsMatch(prefix, id);
    }
  }

  /** A matching url has the prefix's first letter right after the leading `/` or right after `/api/`. */
  lemma PrefixLetter(url: string, prefix: string)
    requires MatchIdRoute(url, prefix) && |prefix| > 0
    ensures |url| >= 10 + |prefix|
    ensures url[1] == prefix[0] || (url[1] == 'a' && url[5] == prefix[0])
  {
    var id := MatchedId(url, prefix);
    if url == "/api/" + prefix + "/" + id {
      assert url[1] == 'a' && url[5] == prefix[0];
    } else {
      assert url[1] == prefix[0];
    }
  }

  /** `filePath.split('/')[3]`; `undefined` when the path has fewer pieces. */
  function IdSegment(path: string): (id: Option<string>) {
    var parts := Split(path, '/');
    if |parts| > 3 then Some(parts[3]) else None
  }

  /** The pieces of `<prefix>/<id>` when neither holds a `/`. */
  lemma SplitTail(prefix: string, id: string)
    requires '/' !in prefix && IsIdToken(id)
    ensures Split(prefix + "/" + id, '/') == [prefix, id]
  {
    SplitWithoutSeparator(id, '/');
    SplitAtFirst(prefix, id, '/');
  }

  /** On `/api/<prefix>/<id>` the id is the fourth piece of the path. */
  lemma IdSegmentOfApiPath(prefix: string, id: string)
    requires '/' !in prefix && IsIdToken(id)
    ensures IdSegment("/api/" + prefix + "/" + id) == Some(id)
  {
    var tail := prefix + "/" + id;
    SplitTail(prefix, id);
    SplitAtFirst("api", tail, '/');
    var rest := "api" + "/" + tail;
    SplitAtFirst("", rest, '/');
    assert "" + "/" + rest == "/api/" + prefix + "/" + id;
  }

  /**
   * The pattern also admits `/<prefix>/<id>`, which has no fourth piece: the controllers are then
   * given `undefined` as the id.
   */
  lemma IdSegmentOfShortPath(prefix: string, id: string)
    requires '/' !in prefix && IsIdToken(id)
    ensures IdSegment("/" + prefix + "/" + id) == None
  {
    var tail := prefix + "/" + id;
    SplitTail(prefix, id);
    SplitAtFirst("", tail, '/');
    assert "" + "/" + tail == "/" + prefix + "/" + id;
  }

  /** A path matches at most one item route, and never names a collection route. */
  lemma ItemRoutesDisjoint(url: string)
    ensures !(MatchUserId(url) && MatchProductId(url))
    ensures !(MatchUserId(url) && MatchOrderId(url))
    ensures !(MatchProductId(url) && MatchOrderId(url))
    ensures MatchUserId(url) || MatchProductId(url) || MatchOrderId(url) ==> url !in AllowedMethods
  {
    if MatchUserId(url) {
      PrefixLetter(url, "users");
    }
    if MatchProductId(url) {
      PrefixLetter(url, "products");
    }
    if MatchOrderId(url) {
      PrefixLetter(url, "orders");
    }
  }

  /** What the handler does with a request. Controller calls carry the id and the current user they are given. */
  datatype Action =
    | ServeStatic(fileName: string)
    | AnswerOptions(filePath: string)
    | RejectUnauthenticated
    | RejectForbidden
    | RejectNotFound
    | RejectMethodNotAllowed
    | RejectNotAcceptable
    | RejectContentType
    | ViewUser(userId: Option<ObjectId>)
    | UpdateUser(userId: Option<ObjectId>, caller: User)
    | DeleteUser(userId: Option<ObjectId>, caller: User)
    | ViewProduct(productId: Option<ObjectId>)
    | UpdateProduct(productId: Option<ObjectId>)
    | DeleteProduct(productId: Option<ObjectId>)
    | ViewOrder(orderId: Option<ObjectId>, caller: User)
    | RegisterUser
    | AddProduct
    | AddOrder(caller: User)
    | GetAllUsers
    | GetAllProducts
    | GetAllOrders(caller: User)

  /** Actions answered by a response helper alone. */
  predicate Terminal(a: Action) {
    a.AnswerOptions? || a.RejectUnauthenticated? || a.RejectForbidden? || a.RejectNotFound?
    || a.RejectMethodNotAllowed? || a.RejectNotAcceptable? || a.RejectContentType?
  }

  /** Controller calls that only an admin reaches. */
  predicate AdminOnly(a: Action) {
    a.ViewUser? || a.UpdateUser? || a.DeleteUser? || a.GetAllUsers?
    || a.UpdateProduct? || a.DeleteProduct? || a.AddProduct?
  }

  /** Controller calls, every one but registration made on behalf of a logged-in user. */
  predicate ControllerCall(a: Action) {
    !Terminal(a) && !a.ServeStatic?
  }

  const ContentTypeMessage := "Invalid Content-Type. Expected application/json"

  /** The response helper each terminal action ends in. */
  function ResponseOf(a: Action): (r: Response)
    requires Terminal(a)
    ensures r.status == 401 <==> a.RejectUnauthenticated?
    ensures r.status == 401 ==> r == BasicAuthChallenge()
    ensures r.status == 400 <==> a.RejectContentType?
    ensures r.status == 204 <==> a.AnswerOptions? && a.filePath in AllowedMethods
    ensures r.status == 404 <==> a.RejectNotFound? || (a.AnswerOptions? && a.filePath !in AllowedMethods)
  {
    match a
    case AnswerOptions(p) => SendOptions(p)
    case RejectUnauthenticated => BasicAuthChallenge()
    case RejectForbidden => Forbidden()
    case RejectNotFound => NotFound()
    case RejectMethodNotAllowed => MethodNotAllowed()
    case RejectNotAcceptable => ContentTypeNotAcceptable()
    case RejectContentType => BadRequest(Some(Message(ContentTypeMessage)))
  }

  /** A GET outside `/api` is a request for a public file. */
  predicate IsStatic(req: Request) {
    req.httpMethod == "GET" && !("/api" <= req.path)
  }

  function StaticFileName(path: string): (fileName: string) {
    if path == "/" || path == "" then "index.html" else path
  }

  /** The single-user route: authentication, then admin, then Accept; an unhandled method falls through. */
  function UserItem(req: Request, user: Option<User>): (a: Option<Action>) {
    if !MatchUserId(req.path) then None
    else if user.None? then Some(RejectUnauthenticated)
    else if user.value.role != Admin then Some(RejectForbidden)
    else if !req.acceptsJson then Some(RejectNotAcceptable)
    else if req.httpMethod == "GET" then Some(ViewUser(IdSegment(req.path)))
    else if req.httpMethod == "PUT" then Some(UpdateUser(IdSegment(req.path), user.value))
    else if req.httpMethod == "DELETE" then Some(DeleteUser(IdSegment(req.path), user.value))
    else None
  }

  /** The single-product route: authentication, then Accept; GET for anyone, PUT and DELETE for admins only. */
  function ProductItem(req: Request, user: Option<User>): (a: Option<Action>) {
    if !MatchProductId(req.path) then None
    else if user.None? then Some(RejectUnauthenticated)
    else if !req.acceptsJson then Some(RejectNotAcceptable)
    else if req.httpMethod == "GET" then Some(ViewProduct(IdSegment(req.path)))
    else if user.value.role != Admin then Some(RejectForbidden)
    else if req.httpMethod == "PUT" then Some(UpdateProduct(IdSegment(req.path)))
    else if req.httpMethod == "DELETE" then Some(DeleteProduct(IdSegment(req.path)))
    else None
  }

  /**
   * The item routes never look at the Content-Type: their decision is the same whether or not
   * the body is declared JSON, so an admin's PUT on a user or product reads a body with no
   * Content-Type check at all.
   */
  lemma ItemRoutesIgnoreContentType(req: Request, users: seq<User>, checkPassword: (User, string) -> bool)
    requires MatchUserId(req.path) || MatchProductId(req.path) || MatchOrderId(req.path)
    requires !IsStatic(req)
    ensures RouteRequest(req.(isJson := true), users, checkPassword) == RouteRequest(req.(isJson := false), users, checkPassword)
    ensures var user := CurrentUser(req, users, checkPassword);
            user.Some? && user.value.role == Admin && req.acceptsJson && req.httpMethod == "PUT" && !req.isJson ==>
              && (MatchUserId(req.path) ==> RouteRequest(req, users, checkPassword) == UpdateUser(IdSegment(req.path), user.value))
              && (MatchProductId(req.path) ==> RouteRequest(req, users, checkPassword) == UpdateProduct(IdSegment(req.path)))
  {
    ItemRoutesDisjoint(req.path);
    var t, f := req.(isJson := true), req.(isJson := false);
    if MatchUserId(req.path) {
      UserItemDecisions(req, users, checkPassword);
      UserItemDecisions(t, users, checkPassword);
      UserItemDecisions(f, users, checkPassword);
    } else if MatchProductId(req.path) {
      ProductItemDecisions(req, users, checkPassword);
      ProductItemDecisions(t, users, checkPassword);
      ProductItemDecisions(f, users, checkPassword);
    } else {
      OrderItemDecisions(t, users, checkPassword);
      OrderItemDecisions(f, users, checkPassword);
    }
  }

  /** The single-order route: authentication, then Accept; only GET is handled. */
  function OrderItem(req: Request, user: Option<User>): (a: Option<Action>) {
    if !MatchOrderId(req.path) then None
    else if user.None? then Some(RejectUnauthenticated)
    else if !req.acceptsJson then Some(RejectNotAcceptable)
    else if req.httpMethod == "GET" then Some(ViewOrder(IdSegment(req.path), user.value))
    else None
  }

  /**
   * The collection routes: unknown path, OPTIONS, method, Accept, in that order, none of which
   * looks at the user; then the per-route checks.
   */
  function CollectionRoute(req: Request, user: Option<User>): (a: Action) {
    var m := req.httpMethod;
    var p := req.path;
    if p !in AllowedMethods then RejectNotFound
    else if m == "OPTIONS" then AnswerOptions(p)
    else if m !in AllowedMethods[p] then RejectMethodNotAllowed
    else if !req.acceptsJson then RejectNotAcceptable
    else if p == "/api/register" && m == "POST" then
      if !req.isJson then RejectContentType else RegisterUser
    else if p == "/api/products" && m == "POST" then
      if user.None? then RejectUnauthenticated
      else if user.value.role != Admin then RejectForbidden
      else if !req.isJson then RejectContentType
      else AddProduct
    else if p == "/api/orders" && m == "POST" then
      if user.None? then RejectUnauthenticated
      else if user.value.role == Admin then RejectForbidden
      else if !req.isJson then RejectContentType
      else AddOrder(user.value)
    else if p == "/api/users" && m == "GET" then
      if user.None? then RejectUnauthenticated
      else if user.value.role != Admin then RejectForbidden
      else GetAllUsers
    else if p == "/api/products" && m == "GET" then
      if !HasAuthorization(req) then RejectUnauthenticated
      else if user.None? then RejectUnauthenticated
      else GetAllProducts
    else if p == "/api/orders" && m == "GET" then
      if !HasAuthorization(req) then RejectUnauthenticated
      else if user.None? then RejectUnauthenticated
      else GetAllOrders(user.value)
    else
      assert false; RejectNotFound
  }

  /** The current user as getCurrentUser finds it for this request. */
  function CurrentUser(req: Request, users: seq<User>, checkPassword: (User, string) -> bool): (user: Option<User>) {
    GetCurrentUser(req.authorization, users, checkPassword)
  }

  /** handleRequest: static files, then the user, product and order item routes, then the collection routes. */
  function RouteRequest(req: Request, users: seq<User>, checkPassword: (User, string) -> bool): (a: Action) {
    if IsStatic(req) then ServeStatic(StaticFileName(req.path))
    else
      var user := CurrentUser(req, users, checkPassword);
      match UserItem(req, user)
      case Some(a) => a
      case None =>
        match ProductItem(req, user)
        case Some(a) => a
        case None =>
          match OrderItem(req, user)
          case Some(a) => a
          case None => CollectionRoute(req, user)
  }

  /**
   * What every action the handler takes implies about the request and the current user: the
   * admin-only calls have an admin; every controller call but registration has a user, and the
   * user and order calls that take a caller (update, delete, viewOrder, addOrder, getAllOrders)
   * get that user; all calls passed the Accept check; only the three POST calls (register,
   * addProduct, addOrder) passed the Content-Type check, while the two PUT calls read their body
   * without one; orders are placed by customers; each action names its route and method, an
   * item call the path's id.
   */
  predicate ActionFacts(req: Request, user: Option<User>, a: Action) {
    var m := req.httpMethod;
    var p := req.path;
    && (AdminOnly(a) ==> user.Some? && user.value.role == Admin)
    && (ControllerCall(a) ==> req.acceptsJson)
    && (ControllerCall(a) && !a.RegisterUser? ==> user.Some?)
    && (a.UpdateUser? || a.DeleteUser? || a.ViewOrder? || a.AddOrder? || a.GetAllOrders? ==> user == Some(a.caller))
    && (a.AddOrder? ==> a.caller.role == Customer)
    && (a.RegisterUser? || a.AddProduct? || a.AddOrder? ==> req.isJson && m == "POST")
    && (a.GetAllProducts? || a.GetAllOrders? ==> HasAuthorization(req))
    && (a.ServeStatic? ==> m == "GET" && !("/api" <= p))
    && (a.AnswerOptions? ==> m == "OPTIONS" && a.filePath == p && p in AllowedMethods)
    && (a.ViewUser? ==> MatchUserId(p) && m == "GET" && a.userId == IdSegment(p))
    && (a.UpdateUser? ==> MatchUserId(p) && m == "PUT" && a.userId == IdSegment(p))
    && (a.DeleteUser? ==> MatchUserId(p) && m == "DELETE" && a.userId == IdSegment(p))
    && (a.ViewProduct? ==> MatchProductId(p) && m == "GET" && a.productId == IdSegment(p))
    && (a.UpdateProduct? ==> MatchProductId(p) && m == "PUT" && a.productId == IdSegment(p))
    && (a.DeleteProduct? ==> MatchProductId(p) && m == "DELETE" && a.productId == IdSegment(p))
    && (a.ViewOrder? ==> MatchOrderId(p) && m == "GET" && a.orderId == IdSegment(p))
    && (a.RegisterUser? ==> p == "/api/register")
    && (a.AddProduct? ==> p == "/api/products")
    && (a.AddOrder? ==> p == "/api/orders")
    && (a.GetAllUsers? ==> p == "/api/users" && m == "GET")
    && (a.GetAllProducts? ==> p == "/api/products" && m == "GET")
    && (a.GetAllOrders? ==> p == "/api/orders" && m == "GET")
  }

  lemma UserItemFacts(req: Request, user: Option<User>)
    requires UserItem(req, user).Some?
    ensures ActionFacts(req, user, UserItem(req, user).value)
  {
  }

  lemma ProductItemFacts(req: Request, user: Option<User>)
    requires ProductItem(req, user).Some?
    ensures ActionFacts(req, user, ProductItem(req, user).value)
  {
  }

  lemma OrderItemFacts(req: Request, user: Option<User>)
    requires OrderItem(req, user).Some?
    ensures ActionFacts(req, user, OrderItem(req, user).value)
  {
  }

  lemma CollectionFacts(req: Request, user: Option<User>)
    ensures ActionFacts(req, user, CollectionRoute(req, user))
  {
  }

  /** The facts hold for whatever the handler decides. */
  lemma RouteFacts(req: Request, users: seq<User>, checkPassword: (User, string) -> bool)
    ensures ActionFacts(req, CurrentUser(req, users, checkPassword), RouteRequest(req, users, checkPassword))
  {
    var user := CurrentUser(req, users, checkPassword);
    if !IsStatic(req) {
      if UserItem(req, user).Some? {
        UserItemFacts(req, user);
      } else if ProductItem(req, user).Some? {
        ProductItemFacts(req, user);
      } else if OrderItem(req, user).Some? {
        OrderItemFacts(req, user);
      } else {
        CollectionFacts(req, user);
      }
    }
  }

  /** The admin-only controller calls are reached only with an authenticated admin. */
  lemma AdminOnlyNeedsAdmin(req: Request, users: seq<User>, checkPassword: (User, string) -> bool)
    ensures var a := RouteRequest(req, users, checkPassword);
            AdminOnly(a) ==>
              && CurrentUser(req, users, checkPassword).Some?
              && CurrentUser(req, users, checkPassword).value.role == Admin
  {
    RouteFacts(req, users, checkPassword);
  }

  /** Without credentials nothing but registration, a public file or a response helper is reached. */
  lemma NoCredentialsNoControllerCall(req: Request, users: seq<User>, checkPassword: (User, string) -> bool)
    requires GetCredentials(req.authorization).None?
    ensures var a := RouteRequest(req, users, checkPassword);
            !ControllerCall(a) || a.RegisterUser?
  {
    RouteFacts(req, users, checkPassword);
  }

  /** Only a customer reaches addOrder, as its caller, with a JSON body. */
  lemma OrdersPlacedByCustomers(req: Request, users: seq<User>, checkPassword: (User, string) -> bool)
    ensures var a := RouteRequest(req, users, checkPassword);
            a.AddOrder? ==>
              && CurrentUser(req, users, checkPassword) == Some(a.caller)
              && a.caller.role == Customer
              && req.isJson
  {
    RouteFacts(req, users, checkPassword);
  }

  /** A GET outside `/api` is served from the public files before any authentication. */
  lemma StaticBeforeAuthentication(req: Request, users: seq<User>, checkPassword: (User, string) -> bool)
    requires IsStatic(req)
    ensures RouteRequest(req, users, checkPassword) == ServeStatic(StaticFileName(req.path))
    ensures req.path == "/" ==> RouteRequest(req, users, checkPassword) == ServeStatic("index.html")
  {
  }

  /**
   * The single-user route checks authentication, then the admin role, then Accept, so a customer
   * is refused with 403 even when the Accept header would have been refused too; a method other than
   * GET, PUT and DELETE ends in 404.
   */
  lemma UserItemDecisions(req: Request, users: seq<User>, checkPassword: (User, string) -> bool)
    requires MatchUserId(req.path) && !IsStatic(req)
    ensures var a := RouteRequest(req, users, checkPassword);
            var user := CurrentUser(req, users, checkPassword);
            var m := req.httpMethod;
            && (user.None? ==> a == RejectUnauthenticated)
            && (user.Some? && user.value.role == Customer ==> a == RejectForbidden)
            && (user.Some? && user.value.role == Admin && !req.acceptsJson ==> a == RejectNotAcceptable)
            && (user.Some? && user.value.role == Admin && req.acceptsJson ==>
                  a == if m == "GET" then ViewUser(IdSegment(req.path))
                       else if m == "PUT" then UpdateUser(IdSegment(req.path), user.value)
                       else if m == "DELETE" then DeleteUser(IdSegment(req.path), user.value)
                       else RejectNotFound)
  {
    ItemRoutesDisjoint(req.path);
  }

  /**
   * The single-product route checks authentication, then Accept, then the method: GET is open to
   * every user, PUT and DELETE to admins only, any other method by an admin ends in 404.
   */
  lemma ProductItemDecisions(req: Request, users: seq<User>, checkPassword: (User, string) -> bool)
    requires MatchProductId(req.path) && !IsStatic(req)
    ensures var a := RouteRequest(req, users, checkPassword);
            var user := CurrentUser(req, users, checkPassword);
            var m := req.httpMethod;
            && (user.None? ==> a == RejectUnauthenticated)
            && (user.Some? && !req.acceptsJson ==> a == RejectNotAcceptable)
            && (user.Some? && req.acceptsJson && m == "GET" ==> a == ViewProduct(IdSegment(req.path)))
            && (user.Some? && req.acceptsJson && m != "GET" && user.value.role == Customer ==> a == RejectForbidden)
            && (user.Some? && req.acceptsJson && user.value.role == Admin && m != "GET" ==>
                  a == if m == "PUT" then UpdateProduct(IdSegment(req.path))
                       else if m == "DELETE" then DeleteProduct(IdSegment(req.path))
                       else RejectNotFound)
  {
    ItemRoutesDisjoint(req.path);
  }

  /** The single-order route: authentication, then Accept; GET views the order for its caller, anything else is 404. */
  lemma OrderItemDecisions(req: Request, users: seq<User>, checkPassword: (User, string) -> bool)
    requires MatchOrderId(req.path) && !IsStatic(req)
    ensures var a := RouteRequest(req, users, checkPassword);
            var user := CurrentUser(req, users, checkPassword);
            && (user.None? ==> a == RejectUnauthenticated)
            && (user.Some? && !req.acceptsJson ==> a == RejectNotAcceptable)
            && (user.Some? && req.acceptsJson ==>
                  a == if req.httpMethod == "GET" then ViewOrder(IdSegment(req.path), user.value) else RejectNotFound)
  {
    ItemRoutesDisjoint(req.path);
  }

  /** An API path that is neither an item route nor a known collection route is 404, whoever asks. */
  lemma UnknownPathNotFound(req: Request, users: seq<User>, checkPassword: (User, string) -> bool)
    requires !IsStatic(req) && !MatchUserId(req.path) && !MatchProductId(req.path) && !MatchOrderId(req.path)
    requires req.path !in AllowedMethods
    ensures RouteRequest(req, users, checkPassword) == RejectNotFound
  {
  }

  /**
   * On a collection route OPTIONS, the method check and the Accept check come before any look at
   * the credentials, so their outcome is the same for every user collection and header.
   */
  lemma CollectionChecksBeforeAuthentication(req: Request, users: seq<User>, checkPassword: (User, string) -> bool)
    requires !IsStatic(req) && req.path in AllowedMethods
    ensures var a := RouteRequest(req, users, checkPassword);
            && (req.httpMethod == "OPTIONS" ==> a == AnswerOptions(req.path))
            && (req.httpMethod != "OPTIONS" && req.httpMethod !in AllowedMethods[req.path] ==> a == RejectMethodNotAllowed)
            && (req.httpMethod in AllowedMethods[req.path] && !req.acceptsJson ==> a == RejectNotAcceptable)
  {
    ItemRoutesDisjoint(req.path);
  }

  /**
   * With Accept passed, each collection route and method leads to its controller call exactly when
   * its own checks pass; registration needs no credentials at all.
   */
  lemma CollectionCalls(req: Request, users: seq<User>, checkPassword: (User, string) -> bool)
    requires !IsStatic(req) && req.acceptsJson
    ensures var a := RouteRequest(req, users, checkPassword);
            var user := CurrentUser(req, users, checkPassword);
            var m := req.httpMethod;
            var p := req.path;
            && (p == "/api/register" && m == "POST" ==> a == if req.isJson then RegisterUser else RejectContentType)
            && (p == "/api/products" && m == "POST" ==>
                  a == if user.None? then RejectUnauthenticated
                       else if user.value.role != Admin then RejectForbidden
                       else if !req.isJson then RejectContentType
                       else AddProduct)
            && (p == "/api/orders" && m == "POST" ==>
                  a == if user.None? then RejectUnauthenticated
                       else if user.value.role == Admin then RejectForbidden
                       else if !req.isJson then RejectContentType
                       else AddOrder(user.value))
            && (p == "/api/users" && m == "GET" ==>
                  a == if user.None? then RejectUnauthenticated
                       else if user.value.role != Admin then RejectForbidden
                       else GetAllUsers)
            && (p == "/api/products" && m == "GET" ==>
                  a == if user.None? then RejectUnauthenticated else GetAllProducts)
            && (p == "/api/orders" && m == "GET" ==>
                  a == if user.None? then RejectUnauthenticated else GetAllOrders(user.value))
  {
    ItemRoutesDisjoint(req.path);
  }
}
