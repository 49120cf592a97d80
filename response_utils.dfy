/** The response helpers of utils/responseUtils.js: each fixes a status code, headers and the kind of body. */
module ResponseUtils {
  import opened Wrappers
  import opened SchemaTypes
  import opened UserModel
  import opened ProductModel
  import opened OrderModel

  /** What a helper is given as the error of a bad request: a message, or a validation error object. */
  datatype ErrorValue = Message(text: string) | Invalid(validation: ValidationError)

  /** The values the controllers serialise with JSON.stringify. */
  datatype Payload =
    | UserDoc(user: User)
    | UserList(users: seq<User>)
    | ProductDoc(product: Product)
    | ProductList(products: seq<Product>)
    | OrderDoc(order: Order)
    | OrderList(orders: seq<Order>)
    | ErrorObject(error: ErrorValue)

  datatype ResponseBody = NoBody | Json(payload: Payload)

  datatype Response = Response(status: int, headers: map<string, string>, body: ResponseBody)

  /** A response that carries only a status code: no headers and no body. */
  predicate StatusOnly(r: Response, code: int) {
    r.status == code && r.headers == map[] && r.body == NoBody
  }

  /** JavaScript truthiness of the error argument: an empty message is falsy, an error object is not. */
  predicate Truthy(e: ErrorValue) {
    e.Invalid? || e.text != ""
  }

  function BasicAuthChallenge(): (r: Response) {
    Response(401, map["WWW-Authenticate" := "Basic"], NoBody)
  }

  function SendJson(payload: Payload, code: int := 200): (r: Response) {
    Response(code, map["Content-Type" := "application/json"], Json(payload))
  }

  function CreatedResource(payload: Payload): (r: Response) {
    SendJson(payload, 201)
  }

  function NoContent(): (r: Response) {
    Response(204, map[], NoBody)
  }

  /** With a truthy error the body is `{error}` as JSON; with none (or a falsy one) the response is a bare 400. */
  function BadRequest(error: Option<ErrorValue>): (r: Response)
    ensures r.status == 400
    ensures r.body.Json? <==> error.Some? && Truthy(error.value)
    ensures r.body.Json? ==> r.body.payload == ErrorObject(error.value) && r.headers == map["Content-Type" := "application/json"]
    ensures r.body.NoBody? ==> StatusOnly(r, 400)
  {
    if error.Some? && Truthy(error.value) then SendJson(ErrorObject(error.value), 400) else Response(400, map[], NoBody)
  }

  function Unauthorized(): (r: Response) {
    Response(401, map[], NoBody)
  }

  function Forbidden(): (r: Response) {
    Response(403, map[], NoBody)
  }

  function NotFound(): (r: Response) {
    Response(404, map[], NoBody)
  }

  function MethodNotAllowed(): (r: Response) {
    Response(405, map[], NoBody)
  }

  function ContentTypeNotAcceptable(): (r: Response) {
    Response(406, map[], NoBody)
  }

  function InternalServerError(): (r: Response) {
    Response(500, map[], NoBody)
  }

  function RedirectToPage(page: string): (r: Response) {
    Response(302, map["Location" := page], NoBody)
  }

  /** sendJson: the given code, default 200, a JSON Content-Type and the payload as body; createdResource is sendJson with 201. */
  lemma SendJsonShape(payload: Payload, code: int)
    ensures SendJson(payload).status == 200
    ensures SendJson(payload, code).status == code && SendJson(payload, code).body == Json(payload)
    ensures SendJson(payload, code).headers["Content-Type"] == "application/json"
    ensures CreatedResource(payload) == SendJson(payload, 201)
  {
  }

  /** The challenge is a 401 with the header `WWW-Authenticate: Basic` and no body. */
  lemma ChallengeShape()
    ensures BasicAuthChallenge().status == 401 && BasicAuthChallenge().body == NoBody
    ensures "WWW-Authenticate" in BasicAuthChallenge().headers && BasicAuthChallenge().headers["WWW-Authenticate"] == "Basic"
  {
  }

  /** The rejection helpers carry only their status codes. */
  lemma StatusOnlyHelpers()
    ensures StatusOnly(Forbidden(), 403) && StatusOnly(NotFound(), 404) && StatusOnly(MethodNotAllowed(), 405)
    ensures StatusOnly(ContentTypeNotAcceptable(), 406) && StatusOnly(InternalServerError(), 500)
    ensures StatusOnly(NoContent(), 204) && StatusOnly(Unauthorized(), 401)
  {
  }

  /** redirectToPage: 302 with the target in `Location` and no body. */
  lemma RedirectShape(page: string)
    ensures RedirectToPage(page).status == 302 && RedirectToPage(page).body == NoBody
    ensures "Location" in RedirectToPage(page).headers && RedirectToPage(page).headers["Location"] == page
  {
  }
}
