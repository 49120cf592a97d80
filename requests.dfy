/**
 * The facts about an incoming request that the core reads. The helpers that compute them
 * (acceptsJson, isJson, getCredentials, parseBodyJson in utils/requestUtils.js) are not part
 * of this model; their results appear here as given values.
 */
module Requests {
  import opened Wrappers
  import opened SchemaTypes
  import opened OrderModel

  /** The (email, password) pair decoded from a Basic Authorization header. */
  datatype Credentials = Credentials(email: string, password: string)

  /**
   * The Authorization header: absent, or present with its raw text and what getCredentials
   * makes of it (None for a malformed value or another scheme).
   */
  datatype Authorization = NoHeader | Header(value: string, credentials: Option<Credentials>)

  /**
   * A request: its HTTP method (already upper-cased), the pathname of its URL, its Authorization
   * header, whether its Accept header admits JSON, and whether its Content-Type is JSON.
   */
  datatype Request = Request(httpMethod: string, path: string, authorization: Authorization, acceptsJson: bool, isJson: bool)

  /** The JSON request body, reduced to the fields the controllers read; an absent field is `undefined`. */
  datatype Body = Body(
    name: Option<string>,
    email: Option<string>,
    password: Option<string>,
    role: Option<string>,
    price: Option<NumberInput>,
    image: Option<string>,
    description: Option<string>,
    items: Option<seq<OrderedItemFields>>)

  /** `request.headers.authorization` is truthy: the header is present and not empty. */
  predicate HasAuthorization(req: Request) {
    req.authorization.Header? && req.authorization.value != ""
  }

  /** getCredentials: a missing or empty header yields no credentials; otherwise the decoded pair, if any. */
  function GetCredentials(auth: Authorization): (r: Option<Credentials>)
    ensures auth.NoHeader? || auth.value == "" ==> r.None?
    ensures auth.Header? && auth.value != "" ==> r == auth.credentials
  {
    match auth
    case NoHeader => None
    case Header(v, c) => if v == "" then None else c
  }
}
