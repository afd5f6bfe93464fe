/**
 * The HTTP interceptor (the functional `tokenInterceptor`, and the class
 * `TokenInterceptor` that applies the same two rules). Every outgoing
 * request has its headers replaced by a JSON content type, plus the session
 * token when there is one; every failed request is re-thrown as a plain
 * `Error` whose message prefers the server's `error.message`.
 */
module TokenInterceptor {
  import opened Wrappers
  import opened Js
  import opened Strings
  import opened Http
  import MainEffects

  /** The headers every request leaves with, given the stored token (`null` when logged out). */
  function Headers(token: Value): (hs: seq<Header>)
    ensures Lookup(hs, "Content-Type") == Some(Str("application/json"))
    ensures Lookup(hs, "Authorization") == (if token != Null then Some(token) else None)
    ensures forall h | h in hs :: h.name == "Content-Type" || h.name == "Authorization"
    ensures |hs| == (if token != Null then 2 else 1)
  {
    if token != Null then [Header("Content-Type", Str("application/json")), Header("Authorization", token)]
    else [Header("Content-Type", Str("application/json"))]
  }

  /** The request clone passed on: same verb and address, headers replaced. */
  function Decorate(req: Request, token: Value): (r: Request)
    ensures r.verb == req.verb && r.url == req.url
    ensures r.headers == Headers(token)
  {
    req.(headers := Headers(token))
  }

  /**
   * Headers of the original request are dropped, not merged: a header whose
   * name is neither of the two, ignoring case, is gone.
   */
  lemma DecorateDropsOthers(req: Request, token: Value, name: string)
    requires Lower(name) != Lower("Content-Type") && Lower(name) != Lower("Authorization")
    ensures Lookup(Decorate(req, token).headers, name) == None
  {
  }

  /** `e.error && e.error.message ? e.error.message : e.message`. */
  function ErrorMessage(e: Value): (m: Value)
    requires !Nullish(e)
    ensures Truthy(Prop(e, "error")) && Truthy(Prop(Prop(e, "error"), "message")) ==> m == Prop(Prop(e, "error"), "message")
    ensures !(Truthy(Prop(e, "error")) && Truthy(Prop(Prop(e, "error"), "message"))) ==> m == Prop(e, "message")
  {
    var body := Prop(e, "error");
    if Truthy(body) && Truthy(Prop(body, "message")) then Prop(body, "message") else Prop(e, "message")
  }

  /**
   * The error the failed request is re-thrown as: `new Error(message)`; a
   * null or undefined error makes reading `error` throw instead.
   */
  function Rethrown(e: Value): (r: Value)
    ensures r.ErrorObj?
    ensures !Nullish(e) ==> r == ErrorObj(ErrorText(ErrorMessage(e)))
  {
    if Nullish(e) then ReadError(e, "error") else ErrorObj(ErrorText(ErrorMessage(e)))
  }

  /** The reply the caller sees: bodies pass through, failures are always re-thrown, never swallowed. */
  function Intercept(reply: Reply): (r: Reply)
    ensures reply.Delivered? <==> r.Delivered?
    ensures reply.Delivered? ==> r == reply
    ensures r.Rejected? ==> r.error.ErrorObj? && Prop(r.error, "error") == Undefined
  {
    match reply
    case Delivered(_) => reply
    case Rejected(e) => Rejected(Rethrown(e))
  }

  /** A server error body with a non-empty message: the re-thrown error carries that message. */
  lemma RethrownServerMessage(e: Value, m: string)
    requires e.Obj? && Prop(e, "error").Obj? && Prop(Prop(e, "error"), "message") == Str(m) && m != ""
    ensures Rethrown(e) == ErrorObj(m)
  {
  }

  /** Without a usable server message, the re-thrown error carries the response's own text message. */
  lemma RethrownOwnMessage(e: Value, m: string)
    requires e.Obj? && !Truthy(Prop(e, "error")) && Prop(e, "message") == Str(m)
    ensures Rethrown(e) == ErrorObj(m)
  {
  }

  /**
   * The main-record request of the store effect leaves with its own
   * `encoding` header dropped and the JSON content type under the
   * interceptor's spelling.
   */
  lemma MainRequestHeadersReplaced(api: string, token: Value)
    ensures Lookup(Decorate(MainEffects.MainRequest(api), token).headers, "encoding") == None
    ensures Lookup(Decorate(MainEffects.MainRequest(api), token).headers, "Content-Type") == Some(Str("application/json"))
    ensures Decorate(MainEffects.MainRequest(api), token).url == api + "/main/main"
  {
    DecorateDropsOthers(MainEffects.MainRequest(api), token, "encoding");
  }
}
