/**
 * The request augmenter (authInterceptor): a request goes on with an
 * `Authorization: Bearer <token>` header when the session has a token,
 * and unchanged otherwise.
 */
module Interceptor {
  import opened Wrappers
  import Session
  import opened Platform

  const AUTHORIZATION := "Authorization"
  const BEARER := "Bearer "

  /** An outgoing request; requests are immutable, a changed one is a clone. */
  datatype HttpRequest = HttpRequest(httpMethod: string, url: string, body: Option<string>, headers: map<string, string>)

  /** The one request passed to the next handler, given the token `authToken`. */
  function Intercept(req: HttpRequest, authToken: Option<string>): (forwarded: HttpRequest)
    ensures forwarded.httpMethod == req.httpMethod && forwarded.url == req.url && forwarded.body == req.body
    ensures forall h :: h != AUTHORIZATION ==>
      (h in forwarded.headers <==> h in req.headers) && (h in req.headers ==> forwarded.headers[h] == req.headers[h])
    ensures Truthy(authToken) ==>
      AUTHORIZATION in forwarded.headers && forwarded.headers[AUTHORIZATION] == BEARER + authToken.value
    ensures !Truthy(authToken) ==> forwarded == req
  {
    if Truthy(authToken) then
      req.(headers := req.headers[AUTHORIZATION := BEARER + authToken.value])
    else
      req
  }

  /** The interceptor as installed: the token is the service's in-memory one. */
  function AuthInterceptor(auth: Session.AuthService, req: HttpRequest): (forwarded: HttpRequest)
    reads auth
    ensures forwarded.httpMethod == req.httpMethod && forwarded.url == req.url && forwarded.body == req.body
    ensures forall h :: h != AUTHORIZATION ==>
      (h in forwarded.headers <==> h in req.headers) && (h in req.headers ==> forwarded.headers[h] == req.headers[h])
    ensures auth.GetToken().None? ==> forwarded == req
    ensures auth.GetToken().Some? ==>
      AUTHORIZATION in forwarded.headers && forwarded.headers[AUTHORIZATION] == BEARER + auth.GetToken().value
  {
    Intercept(req, auth.GetToken())
  }

  /** The token a `Bearer` header value carries. */
  function BearerToken(value: string): Option<string>
  {
    if |value| >= |BEARER| && value[..|BEARER|] == BEARER then Some(value[|BEARER|..]) else None
  }

  /** The header value a server reads gives back the session's token. */
  lemma HeaderCarriesToken(req: HttpRequest, token: string)
    requires token != ""
    ensures BearerToken(Intercept(req, Some(token)).headers[AUTHORIZATION]) == Some(token)
  {
    var v := BEARER + token;
    assert v[..|BEARER|] == BEARER && v[|BEARER|..] == token;
  }

  /** Passing a request through twice adds nothing more: the header is set, not appended. */
  lemma InterceptIdempotent(req: HttpRequest, authToken: Option<string>)
    ensures Intercept(Intercept(req, authToken), authToken) == Intercept(req, authToken)
  {
  }

  /** The installed interceptor depends on the in-memory user only: the services' local storage plays no part. */
  lemma TokenNotReadFromStorage(a1: Session.AuthService, a2: Session.AuthService, req: HttpRequest)
    requires a1.currentUser == a2.currentUser
    ensures AuthInterceptor(a1, req) == AuthInterceptor(a2, req)
  {
  }

  /** After a successful load, requests carry the stored `auth_token`. */
  lemma RestoredSessionSendsStoredToken(st: map<string, string>, req: HttpRequest)
    requires Session.Restored(st).authenticated
    ensures Intercept(req, Session.TokenOf(Session.Restored(st).user)).headers[AUTHORIZATION]
      == BEARER + st[Session.TOKEN_KEY]
  {
    Session.RestoredTokenIsStoredToken(st);
  }
}
