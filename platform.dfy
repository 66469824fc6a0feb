/**
 * What the application's components see of the browser and the framework:
 * the router (modelled as the list of navigation targets it was asked for),
 * the failure shape of HTTP calls, and JavaScript's string conversion.
 */
module Platform {
  import opened Wrappers

  /** String(v) for an optional string: `undefined` prints as "undefined". */
  function JsString(o: Option<string>): (r: string)
    ensures o.Some? ==> r == o.value
    ensures o.None? ==> r == "undefined"
  {
    match o
    case Some(s) => s
    case None => "undefined"
  }

  /** JavaScript truthiness of an optional string: present and non-empty. */
  predicate Truthy(o: Option<string>)
  {
    o.Some? && o.value != ""
  }

  /**
   * A failed HTTP call as the components read it: `err.status`,
   * `err.message` and `err.error?.message` (the backend's message).
   */
  datatype HttpError = HttpError(status: int, message: Option<string>, errorMessage: Option<string>)

  /** The outcome of one call into the generated API client. */
  datatype ApiResult<T> = Ok(body: T) | Err(error: HttpError)

  /** The status codes on which the views log the user out. */
  predicate IsAuthFailure(status: int)
  {
    status == 401 || status == 403
  }

  /** The application-wide router; `log` lists the URLs navigated to, oldest first. */
  class Router {
    var log: seq<string>

    constructor()
      ensures log == []
    {
      log := [];
    }

    method Navigate(url: string)
      modifies this
      ensures log == old(log) + [url]
    {
      log := log + [url];
    }
  }
}
