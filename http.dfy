/** Values shared by the two proxy route handlers and the client-side fetch:
    the upstream provider's answer, taken as an input instead of a network call,
    and the JSON responses the handlers send back. */
module Http {

  datatype Option<+T> = None | Some(value: T)

  /** JavaScript truthiness of an optional string: `null`, `undefined` and `""` are falsy. */
  predicate Given(s: Option<string>) {
    s.Some? && s.value != ""
  }

  /** An opaque JSON document, carried through without being inspected. */
  datatype Json = Json(text: string)

  /** A value thrown by `fetch` or `response.json()`: an `Error` object with its message,
      or anything else. */
  datatype Thrown = ErrorObject(message: string) | NonErrorValue

  /** What `await response.json()` does with the body of a reply. */
  datatype Decoded = Parsed(json: Json) | Unparsable(cause: Thrown)

  /** What the weather provider does with the one request a handler issues:
      it replies with a status and a body, or the call itself throws
      (timeout, DNS failure, connection reset). */
  datatype Outcome = Reply(status: int, body: Decoded) | Fault(cause: Thrown)

  /** `response.ok` of the Fetch standard: a status in the range 200 to 299. */
  predicate IsOk(status: int) {
    200 <= status <= 299
  }

  /** The JSON body of a handler's response: a fixed `{ error: ... }` object,
      or the provider's document passed through. */
  datatype Body = ErrorBody(error: string) | PassThrough(json: Json)

  datatype Response = Response(status: int, body: Body)

  /** One invocation of a handler: the upstream URL it fetched, if it fetched at all,
      and the response it returned. */
  datatype Exchange = Exchange(request: Option<string>, response: Response)

  const CityRequired := "City parameter is required"
  const CityNotFound := "City not found"

  /** The common `try { fetch ... } catch { ... }` tail of both handlers: a 404 is
      reported as "City not found", every other failure as `failure` with status 500,
      and an ok reply is passed through with the default status 200. */
  function Relay(upstream: Outcome, failure: string): (r: Response)
    ensures r.status in {200, 404, 500}
    ensures upstream.Reply? && upstream.status == 404 ==> r == Response(404, ErrorBody(CityNotFound))
    ensures r.status == 200 <==> upstream.Reply? && IsOk(upstream.status) && upstream.body.Parsed?
    ensures r.status == 200 ==> r.body == PassThrough(upstream.body.json)
    ensures r.status == 500 <==> !(upstream.Reply? && (upstream.status == 404 || (IsOk(upstream.status) && upstream.body.Parsed?)))
    ensures r.status == 500 ==> r.body == ErrorBody(failure)
  {
    match upstream
    case Fault(_) => Response(500, ErrorBody(failure))
    case Reply(status, body) =>
      if !IsOk(status) then
        if status == 404 then Response(404, ErrorBody(CityNotFound))
        else Response(500, ErrorBody(failure))
      else
        match body
        case Parsed(json) => Response(200, PassThrough(json))
        case Unparsable(_) => Response(500, ErrorBody(failure))
  }
}
