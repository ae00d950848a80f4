/**
 * The shapes of the requests the client sends to the resource gateway and of
 * the replies it gets back. The gateway itself is never modelled: its answers
 * are parameters of the operations that consume them.
 */
module Http {
  import opened Wrappers

  /** A query-string value: `URLSearchParams.append` is given either a string or a number. */
  datatype ParamValue = Text(text: string) | Number(number: int)

  /** A URL relative to the configured API base, with its query parameters in append order. */
  datatype Url = Url(path: string, params: seq<(string, ParamValue)>)

  datatype Verb = GET | POST | DELETE

  datatype Body =
    | NoBody
    | NewFolder(name: string, parentFolderId: Option<string>)
    | Multipart(fileName: string, folderId: Option<string>)

  datatype Request = Request(verb: Verb, url: Url, body: Body)

  /**
   * What awaiting one request yields: a response with `ok` set and a parsed
   * body, a response whose `ok` is false, or a rejected promise (network
   * failure) carrying the error's message.
   */
  datatype Reply<+T> = Ok(body: T) | NotOk(status: int) | NetworkError(message: string)

  /** The value of the first query parameter named `key`, if any. */
  function Param(u: Url, key: string): Option<ParamValue> {
    ParamIn(u.params, key)
  }

  function ParamIn(ps: seq<(string, ParamValue)>, key: string): Option<ParamValue> {
    if ps == [] then None
    else if ps[0].0 == key then Some(ps[0].1)
    else ParamIn(ps[1..], key)
  }

  /** A bare GET with no query string. */
  function Get(path: string): Request {
    Request(GET, Url(path, []), NoBody)
  }
}
