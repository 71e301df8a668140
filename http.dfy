/** What a service worker sees of HTTP: the intercepted request (with its
    URL already split into origin, host and path), the responses it hands
    back, and the outcome of one call to the network. */
module Http {
  import Base

  /** An intercepted GET request. `url` is the full URL string; `origin`,
      `host` and `path` are its parsed parts (`new URL(request.url)`'s
      `origin`, `hostname` and `pathname`; `host` holds the hostname, without
      a port);
      `mode` and `destination` are the request's own fields
      ("navigate", "cors", ...; "script", "style", "image", "" ...). */
  datatype Request = Request(
    url: string,
    origin: string,
    host: string,
    path: string,
    mode: string,
    destination: string)
  {
    predicate IsNavigation() { mode == "navigate" }
  }

  /** The bodies the workers produce themselves are named; everything that
      comes from the network is `Fetched`. */
  datatype Body =
    | Fetched(content: string)        // a body produced by the server
    | Text(text: string)              // a short literal text body
    | ShellOfflinePage                // the page service-worker.js synthesizes
    | FinalOfflinePage                // OFFLINE_PAGE of sw-final.js
    | OfflineApiError(message: string) // JSON {error: "Sin conexión", message, offline: true}
    | SvgPlaceholder                  // the inline "Sin imagen" SVG of sw-final.js

  /** A response: its status, its Content-Type and its body. */
  datatype Response = Response(status: int, contentType: string, body: Body)
  {
    /** The Fetch standard's `ok`: a status in the range 200-299. */
    predicate Ok() { 200 <= status <= 299 }
  }

  /** One call to `fetch`: it either rejects (network failure) or yields a
      response, whatever its status. */
  datatype NetOutcome = Fail | Resp(response: Response)

  /** The whole URL ends in an image extension, ignoring case
      (`/\.(jpg|jpeg|png|gif|webp|svg)$/i`). */
  predicate HasImageExtension(url: string)
  {
    var u := Base.Lower(url);
    Base.EndsWith(u, ".jpg") || Base.EndsWith(u, ".jpeg") || Base.EndsWith(u, ".png")
    || Base.EndsWith(u, ".gif") || Base.EndsWith(u, ".webp") || Base.EndsWith(u, ".svg")
  }

  /** `new Response(text, {status})` without headers: a text/plain body. */
  const PlainText: string := "text/plain;charset=UTF-8"

  function TextResponse(status: int, text: string): Response
  {
    Response(status, PlainText, Text(text))
  }

  /** The key under which the Cache API stores a URL given relative to the
      worker's origin (`cache.match('/')`, `cache.add('/index.html')`). */
  function Resolve(origin: string, path: string): string
  {
    origin + path
  }
}
