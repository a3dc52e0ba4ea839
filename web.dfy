/** The browser and build-time values the model works on: URLs, requests,
    responses, the network (an oracle), and precache manifest entries. */
module Web {
  import opened Wrappers

  /** A parsed URL (the fields of a `URL` object or of `parseUrl`'s record). */
  datatype Url = Url(href: string, hostname: string, pathname: string, search: string, hash: string)

  /** `Request.mode`. */
  datatype Mode = Navigate | SameOrigin | NoCors | Cors

  /** A request: its HTTP method (`verb`), target URL and mode. */
  datatype Request = Request(verb: string, url: Url, mode: Mode)

  /** A response snapshot: status line, body text and content type. */
  datatype Response = Response(status: nat, statusText: string, body: string, contentType: string) {
    /** `response.ok`: the status is in the range 200-299. */
    predicate Ok() {
      200 <= status <= 299
    }
  }

  /** The network, seen as an oracle: the response a fetch of a URL would give;
      a URL with no entry is one whose fetch fails (offline, DNS, CORS). */
  type Network = map<string, Response>

  const FailedToFetch := "Failed to fetch"

  /** `fetch(url)`: fulfils with whatever response arrives, whatever its status,
      and rejects with a `TypeError` only when no response arrives. */
  function Fetch(net: Network, url: string): (r: Outcome<Response>)
    ensures r.Fulfilled? <==> url in net
    ensures r.Fulfilled? ==> r.value == net[url]
    ensures r.Rejected? ==> r.error == TypeError(FailedToFetch)
  {
    if url in net then Fulfilled(net[url]) else Rejected(TypeError(FailedToFetch))
  }

  /** A precache manifest entry `{url, revision}` as workbox-build emits it. */
  datatype ManifestEntry = ManifestEntry(url: string, revision: Option<string>)
}
