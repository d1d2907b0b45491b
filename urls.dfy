// The websocket endpoints: a path joined onto the client's base URL, with
// the HTTP scheme rewritten to its websocket counterpart, and the query
// pairs the streaming builders append to it.
module StreamUrls {
  import opened Wrappers
  import opened Query

  /**
   * An absolute URL of one of the four schemes the client accepts. `path`
   * is the hierarchical path (it starts with '/' once the URL is parsed) and
   * `query` the pairs in the order they were appended.
   */
  datatype Url = Url(scheme: string, authority: string, path: string, query: seq<Pair>)

  /** The path with its last segment removed: everything up to and including the last '/'. */
  function Directory(path: string): (d: string)
    ensures |d| >= 1 && d[|d| - 1] == '/'
    ensures |path| >= 1 && path[|path| - 1] == '/' ==> d == path
    ensures '/' !in path ==> d == "/"
  {
    if path == [] then "/"
    else if path[|path| - 1] == '/' then path
    else Directory(path[..|path| - 1])
  }

  /**
   * `Url::join` with a relative path reference (no scheme, no leading '/',
   * no dot segments, no query): the merge of section 5.2.3 of RFC 3986.
   */
  function Join(base: Url, rel: string): (u: Url)
    ensures u.scheme == base.scheme && u.authority == base.authority && u.query == []
    ensures u.path == Directory(base.path) + rel
  {
    Url(base.scheme, base.authority, Directory(base.path) + rel, [])
  }

  /** The websocket scheme for a base scheme; none for a scheme the client never accepts. */
  function WebsocketScheme(s: string): (r: Option<string>)
    ensures r == Some("ws") <==> s == "http" || s == "ws"
    ensures r == Some("wss") <==> s == "https" || s == "wss"
    ensures r.None? <==> s !in ["http", "ws", "https", "wss"]
  {
    if s == "http" || s == "ws" then Some("ws")
    else if s == "https" || s == "wss" then Some("wss")
    else None
  }

  /** A rewritten scheme is rewritten to itself. */
  lemma WebsocketSchemeIdempotent(s: string)
    requires WebsocketScheme(s).Some?
    ensures WebsocketScheme(WebsocketScheme(s).value) == WebsocketScheme(s)
  {
  }

  /**
   * The base URL joined with `rel` and its scheme rewritten; nothing when the
   * base has a scheme the client rejects at construction (the source's
   * `unreachable!`/`panic!` branch).
   */
  function StreamUrl(base: Url, rel: string): (r: Option<Url>)
    ensures r.Some? <==> base.scheme in ["http", "ws", "https", "wss"]
    ensures r.Some? ==> r.value.authority == base.authority && r.value.path == Directory(base.path) + rel
                        && r.value.query == []
    ensures r.Some? ==> (r.value.scheme == "wss" <==> base.scheme in ["https", "wss"])
    ensures r.Some? ==> (r.value.scheme == "ws" <==> base.scheme in ["http", "ws"])
  {
    var u := Join(base, rel);
    match WebsocketScheme(u.scheme)
    case Some(s) => Some(u.(scheme := s))
    case None => None
  }

  const FluxPath: string := "v2/listen"
  const ListenPath: string := "v1/listen"
  const SpeakPath: string := "v1/speak"

  /** `Transcription::flux_url`. */
  function FluxUrl(base: Url): Option<Url>
  {
    StreamUrl(base, FluxPath)
  }

  /** `Transcription::listen_stream_url`. */
  function ListenStreamUrl(base: Url): Option<Url>
  {
    StreamUrl(base, ListenPath)
  }

  /** The URL `WebsocketBuilder::as_url` starts from before adding pairs. */
  function SpeakStreamUrl(base: Url): Option<Url>
  {
    StreamUrl(base, SpeakPath)
  }

  /** The query string of a URL: each pair form-urlencoded as `append_pair` writes it, joined by '&'. */
  function QueryString(u: Url): string
  {
    Urlencoded(u.query)
  }

  /** `Url::to_string`: the query part appears only when there are pairs. */
  function UrlString(u: Url): (s: string)
    ensures u.query == [] ==> s == u.scheme + "://" + u.authority + u.path
  {
    u.scheme + "://" + u.authority + u.path + (if u.query == [] then "" else "?" + QueryString(u))
  }

  /** `url.query_pairs_mut().append_pair(k, v)` for each pair in order. */
  function AppendPairs(u: Url, ps: seq<Pair>): (r: Url)
    ensures r.scheme == u.scheme && r.authority == u.authority && r.path == u.path
    ensures |r.query| == |u.query| + |ps|
    ensures r.query[..|u.query|] == u.query && r.query[|u.query|..] == ps
  {
    u.(query := u.query + ps)
  }

  /** The client's default base URL, `https://api.deepgram.com/`. */
  const DefaultBase: Url := Url("https", "api.deepgram.com", "/", [])

  /** A base given as `http://localhost:8080`: parsing gives it the path "/". */
  const LocalBase: Url := Url("http", "localhost:8080", "/", [])

  /** The Flux endpoint on the default base. */
  lemma FluxUrlDefault()
    ensures FluxUrl(DefaultBase).Some? && UrlString(FluxUrl(DefaultBase).value) == "wss://api.deepgram.com/v2/listen"
  {
  }

  /** The Flux endpoint on a plain-HTTP host. */
  lemma FluxUrlLocal()
    ensures FluxUrl(LocalBase).Some? && UrlString(FluxUrl(LocalBase).value) == "ws://localhost:8080/v2/listen"
  {
  }

  /** The live listening endpoint on the default base. */
  lemma ListenStreamUrlDefault()
    ensures ListenStreamUrl(DefaultBase).Some?
            && UrlString(ListenStreamUrl(DefaultBase).value) == "wss://api.deepgram.com/v1/listen"
  {
  }

  /** The live listening endpoint on a plain-HTTP host. */
  lemma ListenStreamUrlLocal()
    ensures ListenStreamUrl(LocalBase).Some?
            && UrlString(ListenStreamUrl(LocalBase).value) == "ws://localhost:8080/v1/listen"
  {
  }

  /** A base with a deeper path keeps its directory: `https://h/proxy/` gives `wss://h/proxy/v1/speak`. */
  lemma SpeakStreamUrlUnderPath()
    ensures SpeakStreamUrl(Url("https", "h", "/proxy/", [])).Some?
            && UrlString(SpeakStreamUrl(Url("https", "h", "/proxy/", [])).value) == "wss://h/proxy/v1/speak"
  {
  }
}
