// The Flux request builder (src/listen/flux.rs): the streaming URL the
// builder starts from, the two streaming-only parameters, and the URL it
// connects to, whose query is the option pairs, read back from their query
// text, followed by those parameters.
module FluxRequest {
  import opened Wrappers
  import opened Query
  import opened CommonNames
  import opened StreamUrls
  import CommonOptions

  /** The streaming-only parameters, each only when set: encoding, then sample rate. */
  function StreamParams(encoding: Option<Encoding>, sampleRate: Option<u32>): (ps: seq<Pair>)
    ensures Keys(ps) == (if encoding.Some? then ["encoding"] else []) + (if sampleRate.Some? then ["sample_rate"] else [])
    ensures Values(ps, "encoding") == (if encoding.Some? then [EncodingName(encoding.value)] else [])
    ensures Values(ps, "sample_rate") == (if sampleRate.Some? then [NatString(sampleRate.value)] else [])
  {
    var e: seq<Pair> := if encoding.Some? then [("encoding", EncodingName(encoding.value))] else [];
    var r: seq<Pair> := if sampleRate.Some? then [("sample_rate", NatString(sampleRate.value))] else [];
    ValuesAppend(e, r, "encoding");
    ValuesAppend(e, r, "sample_rate");
    KeysAppend(e, r);
    e + r
  }

  /**
   * The URL `as_url` builds: the pairs `ps` of the options appended to the
   * stream URL, then the streaming parameters.
   */
  function ConnectUrl(streamUrl: Url, ps: seq<Pair>, encoding: Option<Encoding>, sampleRate: Option<u32>): (u: Url)
    ensures u.scheme == streamUrl.scheme && u.authority == streamUrl.authority && u.path == streamUrl.path
  {
    AppendPairs(AppendPairs(streamUrl, ps), StreamParams(encoding, sampleRate))
  }

  /**
   * The connection URL carries the stream URL's own query, then every option
   * pair in order, then the streaming parameters.
   */
  lemma ConnectUrlQuery(streamUrl: Url, ps: seq<Pair>, encoding: Option<Encoding>, sampleRate: Option<u32>)
    ensures var q := ConnectUrl(streamUrl, ps, encoding, sampleRate).query;
      var n := |streamUrl.query|;
      |q| == n + |ps| + |StreamParams(encoding, sampleRate)|
      && q[..n] == streamUrl.query
      && q[n..n + |ps|] == ps
      && q[n + |ps|..] == StreamParams(encoding, sampleRate)
  {
    var q := ConnectUrl(streamUrl, ps, encoding, sampleRate).query;
    assert q == streamUrl.query + ps + StreamParams(encoding, sampleRate);
  }

  /** With neither streaming parameter set and no query of its own, the URL's query is the options' pairs. */
  lemma ConnectUrlOptionsOnly(streamUrl: Url, ps: seq<Pair>)
    requires streamUrl.query == []
    ensures ConnectUrl(streamUrl, ps, None, None).query == ps
  {
    assert ConnectUrl(streamUrl, ps, None, None).query == [] + ps + [];
  }

  /** Both streaming parameters set: `encoding` then `sample_rate`, after the option pairs. */
  lemma ConnectUrlBothParams(streamUrl: Url, ps: seq<Pair>, e: Encoding, r: u32)
    requires streamUrl.query == []
    ensures ConnectUrl(streamUrl, ps, Some(e), Some(r)).query
            == ps + [("encoding", EncodingName(e)), ("sample_rate", NatString(r))]
  {
    assert ConnectUrl(streamUrl, ps, Some(e), Some(r)).query == [] + ps + StreamParams(Some(e), Some(r));
  }

  /** `FluxBuilder`: the options, the two streaming parameters and the URL it starts from. */
  class FluxBuilder {
    var options: CommonOptions.Options
    var encoding: Option<Encoding>
    var sampleRate: Option<u32>
    var streamUrl: Url

    /** `flux_request_with_options`: the Flux endpoint of the client's base URL, nothing else set. */
    constructor(base: Url, options: CommonOptions.Options)
      requires base.scheme in ["http", "ws", "https", "wss"]
      ensures FluxUrl(base).Some? && streamUrl == FluxUrl(base).value
      ensures this.options == options && encoding.None? && sampleRate.None?
    {
      this.options := options;
      encoding := None;
      sampleRate := None;
      streamUrl := FluxUrl(base).value;
    }

    method SetEncoding(e: Encoding)
      modifies this
      ensures encoding == Some(e)
      ensures options == old(options) && sampleRate == old(sampleRate) && streamUrl == old(streamUrl)
    {
      encoding := Some(e);
    }

    method SetSampleRate(r: u32)
      modifies this
      ensures sampleRate == Some(r)
      ensures options == old(options) && encoding == old(encoding) && streamUrl == old(streamUrl)
    {
      sampleRate := Some(r);
    }

    /**
     * `as_url`: the options' query text read back by the form parser
     * (`serde_urlencoded::from_str`), then the streaming parameters.
     */
    function AsUrl(): Url
      reads this
    {
      ConnectUrl(streamUrl, ParsePairs(CommonOptions.UrlencodedOptions(options)), encoding, sampleRate)
    }

    /** `urlencoded`: the query of that URL. */
    function Urlencoded(): string
      reads this
    {
      QueryString(AsUrl())
    }
  }

  /** A fresh Flux builder's query string is the options' query string, whatever the base. */
  method FreshBuilderQuery(base: Url, options: CommonOptions.Options) returns (q: string)
    requires base.scheme in ["http", "ws", "https", "wss"]
    ensures q == CommonOptions.UrlencodedOptions(options)
  {
    var b := new FluxBuilder(base, options);
    ParseUrlencoded(CommonOptions.Pairs(options));
    ConnectUrlOptionsOnly(b.streamUrl, CommonOptions.Pairs(options));
    q := b.Urlencoded();
  }

  /** Setting both streaming parameters appends `encoding` then `sample_rate` after the option pairs. */
  method BuilderWithParams(base: Url, options: CommonOptions.Options, e: Encoding, r: u32) returns (q: seq<Pair>)
    requires base.scheme in ["http", "ws", "https", "wss"]
    ensures q == CommonOptions.Pairs(options) + [("encoding", EncodingName(e)), ("sample_rate", NatString(r))]
  {
    var b := new FluxBuilder(base, options);
    b.SetSampleRate(r);
    b.SetEncoding(e);
    ParseUrlencoded(CommonOptions.Pairs(options));
    ConnectUrlBothParams(b.streamUrl, CommonOptions.Pairs(options), e, r);
    q := b.AsUrl().query;
  }
}
