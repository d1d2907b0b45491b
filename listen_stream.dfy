// Live transcription over a websocket (src/listen/websocket.rs): the request
// builder and the URL `start` connects to, the messages a running stream
// writes (`finalize`, `finish`, keep-alives), and the task that forwards the
// audio source to the socket.
//
// The socket is modelled by how many more writes it accepts: once that many
// writes have gone through, every later write fails.
module ListenStream {
  import opened Wrappers
  import opened Query
  import opened CommonNames
  import opened StreamUrls
  import opened FileChunking
  import CommonOptions
  import FormUrlencoded

  /** The streaming parameters `start` appends after the options. */
  datatype Params = Params(
    encoding: Option<Encoding>,
    sampleRate: Option<u32>,
    channels: Option<u16>,
    endpointing: Option<Endpointing>,
    utteranceEndMs: Option<u16>,
    interimResults: Option<bool>,
    noDelay: Option<bool>,
    vadEvents: Option<bool>)

  const NoParams: Params := Params(None, None, None, None, None, None, None, None)

  /** The streaming parameters as pairs, each only when set, in a fixed order. */
  function ParamPairs(p: Params): seq<Pair>
  {
    IfSome("encoding", MapOpt(EncodingName, p.encoding))
    + IfSome("sample_rate", MapOpt(NatString, p.sampleRate))
    + IfSome("channels", MapOpt(NatString, p.channels))
    + IfSome("endpointing", MapOpt(EndpointingText, p.endpointing))
    + IfSome("utterance_end_ms", MapOpt(NatString, p.utteranceEndMs))
    + IfSome("interim_results", MapOpt(BoolString, p.interimResults))
    + IfSome("no_delay", MapOpt(BoolString, p.noDelay))
    + IfSome("vad_events", MapOpt(BoolString, p.vadEvents))
  }

  function Key(k: string, given: bool): seq<string>
  {
    if given then [k] else []
  }

  /** The keys of the set parameters, in the order encoding, sample_rate, channels, endpointing, utterance_end_ms, interim_results, no_delay, vad_events. */
  function ParamKeys(p: Params): seq<string>
  {
    Key("encoding", p.encoding.Some?) + Key("sample_rate", p.sampleRate.Some?)
    + Key("channels", p.channels.Some?) + Key("endpointing", p.endpointing.Some?)
    + Key("utterance_end_ms", p.utteranceEndMs.Some?) + Key("interim_results", p.interimResults.Some?)
    + Key("no_delay", p.noDelay.Some?) + Key("vad_events", p.vadEvents.Some?)
  }

  lemma KeysOfEight(a: seq<Pair>, b: seq<Pair>, c: seq<Pair>, d: seq<Pair>,
                    e: seq<Pair>, f: seq<Pair>, g: seq<Pair>, h: seq<Pair>)
    ensures Keys(a + b + c + d + e + f + g + h)
            == Keys(a) + Keys(b) + Keys(c) + Keys(d) + Keys(e) + Keys(f) + Keys(g) + Keys(h)
  {
    KeysAppend(a, b);
    KeysAppend(a + b, c);
    KeysAppend(a + b + c, d);
    KeysAppend(a + b + c + d, e);
    KeysAppend(a + b + c + d + e, f);
    KeysAppend(a + b + c + d + e + f, g);
    KeysAppend(a + b + c + d + e + f + g, h);
  }

  lemma KeyPresent<T>(k: string, f: T -> string, o: Option<T>)
    ensures Keys(IfSome(k, MapOpt(f, o))) == Key(k, o.Some?)
  {
  }

  /** The parameters appear exactly when set, in the fixed order. */
  lemma ParamOrder(p: Params)
    ensures Keys(ParamPairs(p)) == ParamKeys(p)
  {
    KeysOfEight(IfSome("encoding", MapOpt(EncodingName, p.encoding)),
                IfSome("sample_rate", MapOpt(NatString, p.sampleRate)),
                IfSome("channels", MapOpt(NatString, p.channels)),
                IfSome("endpointing", MapOpt(EndpointingText, p.endpointing)),
                IfSome("utterance_end_ms", MapOpt(NatString, p.utteranceEndMs)),
                IfSome("interim_results", MapOpt(BoolString, p.interimResults)),
                IfSome("no_delay", MapOpt(BoolString, p.noDelay)),
                IfSome("vad_events", MapOpt(BoolString, p.vadEvents)));
    KeyPresent("encoding", EncodingName, p.encoding);
    KeyPresent("sample_rate", NatString, p.sampleRate);
    KeyPresent("channels", NatString, p.channels);
    KeyPresent("endpointing", EndpointingText, p.endpointing);
    KeyPresent("utterance_end_ms", NatString, p.utteranceEndMs);
    KeyPresent("interim_results", BoolString, p.interimResults);
    KeyPresent("no_delay", BoolString, p.noDelay);
    KeyPresent("vad_events", BoolString, p.vadEvents);
  }

  /** With no parameter set, nothing is appended. */
  lemma NoParamsNoPairs()
    ensures ParamPairs(NoParams) == []
  {
  }

  /** Endpointing and the flags are written with their own texts. */
  lemma ParamTexts(ep: Endpointing, interim: bool)
    ensures ParamPairs(NoParams.(endpointing := Some(ep), interimResults := Some(interim)))
            == [("endpointing", EndpointingText(ep)), ("interim_results", if interim then "true" else "false")]
  {
    var p := NoParams.(endpointing := Some(ep), interimResults := Some(interim));
    assert IfSome("endpointing", MapOpt(EndpointingText, p.endpointing)) == [("endpointing", EndpointingText(ep))];
    assert IfSome("interim_results", MapOpt(BoolString, p.interimResults))
           == [("interim_results", if interim then "true" else "false")];
  }

  /**
   * The option pairs as `start` reads them back, AS WRITTEN: the options'
   * form-urlencoded query string split on '&', each piece split at its
   * first '=', with no decoding; `append_pair` then encodes these again.
   */
  function OptionPairsAsWritten(options: Option<CommonOptions.Options>): seq<Pair>
  {
    if options.Some? then QueryPairs(CommonOptions.UrlencodedOptions(options.value)) else []
  }

  /** The option pairs `start` evidently means to append: the options' own pairs. */
  function OptionPairs(options: Option<CommonOptions.Options>): seq<Pair>
  {
    if options.Some? then CommonOptions.Pairs(options.value) else []
  }

  /**
   * Options with no set field serialise to the empty string, and splitting
   * that gives one pair with an empty key and value: the URL gets a spurious
   * `=` pair where no pair was meant.
   */
  lemma EmptyOptionsGiveEmptyPair()
    ensures OptionPairsAsWritten(Some(CommonOptions.Unset)) == [("", "")]
    ensures OptionPairs(Some(CommonOptions.Unset)) == []
  {
    CommonOptions.UnsetSendsNothing();
    assert CommonOptions.UrlencodedOptions(CommonOptions.Unset) == Urlencoded([]);
    assert Urlencoded([]) == "";
    QueryPairsEmpty();
  }

  /**
   * What the split gives back: the one empty pair for options that send
   * nothing, and otherwise every key and value still in its encoded form.
   */
  lemma OptionPairsReencoded(o: CommonOptions.Options)
    ensures OptionPairsAsWritten(Some(o))
         == if CommonOptions.Pairs(o) == [] then [("", "")] else Encoded(CommonOptions.Pairs(o))
  {
    var ps := CommonOptions.Pairs(o);
    if ps == [] {
      assert Urlencoded(ps) == "";
      QueryPairsEmpty();
    } else {
      QueryPairsEncoded(ps);
    }
  }

  /** The URL `start` connects to, AS WRITTEN: the split option pairs, then the streaming parameters. */
  function StartUrlAsWritten(streamUrl: Url, options: Option<CommonOptions.Options>, p: Params): Url
  {
    AppendPairs(streamUrl, OptionPairsAsWritten(options) + ParamPairs(p))
  }

  /** The URL `start` evidently means to connect to: the options' own pairs, then the streaming parameters. */
  function StartUrl(streamUrl: Url, options: Option<CommonOptions.Options>, p: Params): Url
  {
    AppendPairs(streamUrl, OptionPairs(options) + ParamPairs(p))
  }

  /** The query of the start URL keeps the stream URL's own pairs, then the options', then the parameters. */
  lemma StartQuery(streamUrl: Url, options: Option<CommonOptions.Options>, p: Params)
    ensures var q := StartUrl(streamUrl, options, p).query;
      var n := |streamUrl.query|;
      var m := |OptionPairs(options)|;
      |q| == n + m + |ParamPairs(p)|
      && q[..n] == streamUrl.query && q[n..n + m] == OptionPairs(options) && q[n + m..] == ParamPairs(p)
  {
    QueryParts(streamUrl.query, OptionPairs(options), ParamPairs(p));
  }

  /** For options that set nothing, the URL as written has the spurious pair where the intended one has none. */
  lemma StartUrlsDifferWhenUnset(streamUrl: Url, p: Params)
    ensures StartUrlAsWritten(streamUrl, Some(CommonOptions.Unset), p).query == streamUrl.query + [("", "")] + ParamPairs(p)
    ensures StartUrl(streamUrl, Some(CommonOptions.Unset), p).query == streamUrl.query + ParamPairs(p)
  {
    EmptyOptionsGiveEmptyPair();
    SpuriousPair(streamUrl, Some(CommonOptions.Unset), p);
  }

  /**
   * The URL as written is the intended one exactly when there are no
   * options, or the options send at least one pair and the form encoding
   * leaves every key and value of theirs unchanged.
   */
  lemma StartUrlsAgreeExactly(streamUrl: Url, options: Option<CommonOptions.Options>, p: Params)
    ensures StartUrlAsWritten(streamUrl, options, p) == StartUrl(streamUrl, options, p)
        <==> options.None?
             || (CommonOptions.Pairs(options.value) != []
                 && forall i :: 0 <= i < |CommonOptions.Pairs(options.value)| ==> UnchangedPair(CommonOptions.Pairs(options.value)[i]))
  {
    SameTail(streamUrl, OptionPairsAsWritten(options), OptionPairs(options), ParamPairs(p));
    if options.Some? {
      OptionPairsReencoded(options.value);
      EncodedUnchanged(CommonOptions.Pairs(options.value));
    }
  }

  /** Appending `a` then `c`, or `b` then `c`, gives the same URL exactly when `a` and `b` are equal. */
  lemma SameTail(u: Url, a: seq<Pair>, b: seq<Pair>, c: seq<Pair>)
    ensures AppendPairs(u, a + c) == AppendPairs(u, b + c) <==> a == b
  {
    if AppendPairs(u, a + c) == AppendPairs(u, b + c) {
      var qa, qb := u.query + (a + c), u.query + (b + c);
      assert qa == qb;
      assert |a| == |b|;
      assert a == qa[|u.query|..|u.query| + |a|];
      assert b == qb[|u.query|..|u.query| + |b|];
    }
  }

  /**
   * A keyword with an intensifier, `hello:2`: the serialiser writes its
   * colon as `%3A`, the split keeps that, and `append_pair` writes the `%`
   * as `%25`, so the server receives `hello%3A2` where `hello:2` was meant.
   */
  lemma KeywordEncodedTwice()
    ensures OptionPairs(Some(KeywordOptions())) == [("keywords", "hello:2")]
    ensures OptionPairsAsWritten(Some(KeywordOptions())) == [("keywords", "hello%3A2")]
    ensures PairText(("keywords", "hello:2")) == "keywords=" + "hello%3A2"
    ensures PairText(("keywords", "hello%3A2")) == "keywords=" + "hello%253A2"
  {
    KeywordOptionsPairs();
    KeywordAsWritten();
    KeywordIntendedText();
    KeywordAsWrittenText();
  }

  lemma KeywordAsWritten()
    ensures OptionPairsAsWritten(Some(KeywordOptions())) == [("keywords", "hello%3A2")]
  {
    KeywordOptionsPairs();
    OptionPairsReencoded(KeywordOptions());
    KeywordsUnchanged();
    HelloEncoded();
    assert Encoded([("keywords", "hello:2")]) == [(FormUrlencoded.Encode("keywords"), FormUrlencoded.Encode("hello:2"))];
  }

  lemma KeywordIntendedText()
    ensures PairText(("keywords", "hello:2")) == "keywords=" + "hello%3A2"
  {
    KeywordsKey();
    HelloEncoded();
  }

  lemma KeywordAsWrittenText()
    ensures PairText(("keywords", "hello%3A2")) == "keywords=" + "hello%253A2"
  {
    KeywordsKey();
    HelloEncodedTwice();
  }

  /** The options holding the one keyword `hello` with intensifier 2. */
  function KeywordOptions(): CommonOptions.Options
  {
    CommonOptions.Unset.(keywords := [CommonOptions.Keyword("hello", Some("2"))])
  }

  lemma KeywordOptionsPairs()
    ensures CommonOptions.Pairs(KeywordOptions()) == [("keywords", "hello:2")]
  {
    var o := KeywordOptions();
    assert CommonOptions.HeadPairs(o) == [];
    assert CommonOptions.KeywordText(o.keywords[0]) == "hello:2";
    assert CommonOptions.ListPairs(o) == [("keywords", "hello:2")];
    assert CommonOptions.TailPairs(o) == [];
  }

  lemma KeywordsUnchanged()
    ensures FormUrlencoded.Encode("keywords") == "keywords"
  {
    FormUrlencoded.UnreservedUnchanged("keywords");
  }

  lemma KeywordsKey()
    ensures FormUrlencoded.Encode("keywords") + "=" == "keywords="
  {
    KeywordsUnchanged();
    KeywordsLiteral();
  }

  lemma KeywordsLiteral()
    ensures "keywords" + "=" == "keywords="
  {
  }

  lemma HelloEncoded()
    ensures FormUrlencoded.Encode("hello:2") == "hello%3A2"
  {
    HelloLiterals();
    FormUrlencoded.ColonExamples();
    FormUrlencoded.EncodeInfix("hello", ":", "2");
  }

  lemma HelloEncodedTwice()
    ensures FormUrlencoded.Encode("hello%3A2") == "hello%253A2"
  {
    HelloLiterals();
    FormUrlencoded.ColonExamples();
    FormUrlencoded.EncodeInfix("hello", "%", "3A2");
  }

  lemma HelloLiterals()
    ensures "hello" + ":" + "2" == "hello:2"
    ensures "hello" + "%3A" + "2" == "hello%3A2"
    ensures "hello" + "%" + "3A2" == "hello%3A2"
    ensures "hello" + "%25" + "3A2" == "hello%253A2"
  {
  }

  /**
   * A search term holding `&`: the serialiser writes it as `%26`, so the
   * split still finds one pair, and `append_pair` sends `A%2526B` where
   * `A%26B` was meant.
   */
  lemma SearchEncodedTwice()
    ensures OptionPairs(Some(SearchOptions())) == [("search", "A&B")]
    ensures OptionPairsAsWritten(Some(SearchOptions())) == [("search", "A%26B")]
    ensures PairText(("search", "A&B")) == "search=" + "A%26B"
    ensures PairText(("search", "A%26B")) == "search=" + "A%2526B"
  {
    SearchOptionsPairs();
    SearchAsWritten();
    SearchIntendedText();
    SearchAsWrittenText();
  }

  /** The options holding the one search term `A&B`. */
  function SearchOptions(): CommonOptions.Options
  {
    CommonOptions.Unset.(search := ["A&B"])
  }

  lemma SearchOptionsPairs()
    ensures CommonOptions.Pairs(SearchOptions()) == [("search", "A&B")]
  {
    var o := SearchOptions();
    assert CommonOptions.HeadPairs(o) == [];
    assert CommonOptions.ListPairs(o) == [("search", "A&B")];
    assert CommonOptions.TailPairs(o) == [];
  }

  lemma SearchAsWritten()
    ensures OptionPairsAsWritten(Some(SearchOptions())) == [("search", "A%26B")]
  {
    SearchOptionsPairs();
    OptionPairsReencoded(SearchOptions());
    SearchUnchanged();
    AmpersandEncoded();
    assert Encoded([("search", "A&B")]) == [(FormUrlencoded.Encode("search"), FormUrlencoded.Encode("A&B"))];
  }

  lemma SearchIntendedText()
    ensures PairText(("search", "A&B")) == "search=" + "A%26B"
  {
    SearchKey();
    AmpersandEncoded();
  }

  lemma SearchAsWrittenText()
    ensures PairText(("search", "A%26B")) == "search=" + "A%2526B"
  {
    SearchKey();
    AmpersandEncodedTwice();
  }

  lemma SearchUnchanged()
    ensures FormUrlencoded.Encode("search") == "search"
  {
    FormUrlencoded.UnreservedUnchanged("search");
  }

  lemma SearchKey()
    ensures FormUrlencoded.Encode("search") + "=" == "search="
  {
    SearchUnchanged();
    SearchLiteral();
  }

  lemma SearchLiteral()
    ensures "search" + "=" == "search="
  {
  }

  lemma AmpersandEncoded()
    ensures FormUrlencoded.Encode("A&B") == "A%26B"
  {
    AmpersandLiterals();
    FormUrlencoded.ColonExamples();
    FormUrlencoded.EncodeInfix("A", "&", "B");
  }

  lemma AmpersandEncodedTwice()
    ensures FormUrlencoded.Encode("A%26B") == "A%2526B"
  {
    AmpersandLiterals();
    FormUrlencoded.ColonExamples();
    FormUrlencoded.EncodeInfix("A", "%", "26B");
  }

  lemma AmpersandLiterals()
    ensures "A" + "&" + "B" == "A&B"
    ensures "A" + "%26" + "B" == "A%26B"
    ensures "A" + "%" + "26B" == "A%26B"
    ensures "A" + "%25" + "26B" == "A%2526B"
  {
  }

  lemma SpuriousPair(streamUrl: Url, options: Option<CommonOptions.Options>, p: Params)
    requires OptionPairsAsWritten(options) == [("", "")] && OptionPairs(options) == []
    ensures StartUrlAsWritten(streamUrl, options, p).query == streamUrl.query + [("", "")] + ParamPairs(p)
    ensures StartUrl(streamUrl, options, p).query == streamUrl.query + ParamPairs(p)
  {
    var pp := ParamPairs(p);
    QueryAfter(streamUrl, OptionPairsAsWritten(options), pp);
    QueryAfter(streamUrl, OptionPairs(options), pp);
    assert [] + pp == pp;
  }

  lemma QueryAfter(u: Url, a: seq<Pair>, b: seq<Pair>)
    ensures AppendPairs(u, a + b).query == u.query + a + b
  {
  }

  lemma QueryParts(q: seq<Pair>, a: seq<Pair>, b: seq<Pair>)
    ensures var r := q + (a + b);
      |r| == |q| + |a| + |b| && r[..|q|] == q && r[|q|..|q| + |a|] == a && r[|q| + |a|..] == b
  {
  }

  datatype StartError = NoSource

  /** `StreamRequestBuilder`. */
  class StreamRequestBuilder {
    var options: Option<CommonOptions.Options>
    var source: Option<seq<Piece>>
    var params: Params
    var keepAlive: Option<bool>
    var streamUrl: Url

    /** `stream_request_with_options`: the live endpoint of the base URL, nothing else set. */
    constructor(base: Url, options: Option<CommonOptions.Options>)
      requires base.scheme in ["http", "ws", "https", "wss"]
      ensures ListenStreamUrl(base).Some? && streamUrl == ListenStreamUrl(base).value
      ensures this.options == options && source.None? && params == NoParams && keepAlive.None?
    {
      this.options := options;
      source := None;
      params := NoParams;
      keepAlive := None;
      streamUrl := ListenStreamUrl(base).value;
    }

    method Stream(s: seq<Piece>)
      modifies this
      ensures source == Some(s)
      ensures options == old(options) && params == old(params) && keepAlive == old(keepAlive) && streamUrl == old(streamUrl)
    {
      source := Some(s);
    }

    method SetEncoding(e: Encoding)
      modifies this
      ensures params == old(params).(encoding := Some(e))
      ensures options == old(options) && source == old(source) && keepAlive == old(keepAlive) && streamUrl == old(streamUrl)
    {
      params := params.(encoding := Some(e));
    }

    method SetSampleRate(r: u32)
      modifies this
      ensures params == old(params).(sampleRate := Some(r))
      ensures options == old(options) && source == old(source) && keepAlive == old(keepAlive) && streamUrl == old(streamUrl)
    {
      params := params.(sampleRate := Some(r));
    }

    method SetChannels(c: u16)
      modifies this
      ensures params == old(params).(channels := Some(c))
      ensures options == old(options) && source == old(source) && keepAlive == old(keepAlive) && streamUrl == old(streamUrl)
    {
      params := params.(channels := Some(c));
    }

    method SetEndpointing(e: Endpointing)
      modifies this
      ensures params == old(params).(endpointing := Some(e))
      ensures options == old(options) && source == old(source) && keepAlive == old(keepAlive) && streamUrl == old(streamUrl)
    {
      params := params.(endpointing := Some(e));
    }

    method SetUtteranceEndMs(ms: u16)
      modifies this
      ensures params == old(params).(utteranceEndMs := Some(ms))
      ensures options == old(options) && source == old(source) && keepAlive == old(keepAlive) && streamUrl == old(streamUrl)
    {
      params := params.(utteranceEndMs := Some(ms));
    }

    method SetInterimResults(b: bool)
      modifies this
      ensures params == old(params).(interimResults := Some(b))
      ensures options == old(options) && source == old(source) && keepAlive == old(keepAlive) && streamUrl == old(streamUrl)
    {
      params := params.(interimResults := Some(b));
    }

    method SetNoDelay(b: bool)
      modifies this
      ensures params == old(params).(noDelay := Some(b))
      ensures options == old(options) && source == old(source) && keepAlive == old(keepAlive) && streamUrl == old(streamUrl)
    {
      params := params.(noDelay := Some(b));
    }

    method SetVadEvents(b: bool)
      modifies this
      ensures params == old(params).(vadEvents := Some(b))
      ensures options == old(options) && source == old(source) && keepAlive == old(keepAlive) && streamUrl == old(streamUrl)
    {
      params := params.(vadEvents := Some(b));
    }

    /** `keep_alive`: turn on the keep-alive task. */
    method KeepAlive()
      modifies this
      ensures keepAlive == Some(true)
      ensures options == old(options) && source == old(source) && params == old(params) && streamUrl == old(streamUrl)
    {
      keepAlive := Some(true);
    }

    /** The URL part of `start`, corrected: NoSource when no source was given, else the intended URL. */
    method Start() returns (r: Result<Url, StartError>)
      ensures source.None? <==> r == Err(NoSource)
      ensures source.Some? ==> r == Ok(StartUrl(streamUrl, options, params))
    {
      var url := StartUrl(streamUrl, options, params);
      if source.None? {
        return Err(NoSource);
      }
      return Ok(url);
    }

    /**
     * `start` as written, up to the spawning of its tasks: the URL with the
     * split, still encoded option pairs; NoSource, before any connection and with no event,
     * when no source was given; otherwise, once connected, an Open event on
     * the caller's event channel. `stream` is the socket the connection
     * opens together with that channel; nothing is written to the socket.
     */
    method StartAsWritten(stream: TranscriptionStream) returns (r: Result<Url, StartError>)
      modifies stream
      ensures source.None? <==> r == Err(NoSource)
      ensures source.Some? ==> r == Ok(StartUrlAsWritten(streamUrl, options, params))
      ensures stream.events == old(stream.events) + (if source.Some? then [Open] else [])
      ensures stream.written == old(stream.written) && stream.capacity == old(stream.capacity)
    {
      var url := StartUrlAsWritten(streamUrl, options, params);
      if source.None? {
        return Err(NoSource);
      }
      stream.events := stream.events + [Open];
      return Ok(url);
    }
  }

  // ---------------------------------------------------------------------
  // What a running stream writes

  datatype Frame = TextFrame(text: string) | BinaryFrame(bytes: seq<byte>)

  /**
   * The errors a stream reports. A failed read of the source is reported as
   * `CustomError` of the error's debug text, which a `ReadError`'s `cause` stands for.
   */
  datatype StreamError = WriteFailed | CustomError(message: string)

  datatype StreamEvent = Open | Close | Error(error: StreamError)

  const FinalizeText: string := "{\"type\": \"Finalize\"}"
  const CloseStreamText: string := "{\"type\": \"CloseStream\"}"
  const KeepAliveText: string := "{\"type\": \"KeepAlive\"}"

  /** `TranscriptionStream`: the socket's write half and the event channel. */
  class TranscriptionStream {
    var written: seq<Frame>
    var events: seq<StreamEvent>
    var capacity: nat

    constructor(capacity: nat)
      ensures written == [] && events == [] && this.capacity == capacity
    {
      written := [];
      events := [];
      this.capacity := capacity;
    }

    /** Send an error event on the event channel; the socket is untouched. */
    method Report(e: StreamError)
      modifies this
      ensures events == old(events) + [Error(e)]
      ensures written == old(written) && capacity == old(capacity)
    {
      events := events + [Error(e)];
    }

    /** Write one frame; fails, writing nothing, once the socket takes no more. */
    method Write(f: Frame) returns (ok: bool)
      modifies this
      ensures ok <==> old(capacity) > 0
      ensures ok ==> written == old(written) + [f] && capacity == old(capacity) - 1
      ensures !ok ==> written == old(written) && capacity == 0
      ensures events == old(events)
    {
      if capacity == 0 {
        return false;
      }
      written := written + [f];
      capacity := capacity - 1;
      return true;
    }

    /** `finalize`: write the Finalize text; on failure report the error and fail. */
    method Finalize() returns (r: Result<(), StreamError>)
      modifies this
      ensures old(capacity) > 0 ==> r == Ok(()) && written == old(written) + [TextFrame(FinalizeText)] && events == old(events)
      ensures old(capacity) == 0 ==> r == Err(CustomError("Failed to send Finalize message"))
                                     && written == old(written) && events == old(events) + [Error(WriteFailed)]
    {
      var ok := Write(TextFrame(FinalizeText));
      if !ok {
        events := events + [Error(WriteFailed)];
        return Err(CustomError("Failed to send Finalize message"));
      }
      return Ok(());
    }

    /** `finish`: write the CloseStream text; only when that succeeds is a Close event emitted. */
    method Finish() returns (r: Result<(), StreamError>)
      modifies this
      ensures old(capacity) > 0 ==> r == Ok(()) && written == old(written) + [TextFrame(CloseStreamText)]
                                    && events == old(events) + [Close]
      ensures old(capacity) == 0 ==> r == Err(CustomError("Failed to send CloseStream message"))
                                     && written == old(written) && events == old(events) + [Error(WriteFailed)]
    {
      var ok := Write(TextFrame(CloseStreamText));
      if !ok {
        events := events + [Error(WriteFailed)];
        return Err(CustomError("Failed to send CloseStream message"));
      }
      events := events + [Close];
      return Ok(());
    }
  }

  // ---------------------------------------------------------------------
  // The send task

  datatype Sent = Sent(written: seq<Frame>, errors: seq<StreamError>, capacity: nat)

  /** The forwarding loop: each audio item is written until the source fails or a write fails. */
  function SendLoop(source: seq<Piece>, capacity: nat): (s: Sent)
    ensures s.capacity <= capacity
    ensures |s.written| == capacity - s.capacity
  {
    if source == [] then Sent([], [], capacity)
    else match source[0]
      case Err(e) => Sent([], [CustomError(e.cause)], capacity)
      case Ok(b) =>
        if capacity == 0 then Sent([], [WriteFailed], 0)
        else
          var s := SendLoop(source[1..], capacity - 1);
          Sent([BinaryFrame(b)] + s.written, s.errors, s.capacity)
  }

  /** The whole send task: the loop, then one empty binary frame to end the audio. */
  function SendTask(source: seq<Piece>, capacity: nat): Sent
  {
    var s := SendLoop(source, capacity);
    if s.capacity > 0 then Sent(s.written + [BinaryFrame([])], s.errors, s.capacity - 1)
    else Sent(s.written, s.errors + [WriteFailed], 0)
  }

  /** The audio of the items before the first read error. */
  function OkPrefix(source: seq<Piece>): (bs: seq<seq<byte>>)
    ensures |bs| <= |source|
    ensures forall i :: 0 <= i < |bs| ==> source[i] == Ok(bs[i])
    ensures |bs| < |source| ==> source[|bs|].Err?
  {
    if source == [] || source[0].Err? then [] else [source[0].value] + OkPrefix(source[1..])
  }

  function DataFrames(bs: seq<seq<byte>>): (fs: seq<Frame>)
    ensures |fs| == |bs|
    ensures forall i :: 0 <= i < |bs| ==> fs[i] == BinaryFrame(bs[i])
  {
    if bs == [] then [] else [BinaryFrame(bs[0])] + DataFrames(bs[1..])
  }

  function Min(a: nat, b: nat): nat
  {
    if a <= b then a else b
  }

  /**
   * The loop writes the audio before the first read error, as far as the
   * socket takes it, and reports the read error or the failed write that
   * ended it (at most one).
   */
  lemma {:induction false} SendLoopWrites(source: seq<Piece>, capacity: nat)
    ensures var s := SendLoop(source, capacity);
      var n := |OkPrefix(source)|;
      s.written == DataFrames(OkPrefix(source)[..Min(n, capacity)])
      && s.capacity == capacity - Min(n, capacity)
      && s.errors == (if capacity < n then [WriteFailed]
                      else if n < |source| then [CustomError(source[n].error.cause)]
                      else [])
    decreases |source|
  {
    if source == [] {
    } else if source[0].Err? {
      assert OkPrefix(source) == [];
    } else if capacity == 0 {
      assert |OkPrefix(source)| >= 1;
    } else {
      SendLoopWrites(source[1..], capacity - 1);
      var p := OkPrefix(source);
      var k := Min(|p|, capacity);
      assert OkPrefix(source[1..]) == p[1..];
      assert p[..k] == [p[0]] + p[1..][..k - 1];
      if |p| < |source| {
        assert source[1..][|p| - 1] == source[|p|];
      }
    }
  }

  /**
   * After the source ends or fails, exactly one empty binary frame follows
   * the audio, unless the socket has stopped taking writes by then.
   */
  lemma EndOfAudioFrame(source: seq<Piece>, capacity: nat)
    ensures var k := Min(|OkPrefix(source)|, capacity);
      SendTask(source, capacity).written
      == DataFrames(OkPrefix(source)[..k]) + (if capacity > k then [BinaryFrame([])] else [])
  {
    SendLoopWrites(source, capacity);
  }

  /** With a socket that takes everything, the audio before any read error goes out whole, then the empty frame. */
  lemma HealthySend(source: seq<Piece>, capacity: nat)
    requires capacity > |source|
    ensures SendTask(source, capacity).written == DataFrames(OkPrefix(source)) + [BinaryFrame([])]
  {
    EndOfAudioFrame(source, capacity);
    assert Min(|OkPrefix(source)|, capacity) == |OkPrefix(source)|;
    assert OkPrefix(source)[..|OkPrefix(source)|] == OkPrefix(source);
  }

  /**
   * With a socket that takes everything, the only error the send task
   * reports is the source's first read error, as a `CustomError`.
   */
  lemma HealthySendErrors(source: seq<Piece>, capacity: nat)
    requires capacity > |source|
    ensures var n := |OkPrefix(source)|;
      SendTask(source, capacity).errors == if n < |source| then [CustomError(source[n].error.cause)] else []
  {
    SendLoopWrites(source, capacity);
  }

  /** One successful write in the loop: the frame goes first, the rest of the loop after it. */
  lemma SendLoopStep(source: seq<Piece>, i: nat, capacity: nat)
    requires i < |source| && source[i].Ok? && capacity > 0
    ensures var s := SendLoop(source[i + 1..], capacity - 1);
      SendLoop(source[i..], capacity) == Sent([BinaryFrame(source[i].value)] + s.written, s.errors, s.capacity)
  {
    assert source[i..][1..] == source[i + 1..];
  }

  /** A read error ends the loop at once, and is reported. */
  lemma SendLoopSourceFails(source: seq<Piece>, i: nat, capacity: nat)
    requires i < |source| && source[i].Err?
    ensures SendLoop(source[i..], capacity) == Sent([], [CustomError(source[i].error.cause)], capacity)
  {
    assert source[i..][0] == source[i];
  }

  /** A write the socket refuses ends the loop, and is reported. */
  lemma SendLoopWriteFails(source: seq<Piece>, i: nat)
    requires i < |source| && source[i].Ok?
    ensures SendLoop(source[i..], 0) == Sent([], [WriteFailed], 0)
  {
    assert source[i..][0] == source[i];
  }

  /** Each reported error as an `Error` event, in order. */
  function ErrorEvents(es: seq<StreamError>): (evs: seq<StreamEvent>)
    ensures |evs| == |es|
  {
    if es == [] then [] else ErrorEvents(es[..|es| - 1]) + [Error(es[|es| - 1])]
  }

  lemma ErrorEventsAppend(es: seq<StreamError>, e: StreamError)
    ensures ErrorEvents(es + [e]) == ErrorEvents(es) + [Error(e)]
  {
    assert (es + [e])[..|es|] == es;
  }

  /**
   * The forwarding loop of the send task: each audio item is written until
   * the source fails or a write fails, and that failure is sent as an
   * `Error` event on the event channel.
   */
  method RunSendLoop(source: seq<Piece>, stream: TranscriptionStream) returns (errors: seq<StreamError>)
    modifies stream
    ensures var s := SendLoop(source, old(stream.capacity));
      stream.written == old(stream.written) + s.written && errors == s.errors && stream.capacity == s.capacity
    ensures stream.events == old(stream.events) + ErrorEvents(errors)
  {
    var i := 0;
    errors := [];
    ghost var out: seq<Frame> := [];
    ghost var loop := SendLoop(source, stream.capacity);
    while i < |source|
      invariant 0 <= i <= |source|
      invariant stream.events == old(stream.events) && stream.written == old(stream.written) + out
      invariant var s := SendLoop(source[i..], stream.capacity);
        loop == Sent(out + s.written, s.errors, s.capacity)
      decreases |source| - i
    {
      var piece := source[i];
      if piece.Err? {
        SendLoopSourceFails(source, i, stream.capacity);
        errors := [CustomError(piece.error.cause)];
        stream.Report(CustomError(piece.error.cause));
        assert ErrorEvents(errors) == [Error(errors[0])];
        return;
      }
      if stream.capacity == 0 {
        SendLoopWriteFails(source, i);
        errors := [WriteFailed];
        stream.Report(WriteFailed);
        assert ErrorEvents(errors) == [Error(errors[0])];
        return;
      }
      SendLoopStep(source, i, stream.capacity);
      out := out + [BinaryFrame(piece.value)];
      var _ := stream.Write(BinaryFrame(piece.value));
      i := i + 1;
    }
    assert source[i..] == [];
  }

  /**
   * The send task of `start`: the forwarding loop, then one empty binary
   * frame to end the audio; every error is sent as an `Error` event.
   */
  method RunSendTask(source: seq<Piece>, stream: TranscriptionStream) returns (errors: seq<StreamError>)
    modifies stream
    ensures var s := SendTask(source, old(stream.capacity));
      stream.written == old(stream.written) + s.written && errors == s.errors && stream.capacity == s.capacity
    ensures stream.events == old(stream.events) + ErrorEvents(errors)
  {
    errors := RunSendLoop(source, stream);
    var ok := stream.Write(BinaryFrame([]));
    if !ok {
      ErrorEventsAppend(errors, WriteFailed);
      errors := errors + [WriteFailed];
      stream.Report(WriteFailed);
    }
  }

  // ---------------------------------------------------------------------
  // The keep-alive task

  function KeepAlives(n: nat): (fs: seq<Frame>)
    ensures |fs| == n && forall i :: 0 <= i < n ==> fs[i] == TextFrame(KeepAliveText)
  {
    seq(n, _ => TextFrame(KeepAliveText))
  }

  /**
   * The keep-alive task over `ticks` timer ticks: only when `keep_alive` was
   * set, one KeepAlive text per tick until the first failed write, which is
   * reported and ends the task.
   */
  method KeepAliveTask(keepAlive: Option<bool>, ticks: nat, stream: TranscriptionStream)
    modifies stream
    ensures keepAlive != Some(true) ==> stream.written == old(stream.written) && stream.events == old(stream.events)
                                        && stream.capacity == old(stream.capacity)
    ensures keepAlive == Some(true) ==>
              stream.written == old(stream.written) + KeepAlives(Min(ticks, old(stream.capacity)))
              && stream.events == old(stream.events) + (if ticks > old(stream.capacity) then [Error(WriteFailed)] else [])
  {
    if keepAlive != Some(true) {
      return;
    }
    var t := 0;
    ghost var c0 := stream.capacity;
    while t < ticks
      invariant 0 <= t <= ticks && t <= c0
      invariant stream.written == old(stream.written) + KeepAlives(t) && stream.capacity == c0 - t
      invariant stream.events == old(stream.events)
      decreases ticks - t
    {
      var ok := stream.Write(TextFrame(KeepAliveText));
      if !ok {
        stream.events := stream.events + [Error(WriteFailed)];
        return;
      }
      assert KeepAlives(t) + [TextFrame(KeepAliveText)] == KeepAlives(t + 1);
      t := t + 1;
    }
  }
}
