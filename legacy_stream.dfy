// The older live-transcription builders (src/lib.rs and
// src/transcription/live.rs, which share the same builder): a source, an
// encoding given as text, a sample rate and a channel count; `start` checks
// for a source, builds the request URI and runs a send task that forwards
// the audio and ends it with an empty binary frame.
module LegacyStream {
  import opened Wrappers
  import opened Query
  import opened StreamUrls
  import opened FileChunking
  import opened ListenStream

  /** The fixed endpoint both versions start from. */
  const ListenBase: Url := Url("wss", "api.deepgram.com", "/v1/listen", [])

  /** The URI src/lib.rs sends whatever the builder holds. */
  const FixedUri: string := "wss://api.deepgram.com/v1/listen?encoding=linear16&sample_rate=44100&channels=2"

  /** The query pairs `start` appends, each only when set: encoding, sample_rate, channels. */
  function LegacyPairs(encoding: Option<string>, sampleRate: Option<u32>, channels: Option<u16>): seq<Pair>
  {
    IfSome("encoding", encoding) + IfSome("sample_rate", MapOpt(NatString, sampleRate))
    + IfSome("channels", MapOpt(NatString, channels))
  }

  /** The pairs appear exactly when set, in the order encoding, sample_rate, channels. */
  lemma LegacyPairsOrder(encoding: Option<string>, sampleRate: Option<u32>, channels: Option<u16>)
    ensures Keys(LegacyPairs(encoding, sampleRate, channels))
            == Key("encoding", encoding.Some?) + Key("sample_rate", sampleRate.Some?) + Key("channels", channels.Some?)
  {
    var a := IfSome("encoding", encoding);
    var b := IfSome("sample_rate", MapOpt(NatString, sampleRate));
    var c := IfSome("channels", MapOpt(NatString, channels));
    KeysAppend(a, b);
    KeysAppend(a + b, c);
    assert Keys(a) == Key("encoding", encoding.Some?);
    KeyPresent("sample_rate", NatString, sampleRate);
    KeyPresent("channels", NatString, channels);
  }

  /** The encoding is sent as given, verbatim. */
  lemma LegacyEncodingVerbatim(encoding: Option<string>, sampleRate: Option<u32>, channels: Option<u16>)
    ensures Values(LegacyPairs(encoding, sampleRate, channels), "encoding") == if encoding.Some? then [encoding.value] else []
  {
    var a := IfSome("encoding", encoding);
    var b := IfSome("sample_rate", MapOpt(NatString, sampleRate));
    var c := IfSome("channels", MapOpt(NatString, channels));
    ValuesAppend(a, b, "encoding");
    ValuesAppend(a + b, c, "encoding");
    ValuesIfSome("encoding", encoding, "encoding");
    ValuesIfSome("sample_rate", MapOpt(NatString, sampleRate), "encoding");
    ValuesIfSome("channels", MapOpt(NatString, channels), "encoding");
  }

  /** The request URI src/transcription/live.rs sends: the endpoint with the pairs. */
  function RequestUri(encoding: Option<string>, sampleRate: Option<u32>, channels: Option<u16>): string
  {
    UrlString(AppendPairs(ListenBase, LegacyPairs(encoding, sampleRate, channels)))
  }

  /** The request URI src/lib.rs sends, AS WRITTEN: the pairs are built and then not used. */
  function RequestUriAsWritten(encoding: Option<string>, sampleRate: Option<u32>, channels: Option<u16>): string
  {
    FixedUri
  }

  /** With nothing set, no pair is appended: the request URL is the endpoint itself. */
  lemma BareRequestUri()
    ensures AppendPairs(ListenBase, LegacyPairs(None, None, None)) == ListenBase
  {
  }

  /** The fixed URI names settings the caller may never have chosen: asked for Opus, it still says linear16. */
  lemma FixedUriIgnoresSettings()
    ensures RequestUriAsWritten(Some("opus"), None, None) == FixedUri
    ensures RequestUri(Some("opus"), None, None) == UrlString(ListenBase) + "?" + "encoding=opus"
    ensures RequestUriAsWritten(Some("opus"), None, None) != RequestUri(Some("opus"), None, None)
  {
    OpusUri();
    UriLengths();
  }

  lemma OpusUri()
    ensures RequestUri(Some("opus"), None, None) == UrlString(ListenBase) + "?" + "encoding=opus"
  {
    OpusPairs();
    OpusText();
    BaseWithPairs([("encoding", "opus")]);
  }

  lemma OpusPairs()
    ensures LegacyPairs(Some("opus"), None, None) == [("encoding", "opus")]
  {
  }

  /** Pairs appended to the bare endpoint come after `?`. */
  lemma BaseWithPairs(ps: seq<Pair>)
    requires ps != []
    ensures UrlString(AppendPairs(ListenBase, ps)) == UrlString(ListenBase) + "?" + Urlencoded(ps)
  {
    assert AppendPairs(ListenBase, ps).query == ps;
  }

  lemma UriLengths()
    ensures |UrlString(ListenBase) + "?" + "encoding=opus"| == 46
    ensures |FixedUri| == 79
  {
  }

  lemma OpusText()
    ensures Urlencoded([("encoding", "opus")]) == "encoding=opus"
  {
    OpusLiteral();
    PlainText1("encoding", "opus", "encoding" + "=" + "opus");
  }

  lemma OpusLiteral()
    ensures "encoding" + "=" + "opus" == "encoding=opus"
  {
  }

  /** `StreamRequestBuilder` of both versions. */
  class StreamRequestBuilder {
    var source: Option<seq<Piece>>
    var encoding: Option<string>
    var sampleRate: Option<u32>
    var channels: Option<u16>

    /** `stream_request`: every field unset. */
    constructor()
      ensures source.None? && encoding.None? && sampleRate.None? && channels.None?
    {
      source := None;
      encoding := None;
      sampleRate := None;
      channels := None;
    }

    method Stream(s: seq<Piece>)
      modifies this
      ensures source == Some(s)
      ensures encoding == old(encoding) && sampleRate == old(sampleRate) && channels == old(channels)
    {
      source := Some(s);
    }

    method SetEncoding(e: string)
      modifies this
      ensures encoding == Some(e)
      ensures source == old(source) && sampleRate == old(sampleRate) && channels == old(channels)
    {
      encoding := Some(e);
    }

    method SetSampleRate(r: u32)
      modifies this
      ensures sampleRate == Some(r)
      ensures source == old(source) && encoding == old(encoding) && channels == old(channels)
    {
      sampleRate := Some(r);
    }

    method SetChannels(c: u16)
      modifies this
      ensures channels == Some(c)
      ensures source == old(source) && encoding == old(encoding) && sampleRate == old(sampleRate)
    {
      channels := Some(c);
    }

    /** `start` as src/transcription/live.rs has it: NoSource first, then the URI with the set pairs. */
    method Start() returns (r: Result<string, StartError>)
      ensures source.None? <==> r == Err(NoSource)
      ensures source.Some? ==> r == Ok(RequestUri(encoding, sampleRate, channels))
    {
      if source.None? {
        return Err(NoSource);
      }
      var url := AppendPairs(ListenBase, LegacyPairs(encoding, sampleRate, channels));
      return Ok(UrlString(url));
    }

    /** `start` as src/lib.rs has it: NoSource first, then always the fixed URI. */
    method StartAsWritten() returns (r: Result<string, StartError>)
      ensures source.None? <==> r == Err(NoSource)
      ensures source.Some? ==> r == Ok(RequestUriAsWritten(encoding, sampleRate, channels))
    {
      if source.None? {
        return Err(NoSource);
      }
      return Ok(FixedUri);
    }
  }

  /**
   * The send task of both versions: forward each audio item until the source
   * ends or fails, then one empty binary frame. A failed write panics in the
   * source, so the socket is taken to accept every write.
   */
  method SendAll(source: seq<Piece>) returns (written: seq<Frame>)
    ensures written == DataFrames(OkPrefix(source)) + [BinaryFrame([])]
  {
    var i := 0;
    written := [];
    ghost var audio := OkPrefix(source);
    while i < |source| && source[i].Ok?
      invariant 0 <= i <= |audio|
      invariant written == DataFrames(audio[..i])
      decreases |source| - i
    {
      assert audio[..i + 1] == audio[..i] + [source[i].value];
      DataFramesAppend(audio[..i], [source[i].value]);
      written := written + [BinaryFrame(source[i].value)];
      i := i + 1;
    }
    assert audio[..i] == audio;
    written := written + [BinaryFrame([])];
  }

  lemma {:induction false} DataFramesAppend(a: seq<seq<byte>>, b: seq<seq<byte>>)
    ensures DataFrames(a + b) == DataFrames(a) + DataFrames(b)
  {
    assert |DataFrames(a + b)| == |DataFrames(a) + DataFrames(b)|;
    forall i | 0 <= i < |a + b|
      ensures DataFrames(a + b)[i] == (DataFrames(a) + DataFrames(b))[i]
    {
      if i >= |a| {
        assert (a + b)[i] == b[i - |a|];
      }
    }
  }
}
