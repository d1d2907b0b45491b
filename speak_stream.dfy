// Text-to-speech over a websocket (src/speak/websocket.rs): the URL the
// builder connects to, the defaults of `continuous_speak_to_stream`, the
// tagged control messages, and the handle's `send_text` and `flush`.
module SpeakStream {
  import opened Wrappers
  import opened Query
  import opened Json
  import opened StreamUrls
  import SpeakOptions
  import ListenStream

  /** `WebsocketBuilder`: the client's base URL and three optional settings; nothing updates it in place. */
  datatype WebsocketBuilder = WebsocketBuilder(
    base: Url,
    encoding: Option<SpeakOptions.Encoding>,
    model: Option<SpeakOptions.Model>,
    sampleRate: Option<u32>)

  /** The query pairs, each only when set: encoding, model, sample_rate. */
  function SpeakPairs(b: WebsocketBuilder): seq<Pair>
  {
    IfSome("encoding", MapOpt(SpeakOptions.EncodingName, b.encoding))
    + IfSome("model", MapOpt(SpeakOptions.ModelName, b.model))
    + IfSome("sample_rate", MapOpt(SpeakOptions.U32String, b.sampleRate))
  }

  /** The pairs appear exactly when set, in the order encoding, model, sample_rate. */
  lemma SpeakPairsOrder(b: WebsocketBuilder)
    ensures Keys(SpeakPairs(b))
            == ListenStream.Key("encoding", b.encoding.Some?) + ListenStream.Key("model", b.model.Some?)
               + ListenStream.Key("sample_rate", b.sampleRate.Some?)
  {
    var x := IfSome("encoding", MapOpt(SpeakOptions.EncodingName, b.encoding));
    var y := IfSome("model", MapOpt(SpeakOptions.ModelName, b.model));
    var z := IfSome("sample_rate", MapOpt(SpeakOptions.U32String, b.sampleRate));
    KeysAppend(x, y);
    KeysAppend(x + y, z);
    ListenStream.KeyPresent("encoding", SpeakOptions.EncodingName, b.encoding);
    ListenStream.KeyPresent("model", SpeakOptions.ModelName, b.model);
    ListenStream.KeyPresent("sample_rate", SpeakOptions.U32String, b.sampleRate);
  }

  /** `as_url`: the speak endpoint of the base URL with the pairs; nothing for a base scheme the client rejects. */
  function AsUrl(b: WebsocketBuilder): (r: Option<Url>)
    ensures r.Some? <==> b.base.scheme in ["http", "ws", "https", "wss"]
    ensures r.Some? ==> r.value.path == Directory(b.base.path) + SpeakPath && r.value.query == SpeakPairs(b)
    ensures r.Some? ==> (r.value.scheme == "wss" <==> b.base.scheme in ["https", "wss"])
  {
    match SpeakStreamUrl(b.base)
    case None => None
    case Some(u) =>
      assert u.query == [];
      Some(AppendPairs(u, SpeakPairs(b)))
  }

  /** `continuous_speak_to_stream`: linear16 audio from the aura-2-thalia-en voice at 24000 Hz. */
  function ContinuousSpeakToStream(base: Url): (b: WebsocketBuilder)
    ensures b.base == base
    ensures b.encoding == Some(SpeakOptions.Linear16) && b.sampleRate == Some(24000)
    ensures b.model == Some(SpeakOptions.CustomId("aura-2-thalia-en"))
  {
    WebsocketBuilder(base, Some(SpeakOptions.Linear16), Some(SpeakOptions.CustomId("aura-2-thalia-en")), Some(24000))
  }

  /** The defaults reach the URL as three pairs, in order. */
  lemma ContinuousDefaultsQuery(base: Url)
    requires base.scheme in ["http", "ws", "https", "wss"]
    ensures AsUrl(ContinuousSpeakToStream(base)).value.query
            == [("encoding", "linear16"), ("model", "aura-2-thalia-en"), ("sample_rate", NatString(24000))]
  {
    var b := ContinuousSpeakToStream(base);
    assert IfSome("encoding", MapOpt(SpeakOptions.EncodingName, b.encoding)) == [("encoding", "linear16")];
    assert IfSome("model", MapOpt(SpeakOptions.ModelName, b.model)) == [("model", "aura-2-thalia-en")];
    assert IfSome("sample_rate", MapOpt(SpeakOptions.U32String, b.sampleRate)) == [("sample_rate", NatString(24000))];
    assert SpeakPairs(b) == [("encoding", "linear16")] + [("model", "aura-2-thalia-en")] + [("sample_rate", NatString(24000))];
  }

  /** The control messages sent to the server. */
  datatype SpeakWsMessage = Speak(text: string) | Flush | Clear | Close

  function TypeName(m: SpeakWsMessage): string
  {
    match m
    case Speak(_) => "Speak"
    case Flush => "Flush"
    case Clear => "Clear"
    case Close => "Close"
  }

  /** The JSON a message serialises to: its `type` tag, and for Speak alone, the text. */
  function ToJson(m: SpeakWsMessage): (v: Json)
    ensures v.Obj? && |v.members| >= 1 && v.members[0] == ("type", Str(TypeName(m)))
    ensures Get(v, "text").Some? <==> m.Speak?
    ensures m.Speak? ==> Get(v, "text") == Some(Str(m.text))
  {
    match m
    case Speak(t) => Obj([("type", Str("Speak")), ("text", Str(t))])
    case _ => Obj([("type", Str(TypeName(m)))])
  }

  /** Reading a message back from its JSON by the tag. */
  function FromJson(v: Json): Option<SpeakWsMessage>
  {
    match GetString(v, "type")
    case Some("Speak") => if GetString(v, "text").Some? then Some(Speak(GetString(v, "text").value)) else None
    case Some("Flush") => Some(Flush)
    case Some("Clear") => Some(Clear)
    case Some("Close") => Some(Close)
    case _ => None
  }

  /** Every message reads back from its JSON. */
  lemma MessageRoundTrip(m: SpeakWsMessage)
    ensures FromJson(ToJson(m)) == Some(m)
  {
    var v := ToJson(m);
    if m.Speak? {
      LookupAt(v.members, 0, "type");
      LookupAt(v.members, 1, "text");
    } else {
      LookupAt(v.members, 0, "type");
    }
  }

  datatype HandleError = UnexpectedServerResponse(message: string)

  /** `WebsocketHandle`: the sending end of the channel to the worker. */
  class WebsocketHandle {
    var closed: bool
    var sent: seq<SpeakWsMessage>

    constructor()
      ensures !closed && sent == []
    {
      closed := false;
      sent := [];
    }

    /** `send_text`: queue a Speak message; fails once the worker is gone. */
    method SendText(text: string) returns (r: Result<(), HandleError>)
      modifies this
      ensures closed == old(closed)
      ensures old(closed) ==> r == Err(UnexpectedServerResponse("websocket closed")) && sent == old(sent)
      ensures !old(closed) ==> r == Ok(()) && sent == old(sent) + [Speak(text)]
    {
      if closed {
        return Err(UnexpectedServerResponse("websocket closed"));
      }
      sent := sent + [Speak(text)];
      return Ok(());
    }

    /** `flush`: queue a Flush message if anyone still listens; Ok either way. */
    method Flush() returns (r: Result<(), HandleError>)
      modifies this
      ensures r == Ok(()) && closed == old(closed)
      ensures sent == if old(closed) then old(sent) else old(sent) + [SpeakWsMessage.Flush]
    {
      if !closed {
        sent := sent + [SpeakWsMessage.Flush];
      }
      return Ok(());
    }

    /** The worker has stopped and dropped its receiver. */
    method WorkerExited()
      modifies this
      ensures closed && sent == old(sent)
    {
      closed := true;
    }
  }

  /** After the worker stops, text is refused but a flush still reports success. */
  method FlushAfterExit(text: string) returns (speak: Result<(), HandleError>, flush: Result<(), HandleError>, sent: seq<SpeakWsMessage>)
    ensures speak.Err? && flush == Ok(()) && sent == [Speak(text)]
  {
    var h := new WebsocketHandle();
    var _ := h.SendText(text);
    h.WorkerExited();
    speak := h.SendText(text);
    flush := h.Flush();
    sent := h.sent;
  }
}
