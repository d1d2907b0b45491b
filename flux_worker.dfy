// The sequential core of the Flux websocket worker (`run_flux_worker` in
// src/listen/flux.rs) and the handle that feeds it (`FluxHandle`).
//
// The worker waits on two sources at once: messages from the server and
// requests from the handle. Which one wins is left to the environment, so the
// worker is modelled as a step function over one event at a time. Whether a
// send succeeds is environment state too: the response receiver may be
// dropped, and writing to the socket may start failing. Both are events that
// change the state the step reads.
module FluxWorker {
  import opened Wrappers
  import opened Json
  import opened FluxMessages
  import FileChunking

  type byte = FileChunking.byte
  type u16 = n: int | 0 <= n < 0x1_0000

  /** The opcode of a raw data frame: the start of a text message, a continuation, or anything else. */
  datatype OpCode = TextData | ContinueData | OtherOpCode

  datatype CloseFrame = CloseFrame(code: u16, reason: string)

  /** A websocket message, as the socket library delivers or accepts it. Text carries its UTF-8 bytes. */
  datatype Message =
    | Text(utf8: seq<byte>)
    | Binary(bytes: seq<byte>)
    | Ping(payload: seq<byte>)
    | Pong(payload: seq<byte>)
    | Close(frame: Option<CloseFrame>)
    | Frame(opcode: OpCode, isFinal: bool, payload: seq<byte>)

  /** What the handle asks the worker to do. */
  datatype WsMessage = Audio(audio: seq<byte>) | CloseStream

  /** The errors the worker reports, on the response channel or as its result. */
  datatype WorkerError =
    | ParseFailed
    | Undecodable(decodeError: DecodeError)
    | Transport(cause: string)
    | WebsocketClose(code: u16, reason: string)

  /** Bytes of a string made only of ASCII characters. */
  function Ascii(s: string): (b: seq<byte>)
    requires forall i :: 0 <= i < |s| ==> s[i] as int < 128
    ensures |b| == |s| && forall i :: 0 <= i < |s| ==> b[i] == s[i] as int
  {
    seq(|s|, i requires 0 <= i < |s| => s[i] as int)
  }

  /** `ControlMessage::CloseStream` serialised with its `type` tag. */
  const CloseStreamText: seq<byte> := Ascii("{\"type\":\"CloseStream\"}")

  /** The JSON text parser, given as a parameter: the value a byte string denotes, if it is JSON. */
  type Parser = seq<byte> -> Option<Json>

  /** `serde_json::from_slice::<FluxResponse>`: parse, then decode. */
  function ParseResponse(parse: Parser, bytes: seq<byte>): (r: Result<FluxResponse, WorkerError>)
    ensures parse(bytes).None? <==> r == Err(ParseFailed)
    ensures parse(bytes).Some? ==> (r.Ok? <==> Decode(parse(bytes).value).Ok?)
    ensures parse(bytes).Some? && r.Ok? ==> r.value == Decode(parse(bytes).value).value
  {
    match parse(bytes)
    case None => Err(ParseFailed)
    case Some(v) =>
      match Decode(v)
      case Ok(m) => Ok(m)
      case Err(e) => Err(Undecodable(e))
  }

  /** What can happen next: a server message or failure, a handle request, or a change in the environment. */
  datatype Event =
    | Received(message: Message)
    | ReceiveFailed(cause: string)
    | UpstreamClosed
    | Requested(request: WsMessage)
    | RequestsEnded
    | ResponsesDropped
    | SinkFailed(cause: string)

  /**
   * The worker's state: the bytes of a fragmented text message received so
   * far, whether the stream is still open for audio, and the environment:
   * whether anyone still receives responses and whether socket writes fail.
   */
  datatype State = State(partial: seq<byte>, isOpen: bool, receiverAlive: bool, sinkFault: Option<string>)

  const Initial: State := State([], true, true, None)

  /** A response delivered to the handle, or a message written to the socket. */
  datatype Output = Respond(response: Result<FluxResponse, WorkerError>) | Wire(message: Message)

  /** How the loop goes on after a step: next event, leave the loop (then clean up), or return at once. */
  datatype Control = Continue | Break | Return(result: Result<(), WorkerError>)

  datatype Step = Step(state: State, outputs: seq<Output>, control: Control)

  /** Sending a response: delivered while someone receives, otherwise the loop is left. */
  function Deliver(st: State, response: Result<FluxResponse, WorkerError>): (s: Step)
    ensures s.state == st
    ensures st.receiverAlive ==> s.outputs == [Respond(response)] && s.control == Continue
    ensures !st.receiverAlive ==> s.outputs == [] && s.control == Break
  {
    if st.receiverAlive then Step(st, [Respond(response)], Continue) else Step(st, [], Break)
  }

  /** The buffer after a data frame: text starts or extends it, a continuation extends a started one. */
  function Reassemble(partial: seq<byte>, opcode: OpCode, payload: seq<byte>): (p: seq<byte>)
    ensures opcode == TextData ==> p == partial + payload
    ensures opcode == ContinueData ==> p == if partial == [] then [] else partial + payload
    ensures opcode == OtherOpCode ==> p == partial
  {
    match opcode
    case TextData => partial + payload
    case ContinueData => if partial != [] then partial + payload else partial
    case OtherOpCode => partial
  }

  /** Writing the CloseStream text: on a write failure the error goes to the receiver, if there is one. */
  function CloseStreamOutputs(st: State): (outs: seq<Output>)
    ensures st.sinkFault.None? ==> outs == [Wire(Text(CloseStreamText))]
    ensures st.sinkFault.Some? ==> outs == if st.receiverAlive then [Respond(Err(Transport(st.sinkFault.value)))] else []
  {
    if st.sinkFault.None? then [Wire(Text(CloseStreamText))]
    else if st.receiverAlive then [Respond(Err(Transport(st.sinkFault.value)))]
    else []
  }

  /** One inbound message. */
  function ReceiveStep(st: State, m: Message, parse: Parser): Step
  {
    match m
    case Text(t) => Deliver(st, ParseResponse(parse, t))
    case Ping(p) =>
      // Whether the pong reaches the server does not matter.
      Step(st, if st.sinkFault.None? then [Wire(Pong(p))] else [], Continue)
    case Close(None) => Step(st, [], Return(Ok(())))
    case Close(Some(f)) => Step(st, [], Return(Err(WebsocketClose(f.code, f.reason))))
    case Frame(op, fin, payload) =>
      var partial := Reassemble(st.partial, op, payload);
      if fin then Deliver(st.(partial := []), ParseResponse(parse, partial))
      else Step(st.(partial := partial), [], Continue)
    case Binary(_) => Step(st, [], Continue)
    case Pong(_) => Step(st, [], Continue)
  }

  /** One request from the handle while the stream is open. */
  function RequestStep(st: State, r: WsMessage): Step
  {
    match r
    case Audio(a) =>
      if st.sinkFault.None? then Step(st, [Wire(Binary(a))], Continue)
      else Deliver(st, Err(Transport(st.sinkFault.value)))
    case CloseStream => Step(st.(isOpen := false), CloseStreamOutputs(st), Continue)
  }

  /** One iteration of the worker's loop. */
  function StepEvent(st: State, ev: Event, parse: Parser): Step
  {
    match ev
    case Received(m) => ReceiveStep(st, m, parse)
    case ReceiveFailed(c) => Deliver(st, Err(Transport(c)))
    case UpstreamClosed => Step(st, [], Return(Ok(())))
    case Requested(r) => if st.isOpen then RequestStep(st, r) else Step(st, [], Continue)
    case RequestsEnded => if st.isOpen then RequestStep(st, CloseStream) else Step(st, [], Continue)
    case ResponsesDropped => Step(st.(receiverAlive := false), [], Continue)
    case SinkFailed(c) => Step(st.(sinkFault := Some(c)), [], Continue)
  }

  /** The code after the loop: a stream still open is closed. */
  function Cleanup(st: State): seq<Output>
  {
    if st.isOpen then CloseStreamOutputs(st) else []
  }

  /** Where the worker is after the events: still waiting, stopped through the loop's exit, or returned early. */
  datatype Outcome = Running(state: State) | Stopped | Returned(result: Result<(), WorkerError>)

  datatype Trace = Trace(outputs: seq<Output>, outcome: Outcome)

  /** The worker run over a sequence of events, from a given state. Events after it stops are ignored. */
  function Run(st: State, events: seq<Event>, parse: Parser): Trace
    decreases |events|
  {
    if events == [] then Trace([], Running(st))
    else
      var s := StepEvent(st, events[0], parse);
      match s.control
      case Continue =>
        var t := Run(s.state, events[1..], parse);
        Trace(s.outputs + t.outputs, t.outcome)
      case Break => Trace(s.outputs + Cleanup(s.state), Stopped)
      case Return(r) => Trace(s.outputs, Returned(r))
  }

  /** `run_flux_worker`: the event loop, proved to produce what `Run` describes. */
  method RunWorker(events: seq<Event>, parse: Parser) returns (outputs: seq<Output>, outcome: Outcome)
    ensures Trace(outputs, outcome) == Run(Initial, events, parse)
  {
    var st := Initial;
    var i := 0;
    outputs := [];
    while i < |events|
      invariant 0 <= i <= |events|
      invariant Run(Initial, events, parse)
                == Trace(outputs + Run(st, events[i..], parse).outputs, Run(st, events[i..], parse).outcome)
      decreases |events| - i
    {
      assert events[i..][1..] == events[i + 1..];
      var s := StepEvent(st, events[i], parse);
      match s.control {
        case Continue =>
          assert outputs + s.outputs + Run(s.state, events[i + 1..], parse).outputs
                 == outputs + (s.outputs + Run(s.state, events[i + 1..], parse).outputs);
          outputs := outputs + s.outputs;
          st := s.state;
          i := i + 1;
        case Break =>
          outputs := outputs + s.outputs + Cleanup(s.state);
          outcome := Stopped;
          return;
        case Return(r) =>
          outputs := outputs + s.outputs;
          outcome := Returned(r);
          return;
      }
    }
    assert events[i..] == [];
    outcome := Running(st);
  }

  // ---------------------------------------------------------------------
  // Text messages and fragment reassembly

  /** The responses a list of text messages gives, one each, in order. */
  function TextResponses(parse: Parser, texts: seq<seq<byte>>): (outs: seq<Output>)
    ensures |outs| == |texts|
    ensures forall i :: 0 <= i < |texts| ==> outs[i] == Respond(ParseResponse(parse, texts[i]))
  {
    if texts == [] then [] else [Respond(ParseResponse(parse, texts[0]))] + TextResponses(parse, texts[1..])
  }

  function TextEvents(texts: seq<seq<byte>>): (evs: seq<Event>)
    ensures |evs| == |texts|
    ensures forall i :: 0 <= i < |texts| ==> evs[i] == Received(Text(texts[i]))
  {
    if texts == [] then [] else [Received(Text(texts[0]))] + TextEvents(texts[1..])
  }

  /** While responses are received, every server text message gives exactly one response, in arrival order. */
  lemma {:induction false} OneResponsePerText(st: State, texts: seq<seq<byte>>, parse: Parser)
    requires st.receiverAlive
    ensures Run(st, TextEvents(texts), parse) == Trace(TextResponses(parse, texts), Running(st))
    decreases |texts|
  {
    if texts != [] {
      var evs := TextEvents(texts);
      assert evs[1..] == TextEvents(texts[1..]);
      OneResponsePerText(st, texts[1..], parse);
    }
  }

  /** A message whose `type` is not one the decoder knows reaches the receiver as `Unknown`, value intact. */
  lemma UnknownTextDelivered(st: State, t: seq<byte>, v: Json, parse: Parser)
    requires st.receiverAlive && parse(t) == Some(v)
    requires !KnownType(GetString(v, "type"))
    ensures StepEvent(st, Received(Text(t)), parse) == Step(st, [Respond(Ok(FluxResponse.Unknown(v)))], Continue)
  {
  }

  /** The continuation frames of a fragmented message, none of them final. */
  function Continuations(payloads: seq<seq<byte>>): (evs: seq<Event>)
    ensures |evs| == |payloads|
    ensures forall i :: 0 <= i < |payloads| ==> evs[i] == Received(Frame(ContinueData, false, payloads[i]))
  {
    if payloads == [] then [] else [Received(Frame(ContinueData, false, payloads[0]))] + Continuations(payloads[1..])
  }

  function Concat(payloads: seq<seq<byte>>): seq<byte>
  {
    if payloads == [] then [] else payloads[0] + Concat(payloads[1..])
  }

  /** Continuations extend a started message; the final one hands over the whole buffer and clears it. */
  lemma {:induction false} ContinuationsExtend(st: State, payloads: seq<seq<byte>>, last: seq<byte>, parse: Parser)
    requires st.partial != [] && st.receiverAlive
    ensures Run(st, Continuations(payloads) + [Received(Frame(ContinueData, true, last))], parse)
            == Trace([Respond(ParseResponse(parse, st.partial + Concat(payloads) + last))], Running(st.(partial := [])))
    decreases |payloads|
  {
    var evs := Continuations(payloads) + [Received(Frame(ContinueData, true, last))];
    if payloads == [] {
      assert evs == [Received(Frame(ContinueData, true, last))];
      assert st.partial + Concat(payloads) + last == st.partial + last;
    } else {
      assert evs[0] == Received(Frame(ContinueData, false, payloads[0]));
      assert evs[1..] == Continuations(payloads[1..]) + [Received(Frame(ContinueData, true, last))];
      var st' := st.(partial := st.partial + payloads[0]);
      assert StepEvent(st, evs[0], parse) == Step(st', [], Continue);
      ContinuationsExtend(st', payloads[1..], last, parse);
      assert st'.partial + Concat(payloads[1..]) + last == st.partial + Concat(payloads) + last;
      assert [] + [Respond(ParseResponse(parse, st.partial + Concat(payloads) + last))]
             == [Respond(ParseResponse(parse, st.partial + Concat(payloads) + last))];
    }
  }

  /**
   * A text message sent in fragments (a non-empty first fragment, any number
   * of continuations, a final continuation) gives one response: the parse of
   * all the payloads joined in order. Nothing is buffered afterwards.
   */
  lemma Reassembly(st: State, first: seq<byte>, middle: seq<seq<byte>>, last: seq<byte>, parse: Parser)
    requires st.partial == [] && st.receiverAlive && first != []
    ensures Run(st, [Received(Frame(TextData, false, first))] + Continuations(middle) + [Received(Frame(ContinueData, true, last))], parse)
            == Trace([Respond(ParseResponse(parse, first + Concat(middle) + last))], Running(st))
  {
    var rest := Continuations(middle) + [Received(Frame(ContinueData, true, last))];
    var evs := [Received(Frame(TextData, false, first))] + rest;
    assert evs == [Received(Frame(TextData, false, first))] + Continuations(middle) + [Received(Frame(ContinueData, true, last))];
    assert evs[1..] == rest;
    var st' := st.(partial := first);
    assert st.partial + first == first;
    assert StepEvent(st, evs[0], parse) == Step(st', [], Continue);
    ContinuationsExtend(st', middle, last, parse);
    assert st'.(partial := []) == st;
    var out := [Respond(ParseResponse(parse, first + Concat(middle) + last))];
    assert Run(st', rest, parse) == Trace(out, Running(st));
    assert Run(st, evs, parse) == Trace([] + out, Running(st));
    assert [] + out == out;
  }

  /**
   * A first text fragment with an empty payload leaves the buffer empty, so
   * the continuations after it are dropped and the final one delivers the
   * parse of no bytes at all.
   */
  lemma EmptyFirstFragment(st: State, last: seq<byte>, parse: Parser)
    requires st.partial == [] && st.receiverAlive
    ensures Run(st, [Received(Frame(TextData, false, [])), Received(Frame(ContinueData, true, last))], parse)
            == Trace([Respond(ParseResponse(parse, []))], Running(st))
  {
    var evs := [Received(Frame(TextData, false, [])), Received(Frame(ContinueData, true, last))];
    assert evs[1..] == [Received(Frame(ContinueData, true, last))];
    assert StepEvent(st, evs[0], parse) == Step(st, [], Continue);
    var out := [Respond(ParseResponse(parse, []))];
    assert Run(st, evs[1..], parse) == Trace(out + [], Running(st));
    assert out + [] == out && [] + out == out;
  }

  /** A final frame of any other opcode still hands over, and clears, what was buffered. */
  lemma OtherFinalFrameFlushes(st: State, payload: seq<byte>, parse: Parser)
    requires st.receiverAlive
    ensures StepEvent(st, Received(Frame(OtherOpCode, true, payload)), parse)
            == Step(st.(partial := []), [Respond(ParseResponse(parse, st.partial))], Continue)
  {
  }

  // ---------------------------------------------------------------------
  // Control frames

  /** A ping is answered with a pong carrying the same payload; nothing else changes. */
  lemma PingAnswered(st: State, p: seq<byte>, parse: Parser)
    requires st.sinkFault.None?
    ensures StepEvent(st, Received(Ping(p)), parse) == Step(st, [Wire(Pong(p))], Continue)
  {
  }

  /** Binary messages and pongs from the server are ignored. */
  lemma BinaryAndPongIgnored(st: State, b: seq<byte>, parse: Parser)
    ensures StepEvent(st, Received(Binary(b)), parse) == Step(st, [], Continue)
    ensures StepEvent(st, Received(Pong(b)), parse) == Step(st, [], Continue)
  {
  }

  /**
   * A close frame ends the worker at once, without the cleanup: with no
   * frame body the result is Ok, otherwise the error carries its code and
   * reason. Whatever would have come next is not looked at.
   */
  lemma CloseEndsWorker(st: State, frame: Option<CloseFrame>, rest: seq<Event>, parse: Parser)
    ensures Run(st, [Received(Close(frame))] + rest, parse)
            == Trace([], Returned(if frame.None? then Ok(()) else Err(WebsocketClose(frame.value.code, frame.value.reason))))
  {
    var evs := [Received(Close(frame))] + rest;
    assert evs[0] == Received(Close(frame));
  }

  /** Once nobody receives responses, the next response to deliver makes the worker clean up and stop. */
  lemma DroppedReceiverStops(st: State, t: seq<byte>, rest: seq<Event>, parse: Parser)
    requires !st.receiverAlive
    ensures Run(st, [Received(Text(t))] + rest, parse) == Trace(Cleanup(st), Stopped)
  {
    var evs := [Received(Text(t))] + rest;
    assert evs[0] == Received(Text(t));
    assert [] + Cleanup(st) == Cleanup(st);
  }

  // ---------------------------------------------------------------------
  // The CloseStream discipline

  predicate IsCloseStream(o: Output)
  {
    o == Wire(Text(CloseStreamText))
  }

  predicate IsAudio(o: Output)
  {
    o.Wire? && o.message.Binary?
  }

  /** No CloseStream and no audio. */
  predicate Quiet(outs: seq<Output>)
  {
    forall i :: 0 <= i < |outs| ==> !IsCloseStream(outs[i]) && !IsAudio(outs[i])
  }

  /** After a CloseStream nothing more goes out: no second CloseStream, no audio. */
  predicate Disciplined(outs: seq<Output>)
  {
    forall i, j :: 0 <= i < j < |outs| && IsCloseStream(outs[i]) ==> !IsCloseStream(outs[j]) && !IsAudio(outs[j])
  }

  lemma DisciplinedCons(o: seq<Output>, rest: seq<Output>)
    requires |o| <= 1 && Disciplined(rest)
    requires (exists i :: 0 <= i < |o| && IsCloseStream(o[i])) ==> Quiet(rest)
    ensures Disciplined(o + rest)
  {
    var all := o + rest;
    forall i, j | 0 <= i < j < |all| && IsCloseStream(all[i])
      ensures !IsCloseStream(all[j]) && !IsAudio(all[j])
    {
      if i < |o| {
        assert all[j] == rest[j - |o|];
      } else {
        assert all[i] == rest[i - |o|] && all[j] == rest[j - |o|];
      }
    }
  }

  lemma QuietAppend(a: seq<Output>, b: seq<Output>)
    requires Quiet(a) && Quiet(b)
    ensures Quiet(a + b)
  {
  }

  /** What one step can send: at most one output, a CloseStream closes the stream, and a closed stream sends neither. */
  lemma StepDiscipline(st: State, ev: Event, parse: Parser)
    ensures var s := StepEvent(st, ev, parse);
      |s.outputs| <= 1
      && ((exists i :: 0 <= i < |s.outputs| && IsCloseStream(s.outputs[i])) ==> !s.state.isOpen)
      && (!st.isOpen ==> !s.state.isOpen && Quiet(s.outputs))
      && (s.control.Break? ==> s.outputs == [] && s.state.isOpen == st.isOpen)
  {
  }

  /**
   * Over any run, at most one CloseStream goes out and no audio follows it;
   * from a closed stream neither goes out at all.
   */
  lemma {:induction false} CloseStreamAtMostOnce(st: State, events: seq<Event>, parse: Parser)
    ensures Disciplined(Run(st, events, parse).outputs)
    ensures !st.isOpen ==> Quiet(Run(st, events, parse).outputs)
    decreases |events|
  {
    if events != [] {
      var s := StepEvent(st, events[0], parse);
      StepDiscipline(st, events[0], parse);
      match s.control {
        case Continue =>
          CloseStreamAtMostOnce(s.state, events[1..], parse);
          var t := Run(s.state, events[1..], parse);
          DisciplinedCons(s.outputs, t.outputs);
          if !st.isOpen {
            QuietAppend(s.outputs, t.outputs);
          }
        case Break =>
          BreakDiscipline(st, events[0], parse);
        case Return(_) =>
      }
    }
  }

  /** Leaving the loop sends at most the cleanup's CloseStream, and nothing from a closed stream. */
  lemma BreakDiscipline(st: State, ev: Event, parse: Parser)
    requires StepEvent(st, ev, parse).control.Break?
    ensures var s := StepEvent(st, ev, parse);
      Disciplined(s.outputs + Cleanup(s.state)) && (!st.isOpen ==> Quiet(s.outputs + Cleanup(s.state)))
  {
    var s := StepEvent(st, ev, parse);
    StepDiscipline(st, ev, parse);
    assert s.outputs + Cleanup(s.state) == Cleanup(s.state);
    CleanupDiscipline(s.state);
  }

  lemma CleanupDiscipline(st: State)
    ensures |Cleanup(st)| <= 1 && Disciplined(Cleanup(st))
    ensures !st.isOpen ==> Cleanup(st) == []
  {
  }

  function CloseCount(outs: seq<Output>): nat
  {
    if outs == [] then 0 else (if IsCloseStream(outs[0]) then 1 else 0) + CloseCount(outs[1..])
  }

  predicate NoSinkFailure(events: seq<Event>)
  {
    forall i :: 0 <= i < |events| ==> !events[i].SinkFailed?
  }

  /**
   * While socket writes succeed, a worker that leaves its loop (because
   * responses are no longer received) has sent CloseStream exactly once in
   * all: either when asked, or in the cleanup.
   */
  lemma {:induction false} StoppedWorkerClosedOnce(st: State, events: seq<Event>, parse: Parser)
    requires st.sinkFault.None? && NoSinkFailure(events)
    requires Run(st, events, parse).outcome == Stopped
    ensures CloseCount(Run(st, events, parse).outputs) == if st.isOpen then 1 else 0
    decreases |events|
  {
    var s := StepEvent(st, events[0], parse);
    StepDiscipline(st, events[0], parse);
    assert !events[0].SinkFailed?;
    match s.control {
      case Continue =>
        forall i | 0 <= i < |events[1..]|
          ensures !events[1..][i].SinkFailed?
        {
          assert events[1..][i] == events[i + 1];
        }
        StoppedWorkerClosedOnce(s.state, events[1..], parse);
        var t := Run(s.state, events[1..], parse);
        CloseCountAppend(s.outputs, t.outputs);
        StepCloseCount(st, events[0], parse);
      case Break =>
        CloseCountAppend(s.outputs, Cleanup(s.state));
      case Return(_) =>
    }
  }

  lemma {:induction false} CloseCountAppend(a: seq<Output>, b: seq<Output>)
    ensures CloseCount(a + b) == CloseCount(a) + CloseCount(b)
    decreases |a|
  {
    if a != [] {
      assert (a + b)[1..] == a[1..] + b;
      CloseCountAppend(a[1..], b);
    } else {
      assert a + b == b;
    }
  }

  /** With working writes, a step sends CloseStream exactly when it closes the stream. */
  lemma StepCloseCount(st: State, ev: Event, parse: Parser)
    requires st.sinkFault.None? && !ev.SinkFailed?
    ensures var s := StepEvent(st, ev, parse);
      s.state.sinkFault.None?
      && CloseCount(s.outputs) == (if st.isOpen && !s.state.isOpen then 1 else 0)
  {
    var s := StepEvent(st, ev, parse);
    if |s.outputs| == 1 {
      assert s.outputs[1..] == [];
    }
  }

  // ---------------------------------------------------------------------
  // The handle

  datatype HandleError = InternalClientError

  /**
   * `FluxHandle`: the sending side of the channel to the worker. `closed`
   * is the channel's closed state; `sent` the requests queued on it, in order.
   */
  class FluxHandle {
    var closed: bool
    var sent: seq<WsMessage>

    /** A CloseStream request is the last one queued, and the channel is closed behind it. */
    predicate Valid()
      reads this
    {
      forall i :: 0 <= i < |sent| && sent[i].CloseStream? ==> i == |sent| - 1 && closed
    }

    constructor()
      ensures Valid() && !closed && sent == []
    {
      closed := false;
      sent := [];
    }

    /** `send_data`: queue audio; fails once the channel is closed. */
    method SendData(data: seq<byte>) returns (r: Result<(), HandleError>)
      requires Valid()
      modifies this
      ensures Valid() && closed == old(closed)
      ensures old(closed) ==> r == Err(InternalClientError) && sent == old(sent)
      ensures !old(closed) ==> r == Ok(()) && sent == old(sent) + [Audio(data)]
    {
      if closed {
        r := Err(InternalClientError);
      } else {
        sent := sent + [Audio(data)];
        r := Ok(());
      }
    }

    /** `close_stream`: queue CloseStream and close the channel, unless it is already closed. Always Ok. */
    method CloseStream() returns (r: Result<(), HandleError>)
      requires Valid()
      modifies this
      ensures Valid() && closed && r == Ok(())
      ensures sent == if old(closed) then old(sent) else old(sent) + [WsMessage.CloseStream]
    {
      if !closed {
        sent := sent + [WsMessage.CloseStream];
        closed := true;
      }
      r := Ok(());
    }

    /** The worker has exited and dropped its receiver: the channel reads as closed. */
    method WorkerExited()
      requires Valid()
      modifies this
      ensures Valid() && closed && sent == old(sent)
    {
      closed := true;
    }
  }

  /** Closing twice queues one CloseStream; audio sent afterwards is refused. */
  method CloseTwiceThenSend(data: seq<byte>) returns (sent: seq<WsMessage>, second: Result<(), HandleError>, late: Result<(), HandleError>)
    ensures sent == [Audio(data), WsMessage.CloseStream]
    ensures second == Ok(()) && late == Err(InternalClientError)
  {
    var h := new FluxHandle();
    var _ := h.SendData(data);
    var _ := h.CloseStream();
    second := h.CloseStream();
    late := h.SendData(data);
    sent := h.sent;
  }
}
