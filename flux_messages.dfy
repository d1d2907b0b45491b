// The Flux server messages (src/common/flux_response.rs): a decoder that
// dispatches on the `type` member of a JSON value, keeps any message it does
// not know as the value itself, and a serialiser that writes known messages
// back in their tagged form and unknown ones unchanged.
module FluxMessages {
  import opened Wrappers
  import opened Json

  type u32 = x: int | 0 <= x < 0x1_0000_0000

  /** A hexadecimal digit's value. */
  type Hex = d: int | 0 <= d < 16

  /** A UUID as its 32 hexadecimal digits. */
  type Uuid = ds: seq<Hex> | |ds| == 32 witness seq(32, _ => 0)

  /** The value of a hexadecimal digit of either case. */
  function HexValue(c: char): Option<Hex>
  {
    if '0' <= c <= '9' then Some(c as int - '0' as int)
    else if 'a' <= c <= 'f' then Some(c as int - 'a' as int + 10)
    else if 'A' <= c <= 'F' then Some(c as int - 'A' as int + 10)
    else None
  }

  /** The lower-case digit for a value. */
  function HexChar(d: Hex): (c: char)
    ensures HexValue(c) == Some(d)
    ensures '0' <= c <= '9' || 'a' <= c <= 'f'
  {
    if d < 10 then ('0' as int + d) as char else ('a' as int + d - 10) as char
  }

  predicate LowerHex(c: char)
  {
    '0' <= c <= '9' || 'a' <= c <= 'f'
  }

  /** A lower-case digit is the one written for its value. */
  lemma HexCharValue(c: char)
    requires LowerHex(c)
    ensures HexValue(c).Some? && HexChar(HexValue(c).value) == c
  {
  }

  function HexString(ds: seq<Hex>): (s: string)
    ensures |s| == |ds|
    ensures forall i :: 0 <= i < |ds| ==> s[i] == HexChar(ds[i])
  {
    if ds == [] then [] else [HexChar(ds[0])] + HexString(ds[1..])
  }

  /** The digits a string of hexadecimal characters spells. */
  function ParseHex(s: string): (r: Option<seq<Hex>>)
    ensures r.Some? <==> forall i :: 0 <= i < |s| ==> HexValue(s[i]).Some?
    ensures r.Some? ==> |r.value| == |s| && forall i :: 0 <= i < |s| ==> HexValue(s[i]) == Some(r.value[i])
  {
    if s == [] then Some([])
    else if HexValue(s[0]).None? then None
    else
      var rest := ParseHex(s[1..]);
      if rest.None? then
        assert exists i :: 0 <= i < |s[1..]| && HexValue(s[1..][i]).None?;
        None
      else Some([HexValue(s[0]).value] + rest.value)
  }

  /** The hyphenated form: 8-4-4-4-12 lower-case digits. */
  function FormatUuid(u: Uuid): (s: string)
    ensures |s| == 36
  {
    var h := HexString(u);
    h[0..8] + "-" + h[8..12] + "-" + h[12..16] + "-" + h[16..20] + "-" + h[20..32]
  }

  /** Whether position `i` of a hyphenated UUID holds a hyphen. */
  predicate Dash(i: int)
  {
    i == 8 || i == 13 || i == 18 || i == 23
  }

  /** The digit positions of the hyphenated form, in order. */
  function Digits(s: string): string
    requires |s| == 36
  {
    s[0..8] + s[9..13] + s[14..18] + s[19..23] + s[24..36]
  }

  /**
   * `Uuid::parse_str` on the hyphenated form, digits of either case, or on
   * the 32-digit simple form.
   */
  function ParseUuid(s: string): Option<Uuid>
  {
    if |s| == 36 && (forall i :: 0 <= i < 36 && Dash(i) ==> s[i] == '-') then
      var r := ParseHex(Digits(s));
      if r.Some? then var u: Uuid := r.value; Some(u) else None
    else if |s| == 32 then
      var r := ParseHex(s);
      if r.Some? then var u: Uuid := r.value; Some(u) else None
    else None
  }

  lemma ParseHexString(ds: seq<Hex>)
    ensures ParseHex(HexString(ds)) == Some(ds)
  {
    var r := ParseHex(HexString(ds));
    assert r.value == ds;
  }

  /** Where the `i`-th digit sits in the hyphenated form. */
  function Pos(i: int): int
  {
    if i < 8 then i else if i < 12 then i + 1 else if i < 16 then i + 2 else if i < 20 then i + 3 else i + 4
  }

  /** Which digit a position of the hyphenated form holds, for a position that is not a hyphen. */
  function Index(p: int): int
  {
    if p < 8 then p else if p < 13 then p - 1 else if p < 18 then p - 2 else if p < 23 then p - 3 else p - 4
  }

  lemma DigitsAt(s: string)
    requires |s| == 36
    ensures |Digits(s)| == 32
    ensures forall i :: 0 <= i < 32 ==> Digits(s)[i] == s[Pos(i)]
  {
  }

  /** Two hyphenated strings with the same digits are equal. */
  lemma DigitsDetermine(s: string, f: string)
    requires |s| == 36 && |f| == 36
    requires forall i :: 0 <= i < 36 && Dash(i) ==> s[i] == '-' && f[i] == '-'
    requires Digits(s) == Digits(f)
    ensures s == f
  {
    DigitsAt(s);
    DigitsAt(f);
    forall p | 0 <= p < 36 && !Dash(p)
      ensures s[p] == f[p]
    {
      assert Pos(Index(p)) == p;
      assert Digits(s)[Index(p)] == Digits(f)[Index(p)];
    }
  }

  /** Groups of 8, 4, 4, 4 and 12 digits joined with hyphens give back those digits. */
  lemma HyphenatedDigits(a: string, b: string, c: string, d: string, e: string)
    requires |a| == 8 && |b| == 4 && |c| == 4 && |d| == 4 && |e| == 12
    ensures var s := a + "-" + b + "-" + c + "-" + d + "-" + e;
      |s| == 36 && (forall i :: 0 <= i < 36 && Dash(i) ==> s[i] == '-') && Digits(s) == a + b + c + d + e
  {
    var s := a + "-" + b + "-" + c + "-" + d + "-" + e;
    assert s[0..8] == a;
    assert s[9..13] == b;
    assert s[14..18] == c;
    assert s[19..23] == d;
    assert s[24..36] == e;
  }

  lemma FormatDigits(u: Uuid)
    ensures forall i :: 0 <= i < 36 && Dash(i) ==> FormatUuid(u)[i] == '-'
    ensures Digits(FormatUuid(u)) == HexString(u)
  {
    var h := HexString(u);
    HyphenatedDigits(h[0..8], h[8..12], h[12..16], h[16..20], h[20..32]);
    assert h == h[0..8] + h[8..12] + h[12..16] + h[16..20] + h[20..32];
  }

  /** Every UUID reads back from its hyphenated form. */
  lemma UuidRoundTrip(u: Uuid)
    ensures ParseUuid(FormatUuid(u)) == Some(u)
  {
    FormatDigits(u);
    ParseHexString(u);
  }

  /** The form the serialiser writes: hyphenated with lower-case digits. */
  predicate Canonical(s: string)
  {
    |s| == 36 && forall i :: 0 <= i < 36 ==> if Dash(i) then s[i] == '-' else LowerHex(s[i])
  }

  /** Lower-case digits are written back as they were read. */
  lemma HexStringParse(d: string)
    requires forall i :: 0 <= i < |d| ==> LowerHex(d[i])
    ensures ParseHex(d).Some? && HexString(ParseHex(d).value) == d
  {
    var u := ParseHex(d).value;
    forall i | 0 <= i < |d|
      ensures HexString(u)[i] == d[i]
    {
      HexCharValue(d[i]);
    }
  }

  /** A canonical UUID string is written back exactly as it was read. */
  lemma CanonicalRoundTrip(s: string)
    requires Canonical(s)
    ensures ParseUuid(s).Some? && FormatUuid(ParseUuid(s).value) == s
  {
    var d := Digits(s);
    DigitsAt(s);
    forall i | 0 <= i < 32
      ensures LowerHex(d[i])
    {
      assert !Dash(Pos(i));
    }
    HexStringParse(d);
    var u: Uuid := ParseHex(d).value;
    assert ParseUuid(s) == Some(u);
    FormatDigits(u);
    DigitsDetermine(s, FormatUuid(u));
  }

  /** A turn event; `Unknown` absorbs every name this version does not list. */
  datatype TurnEvent = StartOfTurn | EndOfTurn | EagerEndOfTurn | TurnResumed | Update | Unknown

  function TurnEventName(e: TurnEvent): string
  {
    match e
    case StartOfTurn => "StartOfTurn"
    case EndOfTurn => "EndOfTurn"
    case EagerEndOfTurn => "EagerEndOfTurn"
    case TurnResumed => "TurnResumed"
    case Update => "Update"
    case Unknown => "Unknown"
  }

  /** The derived deserialiser with its `serde(other)` fallback. */
  function ParseTurnEvent(s: string): (e: TurnEvent)
    ensures e != TurnEvent.Unknown ==> TurnEventName(e) == s
  {
    if s == "StartOfTurn" then StartOfTurn
    else if s == "EndOfTurn" then EndOfTurn
    else if s == "EagerEndOfTurn" then EagerEndOfTurn
    else if s == "TurnResumed" then TurnResumed
    else if s == "Update" then Update
    else TurnEvent.Unknown
  }

  /** A name reads back as its event, and only listed names give a listed event. */
  lemma TurnEventRoundTrip(e: TurnEvent, s: string)
    ensures ParseTurnEvent(TurnEventName(e)) == e
    ensures ParseTurnEvent(s) != TurnEvent.Unknown <==> s in ["StartOfTurn", "EndOfTurn", "EagerEndOfTurn", "TurnResumed", "Update"]
  {
  }

  /** A word of a turn; the confidence is kept as the number that was read. */
  datatype FluxWord = FluxWord(word: string, confidence: Number)

  /** The messages; floating-point fields are kept as the numbers read. */
  datatype FluxResponse =
    | Connected(requestId: Uuid, sequenceId: u32)
    | TurnInfo(requestId: Uuid, sequenceId: u32, event: TurnEvent, turnIndex: u32,
               audioWindowStart: Number, audioWindowEnd: Number, transcript: string,
               words: seq<FluxWord>, endOfTurnConfidence: Number)
    | FatalError(sequenceId: u32, code: string, description: string)
    | Unknown(value: Json)

  /** The internally tagged helper enum: the three known messages only. */
  datatype Tagged =
    | TaggedConnected(requestId: Uuid, sequenceId: u32)
    | TaggedTurnInfo(requestId: Uuid, sequenceId: u32, event: TurnEvent, turnIndex: u32,
                     audioWindowStart: Number, audioWindowEnd: Number, transcript: string,
                     words: seq<FluxWord>, endOfTurnConfidence: Number)
    | TaggedFatalError(sequenceId: u32, code: string, description: string)

  /** `From<TaggedFluxResponse> for FluxResponse`, field by field. */
  function FromTagged(t: Tagged): (r: FluxResponse)
    ensures !r.Unknown?
  {
    match t
    case TaggedConnected(id, sq) => Connected(id, sq)
    case TaggedTurnInfo(id, sq, ev, ti, ws, we, tr, wd, eot) => TurnInfo(id, sq, ev, ti, ws, we, tr, wd, eot)
    case TaggedFatalError(sq, code, desc) => FatalError(sq, code, desc)
  }

  /** The conversion the serialiser makes back, for a known message. */
  function ToTagged(r: FluxResponse): Tagged
    requires !r.Unknown?
  {
    match r
    case Connected(id, sq) => TaggedConnected(id, sq)
    case TurnInfo(id, sq, ev, ti, ws, we, tr, wd, eot) => TaggedTurnInfo(id, sq, ev, ti, ws, we, tr, wd, eot)
    case FatalError(sq, code, desc) => TaggedFatalError(sq, code, desc)
  }

  /** The two conversions are inverse: no field is lost or altered. */
  lemma TaggedRoundTrip(t: Tagged, r: FluxResponse)
    requires !r.Unknown?
    ensures ToTagged(FromTagged(t)) == t
    ensures FromTagged(ToTagged(r)) == r
  {
  }

  /** What went wrong decoding a known message: the field that was missing or of the wrong kind. */
  datatype DecodeError = MissingField(field: string) | InvalidField(field: string)

  // Field readers, as serde reads a struct field from a JSON object.

  function Field(v: Json, k: string): Result<Json, DecodeError>
  {
    match Get(v, k)
    case Some(x) => Ok(x)
    case None => Err(MissingField(k))
  }

  function U32Field(v: Json, k: string): (r: Result<u32, DecodeError>)
    ensures r.Ok? <==> Get(v, k).Some? && Get(v, k).value.Num? && Get(v, k).value.n.Int?
                       && 0 <= Get(v, k).value.n.i < 0x1_0000_0000
  {
    match Field(v, k)
    case Err(e) => Err(e)
    case Ok(Num(Int(i))) => if 0 <= i < 0x1_0000_0000 then Ok(i) else Err(InvalidField(k))
    case Ok(_) => Err(InvalidField(k))
  }

  function NumberField(v: Json, k: string): Result<Number, DecodeError>
  {
    match Field(v, k)
    case Err(e) => Err(e)
    case Ok(Num(n)) => Ok(n)
    case Ok(_) => Err(InvalidField(k))
  }

  function StringField(v: Json, k: string): Result<string, DecodeError>
  {
    match Field(v, k)
    case Err(e) => Err(e)
    case Ok(Str(s)) => Ok(s)
    case Ok(_) => Err(InvalidField(k))
  }

  function UuidField(v: Json, k: string): Result<Uuid, DecodeError>
  {
    match StringField(v, k)
    case Err(e) => Err(e)
    case Ok(s) => if ParseUuid(s).Some? then Ok(ParseUuid(s).value) else Err(InvalidField(k))
  }

  /** An event must be a string; any string is accepted. */
  function EventField(v: Json, k: string): Result<TurnEvent, DecodeError>
  {
    match StringField(v, k)
    case Err(e) => Err(e)
    case Ok(s) => Ok(ParseTurnEvent(s))
  }

  /**
   * A word as serde's derived struct reader takes it: an object with `word`
   * and `confidence`, or the sequence form, an array of exactly those two
   * values in field order.
   */
  function DecodeWord(w: Json): Result<FluxWord, DecodeError>
  {
    match w
    case Obj(_) =>
      (match (StringField(w, "word"), NumberField(w, "confidence"))
       case (Ok(word), Ok(c)) => Ok(FluxWord(word, c))
       case (Err(e), _) => Err(e)
       case (_, Err(e)) => Err(e))
    case Arr(items) =>
      if |items| == 2 && items[0].Str? && items[1].Num? then Ok(FluxWord(items[0].s, items[1].n))
      else Err(InvalidField("words"))
    case _ => Err(InvalidField("words"))
  }

  /** The array form of a word is read exactly when it holds a string and then a number, and nothing more. */
  lemma DecodeWordArrayForm(items: seq<Json>)
    ensures DecodeWord(Arr(items)).Ok? <==> |items| == 2 && items[0].Str? && items[1].Num?
    ensures DecodeWord(Arr(items)).Ok? ==> DecodeWord(Arr(items)).value == FluxWord(items[0].s, items[1].n)
  {
  }

  /** `"words":[["hi",0.9]]` reads as the one word `hi`. */
  lemma ArrayWordExample()
    ensures DecodeWords([Arr([Str("hi"), Num(Float("0.9"))])]) == Ok([FluxWord("hi", Float("0.9"))])
  {
    var ws := [Arr([Str("hi"), Num(Float("0.9"))])];
    assert DecodeWord(ws[0]) == Ok(FluxWord("hi", Float("0.9")));
    assert DecodeWords(ws[1..]) == Ok([]);
    assert [FluxWord("hi", Float("0.9"))] + [] == [FluxWord("hi", Float("0.9"))];
  }

  function DecodeWords(ws: seq<Json>): (r: Result<seq<FluxWord>, DecodeError>)
    ensures r.Ok? ==> |r.value| == |ws|
  {
    if ws == [] then Ok([])
    else match (DecodeWord(ws[0]), DecodeWords(ws[1..]))
      case (Ok(w), Ok(rest)) => Ok([w] + rest)
      case (Err(e), _) => Err(e)
      case (_, Err(e)) => Err(e)
  }

  function WordsField(v: Json, k: string): Result<seq<FluxWord>, DecodeError>
  {
    match Field(v, k)
    case Err(e) => Err(e)
    case Ok(Arr(items)) => DecodeWords(items)
    case Ok(_) => Err(InvalidField(k))
  }

  function DecodeConnected(v: Json): Result<Tagged, DecodeError>
  {
    match (UuidField(v, "request_id"), U32Field(v, "sequence_id"))
    case (Ok(id), Ok(sq)) => Ok(TaggedConnected(id, sq))
    case (Err(e), _) => Err(e)
    case (_, Err(e)) => Err(e)
  }

  function DecodeFatalError(v: Json): Result<Tagged, DecodeError>
  {
    match (U32Field(v, "sequence_id"), StringField(v, "code"), StringField(v, "description"))
    case (Ok(sq), Ok(code), Ok(desc)) => Ok(TaggedFatalError(sq, code, desc))
    case (Err(e), _, _) => Err(e)
    case (_, Err(e), _) => Err(e)
    case (_, _, Err(e)) => Err(e)
  }

  function DecodeTurnInfo(v: Json): Result<Tagged, DecodeError>
  {
    match (UuidField(v, "request_id"), U32Field(v, "sequence_id"), EventField(v, "event"), U32Field(v, "turn_index"))
    case (Err(e), _, _, _) => Err(e)
    case (_, Err(e), _, _) => Err(e)
    case (_, _, Err(e), _) => Err(e)
    case (_, _, _, Err(e)) => Err(e)
    case (Ok(id), Ok(sq), Ok(ev), Ok(ti)) =>
      match (NumberField(v, "audio_window_start"), NumberField(v, "audio_window_end"), StringField(v, "transcript"),
             WordsField(v, "words"), NumberField(v, "end_of_turn_confidence"))
      case (Ok(ws), Ok(we), Ok(tr), Ok(wd), Ok(eot)) => Ok(TaggedTurnInfo(id, sq, ev, ti, ws, we, tr, wd, eot))
      case (Err(e), _, _, _, _) => Err(e)
      case (_, Err(e), _, _, _) => Err(e)
      case (_, _, Err(e), _, _) => Err(e)
      case (_, _, _, Err(e), _) => Err(e)
      case (_, _, _, _, Err(e)) => Err(e)
  }

  /** The wire tags of the three known messages. */
  predicate KnownType(t: Option<string>)
  {
    t == Some("Connected") || t == Some("TurnInfo") || t == Some("Error")
  }

  /** `serde_json::from_value::<TaggedFluxResponse>` once the tag is known. */
  function DecodeTagged(v: Json): Result<Tagged, DecodeError>
    requires KnownType(GetString(v, "type"))
  {
    var t := GetString(v, "type").value;
    if t == "Connected" then DecodeConnected(v)
    else if t == "TurnInfo" then DecodeTurnInfo(v)
    else DecodeFatalError(v)
  }

  /** `Deserialize for FluxResponse`: dispatch on the `type` string, keep anything else whole. */
  function Decode(v: Json): (r: Result<FluxResponse, DecodeError>)
    ensures !KnownType(GetString(v, "type")) <==> r == Ok(FluxResponse.Unknown(v))
    ensures KnownType(GetString(v, "type")) && r.Ok? ==> !r.value.Unknown?
  {
    if KnownType(GetString(v, "type")) then
      match DecodeTagged(v)
      case Ok(t) => Ok(FromTagged(t))
      case Err(e) => Err(e)
    else Ok(FluxResponse.Unknown(v))
  }

  function EncodeWord(w: FluxWord): Json
  {
    Obj([("word", Str(w.word)), ("confidence", Num(w.confidence))])
  }

  function EncodeWords(ws: seq<FluxWord>): (r: seq<Json>)
    ensures |r| == |ws|
    ensures forall i :: 0 <= i < |ws| ==> r[i] == EncodeWord(ws[i])
  {
    if ws == [] then [] else [EncodeWord(ws[0])] + EncodeWords(ws[1..])
  }

  /** The tagged form: `type` first, then the fields in declaration order. */
  function EncodeTagged(t: Tagged): Json
  {
    match t
    case TaggedConnected(id, sq) =>
      Obj([("type", Str("Connected")), ("request_id", Str(FormatUuid(id))), ("sequence_id", Num(Int(sq)))])
    case TaggedTurnInfo(id, sq, ev, ti, ws, we, tr, wd, eot) =>
      Obj([("type", Str("TurnInfo")), ("request_id", Str(FormatUuid(id))), ("sequence_id", Num(Int(sq))),
           ("event", Str(TurnEventName(ev))), ("turn_index", Num(Int(ti))), ("audio_window_start", Num(ws)),
           ("audio_window_end", Num(we)), ("transcript", Str(tr)), ("words", Arr(EncodeWords(wd))),
           ("end_of_turn_confidence", Num(eot))])
    case TaggedFatalError(sq, code, desc) =>
      Obj([("type", Str("Error")), ("sequence_id", Num(Int(sq))), ("code", Str(code)), ("description", Str(desc))])
  }

  /** `Serialize for FluxResponse`: known messages in their tagged form, unknown ones as the value kept. */
  function Encode(r: FluxResponse): (v: Json)
    ensures r.Unknown? ==> v == r.value
  {
    if r.Unknown? then r.value else EncodeTagged(ToTagged(r))
  }

  // Decoding facts.

  /** The wire tag "Error" decodes to a fatal error carrying its three fields. */
  lemma ErrorTagDecodes(sq: u32, code: string, desc: string)
    ensures Decode(Obj([("type", Str("Error")), ("sequence_id", Num(Int(sq))), ("code", Str(code)), ("description", Str(desc))]))
      == Ok(FatalError(sq, code, desc))
  {
    DecodeEncodeFatalError(sq, code, desc);
  }

  /** A message without a `type`, or with a non-string one, is kept whole. */
  lemma UntypedIsUnknown(v: Json)
    requires GetString(v, "type").None?
    ensures Decode(v) == Ok(FluxResponse.Unknown(v))
  {
  }

  /** A known tag with a field missing is an error, never an unknown message. */
  lemma MissingFieldIsError(v: Json)
    requires KnownType(GetString(v, "type"))
    requires Get(v, "sequence_id").None?
    ensures Decode(v).Err?
  {
  }

  /** An event name this version does not list decodes to `Unknown`, and the message stays a turn. */
  lemma UnknownEventStaysTurn(v: Json)
    requires GetString(v, "type") == Some("TurnInfo")
    requires DecodeTurnInfo(v).Ok?
    requires GetString(v, "event").Some?
    requires GetString(v, "event").value !in ["StartOfTurn", "EndOfTurn", "EagerEndOfTurn", "TurnResumed", "Update"]
    ensures Decode(v).Ok? && Decode(v).value.TurnInfo? && Decode(v).value.event == TurnEvent.Unknown
  {
  }

  lemma DecodeEncodeWord(w: FluxWord)
    ensures DecodeWord(EncodeWord(w)) == Ok(w)
  {
    var ms := EncodeWord(w).members;
    LookupAt(ms, 0, "word");
    LookupAt(ms, 1, "confidence");
  }

  lemma {:induction false} DecodeEncodeWords(ws: seq<FluxWord>)
    ensures DecodeWords(EncodeWords(ws)) == Ok(ws)
  {
    if ws != [] {
      var es := EncodeWords(ws);
      assert es[0] == EncodeWord(ws[0]);
      assert es[1..] == EncodeWords(ws[1..]);
      DecodeEncodeWord(ws[0]);
      DecodeEncodeWords(ws[1..]);
      assert DecodeWord(es[0]) == Ok(ws[0]);
      assert DecodeWords(es[1..]) == Ok(ws[1..]);
      assert [ws[0]] + ws[1..] == ws;
    }
  }

  lemma DecodeEncodeConnected(id: Uuid, sq: u32)
    ensures Decode(EncodeTagged(TaggedConnected(id, sq))) == Ok(Connected(id, sq))
  {
    var v := EncodeTagged(TaggedConnected(id, sq));
    var ms := v.members;
    LookupAt(ms, 0, "type");
    LookupAt(ms, 1, "request_id");
    UuidFieldFormatted(v, "request_id", id);
    LookupAt(ms, 2, "sequence_id");
  }

  lemma DecodeEncodeFatalError(sq: u32, code: string, desc: string)
    ensures Decode(EncodeTagged(TaggedFatalError(sq, code, desc))) == Ok(FatalError(sq, code, desc))
  {
    var ms := EncodeTagged(TaggedFatalError(sq, code, desc)).members;
    LookupAt(ms, 0, "type");
    LookupAt(ms, 1, "sequence_id");
    LookupAt(ms, 2, "code");
    LookupAt(ms, 3, "description");
  }

  lemma UuidFieldFormatted(v: Json, k: string, u: Uuid)
    requires Get(v, k) == Some(Str(FormatUuid(u)))
    ensures UuidField(v, k) == Ok(u)
  {
    UuidRoundTrip(u);
  }

  lemma EventFieldNamed(v: Json, k: string, e: TurnEvent)
    requires Get(v, k) == Some(Str(TurnEventName(e)))
    ensures EventField(v, k) == Ok(e)
  {
    TurnEventRoundTrip(e, "");
  }

  lemma TurnInfoType(t: Tagged)
    requires t.TaggedTurnInfo?
    ensures GetString(EncodeTagged(t), "type") == Some("TurnInfo")
  {
    LookupAt(EncodeTagged(t).members, 0, "type");
  }

  lemma TurnInfoRequestId(t: Tagged)
    requires t.TaggedTurnInfo?
    ensures UuidField(EncodeTagged(t), "request_id") == Ok(t.requestId)
  {
    LookupAt(EncodeTagged(t).members, 1, "request_id");
    UuidFieldFormatted(EncodeTagged(t), "request_id", t.requestId);
  }

  lemma TurnInfoSequenceId(t: Tagged)
    requires t.TaggedTurnInfo?
    ensures U32Field(EncodeTagged(t), "sequence_id") == Ok(t.sequenceId)
  {
    LookupAt(EncodeTagged(t).members, 2, "sequence_id");
  }

  lemma TurnInfoEvent(t: Tagged)
    requires t.TaggedTurnInfo?
    ensures EventField(EncodeTagged(t), "event") == Ok(t.event)
  {
    LookupAt(EncodeTagged(t).members, 3, "event");
    EventFieldNamed(EncodeTagged(t), "event", t.event);
  }

  lemma TurnInfoTurnIndex(t: Tagged)
    requires t.TaggedTurnInfo?
    ensures U32Field(EncodeTagged(t), "turn_index") == Ok(t.turnIndex)
  {
    LookupAt(EncodeTagged(t).members, 4, "turn_index");
  }

  lemma TurnInfoTailFields(t: Tagged)
    requires t.TaggedTurnInfo?
    ensures var v := EncodeTagged(t);
      NumberField(v, "audio_window_start") == Ok(t.audioWindowStart)
      && NumberField(v, "audio_window_end") == Ok(t.audioWindowEnd)
      && StringField(v, "transcript") == Ok(t.transcript) && WordsField(v, "words") == Ok(t.words)
      && NumberField(v, "end_of_turn_confidence") == Ok(t.endOfTurnConfidence)
  {
    DecodeEncodeWords(t.words);
    var ms := EncodeTagged(t).members;
    LookupAt(ms, 5, "audio_window_start");
    LookupAt(ms, 6, "audio_window_end");
    LookupAt(ms, 7, "transcript");
    LookupAt(ms, 8, "words");
    LookupAt(ms, 9, "end_of_turn_confidence");
  }

  lemma DecodeEncodeTurnInfo(t: Tagged)
    requires t.TaggedTurnInfo?
    ensures Decode(EncodeTagged(t)) == Ok(FromTagged(t))
  {
    TurnInfoType(t);
    TurnInfoRequestId(t);
    TurnInfoSequenceId(t);
    TurnInfoEvent(t);
    TurnInfoTurnIndex(t);
    TurnInfoTailFields(t);
    assert DecodeTurnInfo(EncodeTagged(t)) == Ok(t);
  }

  /** Every known message decodes from what it encodes to. */
  lemma DecodeEncode(r: FluxResponse)
    requires !r.Unknown?
    ensures Decode(Encode(r)) == Ok(r)
  {
    match r
    case Connected(id, sq) => DecodeEncodeConnected(id, sq);
    case FatalError(sq, code, desc) => DecodeEncodeFatalError(sq, code, desc);
    case TurnInfo(_, _, _, _, _, _, _, _, _) => DecodeEncodeTurnInfo(ToTagged(r));
  }

  /** An unknown message is written back exactly as received, and reads back as itself. */
  lemma UnknownPreserved(v: Json)
    requires !KnownType(GetString(v, "type"))
    ensures Decode(v) == Ok(FluxResponse.Unknown(v))
    ensures Encode(Decode(v).value) == v
  {
  }

  /**
   * A Connected message in the form the server sends (tag, canonical id,
   * sequence number, in that order) is written back exactly as read.
   */
  lemma ConnectedRoundTrip(id: string, sq: u32)
    requires Canonical(id)
    ensures var v := Obj([("type", Str("Connected")), ("request_id", Str(id)), ("sequence_id", Num(Int(sq)))]);
      Decode(v).Ok? && Decode(v).value.Connected? && Encode(Decode(v).value) == v
  {
    CanonicalRoundTrip(id);
    var u := ParseUuid(id).value;
    DecodeEncodeConnected(u, sq);
  }
}
