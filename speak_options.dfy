// The options of a text-to-speech request (src/speak/options.rs): a voice
// model, an encoding, a sample rate, a container and a bit rate, each sent at
// most once and in that order.
module SpeakOptions {
  import opened Wrappers
  import opened Query

  /** A voice model. */
  datatype Model =
    AuraAsteriaEN | AuraLunaEN | AuraStellaEN | AuraAthenaEN | AuraHeraEN | AuraOrionEN | AuraArcasEN | AuraPerseusEN | AuraAngusEN | AuraOrpheusEN | AuraHeliosEN | AuraZeusEN
    | CustomId(id: string)

  /** `Model::as_ref`: a fixed table; a custom id is sent as given. */
  function ModelName(m: Model): (s: string)
    ensures m.CustomId? ==> s == m.id
  {
    match m
    case AuraAsteriaEN => "aura-asteria-en"
    case AuraLunaEN => "aura-luna-en"
    case AuraStellaEN => "aura-stella-en"
    case AuraAthenaEN => "aura-athena-en"
    case AuraHeraEN => "aura-hera-en"
    case AuraOrionEN => "aura-orion-en"
    case AuraArcasEN => "aura-arcas-en"
    case AuraPerseusEN => "aura-perseus-en"
    case AuraAngusEN => "aura-angus-en"
    case AuraOrpheusEN => "aura-orpheus-en"
    case AuraHeliosEN => "aura-helios-en"
    case AuraZeusEN => "aura-zeus-en"
    case CustomId(id) => id
  }

  /** The listed model a name denotes, if any: the inverse of the table. */
  function ListedModel(s: string): (m: Model)
    ensures m.CustomId? ==> m.id == s
  {
    if |s| == 12 then (
      if s[5] == 'l' then (if s == "aura-luna-en" then AuraLunaEN else CustomId(s))
      else if s[5] == 'h' then (if s == "aura-hera-en" then AuraHeraEN else CustomId(s))
      else if s[5] == 'z' then (if s == "aura-zeus-en" then AuraZeusEN else CustomId(s))
      else CustomId(s))
    else if |s| == 13 then (
      if s[7] == 'i' then (if s == "aura-orion-en" then AuraOrionEN else CustomId(s))
      else if s[7] == 'c' then (if s == "aura-arcas-en" then AuraArcasEN else CustomId(s))
      else if s[7] == 'g' then (if s == "aura-angus-en" then AuraAngusEN else CustomId(s))
      else CustomId(s))
    else if |s| == 14 then (
      if s[5] == 's' then (if s == "aura-stella-en" then AuraStellaEN else CustomId(s))
      else if s[5] == 'a' then (if s == "aura-athena-en" then AuraAthenaEN else CustomId(s))
      else if s[5] == 'h' then (if s == "aura-helios-en" then AuraHeliosEN else CustomId(s))
      else CustomId(s))
    else if |s| == 15 then (
      if s[5] == 'a' then (if s == "aura-asteria-en" then AuraAsteriaEN else CustomId(s))
      else if s[5] == 'p' then (if s == "aura-perseus-en" then AuraPerseusEN else CustomId(s))
      else if s[5] == 'o' then (if s == "aura-orpheus-en" then AuraOrpheusEN else CustomId(s))
      else CustomId(s))
    else CustomId(s)
  }

  /** Every listed model reads back from its name, so no two share one. */
  lemma ModelRoundTrip(m: Model)
    requires !m.CustomId?
    ensures ListedModel(ModelName(m)) == m
  {
    match m
    case AuraAsteriaEN => assert ListedModel("aura-asteria-en") == AuraAsteriaEN;
    case AuraLunaEN => assert ListedModel("aura-luna-en") == AuraLunaEN;
    case AuraStellaEN => assert ListedModel("aura-stella-en") == AuraStellaEN;
    case AuraAthenaEN => assert ListedModel("aura-athena-en") == AuraAthenaEN;
    case AuraHeraEN => assert ListedModel("aura-hera-en") == AuraHeraEN;
    case AuraOrionEN => assert ListedModel("aura-orion-en") == AuraOrionEN;
    case AuraArcasEN => assert ListedModel("aura-arcas-en") == AuraArcasEN;
    case AuraPerseusEN => assert ListedModel("aura-perseus-en") == AuraPerseusEN;
    case AuraAngusEN => assert ListedModel("aura-angus-en") == AuraAngusEN;
    case AuraOrpheusEN => assert ListedModel("aura-orpheus-en") == AuraOrpheusEN;
    case AuraHeliosEN => assert ListedModel("aura-helios-en") == AuraHeliosEN;
    case AuraZeusEN => assert ListedModel("aura-zeus-en") == AuraZeusEN;
  }

  /** An audio encoding. */
  datatype Encoding =
    Linear16 | Mulaw | Alaw | Mp3 | Opus | Flac | Aac
    | CustomEncoding(encoding: string)

  /** `Encoding::as_str`: a fixed table; a custom encoding is sent as given. */
  function EncodingName(e: Encoding): (s: string)
    ensures e.CustomEncoding? ==> s == e.encoding
  {
    match e
    case Linear16 => "linear16"
    case Mulaw => "mulaw"
    case Alaw => "alaw"
    case Mp3 => "mp3"
    case Opus => "opus"
    case Flac => "flac"
    case Aac => "aac"
    case CustomEncoding(x) => x
  }

  function ListedEncoding(s: string): (e: Encoding)
    ensures e.CustomEncoding? ==> e.encoding == s
  {
    if |s| == 3 then (if s == "mp3" then Mp3 else if s == "aac" then Aac else CustomEncoding(s))
    else if |s| == 4 then (
      if s[0] == 'a' then (if s == "alaw" then Alaw else CustomEncoding(s))
      else if s[0] == 'o' then (if s == "opus" then Opus else CustomEncoding(s))
      else if s[0] == 'f' then (if s == "flac" then Flac else CustomEncoding(s))
      else CustomEncoding(s))
    else if |s| == 5 then (if s == "mulaw" then Mulaw else CustomEncoding(s))
    else if |s| == 8 then (if s == "linear16" then Linear16 else CustomEncoding(s))
    else CustomEncoding(s)
  }

  /** Every listed encoding reads back from its name. */
  lemma EncodingRoundTrip(e: Encoding)
    requires !e.CustomEncoding?
    ensures ListedEncoding(EncodingName(e)) == e
  {
    match e
    case Linear16 => assert ListedEncoding("linear16") == Linear16;
    case Mulaw => assert ListedEncoding("mulaw") == Mulaw;
    case Alaw => assert ListedEncoding("alaw") == Alaw;
    case Mp3 => assert ListedEncoding("mp3") == Mp3;
    case Opus => assert ListedEncoding("opus") == Opus;
    case Flac => assert ListedEncoding("flac") == Flac;
    case Aac => assert ListedEncoding("aac") == Aac;
  }

  /** A container format; `ContainerNone` is the variant the source calls `None`. */
  datatype Container = Wav | Ogg | ContainerNone | CustomContainer(container: string)

  /** `Container::as_str` as written: the `None` variant is sent as "nonne". */
  function ContainerNameAsWritten(c: Container): (s: string)
    ensures c.CustomContainer? ==> s == c.container
  {
    match c
    case Wav => "wav"
    case Ogg => "ogg"
    case ContainerNone => "nonne"
    case CustomContainer(x) => x
  }

  /** The name the type's own lowercase serde renaming gives a unit variant. */
  function SerdeName(c: Container): Option<string>
  {
    match c
    case Wav => Some("wav")
    case Ogg => Some("ogg")
    case ContainerNone => Some("none")
    case CustomContainer(_) => None
  }

  /** `Container::as_str` with the misspelling corrected. */
  function ContainerName(c: Container): (s: string)
    ensures c.CustomContainer? ==> s == c.container
  {
    match c
    case Wav => "wav"
    case Ogg => "ogg"
    case ContainerNone => "none"
    case CustomContainer(x) => x
  }

  /** As written, the unit variants' query value disagrees with their serde name exactly at `None`. */
  lemma ContainerNoneMisspelled(c: Container)
    requires SerdeName(c).Some?
    ensures ContainerNameAsWritten(c) == SerdeName(c).value <==> c != ContainerNone
    ensures ContainerNameAsWritten(ContainerNone) == "nonne"
  {
  }

  /** Corrected, every unit variant is sent under its serde name, so "none" means none. */
  lemma ContainerNameAgrees(c: Container)
    requires SerdeName(c).Some?
    ensures ContainerName(c) == SerdeName(c).value
    ensures ContainerName(c) == ContainerNameAsWritten(c) <==> c != ContainerNone
  {
  }

  /** The listed container a name denotes, if any. */
  function ListedContainer(s: string): (c: Container)
    ensures c.CustomContainer? ==> c.container == s
  {
    if s == "wav" then Wav else if s == "ogg" then Ogg else if s == "none" then ContainerNone else CustomContainer(s)
  }

  /** Every listed container reads back from its corrected name. */
  lemma ContainerRoundTrip(c: Container)
    requires !c.CustomContainer?
    ensures ListedContainer(ContainerName(c)) == c
    ensures ListedContainer(ContainerNameAsWritten(c)) == c <==> c != ContainerNone
  {
  }

  /** Decimal rendering of an unsigned 32-bit value. */
  function U32String(n: u32): string
  {
    NatString(n)
  }

  /** The builder's fields. */
  datatype Options = Options(
    model: Option<Model>,
    encoding: Option<Encoding>,
    sampleRate: Option<u32>,
    container: Option<Container>,
    bitRate: Option<u32>)

  /** What `OptionsBuilder::new` starts from: nothing set. */
  const Initial: Options := Options(None, None, None, None, None)

  /** The serialised pairs, in the order the serialiser emits them, with the corrected container name. */
  function Pairs(o: Options): seq<Pair>
  {
    IfSome("model", MapOpt(ModelName, o.model))
    + IfSome("encoding", MapOpt(EncodingName, o.encoding))
    + IfSome("sample_rate", MapOpt(U32String, o.sampleRate))
    + IfSome("container", MapOpt(ContainerName, o.container))
    + IfSome("bit_rate", MapOpt(U32String, o.bitRate))
  }

  /** None of the keys of this group is `k`. */
  lemma PairsSilent(o: Options, k: string)
    requires k != "model" && k != "encoding" && k != "sample_rate" && k != "container" && k != "bit_rate"
    ensures Values(Pairs(o), k) == []
  {
    var p := IfSome("model", MapOpt(ModelName, o.model));
    ValuesIfSome("model", MapOpt(ModelName, o.model), k);
    ValuesIfSome("encoding", MapOpt(EncodingName, o.encoding), k);
    ValuesDropRight(p, IfSome("encoding", MapOpt(EncodingName, o.encoding)), k);
    p := p + IfSome("encoding", MapOpt(EncodingName, o.encoding));
    ValuesIfSome("sample_rate", MapOpt(U32String, o.sampleRate), k);
    ValuesDropRight(p, IfSome("sample_rate", MapOpt(U32String, o.sampleRate)), k);
    p := p + IfSome("sample_rate", MapOpt(U32String, o.sampleRate));
    ValuesIfSome("container", MapOpt(ContainerName, o.container), k);
    ValuesDropRight(p, IfSome("container", MapOpt(ContainerName, o.container)), k);
    p := p + IfSome("container", MapOpt(ContainerName, o.container));
    ValuesIfSome("bit_rate", MapOpt(U32String, o.bitRate), k);
    ValuesDropRight(p, IfSome("bit_rate", MapOpt(U32String, o.bitRate)), k);
    p := p + IfSome("bit_rate", MapOpt(U32String, o.bitRate));
  }

  lemma ProjectModel(o: Options)
    ensures Values(Pairs(o), "model") == Values(IfSome("model", MapOpt(ModelName, o.model)), "model")
  {
    var p := IfSome("model", MapOpt(ModelName, o.model));
    ValuesIfSome("encoding", MapOpt(EncodingName, o.encoding), "model");
    ValuesDropRight(p, IfSome("encoding", MapOpt(EncodingName, o.encoding)), "model");
    p := p + IfSome("encoding", MapOpt(EncodingName, o.encoding));
    ValuesIfSome("sample_rate", MapOpt(U32String, o.sampleRate), "model");
    ValuesDropRight(p, IfSome("sample_rate", MapOpt(U32String, o.sampleRate)), "model");
    p := p + IfSome("sample_rate", MapOpt(U32String, o.sampleRate));
    ValuesIfSome("container", MapOpt(ContainerName, o.container), "model");
    ValuesDropRight(p, IfSome("container", MapOpt(ContainerName, o.container)), "model");
    p := p + IfSome("container", MapOpt(ContainerName, o.container));
    ValuesIfSome("bit_rate", MapOpt(U32String, o.bitRate), "model");
    ValuesDropRight(p, IfSome("bit_rate", MapOpt(U32String, o.bitRate)), "model");
    p := p + IfSome("bit_rate", MapOpt(U32String, o.bitRate));
  }

  lemma ProjectEncoding(o: Options)
    ensures Values(Pairs(o), "encoding") == Values(IfSome("encoding", MapOpt(EncodingName, o.encoding)), "encoding")
  {
    var p := IfSome("model", MapOpt(ModelName, o.model));
    ValuesIfSome("model", MapOpt(ModelName, o.model), "encoding");
    ValuesDropLeft(p, IfSome("encoding", MapOpt(EncodingName, o.encoding)), "encoding");
    p := p + IfSome("encoding", MapOpt(EncodingName, o.encoding));
    ValuesIfSome("sample_rate", MapOpt(U32String, o.sampleRate), "encoding");
    ValuesDropRight(p, IfSome("sample_rate", MapOpt(U32String, o.sampleRate)), "encoding");
    p := p + IfSome("sample_rate", MapOpt(U32String, o.sampleRate));
    ValuesIfSome("container", MapOpt(ContainerName, o.container), "encoding");
    ValuesDropRight(p, IfSome("container", MapOpt(ContainerName, o.container)), "encoding");
    p := p + IfSome("container", MapOpt(ContainerName, o.container));
    ValuesIfSome("bit_rate", MapOpt(U32String, o.bitRate), "encoding");
    ValuesDropRight(p, IfSome("bit_rate", MapOpt(U32String, o.bitRate)), "encoding");
    p := p + IfSome("bit_rate", MapOpt(U32String, o.bitRate));
  }

  lemma ProjectSampleRate(o: Options)
    ensures Values(Pairs(o), "sample_rate") == Values(IfSome("sample_rate", MapOpt(U32String, o.sampleRate)), "sample_rate")
  {
    var p := IfSome("model", MapOpt(ModelName, o.model));
    ValuesIfSome("model", MapOpt(ModelName, o.model), "sample_rate");
    ValuesIfSome("encoding", MapOpt(EncodingName, o.encoding), "sample_rate");
    ValuesDropRight(p, IfSome("encoding", MapOpt(EncodingName, o.encoding)), "sample_rate");
    p := p + IfSome("encoding", MapOpt(EncodingName, o.encoding));
    ValuesDropLeft(p, IfSome("sample_rate", MapOpt(U32String, o.sampleRate)), "sample_rate");
    p := p + IfSome("sample_rate", MapOpt(U32String, o.sampleRate));
    ValuesIfSome("container", MapOpt(ContainerName, o.container), "sample_rate");
    ValuesDropRight(p, IfSome("container", MapOpt(ContainerName, o.container)), "sample_rate");
    p := p + IfSome("container", MapOpt(ContainerName, o.container));
    ValuesIfSome("bit_rate", MapOpt(U32String, o.bitRate), "sample_rate");
    ValuesDropRight(p, IfSome("bit_rate", MapOpt(U32String, o.bitRate)), "sample_rate");
    p := p + IfSome("bit_rate", MapOpt(U32String, o.bitRate));
  }

  lemma ProjectContainer(o: Options)
    ensures Values(Pairs(o), "container") == Values(IfSome("container", MapOpt(ContainerName, o.container)), "container")
  {
    var p := IfSome("model", MapOpt(ModelName, o.model));
    ValuesIfSome("model", MapOpt(ModelName, o.model), "container");
    ValuesIfSome("encoding", MapOpt(EncodingName, o.encoding), "container");
    ValuesDropRight(p, IfSome("encoding", MapOpt(EncodingName, o.encoding)), "container");
    p := p + IfSome("encoding", MapOpt(EncodingName, o.encoding));
    ValuesIfSome("sample_rate", MapOpt(U32String, o.sampleRate), "container");
    ValuesDropRight(p, IfSome("sample_rate", MapOpt(U32String, o.sampleRate)), "container");
    p := p + IfSome("sample_rate", MapOpt(U32String, o.sampleRate));
    ValuesDropLeft(p, IfSome("container", MapOpt(ContainerName, o.container)), "container");
    p := p + IfSome("container", MapOpt(ContainerName, o.container));
    ValuesIfSome("bit_rate", MapOpt(U32String, o.bitRate), "container");
    ValuesDropRight(p, IfSome("bit_rate", MapOpt(U32String, o.bitRate)), "container");
    p := p + IfSome("bit_rate", MapOpt(U32String, o.bitRate));
  }

  lemma ProjectBitRate(o: Options)
    ensures Values(Pairs(o), "bit_rate") == Values(IfSome("bit_rate", MapOpt(U32String, o.bitRate)), "bit_rate")
  {
    var p := IfSome("model", MapOpt(ModelName, o.model));
    ValuesIfSome("model", MapOpt(ModelName, o.model), "bit_rate");
    ValuesIfSome("encoding", MapOpt(EncodingName, o.encoding), "bit_rate");
    ValuesDropRight(p, IfSome("encoding", MapOpt(EncodingName, o.encoding)), "bit_rate");
    p := p + IfSome("encoding", MapOpt(EncodingName, o.encoding));
    ValuesIfSome("sample_rate", MapOpt(U32String, o.sampleRate), "bit_rate");
    ValuesDropRight(p, IfSome("sample_rate", MapOpt(U32String, o.sampleRate)), "bit_rate");
    p := p + IfSome("sample_rate", MapOpt(U32String, o.sampleRate));
    ValuesIfSome("container", MapOpt(ContainerName, o.container), "bit_rate");
    ValuesDropRight(p, IfSome("container", MapOpt(ContainerName, o.container)), "bit_rate");
    p := p + IfSome("container", MapOpt(ContainerName, o.container));
    ValuesDropLeft(p, IfSome("bit_rate", MapOpt(U32String, o.bitRate)), "bit_rate");
    p := p + IfSome("bit_rate", MapOpt(U32String, o.bitRate));
  }

  /** The pairs as written, with the container's misspelt name. */
  function PairsAsWritten(o: Options): seq<Pair>
  {
    IfSome("model", MapOpt(ModelName, o.model)) + IfSome("encoding", MapOpt(EncodingName, o.encoding)) + IfSome("sample_rate", MapOpt(U32String, o.sampleRate)) + IfSome("container", MapOpt(ContainerNameAsWritten, o.container)) + IfSome("bit_rate", MapOpt(U32String, o.bitRate))
  }

  /** `Serialize for SerializableOptions`, field by field. */
  method Serialize(o: Options) returns (ps: seq<Pair>)
    ensures ps == PairsAsWritten(o)
  {
    ps := IfSome("model", MapOpt(ModelName, o.model));
    ps := ps + IfSome("encoding", MapOpt(EncodingName, o.encoding));
    ps := ps + IfSome("sample_rate", MapOpt(U32String, o.sampleRate));
    ps := ps + IfSome("container", MapOpt(ContainerNameAsWritten, o.container));
    ps := ps + IfSome("bit_rate", MapOpt(U32String, o.bitRate));
  }

  /** The two serialisations differ only for the `None` container. */
  lemma AsWrittenDiffers(o: Options)
    ensures PairsAsWritten(o) == Pairs(o) <==> o.container != Some(ContainerNone)
  {
    if o.container == Some(ContainerNone) {
      assert Values(Pairs(o), "container") != Values(PairsAsWritten(o), "container") by {
        ContainerValue(o);
        ProjectContainerAsWritten(o);
      }
    }
  }

  lemma ProjectContainerAsWritten(o: Options)
    requires o.container.Some?
    ensures Values(PairsAsWritten(o), "container") == [ContainerNameAsWritten(o.container.value)]
  {
    var p := IfSome("model", MapOpt(ModelName, o.model));
    ValuesIfSome("model", MapOpt(ModelName, o.model), "container");
    ValuesIfSome("encoding", MapOpt(EncodingName, o.encoding), "container");
    ValuesDropRight(p, IfSome("encoding", MapOpt(EncodingName, o.encoding)), "container");
    p := p + IfSome("encoding", MapOpt(EncodingName, o.encoding));
    ValuesIfSome("sample_rate", MapOpt(U32String, o.sampleRate), "container");
    ValuesDropRight(p, IfSome("sample_rate", MapOpt(U32String, o.sampleRate)), "container");
    p := p + IfSome("sample_rate", MapOpt(U32String, o.sampleRate));
    ValuesIfSome("container", MapOpt(ContainerNameAsWritten, o.container), "container");
    ValuesDropLeft(p, IfSome("container", MapOpt(ContainerNameAsWritten, o.container)), "container");
    p := p + IfSome("container", MapOpt(ContainerNameAsWritten, o.container));
    ValuesIfSome("bit_rate", MapOpt(U32String, o.bitRate), "container");
    ValuesDropRight(p, IfSome("bit_rate", MapOpt(U32String, o.bitRate)), "container");
  }

  // What the request carries.

  /** The model and encoding are sent once each, exactly when set, under their table names. */
  lemma ModelEncodingValues(o: Options)
    ensures Values(Pairs(o), "model") == if o.model.Some? then [ModelName(o.model.value)] else []
    ensures Values(Pairs(o), "encoding") == if o.encoding.Some? then [EncodingName(o.encoding.value)] else []
  {
    ProjectModel(o);
    ValuesIfSome("model", MapOpt(ModelName, o.model), "model");
    ProjectEncoding(o);
    ValuesIfSome("encoding", MapOpt(EncodingName, o.encoding), "encoding");
  }

  /** The rates are sent once each, in decimal, exactly when set. */
  lemma RateValues(o: Options)
    ensures Values(Pairs(o), "sample_rate") == if o.sampleRate.Some? then [NatString(o.sampleRate.value)] else []
    ensures Values(Pairs(o), "bit_rate") == if o.bitRate.Some? then [NatString(o.bitRate.value)] else []
  {
    ProjectSampleRate(o);
    ValuesIfSome("sample_rate", MapOpt(U32String, o.sampleRate), "sample_rate");
    ProjectBitRate(o);
    ValuesIfSome("bit_rate", MapOpt(U32String, o.bitRate), "bit_rate");
  }

  lemma ContainerValue(o: Options)
    ensures Values(Pairs(o), "container") == if o.container.Some? then [ContainerName(o.container.value)] else []
  {
    ProjectContainer(o);
    ValuesIfSome("container", MapOpt(ContainerName, o.container), "container");
  }

  /** The keys come in the order model, encoding, sample_rate, container, bit_rate. */
  lemma PairsOrder()
    ensures Pairs(Options(Some(AuraAsteriaEN), Some(Linear16), Some(16000), Some(Wav), Some(32000)))
      == [("model", "aura-asteria-en"), ("encoding", "linear16"), ("sample_rate", NatString(16000)),
          ("container", "wav"), ("bit_rate", NatString(32000))]
  {
  }

  /** A fresh builder sends nothing. */
  lemma InitialPairs()
    ensures Pairs(Initial) == [] && PairsAsWritten(Initial) == []
  {
  }

  /** `OptionsBuilder`: the builder's fields. */
  class OptionsBuilder {
    var options: Options

    /** `OptionsBuilder::new`. */
    constructor()
      ensures options == Initial
    {
      options := Initial;
    }

    /** `model`: overwrites one field. */
    method SetModel(model: Model)
      modifies this
      ensures options == old(options).(model := Some(model))
    {
      options := options.(model := Some(model));
    }

    /** `encoding`: overwrites one field. */
    method SetEncoding(encoding: Encoding)
      modifies this
      ensures options == old(options).(encoding := Some(encoding))
    {
      options := options.(encoding := Some(encoding));
    }

    /** `sample_rate`: overwrites one field. */
    method SetSampleRate(sampleRate: u32)
      modifies this
      ensures options == old(options).(sampleRate := Some(sampleRate))
    {
      options := options.(sampleRate := Some(sampleRate));
    }

    /** `container`: overwrites one field. */
    method SetContainer(container: Container)
      modifies this
      ensures options == old(options).(container := Some(container))
    {
      options := options.(container := Some(container));
    }

    /** `bit_rate`: overwrites one field. */
    method SetBitRate(bitRate: u32)
      modifies this
      ensures options == old(options).(bitRate := Some(bitRate))
    {
      options := options.(bitRate := Some(bitRate));
    }

    /** `build`: the options as set. */
    method Build() returns (o: Options)
      ensures o == options
    {
      o := options;
    }
  }

  // The builder's documented behaviour, as methods that build fresh options.

  /** A second `model` call replaces the first. */
  method ModelOverwrites(a: Model, b: Model) returns (o1: Options, o2: Options)
    ensures o1 == o2
    ensures o1.model == Some(b)
  {
    var b1 := new OptionsBuilder();
    b1.SetModel(a);
    b1.SetModel(b);
    o1 := b1.Build();
    var b2 := new OptionsBuilder();
    b2.SetModel(b);
    o2 := b2.Build();
  }

  /** A second `container` call replaces the first. */
  method ContainerOverwrites(a: Container, b: Container) returns (o1: Options, o2: Options)
    ensures o1 == o2
    ensures o1.container == Some(b)
  {
    var b1 := new OptionsBuilder();
    b1.SetContainer(a);
    b1.SetContainer(b);
    o1 := b1.Build();
    var b2 := new OptionsBuilder();
    b2.SetContainer(b);
    o2 := b2.Build();
  }
}
