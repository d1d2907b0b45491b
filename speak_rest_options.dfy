// The string-typed options of the REST text-to-speech request
// (src/speak/rest/options.rs): the same five query parameters as the typed
// speak options, with free-form strings and signed 32-bit rates.
module SpeakRestOptions {
  import opened Wrappers
  import opened Query

  /** Decimal rendering of a signed 32-bit value. */
  function I32String(n: i32): string
  {
    IntString(n)
  }

  /** The builder's fields. */
  datatype Options = Options(
    model: Option<string>,
    encoding: Option<string>,
    sampleRate: Option<i32>,
    container: Option<string>,
    bitRate: Option<i32>)

  /** What `OptionsBuilder::new` starts from: nothing set. */
  const Initial: Options := Options(None, None, None, None, None)

  /** The serialised pairs, in the order the serialiser emits them. */
  function Pairs(o: Options): seq<Pair>
  {
    IfSome("model", o.model)
    + IfSome("encoding", o.encoding)
    + IfSome("sample_rate", MapOpt(I32String, o.sampleRate))
    + IfSome("container", o.container)
    + IfSome("bit_rate", MapOpt(I32String, o.bitRate))
  }

  /** None of the keys of this group is `k`. */
  lemma PairsSilent(o: Options, k: string)
    requires k != "model" && k != "encoding" && k != "sample_rate" && k != "container" && k != "bit_rate"
    ensures Values(Pairs(o), k) == []
  {
    var p := IfSome("model", o.model);
    ValuesIfSome("model", o.model, k);
    ValuesIfSome("encoding", o.encoding, k);
    ValuesDropRight(p, IfSome("encoding", o.encoding), k);
    p := p + IfSome("encoding", o.encoding);
    ValuesIfSome("sample_rate", MapOpt(I32String, o.sampleRate), k);
    ValuesDropRight(p, IfSome("sample_rate", MapOpt(I32String, o.sampleRate)), k);
    p := p + IfSome("sample_rate", MapOpt(I32String, o.sampleRate));
    ValuesIfSome("container", o.container, k);
    ValuesDropRight(p, IfSome("container", o.container), k);
    p := p + IfSome("container", o.container);
    ValuesIfSome("bit_rate", MapOpt(I32String, o.bitRate), k);
    ValuesDropRight(p, IfSome("bit_rate", MapOpt(I32String, o.bitRate)), k);
    p := p + IfSome("bit_rate", MapOpt(I32String, o.bitRate));
  }

  lemma ProjectModel(o: Options)
    ensures Values(Pairs(o), "model") == Values(IfSome("model", o.model), "model")
  {
    var p := IfSome("model", o.model);
    ValuesIfSome("encoding", o.encoding, "model");
    ValuesDropRight(p, IfSome("encoding", o.encoding), "model");
    p := p + IfSome("encoding", o.encoding);
    ValuesIfSome("sample_rate", MapOpt(I32String, o.sampleRate), "model");
    ValuesDropRight(p, IfSome("sample_rate", MapOpt(I32String, o.sampleRate)), "model");
    p := p + IfSome("sample_rate", MapOpt(I32String, o.sampleRate));
    ValuesIfSome("container", o.container, "model");
    ValuesDropRight(p, IfSome("container", o.container), "model");
    p := p + IfSome("container", o.container);
    ValuesIfSome("bit_rate", MapOpt(I32String, o.bitRate), "model");
    ValuesDropRight(p, IfSome("bit_rate", MapOpt(I32String, o.bitRate)), "model");
    p := p + IfSome("bit_rate", MapOpt(I32String, o.bitRate));
  }

  lemma ProjectEncoding(o: Options)
    ensures Values(Pairs(o), "encoding") == Values(IfSome("encoding", o.encoding), "encoding")
  {
    var p := IfSome("model", o.model);
    ValuesIfSome("model", o.model, "encoding");
    ValuesDropLeft(p, IfSome("encoding", o.encoding), "encoding");
    p := p + IfSome("encoding", o.encoding);
    ValuesIfSome("sample_rate", MapOpt(I32String, o.sampleRate), "encoding");
    ValuesDropRight(p, IfSome("sample_rate", MapOpt(I32String, o.sampleRate)), "encoding");
    p := p + IfSome("sample_rate", MapOpt(I32String, o.sampleRate));
    ValuesIfSome("container", o.container, "encoding");
    ValuesDropRight(p, IfSome("container", o.container), "encoding");
    p := p + IfSome("container", o.container);
    ValuesIfSome("bit_rate", MapOpt(I32String, o.bitRate), "encoding");
    ValuesDropRight(p, IfSome("bit_rate", MapOpt(I32String, o.bitRate)), "encoding");
    p := p + IfSome("bit_rate", MapOpt(I32String, o.bitRate));
  }

  lemma ProjectSampleRate(o: Options)
    ensures Values(Pairs(o), "sample_rate") == Values(IfSome("sample_rate", MapOpt(I32String, o.sampleRate)), "sample_rate")
  {
    var p := IfSome("model", o.model);
    ValuesIfSome("model", o.model, "sample_rate");
    ValuesIfSome("encoding", o.encoding, "sample_rate");
    ValuesDropRight(p, IfSome("encoding", o.encoding), "sample_rate");
    p := p + IfSome("encoding", o.encoding);
    ValuesDropLeft(p, IfSome("sample_rate", MapOpt(I32String, o.sampleRate)), "sample_rate");
    p := p + IfSome("sample_rate", MapOpt(I32String, o.sampleRate));
    ValuesIfSome("container", o.container, "sample_rate");
    ValuesDropRight(p, IfSome("container", o.container), "sample_rate");
    p := p + IfSome("container", o.container);
    ValuesIfSome("bit_rate", MapOpt(I32String, o.bitRate), "sample_rate");
    ValuesDropRight(p, IfSome("bit_rate", MapOpt(I32String, o.bitRate)), "sample_rate");
    p := p + IfSome("bit_rate", MapOpt(I32String, o.bitRate));
  }

  lemma ProjectContainer(o: Options)
    ensures Values(Pairs(o), "container") == Values(IfSome("container", o.container), "container")
  {
    var p := IfSome("model", o.model);
    ValuesIfSome("model", o.model, "container");
    ValuesIfSome("encoding", o.encoding, "container");
    ValuesDropRight(p, IfSome("encoding", o.encoding), "container");
    p := p + IfSome("encoding", o.encoding);
    ValuesIfSome("sample_rate", MapOpt(I32String, o.sampleRate), "container");
    ValuesDropRight(p, IfSome("sample_rate", MapOpt(I32String, o.sampleRate)), "container");
    p := p + IfSome("sample_rate", MapOpt(I32String, o.sampleRate));
    ValuesDropLeft(p, IfSome("container", o.container), "container");
    p := p + IfSome("container", o.container);
    ValuesIfSome("bit_rate", MapOpt(I32String, o.bitRate), "container");
    ValuesDropRight(p, IfSome("bit_rate", MapOpt(I32String, o.bitRate)), "container");
    p := p + IfSome("bit_rate", MapOpt(I32String, o.bitRate));
  }

  lemma ProjectBitRate(o: Options)
    ensures Values(Pairs(o), "bit_rate") == Values(IfSome("bit_rate", MapOpt(I32String, o.bitRate)), "bit_rate")
  {
    var p := IfSome("model", o.model);
    ValuesIfSome("model", o.model, "bit_rate");
    ValuesIfSome("encoding", o.encoding, "bit_rate");
    ValuesDropRight(p, IfSome("encoding", o.encoding), "bit_rate");
    p := p + IfSome("encoding", o.encoding);
    ValuesIfSome("sample_rate", MapOpt(I32String, o.sampleRate), "bit_rate");
    ValuesDropRight(p, IfSome("sample_rate", MapOpt(I32String, o.sampleRate)), "bit_rate");
    p := p + IfSome("sample_rate", MapOpt(I32String, o.sampleRate));
    ValuesIfSome("container", o.container, "bit_rate");
    ValuesDropRight(p, IfSome("container", o.container), "bit_rate");
    p := p + IfSome("container", o.container);
    ValuesDropLeft(p, IfSome("bit_rate", MapOpt(I32String, o.bitRate)), "bit_rate");
    p := p + IfSome("bit_rate", MapOpt(I32String, o.bitRate));
  }

  /** `Serialize for SerializableOptions`, field by field. */
  method Serialize(o: Options) returns (ps: seq<Pair>)
    ensures ps == Pairs(o)
  {
    ps := IfSome("model", o.model);
    ps := ps + IfSome("encoding", o.encoding);
    ps := ps + IfSome("sample_rate", MapOpt(I32String, o.sampleRate));
    ps := ps + IfSome("container", o.container);
    ps := ps + IfSome("bit_rate", MapOpt(I32String, o.bitRate));
  }

  // What the request carries.

  /** The strings are sent as given, once each, exactly when set. */
  lemma StringValues(o: Options)
    ensures Values(Pairs(o), "model") == if o.model.Some? then [o.model.value] else []
    ensures Values(Pairs(o), "encoding") == if o.encoding.Some? then [o.encoding.value] else []
    ensures Values(Pairs(o), "container") == if o.container.Some? then [o.container.value] else []
  {
    ProjectModel(o);
    ValuesIfSome("model", o.model, "model");
    ProjectEncoding(o);
    ValuesIfSome("encoding", o.encoding, "encoding");
    ProjectContainer(o);
    ValuesIfSome("container", o.container, "container");
  }

  /** The rates are sent once each, in signed decimal, exactly when set. */
  lemma RateValues(o: Options)
    ensures Values(Pairs(o), "sample_rate") == if o.sampleRate.Some? then [IntString(o.sampleRate.value)] else []
    ensures Values(Pairs(o), "bit_rate") == if o.bitRate.Some? then [IntString(o.bitRate.value)] else []
  {
    ProjectSampleRate(o);
    ValuesIfSome("sample_rate", MapOpt(I32String, o.sampleRate), "sample_rate");
    ProjectBitRate(o);
    ValuesIfSome("bit_rate", MapOpt(I32String, o.bitRate), "bit_rate");
  }

  /** The `model` test: a model alone gives the query "model=aura-asteria-en". */
  lemma ModelOnlyQuery()
    ensures Pairs(Initial.(model := Some("aura-asteria-en"))) == [("model", "aura-asteria-en")]
    ensures Urlencoded(Pairs(Initial.(model := Some("aura-asteria-en")))) == "model=aura-asteria-en"
  {
    var ps := Pairs(Initial.(model := Some("aura-asteria-en")));
    assert ps == [("model", "aura-asteria-en")];
    ModelOnlyText();
  }

  lemma ModelOnlyText()
    ensures Urlencoded([("model", "aura-asteria-en")]) == "model=aura-asteria-en"
  {
    ModelOnlyLiteral();
    PlainText1("model", "aura-asteria-en", "model" + "=" + "aura-asteria-en");
  }

  lemma ModelOnlyLiteral()
    ensures "model" + "=" + "aura-asteria-en" == "model=aura-asteria-en"
  {
  }

  /** The `all_options` test, as pairs: the five keys in order. */
  lemma AllOptionsPairs()
    ensures Pairs(Options(Some("aura-asteria-en"), Some("linear16"), Some(16000), Some("wav"), Some(32000)))
      == [("model", "aura-asteria-en"), ("encoding", "linear16"), ("sample_rate", IntString(16000)),
          ("container", "wav"), ("bit_rate", IntString(32000))]
  {
  }

  /** A fresh builder sends nothing. */
  lemma InitialPairs()
    ensures Pairs(Initial) == []
  {
  }

  /** `OptionsBuilder`: the builder's fields. */
  class OptionsBuilder {
    var options: Options

    /** `OptionsBuilder::new`. */
    constructor()
      ensures options == Initial
    {
      options := Initial;
    }

    /** `model`: overwrites one field. */
    method SetModel(model: string)
      modifies this
      ensures options == old(options).(model := Some(model))
    {
      options := options.(model := Some(model));
    }

    /** `encoding`: overwrites one field. */
    method SetEncoding(encoding: string)
      modifies this
      ensures options == old(options).(encoding := Some(encoding))
    {
      options := options.(encoding := Some(encoding));
    }

    /** `sample_rate`: overwrites one field. */
    method SetSampleRate(sampleRate: i32)
      modifies this
      ensures options == old(options).(sampleRate := Some(sampleRate))
    {
      options := options.(sampleRate := Some(sampleRate));
    }

    /** `container`: overwrites one field. */
    method SetContainer(container: string)
      modifies this
      ensures options == old(options).(container := Some(container))
    {
      options := options.(container := Some(container));
    }

    /** `bit_rate`: overwrites one field. */
    method SetBitRate(bitRate: i32)
      modifies this
      ensures options == old(options).(bitRate := Some(bitRate))
    {
      options := options.(bitRate := Some(bitRate));
    }

    /** `build`: the options as set. */
    method Build() returns (o: Options)
      ensures o == options
    {
      o := options;
    }
  }

  // The builder's documented behaviour, as methods that build fresh options.

  /** A second `sample_rate` call replaces the first. */
  method SampleRateOverwrites(a: i32, b: i32) returns (o1: Options, o2: Options)
    ensures o1 == o2
    ensures o1.sampleRate == Some(b)
  {
    var b1 := new OptionsBuilder();
    b1.SetSampleRate(a);
    b1.SetSampleRate(b);
    o1 := b1.Build();
    var b2 := new OptionsBuilder();
    b2.SetSampleRate(b);
    o2 := b2.Build();
  }
}
