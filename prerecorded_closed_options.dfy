// The options of the older prerecorded request with closed enumerations
// (src/prerecorded/options/mod.rs): the same builder and serialiser as
// src/prerecorded/options.rs, but its languages and redaction kinds have no
// free-form variant. The serialiser's code is the same line for line, so its
// pairs are those of the open version on the embedded options.
module PrerecordedClosedOptions {
  import opened Wrappers
  import opened Query
  import P = PrerecordedOptions

  /** A language of the closed table. */
  datatype Language =
    zh_CN | zh_TW | nl | en_US | en_AU | en_GB | en_IN | en_NZ | fr | fr_CA | de | hi | id | it | ja | ko | pt | pr_BR | ru | es | es_419 | sv | tr | uk

  /** A redaction kind of the closed table. */
  datatype Redact = Pci | Numbers | Ssn

  /** The same language in the open table. */
  function EmbedLanguage(l: Language): (r: P.Language)
    ensures !r.Other?
  {
    match l
    case zh_CN => P.zh_CN
    case zh_TW => P.zh_TW
    case nl => P.nl
    case en_US => P.en_US
    case en_AU => P.en_AU
    case en_GB => P.en_GB
    case en_IN => P.en_IN
    case en_NZ => P.en_NZ
    case fr => P.fr
    case fr_CA => P.fr_CA
    case de => P.de
    case hi => P.hi
    case id => P.id
    case it => P.it
    case ja => P.ja
    case ko => P.ko
    case pt => P.pt
    case pr_BR => P.pr_BR
    case ru => P.ru
    case es => P.es
    case es_419 => P.es_419
    case sv => P.sv
    case tr => P.tr
    case uk => P.uk
  }

  function EmbedRedact(r: Redact): (e: P.Redact)
    ensures !e.Other?
  {
    match r
    case Pci => P.Pci
    case Numbers => P.Numbers
    case Ssn => P.Ssn
  }

  /** The wire name of a language: a total table with no pass-through. */
  function LanguageName(l: Language): string
  {
    P.LanguageName(EmbedLanguage(l))
  }

  function RedactName(r: Redact): string
  {
    P.RedactName(EmbedRedact(r))
  }

  /** Every closed language is sent under a tag the table lists, and the tag reads back as that language. */
  lemma LanguagesListed(l: Language)
    ensures P.ListedLanguage(LanguageName(l)) == EmbedLanguage(l)
    ensures l == pr_BR ==> LanguageName(l) == "pr_BR"
  {
    P.LanguageRoundTrip(EmbedLanguage(l));
  }

  /** Distinct closed languages have distinct tags. */
  lemma LanguageNameInjective(a: Language, b: Language)
    requires LanguageName(a) == LanguageName(b)
    ensures a == b
  {
    LanguagesListed(a);
    LanguagesListed(b);
  }

  /** The builder's fields. */
  datatype Options = Options(
    model: Option<P.Model>,
    version: Option<string>,
    language: Option<Language>,
    punctuate: Option<bool>,
    profanityFilter: Option<bool>,
    redact: seq<Redact>,
    diarize: Option<bool>,
    ner: Option<bool>,
    multichannel: Option<bool>,
    alternatives: Option<usize>,
    numerals: Option<bool>,
    search: seq<string>,
    callback: Option<string>,
    keywords: seq<string>,
    utterances: Option<P.Utterances>,
    tag: Option<string>)

  /** What `OptionsBuilder::new` starts from. */
  const Initial: Options := Options(
    model := None, version := None, language := None, punctuate := None, profanityFilter := None,
    redact := [], diarize := None, ner := None, multichannel := None, alternatives := None,
    numerals := None, search := [], callback := None, keywords := [], utterances := None, tag := None)

  function EmbedRedacts(rs: seq<Redact>): (es: seq<P.Redact>)
    ensures |es| == |rs|
    ensures forall i :: 0 <= i < |rs| ==> es[i] == EmbedRedact(rs[i])
  {
    if rs == [] then [] else [EmbedRedact(rs[0])] + EmbedRedacts(rs[1..])
  }

  /** These options as options of the open version. */
  function Embed(o: Options): P.Options
  {
    P.Options(o.model, o.version, EmbedLanguageOption(o.language), o.punctuate, o.profanityFilter,
              EmbedRedacts(o.redact), o.diarize, o.ner, o.multichannel, o.alternatives, o.numerals,
              o.search, o.callback, o.keywords, o.utterances, o.tag)
  }

  function EmbedLanguageOption(x: Option<Language>): (r: Option<P.Language>)
    ensures r.Some? <==> x.Some?
    ensures x.Some? ==> r.value == EmbedLanguage(x.value)
  {
    if x.Some? then Some(EmbedLanguage(x.value)) else None
  }

  /** The serialised pairs. */
  function Pairs(o: Options): seq<Pair>
  {
    P.Pairs(Embed(o))
  }

  /** `Serialize for OptionsBuilder`, the same code as the open version's. */
  method Serialize(o: Options) returns (ps: seq<Pair>)
    ensures ps == Pairs(o)
  {
    ps := P.Serialize(Embed(o));
  }

  /** A fresh builder sends nothing, as in the open version. */
  lemma InitialPairs()
    ensures Embed(Initial) == P.Initial
    ensures Pairs(Initial) == []
  {
    P.InitialPairs();
  }

  /** The language is sent exactly when set, always under a listed tag. */
  lemma LanguageValues(o: Options)
    ensures Values(Pairs(o), "language") == if o.language.Some? then [LanguageName(o.language.value)] else []
    ensures o.language.Some? ==> !P.ListedLanguage(Values(Pairs(o), "language")[0]).Other?
  {
    P.SingleValues(Embed(o));
    if o.language.Some? {
      LanguagesListed(o.language.value);
    }
  }

  /** Each redaction is sent once, in order, under its fixed name. */
  lemma RedactValues(o: Options)
    ensures Values(Pairs(o), "redact") == Map(RedactName, o.redact)
  {
    P.ListValues(Embed(o));
    assert Map(P.RedactName, EmbedRedacts(o.redact)) == Map(RedactName, o.redact);
  }

  /** The three utterance cases, as in the open version. */
  lemma UtterancesValues(o: Options)
    ensures Values(Pairs(o), "utterances") == P.UtterancesFlag(Embed(o))
    ensures Values(Pairs(o), "utt_split") == P.UttSplit(Embed(o))
    ensures o.utterances == Some(P.UtterancesDisabled) ==> Values(Pairs(o), "utterances") == ["false"]
  {
    P.UtterancesValues(Embed(o));
  }

  /** `OptionsBuilder`: the builder's fields, which it serialises directly. */
  class OptionsBuilder {
    var options: Options

    /** `OptionsBuilder::new`. */
    constructor()
      ensures options == Initial
    {
      options := Initial;
    }

    /** `model`: overwrites one field. */
    method SetModel(model: P.Model)
      modifies this
      ensures options == old(options).(model := Some(model))
    {
      options := options.(model := Some(model));
    }

    /** `version`: overwrites one field. */
    method SetVersion(version: string)
      modifies this
      ensures options == old(options).(version := Some(version))
    {
      options := options.(version := Some(version));
    }

    /** `language`: overwrites one field. */
    method SetLanguage(language: Language)
      modifies this
      ensures options == old(options).(language := Some(language))
    {
      options := options.(language := Some(language));
    }

    /** `punctuate`: overwrites one field. */
    method SetPunctuate(punctuate: bool)
      modifies this
      ensures options == old(options).(punctuate := Some(punctuate))
    {
      options := options.(punctuate := Some(punctuate));
    }

    /** `profanity_filter`: overwrites one field. */
    method SetProfanityFilter(profanityFilter: bool)
      modifies this
      ensures options == old(options).(profanityFilter := Some(profanityFilter))
    {
      options := options.(profanityFilter := Some(profanityFilter));
    }

    /** `diarize`: overwrites one field. */
    method SetDiarize(diarize: bool)
      modifies this
      ensures options == old(options).(diarize := Some(diarize))
    {
      options := options.(diarize := Some(diarize));
    }

    /** `ner`: overwrites one field. */
    method SetNer(ner: bool)
      modifies this
      ensures options == old(options).(ner := Some(ner))
    {
      options := options.(ner := Some(ner));
    }

    /** `multichannel`: overwrites one field. */
    method SetMultichannel(multichannel: bool)
      modifies this
      ensures options == old(options).(multichannel := Some(multichannel))
    {
      options := options.(multichannel := Some(multichannel));
    }

    /** `alternatives`: overwrites one field. */
    method SetAlternatives(alternatives: usize)
      modifies this
      ensures options == old(options).(alternatives := Some(alternatives))
    {
      options := options.(alternatives := Some(alternatives));
    }

    /** `numerals`: overwrites one field. */
    method SetNumerals(numerals: bool)
      modifies this
      ensures options == old(options).(numerals := Some(numerals))
    {
      options := options.(numerals := Some(numerals));
    }

    /** `callback`: overwrites one field. */
    method SetCallback(callback: string)
      modifies this
      ensures options == old(options).(callback := Some(callback))
    {
      options := options.(callback := Some(callback));
    }

    /** `utterances`: overwrites one field. */
    method SetUtterances(utterances: P.Utterances)
      modifies this
      ensures options == old(options).(utterances := Some(utterances))
    {
      options := options.(utterances := Some(utterances));
    }

    /** `tag`: overwrites one field. */
    method SetTag(tag: string)
      modifies this
      ensures options == old(options).(tag := Some(tag))
    {
      options := options.(tag := Some(tag));
    }

    /** `redact`: appends to the list already set. */
    method AddRedact(redact: seq<Redact>)
      modifies this
      ensures options == old(options).(redact := old(options).redact + redact)
    {
      options := options.(redact := options.redact + redact);
    }

    /** `search`: appends to the list already set. */
    method AddSearch(search: seq<string>)
      modifies this
      ensures options == old(options).(search := old(options).search + search)
    {
      options := options.(search := options.search + search);
    }

    /** `keywords`: appends to the list already set. */
    method AddKeywords(keywords: seq<string>)
      modifies this
      ensures options == old(options).(keywords := old(options).keywords + keywords)
    {
      options := options.(keywords := options.keywords + keywords);
    }

    /** The fields the serialiser reads. */
    method Serialized() returns (o: Options)
      ensures o == options
    {
      o := options;
    }
  }

  // The builder's documented behaviour, as methods that build fresh options.

  /** Two `redact` calls equal one with both lists. */
  method RedactAppend(xs: seq<Redact>, ys: seq<Redact>) returns (o1: Options, o2: Options)
    ensures o1 == o2
    ensures o1 == Initial.(redact := xs + ys)
  {
    var b1 := new OptionsBuilder();
    b1.AddRedact(xs);
    b1.AddRedact(ys);
    o1 := b1.Serialized();
    var b2 := new OptionsBuilder();
    b2.AddRedact(xs + ys);
    o2 := b2.Serialized();
  }

  /** Two `search` calls equal one with both lists. */
  method SearchAppend(xs: seq<string>, ys: seq<string>) returns (o1: Options, o2: Options)
    ensures o1 == o2
    ensures o1 == Initial.(search := xs + ys)
  {
    var b1 := new OptionsBuilder();
    b1.AddSearch(xs);
    b1.AddSearch(ys);
    o1 := b1.Serialized();
    var b2 := new OptionsBuilder();
    b2.AddSearch(xs + ys);
    o2 := b2.Serialized();
  }

  /** Two `keywords` calls equal one with both lists. */
  method KeywordsAppend(xs: seq<string>, ys: seq<string>) returns (o1: Options, o2: Options)
    ensures o1 == o2
    ensures o1 == Initial.(keywords := xs + ys)
  {
    var b1 := new OptionsBuilder();
    b1.AddKeywords(xs);
    b1.AddKeywords(ys);
    o1 := b1.Serialized();
    var b2 := new OptionsBuilder();
    b2.AddKeywords(xs + ys);
    o2 := b2.Serialized();
  }

  /** The second `tag` replaces the first. */
  method TagOverwrites(a: string, b: string) returns (o1: Options, o2: Options)
    ensures o1 == o2
    ensures o1.tag == Some(b)
  {
    var b1 := new OptionsBuilder();
    b1.SetTag(a);
    b1.SetTag(b);
    o1 := b1.Serialized();
    var b2 := new OptionsBuilder();
    b2.SetTag(b);
    o2 := b2.Serialized();
  }
}
