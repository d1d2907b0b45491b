// The options of the older prerecorded request (src/prerecorded/options.rs):
// a builder whose fields are set or extended by its setters and which
// serialises itself into the ordered query pairs of a request.
module PrerecordedOptions {
  import opened Wrappers
  import opened Query

  /** A model; `CustomId` carries any other name. */
  datatype Model = General | Meeting | Phonecall | Voicemail | Finance | Conversational | Video | CustomId(id: string)

  /** The wire name of a model. */
  function ModelName(m: Model): (s: string)
    ensures m == Conversational ==> s == "conversational"
    ensures m.CustomId? ==> s == m.id
  {
    match m
    case General => "general"
    case Meeting => "meeting"
    case Phonecall => "phonecall"
    case Voicemail => "voicemail"
    case Finance => "finance"
    case Conversational => "conversational"
    case Video => "video"
    case CustomId(id) => id
  }

  /** The listed models have distinct names. */
  lemma ModelNameInjective(a: Model, b: Model)
    requires !a.CustomId? && !b.CustomId?
    requires ModelName(a) == ModelName(b)
    ensures a == b
  {
  }

  /** A language; `Other` carries any tag the table does not list. */
  datatype Language =
    zh_CN | zh_TW | nl | en_US | en_AU | en_GB | en_IN | en_NZ | fr | fr_CA | de | hi | id | it | ja | ko | pt | pr_BR | ru | es | es_419 | sv | tr | uk
    | Other(tag: string)

  /**
   * The wire name of a language. Unlike the other tables, Brazilian
   * Portuguese is written "pr_BR", with an underscore.
   */
  function LanguageName(l: Language): (s: string)
    ensures l == pr_BR ==> s == "pr_BR"
    ensures l.Other? ==> s == l.tag
  {
    match l
    case zh_CN => "zh-CN"
    case zh_TW => "zh-TW"
    case nl => "nl"
    case en_US => "en-US"
    case en_AU => "en-AU"
    case en_GB => "en-GB"
    case en_IN => "en-IN"
    case en_NZ => "en-NZ"
    case fr => "fr"
    case fr_CA => "fr-CA"
    case de => "de"
    case hi => "hi"
    case id => "id"
    case it => "it"
    case ja => "ja"
    case ko => "ko"
    case pt => "pt"
    case pr_BR => "pr_BR"
    case ru => "ru"
    case es => "es"
    case es_419 => "es-419"
    case sv => "sv"
    case tr => "tr"
    case uk => "uk"
    case Other(tag) => tag
  }

  /** The listed language a tag names, if any: the inverse of the table. */
  function ListedLanguage(s: string): (l: Language)
    ensures l.Other? ==> l.tag == s
  {
    if |s| == 2 then (
      if s[0] == 'n' then (if s == "nl" then nl else Language.Other(s))
      else if s[0] == 'f' then (if s == "fr" then fr else Language.Other(s))
      else if s[0] == 'd' then (if s == "de" then de else Language.Other(s))
      else if s[0] == 'h' then (if s == "hi" then hi else Language.Other(s))
      else if s[0] == 'i' then (if s == "id" then id else if s == "it" then it else Language.Other(s))
      else if s[0] == 'j' then (if s == "ja" then ja else Language.Other(s))
      else if s[0] == 'k' then (if s == "ko" then ko else Language.Other(s))
      else if s[0] == 'p' then (if s == "pt" then pt else Language.Other(s))
      else if s[0] == 'r' then (if s == "ru" then ru else Language.Other(s))
      else if s[0] == 'e' then (if s == "es" then es else Language.Other(s))
      else if s[0] == 's' then (if s == "sv" then sv else Language.Other(s))
      else if s[0] == 't' then (if s == "tr" then tr else Language.Other(s))
      else if s[0] == 'u' then (if s == "uk" then uk else Language.Other(s))
      else Language.Other(s))
    else if |s| == 5 then (
      if s[3] == 'C' then (if s == "zh-CN" then zh_CN else if s == "fr-CA" then fr_CA else Language.Other(s))
      else if s[3] == 'T' then (if s == "zh-TW" then zh_TW else Language.Other(s))
      else if s[3] == 'U' then (if s == "en-US" then en_US else Language.Other(s))
      else if s[3] == 'A' then (if s == "en-AU" then en_AU else Language.Other(s))
      else if s[3] == 'G' then (if s == "en-GB" then en_GB else Language.Other(s))
      else if s[3] == 'I' then (if s == "en-IN" then en_IN else Language.Other(s))
      else if s[3] == 'N' then (if s == "en-NZ" then en_NZ else Language.Other(s))
      else if s[3] == 'B' then (if s == "pr_BR" then pr_BR else Language.Other(s))
      else Language.Other(s))
    else if |s| == 6 then (if s == "es-419" then es_419 else Language.Other(s))
    else Language.Other(s)
  }

  lemma LanguageRoundTrip1(l: Language)
    requires l == zh_CN || l == zh_TW || l == nl || l == en_US || l == en_AU || l == en_GB || l == en_IN || l == en_NZ || l == fr || l == fr_CA || l == de || l == hi
    ensures ListedLanguage(LanguageName(l)) == l
  {
    match l
    case zh_CN => assert ListedLanguage("zh-CN") == zh_CN;
    case zh_TW => assert ListedLanguage("zh-TW") == zh_TW;
    case nl => assert ListedLanguage("nl") == nl;
    case en_US => assert ListedLanguage("en-US") == en_US;
    case en_AU => assert ListedLanguage("en-AU") == en_AU;
    case en_GB => assert ListedLanguage("en-GB") == en_GB;
    case en_IN => assert ListedLanguage("en-IN") == en_IN;
    case en_NZ => assert ListedLanguage("en-NZ") == en_NZ;
    case fr => assert ListedLanguage("fr") == fr;
    case fr_CA => assert ListedLanguage("fr-CA") == fr_CA;
    case de => assert ListedLanguage("de") == de;
    case hi => assert ListedLanguage("hi") == hi;
  }

  lemma LanguageRoundTrip2(l: Language)
    requires l == id || l == it || l == ja || l == ko || l == pt || l == pr_BR || l == ru || l == es || l == es_419 || l == sv || l == tr || l == uk
    ensures ListedLanguage(LanguageName(l)) == l
  {
    match l
    case id => assert ListedLanguage("id") == id;
    case it => assert ListedLanguage("it") == it;
    case ja => assert ListedLanguage("ja") == ja;
    case ko => assert ListedLanguage("ko") == ko;
    case pt => assert ListedLanguage("pt") == pt;
    case pr_BR => assert ListedLanguage("pr_BR") == pr_BR;
    case ru => assert ListedLanguage("ru") == ru;
    case es => assert ListedLanguage("es") == es;
    case es_419 => assert ListedLanguage("es-419") == es_419;
    case sv => assert ListedLanguage("sv") == sv;
    case tr => assert ListedLanguage("tr") == tr;
    case uk => assert ListedLanguage("uk") == uk;
  }

  /** Every listed language reads back from its tag, so the table gives distinct tags. */
  lemma LanguageRoundTrip(l: Language)
    requires !l.Other?
    ensures ListedLanguage(LanguageName(l)) == l
  {
    if l == zh_CN || l == zh_TW || l == nl || l == en_US || l == en_AU || l == en_GB || l == en_IN || l == en_NZ || l == fr || l == fr_CA || l == de || l == hi {
      LanguageRoundTrip1(l);
    } else {
      LanguageRoundTrip2(l);
    }
  }

  /** A redaction kind. */
  datatype Redact = Pci | Numbers | Ssn | Other(name: string)

  function RedactName(r: Redact): (s: string)
    ensures r.Other? ==> s == r.name
  {
    match r
    case Pci => "pci"
    case Numbers => "numbers"
    case Ssn => "ssn"
    case Other(name) => name
  }

  /** Utterance segmentation; the split is kept as the text it prints as. */
  datatype Utterances = UtterancesDisabled | UtterancesEnabled(uttSplit: Option<string>)

  /** The builder's fields; `tag` is a single value here. */
  datatype Options = Options(
    model: Option<Model>,
    version: Option<string>,
    language: Option<Language>,
    punctuate: Option<bool>,
    profanityFilter: Option<bool>,
    redact: seq<Redact>,
    diarize: Option<bool>,
    ner: Option<bool>,
    multichannel: Option<bool>,
    alternatives: Option<usize>,
    numerals: Option<bool>,
    search: seq<string>,
    callback: Option<string>,
    keywords: seq<string>,
    utterances: Option<Utterances>,
    tag: Option<string>)

  /** What `OptionsBuilder::new` starts from. */
  const Initial: Options := Options(
    model := None, version := None, language := None, punctuate := None, profanityFilter := None,
    redact := [], diarize := None, ner := None, multichannel := None, alternatives := None,
    numerals := None, search := [], callback := None, keywords := [], utterances := None, tag := None)

  function UtterancesSection(o: Options): seq<Pair>
  {
    match o.utterances
    case None => []
    case Some(UtterancesDisabled) => [("utterances", "false")]
    case Some(UtterancesEnabled(split)) => [("utterances", "true")] + IfSome("utt_split", split)
  }

  /** The serialised pairs, in the order the serialiser emits them. */
  function Pairs(o: Options): seq<Pair>
  {
    IfSome("model", MapOpt(ModelName, o.model))
    + IfSome("version", o.version)
    + IfSome("language", MapOpt(LanguageName, o.language))
    + IfSome("punctuate", MapOpt(BoolString, o.punctuate))
    + IfSome("profanity_filter", MapOpt(BoolString, o.profanityFilter))
    + Repeat("redact", Map(RedactName, o.redact))
    + IfSome("diarize", MapOpt(BoolString, o.diarize))
    + IfSome("ner", MapOpt(BoolString, o.ner))
    + IfSome("multichannel", MapOpt(BoolString, o.multichannel))
    + IfSome("alternatives", MapOpt(UsizeString, o.alternatives))
    + IfSome("numerals", MapOpt(BoolString, o.numerals))
    + Repeat("search", o.search)
    + IfSome("callback", o.callback)
    + Repeat("keywords", o.keywords)
    + UtterancesSection(o)
    + IfSome("tag", o.tag)
  }

  /** None of the keys of this group is `k`. */
  lemma PairsSilent(o: Options, k: string)
    requires k != "model" && k != "version" && k != "language" && k != "punctuate" && k != "profanity_filter" && k != "redact" && k != "diarize" && k != "ner" && k != "multichannel" && k != "alternatives" && k != "numerals" && k != "search" && k != "callback" && k != "keywords" && k != "utterances" && k != "utt_split" && k != "tag"
    ensures Values(Pairs(o), k) == []
  {
    var p := IfSome("model", MapOpt(ModelName, o.model));
    ValuesIfSome("model", MapOpt(ModelName, o.model), k);
    ValuesIfSome("version", o.version, k);
    ValuesDropRight(p, IfSome("version", o.version), k);
    p := p + IfSome("version", o.version);
    ValuesIfSome("language", MapOpt(LanguageName, o.language), k);
    ValuesDropRight(p, IfSome("language", MapOpt(LanguageName, o.language)), k);
    p := p + IfSome("language", MapOpt(LanguageName, o.language));
    ValuesIfSome("punctuate", MapOpt(BoolString, o.punctuate), k);
    ValuesDropRight(p, IfSome("punctuate", MapOpt(BoolString, o.punctuate)), k);
    p := p + IfSome("punctuate", MapOpt(BoolString, o.punctuate));
    ValuesIfSome("profanity_filter", MapOpt(BoolString, o.profanityFilter), k);
    ValuesDropRight(p, IfSome("profanity_filter", MapOpt(BoolString, o.profanityFilter)), k);
    p := p + IfSome("profanity_filter", MapOpt(BoolString, o.profanityFilter));
    RepeatValues("redact", Map(RedactName, o.redact), k);
    ValuesDropRight(p, Repeat("redact", Map(RedactName, o.redact)), k);
    p := p + Repeat("redact", Map(RedactName, o.redact));
    ValuesIfSome("diarize", MapOpt(BoolString, o.diarize), k);
    ValuesDropRight(p, IfSome("diarize", MapOpt(BoolString, o.diarize)), k);
    p := p + IfSome("diarize", MapOpt(BoolString, o.diarize));
    ValuesIfSome("ner", MapOpt(BoolString, o.ner), k);
    ValuesDropRight(p, IfSome("ner", MapOpt(BoolString, o.ner)), k);
    p := p + IfSome("ner", MapOpt(BoolString, o.ner));
    ValuesIfSome("multichannel", MapOpt(BoolString, o.multichannel), k);
    ValuesDropRight(p, IfSome("multichannel", MapOpt(BoolString, o.multichannel)), k);
    p := p + IfSome("multichannel", MapOpt(BoolString, o.multichannel));
    ValuesIfSome("alternatives", MapOpt(UsizeString, o.alternatives), k);
    ValuesDropRight(p, IfSome("alternatives", MapOpt(UsizeString, o.alternatives)), k);
    p := p + IfSome("alternatives", MapOpt(UsizeString, o.alternatives));
    ValuesIfSome("numerals", MapOpt(BoolString, o.numerals), k);
    ValuesDropRight(p, IfSome("numerals", MapOpt(BoolString, o.numerals)), k);
    p := p + IfSome("numerals", MapOpt(BoolString, o.numerals));
    RepeatValues("search", o.search, k);
    ValuesDropRight(p, Repeat("search", o.search), k);
    p := p + Repeat("search", o.search);
    ValuesIfSome("callback", o.callback, k);
    ValuesDropRight(p, IfSome("callback", o.callback), k);
    p := p + IfSome("callback", o.callback);
    RepeatValues("keywords", o.keywords, k);
    ValuesDropRight(p, Repeat("keywords", o.keywords), k);
    p := p + Repeat("keywords", o.keywords);
    UtterancesSectionSilent(o, k);
    ValuesDropRight(p, UtterancesSection(o), k);
    p := p + UtterancesSection(o);
    ValuesIfSome("tag", o.tag, k);
    ValuesDropRight(p, IfSome("tag", o.tag), k);
    p := p + IfSome("tag", o.tag);
  }

  lemma ProjectModel(o: Options)
    ensures Values(Pairs(o), "model") == Values(IfSome("model", MapOpt(ModelName, o.model)), "model")
  {
    var p := IfSome("model", MapOpt(ModelName, o.model));
    ValuesIfSome("version", o.version, "model");
    ValuesDropRight(p, IfSome("version", o.version), "model");
    p := p + IfSome("version", o.version);
    ValuesIfSome("language", MapOpt(LanguageName, o.language), "model");
    ValuesDropRight(p, IfSome("language", MapOpt(LanguageName, o.language)), "model");
    p := p + IfSome("language", MapOpt(LanguageName, o.language));
    ValuesIfSome("punctuate", MapOpt(BoolString, o.punctuate), "model");
    ValuesDropRight(p, IfSome("punctuate", MapOpt(BoolString, o.punctuate)), "model");
    p := p + IfSome("punctuate", MapOpt(BoolString, o.punctuate));
    ValuesIfSome("profanity_filter", MapOpt(BoolString, o.profanityFilter), "model");
    ValuesDropRight(p, IfSome("profanity_filter", MapOpt(BoolString, o.profanityFilter)), "model");
    p := p + IfSome("profanity_filter", MapOpt(BoolString, o.profanityFilter));
    RepeatValues("redact", Map(RedactName, o.redact), "model");
    ValuesDropRight(p, Repeat("redact", Map(RedactName, o.redact)), "model");
    p := p + Repeat("redact", Map(RedactName, o.redact));
    ValuesIfSome("diarize", MapOpt(BoolString, o.diarize), "model");
    ValuesDropRight(p, IfSome("diarize", MapOpt(BoolString, o.diarize)), "model");
    p := p + IfSome("diarize", MapOpt(BoolString, o.diarize));
    ValuesIfSome("ner", MapOpt(BoolString, o.ner), "model");
    ValuesDropRight(p, IfSome("ner", MapOpt(BoolString, o.ner)), "model");
    p := p + IfSome("ner", MapOpt(BoolString, o.ner));
    ValuesIfSome("multichannel", MapOpt(BoolString, o.multichannel), "model");
    ValuesDropRight(p, IfSome("multichannel", MapOpt(BoolString, o.multichannel)), "model");
    p := p + IfSome("multichannel", MapOpt(BoolString, o.multichannel));
    ValuesIfSome("alternatives", MapOpt(UsizeString, o.alternatives), "model");
    ValuesDropRight(p, IfSome("alternatives", MapOpt(UsizeString, o.alternatives)), "model");
    p := p + IfSome("alternatives", MapOpt(UsizeString, o.alternatives));
    ValuesIfSome("numerals", MapOpt(BoolString, o.numerals), "model");
    ValuesDropRight(p, IfSome("numerals", MapOpt(BoolString, o.numerals)), "model");
    p := p + IfSome("numerals", MapOpt(BoolString, o.numerals));
    RepeatValues("search", o.search, "model");
    ValuesDropRight(p, Repeat("search", o.search), "model");
    p := p + Repeat("search", o.search);
    ValuesIfSome("callback", o.callback, "model");
    ValuesDropRight(p, IfSome("callback", o.callback), "model");
    p := p + IfSome("callback", o.callback);
    RepeatValues("keywords", o.keywords, "model");
    ValuesDropRight(p, Repeat("keywords", o.keywords), "model");
    p := p + Repeat("keywords", o.keywords);
    UtterancesSectionSilent(o, "model");
    ValuesDropRight(p, UtterancesSection(o), "model");
    p := p + UtterancesSection(o);
    ValuesIfSome("tag", o.tag, "model");
    ValuesDropRight(p, IfSome("tag", o.tag), "model");
    p := p + IfSome("tag", o.tag);
  }

  lemma ProjectLanguage(o: Options)
    ensures Values(Pairs(o), "language") == Values(IfSome("language", MapOpt(LanguageName, o.language)), "language")
  {
    var p := IfSome("model", MapOpt(ModelName, o.model));
    ValuesIfSome("model", MapOpt(ModelName, o.model), "language");
    ValuesIfSome("version", o.version, "language");
    ValuesDropRight(p, IfSome("version", o.version), "language");
    p := p + IfSome("version", o.version);
    ValuesDropLeft(p, IfSome("language", MapOpt(LanguageName, o.language)), "language");
    p := p + IfSome("language", MapOpt(LanguageName, o.language));
    ValuesIfSome("punctuate", MapOpt(BoolString, o.punctuate), "language");
    ValuesDropRight(p, IfSome("punctuate", MapOpt(BoolString, o.punctuate)), "language");
    p := p + IfSome("punctuate", MapOpt(BoolString, o.punctuate));
    ValuesIfSome("profanity_filter", MapOpt(BoolString, o.profanityFilter), "language");
    ValuesDropRight(p, IfSome("profanity_filter", MapOpt(BoolString, o.profanityFilter)), "language");
    p := p + IfSome("profanity_filter", MapOpt(BoolString, o.profanityFilter));
    RepeatValues("redact", Map(RedactName, o.redact), "language");
    ValuesDropRight(p, Repeat("redact", Map(RedactName, o.redact)), "language");
    p := p + Repeat("redact", Map(RedactName, o.redact));
    ValuesIfSome("diarize", MapOpt(BoolString, o.diarize), "language");
    ValuesDropRight(p, IfSome("diarize", MapOpt(BoolString, o.diarize)), "language");
    p := p + IfSome("diarize", MapOpt(BoolString, o.diarize));
    ValuesIfSome("ner", MapOpt(BoolString, o.ner), "language");
    ValuesDropRight(p, IfSome("ner", MapOpt(BoolString, o.ner)), "language");
    p := p + IfSome("ner", MapOpt(BoolString, o.ner));
    ValuesIfSome("multichannel", MapOpt(BoolString, o.multichannel), "language");
    ValuesDropRight(p, IfSome("multichannel", MapOpt(BoolString, o.multichannel)), "language");
    p := p + IfSome("multichannel", MapOpt(BoolString, o.multichannel));
    ValuesIfSome("alternatives", MapOpt(UsizeString, o.alternatives), "language");
    ValuesDropRight(p, IfSome("alternatives", MapOpt(UsizeString, o.alternatives)), "language");
    p := p + IfSome("alternatives", MapOpt(UsizeString, o.alternatives));
    ValuesIfSome("numerals", MapOpt(BoolString, o.numerals), "language");
    ValuesDropRight(p, IfSome("numerals", MapOpt(BoolString, o.numerals)), "language");
    p := p + IfSome("numerals", MapOpt(BoolString, o.numerals));
    RepeatValues("search", o.search, "language");
    ValuesDropRight(p, Repeat("search", o.search), "language");
    p := p + Repeat("search", o.search);
    ValuesIfSome("callback", o.callback, "language");
    ValuesDropRight(p, IfSome("callback", o.callback), "language");
    p := p + IfSome("callback", o.callback);
    RepeatValues("keywords", o.keywords, "language");
    ValuesDropRight(p, Repeat("keywords", o.keywords), "language");
    p := p + Repeat("keywords", o.keywords);
    UtterancesSectionSilent(o, "language");
    ValuesDropRight(p, UtterancesSection(o), "language");
    p := p + UtterancesSection(o);
    ValuesIfSome("tag", o.tag, "language");
    ValuesDropRight(p, IfSome("tag", o.tag), "language");
    p := p + IfSome("tag", o.tag);
  }

  lemma ProjectRedact(o: Options)
    ensures Values(Pairs(o), "redact") == Values(Repeat("redact", Map(RedactName, o.redact)), "redact")
  {
    var p := IfSome("model", MapOpt(ModelName, o.model));
    ValuesIfSome("model", MapOpt(ModelName, o.model), "redact");
    ValuesIfSome("version", o.version, "redact");
    ValuesDropRight(p, IfSome("version", o.version), "redact");
    p := p + IfSome("version", o.version);
    ValuesIfSome("language", MapOpt(LanguageName, o.language), "redact");
    ValuesDropRight(p, IfSome("language", MapOpt(LanguageName, o.language)), "redact");
    p := p + IfSome("language", MapOpt(LanguageName, o.language));
    ValuesIfSome("punctuate", MapOpt(BoolString, o.punctuate), "redact");
    ValuesDropRight(p, IfSome("punctuate", MapOpt(BoolString, o.punctuate)), "redact");
    p := p + IfSome("punctuate", MapOpt(BoolString, o.punctuate));
    ValuesIfSome("profanity_filter", MapOpt(BoolString, o.profanityFilter), "redact");
    ValuesDropRight(p, IfSome("profanity_filter", MapOpt(BoolString, o.profanityFilter)), "redact");
    p := p + IfSome("profanity_filter", MapOpt(BoolString, o.profanityFilter));
    ValuesDropLeft(p, Repeat("redact", Map(RedactName, o.redact)), "redact");
    p := p + Repeat("redact", Map(RedactName, o.redact));
    ValuesIfSome("diarize", MapOpt(BoolString, o.diarize), "redact");
    ValuesDropRight(p, IfSome("diarize", MapOpt(BoolString, o.diarize)), "redact");
    p := p + IfSome("diarize", MapOpt(BoolString, o.diarize));
    ValuesIfSome("ner", MapOpt(BoolString, o.ner), "redact");
    ValuesDropRight(p, IfSome("ner", MapOpt(BoolString, o.ner)), "redact");
    p := p + IfSome("ner", MapOpt(BoolString, o.ner));
    ValuesIfSome("multichannel", MapOpt(BoolString, o.multichannel), "redact");
    ValuesDropRight(p, IfSome("multichannel", MapOpt(BoolString, o.multichannel)), "redact");
    p := p + IfSome("multichannel", MapOpt(BoolString, o.multichannel));
    ValuesIfSome("alternatives", MapOpt(UsizeString, o.alternatives), "redact");
    ValuesDropRight(p, IfSome("alternatives", MapOpt(UsizeString, o.alternatives)), "redact");
    p := p + IfSome("alternatives", MapOpt(UsizeString, o.alternatives));
    ValuesIfSome("numerals", MapOpt(BoolString, o.numerals), "redact");
    ValuesDropRight(p, IfSome("numerals", MapOpt(BoolString, o.numerals)), "redact");
    p := p + IfSome("numerals", MapOpt(BoolString, o.numerals));
    RepeatValues("search", o.search, "redact");
    ValuesDropRight(p, Repeat("search", o.search), "redact");
    p := p + Repeat("search", o.search);
    ValuesIfSome("callback", o.callback, "redact");
    ValuesDropRight(p, IfSome("callback", o.callback), "redact");
    p := p + IfSome("callback", o.callback);
    RepeatValues("keywords", o.keywords, "redact");
    ValuesDropRight(p, Repeat("keywords", o.keywords), "redact");
    p := p + Repeat("keywords", o.keywords);
    UtterancesSectionSilent(o, "redact");
    ValuesDropRight(p, UtterancesSection(o), "redact");
    p := p + UtterancesSection(o);
    ValuesIfSome("tag", o.tag, "redact");
    ValuesDropRight(p, IfSome("tag", o.tag), "redact");
    p := p + IfSome("tag", o.tag);
  }

  lemma ProjectSearch(o: Options)
    ensures Values(Pairs(o), "search") == Values(Repeat("search", o.search), "search")
  {
    var p := IfSome("model", MapOpt(ModelName, o.model));
    ValuesIfSome("model", MapOpt(ModelName, o.model), "search");
    ValuesIfSome("version", o.version, "search");
    ValuesDropRight(p, IfSome("version", o.version), "search");
    p := p + IfSome("version", o.version);
    ValuesIfSome("language", MapOpt(LanguageName, o.language), "search");
    ValuesDropRight(p, IfSome("language", MapOpt(LanguageName, o.language)), "search");
    p := p + IfSome("language", MapOpt(LanguageName, o.language));
    ValuesIfSome("punctuate", MapOpt(BoolString, o.punctuate), "search");
    ValuesDropRight(p, IfSome("punctuate", MapOpt(BoolString, o.punctuate)), "search");
    p := p + IfSome("punctuate", MapOpt(BoolString, o.punctuate));
    ValuesIfSome("profanity_filter", MapOpt(BoolString, o.profanityFilter), "search");
    ValuesDropRight(p, IfSome("profanity_filter", MapOpt(BoolString, o.profanityFilter)), "search");
    p := p + IfSome("profanity_filter", MapOpt(BoolString, o.profanityFilter));
    RepeatValues("redact", Map(RedactName, o.redact), "search");
    ValuesDropRight(p, Repeat("redact", Map(RedactName, o.redact)), "search");
    p := p + Repeat("redact", Map(RedactName, o.redact));
    ValuesIfSome("diarize", MapOpt(BoolString, o.diarize), "search");
    ValuesDropRight(p, IfSome("diarize", MapOpt(BoolString, o.diarize)), "search");
    p := p + IfSome("diarize", MapOpt(BoolString, o.diarize));
    ValuesIfSome("ner", MapOpt(BoolString, o.ner), "search");
    ValuesDropRight(p, IfSome("ner", MapOpt(BoolString, o.ner)), "search");
    p := p + IfSome("ner", MapOpt(BoolString, o.ner));
    ValuesIfSome("multichannel", MapOpt(BoolString, o.multichannel), "search");
    ValuesDropRight(p, IfSome("multichannel", MapOpt(BoolString, o.multichannel)), "search");
    p := p + IfSome("multichannel", MapOpt(BoolString, o.multichannel));
    ValuesIfSome("alternatives", MapOpt(UsizeString, o.alternatives), "search");
    ValuesDropRight(p, IfSome("alternatives", MapOpt(UsizeString, o.alternatives)), "search");
    p := p + IfSome("alternatives", MapOpt(UsizeString, o.alternatives));
    ValuesIfSome("numerals", MapOpt(BoolString, o.numerals), "search");
    ValuesDropRight(p, IfSome("numerals", MapOpt(BoolString, o.numerals)), "search");
    p := p + IfSome("numerals", MapOpt(BoolString, o.numerals));
    ValuesDropLeft(p, Repeat("search", o.search), "search");
    p := p + Repeat("search", o.search);
    ValuesIfSome("callback", o.callback, "search");
    ValuesDropRight(p, IfSome("callback", o.callback), "search");
    p := p + IfSome("callback", o.callback);
    RepeatValues("keywords", o.keywords, "search");
    ValuesDropRight(p, Repeat("keywords", o.keywords), "search");
    p := p + Repeat("keywords", o.keywords);
    UtterancesSectionSilent(o, "search");
    ValuesDropRight(p, UtterancesSection(o), "search");
    p := p + UtterancesSection(o);
    ValuesIfSome("tag", o.tag, "search");
    ValuesDropRight(p, IfSome("tag", o.tag), "search");
    p := p + IfSome("tag", o.tag);
  }

  lemma ProjectCallback(o: Options)
    ensures Values(Pairs(o), "callback") == Values(IfSome("callback", o.callback), "callback")
  {
    var p := IfSome("model", MapOpt(ModelName, o.model));
    ValuesIfSome("model", MapOpt(ModelName, o.model), "callback");
    ValuesIfSome("version", o.version, "callback");
    ValuesDropRight(p, IfSome("version", o.version), "callback");
    p := p + IfSome("version", o.version);
    ValuesIfSome("language", MapOpt(LanguageName, o.language), "callback");
    ValuesDropRight(p, IfSome("language", MapOpt(LanguageName, o.language)), "callback");
    p := p + IfSome("language", MapOpt(LanguageName, o.language));
    ValuesIfSome("punctuate", MapOpt(BoolString, o.punctuate), "callback");
    ValuesDropRight(p, IfSome("punctuate", MapOpt(BoolString, o.punctuate)), "callback");
    p := p + IfSome("punctuate", MapOpt(BoolString, o.punctuate));
    ValuesIfSome("profanity_filter", MapOpt(BoolString, o.profanityFilter), "callback");
    ValuesDropRight(p, IfSome("profanity_filter", MapOpt(BoolString, o.profanityFilter)), "callback");
    p := p + IfSome("profanity_filter", MapOpt(BoolString, o.profanityFilter));
    RepeatValues("redact", Map(RedactName, o.redact), "callback");
    ValuesDropRight(p, Repeat("redact", Map(RedactName, o.redact)), "callback");
    p := p + Repeat("redact", Map(RedactName, o.redact));
    ValuesIfSome("diarize", MapOpt(BoolString, o.diarize), "callback");
    ValuesDropRight(p, IfSome("diarize", MapOpt(BoolString, o.diarize)), "callback");
    p := p + IfSome("diarize", MapOpt(BoolString, o.diarize));
    ValuesIfSome("ner", MapOpt(BoolString, o.ner), "callback");
    ValuesDropRight(p, IfSome("ner", MapOpt(BoolString, o.ner)), "callback");
    p := p + IfSome("ner", MapOpt(BoolString, o.ner));
    ValuesIfSome("multichannel", MapOpt(BoolString, o.multichannel), "callback");
    ValuesDropRight(p, IfSome("multichannel", MapOpt(BoolString, o.multichannel)), "callback");
    p := p + IfSome("multichannel", MapOpt(BoolString, o.multichannel));
    ValuesIfSome("alternatives", MapOpt(UsizeString, o.alternatives), "callback");
    ValuesDropRight(p, IfSome("alternatives", MapOpt(UsizeString, o.alternatives)), "callback");
    p := p + IfSome("alternatives", MapOpt(UsizeString, o.alternatives));
    ValuesIfSome("numerals", MapOpt(BoolString, o.numerals), "callback");
    ValuesDropRight(p, IfSome("numerals", MapOpt(BoolString, o.numerals)), "callback");
    p := p + IfSome("numerals", MapOpt(BoolString, o.numerals));
    RepeatValues("search", o.search, "callback");
    ValuesDropRight(p, Repeat("search", o.search), "callback");
    p := p + Repeat("search", o.search);
    ValuesDropLeft(p, IfSome("callback", o.callback), "callback");
    p := p + IfSome("callback", o.callback);
    RepeatValues("keywords", o.keywords, "callback");
    ValuesDropRight(p, Repeat("keywords", o.keywords), "callback");
    p := p + Repeat("keywords", o.keywords);
    UtterancesSectionSilent(o, "callback");
    ValuesDropRight(p, UtterancesSection(o), "callback");
    p := p + UtterancesSection(o);
    ValuesIfSome("tag", o.tag, "callback");
    ValuesDropRight(p, IfSome("tag", o.tag), "callback");
    p := p + IfSome("tag", o.tag);
  }

  lemma ProjectKeywords(o: Options)
    ensures Values(Pairs(o), "keywords") == Values(Repeat("keywords", o.keywords), "keywords")
  {
    var p := IfSome("model", MapOpt(ModelName, o.model));
    ValuesIfSome("model", MapOpt(ModelName, o.model), "keywords");
    ValuesIfSome("version", o.version, "keywords");
    ValuesDropRight(p, IfSome("version", o.version), "keywords");
    p := p + IfSome("version", o.version);
    ValuesIfSome("language", MapOpt(LanguageName, o.language), "keywords");
    ValuesDropRight(p, IfSome("language", MapOpt(LanguageName, o.language)), "keywords");
    p := p + IfSome("language", MapOpt(LanguageName, o.language));
    ValuesIfSome("punctuate", MapOpt(BoolString, o.punctuate), "keywords");
    ValuesDropRight(p, IfSome("punctuate", MapOpt(BoolString, o.punctuate)), "keywords");
    p := p + IfSome("punctuate", MapOpt(BoolString, o.punctuate));
    ValuesIfSome("profanity_filter", MapOpt(BoolString, o.profanityFilter), "keywords");
    ValuesDropRight(p, IfSome("profanity_filter", MapOpt(BoolString, o.profanityFilter)), "keywords");
    p := p + IfSome("profanity_filter", MapOpt(BoolString, o.profanityFilter));
    RepeatValues("redact", Map(RedactName, o.redact), "keywords");
    ValuesDropRight(p, Repeat("redact", Map(RedactName, o.redact)), "keywords");
    p := p + Repeat("redact", Map(RedactName, o.redact));
    ValuesIfSome("diarize", MapOpt(BoolString, o.diarize), "keywords");
    ValuesDropRight(p, IfSome("diarize", MapOpt(BoolString, o.diarize)), "keywords");
    p := p + IfSome("diarize", MapOpt(BoolString, o.diarize));
    ValuesIfSome("ner", MapOpt(BoolString, o.ner), "keywords");
    ValuesDropRight(p, IfSome("ner", MapOpt(BoolString, o.ner)), "keywords");
    p := p + IfSome("ner", MapOpt(BoolString, o.ner));
    ValuesIfSome("multichannel", MapOpt(BoolString, o.multichannel), "keywords");
    ValuesDropRight(p, IfSome("multichannel", MapOpt(BoolString, o.multichannel)), "keywords");
    p := p + IfSome("multichannel", MapOpt(BoolString, o.multichannel));
    ValuesIfSome("alternatives", MapOpt(UsizeString, o.alternatives), "keywords");
    ValuesDropRight(p, IfSome("alternatives", MapOpt(UsizeString, o.alternatives)), "keywords");
    p := p + IfSome("alternatives", MapOpt(UsizeString, o.alternatives));
    ValuesIfSome("numerals", MapOpt(BoolString, o.numerals), "keywords");
    ValuesDropRight(p, IfSome("numerals", MapOpt(BoolString, o.numerals)), "keywords");
    p := p + IfSome("numerals", MapOpt(BoolString, o.numerals));
    RepeatValues("search", o.search, "keywords");
    ValuesDropRight(p, Repeat("search", o.search), "keywords");
    p := p + Repeat("search", o.search);
    ValuesIfSome("callback", o.callback, "keywords");
    ValuesDropRight(p, IfSome("callback", o.callback), "keywords");
    p := p + IfSome("callback", o.callback);
    ValuesDropLeft(p, Repeat("keywords", o.keywords), "keywords");
    p := p + Repeat("keywords", o.keywords);
    UtterancesSectionSilent(o, "keywords");
    ValuesDropRight(p, UtterancesSection(o), "keywords");
    p := p + UtterancesSection(o);
    ValuesIfSome("tag", o.tag, "keywords");
    ValuesDropRight(p, IfSome("tag", o.tag), "keywords");
    p := p + IfSome("tag", o.tag);
  }

  lemma ProjectUtterances(o: Options)
    ensures Values(Pairs(o), "utterances") == Values(UtterancesSection(o), "utterances")
  {
    var p := IfSome("model", MapOpt(ModelName, o.model));
    ValuesIfSome("model", MapOpt(ModelName, o.model), "utterances");
    ValuesIfSome("version", o.version, "utterances");
    ValuesDropRight(p, IfSome("version", o.version), "utterances");
    p := p + IfSome("version", o.version);
    ValuesIfSome("language", MapOpt(LanguageName, o.language), "utterances");
    ValuesDropRight(p, IfSome("language", MapOpt(LanguageName, o.language)), "utterances");
    p := p + IfSome("language", MapOpt(LanguageName, o.language));
    ValuesIfSome("punctuate", MapOpt(BoolString, o.punctuate), "utterances");
    ValuesDropRight(p, IfSome("punctuate", MapOpt(BoolString, o.punctuate)), "utterances");
    p := p + IfSome("punctuate", MapOpt(BoolString, o.punctuate));
    ValuesIfSome("profanity_filter", MapOpt(BoolString, o.profanityFilter), "utterances");
    ValuesDropRight(p, IfSome("profanity_filter", MapOpt(BoolString, o.profanityFilter)), "utterances");
    p := p + IfSome("profanity_filter", MapOpt(BoolString, o.profanityFilter));
    RepeatValues("redact", Map(RedactName, o.redact), "utterances");
    ValuesDropRight(p, Repeat("redact", Map(RedactName, o.redact)), "utterances");
    p := p + Repeat("redact", Map(RedactName, o.redact));
    ValuesIfSome("diarize", MapOpt(BoolString, o.diarize), "utterances");
    ValuesDropRight(p, IfSome("diarize", MapOpt(BoolString, o.diarize)), "utterances");
    p := p + IfSome("diarize", MapOpt(BoolString, o.diarize));
    ValuesIfSome("ner", MapOpt(BoolString, o.ner), "utterances");
    ValuesDropRight(p, IfSome("ner", MapOpt(BoolString, o.ner)), "utterances");
    p := p + IfSome("ner", MapOpt(BoolString, o.ner));
    ValuesIfSome("multichannel", MapOpt(BoolString, o.multichannel), "utterances");
    ValuesDropRight(p, IfSome("multichannel", MapOpt(BoolString, o.multichannel)), "utterances");
    p := p + IfSome("multichannel", MapOpt(BoolString, o.multichannel));
    ValuesIfSome("alternatives", MapOpt(UsizeString, o.alternatives), "utterances");
    ValuesDropRight(p, IfSome("alternatives", MapOpt(UsizeString, o.alternatives)), "utterances");
    p := p + IfSome("alternatives", MapOpt(UsizeString, o.alternatives));
    ValuesIfSome("numerals", MapOpt(BoolString, o.numerals), "utterances");
    ValuesDropRight(p, IfSome("numerals", MapOpt(BoolString, o.numerals)), "utterances");
    p := p + IfSome("numerals", MapOpt(BoolString, o.numerals));
    RepeatValues("search", o.search, "utterances");
    ValuesDropRight(p, Repeat("search", o.search), "utterances");
    p := p + Repeat("search", o.search);
    ValuesIfSome("callback", o.callback, "utterances");
    ValuesDropRight(p, IfSome("callback", o.callback), "utterances");
    p := p + IfSome("callback", o.callback);
    RepeatValues("keywords", o.keywords, "utterances");
    ValuesDropRight(p, Repeat("keywords", o.keywords), "utterances");
    p := p + Repeat("keywords", o.keywords);
    ValuesDropLeft(p, UtterancesSection(o), "utterances");
    p := p + UtterancesSection(o);
    ValuesIfSome("tag", o.tag, "utterances");
    ValuesDropRight(p, IfSome("tag", o.tag), "utterances");
    p := p + IfSome("tag", o.tag);
  }

  lemma ProjectUttSplit(o: Options)
    ensures Values(Pairs(o), "utt_split") == Values(UtterancesSection(o), "utt_split")
  {
    var p := IfSome("model", MapOpt(ModelName, o.model));
    ValuesIfSome("model", MapOpt(ModelName, o.model), "utt_split");
    ValuesIfSome("version", o.version, "utt_split");
    ValuesDropRight(p, IfSome("version", o.version), "utt_split");
    p := p + IfSome("version", o.version);
    ValuesIfSome("language", MapOpt(LanguageName, o.language), "utt_split");
    ValuesDropRight(p, IfSome("language", MapOpt(LanguageName, o.language)), "utt_split");
    p := p + IfSome("language", MapOpt(LanguageName, o.language));
    ValuesIfSome("punctuate", MapOpt(BoolString, o.punctuate), "utt_split");
    ValuesDropRight(p, IfSome("punctuate", MapOpt(BoolString, o.punctuate)), "utt_split");
    p := p + IfSome("punctuate", MapOpt(BoolString, o.punctuate));
    ValuesIfSome("profanity_filter", MapOpt(BoolString, o.profanityFilter), "utt_split");
    ValuesDropRight(p, IfSome("profanity_filter", MapOpt(BoolString, o.profanityFilter)), "utt_split");
    p := p + IfSome("profanity_filter", MapOpt(BoolString, o.profanityFilter));
    RepeatValues("redact", Map(RedactName, o.redact), "utt_split");
    ValuesDropRight(p, Repeat("redact", Map(RedactName, o.redact)), "utt_split");
    p := p + Repeat("redact", Map(RedactName, o.redact));
    ValuesIfSome("diarize", MapOpt(BoolString, o.diarize), "utt_split");
    ValuesDropRight(p, IfSome("diarize", MapOpt(BoolString, o.diarize)), "utt_split");
    p := p + IfSome("diarize", MapOpt(BoolString, o.diarize));
    ValuesIfSome("ner", MapOpt(BoolString, o.ner), "utt_split");
    ValuesDropRight(p, IfSome("ner", MapOpt(BoolString, o.ner)), "utt_split");
    p := p + IfSome("ner", MapOpt(BoolString, o.ner));
    ValuesIfSome("multichannel", MapOpt(BoolString, o.multichannel), "utt_split");
    ValuesDropRight(p, IfSome("multichannel", MapOpt(BoolString, o.multichannel)), "utt_split");
    p := p + IfSome("multichannel", MapOpt(BoolString, o.multichannel));
    ValuesIfSome("alternatives", MapOpt(UsizeString, o.alternatives), "utt_split");
    ValuesDropRight(p, IfSome("alternatives", MapOpt(UsizeString, o.alternatives)), "utt_split");
    p := p + IfSome("alternatives", MapOpt(UsizeString, o.alternatives));
    ValuesIfSome("numerals", MapOpt(BoolString, o.numerals), "utt_split");
    ValuesDropRight(p, IfSome("numerals", MapOpt(BoolString, o.numerals)), "utt_split");
    p := p + IfSome("numerals", MapOpt(BoolString, o.numerals));
    RepeatValues("search", o.search, "utt_split");
    ValuesDropRight(p, Repeat("search", o.search), "utt_split");
    p := p + Repeat("search", o.search);
    ValuesIfSome("callback", o.callback, "utt_split");
    ValuesDropRight(p, IfSome("callback", o.callback), "utt_split");
    p := p + IfSome("callback", o.callback);
    RepeatValues("keywords", o.keywords, "utt_split");
    ValuesDropRight(p, Repeat("keywords", o.keywords), "utt_split");
    p := p + Repeat("keywords", o.keywords);
    ValuesDropLeft(p, UtterancesSection(o), "utt_split");
    p := p + UtterancesSection(o);
    ValuesIfSome("tag", o.tag, "utt_split");
    ValuesDropRight(p, IfSome("tag", o.tag), "utt_split");
    p := p + IfSome("tag", o.tag);
  }

  lemma ProjectTag(o: Options)
    ensures Values(Pairs(o), "tag") == Values(IfSome("tag", o.tag), "tag")
  {
    var p := IfSome("model", MapOpt(ModelName, o.model));
    ValuesIfSome("model", MapOpt(ModelName, o.model), "tag");
    ValuesIfSome("version", o.version, "tag");
    ValuesDropRight(p, IfSome("version", o.version), "tag");
    p := p + IfSome("version", o.version);
    ValuesIfSome("language", MapOpt(LanguageName, o.language), "tag");
    ValuesDropRight(p, IfSome("language", MapOpt(LanguageName, o.language)), "tag");
    p := p + IfSome("language", MapOpt(LanguageName, o.language));
    ValuesIfSome("punctuate", MapOpt(BoolString, o.punctuate), "tag");
    ValuesDropRight(p, IfSome("punctuate", MapOpt(BoolString, o.punctuate)), "tag");
    p := p + IfSome("punctuate", MapOpt(BoolString, o.punctuate));
    ValuesIfSome("profanity_filter", MapOpt(BoolString, o.profanityFilter), "tag");
    ValuesDropRight(p, IfSome("profanity_filter", MapOpt(BoolString, o.profanityFilter)), "tag");
    p := p + IfSome("profanity_filter", MapOpt(BoolString, o.profanityFilter));
    RepeatValues("redact", Map(RedactName, o.redact), "tag");
    ValuesDropRight(p, Repeat("redact", Map(RedactName, o.redact)), "tag");
    p := p + Repeat("redact", Map(RedactName, o.redact));
    ValuesIfSome("diarize", MapOpt(BoolString, o.diarize), "tag");
    ValuesDropRight(p, IfSome("diarize", MapOpt(BoolString, o.diarize)), "tag");
    p := p + IfSome("diarize", MapOpt(BoolString, o.diarize));
    ValuesIfSome("ner", MapOpt(BoolString, o.ner), "tag");
    ValuesDropRight(p, IfSome("ner", MapOpt(BoolString, o.ner)), "tag");
    p := p + IfSome("ner", MapOpt(BoolString, o.ner));
    ValuesIfSome("multichannel", MapOpt(BoolString, o.multichannel), "tag");
    ValuesDropRight(p, IfSome("multichannel", MapOpt(BoolString, o.multichannel)), "tag");
    p := p + IfSome("multichannel", MapOpt(BoolString, o.multichannel));
    ValuesIfSome("alternatives", MapOpt(UsizeString, o.alternatives), "tag");
    ValuesDropRight(p, IfSome("alternatives", MapOpt(UsizeString, o.alternatives)), "tag");
    p := p + IfSome("alternatives", MapOpt(UsizeString, o.alternatives));
    ValuesIfSome("numerals", MapOpt(BoolString, o.numerals), "tag");
    ValuesDropRight(p, IfSome("numerals", MapOpt(BoolString, o.numerals)), "tag");
    p := p + IfSome("numerals", MapOpt(BoolString, o.numerals));
    RepeatValues("search", o.search, "tag");
    ValuesDropRight(p, Repeat("search", o.search), "tag");
    p := p + Repeat("search", o.search);
    ValuesIfSome("callback", o.callback, "tag");
    ValuesDropRight(p, IfSome("callback", o.callback), "tag");
    p := p + IfSome("callback", o.callback);
    RepeatValues("keywords", o.keywords, "tag");
    ValuesDropRight(p, Repeat("keywords", o.keywords), "tag");
    p := p + Repeat("keywords", o.keywords);
    UtterancesSectionSilent(o, "tag");
    ValuesDropRight(p, UtterancesSection(o), "tag");
    p := p + UtterancesSection(o);
    ValuesDropLeft(p, IfSome("tag", o.tag), "tag");
    p := p + IfSome("tag", o.tag);
  }

  /** `Serialize for OptionsBuilder`: emits the pairs field by field, one loop per list. */
  method Serialize(o: Options) returns (ps: seq<Pair>)
    ensures ps == Pairs(o)
  {
    ps := IfSome("model", MapOpt(ModelName, o.model));
    ps := ps + IfSome("version", o.version);
    ps := ps + IfSome("language", MapOpt(LanguageName, o.language));
    ps := ps + IfSome("punctuate", MapOpt(BoolString, o.punctuate));
    ps := ps + IfSome("profanity_filter", MapOpt(BoolString, o.profanityFilter));
    ps := PushEach(ps, "redact", o.redact, RedactName);
    ps := ps + IfSome("diarize", MapOpt(BoolString, o.diarize));
    ps := ps + IfSome("ner", MapOpt(BoolString, o.ner));
    ps := ps + IfSome("multichannel", MapOpt(BoolString, o.multichannel));
    ps := ps + IfSome("alternatives", MapOpt(UsizeString, o.alternatives));
    ps := ps + IfSome("numerals", MapOpt(BoolString, o.numerals));
    MapIdentity(o.search);
    ps := PushEach(ps, "search", o.search, Identity);
    ps := ps + IfSome("callback", o.callback);
    MapIdentity(o.keywords);
    ps := PushEach(ps, "keywords", o.keywords, Identity);
    ps := ps + UtterancesSection(o);
    ps := ps + IfSome("tag", o.tag);
  }

  lemma UtterancesSectionSilent(o: Options, k: string)
    requires k != "utterances" && k != "utt_split"
    ensures Values(UtterancesSection(o), k) == []
  {
    if o.utterances.Some? && o.utterances.value.UtterancesEnabled? {
      var split := o.utterances.value.uttSplit;
      ValuesIfSome("utt_split", split, k);
      ValuesDropRight([("utterances", "true")], IfSome("utt_split", split), k);
    }
  }


  /** The utterances value sent for the options, if any. */
  function UtterancesFlag(o: Options): (r: seq<string>)
    ensures r == [] <==> o.utterances.None?
    ensures r == ["false"] <==> o.utterances == Some(UtterancesDisabled)
  {
    match o.utterances
    case None => []
    case Some(UtterancesDisabled) => ["false"]
    case Some(_) => ["true"]
  }

  /** The utt_split value sent for the options, if any. */
  function UttSplit(o: Options): (r: seq<string>)
    ensures r != [] ==> UtterancesFlag(o) == ["true"]
  {
    if o.utterances.Some? && o.utterances.value.UtterancesEnabled? && o.utterances.value.uttSplit.Some?
    then [o.utterances.value.uttSplit.value] else []
  }

  lemma UtterancesSectionValues(o: Options)
    ensures Values(UtterancesSection(o), "utterances") == UtterancesFlag(o)
    ensures Values(UtterancesSection(o), "utt_split") == UttSplit(o)
  {
    if o.utterances.Some? && o.utterances.value.UtterancesEnabled? {
      var split := o.utterances.value.uttSplit;
      ValuesIfSome("utt_split", split, "utterances");
      ValuesDropRight([("utterances", "true")], IfSome("utt_split", split), "utterances");
      ValuesIfSome("utt_split", split, "utt_split");
      ValuesDropLeft([("utterances", "true")], IfSome("utt_split", split), "utt_split");
    }
  }

  // What the request carries for each feature.

  /** Each redaction, search term and keyword is sent once, in order; an empty list sends nothing. */
  lemma ListValues(o: Options)
    ensures Values(Pairs(o), "redact") == Map(RedactName, o.redact)
    ensures Values(Pairs(o), "search") == o.search
    ensures Values(Pairs(o), "keywords") == o.keywords
  {
    ProjectRedact(o);
    RepeatValues("redact", Map(RedactName, o.redact), "redact");
    ProjectSearch(o);
    RepeatValues("search", o.search, "search");
    ProjectKeywords(o);
    RepeatValues("keywords", o.keywords, "keywords");
  }

  /** The model and language are each sent at most once, exactly when set. */
  lemma SingleValues(o: Options)
    ensures Values(Pairs(o), "model") == if o.model.Some? then [ModelName(o.model.value)] else []
    ensures Values(Pairs(o), "language") == if o.language.Some? then [LanguageName(o.language.value)] else []
  {
    ProjectModel(o);
    ValuesIfSome("model", MapOpt(ModelName, o.model), "model");
    ProjectLanguage(o);
    ValuesIfSome("language", MapOpt(LanguageName, o.language), "language");
  }

  lemma CallbackTagValues(o: Options)
    ensures Values(Pairs(o), "callback") == if o.callback.Some? then [o.callback.value] else []
    ensures Values(Pairs(o), "tag") == if o.tag.Some? then [o.tag.value] else []
  {
    ProjectCallback(o);
    ValuesIfSome("callback", o.callback, "callback");
    ProjectTag(o);
    ValuesIfSome("tag", o.tag, "tag");
  }

  /** Disabled sends utterances=false; Enabled sends true, followed by utt_split when a split is given. */
  lemma UtterancesValues(o: Options)
    ensures Values(Pairs(o), "utterances") == UtterancesFlag(o)
    ensures Values(Pairs(o), "utt_split") == UttSplit(o)
  {
    ProjectUtterances(o);
    ProjectUttSplit(o);
    UtterancesSectionValues(o);
  }

  /** A fresh builder sends nothing. */
  lemma InitialPairs()
    ensures Pairs(Initial) == []
  {
  }

  /** `OptionsBuilder`: the builder's fields, which it serialises directly. */
  class OptionsBuilder {
    var options: Options

    /** `OptionsBuilder::new`. */
    constructor()
      ensures options == Initial
    {
      options := Initial;
    }

    /** `model`: overwrites one field. */
    method SetModel(model: Model)
      modifies this
      ensures options == old(options).(model := Some(model))
    {
      options := options.(model := Some(model));
    }

    /** `version`: overwrites one field. */
    method SetVersion(version: string)
      modifies this
      ensures options == old(options).(version := Some(version))
    {
      options := options.(version := Some(version));
    }

    /** `language`: overwrites one field. */
    method SetLanguage(language: Language)
      modifies this
      ensures options == old(options).(language := Some(language))
    {
      options := options.(language := Some(language));
    }

    /** `punctuate`: overwrites one field. */
    method SetPunctuate(punctuate: bool)
      modifies this
      ensures options == old(options).(punctuate := Some(punctuate))
    {
      options := options.(punctuate := Some(punctuate));
    }

    /** `profanity_filter`: overwrites one field. */
    method SetProfanityFilter(profanityFilter: bool)
      modifies this
      ensures options == old(options).(profanityFilter := Some(profanityFilter))
    {
      options := options.(profanityFilter := Some(profanityFilter));
    }

    /** `diarize`: overwrites one field. */
    method SetDiarize(diarize: bool)
      modifies this
      ensures options == old(options).(diarize := Some(diarize))
    {
      options := options.(diarize := Some(diarize));
    }

    /** `ner`: overwrites one field. */
    method SetNer(ner: bool)
      modifies this
      ensures options == old(options).(ner := Some(ner))
    {
      options := options.(ner := Some(ner));
    }

    /** `multichannel`: overwrites one field. */
    method SetMultichannel(multichannel: bool)
      modifies this
      ensures options == old(options).(multichannel := Some(multichannel))
    {
      options := options.(multichannel := Some(multichannel));
    }

    /** `alternatives`: overwrites one field. */
    method SetAlternatives(alternatives: usize)
      modifies this
      ensures options == old(options).(alternatives := Some(alternatives))
    {
      options := options.(alternatives := Some(alternatives));
    }

    /** `numerals`: overwrites one field. */
    method SetNumerals(numerals: bool)
      modifies this
      ensures options == old(options).(numerals := Some(numerals))
    {
      options := options.(numerals := Some(numerals));
    }

    /** `callback`: overwrites one field. */
    method SetCallback(callback: string)
      modifies this
      ensures options == old(options).(callback := Some(callback))
    {
      options := options.(callback := Some(callback));
    }

    /** `utterances`: overwrites one field. */
    method SetUtterances(utterances: Utterances)
      modifies this
      ensures options == old(options).(utterances := Some(utterances))
    {
      options := options.(utterances := Some(utterances));
    }

    /** `tag`: overwrites one field. */
    method SetTag(tag: string)
      modifies this
      ensures options == old(options).(tag := Some(tag))
    {
      options := options.(tag := Some(tag));
    }

    /** `redact`: appends to the list already set. */
    method AddRedact(redact: seq<Redact>)
      modifies this
      ensures options == old(options).(redact := old(options).redact + redact)
    {
      options := options.(redact := options.redact + redact);
    }

    /** `search`: appends to the list already set. */
    method AddSearch(search: seq<string>)
      modifies this
      ensures options == old(options).(search := old(options).search + search)
    {
      options := options.(search := options.search + search);
    }

    /** `keywords`: appends to the list already set. */
    method AddKeywords(keywords: seq<string>)
      modifies this
      ensures options == old(options).(keywords := old(options).keywords + keywords)
    {
      options := options.(keywords := options.keywords + keywords);
    }

    /** The fields the serialiser reads. */
    method Serialized() returns (o: Options)
      ensures o == options
    {
      o := options;
    }
  }

  // The builder's documented behaviour, as methods that build fresh options.

  /** Two `redact` calls equal one with both lists. */
  method RedactAppend(xs: seq<Redact>, ys: seq<Redact>) returns (o1: Options, o2: Options)
    ensures o1 == o2
    ensures o1 == Initial.(redact := xs + ys)
  {
    var b1 := new OptionsBuilder();
    b1.AddRedact(xs);
    b1.AddRedact(ys);
    o1 := b1.Serialized();
    var b2 := new OptionsBuilder();
    b2.AddRedact(xs + ys);
    o2 := b2.Serialized();
  }

  /** Two `search` calls equal one with both lists. */
  method SearchAppend(xs: seq<string>, ys: seq<string>) returns (o1: Options, o2: Options)
    ensures o1 == o2
    ensures o1 == Initial.(search := xs + ys)
  {
    var b1 := new OptionsBuilder();
    b1.AddSearch(xs);
    b1.AddSearch(ys);
    o1 := b1.Serialized();
    var b2 := new OptionsBuilder();
    b2.AddSearch(xs + ys);
    o2 := b2.Serialized();
  }

  /** Two `keywords` calls equal one with both lists. */
  method KeywordsAppend(xs: seq<string>, ys: seq<string>) returns (o1: Options, o2: Options)
    ensures o1 == o2
    ensures o1 == Initial.(keywords := xs + ys)
  {
    var b1 := new OptionsBuilder();
    b1.AddKeywords(xs);
    b1.AddKeywords(ys);
    o1 := b1.Serialized();
    var b2 := new OptionsBuilder();
    b2.AddKeywords(xs + ys);
    o2 := b2.Serialized();
  }

  /** The second `tag` replaces the first. */
  method TagOverwrites(a: string, b: string) returns (o1: Options, o2: Options)
    ensures o1 == o2
    ensures o1.tag == Some(b)
  {
    var b1 := new OptionsBuilder();
    b1.SetTag(a);
    b1.SetTag(b);
    o1 := b1.Serialized();
    var b2 := new OptionsBuilder();
    b2.SetTag(b);
    o2 := b2.Serialized();
  }
}
