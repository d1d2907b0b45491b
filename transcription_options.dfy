// The options of the prerecorded transcription request
// (src/transcription/prerecorded/options.rs): the option record, the builder
// that sets or extends its fields, and the serialiser that turns it into the
// ordered query pairs of a request.
module TranscriptionOptions {
  import opened Wrappers
  import opened Query
  import opened TranscriptionNames

  /** A find-and-replace term; a missing replacement removes the term. */
  datatype Replace = Replace(find: string, replace: Option<string>)

  /** A keyword to boost; the intensifier is kept as the text it prints as. */
  datatype Keyword = Keyword(keyword: string, intensifier: Option<string>)

  /** Utterance segmentation; the split is kept as the text it prints as. */
  datatype Utterances = UtterancesDisabled | UtterancesEnabled(uttSplit: Option<string>)

  /** Multichannel processing, optionally with one model per channel. */
  datatype Multichannel = MultichannelDisabled | MultichannelEnabled(models: Option<seq<Model>>)

  /** The option record; three flags are plain booleans, the rest optional. */
  datatype Options = Options(
    tier: Option<Tier>,
    model: Option<Model>,
    version: Option<string>,
    language: Option<Language>,
    punctuate: Option<bool>,
    profanityFilter: Option<bool>,
    redact: seq<Redact>,
    diarize: Option<bool>,
    ner: Option<bool>,
    multichannel: Option<Multichannel>,
    alternatives: Option<usize>,
    numerals: Option<bool>,
    search: seq<string>,
    replace: seq<Replace>,
    keywords: seq<Keyword>,
    fillerWords: bool,
    smartFormat: bool,
    paragraphs: Option<bool>,
    keywordBoostLegacy: bool,
    utterances: Option<Utterances>,
    tags: seq<string>,
    detectLanguage: Option<bool>)

  /** What `OptionsBuilder::new` starts from. */
  const Initial: Options := Options(
    tier := None, model := None, version := None, language := None, punctuate := None,
    profanityFilter := None, redact := [], diarize := None, ner := None, multichannel := None,
    alternatives := None, numerals := None, search := [], replace := [], keywords := [],
    fillerWords := false, smartFormat := false, paragraphs := None, keywordBoostLegacy := false,
    utterances := None, tags := [], detectLanguage := None)

  /** "find:replace", or the bare term when there is no replacement. */
  function ReplaceText(r: Replace): string
  {
    if r.replace.Some? then r.find + ":" + r.replace.value else r.find
  }

  /** "keyword:intensifier", or the bare keyword. */
  function KeywordText(k: Keyword): string
  {
    if k.intensifier.Some? then k.keyword + ":" + k.intensifier.value else k.keyword
  }

  /** The keyword list `keywords` adds: no intensifiers. */
  function PlainKeywords(ks: seq<string>): (r: seq<Keyword>)
    ensures |r| == |ks|
    ensures forall i :: 0 <= i < |ks| ==> r[i] == Keyword(ks[i], None)
  {
    if ks == [] then [] else [Keyword(ks[0], None)] + PlainKeywords(ks[1..])
  }

  lemma {:induction false} PlainKeywordsAppend(xs: seq<string>, ys: seq<string>)
    ensures PlainKeywords(xs + ys) == PlainKeywords(xs) + PlainKeywords(ys)
    decreases |xs|
  {
    if xs == [] {
      assert xs + ys == ys;
    } else {
      assert (xs + ys)[1..] == xs[1..] + ys;
      PlainKeywordsAppend(xs[1..], ys);
    }
  }

  /** True when per-channel models are set; they then take the place of `model`. */
  predicate ChannelModels(o: Options)
  {
    o.multichannel.Some? && o.multichannel.value.MultichannelEnabled? && o.multichannel.value.models.Some?
  }

  /** The joined per-channel models, or else the plain model if set. */
  function ModelSection(o: Options): seq<Pair>
  {
    if ChannelModels(o) then [("model", ModelsToString(o.multichannel.value.models.value))]
    else IfSome("model", MapOpt(ModelName, o.model))
  }

  /** Disabled prints false; Enabled, with or without models, prints true. */
  function MultichannelSection(o: Options): seq<Pair>
  {
    match o.multichannel
    case None => []
    case Some(MultichannelDisabled) => [("multichannel", "false")]
    case Some(MultichannelEnabled(_)) => [("multichannel", "true")]
  }

  function KeywordBoostSection(o: Options): seq<Pair>
  {
    if o.keywordBoostLegacy then [("keyword_boost", "legacy")] else []
  }

  /** filler_words and smart_format, printed whether or not they were set. */
  function FlagsSection(o: Options): seq<Pair>
  {
    [("filler_words", BoolString(o.fillerWords)), ("smart_format", BoolString(o.smartFormat))]
  }

  function UtterancesSection(o: Options): seq<Pair>
  {
    match o.utterances
    case None => []
    case Some(UtterancesDisabled) => [("utterances", "false")]
    case Some(UtterancesEnabled(split)) => [("utterances", "true")] + IfSome("utt_split", split)
  }

  /** From `tier` to `numerals`. */
  function FrontPairs(o: Options): seq<Pair>
  {
    IfSome("tier", MapOpt(TierName, o.tier))
    + ModelSection(o)
    + IfSome("version", o.version)
    + IfSome("language", MapOpt(LanguageName, o.language))
    + IfSome("punctuate", MapOpt(BoolString, o.punctuate))
    + IfSome("profanity_filter", MapOpt(BoolString, o.profanityFilter))
    + Repeat("redact", Map(RedactName, o.redact))
    + IfSome("diarize", MapOpt(BoolString, o.diarize))
    + IfSome("ner", MapOpt(BoolString, o.ner))
    + MultichannelSection(o)
    + IfSome("alternatives", MapOpt(UsizeString, o.alternatives))
    + IfSome("numerals", MapOpt(BoolString, o.numerals))
  }

  /** From `search` to `detect_language`. */
  function BackPairs(o: Options): seq<Pair>
  {
    Repeat("search", o.search)
    + Repeat("replace", Map(ReplaceText, o.replace))
    + Repeat("keywords", Map(KeywordText, o.keywords))
    + KeywordBoostSection(o)
    + FlagsSection(o)
    + IfSome("paragraphs", MapOpt(BoolString, o.paragraphs))
    + UtterancesSection(o)
    + Repeat("tag", o.tags)
    + IfSome("detect_language", MapOpt(BoolString, o.detectLanguage))
  }

  /** The serialised pairs, in the order the serialiser emits them. */
  function Pairs(o: Options): seq<Pair>
  {
    FrontPairs(o) + BackPairs(o)
  }

  lemma PairsValues(o: Options, k: string)
    ensures Values(Pairs(o), k) == Values(FrontPairs(o), k) + Values(BackPairs(o), k)
  {
    ValuesAppend(FrontPairs(o), BackPairs(o), k);
  }

  /** None of the keys of this group is `k`. */
  lemma FrontSilent(o: Options, k: string)
    requires k != "tier" && k != "model" && k != "version" && k != "language" && k != "punctuate" && k != "profanity_filter" && k != "redact" && k != "diarize" && k != "ner" && k != "multichannel" && k != "alternatives" && k != "numerals"
    ensures Values(FrontPairs(o), k) == []
  {
    var p := IfSome("tier", MapOpt(TierName, o.tier));
    ValuesIfSome("tier", MapOpt(TierName, o.tier), k);
    ModelSectionSilent(o, k);
    ValuesDropRight(p, ModelSection(o), k);
    p := p + ModelSection(o);
    ValuesIfSome("version", o.version, k);
    ValuesDropRight(p, IfSome("version", o.version), k);
    p := p + IfSome("version", o.version);
    ValuesIfSome("language", MapOpt(LanguageName, o.language), k);
    ValuesDropRight(p, IfSome("language", MapOpt(LanguageName, o.language)), k);
    p := p + IfSome("language", MapOpt(LanguageName, o.language));
    ValuesIfSome("punctuate", MapOpt(BoolString, o.punctuate), k);
    ValuesDropRight(p, IfSome("punctuate", MapOpt(BoolString, o.punctuate)), k);
    p := p + IfSome("punctuate", MapOpt(BoolString, o.punctuate));
    ValuesIfSome("profanity_filter", MapOpt(BoolString, o.profanityFilter), k);
    ValuesDropRight(p, IfSome("profanity_filter", MapOpt(BoolString, o.profanityFilter)), k);
    p := p + IfSome("profanity_filter", MapOpt(BoolString, o.profanityFilter));
    RepeatValues("redact", Map(RedactName, o.redact), k);
    ValuesDropRight(p, Repeat("redact", Map(RedactName, o.redact)), k);
    p := p + Repeat("redact", Map(RedactName, o.redact));
    ValuesIfSome("diarize", MapOpt(BoolString, o.diarize), k);
    ValuesDropRight(p, IfSome("diarize", MapOpt(BoolString, o.diarize)), k);
    p := p + IfSome("diarize", MapOpt(BoolString, o.diarize));
    ValuesIfSome("ner", MapOpt(BoolString, o.ner), k);
    ValuesDropRight(p, IfSome("ner", MapOpt(BoolString, o.ner)), k);
    p := p + IfSome("ner", MapOpt(BoolString, o.ner));
    MultichannelSectionSilent(o, k);
    ValuesDropRight(p, MultichannelSection(o), k);
    p := p + MultichannelSection(o);
    ValuesIfSome("alternatives", MapOpt(UsizeString, o.alternatives), k);
    ValuesDropRight(p, IfSome("alternatives", MapOpt(UsizeString, o.alternatives)), k);
    p := p + IfSome("alternatives", MapOpt(UsizeString, o.alternatives));
    ValuesIfSome("numerals", MapOpt(BoolString, o.numerals), k);
    ValuesDropRight(p, IfSome("numerals", MapOpt(BoolString, o.numerals)), k);
    p := p + IfSome("numerals", MapOpt(BoolString, o.numerals));
  }

  /** None of the keys of this group is `k`. */
  lemma BackSilent(o: Options, k: string)
    requires k != "search" && k != "replace" && k != "keywords" && k != "keyword_boost" && k != "filler_words" && k != "smart_format" && k != "paragraphs" && k != "utterances" && k != "utt_split" && k != "tag" && k != "detect_language"
    ensures Values(BackPairs(o), k) == []
  {
    var p := Repeat("search", o.search);
    RepeatValues("search", o.search, k);
    RepeatValues("replace", Map(ReplaceText, o.replace), k);
    ValuesDropRight(p, Repeat("replace", Map(ReplaceText, o.replace)), k);
    p := p + Repeat("replace", Map(ReplaceText, o.replace));
    RepeatValues("keywords", Map(KeywordText, o.keywords), k);
    ValuesDropRight(p, Repeat("keywords", Map(KeywordText, o.keywords)), k);
    p := p + Repeat("keywords", Map(KeywordText, o.keywords));
    KeywordBoostSectionSilent(o, k);
    ValuesDropRight(p, KeywordBoostSection(o), k);
    p := p + KeywordBoostSection(o);
    FlagsSectionSilent(o, k);
    ValuesDropRight(p, FlagsSection(o), k);
    p := p + FlagsSection(o);
    ValuesIfSome("paragraphs", MapOpt(BoolString, o.paragraphs), k);
    ValuesDropRight(p, IfSome("paragraphs", MapOpt(BoolString, o.paragraphs)), k);
    p := p + IfSome("paragraphs", MapOpt(BoolString, o.paragraphs));
    UtterancesSectionSilent(o, k);
    ValuesDropRight(p, UtterancesSection(o), k);
    p := p + UtterancesSection(o);
    RepeatValues("tag", o.tags, k);
    ValuesDropRight(p, Repeat("tag", o.tags), k);
    p := p + Repeat("tag", o.tags);
    ValuesIfSome("detect_language", MapOpt(BoolString, o.detectLanguage), k);
    ValuesDropRight(p, IfSome("detect_language", MapOpt(BoolString, o.detectLanguage)), k);
    p := p + IfSome("detect_language", MapOpt(BoolString, o.detectLanguage));
  }

  lemma FrontValuesTier(o: Options)
    ensures Values(FrontPairs(o), "tier") == Values(IfSome("tier", MapOpt(TierName, o.tier)), "tier")
  {
    var p := IfSome("tier", MapOpt(TierName, o.tier));
    ModelSectionSilent(o, "tier");
    ValuesDropRight(p, ModelSection(o), "tier");
    p := p + ModelSection(o);
    ValuesIfSome("version", o.version, "tier");
    ValuesDropRight(p, IfSome("version", o.version), "tier");
    p := p + IfSome("version", o.version);
    ValuesIfSome("language", MapOpt(LanguageName, o.language), "tier");
    ValuesDropRight(p, IfSome("language", MapOpt(LanguageName, o.language)), "tier");
    p := p + IfSome("language", MapOpt(LanguageName, o.language));
    ValuesIfSome("punctuate", MapOpt(BoolString, o.punctuate), "tier");
    ValuesDropRight(p, IfSome("punctuate", MapOpt(BoolString, o.punctuate)), "tier");
    p := p + IfSome("punctuate", MapOpt(BoolString, o.punctuate));
    ValuesIfSome("profanity_filter", MapOpt(BoolString, o.profanityFilter), "tier");
    ValuesDropRight(p, IfSome("profanity_filter", MapOpt(BoolString, o.profanityFilter)), "tier");
    p := p + IfSome("profanity_filter", MapOpt(BoolString, o.profanityFilter));
    RepeatValues("redact", Map(RedactName, o.redact), "tier");
    ValuesDropRight(p, Repeat("redact", Map(RedactName, o.redact)), "tier");
    p := p + Repeat("redact", Map(RedactName, o.redact));
    ValuesIfSome("diarize", MapOpt(BoolString, o.diarize), "tier");
    ValuesDropRight(p, IfSome("diarize", MapOpt(BoolString, o.diarize)), "tier");
    p := p + IfSome("diarize", MapOpt(BoolString, o.diarize));
    ValuesIfSome("ner", MapOpt(BoolString, o.ner), "tier");
    ValuesDropRight(p, IfSome("ner", MapOpt(BoolString, o.ner)), "tier");
    p := p + IfSome("ner", MapOpt(BoolString, o.ner));
    MultichannelSectionSilent(o, "tier");
    ValuesDropRight(p, MultichannelSection(o), "tier");
    p := p + MultichannelSection(o);
    ValuesIfSome("alternatives", MapOpt(UsizeString, o.alternatives), "tier");
    ValuesDropRight(p, IfSome("alternatives", MapOpt(UsizeString, o.alternatives)), "tier");
    p := p + IfSome("alternatives", MapOpt(UsizeString, o.alternatives));
    ValuesIfSome("numerals", MapOpt(BoolString, o.numerals), "tier");
    ValuesDropRight(p, IfSome("numerals", MapOpt(BoolString, o.numerals)), "tier");
    p := p + IfSome("numerals", MapOpt(BoolString, o.numerals));
  }

  lemma ProjectTier(o: Options)
    ensures Values(Pairs(o), "tier") == Values(IfSome("tier", MapOpt(TierName, o.tier)), "tier")
  {
    FrontValuesTier(o);
    BackSilent(o, "tier");
    PairsValues(o, "tier");
    SpliceLeft(Values(FrontPairs(o), "tier"), Values(BackPairs(o), "tier"), Values(IfSome("tier", MapOpt(TierName, o.tier)), "tier"));
  }

  lemma FrontValuesModel(o: Options)
    ensures Values(FrontPairs(o), "model") == Values(ModelSection(o), "model")
  {
    var p := IfSome("tier", MapOpt(TierName, o.tier));
    ValuesIfSome("tier", MapOpt(TierName, o.tier), "model");
    ValuesDropLeft(p, ModelSection(o), "model");
    p := p + ModelSection(o);
    ValuesIfSome("version", o.version, "model");
    ValuesDropRight(p, IfSome("version", o.version), "model");
    p := p + IfSome("version", o.version);
    ValuesIfSome("language", MapOpt(LanguageName, o.language), "model");
    ValuesDropRight(p, IfSome("language", MapOpt(LanguageName, o.language)), "model");
    p := p + IfSome("language", MapOpt(LanguageName, o.language));
    ValuesIfSome("punctuate", MapOpt(BoolString, o.punctuate), "model");
    ValuesDropRight(p, IfSome("punctuate", MapOpt(BoolString, o.punctuate)), "model");
    p := p + IfSome("punctuate", MapOpt(BoolString, o.punctuate));
    ValuesIfSome("profanity_filter", MapOpt(BoolString, o.profanityFilter), "model");
    ValuesDropRight(p, IfSome("profanity_filter", MapOpt(BoolString, o.profanityFilter)), "model");
    p := p + IfSome("profanity_filter", MapOpt(BoolString, o.profanityFilter));
    RepeatValues("redact", Map(RedactName, o.redact), "model");
    ValuesDropRight(p, Repeat("redact", Map(RedactName, o.redact)), "model");
    p := p + Repeat("redact", Map(RedactName, o.redact));
    ValuesIfSome("diarize", MapOpt(BoolString, o.diarize), "model");
    ValuesDropRight(p, IfSome("diarize", MapOpt(BoolString, o.diarize)), "model");
    p := p + IfSome("diarize", MapOpt(BoolString, o.diarize));
    ValuesIfSome("ner", MapOpt(BoolString, o.ner), "model");
    ValuesDropRight(p, IfSome("ner", MapOpt(BoolString, o.ner)), "model");
    p := p + IfSome("ner", MapOpt(BoolString, o.ner));
    MultichannelSectionSilent(o, "model");
    ValuesDropRight(p, MultichannelSection(o), "model");
    p := p + MultichannelSection(o);
    ValuesIfSome("alternatives", MapOpt(UsizeString, o.alternatives), "model");
    ValuesDropRight(p, IfSome("alternatives", MapOpt(UsizeString, o.alternatives)), "model");
    p := p + IfSome("alternatives", MapOpt(UsizeString, o.alternatives));
    ValuesIfSome("numerals", MapOpt(BoolString, o.numerals), "model");
    ValuesDropRight(p, IfSome("numerals", MapOpt(BoolString, o.numerals)), "model");
    p := p + IfSome("numerals", MapOpt(BoolString, o.numerals));
  }

  lemma ProjectModel(o: Options)
    ensures Values(Pairs(o), "model") == Values(ModelSection(o), "model")
  {
    FrontValuesModel(o);
    BackSilent(o, "model");
    PairsValues(o, "model");
    SpliceLeft(Values(FrontPairs(o), "model"), Values(BackPairs(o), "model"), Values(ModelSection(o), "model"));
  }

  lemma FrontValuesRedact(o: Options)
    ensures Values(FrontPairs(o), "redact") == Values(Repeat("redact", Map(RedactName, o.redact)), "redact")
  {
    var p := IfSome("tier", MapOpt(TierName, o.tier));
    ValuesIfSome("tier", MapOpt(TierName, o.tier), "redact");
    ModelSectionSilent(o, "redact");
    ValuesDropRight(p, ModelSection(o), "redact");
    p := p + ModelSection(o);
    ValuesIfSome("version", o.version, "redact");
    ValuesDropRight(p, IfSome("version", o.version), "redact");
    p := p + IfSome("version", o.version);
    ValuesIfSome("language", MapOpt(LanguageName, o.language), "redact");
    ValuesDropRight(p, IfSome("language", MapOpt(LanguageName, o.language)), "redact");
    p := p + IfSome("language", MapOpt(LanguageName, o.language));
    ValuesIfSome("punctuate", MapOpt(BoolString, o.punctuate), "redact");
    ValuesDropRight(p, IfSome("punctuate", MapOpt(BoolString, o.punctuate)), "redact");
    p := p + IfSome("punctuate", MapOpt(BoolString, o.punctuate));
    ValuesIfSome("profanity_filter", MapOpt(BoolString, o.profanityFilter), "redact");
    ValuesDropRight(p, IfSome("profanity_filter", MapOpt(BoolString, o.profanityFilter)), "redact");
    p := p + IfSome("profanity_filter", MapOpt(BoolString, o.profanityFilter));
    ValuesDropLeft(p, Repeat("redact", Map(RedactName, o.redact)), "redact");
    p := p + Repeat("redact", Map(RedactName, o.redact));
    ValuesIfSome("diarize", MapOpt(BoolString, o.diarize), "redact");
    ValuesDropRight(p, IfSome("diarize", MapOpt(BoolString, o.diarize)), "redact");
    p := p + IfSome("diarize", MapOpt(BoolString, o.diarize));
    ValuesIfSome("ner", MapOpt(BoolString, o.ner), "redact");
    ValuesDropRight(p, IfSome("ner", MapOpt(BoolString, o.ner)), "redact");
    p := p + IfSome("ner", MapOpt(BoolString, o.ner));
    MultichannelSectionSilent(o, "redact");
    ValuesDropRight(p, MultichannelSection(o), "redact");
    p := p + MultichannelSection(o);
    ValuesIfSome("alternatives", MapOpt(UsizeString, o.alternatives), "redact");
    ValuesDropRight(p, IfSome("alternatives", MapOpt(UsizeString, o.alternatives)), "redact");
    p := p + IfSome("alternatives", MapOpt(UsizeString, o.alternatives));
    ValuesIfSome("numerals", MapOpt(BoolString, o.numerals), "redact");
    ValuesDropRight(p, IfSome("numerals", MapOpt(BoolString, o.numerals)), "redact");
    p := p + IfSome("numerals", MapOpt(BoolString, o.numerals));
  }

  lemma ProjectRedact(o: Options)
    ensures Values(Pairs(o), "redact") == Values(Repeat("redact", Map(RedactName, o.redact)), "redact")
  {
    FrontValuesRedact(o);
    BackSilent(o, "redact");
    PairsValues(o, "redact");
    SpliceLeft(Values(FrontPairs(o), "redact"), Values(BackPairs(o), "redact"), Values(Repeat("redact", Map(RedactName, o.redact)), "redact"));
  }

  lemma FrontValuesMultichannel(o: Options)
    ensures Values(FrontPairs(o), "multichannel") == Values(MultichannelSection(o), "multichannel")
  {
    var p := IfSome("tier", MapOpt(TierName, o.tier));
    ValuesIfSome("tier", MapOpt(TierName, o.tier), "multichannel");
    ModelSectionSilent(o, "multichannel");
    ValuesDropRight(p, ModelSection(o), "multichannel");
    p := p + ModelSection(o);
    ValuesIfSome("version", o.version, "multichannel");
    ValuesDropRight(p, IfSome("version", o.version), "multichannel");
    p := p + IfSome("version", o.version);
    ValuesIfSome("language", MapOpt(LanguageName, o.language), "multichannel");
    ValuesDropRight(p, IfSome("language", MapOpt(LanguageName, o.language)), "multichannel");
    p := p + IfSome("language", MapOpt(LanguageName, o.language));
    ValuesIfSome("punctuate", MapOpt(BoolString, o.punctuate), "multichannel");
    ValuesDropRight(p, IfSome("punctuate", MapOpt(BoolString, o.punctuate)), "multichannel");
    p := p + IfSome("punctuate", MapOpt(BoolString, o.punctuate));
    ValuesIfSome("profanity_filter", MapOpt(BoolString, o.profanityFilter), "multichannel");
    ValuesDropRight(p, IfSome("profanity_filter", MapOpt(BoolString, o.profanityFilter)), "multichannel");
    p := p + IfSome("profanity_filter", MapOpt(BoolString, o.profanityFilter));
    RepeatValues("redact", Map(RedactName, o.redact), "multichannel");
    ValuesDropRight(p, Repeat("redact", Map(RedactName, o.redact)), "multichannel");
    p := p + Repeat("redact", Map(RedactName, o.redact));
    ValuesIfSome("diarize", MapOpt(BoolString, o.diarize), "multichannel");
    ValuesDropRight(p, IfSome("diarize", MapOpt(BoolString, o.diarize)), "multichannel");
    p := p + IfSome("diarize", MapOpt(BoolString, o.diarize));
    ValuesIfSome("ner", MapOpt(BoolString, o.ner), "multichannel");
    ValuesDropRight(p, IfSome("ner", MapOpt(BoolString, o.ner)), "multichannel");
    p := p + IfSome("ner", MapOpt(BoolString, o.ner));
    ValuesDropLeft(p, MultichannelSection(o), "multichannel");
    p := p + MultichannelSection(o);
    ValuesIfSome("alternatives", MapOpt(UsizeString, o.alternatives), "multichannel");
    ValuesDropRight(p, IfSome("alternatives", MapOpt(UsizeString, o.alternatives)), "multichannel");
    p := p + IfSome("alternatives", MapOpt(UsizeString, o.alternatives));
    ValuesIfSome("numerals", MapOpt(BoolString, o.numerals), "multichannel");
    ValuesDropRight(p, IfSome("numerals", MapOpt(BoolString, o.numerals)), "multichannel");
    p := p + IfSome("numerals", MapOpt(BoolString, o.numerals));
  }

  lemma ProjectMultichannel(o: Options)
    ensures Values(Pairs(o), "multichannel") == Values(MultichannelSection(o), "multichannel")
  {
    FrontValuesMultichannel(o);
    BackSilent(o, "multichannel");
    PairsValues(o, "multichannel");
    SpliceLeft(Values(FrontPairs(o), "multichannel"), Values(BackPairs(o), "multichannel"), Values(MultichannelSection(o), "multichannel"));
  }

  lemma BackValuesSearch(o: Options)
    ensures Values(BackPairs(o), "search") == Values(Repeat("search", o.search), "search")
  {
    var p := Repeat("search", o.search);
    RepeatValues("replace", Map(ReplaceText, o.replace), "search");
    ValuesDropRight(p, Repeat("replace", Map(ReplaceText, o.replace)), "search");
    p := p + Repeat("replace", Map(ReplaceText, o.replace));
    RepeatValues("keywords", Map(KeywordText, o.keywords), "search");
    ValuesDropRight(p, Repeat("keywords", Map(KeywordText, o.keywords)), "search");
    p := p + Repeat("keywords", Map(KeywordText, o.keywords));
    KeywordBoostSectionSilent(o, "search");
    ValuesDropRight(p, KeywordBoostSection(o), "search");
    p := p + KeywordBoostSection(o);
    FlagsSectionSilent(o, "search");
    ValuesDropRight(p, FlagsSection(o), "search");
    p := p + FlagsSection(o);
    ValuesIfSome("paragraphs", MapOpt(BoolString, o.paragraphs), "search");
    ValuesDropRight(p, IfSome("paragraphs", MapOpt(BoolString, o.paragraphs)), "search");
    p := p + IfSome("paragraphs", MapOpt(BoolString, o.paragraphs));
    UtterancesSectionSilent(o, "search");
    ValuesDropRight(p, UtterancesSection(o), "search");
    p := p + UtterancesSection(o);
    RepeatValues("tag", o.tags, "search");
    ValuesDropRight(p, Repeat("tag", o.tags), "search");
    p := p + Repeat("tag", o.tags);
    ValuesIfSome("detect_language", MapOpt(BoolString, o.detectLanguage), "search");
    ValuesDropRight(p, IfSome("detect_language", MapOpt(BoolString, o.detectLanguage)), "search");
    p := p + IfSome("detect_language", MapOpt(BoolString, o.detectLanguage));
  }

  lemma ProjectSearch(o: Options)
    ensures Values(Pairs(o), "search") == Values(Repeat("search", o.search), "search")
  {
    BackValuesSearch(o);
    FrontSilent(o, "search");
    PairsValues(o, "search");
    SpliceRight(Values(FrontPairs(o), "search"), Values(BackPairs(o), "search"), Values(Repeat("search", o.search), "search"));
  }

  lemma BackValuesReplace(o: Options)
    ensures Values(BackPairs(o), "replace") == Values(Repeat("replace", Map(ReplaceText, o.replace)), "replace")
  {
    var p := Repeat("search", o.search);
    RepeatValues("search", o.search, "replace");
    ValuesDropLeft(p, Repeat("replace", Map(ReplaceText, o.replace)), "replace");
    p := p + Repeat("replace", Map(ReplaceText, o.replace));
    RepeatValues("keywords", Map(KeywordText, o.keywords), "replace");
    ValuesDropRight(p, Repeat("keywords", Map(KeywordText, o.keywords)), "replace");
    p := p + Repeat("keywords", Map(KeywordText, o.keywords));
    KeywordBoostSectionSilent(o, "replace");
    ValuesDropRight(p, KeywordBoostSection(o), "replace");
    p := p + KeywordBoostSection(o);
    FlagsSectionSilent(o, "replace");
    ValuesDropRight(p, FlagsSection(o), "replace");
    p := p + FlagsSection(o);
    ValuesIfSome("paragraphs", MapOpt(BoolString, o.paragraphs), "replace");
    ValuesDropRight(p, IfSome("paragraphs", MapOpt(BoolString, o.paragraphs)), "replace");
    p := p + IfSome("paragraphs", MapOpt(BoolString, o.paragraphs));
    UtterancesSectionSilent(o, "replace");
    ValuesDropRight(p, UtterancesSection(o), "replace");
    p := p + UtterancesSection(o);
    RepeatValues("tag", o.tags, "replace");
    ValuesDropRight(p, Repeat("tag", o.tags), "replace");
    p := p + Repeat("tag", o.tags);
    ValuesIfSome("detect_language", MapOpt(BoolString, o.detectLanguage), "replace");
    ValuesDropRight(p, IfSome("detect_language", MapOpt(BoolString, o.detectLanguage)), "replace");
    p := p + IfSome("detect_language", MapOpt(BoolString, o.detectLanguage));
  }

  lemma ProjectReplace(o: Options)
    ensures Values(Pairs(o), "replace") == Values(Repeat("replace", Map(ReplaceText, o.replace)), "replace")
  {
    BackValuesReplace(o);
    FrontSilent(o, "replace");
    PairsValues(o, "replace");
    SpliceRight(Values(FrontPairs(o), "replace"), Values(BackPairs(o), "replace"), Values(Repeat("replace", Map(ReplaceText, o.replace)), "replace"));
  }

  lemma BackValuesKeywords(o: Options)
    ensures Values(BackPairs(o), "keywords") == Values(Repeat("keywords", Map(KeywordText, o.keywords)), "keywords")
  {
    var p := Repeat("search", o.search);
    RepeatValues("search", o.search, "keywords");
    RepeatValues("replace", Map(ReplaceText, o.replace), "keywords");
    ValuesDropRight(p, Repeat("replace", Map(ReplaceText, o.replace)), "keywords");
    p := p + Repeat("replace", Map(ReplaceText, o.replace));
    ValuesDropLeft(p, Repeat("keywords", Map(KeywordText, o.keywords)), "keywords");
    p := p + Repeat("keywords", Map(KeywordText, o.keywords));
    KeywordBoostSectionSilent(o, "keywords");
    ValuesDropRight(p, KeywordBoostSection(o), "keywords");
    p := p + KeywordBoostSection(o);
    FlagsSectionSilent(o, "keywords");
    ValuesDropRight(p, FlagsSection(o), "keywords");
    p := p + FlagsSection(o);
    ValuesIfSome("paragraphs", MapOpt(BoolString, o.paragraphs), "keywords");
    ValuesDropRight(p, IfSome("paragraphs", MapOpt(BoolString, o.paragraphs)), "keywords");
    p := p + IfSome("paragraphs", MapOpt(BoolString, o.paragraphs));
    UtterancesSectionSilent(o, "keywords");
    ValuesDropRight(p, UtterancesSection(o), "keywords");
    p := p + UtterancesSection(o);
    RepeatValues("tag", o.tags, "keywords");
    ValuesDropRight(p, Repeat("tag", o.tags), "keywords");
    p := p + Repeat("tag", o.tags);
    ValuesIfSome("detect_language", MapOpt(BoolString, o.detectLanguage), "keywords");
    ValuesDropRight(p, IfSome("detect_language", MapOpt(BoolString, o.detectLanguage)), "keywords");
    p := p + IfSome("detect_language", MapOpt(BoolString, o.detectLanguage));
  }

  lemma ProjectKeywords(o: Options)
    ensures Values(Pairs(o), "keywords") == Values(Repeat("keywords", Map(KeywordText, o.keywords)), "keywords")
  {
    BackValuesKeywords(o);
    FrontSilent(o, "keywords");
    PairsValues(o, "keywords");
    SpliceRight(Values(FrontPairs(o), "keywords"), Values(BackPairs(o), "keywords"), Values(Repeat("keywords", Map(KeywordText, o.keywords)), "keywords"));
  }

  lemma BackValuesKeywordBoost(o: Options)
    ensures Values(BackPairs(o), "keyword_boost") == Values(KeywordBoostSection(o), "keyword_boost")
  {
    var p := Repeat("search", o.search);
    RepeatValues("search", o.search, "keyword_boost");
    RepeatValues("replace", Map(ReplaceText, o.replace), "keyword_boost");
    ValuesDropRight(p, Repeat("replace", Map(ReplaceText, o.replace)), "keyword_boost");
    p := p + Repeat("replace", Map(ReplaceText, o.replace));
    RepeatValues("keywords", Map(KeywordText, o.keywords), "keyword_boost");
    ValuesDropRight(p, Repeat("keywords", Map(KeywordText, o.keywords)), "keyword_boost");
    p := p + Repeat("keywords", Map(KeywordText, o.keywords));
    ValuesDropLeft(p, KeywordBoostSection(o), "keyword_boost");
    p := p + KeywordBoostSection(o);
    FlagsSectionSilent(o, "keyword_boost");
    ValuesDropRight(p, FlagsSection(o), "keyword_boost");
    p := p + FlagsSection(o);
    ValuesIfSome("paragraphs", MapOpt(BoolString, o.paragraphs), "keyword_boost");
    ValuesDropRight(p, IfSome("paragraphs", MapOpt(BoolString, o.paragraphs)), "keyword_boost");
    p := p + IfSome("paragraphs", MapOpt(BoolString, o.paragraphs));
    UtterancesSectionSilent(o, "keyword_boost");
    ValuesDropRight(p, UtterancesSection(o), "keyword_boost");
    p := p + UtterancesSection(o);
    RepeatValues("tag", o.tags, "keyword_boost");
    ValuesDropRight(p, Repeat("tag", o.tags), "keyword_boost");
    p := p + Repeat("tag", o.tags);
    ValuesIfSome("detect_language", MapOpt(BoolString, o.detectLanguage), "keyword_boost");
    ValuesDropRight(p, IfSome("detect_language", MapOpt(BoolString, o.detectLanguage)), "keyword_boost");
    p := p + IfSome("detect_language", MapOpt(BoolString, o.detectLanguage));
  }

  lemma ProjectKeywordBoost(o: Options)
    ensures Values(Pairs(o), "keyword_boost") == Values(KeywordBoostSection(o), "keyword_boost")
  {
    BackValuesKeywordBoost(o);
    FrontSilent(o, "keyword_boost");
    PairsValues(o, "keyword_boost");
    SpliceRight(Values(FrontPairs(o), "keyword_boost"), Values(BackPairs(o), "keyword_boost"), Values(KeywordBoostSection(o), "keyword_boost"));
  }

  lemma BackValuesFillerWords(o: Options)
    ensures Values(BackPairs(o), "filler_words") == Values(FlagsSection(o), "filler_words")
  {
    var p := Repeat("search", o.search);
    RepeatValues("search", o.search, "filler_words");
    RepeatValues("replace", Map(ReplaceText, o.replace), "filler_words");
    ValuesDropRight(p, Repeat("replace", Map(ReplaceText, o.replace)), "filler_words");
    p := p + Repeat("replace", Map(ReplaceText, o.replace));
    RepeatValues("keywords", Map(KeywordText, o.keywords), "filler_words");
    ValuesDropRight(p, Repeat("keywords", Map(KeywordText, o.keywords)), "filler_words");
    p := p + Repeat("keywords", Map(KeywordText, o.keywords));
    KeywordBoostSectionSilent(o, "filler_words");
    ValuesDropRight(p, KeywordBoostSection(o), "filler_words");
    p := p + KeywordBoostSection(o);
    ValuesDropLeft(p, FlagsSection(o), "filler_words");
    p := p + FlagsSection(o);
    ValuesIfSome("paragraphs", MapOpt(BoolString, o.paragraphs), "filler_words");
    ValuesDropRight(p, IfSome("paragraphs", MapOpt(BoolString, o.paragraphs)), "filler_words");
    p := p + IfSome("paragraphs", MapOpt(BoolString, o.paragraphs));
    UtterancesSectionSilent(o, "filler_words");
    ValuesDropRight(p, UtterancesSection(o), "filler_words");
    p := p + UtterancesSection(o);
    RepeatValues("tag", o.tags, "filler_words");
    ValuesDropRight(p, Repeat("tag", o.tags), "filler_words");
    p := p + Repeat("tag", o.tags);
    ValuesIfSome("detect_language", MapOpt(BoolString, o.detectLanguage), "filler_words");
    ValuesDropRight(p, IfSome("detect_language", MapOpt(BoolString, o.detectLanguage)), "filler_words");
    p := p + IfSome("detect_language", MapOpt(BoolString, o.detectLanguage));
  }

  lemma ProjectFillerWords(o: Options)
    ensures Values(Pairs(o), "filler_words") == Values(FlagsSection(o), "filler_words")
  {
    BackValuesFillerWords(o);
    FrontSilent(o, "filler_words");
    PairsValues(o, "filler_words");
    SpliceRight(Values(FrontPairs(o), "filler_words"), Values(BackPairs(o), "filler_words"), Values(FlagsSection(o), "filler_words"));
  }

  lemma BackValuesSmartFormat(o: Options)
    ensures Values(BackPairs(o), "smart_format") == Values(FlagsSection(o), "smart_format")
  {
    var p := Repeat("search", o.search);
    RepeatValues("search", o.search, "smart_format");
    RepeatValues("replace", Map(ReplaceText, o.replace), "smart_format");
    ValuesDropRight(p, Repeat("replace", Map(ReplaceText, o.replace)), "smart_format");
    p := p + Repeat("replace", Map(ReplaceText, o.replace));
    RepeatValues("keywords", Map(KeywordText, o.keywords), "smart_format");
    ValuesDropRight(p, Repeat("keywords", Map(KeywordText, o.keywords)), "smart_format");
    p := p + Repeat("keywords", Map(KeywordText, o.keywords));
    KeywordBoostSectionSilent(o, "smart_format");
    ValuesDropRight(p, KeywordBoostSection(o), "smart_format");
    p := p + KeywordBoostSection(o);
    ValuesDropLeft(p, FlagsSection(o), "smart_format");
    p := p + FlagsSection(o);
    ValuesIfSome("paragraphs", MapOpt(BoolString, o.paragraphs), "smart_format");
    ValuesDropRight(p, IfSome("paragraphs", MapOpt(BoolString, o.paragraphs)), "smart_format");
    p := p + IfSome("paragraphs", MapOpt(BoolString, o.paragraphs));
    UtterancesSectionSilent(o, "smart_format");
    ValuesDropRight(p, UtterancesSection(o), "smart_format");
    p := p + UtterancesSection(o);
    RepeatValues("tag", o.tags, "smart_format");
    ValuesDropRight(p, Repeat("tag", o.tags), "smart_format");
    p := p + Repeat("tag", o.tags);
    ValuesIfSome("detect_language", MapOpt(BoolString, o.detectLanguage), "smart_format");
    ValuesDropRight(p, IfSome("detect_language", MapOpt(BoolString, o.detectLanguage)), "smart_format");
    p := p + IfSome("detect_language", MapOpt(BoolString, o.detectLanguage));
  }

  lemma ProjectSmartFormat(o: Options)
    ensures Values(Pairs(o), "smart_format") == Values(FlagsSection(o), "smart_format")
  {
    BackValuesSmartFormat(o);
    FrontSilent(o, "smart_format");
    PairsValues(o, "smart_format");
    SpliceRight(Values(FrontPairs(o), "smart_format"), Values(BackPairs(o), "smart_format"), Values(FlagsSection(o), "smart_format"));
  }

  lemma BackValuesUtterances(o: Options)
    ensures Values(BackPairs(o), "utterances") == Values(UtterancesSection(o), "utterances")
  {
    var p := Repeat("search", o.search);
    RepeatValues("search", o.search, "utterances");
    RepeatValues("replace", Map(ReplaceText, o.replace), "utterances");
    ValuesDropRight(p, Repeat("replace", Map(ReplaceText, o.replace)), "utterances");
    p := p + Repeat("replace", Map(ReplaceText, o.replace));
    RepeatValues("keywords", Map(KeywordText, o.keywords), "utterances");
    ValuesDropRight(p, Repeat("keywords", Map(KeywordText, o.keywords)), "utterances");
    p := p + Repeat("keywords", Map(KeywordText, o.keywords));
    KeywordBoostSectionSilent(o, "utterances");
    ValuesDropRight(p, KeywordBoostSection(o), "utterances");
    p := p + KeywordBoostSection(o);
    FlagsSectionSilent(o, "utterances");
    ValuesDropRight(p, FlagsSection(o), "utterances");
    p := p + FlagsSection(o);
    ValuesIfSome("paragraphs", MapOpt(BoolString, o.paragraphs), "utterances");
    ValuesDropRight(p, IfSome("paragraphs", MapOpt(BoolString, o.paragraphs)), "utterances");
    p := p + IfSome("paragraphs", MapOpt(BoolString, o.paragraphs));
    ValuesDropLeft(p, UtterancesSection(o), "utterances");
    p := p + UtterancesSection(o);
    RepeatValues("tag", o.tags, "utterances");
    ValuesDropRight(p, Repeat("tag", o.tags), "utterances");
    p := p + Repeat("tag", o.tags);
    ValuesIfSome("detect_language", MapOpt(BoolString, o.detectLanguage), "utterances");
    ValuesDropRight(p, IfSome("detect_language", MapOpt(BoolString, o.detectLanguage)), "utterances");
    p := p + IfSome("detect_language", MapOpt(BoolString, o.detectLanguage));
  }

  lemma ProjectUtterances(o: Options)
    ensures Values(Pairs(o), "utterances") == Values(UtterancesSection(o), "utterances")
  {
    BackValuesUtterances(o);
    FrontSilent(o, "utterances");
    PairsValues(o, "utterances");
    SpliceRight(Values(FrontPairs(o), "utterances"), Values(BackPairs(o), "utterances"), Values(UtterancesSection(o), "utterances"));
  }

  lemma BackValuesUttSplit(o: Options)
    ensures Values(BackPairs(o), "utt_split") == Values(UtterancesSection(o), "utt_split")
  {
    var p := Repeat("search", o.search);
    RepeatValues("search", o.search, "utt_split");
    RepeatValues("replace", Map(ReplaceText, o.replace), "utt_split");
    ValuesDropRight(p, Repeat("replace", Map(ReplaceText, o.replace)), "utt_split");
    p := p + Repeat("replace", Map(ReplaceText, o.replace));
    RepeatValues("keywords", Map(KeywordText, o.keywords), "utt_split");
    ValuesDropRight(p, Repeat("keywords", Map(KeywordText, o.keywords)), "utt_split");
    p := p + Repeat("keywords", Map(KeywordText, o.keywords));
    KeywordBoostSectionSilent(o, "utt_split");
    ValuesDropRight(p, KeywordBoostSection(o), "utt_split");
    p := p + KeywordBoostSection(o);
    FlagsSectionSilent(o, "utt_split");
    ValuesDropRight(p, FlagsSection(o), "utt_split");
    p := p + FlagsSection(o);
    ValuesIfSome("paragraphs", MapOpt(BoolString, o.paragraphs), "utt_split");
    ValuesDropRight(p, IfSome("paragraphs", MapOpt(BoolString, o.paragraphs)), "utt_split");
    p := p + IfSome("paragraphs", MapOpt(BoolString, o.paragraphs));
    ValuesDropLeft(p, UtterancesSection(o), "utt_split");
    p := p + UtterancesSection(o);
    RepeatValues("tag", o.tags, "utt_split");
    ValuesDropRight(p, Repeat("tag", o.tags), "utt_split");
    p := p + Repeat("tag", o.tags);
    ValuesIfSome("detect_language", MapOpt(BoolString, o.detectLanguage), "utt_split");
    ValuesDropRight(p, IfSome("detect_language", MapOpt(BoolString, o.detectLanguage)), "utt_split");
    p := p + IfSome("detect_language", MapOpt(BoolString, o.detectLanguage));
  }

  lemma ProjectUttSplit(o: Options)
    ensures Values(Pairs(o), "utt_split") == Values(UtterancesSection(o), "utt_split")
  {
    BackValuesUttSplit(o);
    FrontSilent(o, "utt_split");
    PairsValues(o, "utt_split");
    SpliceRight(Values(FrontPairs(o), "utt_split"), Values(BackPairs(o), "utt_split"), Values(UtterancesSection(o), "utt_split"));
  }

  lemma BackValuesTag(o: Options)
    ensures Values(BackPairs(o), "tag") == Values(Repeat("tag", o.tags), "tag")
  {
    var p := Repeat("search", o.search);
    RepeatValues("search", o.search, "tag");
    RepeatValues("replace", Map(ReplaceText, o.replace), "tag");
    ValuesDropRight(p, Repeat("replace", Map(ReplaceText, o.replace)), "tag");
    p := p + Repeat("replace", Map(ReplaceText, o.replace));
    RepeatValues("keywords", Map(KeywordText, o.keywords), "tag");
    ValuesDropRight(p, Repeat("keywords", Map(KeywordText, o.keywords)), "tag");
    p := p + Repeat("keywords", Map(KeywordText, o.keywords));
    KeywordBoostSectionSilent(o, "tag");
    ValuesDropRight(p, KeywordBoostSection(o), "tag");
    p := p + KeywordBoostSection(o);
    FlagsSectionSilent(o, "tag");
    ValuesDropRight(p, FlagsSection(o), "tag");
    p := p + FlagsSection(o);
    ValuesIfSome("paragraphs", MapOpt(BoolString, o.paragraphs), "tag");
    ValuesDropRight(p, IfSome("paragraphs", MapOpt(BoolString, o.paragraphs)), "tag");
    p := p + IfSome("paragraphs", MapOpt(BoolString, o.paragraphs));
    UtterancesSectionSilent(o, "tag");
    ValuesDropRight(p, UtterancesSection(o), "tag");
    p := p + UtterancesSection(o);
    ValuesDropLeft(p, Repeat("tag", o.tags), "tag");
    p := p + Repeat("tag", o.tags);
    ValuesIfSome("detect_language", MapOpt(BoolString, o.detectLanguage), "tag");
    ValuesDropRight(p, IfSome("detect_language", MapOpt(BoolString, o.detectLanguage)), "tag");
    p := p + IfSome("detect_language", MapOpt(BoolString, o.detectLanguage));
  }

  lemma ProjectTag(o: Options)
    ensures Values(Pairs(o), "tag") == Values(Repeat("tag", o.tags), "tag")
  {
    BackValuesTag(o);
    FrontSilent(o, "tag");
    PairsValues(o, "tag");
    SpliceRight(Values(FrontPairs(o), "tag"), Values(BackPairs(o), "tag"), Values(Repeat("tag", o.tags), "tag"));
  }

  lemma BackValuesDetectLanguage(o: Options)
    ensures Values(BackPairs(o), "detect_language") == Values(IfSome("detect_language", MapOpt(BoolString, o.detectLanguage)), "detect_language")
  {
    var p := Repeat("search", o.search);
    RepeatValues("search", o.search, "detect_language");
    RepeatValues("replace", Map(ReplaceText, o.replace), "detect_language");
    ValuesDropRight(p, Repeat("replace", Map(ReplaceText, o.replace)), "detect_language");
    p := p + Repeat("replace", Map(ReplaceText, o.replace));
    RepeatValues("keywords", Map(KeywordText, o.keywords), "detect_language");
    ValuesDropRight(p, Repeat("keywords", Map(KeywordText, o.keywords)), "detect_language");
    p := p + Repeat("keywords", Map(KeywordText, o.keywords));
    KeywordBoostSectionSilent(o, "detect_language");
    ValuesDropRight(p, KeywordBoostSection(o), "detect_language");
    p := p + KeywordBoostSection(o);
    FlagsSectionSilent(o, "detect_language");
    ValuesDropRight(p, FlagsSection(o), "detect_language");
    p := p + FlagsSection(o);
    ValuesIfSome("paragraphs", MapOpt(BoolString, o.paragraphs), "detect_language");
    ValuesDropRight(p, IfSome("paragraphs", MapOpt(BoolString, o.paragraphs)), "detect_language");
    p := p + IfSome("paragraphs", MapOpt(BoolString, o.paragraphs));
    UtterancesSectionSilent(o, "detect_language");
    ValuesDropRight(p, UtterancesSection(o), "detect_language");
    p := p + UtterancesSection(o);
    RepeatValues("tag", o.tags, "detect_language");
    ValuesDropRight(p, Repeat("tag", o.tags), "detect_language");
    p := p + Repeat("tag", o.tags);
    ValuesDropLeft(p, IfSome("detect_language", MapOpt(BoolString, o.detectLanguage)), "detect_language");
    p := p + IfSome("detect_language", MapOpt(BoolString, o.detectLanguage));
  }

  lemma ProjectDetectLanguage(o: Options)
    ensures Values(Pairs(o), "detect_language") == Values(IfSome("detect_language", MapOpt(BoolString, o.detectLanguage)), "detect_language")
  {
    BackValuesDetectLanguage(o);
    FrontSilent(o, "detect_language");
    PairsValues(o, "detect_language");
    SpliceRight(Values(FrontPairs(o), "detect_language"), Values(BackPairs(o), "detect_language"), Values(IfSome("detect_language", MapOpt(BoolString, o.detectLanguage)), "detect_language"));
  }

  /**
   * `SerializableOptions::serialize`: emits the pairs field by field, one
   * loop per list.
   */
  method Serialize(o: Options) returns (ps: seq<Pair>)
    ensures ps == Pairs(o)
  {
    var front := EmitFront(o);
    var back := EmitBack(o);
    ps := front + back;
  }

  method EmitFront(o: Options) returns (ps: seq<Pair>)
    ensures ps == FrontPairs(o)
  {
    ps := IfSome("tier", MapOpt(TierName, o.tier));
    ps := ps + ModelSection(o);
    ps := ps + IfSome("version", o.version);
    ps := ps + IfSome("language", MapOpt(LanguageName, o.language));
    ps := ps + IfSome("punctuate", MapOpt(BoolString, o.punctuate));
    ps := ps + IfSome("profanity_filter", MapOpt(BoolString, o.profanityFilter));
    ps := PushEach(ps, "redact", o.redact, RedactName);
    ps := ps + IfSome("diarize", MapOpt(BoolString, o.diarize));
    ps := ps + IfSome("ner", MapOpt(BoolString, o.ner));
    ps := ps + MultichannelSection(o);
    ps := ps + IfSome("alternatives", MapOpt(UsizeString, o.alternatives));
    ps := ps + IfSome("numerals", MapOpt(BoolString, o.numerals));
  }

  method EmitBack(o: Options) returns (ps: seq<Pair>)
    ensures ps == BackPairs(o)
  {
    MapIdentity(o.search);
    ps := PushEach([], "search", o.search, Identity);
    assert ps == Repeat("search", o.search);
    ps := PushEach(ps, "replace", o.replace, ReplaceText);
    ps := PushEach(ps, "keywords", o.keywords, KeywordText);
    ps := ps + KeywordBoostSection(o);
    ps := ps + [("filler_words", BoolString(o.fillerWords)), ("smart_format", BoolString(o.smartFormat))];
    ps := ps + IfSome("paragraphs", MapOpt(BoolString, o.paragraphs));
    ps := ps + UtterancesSection(o);
    MapIdentity(o.tags);
    ps := PushEach(ps, "tag", o.tags, Identity);
    ps := ps + IfSome("detect_language", MapOpt(BoolString, o.detectLanguage));
  }

  // Where each key comes from: `Values(Pairs(o), k)` is the list of values
  // the request carries for `k`, and each lemma below finds the one section
  // of the serialiser that can emit it.

  lemma ModelSectionSilent(o: Options, k: string)
    requires k != "model"
    ensures Values(ModelSection(o), k) == []
  {
    if !ChannelModels(o) {
      ValuesIfSome("model", MapOpt(ModelName, o.model), k);
    }
  }

  lemma MultichannelSectionSilent(o: Options, k: string)
    requires k != "multichannel"
    ensures Values(MultichannelSection(o), k) == []
  {
  }

  lemma KeywordBoostSectionSilent(o: Options, k: string)
    requires k != "keyword_boost"
    ensures Values(KeywordBoostSection(o), k) == []
  {
  }

  lemma FlagsSectionSilent(o: Options, k: string)
    requires k != "filler_words" && k != "smart_format"
    ensures Values(FlagsSection(o), k) == []
  {
  }

  lemma UtterancesSectionSilent(o: Options, k: string)
    requires k != "utterances" && k != "utt_split"
    ensures Values(UtterancesSection(o), k) == []
  {
    if o.utterances.Some? && o.utterances.value.UtterancesEnabled? {
      var split := o.utterances.value.uttSplit;
      ValuesIfSome("utt_split", split, k);
      ValuesDropRight([("utterances", "true")], IfSome("utt_split", split), k);
    }
  }


  // The values each section emits for its own key.

  lemma ModelSectionValues(o: Options)
    ensures ChannelModels(o) ==>
              Values(ModelSection(o), "model") == [ModelsToString(o.multichannel.value.models.value)]
    ensures !ChannelModels(o) ==>
              Values(ModelSection(o), "model") == if o.model.Some? then [ModelName(o.model.value)] else []
  {
    if !ChannelModels(o) {
      ValuesIfSome("model", MapOpt(ModelName, o.model), "model");
    }
  }

  /** The multichannel value sent for the options, if any. */
  function MultichannelFlag(o: Options): (r: seq<string>)
    ensures r == [] <==> o.multichannel.None?
    ensures r == ["false"] <==> o.multichannel == Some(MultichannelDisabled)
    ensures ChannelModels(o) ==> r == ["true"]
  {
    match o.multichannel
    case None => []
    case Some(MultichannelDisabled) => ["false"]
    case Some(_) => ["true"]
  }

  /** The utterances value sent for the options, if any. */
  function UtterancesFlag(o: Options): (r: seq<string>)
    ensures r == [] <==> o.utterances.None?
    ensures r == ["false"] <==> o.utterances == Some(UtterancesDisabled)
  {
    match o.utterances
    case None => []
    case Some(UtterancesDisabled) => ["false"]
    case Some(_) => ["true"]
  }

  /** The utt_split value sent for the options, if any. */
  function UttSplit(o: Options): (r: seq<string>)
    ensures r != [] ==> UtterancesFlag(o) == ["true"]
  {
    if o.utterances.Some? && o.utterances.value.UtterancesEnabled? && o.utterances.value.uttSplit.Some?
    then [o.utterances.value.uttSplit.value] else []
  }

  lemma UtterancesSectionValues(o: Options)
    ensures Values(UtterancesSection(o), "utterances") == UtterancesFlag(o)
    ensures Values(UtterancesSection(o), "utt_split") == UttSplit(o)
  {
    if o.utterances.Some? && o.utterances.value.UtterancesEnabled? {
      var split := o.utterances.value.uttSplit;
      ValuesIfSome("utt_split", split, "utterances");
      ValuesDropRight([("utterances", "true")], IfSome("utt_split", split), "utterances");
      ValuesIfSome("utt_split", split, "utt_split");
      ValuesDropLeft([("utterances", "true")], IfSome("utt_split", split), "utt_split");
    }
  }

  // What the request carries for each feature.

  /** The tier is sent when set, and it is then the very first pair. */
  lemma TierFirst(o: Options)
    ensures Values(Pairs(o), "tier") == if o.tier.Some? then [TierName(o.tier.value)] else []
    ensures o.tier.Some? ==> Pairs(o)[0] == ("tier", TierName(o.tier.value))
  {
    ProjectTier(o);
    ValuesIfSome("tier", MapOpt(TierName, o.tier), "tier");
  }

  /**
   * Per-channel models take the place of the plain model: the request
   * carries their joined names as its only `model`, and multichannel=true.
   */
  lemma ChannelModelsWin(o: Options)
    requires ChannelModels(o)
    ensures Values(Pairs(o), "model") == [ModelsToString(o.multichannel.value.models.value)]
  {
    ProjectModel(o);
    ModelSectionValues(o);
  }

  /** Without per-channel models, the plain model is sent exactly when it is set. */
  lemma PlainModel(o: Options)
    requires !ChannelModels(o)
    ensures Values(Pairs(o), "model") == if o.model.Some? then [ModelName(o.model.value)] else []
  {
    ProjectModel(o);
    ModelSectionValues(o);
  }

  /** Disabled sends false; Enabled, with or without models, sends true; unset sends nothing. */
  lemma MultichannelValues(o: Options)
    ensures Values(Pairs(o), "multichannel") == MultichannelFlag(o)
  {
    ProjectMultichannel(o);
  }

  /** Each redaction, search term, keyword, replacement and tag is sent once, in the order given. */
  lemma ListValues(o: Options)
    ensures Values(Pairs(o), "redact") == Map(RedactName, o.redact)
    ensures Values(Pairs(o), "search") == o.search
    ensures Values(Pairs(o), "tag") == o.tags
  {
    ProjectRedact(o);
    RepeatValues("redact", Map(RedactName, o.redact), "redact");
    ProjectSearch(o);
    RepeatValues("search", o.search, "search");
    ProjectTag(o);
    RepeatValues("tag", o.tags, "tag");
  }

  lemma TermValues(o: Options)
    ensures Values(Pairs(o), "replace") == Map(ReplaceText, o.replace)
    ensures Values(Pairs(o), "keywords") == Map(KeywordText, o.keywords)
  {
    ProjectReplace(o);
    RepeatValues("replace", Map(ReplaceText, o.replace), "replace");
    ProjectKeywords(o);
    RepeatValues("keywords", Map(KeywordText, o.keywords), "keywords");
  }

  /** keyword_boost=legacy is sent only after `keyword_boost_legacy`. */
  lemma KeywordBoostValues(o: Options)
    ensures Values(Pairs(o), "keyword_boost") == if o.keywordBoostLegacy then ["legacy"] else []
  {
    ProjectKeywordBoost(o);
  }

  /** filler_words and smart_format are always sent, exactly once each. */
  lemma FlagsAlwaysSent(o: Options)
    ensures Values(Pairs(o), "filler_words") == [BoolString(o.fillerWords)]
    ensures Values(Pairs(o), "smart_format") == [BoolString(o.smartFormat)]
  {
    ProjectFillerWords(o);
    ProjectSmartFormat(o);
  }

  /** Disabled sends utterances=false; Enabled sends true, followed by utt_split when a split is given. */
  lemma UtterancesValues(o: Options)
    ensures Values(Pairs(o), "utterances") == UtterancesFlag(o)
    ensures Values(Pairs(o), "utt_split") == UttSplit(o)
  {
    ProjectUtterances(o);
    ProjectUttSplit(o);
    UtterancesSectionValues(o);
  }

  /** detect_language is sent when set, and it is then the very last pair. */
  lemma DetectLanguageLast(o: Options)
    ensures Values(Pairs(o), "detect_language")
         == if o.detectLanguage.Some? then [BoolString(o.detectLanguage.value)] else []
    ensures o.detectLanguage.Some? ==> Pairs(o)[|Pairs(o)| - 1] == ("detect_language", BoolString(o.detectLanguage.value))
  {
    ProjectDetectLanguage(o);
    ValuesIfSome("detect_language", MapOpt(BoolString, o.detectLanguage), "detect_language");
  }

  /** A fresh builder sends only the two flags that are always sent. */
  lemma InitialPairs()
    ensures Pairs(Initial) == [("filler_words", "false"), ("smart_format", "false")]
  {
    assert FrontPairs(Initial) == [];
    assert BackPairs(Initial) == [("filler_words", "false"), ("smart_format", "false")];
  }

  /** `OptionsBuilder`: the options under construction. */
  class OptionsBuilder {
    var options: Options

    /** `OptionsBuilder::new`. */
    constructor()
      ensures options == Initial
    {
      options := Initial;
    }

    /** `model`: sets the model and forgets per-channel models, leaving multichannel on. */
    method SetModel(m: Model)
      modifies this
      ensures options.model == Some(m)
      ensures old(options).multichannel.Some? && old(options).multichannel.value.MultichannelEnabled?
              ==> options.multichannel == Some(MultichannelEnabled(None))
      ensures !(old(options).multichannel.Some? && old(options).multichannel.value.MultichannelEnabled?)
              ==> options.multichannel == old(options).multichannel
      ensures options == old(options).(model := options.model, multichannel := options.multichannel)
    {
      var mc := options.multichannel;
      if mc.Some? && mc.value.MultichannelEnabled? {
        mc := Some(MultichannelEnabled(None));
      }
      options := options.(model := Some(m), multichannel := mc);
    }

    /**
     * `multichannel_with_models`: extends the per-channel models already
     * set, or else turns per-channel models on with exactly these.
     */
    method MultichannelWithModels(models: seq<Model>)
      modifies this
      ensures ChannelModels(old(options)) ==>
                options == old(options).(multichannel := Some(MultichannelEnabled(Some(old(options).multichannel.value.models.value + models))))
      ensures !ChannelModels(old(options)) ==>
                options == old(options).(multichannel := Some(MultichannelEnabled(Some(models))))
    {
      if ChannelModels(options) {
        options := options.(multichannel := Some(MultichannelEnabled(Some(options.multichannel.value.models.value + models))));
      } else {
        options := options.(multichannel := Some(MultichannelEnabled(Some(models))));
      }
    }

    /** `tier`: overwrites one field. */
    method SetTier(tier: Tier)
      modifies this
      ensures options == old(options).(tier := Some(tier))
    {
      options := options.(tier := Some(tier));
    }

    /** `version`: overwrites one field. */
    method SetVersion(version: string)
      modifies this
      ensures options == old(options).(version := Some(version))
    {
      options := options.(version := Some(version));
    }

    /** `language`: overwrites one field. */
    method SetLanguage(language: Language)
      modifies this
      ensures options == old(options).(language := Some(language))
    {
      options := options.(language := Some(language));
    }

    /** `punctuate`: overwrites one field. */
    method SetPunctuate(punctuate: bool)
      modifies this
      ensures options == old(options).(punctuate := Some(punctuate))
    {
      options := options.(punctuate := Some(punctuate));
    }

    /** `profanity_filter`: overwrites one field. */
    method SetProfanityFilter(profanityFilter: bool)
      modifies this
      ensures options == old(options).(profanityFilter := Some(profanityFilter))
    {
      options := options.(profanityFilter := Some(profanityFilter));
    }

    /** `diarize`: overwrites one field. */
    method SetDiarize(diarize: bool)
      modifies this
      ensures options == old(options).(diarize := Some(diarize))
    {
      options := options.(diarize := Some(diarize));
    }

    /** `ner`: overwrites one field. */
    method SetNer(ner: bool)
      modifies this
      ensures options == old(options).(ner := Some(ner))
    {
      options := options.(ner := Some(ner));
    }

    /** `multichannel`: overwrites one field. */
    method SetMultichannel(multichannel: bool)
      modifies this
      ensures options == old(options).(multichannel := Some(if multichannel then MultichannelEnabled(None) else MultichannelDisabled))
    {
      options := options.(multichannel := Some(if multichannel then MultichannelEnabled(None) else MultichannelDisabled));
    }

    /** `alternatives`: overwrites one field. */
    method SetAlternatives(alternatives: usize)
      modifies this
      ensures options == old(options).(alternatives := Some(alternatives))
    {
      options := options.(alternatives := Some(alternatives));
    }

    /** `numerals`: overwrites one field. */
    method SetNumerals(numerals: bool)
      modifies this
      ensures options == old(options).(numerals := Some(numerals))
    {
      options := options.(numerals := Some(numerals));
    }

    /** `keyword_boost_legacy`: overwrites one field. */
    method KeywordBoostLegacy()
      modifies this
      ensures options == old(options).(keywordBoostLegacy := true)
    {
      options := options.(keywordBoostLegacy := true);
    }

    /** `utterances`: overwrites one field. */
    method SetUtterances(utterances: bool)
      modifies this
      ensures options == old(options).(utterances := Some(if utterances then UtterancesEnabled(None) else UtterancesDisabled))
    {
      options := options.(utterances := Some(if utterances then UtterancesEnabled(None) else UtterancesDisabled));
    }

    /** `utterances_with_utt_split`: overwrites one field. */
    method UtterancesWithUttSplit(uttSplit: string)
      modifies this
      ensures options == old(options).(utterances := Some(UtterancesEnabled(Some(uttSplit))))
    {
      options := options.(utterances := Some(UtterancesEnabled(Some(uttSplit))));
    }

    /** `detect_language`: overwrites one field. */
    method SetDetectLanguage(detectLanguage: bool)
      modifies this
      ensures options == old(options).(detectLanguage := Some(detectLanguage))
    {
      options := options.(detectLanguage := Some(detectLanguage));
    }

    /** `smart_format`: overwrites one field. */
    method SetSmartFormat(smartFormat: bool)
      modifies this
      ensures options == old(options).(smartFormat := smartFormat)
    {
      options := options.(smartFormat := smartFormat);
    }

    /** `filler_words`: overwrites one field. */
    method SetFillerWords(fillerWords: bool)
      modifies this
      ensures options == old(options).(fillerWords := fillerWords)
    {
      options := options.(fillerWords := fillerWords);
    }

    /** `paragraphs`: overwrites one field. */
    method SetParagraphs(paragraphs: bool)
      modifies this
      ensures options == old(options).(paragraphs := Some(paragraphs))
    {
      options := options.(paragraphs := Some(paragraphs));
    }

    /** `redact`: appends to the list already set. */
    method AddRedact(redact: seq<Redact>)
      modifies this
      ensures options == old(options).(redact := old(options).redact + redact)
    {
      options := options.(redact := options.redact + redact);
    }

    /** `search`: appends to the list already set. */
    method AddSearch(search: seq<string>)
      modifies this
      ensures options == old(options).(search := old(options).search + search)
    {
      options := options.(search := options.search + search);
    }

    /** `replace`: appends to the list already set. */
    method AddReplace(replace: seq<Replace>)
      modifies this
      ensures options == old(options).(replace := old(options).replace + replace)
    {
      options := options.(replace := options.replace + replace);
    }

    /** `keywords`: appends to the list already set. */
    method AddKeywords(keywords: seq<string>)
      modifies this
      ensures options == old(options).(keywords := old(options).keywords + PlainKeywords(keywords))
    {
      options := options.(keywords := options.keywords + PlainKeywords(keywords));
    }

    /** `keywords_with_intensifiers`: appends to the list already set. */
    method KeywordsWithIntensifiers(keywords: seq<Keyword>)
      modifies this
      ensures options == old(options).(keywords := old(options).keywords + keywords)
    {
      options := options.(keywords := options.keywords + keywords);
    }

    /** `tag`: appends to the list already set. */
    method AddTag(tag: seq<string>)
      modifies this
      ensures options == old(options).(tags := old(options).tags + tag)
    {
      options := options.(tags := options.tags + tag);
    }

    /** `build`. */
    method Build() returns (o: Options)
      ensures o == options
    {
      o := options;
    }
  }

  // The builder's documented behaviour, as methods that build fresh options.

  /** Per-channel models followed by `model` equal multichannel(true) followed by `model`. */
  method ModelResetsChannelModels(ms: seq<Model>, m: Model) returns (o1: Options, o2: Options)
    ensures o1 == o2
    ensures o1.multichannel == Some(MultichannelEnabled(None)) && o1.model == Some(m)
  {
    var b1 := new OptionsBuilder();
    b1.MultichannelWithModels(ms);
    b1.SetModel(m);
    o1 := b1.Build();
    var b2 := new OptionsBuilder();
    b2.SetMultichannel(true);
    b2.SetModel(m);
    o2 := b2.Build();
  }

  /** `multichannel(true)` after `multichannel_with_models` forgets the models. */
  method MultichannelDiscardsModels(m: Model, ms: seq<Model>) returns (o1: Options, o2: Options)
    ensures o1 == o2
  {
    var b1 := new OptionsBuilder();
    b1.SetModel(m);
    b1.MultichannelWithModels(ms);
    b1.SetMultichannel(true);
    o1 := b1.Build();
    var b2 := new OptionsBuilder();
    b2.SetModel(m);
    b2.SetMultichannel(true);
    o2 := b2.Build();
  }

  /** Two `multichannel_with_models` calls equal one with both lists. */
  method ChannelModelsAppend(ms1: seq<Model>, ms2: seq<Model>) returns (o1: Options, o2: Options)
    ensures o1 == o2
    ensures o1.multichannel == Some(MultichannelEnabled(Some(ms1 + ms2)))
  {
    var b1 := new OptionsBuilder();
    b1.MultichannelWithModels(ms1);
    b1.MultichannelWithModels(ms2);
    o1 := b1.Build();
    var b2 := new OptionsBuilder();
    b2.MultichannelWithModels(ms1 + ms2);
    o2 := b2.Build();
  }

  /** Two `keywords` calls equal one with both lists. */
  method KeywordsAppend(xs: seq<string>, ys: seq<string>) returns (o1: Options, o2: Options)
    ensures o1 == o2
    ensures o1 == Initial.(keywords := PlainKeywords(xs + ys))
  {
    var b1 := new OptionsBuilder();
    b1.AddKeywords(xs);
    b1.AddKeywords(ys);
    o1 := b1.Build();
    var b2 := new OptionsBuilder();
    b2.AddKeywords(xs + ys);
    o2 := b2.Build();
    PlainKeywordsAppend(xs, ys);
    EmptyLeft(PlainKeywords(xs));
    EmptyLeft(PlainKeywords(xs + ys));
  }

  /** Two `redact` calls equal one with both lists. */
  method RedactAppend(xs: seq<Redact>, ys: seq<Redact>) returns (o1: Options, o2: Options)
    ensures o1 == o2
    ensures o1 == Initial.(redact := xs + ys)
  {
    var b1 := new OptionsBuilder();
    b1.AddRedact(xs);
    b1.AddRedact(ys);
    o1 := b1.Build();
    var b2 := new OptionsBuilder();
    b2.AddRedact(xs + ys);
    o2 := b2.Build();
  }

  /** Two `search` calls equal one with both lists. */
  method SearchAppend(xs: seq<string>, ys: seq<string>) returns (o1: Options, o2: Options)
    ensures o1 == o2
    ensures o1 == Initial.(search := xs + ys)
  {
    var b1 := new OptionsBuilder();
    b1.AddSearch(xs);
    b1.AddSearch(ys);
    o1 := b1.Build();
    var b2 := new OptionsBuilder();
    b2.AddSearch(xs + ys);
    o2 := b2.Build();
  }

  /** Two `replace` calls equal one with both lists. */
  method ReplaceAppend(xs: seq<Replace>, ys: seq<Replace>) returns (o1: Options, o2: Options)
    ensures o1 == o2
    ensures o1 == Initial.(replace := xs + ys)
  {
    var b1 := new OptionsBuilder();
    b1.AddReplace(xs);
    b1.AddReplace(ys);
    o1 := b1.Build();
    var b2 := new OptionsBuilder();
    b2.AddReplace(xs + ys);
    o2 := b2.Build();
  }

  /** Two `keywords_with_intensifiers` calls equal one with both lists. */
  method KeywordsWithIntensifiersAppend(xs: seq<Keyword>, ys: seq<Keyword>) returns (o1: Options, o2: Options)
    ensures o1 == o2
    ensures o1 == Initial.(keywords := xs + ys)
  {
    var b1 := new OptionsBuilder();
    b1.KeywordsWithIntensifiers(xs);
    b1.KeywordsWithIntensifiers(ys);
    o1 := b1.Build();
    var b2 := new OptionsBuilder();
    b2.KeywordsWithIntensifiers(xs + ys);
    o2 := b2.Build();
  }

  /** Two `tag` calls equal one with both lists. */
  method TagAppend(xs: seq<string>, ys: seq<string>) returns (o1: Options, o2: Options)
    ensures o1 == o2
    ensures o1 == Initial.(tags := xs + ys)
  {
    var b1 := new OptionsBuilder();
    b1.AddTag(xs);
    b1.AddTag(ys);
    o1 := b1.Build();
    var b2 := new OptionsBuilder();
    b2.AddTag(xs + ys);
    o2 := b2.Build();
  }
}
