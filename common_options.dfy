// The request options of the transcription API (src/common/options.rs): the
// option record, the builder that sets or extends its fields, and the
// serialiser that turns it into the ordered query pairs of a request.
module CommonOptions {
  import opened Wrappers
  import opened Query
  import opened CommonNames

  /** A find-and-replace term; a missing replacement removes the term. */
  datatype Replace = Replace(find: string, replace: Option<string>)

  /** A keyword to boost; the intensifier is kept as the text it prints as. */
  datatype Keyword = Keyword(keyword: string, intensifier: Option<string>)

  /** Utterance segmentation; the split is kept as the text it prints as. */
  datatype Utterances = UtterancesEnabled | UtterancesDisabled | CustomSplit(uttSplit: Option<string>)

  /** Multichannel processing, optionally with one model per channel. */
  datatype Multichannel = MultichannelEnabled | MultichannelDisabled | ModelPerChannel(models: Option<seq<Model>>)

  /**
   * The option record. `extra` stands for the source's hash map; the model
   * keeps its entries in the order the serialiser visits them.
   */
  datatype Options = Options(
    model: Option<Model>,
    version: Option<string>,
    language: Option<Language>,
    punctuate: Option<bool>,
    profanityFilter: Option<bool>,
    redact: seq<Redact>,
    diarize: Option<bool>,
    diarizeVersion: Option<string>,
    ner: Option<bool>,
    multichannel: Option<Multichannel>,
    alternatives: Option<usize>,
    numerals: Option<bool>,
    search: seq<string>,
    replace: seq<Replace>,
    keywords: seq<Keyword>,
    keywordBoostLegacy: Option<bool>,
    utterances: Option<Utterances>,
    tags: seq<string>,
    detectLanguage: Option<DetectLanguage>,
    queryParams: seq<Pair>,
    encoding: Option<Encoding>,
    smartFormat: Option<bool>,
    fillerWords: Option<bool>,
    paragraphs: Option<bool>,
    detectEntities: Option<bool>,
    intents: Option<bool>,
    customIntentMode: Option<CustomMode>,
    customIntents: seq<string>,
    sentiment: Option<bool>,
    topics: Option<bool>,
    customTopicMode: Option<CustomMode>,
    customTopics: seq<string>,
    summarize: Option<bool>,
    dictation: Option<bool>,
    measurements: Option<bool>,
    extra: Option<seq<Pair>>,
    callbackMethod: Option<CallbackMethod>
  )

  /** The options `OptionsBuilder::new` starts from: every field unset, every list empty. */
  const Unset: Options := Options(
    model := None,
    version := None,
    language := None,
    punctuate := None,
    profanityFilter := None,
    redact := [],
    diarize := None,
    diarizeVersion := None,
    ner := None,
    multichannel := None,
    alternatives := None,
    numerals := None,
    search := [],
    replace := [],
    keywords := [],
    keywordBoostLegacy := None,
    utterances := None,
    tags := [],
    detectLanguage := None,
    queryParams := [],
    encoding := None,
    smartFormat := None,
    fillerWords := None,
    paragraphs := None,
    detectEntities := None,
    intents := None,
    customIntentMode := None,
    customIntents := [],
    sentiment := None,
    topics := None,
    customTopicMode := None,
    customTopics := [],
    summarize := None,
    dictation := None,
    measurements := None,
    extra := None,
    callbackMethod := None
  )


  /** `format!("{}:{}", find, replace)`, or the bare term when nothing replaces it. */
  function ReplaceText(r: Replace): string
  {
    if r.replace.Some? then r.find + ":" + r.replace.value else r.find
  }

  /** The term and its replacement can be read back off the value when the term holds no ':'. */
  lemma ReplaceTextSplits(r: Replace)
    requires ':' !in r.find
    ensures SplitOnce(ReplaceText(r), ':') == (r.find, if r.replace.Some? then r.replace.value else "")
  {
    if r.replace.Some? {
      SplitOnceJoin(r.find, ':', r.replace.value);
    }
  }

  /** `format!("{}:{}", keyword, intensifier)`, or the bare keyword. */
  function KeywordText(k: Keyword): string
  {
    if k.intensifier.Some? then k.keyword + ":" + k.intensifier.value else k.keyword
  }

  /** The keyword and its intensifier can be read back off the value when the keyword holds no ':'. */
  lemma KeywordTextSplits(k: Keyword)
    requires ':' !in k.keyword
    ensures SplitOnce(KeywordText(k), ':') == (k.keyword, if k.intensifier.Some? then k.intensifier.value else "")
  {
    if k.intensifier.Some? {
      SplitOnceJoin(k.keyword, ':', k.intensifier.value);
    }
  }

  /** An `extra` entry, `format!("{}:{}", key, value)`. */
  function ExtraText(p: Pair): string
  {
    p.0 + ":" + p.1
  }

  lemma ExtraTextSplits(p: Pair)
    requires ':' !in p.0
    ensures SplitOnce(ExtraText(p), ':') == p
  {
    SplitOnceJoin(p.0, ':', p.1);
  }

  function Second(p: Pair): string
  {
    p.1
  }

  /** `keywords`: the plain keywords, each without an intensifier. */
  function PlainKeywords(ks: seq<string>): (r: seq<Keyword>)
    ensures |r| == |ks|
    ensures forall i :: 0 <= i < |ks| ==> r[i] == Keyword(ks[i], None)
  {
    if ks == [] then [] else [Keyword(ks[0], None)] + PlainKeywords(ks[1..])
  }

  /** True when per-channel models are set; they then take the place of `model`. */
  predicate ChannelModels(o: Options)
  {
    o.multichannel.Some? && o.multichannel.value.ModelPerChannel? && o.multichannel.value.models.Some?
  }

  /** The first pair: the joined per-channel models, or else the plain model if set. */
  function ModelSection(o: Options): seq<Pair>
  {
    if ChannelModels(o) then [("model", ModelsToString(o.multichannel.value.models.value))]
    else IfSome("model", MapOpt(ModelName, o.model))
  }

  function DetectLanguageSection(o: Options): seq<Pair>
  {
    if o.detectLanguage.Some?
    then Repeat("detect_language", Map(Second, DetectLanguagePairs(o.detectLanguage.value)))
    else []
  }

  /** Disabled prints false; Enabled and every per-channel form print true. */
  function MultichannelSection(o: Options): seq<Pair>
  {
    match o.multichannel
    case None => []
    case Some(MultichannelDisabled) => [("multichannel", "false")]
    case Some(_) => [("multichannel", "true")]
  }

  function KeywordBoostSection(o: Options): seq<Pair>
  {
    if o.keywordBoostLegacy == Some(true) then [("keyword_boost", "legacy")] else []
  }

  function UtterancesSection(o: Options): seq<Pair>
  {
    match o.utterances
    case None => []
    case Some(UtterancesDisabled) => [("utterances", "false")]
    case Some(UtterancesEnabled) => [("utterances", "true")]
    case Some(CustomSplit(split)) => [("utterances", "true")] + IfSome("utt_split", split)
  }

  function SummarizeSection(o: Options): seq<Pair>
  {
    if o.summarize == Some(true) then [("summarize", "v2")] else []
  }

  function ExtraSection(o: Options): seq<Pair>
  {
    if o.extra.Some? then Repeat("extra", Map(ExtraText, o.extra.value)) else []
  }

  /** The query pairs of the options, in the order the serialiser emits them. */
  function Pairs(o: Options): seq<Pair>
  {
    HeadPairs(o) + ListPairs(o) + o.queryParams + TailPairs(o)
  }

  /** From `model` to `numerals`. */
  function HeadPairs(o: Options): seq<Pair>
  {
    ModelSection(o)
    + IfSome("version", o.version)
    + IfSome("language", MapOpt(LanguageName, o.language))
    + DetectLanguageSection(o)
    + IfSome("punctuate", MapOpt(BoolString, o.punctuate))
    + IfSome("profanity_filter", MapOpt(BoolString, o.profanityFilter))
    + Repeat("redact", Map(RedactName, o.redact))
    + IfSome("diarize", MapOpt(BoolString, o.diarize))
    + IfSome("diarize_version", o.diarizeVersion)
    + IfSome("ner", MapOpt(BoolString, o.ner))
    + MultichannelSection(o)
    + IfSome("alternatives", MapOpt(UsizeString, o.alternatives))
    + IfSome("numerals", MapOpt(BoolString, o.numerals))
  }

  /** From `search` to `tag`. */
  function ListPairs(o: Options): seq<Pair>
  {
    Repeat("search", o.search)
    + Repeat("replace", Map(ReplaceText, o.replace))
    + Repeat("keywords", Map(KeywordText, o.keywords))
    + KeywordBoostSection(o)
    + UtterancesSection(o)
    + Repeat("tag", o.tags)
  }

  /** From `encoding` to `callback_method`, after the raw query parameters. */
  function TailPairs(o: Options): seq<Pair>
  {
    IfSome("encoding", MapOpt(EncodingName, o.encoding))
    + IfSome("smart_format", MapOpt(BoolString, o.smartFormat))
    + IfSome("filler_words", MapOpt(BoolString, o.fillerWords))
    + IfSome("paragraphs", MapOpt(BoolString, o.paragraphs))
    + IfSome("detect_entities", MapOpt(BoolString, o.detectEntities))
    + IfSome("intents", MapOpt(BoolString, o.intents))
    + IfSome("custom_intent_mode", MapOpt(CustomModeName, o.customIntentMode))
    + Repeat("custom_intent", o.customIntents)
    + IfSome("sentiment", MapOpt(BoolString, o.sentiment))
    + IfSome("topics", MapOpt(BoolString, o.topics))
    + IfSome("custom_topic_mode", MapOpt(CustomModeName, o.customTopicMode))
    + Repeat("custom_topic", o.customTopics)
    + SummarizeSection(o)
    + IfSome("dictation", MapOpt(BoolString, o.dictation))
    + IfSome("measurements", MapOpt(BoolString, o.measurements))
    + ExtraSection(o)
    + IfSome("callback_method", MapOpt(CallbackMethodName, o.callbackMethod))
  }

  /**
   * `SerializableOptions::serialize`: emits the pairs field by field, one
   * loop per list.
   */
  method Serialize(o: Options) returns (ps: seq<Pair>)
    ensures ps == Pairs(o)
  {
    var head := EmitHead(o);
    var lists := EmitLists(o);
    var tail := EmitTail(o);
    ps := PushPairs(head + lists, o.queryParams);
    ps := ps + tail;
  }

  method EmitHead(o: Options) returns (ps: seq<Pair>)
    ensures ps == HeadPairs(o)
  {
    ps := ModelSection(o);
    ps := ps + IfSome("version", o.version);
    ps := ps + IfSome("language", MapOpt(LanguageName, o.language));
    ghost var before := ps;
    if o.detectLanguage.Some? {
      ps := PushEach(ps, "detect_language", DetectLanguagePairs(o.detectLanguage.value), Second);
    }
    assert ps == before + DetectLanguageSection(o);
    ps := ps + IfSome("punctuate", MapOpt(BoolString, o.punctuate));
    ps := ps + IfSome("profanity_filter", MapOpt(BoolString, o.profanityFilter));
    ps := PushEach(ps, "redact", o.redact, RedactName);
    ps := ps + IfSome("diarize", MapOpt(BoolString, o.diarize));
    ps := ps + IfSome("diarize_version", o.diarizeVersion);
    ps := ps + IfSome("ner", MapOpt(BoolString, o.ner));
    ps := ps + MultichannelSection(o);
    ps := ps + IfSome("alternatives", MapOpt(UsizeString, o.alternatives));
    ps := ps + IfSome("numerals", MapOpt(BoolString, o.numerals));
  }

  method EmitLists(o: Options) returns (ps: seq<Pair>)
    ensures ps == ListPairs(o)
  {
    MapIdentity(o.search);
    ps := PushEach([], "search", o.search, Identity);
    assert ps == Repeat("search", o.search);
    ps := PushEach(ps, "replace", o.replace, ReplaceText);
    ps := PushEach(ps, "keywords", o.keywords, KeywordText);
    ps := ps + KeywordBoostSection(o);
    ps := ps + UtterancesSection(o);
    MapIdentity(o.tags);
    ps := PushEach(ps, "tag", o.tags, Identity);
  }

  method EmitTail(o: Options) returns (ps: seq<Pair>)
    ensures ps == TailPairs(o)
  {
    ps := IfSome("encoding", MapOpt(EncodingName, o.encoding));
    ps := ps + IfSome("smart_format", MapOpt(BoolString, o.smartFormat));
    ps := ps + IfSome("filler_words", MapOpt(BoolString, o.fillerWords));
    ps := ps + IfSome("paragraphs", MapOpt(BoolString, o.paragraphs));
    ps := ps + IfSome("detect_entities", MapOpt(BoolString, o.detectEntities));
    ps := ps + IfSome("intents", MapOpt(BoolString, o.intents));
    ps := ps + IfSome("custom_intent_mode", MapOpt(CustomModeName, o.customIntentMode));
    MapIdentity(o.customIntents);
    ps := PushEach(ps, "custom_intent", o.customIntents, Identity);
    ps := ps + IfSome("sentiment", MapOpt(BoolString, o.sentiment));
    ps := ps + IfSome("topics", MapOpt(BoolString, o.topics));
    ps := ps + IfSome("custom_topic_mode", MapOpt(CustomModeName, o.customTopicMode));
    MapIdentity(o.customTopics);
    ps := PushEach(ps, "custom_topic", o.customTopics, Identity);
    ps := ps + SummarizeSection(o);
    ps := ps + IfSome("dictation", MapOpt(BoolString, o.dictation));
    ps := ps + IfSome("measurements", MapOpt(BoolString, o.measurements));
    ghost var before := ps;
    if o.extra.Some? {
      ps := PushEach(ps, "extra", o.extra.value, ExtraText);
    }
    assert ps == before + ExtraSection(o);
    ps := ps + IfSome("callback_method", MapOpt(CallbackMethodName, o.callbackMethod));
  }

  /** `Options::urlencoded`: the pairs written as a query string. */
  function UrlencodedOptions(o: Options): string
  {
    Urlencoded(Pairs(o))
  }

  // Where each key comes from. `Values(Pairs(o), k)` is the list of values
  // the request carries for `k`; the lemmas below locate, for each key, the
  // one section of the serialiser that can emit it, next to the raw query
  // parameters that may repeat any key.

  lemma PairsValues(o: Options, k: string)
    ensures Values(Pairs(o), k)
         == Values(HeadPairs(o), k) + Values(ListPairs(o), k) + Values(o.queryParams, k) + Values(TailPairs(o), k)
  {
    ValuesAppend(HeadPairs(o) + ListPairs(o) + o.queryParams, TailPairs(o), k);
    ValuesAppend(HeadPairs(o) + ListPairs(o), o.queryParams, k);
    ValuesAppend(HeadPairs(o), ListPairs(o), k);
  }

  lemma ModelSectionSilent(o: Options, k: string)
    requires k != "model"
    ensures Values(ModelSection(o), k) == []
  {
    if !ChannelModels(o) {
      ValuesIfSome("model", MapOpt(ModelName, o.model), k);
    }
  }

  lemma DetectLanguageSectionSilent(o: Options, k: string)
    requires k != "detect_language"
    ensures Values(DetectLanguageSection(o), k) == []
  {
    if o.detectLanguage.Some? {
      RepeatValues("detect_language", Map(Second, DetectLanguagePairs(o.detectLanguage.value)), k);
    }
  }

  lemma MultichannelSectionSilent(o: Options, k: string)
    requires k != "multichannel"
    ensures Values(MultichannelSection(o), k) == []
  {
  }

  lemma KeywordBoostSectionSilent(o: Options, k: string)
    requires k != "keyword_boost"
    ensures Values(KeywordBoostSection(o), k) == []
  {
  }

  lemma UtterancesSectionSilent(o: Options, k: string)
    requires k != "utterances" && k != "utt_split"
    ensures Values(UtterancesSection(o), k) == []
  {
    if o.utterances.Some? && o.utterances.value.CustomSplit? {
      ValuesIfSome("utt_split", o.utterances.value.uttSplit, k);
      ValuesDropRight([("utterances", "true")], IfSome("utt_split", o.utterances.value.uttSplit), k);
    }
  }

  lemma SummarizeSectionSilent(o: Options, k: string)
    requires k != "summarize"
    ensures Values(SummarizeSection(o), k) == []
  {
  }

  lemma ExtraSectionSilent(o: Options, k: string)
    requires k != "extra"
    ensures Values(ExtraSection(o), k) == []
  {
    if o.extra.Some? {
      RepeatValues("extra", Map(ExtraText, o.extra.value), k);
    }
  }


  lemma SpliceHead(h: seq<string>, l: seq<string>, q: seq<string>, t: seq<string>, m: seq<string>)
    requires h == m && l == [] && t == []
    ensures h + l + q + t == m + q
  {
  }

  lemma SpliceList(h: seq<string>, l: seq<string>, q: seq<string>, t: seq<string>, m: seq<string>)
    requires h == [] && l == m && t == []
    ensures h + l + q + t == m + q
  {
  }

  lemma SpliceTail(h: seq<string>, l: seq<string>, q: seq<string>, t: seq<string>, m: seq<string>)
    requires h == [] && l == [] && t == m
    ensures h + l + q + t == q + m
  {
  }

  /** None of the keys of this group is `k`. */
  lemma HeadSilent(o: Options, k: string)
    requires k != "model" && k != "version" && k != "language" && k != "detect_language" && k != "punctuate" && k != "profanity_filter" && k != "redact" && k != "diarize" && k != "diarize_version" && k != "ner" && k != "multichannel" && k != "alternatives" && k != "numerals"
    ensures Values(HeadPairs(o), k) == []
  {
    var p := ModelSection(o);
    ModelSectionSilent(o, k);
    ValuesIfSome("version", o.version, k);
    ValuesDropRight(p, IfSome("version", o.version), k);
    p := p + IfSome("version", o.version);
    ValuesIfSome("language", MapOpt(LanguageName, o.language), k);
    ValuesDropRight(p, IfSome("language", MapOpt(LanguageName, o.language)), k);
    p := p + IfSome("language", MapOpt(LanguageName, o.language));
    DetectLanguageSectionSilent(o, k);
    ValuesDropRight(p, DetectLanguageSection(o), k);
    p := p + DetectLanguageSection(o);
    ValuesIfSome("punctuate", MapOpt(BoolString, o.punctuate), k);
    ValuesDropRight(p, IfSome("punctuate", MapOpt(BoolString, o.punctuate)), k);
    p := p + IfSome("punctuate", MapOpt(BoolString, o.punctuate));
    ValuesIfSome("profanity_filter", MapOpt(BoolString, o.profanityFilter), k);
    ValuesDropRight(p, IfSome("profanity_filter", MapOpt(BoolString, o.profanityFilter)), k);
    p := p + IfSome("profanity_filter", MapOpt(BoolString, o.profanityFilter));
    RepeatValues("redact", Map(RedactName, o.redact), k);
    ValuesDropRight(p, Repeat("redact", Map(RedactName, o.redact)), k);
    p := p + Repeat("redact", Map(RedactName, o.redact));
    ValuesIfSome("diarize", MapOpt(BoolString, o.diarize), k);
    ValuesDropRight(p, IfSome("diarize", MapOpt(BoolString, o.diarize)), k);
    p := p + IfSome("diarize", MapOpt(BoolString, o.diarize));
    ValuesIfSome("diarize_version", o.diarizeVersion, k);
    ValuesDropRight(p, IfSome("diarize_version", o.diarizeVersion), k);
    p := p + IfSome("diarize_version", o.diarizeVersion);
    ValuesIfSome("ner", MapOpt(BoolString, o.ner), k);
    ValuesDropRight(p, IfSome("ner", MapOpt(BoolString, o.ner)), k);
    p := p + IfSome("ner", MapOpt(BoolString, o.ner));
    MultichannelSectionSilent(o, k);
    ValuesDropRight(p, MultichannelSection(o), k);
    p := p + MultichannelSection(o);
    ValuesIfSome("alternatives", MapOpt(UsizeString, o.alternatives), k);
    ValuesDropRight(p, IfSome("alternatives", MapOpt(UsizeString, o.alternatives)), k);
    p := p + IfSome("alternatives", MapOpt(UsizeString, o.alternatives));
    ValuesIfSome("numerals", MapOpt(BoolString, o.numerals), k);
    ValuesDropRight(p, IfSome("numerals", MapOpt(BoolString, o.numerals)), k);
    p := p + IfSome("numerals", MapOpt(BoolString, o.numerals));
  }

  /** None of the keys of this group is `k`. */
  lemma ListSilent(o: Options, k: string)
    requires k != "search" && k != "replace" && k != "keywords" && k != "keyword_boost" && k != "utterances" && k != "utt_split" && k != "tag"
    ensures Values(ListPairs(o), k) == []
  {
    var p := Repeat("search", o.search);
    RepeatValues("search", o.search, k);
    RepeatValues("replace", Map(ReplaceText, o.replace), k);
    ValuesDropRight(p, Repeat("replace", Map(ReplaceText, o.replace)), k);
    p := p + Repeat("replace", Map(ReplaceText, o.replace));
    RepeatValues("keywords", Map(KeywordText, o.keywords), k);
    ValuesDropRight(p, Repeat("keywords", Map(KeywordText, o.keywords)), k);
    p := p + Repeat("keywords", Map(KeywordText, o.keywords));
    KeywordBoostSectionSilent(o, k);
    ValuesDropRight(p, KeywordBoostSection(o), k);
    p := p + KeywordBoostSection(o);
    UtterancesSectionSilent(o, k);
    ValuesDropRight(p, UtterancesSection(o), k);
    p := p + UtterancesSection(o);
    RepeatValues("tag", o.tags, k);
    ValuesDropRight(p, Repeat("tag", o.tags), k);
    p := p + Repeat("tag", o.tags);
  }

  /** None of the keys of this group is `k`. */
  lemma TailSilent(o: Options, k: string)
    requires k != "encoding" && k != "smart_format" && k != "filler_words" && k != "paragraphs" && k != "detect_entities" && k != "intents" && k != "custom_intent_mode" && k != "custom_intent" && k != "sentiment" && k != "topics" && k != "custom_topic_mode" && k != "custom_topic" && k != "summarize" && k != "dictation" && k != "measurements" && k != "extra" && k != "callback_method"
    ensures Values(TailPairs(o), k) == []
  {
    var p := IfSome("encoding", MapOpt(EncodingName, o.encoding));
    ValuesIfSome("encoding", MapOpt(EncodingName, o.encoding), k);
    ValuesIfSome("smart_format", MapOpt(BoolString, o.smartFormat), k);
    ValuesDropRight(p, IfSome("smart_format", MapOpt(BoolString, o.smartFormat)), k);
    p := p + IfSome("smart_format", MapOpt(BoolString, o.smartFormat));
    ValuesIfSome("filler_words", MapOpt(BoolString, o.fillerWords), k);
    ValuesDropRight(p, IfSome("filler_words", MapOpt(BoolString, o.fillerWords)), k);
    p := p + IfSome("filler_words", MapOpt(BoolString, o.fillerWords));
    ValuesIfSome("paragraphs", MapOpt(BoolString, o.paragraphs), k);
    ValuesDropRight(p, IfSome("paragraphs", MapOpt(BoolString, o.paragraphs)), k);
    p := p + IfSome("paragraphs", MapOpt(BoolString, o.paragraphs));
    ValuesIfSome("detect_entities", MapOpt(BoolString, o.detectEntities), k);
    ValuesDropRight(p, IfSome("detect_entities", MapOpt(BoolString, o.detectEntities)), k);
    p := p + IfSome("detect_entities", MapOpt(BoolString, o.detectEntities));
    ValuesIfSome("intents", MapOpt(BoolString, o.intents), k);
    ValuesDropRight(p, IfSome("intents", MapOpt(BoolString, o.intents)), k);
    p := p + IfSome("intents", MapOpt(BoolString, o.intents));
    ValuesIfSome("custom_intent_mode", MapOpt(CustomModeName, o.customIntentMode), k);
    ValuesDropRight(p, IfSome("custom_intent_mode", MapOpt(CustomModeName, o.customIntentMode)), k);
    p := p + IfSome("custom_intent_mode", MapOpt(CustomModeName, o.customIntentMode));
    RepeatValues("custom_intent", o.customIntents, k);
    ValuesDropRight(p, Repeat("custom_intent", o.customIntents), k);
    p := p + Repeat("custom_intent", o.customIntents);
    ValuesIfSome("sentiment", MapOpt(BoolString, o.sentiment), k);
    ValuesDropRight(p, IfSome("sentiment", MapOpt(BoolString, o.sentiment)), k);
    p := p + IfSome("sentiment", MapOpt(BoolString, o.sentiment));
    ValuesIfSome("topics", MapOpt(BoolString, o.topics), k);
    ValuesDropRight(p, IfSome("topics", MapOpt(BoolString, o.topics)), k);
    p := p + IfSome("topics", MapOpt(BoolString, o.topics));
    ValuesIfSome("custom_topic_mode", MapOpt(CustomModeName, o.customTopicMode), k);
    ValuesDropRight(p, IfSome("custom_topic_mode", MapOpt(CustomModeName, o.customTopicMode)), k);
    p := p + IfSome("custom_topic_mode", MapOpt(CustomModeName, o.customTopicMode));
    RepeatValues("custom_topic", o.customTopics, k);
    ValuesDropRight(p, Repeat("custom_topic", o.customTopics), k);
    p := p + Repeat("custom_topic", o.customTopics);
    SummarizeSectionSilent(o, k);
    ValuesDropRight(p, SummarizeSection(o), k);
    p := p + SummarizeSection(o);
    ValuesIfSome("dictation", MapOpt(BoolString, o.dictation), k);
    ValuesDropRight(p, IfSome("dictation", MapOpt(BoolString, o.dictation)), k);
    p := p + IfSome("dictation", MapOpt(BoolString, o.dictation));
    ValuesIfSome("measurements", MapOpt(BoolString, o.measurements), k);
    ValuesDropRight(p, IfSome("measurements", MapOpt(BoolString, o.measurements)), k);
    p := p + IfSome("measurements", MapOpt(BoolString, o.measurements));
    ExtraSectionSilent(o, k);
    ValuesDropRight(p, ExtraSection(o), k);
    p := p + ExtraSection(o);
    ValuesIfSome("callback_method", MapOpt(CallbackMethodName, o.callbackMethod), k);
    ValuesDropRight(p, IfSome("callback_method", MapOpt(CallbackMethodName, o.callbackMethod)), k);
    p := p + IfSome("callback_method", MapOpt(CallbackMethodName, o.callbackMethod));
  }

  lemma HeadValuesModel(o: Options)
    ensures Values(HeadPairs(o), "model") == Values(ModelSection(o), "model")
  {
    var p := ModelSection(o);
    ValuesIfSome("version", o.version, "model");
    ValuesDropRight(p, IfSome("version", o.version), "model");
    p := p + IfSome("version", o.version);
    ValuesIfSome("language", MapOpt(LanguageName, o.language), "model");
    ValuesDropRight(p, IfSome("language", MapOpt(LanguageName, o.language)), "model");
    p := p + IfSome("language", MapOpt(LanguageName, o.language));
    DetectLanguageSectionSilent(o, "model");
    ValuesDropRight(p, DetectLanguageSection(o), "model");
    p := p + DetectLanguageSection(o);
    ValuesIfSome("punctuate", MapOpt(BoolString, o.punctuate), "model");
    ValuesDropRight(p, IfSome("punctuate", MapOpt(BoolString, o.punctuate)), "model");
    p := p + IfSome("punctuate", MapOpt(BoolString, o.punctuate));
    ValuesIfSome("profanity_filter", MapOpt(BoolString, o.profanityFilter), "model");
    ValuesDropRight(p, IfSome("profanity_filter", MapOpt(BoolString, o.profanityFilter)), "model");
    p := p + IfSome("profanity_filter", MapOpt(BoolString, o.profanityFilter));
    RepeatValues("redact", Map(RedactName, o.redact), "model");
    ValuesDropRight(p, Repeat("redact", Map(RedactName, o.redact)), "model");
    p := p + Repeat("redact", Map(RedactName, o.redact));
    ValuesIfSome("diarize", MapOpt(BoolString, o.diarize), "model");
    ValuesDropRight(p, IfSome("diarize", MapOpt(BoolString, o.diarize)), "model");
    p := p + IfSome("diarize", MapOpt(BoolString, o.diarize));
    ValuesIfSome("diarize_version", o.diarizeVersion, "model");
    ValuesDropRight(p, IfSome("diarize_version", o.diarizeVersion), "model");
    p := p + IfSome("diarize_version", o.diarizeVersion);
    ValuesIfSome("ner", MapOpt(BoolString, o.ner), "model");
    ValuesDropRight(p, IfSome("ner", MapOpt(BoolString, o.ner)), "model");
    p := p + IfSome("ner", MapOpt(BoolString, o.ner));
    MultichannelSectionSilent(o, "model");
    ValuesDropRight(p, MultichannelSection(o), "model");
    p := p + MultichannelSection(o);
    ValuesIfSome("alternatives", MapOpt(UsizeString, o.alternatives), "model");
    ValuesDropRight(p, IfSome("alternatives", MapOpt(UsizeString, o.alternatives)), "model");
    p := p + IfSome("alternatives", MapOpt(UsizeString, o.alternatives));
    ValuesIfSome("numerals", MapOpt(BoolString, o.numerals), "model");
    ValuesDropRight(p, IfSome("numerals", MapOpt(BoolString, o.numerals)), "model");
    p := p + IfSome("numerals", MapOpt(BoolString, o.numerals));
  }

  lemma ProjectModel(o: Options)
    ensures Values(Pairs(o), "model") == Values(ModelSection(o), "model") + Values(o.queryParams, "model")
  {
    HeadValuesModel(o);
    ListSilent(o, "model");
    TailSilent(o, "model");
    PairsValues(o, "model");
    SpliceHead(Values(HeadPairs(o), "model"), Values(ListPairs(o), "model"), Values(o.queryParams, "model"), Values(TailPairs(o), "model"), Values(ModelSection(o), "model"));
  }

  lemma HeadValuesDetectLanguage(o: Options)
    ensures Values(HeadPairs(o), "detect_language") == Values(DetectLanguageSection(o), "detect_language")
  {
    var p := ModelSection(o);
    ModelSectionSilent(o, "detect_language");
    ValuesIfSome("version", o.version, "detect_language");
    ValuesDropRight(p, IfSome("version", o.version), "detect_language");
    p := p + IfSome("version", o.version);
    ValuesIfSome("language", MapOpt(LanguageName, o.language), "detect_language");
    ValuesDropRight(p, IfSome("language", MapOpt(LanguageName, o.language)), "detect_language");
    p := p + IfSome("language", MapOpt(LanguageName, o.language));
    ValuesDropLeft(p, DetectLanguageSection(o), "detect_language");
    p := p + DetectLanguageSection(o);
    ValuesIfSome("punctuate", MapOpt(BoolString, o.punctuate), "detect_language");
    ValuesDropRight(p, IfSome("punctuate", MapOpt(BoolString, o.punctuate)), "detect_language");
    p := p + IfSome("punctuate", MapOpt(BoolString, o.punctuate));
    ValuesIfSome("profanity_filter", MapOpt(BoolString, o.profanityFilter), "detect_language");
    ValuesDropRight(p, IfSome("profanity_filter", MapOpt(BoolString, o.profanityFilter)), "detect_language");
    p := p + IfSome("profanity_filter", MapOpt(BoolString, o.profanityFilter));
    RepeatValues("redact", Map(RedactName, o.redact), "detect_language");
    ValuesDropRight(p, Repeat("redact", Map(RedactName, o.redact)), "detect_language");
    p := p + Repeat("redact", Map(RedactName, o.redact));
    ValuesIfSome("diarize", MapOpt(BoolString, o.diarize), "detect_language");
    ValuesDropRight(p, IfSome("diarize", MapOpt(BoolString, o.diarize)), "detect_language");
    p := p + IfSome("diarize", MapOpt(BoolString, o.diarize));
    ValuesIfSome("diarize_version", o.diarizeVersion, "detect_language");
    ValuesDropRight(p, IfSome("diarize_version", o.diarizeVersion), "detect_language");
    p := p + IfSome("diarize_version", o.diarizeVersion);
    ValuesIfSome("ner", MapOpt(BoolString, o.ner), "detect_language");
    ValuesDropRight(p, IfSome("ner", MapOpt(BoolString, o.ner)), "detect_language");
    p := p + IfSome("ner", MapOpt(BoolString, o.ner));
    MultichannelSectionSilent(o, "detect_language");
    ValuesDropRight(p, MultichannelSection(o), "detect_language");
    p := p + MultichannelSection(o);
    ValuesIfSome("alternatives", MapOpt(UsizeString, o.alternatives), "detect_language");
    ValuesDropRight(p, IfSome("alternatives", MapOpt(UsizeString, o.alternatives)), "detect_language");
    p := p + IfSome("alternatives", MapOpt(UsizeString, o.alternatives));
    ValuesIfSome("numerals", MapOpt(BoolString, o.numerals), "detect_language");
    ValuesDropRight(p, IfSome("numerals", MapOpt(BoolString, o.numerals)), "detect_language");
    p := p + IfSome("numerals", MapOpt(BoolString, o.numerals));
  }

  lemma ProjectDetectLanguage(o: Options)
    ensures Values(Pairs(o), "detect_language") == Values(DetectLanguageSection(o), "detect_language") + Values(o.queryParams, "detect_language")
  {
    HeadValuesDetectLanguage(o);
    ListSilent(o, "detect_language");
    TailSilent(o, "detect_language");
    PairsValues(o, "detect_language");
    SpliceHead(Values(HeadPairs(o), "detect_language"), Values(ListPairs(o), "detect_language"), Values(o.queryParams, "detect_language"), Values(TailPairs(o), "detect_language"), Values(DetectLanguageSection(o), "detect_language"));
  }

  lemma HeadValuesRedact(o: Options)
    ensures Values(HeadPairs(o), "redact") == Values(Repeat("redact", Map(RedactName, o.redact)), "redact")
  {
    var p := ModelSection(o);
    ModelSectionSilent(o, "redact");
    ValuesIfSome("version", o.version, "redact");
    ValuesDropRight(p, IfSome("version", o.version), "redact");
    p := p + IfSome("version", o.version);
    ValuesIfSome("language", MapOpt(LanguageName, o.language), "redact");
    ValuesDropRight(p, IfSome("language", MapOpt(LanguageName, o.language)), "redact");
    p := p + IfSome("language", MapOpt(LanguageName, o.language));
    DetectLanguageSectionSilent(o, "redact");
    ValuesDropRight(p, DetectLanguageSection(o), "redact");
    p := p + DetectLanguageSection(o);
    ValuesIfSome("punctuate", MapOpt(BoolString, o.punctuate), "redact");
    ValuesDropRight(p, IfSome("punctuate", MapOpt(BoolString, o.punctuate)), "redact");
    p := p + IfSome("punctuate", MapOpt(BoolString, o.punctuate));
    ValuesIfSome("profanity_filter", MapOpt(BoolString, o.profanityFilter), "redact");
    ValuesDropRight(p, IfSome("profanity_filter", MapOpt(BoolString, o.profanityFilter)), "redact");
    p := p + IfSome("profanity_filter", MapOpt(BoolString, o.profanityFilter));
    ValuesDropLeft(p, Repeat("redact", Map(RedactName, o.redact)), "redact");
    p := p + Repeat("redact", Map(RedactName, o.redact));
    ValuesIfSome("diarize", MapOpt(BoolString, o.diarize), "redact");
    ValuesDropRight(p, IfSome("diarize", MapOpt(BoolString, o.diarize)), "redact");
    p := p + IfSome("diarize", MapOpt(BoolString, o.diarize));
    ValuesIfSome("diarize_version", o.diarizeVersion, "redact");
    ValuesDropRight(p, IfSome("diarize_version", o.diarizeVersion), "redact");
    p := p + IfSome("diarize_version", o.diarizeVersion);
    ValuesIfSome("ner", MapOpt(BoolString, o.ner), "redact");
    ValuesDropRight(p, IfSome("ner", MapOpt(BoolString, o.ner)), "redact");
    p := p + IfSome("ner", MapOpt(BoolString, o.ner));
    MultichannelSectionSilent(o, "redact");
    ValuesDropRight(p, MultichannelSection(o), "redact");
    p := p + MultichannelSection(o);
    ValuesIfSome("alternatives", MapOpt(UsizeString, o.alternatives), "redact");
    ValuesDropRight(p, IfSome("alternatives", MapOpt(UsizeString, o.alternatives)), "redact");
    p := p + IfSome("alternatives", MapOpt(UsizeString, o.alternatives));
    ValuesIfSome("numerals", MapOpt(BoolString, o.numerals), "redact");
    ValuesDropRight(p, IfSome("numerals", MapOpt(BoolString, o.numerals)), "redact");
    p := p + IfSome("numerals", MapOpt(BoolString, o.numerals));
  }

  lemma ProjectRedact(o: Options)
    ensures Values(Pairs(o), "redact") == Values(Repeat("redact", Map(RedactName, o.redact)), "redact") + Values(o.queryParams, "redact")
  {
    HeadValuesRedact(o);
    ListSilent(o, "redact");
    TailSilent(o, "redact");
    PairsValues(o, "redact");
    SpliceHead(Values(HeadPairs(o), "redact"), Values(ListPairs(o), "redact"), Values(o.queryParams, "redact"), Values(TailPairs(o), "redact"), Values(Repeat("redact", Map(RedactName, o.redact)), "redact"));
  }

  lemma HeadValuesMultichannel(o: Options)
    ensures Values(HeadPairs(o), "multichannel") == Values(MultichannelSection(o), "multichannel")
  {
    var p := ModelSection(o);
    ModelSectionSilent(o, "multichannel");
    ValuesIfSome("version", o.version, "multichannel");
    ValuesDropRight(p, IfSome("version", o.version), "multichannel");
    p := p + IfSome("version", o.version);
    ValuesIfSome("language", MapOpt(LanguageName, o.language), "multichannel");
    ValuesDropRight(p, IfSome("language", MapOpt(LanguageName, o.language)), "multichannel");
    p := p + IfSome("language", MapOpt(LanguageName, o.language));
    DetectLanguageSectionSilent(o, "multichannel");
    ValuesDropRight(p, DetectLanguageSection(o), "multichannel");
    p := p + DetectLanguageSection(o);
    ValuesIfSome("punctuate", MapOpt(BoolString, o.punctuate), "multichannel");
    ValuesDropRight(p, IfSome("punctuate", MapOpt(BoolString, o.punctuate)), "multichannel");
    p := p + IfSome("punctuate", MapOpt(BoolString, o.punctuate));
    ValuesIfSome("profanity_filter", MapOpt(BoolString, o.profanityFilter), "multichannel");
    ValuesDropRight(p, IfSome("profanity_filter", MapOpt(BoolString, o.profanityFilter)), "multichannel");
    p := p + IfSome("profanity_filter", MapOpt(BoolString, o.profanityFilter));
    RepeatValues("redact", Map(RedactName, o.redact), "multichannel");
    ValuesDropRight(p, Repeat("redact", Map(RedactName, o.redact)), "multichannel");
    p := p + Repeat("redact", Map(RedactName, o.redact));
    ValuesIfSome("diarize", MapOpt(BoolString, o.diarize), "multichannel");
    ValuesDropRight(p, IfSome("diarize", MapOpt(BoolString, o.diarize)), "multichannel");
    p := p + IfSome("diarize", MapOpt(BoolString, o.diarize));
    ValuesIfSome("diarize_version", o.diarizeVersion, "multichannel");
    ValuesDropRight(p, IfSome("diarize_version", o.diarizeVersion), "multichannel");
    p := p + IfSome("diarize_version", o.diarizeVersion);
    ValuesIfSome("ner", MapOpt(BoolString, o.ner), "multichannel");
    ValuesDropRight(p, IfSome("ner", MapOpt(BoolString, o.ner)), "multichannel");
    p := p + IfSome("ner", MapOpt(BoolString, o.ner));
    ValuesDropLeft(p, MultichannelSection(o), "multichannel");
    p := p + MultichannelSection(o);
    ValuesIfSome("alternatives", MapOpt(UsizeString, o.alternatives), "multichannel");
    ValuesDropRight(p, IfSome("alternatives", MapOpt(UsizeString, o.alternatives)), "multichannel");
    p := p + IfSome("alternatives", MapOpt(UsizeString, o.alternatives));
    ValuesIfSome("numerals", MapOpt(BoolString, o.numerals), "multichannel");
    ValuesDropRight(p, IfSome("numerals", MapOpt(BoolString, o.numerals)), "multichannel");
    p := p + IfSome("numerals", MapOpt(BoolString, o.numerals));
  }

  lemma ProjectMultichannel(o: Options)
    ensures Values(Pairs(o), "multichannel") == Values(MultichannelSection(o), "multichannel") + Values(o.queryParams, "multichannel")
  {
    HeadValuesMultichannel(o);
    ListSilent(o, "multichannel");
    TailSilent(o, "multichannel");
    PairsValues(o, "multichannel");
    SpliceHead(Values(HeadPairs(o), "multichannel"), Values(ListPairs(o), "multichannel"), Values(o.queryParams, "multichannel"), Values(TailPairs(o), "multichannel"), Values(MultichannelSection(o), "multichannel"));
  }

  lemma ListValuesSearch(o: Options)
    ensures Values(ListPairs(o), "search") == Values(Repeat("search", o.search), "search")
  {
    var p := Repeat("search", o.search);
    RepeatValues("replace", Map(ReplaceText, o.replace), "search");
    ValuesDropRight(p, Repeat("replace", Map(ReplaceText, o.replace)), "search");
    p := p + Repeat("replace", Map(ReplaceText, o.replace));
    RepeatValues("keywords", Map(KeywordText, o.keywords), "search");
    ValuesDropRight(p, Repeat("keywords", Map(KeywordText, o.keywords)), "search");
    p := p + Repeat("keywords", Map(KeywordText, o.keywords));
    KeywordBoostSectionSilent(o, "search");
    ValuesDropRight(p, KeywordBoostSection(o), "search");
    p := p + KeywordBoostSection(o);
    UtterancesSectionSilent(o, "search");
    ValuesDropRight(p, UtterancesSection(o), "search");
    p := p + UtterancesSection(o);
    RepeatValues("tag", o.tags, "search");
    ValuesDropRight(p, Repeat("tag", o.tags), "search");
    p := p + Repeat("tag", o.tags);
  }

  lemma ProjectSearch(o: Options)
    ensures Values(Pairs(o), "search") == Values(Repeat("search", o.search), "search") + Values(o.queryParams, "search")
  {
    ListValuesSearch(o);
    HeadSilent(o, "search");
    TailSilent(o, "search");
    PairsValues(o, "search");
    SpliceList(Values(HeadPairs(o), "search"), Values(ListPairs(o), "search"), Values(o.queryParams, "search"), Values(TailPairs(o), "search"), Values(Repeat("search", o.search), "search"));
  }

  lemma ListValuesReplace(o: Options)
    ensures Values(ListPairs(o), "replace") == Values(Repeat("replace", Map(ReplaceText, o.replace)), "replace")
  {
    var p := Repeat("search", o.search);
    RepeatValues("search", o.search, "replace");
    ValuesDropLeft(p, Repeat("replace", Map(ReplaceText, o.replace)), "replace");
    p := p + Repeat("replace", Map(ReplaceText, o.replace));
    RepeatValues("keywords", Map(KeywordText, o.keywords), "replace");
    ValuesDropRight(p, Repeat("keywords", Map(KeywordText, o.keywords)), "replace");
    p := p + Repeat("keywords", Map(KeywordText, o.keywords));
    KeywordBoostSectionSilent(o, "replace");
    ValuesDropRight(p, KeywordBoostSection(o), "replace");
    p := p + KeywordBoostSection(o);
    UtterancesSectionSilent(o, "replace");
    ValuesDropRight(p, UtterancesSection(o), "replace");
    p := p + UtterancesSection(o);
    RepeatValues("tag", o.tags, "replace");
    ValuesDropRight(p, Repeat("tag", o.tags), "replace");
    p := p + Repeat("tag", o.tags);
  }

  lemma ProjectReplace(o: Options)
    ensures Values(Pairs(o), "replace") == Values(Repeat("replace", Map(ReplaceText, o.replace)), "replace") + Values(o.queryParams, "replace")
  {
    ListValuesReplace(o);
    HeadSilent(o, "replace");
    TailSilent(o, "replace");
    PairsValues(o, "replace");
    SpliceList(Values(HeadPairs(o), "replace"), Values(ListPairs(o), "replace"), Values(o.queryParams, "replace"), Values(TailPairs(o), "replace"), Values(Repeat("replace", Map(ReplaceText, o.replace)), "replace"));
  }

  lemma ListValuesKeywords(o: Options)
    ensures Values(ListPairs(o), "keywords") == Values(Repeat("keywords", Map(KeywordText, o.keywords)), "keywords")
  {
    var p := Repeat("search", o.search);
    RepeatValues("search", o.search, "keywords");
    RepeatValues("replace", Map(ReplaceText, o.replace), "keywords");
    ValuesDropRight(p, Repeat("replace", Map(ReplaceText, o.replace)), "keywords");
    p := p + Repeat("replace", Map(ReplaceText, o.replace));
    ValuesDropLeft(p, Repeat("keywords", Map(KeywordText, o.keywords)), "keywords");
    p := p + Repeat("keywords", Map(KeywordText, o.keywords));
    KeywordBoostSectionSilent(o, "keywords");
    ValuesDropRight(p, KeywordBoostSection(o), "keywords");
    p := p + KeywordBoostSection(o);
    UtterancesSectionSilent(o, "keywords");
    ValuesDropRight(p, UtterancesSection(o), "keywords");
    p := p + UtterancesSection(o);
    RepeatValues("tag", o.tags, "keywords");
    ValuesDropRight(p, Repeat("tag", o.tags), "keywords");
    p := p + Repeat("tag", o.tags);
  }

  lemma ProjectKeywords(o: Options)
    ensures Values(Pairs(o), "keywords") == Values(Repeat("keywords", Map(KeywordText, o.keywords)), "keywords") + Values(o.queryParams, "keywords")
  {
    ListValuesKeywords(o);
    HeadSilent(o, "keywords");
    TailSilent(o, "keywords");
    PairsValues(o, "keywords");
    SpliceList(Values(HeadPairs(o), "keywords"), Values(ListPairs(o), "keywords"), Values(o.queryParams, "keywords"), Values(TailPairs(o), "keywords"), Values(Repeat("keywords", Map(KeywordText, o.keywords)), "keywords"));
  }

  lemma ListValuesKeywordBoost(o: Options)
    ensures Values(ListPairs(o), "keyword_boost") == Values(KeywordBoostSection(o), "keyword_boost")
  {
    var p := Repeat("search", o.search);
    RepeatValues("search", o.search, "keyword_boost");
    RepeatValues("replace", Map(ReplaceText, o.replace), "keyword_boost");
    ValuesDropRight(p, Repeat("replace", Map(ReplaceText, o.replace)), "keyword_boost");
    p := p + Repeat("replace", Map(ReplaceText, o.replace));
    RepeatValues("keywords", Map(KeywordText, o.keywords), "keyword_boost");
    ValuesDropRight(p, Repeat("keywords", Map(KeywordText, o.keywords)), "keyword_boost");
    p := p + Repeat("keywords", Map(KeywordText, o.keywords));
    ValuesDropLeft(p, KeywordBoostSection(o), "keyword_boost");
    p := p + KeywordBoostSection(o);
    UtterancesSectionSilent(o, "keyword_boost");
    ValuesDropRight(p, UtterancesSection(o), "keyword_boost");
    p := p + UtterancesSection(o);
    RepeatValues("tag", o.tags, "keyword_boost");
    ValuesDropRight(p, Repeat("tag", o.tags), "keyword_boost");
    p := p + Repeat("tag", o.tags);
  }

  lemma ProjectKeywordBoost(o: Options)
    ensures Values(Pairs(o), "keyword_boost") == Values(KeywordBoostSection(o), "keyword_boost") + Values(o.queryParams, "keyword_boost")
  {
    ListValuesKeywordBoost(o);
    HeadSilent(o, "keyword_boost");
    TailSilent(o, "keyword_boost");
    PairsValues(o, "keyword_boost");
    SpliceList(Values(HeadPairs(o), "keyword_boost"), Values(ListPairs(o), "keyword_boost"), Values(o.queryParams, "keyword_boost"), Values(TailPairs(o), "keyword_boost"), Values(KeywordBoostSection(o), "keyword_boost"));
  }

  /** Of the list group, only the utterances section sends `utterances` or `utt_split`. */
  lemma ListValuesUtterances(o: Options, k: string)
    requires k == "utterances" || k == "utt_split"
    ensures Values(ListPairs(o), k) == Values(UtterancesSection(o), k)
  {
    var p := Repeat("search", o.search);
    RepeatValues("search", o.search, k);
    RepeatValues("replace", Map(ReplaceText, o.replace), k);
    ValuesDropRight(p, Repeat("replace", Map(ReplaceText, o.replace)), k);
    p := p + Repeat("replace", Map(ReplaceText, o.replace));
    RepeatValues("keywords", Map(KeywordText, o.keywords), k);
    ValuesDropRight(p, Repeat("keywords", Map(KeywordText, o.keywords)), k);
    p := p + Repeat("keywords", Map(KeywordText, o.keywords));
    KeywordBoostSectionSilent(o, k);
    ValuesDropRight(p, KeywordBoostSection(o), k);
    p := p + KeywordBoostSection(o);
    ValuesDropLeft(p, UtterancesSection(o), k);
    p := p + UtterancesSection(o);
    RepeatValues("tag", o.tags, k);
    ValuesDropRight(p, Repeat("tag", o.tags), k);
    p := p + Repeat("tag", o.tags);
  }

  lemma ProjectUtterances(o: Options)
    ensures Values(Pairs(o), "utterances") == Values(UtterancesSection(o), "utterances") + Values(o.queryParams, "utterances")
  {
    ListValuesUtterances(o, "utterances");
    HeadSilent(o, "utterances");
    TailSilent(o, "utterances");
    PairsValues(o, "utterances");
    SpliceList(Values(HeadPairs(o), "utterances"), Values(ListPairs(o), "utterances"), Values(o.queryParams, "utterances"), Values(TailPairs(o), "utterances"), Values(UtterancesSection(o), "utterances"));
  }

  lemma ProjectUttSplit(o: Options)
    ensures Values(Pairs(o), "utt_split") == Values(UtterancesSection(o), "utt_split") + Values(o.queryParams, "utt_split")
  {
    ListValuesUtterances(o, "utt_split");
    HeadSilent(o, "utt_split");
    TailSilent(o, "utt_split");
    PairsValues(o, "utt_split");
    SpliceList(Values(HeadPairs(o), "utt_split"), Values(ListPairs(o), "utt_split"), Values(o.queryParams, "utt_split"), Values(TailPairs(o), "utt_split"), Values(UtterancesSection(o), "utt_split"));
  }

  lemma ListValuesTag(o: Options)
    ensures Values(ListPairs(o), "tag") == Values(Repeat("tag", o.tags), "tag")
  {
    var p := Repeat("search", o.search);
    RepeatValues("search", o.search, "tag");
    RepeatValues("replace", Map(ReplaceText, o.replace), "tag");
    ValuesDropRight(p, Repeat("replace", Map(ReplaceText, o.replace)), "tag");
    p := p + Repeat("replace", Map(ReplaceText, o.replace));
    RepeatValues("keywords", Map(KeywordText, o.keywords), "tag");
    ValuesDropRight(p, Repeat("keywords", Map(KeywordText, o.keywords)), "tag");
    p := p + Repeat("keywords", Map(KeywordText, o.keywords));
    KeywordBoostSectionSilent(o, "tag");
    ValuesDropRight(p, KeywordBoostSection(o), "tag");
    p := p + KeywordBoostSection(o);
    UtterancesSectionSilent(o, "tag");
    ValuesDropRight(p, UtterancesSection(o), "tag");
    p := p + UtterancesSection(o);
    ValuesDropLeft(p, Repeat("tag", o.tags), "tag");
    p := p + Repeat("tag", o.tags);
  }

  lemma ProjectTag(o: Options)
    ensures Values(Pairs(o), "tag") == Values(Repeat("tag", o.tags), "tag") + Values(o.queryParams, "tag")
  {
    ListValuesTag(o);
    HeadSilent(o, "tag");
    TailSilent(o, "tag");
    PairsValues(o, "tag");
    SpliceList(Values(HeadPairs(o), "tag"), Values(ListPairs(o), "tag"), Values(o.queryParams, "tag"), Values(TailPairs(o), "tag"), Values(Repeat("tag", o.tags), "tag"));
  }

  lemma TailValuesSummarize(o: Options)
    ensures Values(TailPairs(o), "summarize") == Values(SummarizeSection(o), "summarize")
  {
    var p := IfSome("encoding", MapOpt(EncodingName, o.encoding));
    ValuesIfSome("encoding", MapOpt(EncodingName, o.encoding), "summarize");
    ValuesIfSome("smart_format", MapOpt(BoolString, o.smartFormat), "summarize");
    ValuesDropRight(p, IfSome("smart_format", MapOpt(BoolString, o.smartFormat)), "summarize");
    p := p + IfSome("smart_format", MapOpt(BoolString, o.smartFormat));
    ValuesIfSome("filler_words", MapOpt(BoolString, o.fillerWords), "summarize");
    ValuesDropRight(p, IfSome("filler_words", MapOpt(BoolString, o.fillerWords)), "summarize");
    p := p + IfSome("filler_words", MapOpt(BoolString, o.fillerWords));
    ValuesIfSome("paragraphs", MapOpt(BoolString, o.paragraphs), "summarize");
    ValuesDropRight(p, IfSome("paragraphs", MapOpt(BoolString, o.paragraphs)), "summarize");
    p := p + IfSome("paragraphs", MapOpt(BoolString, o.paragraphs));
    ValuesIfSome("detect_entities", MapOpt(BoolString, o.detectEntities), "summarize");
    ValuesDropRight(p, IfSome("detect_entities", MapOpt(BoolString, o.detectEntities)), "summarize");
    p := p + IfSome("detect_entities", MapOpt(BoolString, o.detectEntities));
    ValuesIfSome("intents", MapOpt(BoolString, o.intents), "summarize");
    ValuesDropRight(p, IfSome("intents", MapOpt(BoolString, o.intents)), "summarize");
    p := p + IfSome("intents", MapOpt(BoolString, o.intents));
    ValuesIfSome("custom_intent_mode", MapOpt(CustomModeName, o.customIntentMode), "summarize");
    ValuesDropRight(p, IfSome("custom_intent_mode", MapOpt(CustomModeName, o.customIntentMode)), "summarize");
    p := p + IfSome("custom_intent_mode", MapOpt(CustomModeName, o.customIntentMode));
    RepeatValues("custom_intent", o.customIntents, "summarize");
    ValuesDropRight(p, Repeat("custom_intent", o.customIntents), "summarize");
    p := p + Repeat("custom_intent", o.customIntents);
    ValuesIfSome("sentiment", MapOpt(BoolString, o.sentiment), "summarize");
    ValuesDropRight(p, IfSome("sentiment", MapOpt(BoolString, o.sentiment)), "summarize");
    p := p + IfSome("sentiment", MapOpt(BoolString, o.sentiment));
    ValuesIfSome("topics", MapOpt(BoolString, o.topics), "summarize");
    ValuesDropRight(p, IfSome("topics", MapOpt(BoolString, o.topics)), "summarize");
    p := p + IfSome("topics", MapOpt(BoolString, o.topics));
    ValuesIfSome("custom_topic_mode", MapOpt(CustomModeName, o.customTopicMode), "summarize");
    ValuesDropRight(p, IfSome("custom_topic_mode", MapOpt(CustomModeName, o.customTopicMode)), "summarize");
    p := p + IfSome("custom_topic_mode", MapOpt(CustomModeName, o.customTopicMode));
    RepeatValues("custom_topic", o.customTopics, "summarize");
    ValuesDropRight(p, Repeat("custom_topic", o.customTopics), "summarize");
    p := p + Repeat("custom_topic", o.customTopics);
    ValuesDropLeft(p, SummarizeSection(o), "summarize");
    p := p + SummarizeSection(o);
    ValuesIfSome("dictation", MapOpt(BoolString, o.dictation), "summarize");
    ValuesDropRight(p, IfSome("dictation", MapOpt(BoolString, o.dictation)), "summarize");
    p := p + IfSome("dictation", MapOpt(BoolString, o.dictation));
    ValuesIfSome("measurements", MapOpt(BoolString, o.measurements), "summarize");
    ValuesDropRight(p, IfSome("measurements", MapOpt(BoolString, o.measurements)), "summarize");
    p := p + IfSome("measurements", MapOpt(BoolString, o.measurements));
    ExtraSectionSilent(o, "summarize");
    ValuesDropRight(p, ExtraSection(o), "summarize");
    p := p + ExtraSection(o);
    ValuesIfSome("callback_method", MapOpt(CallbackMethodName, o.callbackMethod), "summarize");
    ValuesDropRight(p, IfSome("callback_method", MapOpt(CallbackMethodName, o.callbackMethod)), "summarize");
    p := p + IfSome("callback_method", MapOpt(CallbackMethodName, o.callbackMethod));
  }

  lemma ProjectSummarize(o: Options)
    ensures Values(Pairs(o), "summarize") == Values(o.queryParams, "summarize") + Values(SummarizeSection(o), "summarize")
  {
    TailValuesSummarize(o);
    HeadSilent(o, "summarize");
    ListSilent(o, "summarize");
    PairsValues(o, "summarize");
    SpliceTail(Values(HeadPairs(o), "summarize"), Values(ListPairs(o), "summarize"), Values(o.queryParams, "summarize"), Values(TailPairs(o), "summarize"), Values(SummarizeSection(o), "summarize"));
  }

  lemma SpliceFront(a: seq<string>, b: seq<string>, c: seq<string>, x: seq<string>)
    requires a == b + c && b == x
    ensures a == x + c
  {
  }

  lemma SpliceBack(a: seq<string>, b: seq<string>, c: seq<string>, x: seq<string>)
    requires a == c + b && b == x
    ensures a == c + x
  {
  }

  // The values each section emits for its own key.

  lemma ModelSectionValues(o: Options)
    ensures ChannelModels(o) ==>
              Values(ModelSection(o), "model") == [ModelsToString(o.multichannel.value.models.value)]
    ensures !ChannelModels(o) ==>
              Values(ModelSection(o), "model") == if o.model.Some? then [ModelName(o.model.value)] else []
  {
    if !ChannelModels(o) {
      ValuesIfSome("model", MapOpt(ModelName, o.model), "model");
    }
  }

  lemma MultichannelSectionValues(o: Options)
    ensures Values(MultichannelSection(o), "multichannel") == MultichannelFlag(o)
  {
  }

  /** The multichannel value sent for the options, if any. */
  function MultichannelFlag(o: Options): (r: seq<string>)
    ensures r == [] <==> o.multichannel.None?
    ensures r == ["false"] <==> o.multichannel == Some(MultichannelDisabled)
    ensures ChannelModels(o) ==> r == ["true"]
  {
    match o.multichannel
    case None => []
    case Some(MultichannelDisabled) => ["false"]
    case Some(_) => ["true"]
  }

  lemma DetectLanguageSectionValues(o: Options)
    ensures o.detectLanguage.None? ==> Values(DetectLanguageSection(o), "detect_language") == []
    ensures o.detectLanguage.Some? && o.detectLanguage.value.Restricted? ==>
              Values(DetectLanguageSection(o), "detect_language") == LanguageNames(o.detectLanguage.value.languages)
    ensures o.detectLanguage.Some? && !o.detectLanguage.value.Restricted? ==>
              Values(DetectLanguageSection(o), "detect_language") == [BoolString(o.detectLanguage.value == DetectEnabled)]
  {
    if o.detectLanguage.Some? {
      var d := o.detectLanguage.value;
      RepeatValues("detect_language", Map(Second, DetectLanguagePairs(d)), "detect_language");
      if d.Restricted? {
        assert Map(Second, DetectLanguagePairs(d)) == LanguageNames(d.languages);
      } else {
        assert Map(Second, DetectLanguagePairs(d)) == [BoolString(d == DetectEnabled)];
      }
    }
  }

  lemma KeywordBoostSectionValues(o: Options)
    ensures Values(KeywordBoostSection(o), "keyword_boost") == if o.keywordBoostLegacy == Some(true) then ["legacy"] else []
  {
  }

  /** The utterances value sent for the options, if any. */
  function UtterancesFlag(o: Options): (r: seq<string>)
    ensures r == [] <==> o.utterances.None?
    ensures r == ["false"] <==> o.utterances == Some(UtterancesDisabled)
  {
    match o.utterances
    case None => []
    case Some(UtterancesDisabled) => ["false"]
    case Some(_) => ["true"]
  }

  /** The utt_split value sent for the options, if any. */
  function UttSplit(o: Options): (r: seq<string>)
    ensures r != [] ==> UtterancesFlag(o) == ["true"]
  {
    if o.utterances.Some? && o.utterances.value.CustomSplit? && o.utterances.value.uttSplit.Some?
    then [o.utterances.value.uttSplit.value] else []
  }

  lemma UtterancesSectionValues(o: Options)
    ensures Values(UtterancesSection(o), "utterances") == UtterancesFlag(o)
    ensures Values(UtterancesSection(o), "utt_split") == UttSplit(o)
  {
    if o.utterances.Some? && o.utterances.value.CustomSplit? {
      var split := o.utterances.value.uttSplit;
      ValuesIfSome("utt_split", split, "utterances");
      ValuesDropRight([("utterances", "true")], IfSome("utt_split", split), "utterances");
      ValuesIfSome("utt_split", split, "utt_split");
      ValuesDropLeft([("utterances", "true")], IfSome("utt_split", split), "utt_split");
    }
  }

  lemma SummarizeSectionValues(o: Options)
    ensures Values(SummarizeSection(o), "summarize") == if o.summarize == Some(true) then ["v2"] else []
  {
  }

  // What the request carries for each feature.

  /**
   * Per-channel models take the place of the plain model: the request
   * carries their joined names as its only `model` (besides raw query
   * parameters), and multichannel=true (`MultichannelValues`).
   */
  lemma ChannelModelsWin(o: Options)
    requires ChannelModels(o)
    ensures Values(Pairs(o), "model") == [ModelsToString(o.multichannel.value.models.value)] + Values(o.queryParams, "model")
  {
    ProjectModel(o);
    ModelSectionValues(o);
    SpliceFront(Values(Pairs(o), "model"), Values(ModelSection(o), "model"), Values(o.queryParams, "model"),
                [ModelsToString(o.multichannel.value.models.value)]);
  }

  /** Without per-channel models, the plain model is sent exactly when it is set. */
  lemma PlainModel(o: Options)
    requires !ChannelModels(o)
    ensures Values(Pairs(o), "model")
         == (if o.model.Some? then [ModelName(o.model.value)] else []) + Values(o.queryParams, "model")
  {
    ProjectModel(o);
    ModelSectionValues(o);
    SpliceFront(Values(Pairs(o), "model"), Values(ModelSection(o), "model"), Values(o.queryParams, "model"),
                if o.model.Some? then [ModelName(o.model.value)] else []);
  }

  /** Disabled sends false; Enabled and every per-channel form send true; unset sends nothing. */
  lemma MultichannelValues(o: Options)
    ensures Values(Pairs(o), "multichannel") == MultichannelFlag(o) + Values(o.queryParams, "multichannel")
  {
    ProjectMultichannel(o);
    MultichannelSectionValues(o);
    SpliceFront(Values(Pairs(o), "multichannel"), Values(MultichannelSection(o), "multichannel"),
                Values(o.queryParams, "multichannel"), MultichannelFlag(o));
  }

  /** One detect_language value per restricted language, in order; otherwise true or false. */
  lemma DetectLanguageValues(o: Options)
    ensures o.detectLanguage.None? ==> Values(Pairs(o), "detect_language") == Values(o.queryParams, "detect_language")
    ensures o.detectLanguage.Some? && o.detectLanguage.value.Restricted? ==>
              Values(Pairs(o), "detect_language")
              == LanguageNames(o.detectLanguage.value.languages) + Values(o.queryParams, "detect_language")
    ensures o.detectLanguage.Some? && !o.detectLanguage.value.Restricted? ==>
              Values(Pairs(o), "detect_language")
              == [BoolString(o.detectLanguage.value == DetectEnabled)] + Values(o.queryParams, "detect_language")
  {
    ProjectDetectLanguage(o);
    DetectLanguageSectionValues(o);
    var x := Values(DetectLanguageSection(o), "detect_language");
    SpliceFront(Values(Pairs(o), "detect_language"), x, Values(o.queryParams, "detect_language"), x);
  }

  /** Each redaction, search term and tag is sent once, in the order given. */
  lemma ListValues(o: Options)
    ensures Values(Pairs(o), "redact") == Map(RedactName, o.redact) + Values(o.queryParams, "redact")
    ensures Values(Pairs(o), "search") == o.search + Values(o.queryParams, "search")
    ensures Values(Pairs(o), "tag") == o.tags + Values(o.queryParams, "tag")
  {
    ProjectRedact(o);
    RepeatValues("redact", Map(RedactName, o.redact), "redact");
    ProjectSearch(o);
    RepeatValues("search", o.search, "search");
    ProjectTag(o);
    RepeatValues("tag", o.tags, "tag");
  }

  /** One replace value per replacement, "find:replace" or the bare term; each reads back. */
  lemma ReplaceValues(o: Options)
    ensures Values(Pairs(o), "replace") == Map(ReplaceText, o.replace) + Values(o.queryParams, "replace")
    ensures forall i :: 0 <= i < |o.replace| && ':' !in o.replace[i].find ==>
              SplitOnce(Values(Pairs(o), "replace")[i], ':')
              == (o.replace[i].find, if o.replace[i].replace.Some? then o.replace[i].replace.value else "")
  {
    ProjectReplace(o);
    RepeatValues("replace", Map(ReplaceText, o.replace), "replace");
    forall i | 0 <= i < |o.replace| && ':' !in o.replace[i].find
      ensures SplitOnce(Values(Pairs(o), "replace")[i], ':')
              == (o.replace[i].find, if o.replace[i].replace.Some? then o.replace[i].replace.value else "")
    {
      ReplaceTextSplits(o.replace[i]);
    }
  }

  /** One keywords value per keyword, with its intensifier when it has one. */
  lemma KeywordsValues(o: Options)
    ensures Values(Pairs(o), "keywords") == Map(KeywordText, o.keywords) + Values(o.queryParams, "keywords")
    ensures forall i :: 0 <= i < |o.keywords| && ':' !in o.keywords[i].keyword ==>
              SplitOnce(Values(Pairs(o), "keywords")[i], ':')
              == (o.keywords[i].keyword, if o.keywords[i].intensifier.Some? then o.keywords[i].intensifier.value else "")
  {
    ProjectKeywords(o);
    RepeatValues("keywords", Map(KeywordText, o.keywords), "keywords");
    forall i | 0 <= i < |o.keywords| && ':' !in o.keywords[i].keyword
      ensures SplitOnce(Values(Pairs(o), "keywords")[i], ':')
              == (o.keywords[i].keyword, if o.keywords[i].intensifier.Some? then o.keywords[i].intensifier.value else "")
    {
      KeywordTextSplits(o.keywords[i]);
    }
  }

  /** keyword_boost=legacy is sent only when legacy boosting was switched on. */
  lemma KeywordBoostValues(o: Options)
    ensures Values(Pairs(o), "keyword_boost")
         == (if o.keywordBoostLegacy == Some(true) then ["legacy"] else []) + Values(o.queryParams, "keyword_boost")
  {
    ProjectKeywordBoost(o);
    KeywordBoostSectionValues(o);
    SpliceFront(Values(Pairs(o), "keyword_boost"), Values(KeywordBoostSection(o), "keyword_boost"),
                Values(o.queryParams, "keyword_boost"), if o.keywordBoostLegacy == Some(true) then ["legacy"] else []);
  }

  /** Disabled sends utterances=false; Enabled and a custom split send true. */
  lemma UtterancesValues(o: Options)
    ensures Values(Pairs(o), "utterances") == UtterancesFlag(o) + Values(o.queryParams, "utterances")
  {
    ProjectUtterances(o);
    UtterancesSectionValues(o);
    SpliceFront(Values(Pairs(o), "utterances"), Values(UtterancesSection(o), "utterances"),
                Values(o.queryParams, "utterances"), UtterancesFlag(o));
  }

  /** Only a custom split with a value carries utt_split, and it comes with utterances=true. */
  lemma UttSplitValues(o: Options)
    ensures Values(Pairs(o), "utt_split") == UttSplit(o) + Values(o.queryParams, "utt_split")
  {
    ProjectUttSplit(o);
    UtterancesSectionValues(o);
    SpliceFront(Values(Pairs(o), "utt_split"), Values(UtterancesSection(o), "utt_split"),
                Values(o.queryParams, "utt_split"), UttSplit(o));
  }

  /** summarize=v2 is sent only when summarisation was switched on; false sends nothing. */
  lemma SummarizeValues(o: Options)
    ensures Values(Pairs(o), "summarize")
         == Values(o.queryParams, "summarize") + (if o.summarize == Some(true) then ["v2"] else [])
  {
    ProjectSummarize(o);
    SummarizeSectionValues(o);
    SpliceBack(Values(Pairs(o), "summarize"), Values(SummarizeSection(o), "summarize"),
                Values(o.queryParams, "summarize"), if o.summarize == Some(true) then ["v2"] else []);
  }

  /** Options that set nothing send nothing. */
  lemma UnsetSendsNothing()
    ensures Pairs(Unset) == []
  {
  }

  /** `OptionsBuilder`: the options under construction. */
  class OptionsBuilder {
    var options: Options

    /** `OptionsBuilder::new`. */
    constructor()
      ensures options == Unset
    {
      options := Unset;
    }

    /**
     * `model`: sets the model. Per-channel models, if any, are dropped, but
     * multichannel stays on.
     */
    method SetModel(m: Model)
      modifies this
      ensures options.model == Some(m)
      ensures old(options).multichannel.Some? && old(options).multichannel.value.ModelPerChannel?
              ==> options.multichannel == Some(ModelPerChannel(None))
      ensures !(old(options).multichannel.Some? && old(options).multichannel.value.ModelPerChannel?)
              ==> options.multichannel == old(options).multichannel
      ensures options == old(options).(model := options.model, multichannel := options.multichannel)
    {
      var mc := options.multichannel;
      if mc.Some? && mc.value.ModelPerChannel? {
        mc := Some(ModelPerChannel(None));
      }
      options := options.(model := Some(m), multichannel := mc);
    }

    /** `multichannel`: Enabled or Disabled, discarding any per-channel models. */
    method SetMultichannel(multichannel: bool)
      modifies this
      ensures options == old(options).(multichannel := Some(if multichannel then MultichannelEnabled else MultichannelDisabled))
    {
      options := options.(multichannel := Some(if multichannel then MultichannelEnabled else MultichannelDisabled));
    }

    /**
     * `multichannel_with_models`: extends the per-channel models already
     * set, or else turns per-channel models on with exactly these.
     */
    method MultichannelWithModels(models: seq<Model>)
      modifies this
      ensures ChannelModels(old(options)) ==>
                options == old(options).(multichannel := Some(ModelPerChannel(Some(old(options).multichannel.value.models.value + models))))
      ensures !ChannelModels(old(options)) ==>
                options == old(options).(multichannel := Some(ModelPerChannel(Some(models))))
    {
      if ChannelModels(options) {
        options := options.(multichannel := Some(ModelPerChannel(Some(options.multichannel.value.models.value + models))));
      } else {
        options := options.(multichannel := Some(ModelPerChannel(Some(models))));
      }
    }

    /** `version`: overwrites one field. */
    method SetVersion(version: string)
      modifies this
      ensures options == old(options).(version := Some(version))
    {
      options := options.(version := Some(version));
    }

    /** `language`: overwrites one field. */
    method SetLanguage(language: Language)
      modifies this
      ensures options == old(options).(language := Some(language))
    {
      options := options.(language := Some(language));
    }

    /** `punctuate`: overwrites one field. */
    method SetPunctuate(punctuate: bool)
      modifies this
      ensures options == old(options).(punctuate := Some(punctuate))
    {
      options := options.(punctuate := Some(punctuate));
    }

    /** `profanity_filter`: overwrites one field. */
    method SetProfanityFilter(profanityFilter: bool)
      modifies this
      ensures options == old(options).(profanityFilter := Some(profanityFilter))
    {
      options := options.(profanityFilter := Some(profanityFilter));
    }

    /** `diarize`: overwrites one field. */
    method SetDiarize(diarize: bool)
      modifies this
      ensures options == old(options).(diarize := Some(diarize))
    {
      options := options.(diarize := Some(diarize));
    }

    /** `diarize_version`: overwrites one field. */
    method SetDiarizeVersion(diarizeVersion: string)
      modifies this
      ensures options == old(options).(diarizeVersion := Some(diarizeVersion))
    {
      options := options.(diarizeVersion := Some(diarizeVersion));
    }

    /** `ner`: overwrites one field. */
    method SetNer(ner: bool)
      modifies this
      ensures options == old(options).(ner := Some(ner))
    {
      options := options.(ner := Some(ner));
    }

    /** `alternatives`: overwrites one field. */
    method SetAlternatives(alternatives: usize)
      modifies this
      ensures options == old(options).(alternatives := Some(alternatives))
    {
      options := options.(alternatives := Some(alternatives));
    }

    /** `numerals`: overwrites one field. */
    method SetNumerals(numerals: bool)
      modifies this
      ensures options == old(options).(numerals := Some(numerals))
    {
      options := options.(numerals := Some(numerals));
    }

    /** `keyword_boost_legacy`: overwrites one field. */
    method KeywordBoostLegacy()
      modifies this
      ensures options == old(options).(keywordBoostLegacy := Some(true))
    {
      options := options.(keywordBoostLegacy := Some(true));
    }

    /** `utterances`: overwrites one field. */
    method SetUtterances(utterances: bool)
      modifies this
      ensures options == old(options).(utterances := Some(if utterances then UtterancesEnabled else UtterancesDisabled))
    {
      options := options.(utterances := Some(if utterances then UtterancesEnabled else UtterancesDisabled));
    }

    /** `utterances_with_utt_split`: overwrites one field. */
    method UtterancesWithUttSplit(uttSplit: string)
      modifies this
      ensures options == old(options).(utterances := Some(CustomSplit(Some(uttSplit))))
    {
      options := options.(utterances := Some(CustomSplit(Some(uttSplit))));
    }

    /** `detect_language`: overwrites one field. */
    method SetDetectLanguage(detectLanguage: DetectLanguage)
      modifies this
      ensures options == old(options).(detectLanguage := Some(detectLanguage))
    {
      options := options.(detectLanguage := Some(detectLanguage));
    }

    /** `encoding`: overwrites one field. */
    method SetEncoding(encoding: Encoding)
      modifies this
      ensures options == old(options).(encoding := Some(encoding))
    {
      options := options.(encoding := Some(encoding));
    }

    /** `smart_format`: overwrites one field. */
    method SetSmartFormat(smartFormat: bool)
      modifies this
      ensures options == old(options).(smartFormat := Some(smartFormat))
    {
      options := options.(smartFormat := Some(smartFormat));
    }

    /** `filler_words`: overwrites one field. */
    method SetFillerWords(fillerWords: bool)
      modifies this
      ensures options == old(options).(fillerWords := Some(fillerWords))
    {
      options := options.(fillerWords := Some(fillerWords));
    }

    /** `paragraphs`: overwrites one field. */
    method SetParagraphs(paragraphs: bool)
      modifies this
      ensures options == old(options).(paragraphs := Some(paragraphs))
    {
      options := options.(paragraphs := Some(paragraphs));
    }

    /** `detect_entities`: overwrites one field. */
    method SetDetectEntities(detectEntities: bool)
      modifies this
      ensures options == old(options).(detectEntities := Some(detectEntities))
    {
      options := options.(detectEntities := Some(detectEntities));
    }

    /** `intents`: overwrites one field. */
    method SetIntents(intents: bool)
      modifies this
      ensures options == old(options).(intents := Some(intents))
    {
      options := options.(intents := Some(intents));
    }

    /** `custom_intent_mode`: overwrites one field. */
    method SetCustomIntentMode(mode: CustomMode)
      modifies this
      ensures options == old(options).(customIntentMode := Some(mode))
    {
      options := options.(customIntentMode := Some(mode));
    }

    /** `sentiment`: overwrites one field. */
    method SetSentiment(sentiment: bool)
      modifies this
      ensures options == old(options).(sentiment := Some(sentiment))
    {
      options := options.(sentiment := Some(sentiment));
    }

    /** `topics`: overwrites one field. */
    method SetTopics(topics: bool)
      modifies this
      ensures options == old(options).(topics := Some(topics))
    {
      options := options.(topics := Some(topics));
    }

    /** `custom_topic_mode`: overwrites one field. */
    method SetCustomTopicMode(mode: CustomMode)
      modifies this
      ensures options == old(options).(customTopicMode := Some(mode))
    {
      options := options.(customTopicMode := Some(mode));
    }

    /** `summarize`: overwrites one field. */
    method SetSummarize(summarize: bool)
      modifies this
      ensures options == old(options).(summarize := Some(summarize))
    {
      options := options.(summarize := Some(summarize));
    }

    /** `dictation`: overwrites one field. */
    method SetDictation(dictation: bool)
      modifies this
      ensures options == old(options).(dictation := Some(dictation))
    {
      options := options.(dictation := Some(dictation));
    }

    /** `measurements`: overwrites one field. */
    method SetMeasurements(measurements: bool)
      modifies this
      ensures options == old(options).(measurements := Some(measurements))
    {
      options := options.(measurements := Some(measurements));
    }

    /** `extra`: overwrites one field. */
    method SetExtra(extra: seq<Pair>)
      modifies this
      ensures options == old(options).(extra := Some(extra))
    {
      options := options.(extra := Some(extra));
    }

    /** `callback_method`: overwrites one field. */
    method SetCallbackMethod(callbackMethod: CallbackMethod)
      modifies this
      ensures options == old(options).(callbackMethod := Some(callbackMethod))
    {
      options := options.(callbackMethod := Some(callbackMethod));
    }

    /** `redact`: appends to the list already set. */
    method AddRedact(redact: seq<Redact>)
      modifies this
      ensures options == old(options).(redact := old(options).redact + redact)
    {
      options := options.(redact := options.redact + redact);
    }

    /** `search`: appends to the list already set. */
    method AddSearch(search: seq<string>)
      modifies this
      ensures options == old(options).(search := old(options).search + search)
    {
      options := options.(search := options.search + search);
    }

    /** `replace`: appends to the list already set. */
    method AddReplace(replace: seq<Replace>)
      modifies this
      ensures options == old(options).(replace := old(options).replace + replace)
    {
      options := options.(replace := options.replace + replace);
    }

    /** `keywords`: appends to the list already set. */
    method AddKeywords(keywords: seq<string>)
      modifies this
      ensures options == old(options).(keywords := old(options).keywords + PlainKeywords(keywords))
    {
      options := options.(keywords := options.keywords + PlainKeywords(keywords));
    }

    /** `keywords_with_intensifiers`: appends to the list already set. */
    method KeywordsWithIntensifiers(keywords: seq<Keyword>)
      modifies this
      ensures options == old(options).(keywords := old(options).keywords + keywords)
    {
      options := options.(keywords := options.keywords + keywords);
    }

    /** `tag`: appends to the list already set. */
    method AddTag(tag: seq<string>)
      modifies this
      ensures options == old(options).(tags := old(options).tags + tag)
    {
      options := options.(tags := options.tags + tag);
    }

    /** `query_params`: appends to the list already set. */
    method AddQueryParams(params: seq<Pair>)
      modifies this
      ensures options == old(options).(queryParams := old(options).queryParams + params)
    {
      options := options.(queryParams := options.queryParams + params);
    }

    /** `custom_intents`: appends to the list already set. */
    method AddCustomIntents(intents: seq<string>)
      modifies this
      ensures options == old(options).(customIntents := old(options).customIntents + intents)
    {
      options := options.(customIntents := options.customIntents + intents);
    }

    /** `custom_topics`: appends to the list already set. */
    method AddCustomTopics(topics: seq<string>)
      modifies this
      ensures options == old(options).(customTopics := old(options).customTopics + topics)
    {
      options := options.(customTopics := options.customTopics + topics);
    }

    /** `build`. */
    method Build() returns (o: Options)
      ensures o == options
    {
      o := options;
    }
  }

  /** Keyword lists without intensifiers concatenate like the names they come from. */
  lemma {:induction false} PlainKeywordsAppend(xs: seq<string>, ys: seq<string>)
    ensures PlainKeywords(xs + ys) == PlainKeywords(xs) + PlainKeywords(ys)
    decreases |xs|
  {
    if xs == [] {
      assert xs + ys == ys;
    } else {
      assert (xs + ys)[1..] == xs[1..] + ys;
      PlainKeywordsAppend(xs[1..], ys);
    }
  }

  /** With per-channel models set, the head group does not read `model`. */
  lemma HeadIgnoresShadowedModel(o: Options, m: Option<Model>)
    requires ChannelModels(o)
    ensures HeadPairs(o.(model := m)) == HeadPairs(o)
  {
    assert ModelSection(o.(model := m)) == ModelSection(o);
  }

  /** With per-channel models set, the request does not depend on `model`. */
  lemma PairsIgnoreShadowedModel(o: Options, m: Option<Model>)
    requires ChannelModels(o)
    ensures Pairs(o.(model := m)) == Pairs(o)
  {
    HeadIgnoresShadowedModel(o, m);
    var o' := o.(model := m);
    assert ListPairs(o') == ListPairs(o);
    assert TailPairs(o') == TailPairs(o);
  }

  /** The pairs of the `urlencoded` example. */
  lemma ExamplePairs()
    ensures Pairs(Unset.(model := Some(Nova2), detectLanguage := Some(DetectEnabled)))
         == [("model", "nova-2"), ("detect_language", "true")]
  {
    var o := Unset.(model := Some(Nova2), detectLanguage := Some(DetectEnabled));
    assert ModelSection(o) == [("model", "nova-2")];
    assert DetectLanguageSection(o) == [("detect_language", "true")];
    assert HeadPairs(o) == [("model", "nova-2"), ("detect_language", "true")];
    assert ListPairs(o) == [];
    assert TailPairs(o) == [];
  }

  lemma ExampleText()
    ensures Urlencoded([("model", "nova-2"), ("detect_language", "true")]) == "model=nova-2&detect_language=true"
  {
    ExampleLiteral();
    PlainText2("model", "nova-2", "detect_language", "true", "model" + "=" + "nova-2" + "&" + "detect_language" + "=" + "true");
  }

  lemma ExampleLiteral()
    ensures "model" + "=" + "nova-2" + "&" + "detect_language" + "=" + "true" == "model=nova-2&detect_language=true"
  {
  }

  // The builder's documented behaviour, as methods that build fresh options.

  /** `Options::default()` is what a fresh builder builds, and it sends nothing. */
  method DefaultOptions() returns (o: Options)
    ensures o == Unset
    ensures Pairs(o) == []
  {
    var b := new OptionsBuilder();
    o := b.Build();
    UnsetSendsNothing();
  }

  /** `multichannel(true)` after `multichannel_with_models` forgets the models. */
  method MultichannelDiscardsModels(m: Model, ms: seq<Model>) returns (o1: Options, o2: Options)
    ensures o1 == o2
    ensures o1.multichannel == Some(MultichannelEnabled)
  {
    var b1 := new OptionsBuilder();
    b1.SetModel(m);
    b1.MultichannelWithModels(ms);
    b1.SetMultichannel(true);
    o1 := b1.Build();
    var b2 := new OptionsBuilder();
    b2.SetModel(m);
    b2.SetMultichannel(true);
    o2 := b2.Build();
  }

  /**
   * A model set before per-channel models makes different options but the
   * same request as leaving it out.
   */
  method ChannelModelsHideModel(m: Model, ms: seq<Model>) returns (o1: Options, o2: Options)
    ensures o1 != o2
    ensures Pairs(o1) == Pairs(o2)
  {
    var b1 := new OptionsBuilder();
    b1.SetModel(m);
    b1.MultichannelWithModels(ms);
    o1 := b1.Build();
    var b2 := new OptionsBuilder();
    b2.MultichannelWithModels(ms);
    o2 := b2.Build();
    assert o1.model != o2.model;
    assert o1 == o2.(model := Some(m));
    PairsIgnoreShadowedModel(o2, Some(m));
  }

  /** Two `multichannel_with_models` calls equal one with both lists. */
  method ChannelModelsAppend(ms1: seq<Model>, ms2: seq<Model>) returns (o1: Options, o2: Options)
    ensures o1 == o2
    ensures o1.multichannel == Some(ModelPerChannel(Some(ms1 + ms2)))
  {
    var b1 := new OptionsBuilder();
    b1.MultichannelWithModels(ms1);
    b1.MultichannelWithModels(ms2);
    o1 := b1.Build();
    var b2 := new OptionsBuilder();
    b2.MultichannelWithModels(ms1 + ms2);
    o2 := b2.Build();
  }

  /** Two `keywords` calls equal one with both lists. */
  method KeywordsAppend(xs: seq<string>, ys: seq<string>) returns (o1: Options, o2: Options)
    ensures o1 == o2
    ensures o1 == Unset.(keywords := PlainKeywords(xs + ys))
  {
    var b1 := new OptionsBuilder();
    b1.AddKeywords(xs);
    b1.AddKeywords(ys);
    o1 := b1.Build();
    var b2 := new OptionsBuilder();
    b2.AddKeywords(xs + ys);
    o2 := b2.Build();
    PlainKeywordsAppend(xs, ys);
    EmptyLeft(PlainKeywords(xs));
    EmptyLeft(PlainKeywords(xs + ys));
  }

  /** Two `redact` calls equal one with both lists. */
  method RedactAppend(xs: seq<Redact>, ys: seq<Redact>) returns (o1: Options, o2: Options)
    ensures o1 == o2
    ensures o1 == Unset.(redact := xs + ys)
  {
    var b1 := new OptionsBuilder();
    b1.AddRedact(xs);
    b1.AddRedact(ys);
    o1 := b1.Build();
    var b2 := new OptionsBuilder();
    b2.AddRedact(xs + ys);
    o2 := b2.Build();
  }

  /** Two `search` calls equal one with both lists. */
  method SearchAppend(xs: seq<string>, ys: seq<string>) returns (o1: Options, o2: Options)
    ensures o1 == o2
    ensures o1 == Unset.(search := xs + ys)
  {
    var b1 := new OptionsBuilder();
    b1.AddSearch(xs);
    b1.AddSearch(ys);
    o1 := b1.Build();
    var b2 := new OptionsBuilder();
    b2.AddSearch(xs + ys);
    o2 := b2.Build();
  }

  /** Two `replace` calls equal one with both lists. */
  method ReplaceAppend(xs: seq<Replace>, ys: seq<Replace>) returns (o1: Options, o2: Options)
    ensures o1 == o2
    ensures o1 == Unset.(replace := xs + ys)
  {
    var b1 := new OptionsBuilder();
    b1.AddReplace(xs);
    b1.AddReplace(ys);
    o1 := b1.Build();
    var b2 := new OptionsBuilder();
    b2.AddReplace(xs + ys);
    o2 := b2.Build();
  }

  /** Two `keywords_with_intensifiers` calls equal one with both lists. */
  method KeywordsWithIntensifiersAppend(xs: seq<Keyword>, ys: seq<Keyword>) returns (o1: Options, o2: Options)
    ensures o1 == o2
    ensures o1 == Unset.(keywords := xs + ys)
  {
    var b1 := new OptionsBuilder();
    b1.KeywordsWithIntensifiers(xs);
    b1.KeywordsWithIntensifiers(ys);
    o1 := b1.Build();
    var b2 := new OptionsBuilder();
    b2.KeywordsWithIntensifiers(xs + ys);
    o2 := b2.Build();
  }

  /** Two `tag` calls equal one with both lists. */
  method TagAppend(xs: seq<string>, ys: seq<string>) returns (o1: Options, o2: Options)
    ensures o1 == o2
    ensures o1 == Unset.(tags := xs + ys)
  {
    var b1 := new OptionsBuilder();
    b1.AddTag(xs);
    b1.AddTag(ys);
    o1 := b1.Build();
    var b2 := new OptionsBuilder();
    b2.AddTag(xs + ys);
    o2 := b2.Build();
  }

  /** Two `query_params` calls equal one with both lists. */
  method QueryParamsAppend(xs: seq<Pair>, ys: seq<Pair>) returns (o1: Options, o2: Options)
    ensures o1 == o2
    ensures o1 == Unset.(queryParams := xs + ys)
  {
    var b1 := new OptionsBuilder();
    b1.AddQueryParams(xs);
    b1.AddQueryParams(ys);
    o1 := b1.Build();
    var b2 := new OptionsBuilder();
    b2.AddQueryParams(xs + ys);
    o2 := b2.Build();
  }

  /** Two `custom_intents` calls equal one with both lists. */
  method CustomIntentsAppend(xs: seq<string>, ys: seq<string>) returns (o1: Options, o2: Options)
    ensures o1 == o2
    ensures o1 == Unset.(customIntents := xs + ys)
  {
    var b1 := new OptionsBuilder();
    b1.AddCustomIntents(xs);
    b1.AddCustomIntents(ys);
    o1 := b1.Build();
    var b2 := new OptionsBuilder();
    b2.AddCustomIntents(xs + ys);
    o2 := b2.Build();
  }

  /** Two `custom_topics` calls equal one with both lists. */
  method CustomTopicsAppend(xs: seq<string>, ys: seq<string>) returns (o1: Options, o2: Options)
    ensures o1 == o2
    ensures o1 == Unset.(customTopics := xs + ys)
  {
    var b1 := new OptionsBuilder();
    b1.AddCustomTopics(xs);
    b1.AddCustomTopics(ys);
    o1 := b1.Build();
    var b2 := new OptionsBuilder();
    b2.AddCustomTopics(xs + ys);
    o2 := b2.Build();
  }

  /** The `urlencoded` example: a model and language detection. */
  method UrlencodedExample() returns (q: string)
    ensures q == "model=nova-2&detect_language=true"
  {
    var b := new OptionsBuilder();
    b.SetModel(Nova2);
    b.SetDetectLanguage(DetectEnabled);
    var o := b.Build();
    var ps := Serialize(o);
    assert o == Unset.(model := Some(Nova2), detectLanguage := Some(DetectEnabled));
    ExamplePairs();
    ExampleText();
    q := Urlencoded(ps);
  }
}
