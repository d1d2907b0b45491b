// The options of a usage-summary request (src/manage/usage/get_usage_options.rs):
// a date range, an accessor, three lists and thirteen feature flags, each flag
// sent as "true" or "false" when set.
module UsageOptions {
  import opened Wrappers
  import opened Query

  /** The processing method a usage summary can be restricted to. */
  datatype Method = Sync | Async | Streaming

  /** `Method::as_ref`. */
  function MethodName(m: Method): (s: string)
    ensures s in ["sync", "async", "streaming"]
    ensures m == Streaming <==> s == "streaming"
  {
    match m
    case Sync => "sync"
    case Async => "async"
    case Streaming => "streaming"
  }

  /** Each method has its own name. */
  lemma MethodNameInjective(a: Method, b: Method)
    requires MethodName(a) == MethodName(b)
    ensures a == b
  {
  }

  /** The builder's fields. */
  datatype Options = Options(
    start: Option<string>,
    end: Option<string>,
    accessor: Option<string>,
    tags: seq<string>,
    methods: seq<Method>,
    models: seq<string>,
    multichannel: Option<bool>,
    interimResults: Option<bool>,
    punctuate: Option<bool>,
    ner: Option<bool>,
    utterances: Option<bool>,
    replace: Option<bool>,
    profanityFilter: Option<bool>,
    keywords: Option<bool>,
    diarize: Option<bool>,
    search: Option<bool>,
    redact: Option<bool>,
    alternatives: Option<bool>,
    numerals: Option<bool>)

  /** What `OptionsBuilder::new` starts from: nothing set, every list empty. */
  const Initial: Options := Options(start := None, end := None, accessor := None, tags := [], methods := [], models := [], multichannel := None, interimResults := None, punctuate := None, ner := None, utterances := None, replace := None, profanityFilter := None, keywords := None, diarize := None, search := None, redact := None, alternatives := None, numerals := None)

  /** The replace flag, once. */
  function ReplacePair(o: Options): seq<Pair>
  {
    IfSome("replace", MapOpt(BoolString, o.replace))
  }

  lemma ReplacePairSilent(o: Options, k: string)
    requires k != "replace"
    ensures Values(ReplacePair(o), k) == []
  {
    ValuesIfSome("replace", MapOpt(BoolString, o.replace), k);
  }

  /** The flags sent before replace. */
  function FlagsFront(o: Options): seq<Pair>
  {
    IfSome("multichannel", MapOpt(BoolString, o.multichannel))
    + IfSome("interim_results", MapOpt(BoolString, o.interimResults))
    + IfSome("punctuate", MapOpt(BoolString, o.punctuate))
    + IfSome("ner", MapOpt(BoolString, o.ner))
    + IfSome("utterances", MapOpt(BoolString, o.utterances))
  }

  /** The flags sent after replace. */
  function FlagsBack(o: Options): seq<Pair>
  {
    IfSome("profanity_filter", MapOpt(BoolString, o.profanityFilter))
    + IfSome("keywords", MapOpt(BoolString, o.keywords))
    + IfSome("diarize", MapOpt(BoolString, o.diarize))
    + IfSome("search", MapOpt(BoolString, o.search))
    + IfSome("redact", MapOpt(BoolString, o.redact))
    + IfSome("alternatives", MapOpt(BoolString, o.alternatives))
    + IfSome("numerals", MapOpt(BoolString, o.numerals))
  }

  /** None of the keys of this group is `k`. */
  lemma FlagsFrontSilent(o: Options, k: string)
    requires k != "multichannel" && k != "interim_results" && k != "punctuate" && k != "ner" && k != "utterances"
    ensures Values(FlagsFront(o), k) == []
  {
    var p := IfSome("multichannel", MapOpt(BoolString, o.multichannel));
    ValuesIfSome("multichannel", MapOpt(BoolString, o.multichannel), k);
    ValuesIfSome("interim_results", MapOpt(BoolString, o.interimResults), k);
    ValuesDropRight(p, IfSome("interim_results", MapOpt(BoolString, o.interimResults)), k);
    p := p + IfSome("interim_results", MapOpt(BoolString, o.interimResults));
    ValuesIfSome("punctuate", MapOpt(BoolString, o.punctuate), k);
    ValuesDropRight(p, IfSome("punctuate", MapOpt(BoolString, o.punctuate)), k);
    p := p + IfSome("punctuate", MapOpt(BoolString, o.punctuate));
    ValuesIfSome("ner", MapOpt(BoolString, o.ner), k);
    ValuesDropRight(p, IfSome("ner", MapOpt(BoolString, o.ner)), k);
    p := p + IfSome("ner", MapOpt(BoolString, o.ner));
    ValuesIfSome("utterances", MapOpt(BoolString, o.utterances), k);
    ValuesDropRight(p, IfSome("utterances", MapOpt(BoolString, o.utterances)), k);
    p := p + IfSome("utterances", MapOpt(BoolString, o.utterances));
  }

  /** None of the keys of this group is `k`. */
  lemma FlagsBackSilent(o: Options, k: string)
    requires k != "profanity_filter" && k != "keywords" && k != "diarize" && k != "search" && k != "redact" && k != "alternatives" && k != "numerals"
    ensures Values(FlagsBack(o), k) == []
  {
    var p := IfSome("profanity_filter", MapOpt(BoolString, o.profanityFilter));
    ValuesIfSome("profanity_filter", MapOpt(BoolString, o.profanityFilter), k);
    ValuesIfSome("keywords", MapOpt(BoolString, o.keywords), k);
    ValuesDropRight(p, IfSome("keywords", MapOpt(BoolString, o.keywords)), k);
    p := p + IfSome("keywords", MapOpt(BoolString, o.keywords));
    ValuesIfSome("diarize", MapOpt(BoolString, o.diarize), k);
    ValuesDropRight(p, IfSome("diarize", MapOpt(BoolString, o.diarize)), k);
    p := p + IfSome("diarize", MapOpt(BoolString, o.diarize));
    ValuesIfSome("search", MapOpt(BoolString, o.search), k);
    ValuesDropRight(p, IfSome("search", MapOpt(BoolString, o.search)), k);
    p := p + IfSome("search", MapOpt(BoolString, o.search));
    ValuesIfSome("redact", MapOpt(BoolString, o.redact), k);
    ValuesDropRight(p, IfSome("redact", MapOpt(BoolString, o.redact)), k);
    p := p + IfSome("redact", MapOpt(BoolString, o.redact));
    ValuesIfSome("alternatives", MapOpt(BoolString, o.alternatives), k);
    ValuesDropRight(p, IfSome("alternatives", MapOpt(BoolString, o.alternatives)), k);
    p := p + IfSome("alternatives", MapOpt(BoolString, o.alternatives));
    ValuesIfSome("numerals", MapOpt(BoolString, o.numerals), k);
    ValuesDropRight(p, IfSome("numerals", MapOpt(BoolString, o.numerals)), k);
    p := p + IfSome("numerals", MapOpt(BoolString, o.numerals));
  }

  /** The time range, the accessor and the three lists. */
  function Head(o: Options): seq<Pair>
  {
    IfSome("start", o.start)
    + IfSome("end", o.end)
    + IfSome("accessor", o.accessor)
    + Repeat("tag", o.tags)
    + Repeat("method", Map(MethodName, o.methods))
    + Repeat("model", o.models)
  }

  /** The feature flags, with replace sent once. */
  function Flags(o: Options): seq<Pair>
  {
    FlagsFront(o)
    + ReplacePair(o)
    + FlagsBack(o)
  }

  /** The serialised pairs, in the order the serialiser emits them. */
  function Pairs(o: Options): seq<Pair>
  {
    Head(o) + Flags(o)
  }

  lemma PairsValues(o: Options, k: string)
    ensures Values(Pairs(o), k) == Values(Head(o), k) + Values(Flags(o), k)
  {
    ValuesAppend(Head(o), Flags(o), k);
  }

  /** None of the keys of this group is `k`. */
  lemma HeadSilent(o: Options, k: string)
    requires k != "start" && k != "end" && k != "accessor" && k != "tag" && k != "method" && k != "model"
    ensures Values(Head(o), k) == []
  {
    var p := IfSome("start", o.start);
    ValuesIfSome("start", o.start, k);
    ValuesIfSome("end", o.end, k);
    ValuesDropRight(p, IfSome("end", o.end), k);
    p := p + IfSome("end", o.end);
    ValuesIfSome("accessor", o.accessor, k);
    ValuesDropRight(p, IfSome("accessor", o.accessor), k);
    p := p + IfSome("accessor", o.accessor);
    RepeatValues("tag", o.tags, k);
    ValuesDropRight(p, Repeat("tag", o.tags), k);
    p := p + Repeat("tag", o.tags);
    RepeatValues("method", Map(MethodName, o.methods), k);
    ValuesDropRight(p, Repeat("method", Map(MethodName, o.methods)), k);
    p := p + Repeat("method", Map(MethodName, o.methods));
    RepeatValues("model", o.models, k);
    ValuesDropRight(p, Repeat("model", o.models), k);
    p := p + Repeat("model", o.models);
  }

  /** None of the keys of this group is `k`. */
  lemma FlagsSilent(o: Options, k: string)
    requires k != "multichannel" && k != "interim_results" && k != "punctuate" && k != "ner" && k != "utterances" && k != "replace" && k != "profanity_filter" && k != "keywords" && k != "diarize" && k != "search" && k != "redact" && k != "alternatives" && k != "numerals"
    ensures Values(Flags(o), k) == []
  {
    var p := FlagsFront(o);
    FlagsFrontSilent(o, k);
    ReplacePairSilent(o, k);
    ValuesDropRight(p, ReplacePair(o), k);
    p := p + ReplacePair(o);
    FlagsBackSilent(o, k);
    ValuesDropRight(p, FlagsBack(o), k);
    p := p + FlagsBack(o);
  }

  lemma HeadValuesStart(o: Options)
    ensures Values(Head(o), "start") == Values(IfSome("start", o.start), "start")
  {
    var p := IfSome("start", o.start);
    ValuesIfSome("end", o.end, "start");
    ValuesDropRight(p, IfSome("end", o.end), "start");
    p := p + IfSome("end", o.end);
    ValuesIfSome("accessor", o.accessor, "start");
    ValuesDropRight(p, IfSome("accessor", o.accessor), "start");
    p := p + IfSome("accessor", o.accessor);
    RepeatValues("tag", o.tags, "start");
    ValuesDropRight(p, Repeat("tag", o.tags), "start");
    p := p + Repeat("tag", o.tags);
    RepeatValues("method", Map(MethodName, o.methods), "start");
    ValuesDropRight(p, Repeat("method", Map(MethodName, o.methods)), "start");
    p := p + Repeat("method", Map(MethodName, o.methods));
    RepeatValues("model", o.models, "start");
    ValuesDropRight(p, Repeat("model", o.models), "start");
    p := p + Repeat("model", o.models);
  }

  lemma ProjectStart(o: Options)
    ensures Values(Pairs(o), "start") == Values(IfSome("start", o.start), "start")
  {
    HeadValuesStart(o);
    FlagsSilent(o, "start");
    PairsValues(o, "start");
    SpliceLeft(Values(Head(o), "start"), Values(Flags(o), "start"), Values(IfSome("start", o.start), "start"));
  }

  lemma HeadValuesEnd(o: Options)
    ensures Values(Head(o), "end") == Values(IfSome("end", o.end), "end")
  {
    var p := IfSome("start", o.start);
    ValuesIfSome("start", o.start, "end");
    ValuesDropLeft(p, IfSome("end", o.end), "end");
    p := p + IfSome("end", o.end);
    ValuesIfSome("accessor", o.accessor, "end");
    ValuesDropRight(p, IfSome("accessor", o.accessor), "end");
    p := p + IfSome("accessor", o.accessor);
    RepeatValues("tag", o.tags, "end");
    ValuesDropRight(p, Repeat("tag", o.tags), "end");
    p := p + Repeat("tag", o.tags);
    RepeatValues("method", Map(MethodName, o.methods), "end");
    ValuesDropRight(p, Repeat("method", Map(MethodName, o.methods)), "end");
    p := p + Repeat("method", Map(MethodName, o.methods));
    RepeatValues("model", o.models, "end");
    ValuesDropRight(p, Repeat("model", o.models), "end");
    p := p + Repeat("model", o.models);
  }

  lemma ProjectEnd(o: Options)
    ensures Values(Pairs(o), "end") == Values(IfSome("end", o.end), "end")
  {
    HeadValuesEnd(o);
    FlagsSilent(o, "end");
    PairsValues(o, "end");
    SpliceLeft(Values(Head(o), "end"), Values(Flags(o), "end"), Values(IfSome("end", o.end), "end"));
  }

  lemma HeadValuesAccessor(o: Options)
    ensures Values(Head(o), "accessor") == Values(IfSome("accessor", o.accessor), "accessor")
  {
    var p := IfSome("start", o.start);
    ValuesIfSome("start", o.start, "accessor");
    ValuesIfSome("end", o.end, "accessor");
    ValuesDropRight(p, IfSome("end", o.end), "accessor");
    p := p + IfSome("end", o.end);
    ValuesDropLeft(p, IfSome("accessor", o.accessor), "accessor");
    p := p + IfSome("accessor", o.accessor);
    RepeatValues("tag", o.tags, "accessor");
    ValuesDropRight(p, Repeat("tag", o.tags), "accessor");
    p := p + Repeat("tag", o.tags);
    RepeatValues("method", Map(MethodName, o.methods), "accessor");
    ValuesDropRight(p, Repeat("method", Map(MethodName, o.methods)), "accessor");
    p := p + Repeat("method", Map(MethodName, o.methods));
    RepeatValues("model", o.models, "accessor");
    ValuesDropRight(p, Repeat("model", o.models), "accessor");
    p := p + Repeat("model", o.models);
  }

  lemma ProjectAccessor(o: Options)
    ensures Values(Pairs(o), "accessor") == Values(IfSome("accessor", o.accessor), "accessor")
  {
    HeadValuesAccessor(o);
    FlagsSilent(o, "accessor");
    PairsValues(o, "accessor");
    SpliceLeft(Values(Head(o), "accessor"), Values(Flags(o), "accessor"), Values(IfSome("accessor", o.accessor), "accessor"));
  }

  lemma HeadValuesTag(o: Options)
    ensures Values(Head(o), "tag") == Values(Repeat("tag", o.tags), "tag")
  {
    var p := IfSome("start", o.start);
    ValuesIfSome("start", o.start, "tag");
    ValuesIfSome("end", o.end, "tag");
    ValuesDropRight(p, IfSome("end", o.end), "tag");
    p := p + IfSome("end", o.end);
    ValuesIfSome("accessor", o.accessor, "tag");
    ValuesDropRight(p, IfSome("accessor", o.accessor), "tag");
    p := p + IfSome("accessor", o.accessor);
    ValuesDropLeft(p, Repeat("tag", o.tags), "tag");
    p := p + Repeat("tag", o.tags);
    RepeatValues("method", Map(MethodName, o.methods), "tag");
    ValuesDropRight(p, Repeat("method", Map(MethodName, o.methods)), "tag");
    p := p + Repeat("method", Map(MethodName, o.methods));
    RepeatValues("model", o.models, "tag");
    ValuesDropRight(p, Repeat("model", o.models), "tag");
    p := p + Repeat("model", o.models);
  }

  lemma ProjectTag(o: Options)
    ensures Values(Pairs(o), "tag") == Values(Repeat("tag", o.tags), "tag")
  {
    HeadValuesTag(o);
    FlagsSilent(o, "tag");
    PairsValues(o, "tag");
    SpliceLeft(Values(Head(o), "tag"), Values(Flags(o), "tag"), Values(Repeat("tag", o.tags), "tag"));
  }

  lemma HeadValuesMethod(o: Options)
    ensures Values(Head(o), "method") == Values(Repeat("method", Map(MethodName, o.methods)), "method")
  {
    var p := IfSome("start", o.start);
    ValuesIfSome("start", o.start, "method");
    ValuesIfSome("end", o.end, "method");
    ValuesDropRight(p, IfSome("end", o.end), "method");
    p := p + IfSome("end", o.end);
    ValuesIfSome("accessor", o.accessor, "method");
    ValuesDropRight(p, IfSome("accessor", o.accessor), "method");
    p := p + IfSome("accessor", o.accessor);
    RepeatValues("tag", o.tags, "method");
    ValuesDropRight(p, Repeat("tag", o.tags), "method");
    p := p + Repeat("tag", o.tags);
    ValuesDropLeft(p, Repeat("method", Map(MethodName, o.methods)), "method");
    p := p + Repeat("method", Map(MethodName, o.methods));
    RepeatValues("model", o.models, "method");
    ValuesDropRight(p, Repeat("model", o.models), "method");
    p := p + Repeat("model", o.models);
  }

  lemma ProjectMethod(o: Options)
    ensures Values(Pairs(o), "method") == Values(Repeat("method", Map(MethodName, o.methods)), "method")
  {
    HeadValuesMethod(o);
    FlagsSilent(o, "method");
    PairsValues(o, "method");
    SpliceLeft(Values(Head(o), "method"), Values(Flags(o), "method"), Values(Repeat("method", Map(MethodName, o.methods)), "method"));
  }

  lemma HeadValuesModel(o: Options)
    ensures Values(Head(o), "model") == Values(Repeat("model", o.models), "model")
  {
    var p := IfSome("start", o.start);
    ValuesIfSome("start", o.start, "model");
    ValuesIfSome("end", o.end, "model");
    ValuesDropRight(p, IfSome("end", o.end), "model");
    p := p + IfSome("end", o.end);
    ValuesIfSome("accessor", o.accessor, "model");
    ValuesDropRight(p, IfSome("accessor", o.accessor), "model");
    p := p + IfSome("accessor", o.accessor);
    RepeatValues("tag", o.tags, "model");
    ValuesDropRight(p, Repeat("tag", o.tags), "model");
    p := p + Repeat("tag", o.tags);
    RepeatValues("method", Map(MethodName, o.methods), "model");
    ValuesDropRight(p, Repeat("method", Map(MethodName, o.methods)), "model");
    p := p + Repeat("method", Map(MethodName, o.methods));
    ValuesDropLeft(p, Repeat("model", o.models), "model");
    p := p + Repeat("model", o.models);
  }

  lemma ProjectModel(o: Options)
    ensures Values(Pairs(o), "model") == Values(Repeat("model", o.models), "model")
  {
    HeadValuesModel(o);
    FlagsSilent(o, "model");
    PairsValues(o, "model");
    SpliceLeft(Values(Head(o), "model"), Values(Flags(o), "model"), Values(Repeat("model", o.models), "model"));
  }

  lemma FlagsValuesReplace(o: Options)
    ensures Values(Flags(o), "replace") == Values(ReplacePair(o), "replace")
  {
    var p := FlagsFront(o);
    FlagsFrontSilent(o, "replace");
    ValuesDropLeft(p, ReplacePair(o), "replace");
    p := p + ReplacePair(o);
    FlagsBackSilent(o, "replace");
    ValuesDropRight(p, FlagsBack(o), "replace");
    p := p + FlagsBack(o);
  }

  lemma ProjectReplace(o: Options)
    ensures Values(Pairs(o), "replace") == Values(ReplacePair(o), "replace")
  {
    FlagsValuesReplace(o);
    HeadSilent(o, "replace");
    PairsValues(o, "replace");
    SpliceRight(Values(Head(o), "replace"), Values(Flags(o), "replace"), Values(ReplacePair(o), "replace"));
  }

  /** The flags as the serialiser emits them: replace is sent twice. */
  function FlagsAsWritten(o: Options): seq<Pair>
  {
    FlagsFront(o) + ReplacePair(o) + ReplacePair(o) + FlagsBack(o)
  }

  /** The pairs as the serialiser emits them. */
  function PairsAsWritten(o: Options): seq<Pair>
  {
    Head(o) + FlagsAsWritten(o)
  }

  /** `Serialize for SerializableOptions`, field by field in the same order, with its two identical replace blocks. */
  method Serialize(o: Options) returns (ps: seq<Pair>)
    ensures ps == PairsAsWritten(o)
  {
    ps := IfSome("start", o.start);
    ps := ps + IfSome("end", o.end);
    ps := ps + IfSome("accessor", o.accessor);
    MapIdentity(o.tags);
    ps := PushEach(ps, "tag", o.tags, Identity);
    ps := PushEach(ps, "method", o.methods, MethodName);
    MapIdentity(o.models);
    ps := PushEach(ps, "model", o.models, Identity);
    var front := IfSome("multichannel", MapOpt(BoolString, o.multichannel));
    front := front + IfSome("interim_results", MapOpt(BoolString, o.interimResults));
    front := front + IfSome("punctuate", MapOpt(BoolString, o.punctuate));
    front := front + IfSome("ner", MapOpt(BoolString, o.ner));
    front := front + IfSome("utterances", MapOpt(BoolString, o.utterances));
    var back := IfSome("profanity_filter", MapOpt(BoolString, o.profanityFilter));
    back := back + IfSome("keywords", MapOpt(BoolString, o.keywords));
    back := back + IfSome("diarize", MapOpt(BoolString, o.diarize));
    back := back + IfSome("search", MapOpt(BoolString, o.search));
    back := back + IfSome("redact", MapOpt(BoolString, o.redact));
    back := back + IfSome("alternatives", MapOpt(BoolString, o.alternatives));
    back := back + IfSome("numerals", MapOpt(BoolString, o.numerals));
    var replace := IfSome("replace", MapOpt(BoolString, o.replace));
    ps := ps + (front + replace + replace + back);
  }

  // What the request carries.

  /** The range bounds and the accessor are each sent once, exactly when set. */
  lemma RangeValues(o: Options)
    ensures Values(Pairs(o), "start") == if o.start.Some? then [o.start.value] else []
    ensures Values(Pairs(o), "end") == if o.end.Some? then [o.end.value] else []
    ensures Values(Pairs(o), "accessor") == if o.accessor.Some? then [o.accessor.value] else []
  {
    ProjectStart(o);
    ValuesIfSome("start", o.start, "start");
    ProjectEnd(o);
    ValuesIfSome("end", o.end, "end");
    ProjectAccessor(o);
    ValuesIfSome("accessor", o.accessor, "accessor");
  }

  /** Each tag, method and model is sent once, in order. */
  lemma ListValues(o: Options)
    ensures Values(Pairs(o), "tag") == o.tags
    ensures Values(Pairs(o), "method") == Map(MethodName, o.methods)
    ensures Values(Pairs(o), "model") == o.models
  {
    ProjectTag(o);
    RepeatValues("tag", o.tags, "tag");
    ProjectMethod(o);
    RepeatValues("method", Map(MethodName, o.methods), "method");
    ProjectModel(o);
    RepeatValues("model", o.models, "model");
  }

  /** With the duplicate removed, replace is sent once when set. */
  lemma ReplaceSentOnce(o: Options)
    ensures Values(Pairs(o), "replace") == if o.replace.Some? then [BoolString(o.replace.value)] else []
  {
    ProjectReplace(o);
    ValuesIfSome("replace", MapOpt(BoolString, o.replace), "replace");
  }

  /** A pair list holding `k` once, repeated between two lists without `k`, holds it twice. */
  lemma ValuesRepeatedSection(f: seq<Pair>, r: seq<Pair>, b: seq<Pair>, k: string, v: string)
    requires Values(f, k) == [] && Values(b, k) == [] && Values(r, k) == [v]
    ensures Values(f + r + r + b, k) == [v, v]
  {
    ValuesDropLeft(f, r, k);
    ValuesAppend(f + r, r, k);
    ValuesDropRight(f + r + r, b, k);
  }

  lemma FlagsReplaceTwice(o: Options)
    requires o.replace.Some?
    ensures Values(FlagsAsWritten(o), "replace") == [BoolString(o.replace.value), BoolString(o.replace.value)]
  {
    ValuesIfSome("replace", MapOpt(BoolString, o.replace), "replace");
    FlagsFrontSilent(o, "replace");
    FlagsBackSilent(o, "replace");
    ValuesRepeatedSection(FlagsFront(o), ReplacePair(o), FlagsBack(o), "replace", BoolString(o.replace.value));
  }

  /** As written, a set replace flag reaches the request twice. */
  lemma ReplaceSentTwice(o: Options)
    requires o.replace.Some?
    ensures Values(PairsAsWritten(o), "replace") == [BoolString(o.replace.value), BoolString(o.replace.value)]
  {
    FlagsReplaceTwice(o);
    HeadSilent(o, "replace");
    ValuesDropLeft(Head(o), FlagsAsWritten(o), "replace");
  }

  /** Every other key reaches the request exactly as with the duplicate removed. */
  lemma AsWrittenOtherKeys(o: Options, k: string)
    requires k != "replace"
    ensures Values(PairsAsWritten(o), k) == Values(Pairs(o), k)
  {
    var r := ReplacePair(o);
    ReplacePairSilent(o, k);
    ValuesDropRight(FlagsFront(o), r, k);
    ValuesDropRight(FlagsFront(o) + r, r, k);
    ValuesAppend(FlagsFront(o) + r + r, FlagsBack(o), k);
    ValuesAppend(FlagsFront(o) + r, FlagsBack(o), k);
    ValuesAppend(Head(o), FlagsAsWritten(o), k);
    ValuesAppend(Head(o), Flags(o), k);
  }

  /** With replace unset the two serialisations coincide. */
  lemma AsWrittenWithoutReplace(o: Options)
    requires o.replace.None?
    ensures PairsAsWritten(o) == Pairs(o)
  {
    assert ReplacePair(o) == [];
    assert FlagsFront(o) + [] == FlagsFront(o);
  }

  /** The smallest request that shows the duplicate. */
  lemma ReplaceExample()
    ensures PairsAsWritten(Initial.(replace := Some(true))) == [("replace", "true"), ("replace", "true")]
    ensures Pairs(Initial.(replace := Some(true))) == [("replace", "true")]
  {
  }

  /** A fresh builder sends nothing. */
  lemma InitialPairs()
    ensures Pairs(Initial) == []
    ensures PairsAsWritten(Initial) == []
  {
  }

  /** `OptionsBuilder`: the builder's fields. */
  class OptionsBuilder {
    var options: Options

    /** `OptionsBuilder::new`. */
    constructor()
      ensures options == Initial
    {
      options := Initial;
    }

    /** `start`: overwrites one field. */
    method SetStart(start: string)
      modifies this
      ensures options == old(options).(start := Some(start))
    {
      options := options.(start := Some(start));
    }

    /** `end`: overwrites one field. */
    method SetEnd(end: string)
      modifies this
      ensures options == old(options).(end := Some(end))
    {
      options := options.(end := Some(end));
    }

    /** `accessor`: overwrites one field. */
    method SetAccessor(accessor: string)
      modifies this
      ensures options == old(options).(accessor := Some(accessor))
    {
      options := options.(accessor := Some(accessor));
    }

    /** `tag`: appends to the list already set. */
    method AddTag(tags: seq<string>)
      modifies this
      ensures options == old(options).(tags := old(options).tags + tags)
    {
      options := options.(tags := options.tags + tags);
    }

    /** `method`: appends to the list already set. */
    method AddMethod(methods: seq<Method>)
      modifies this
      ensures options == old(options).(methods := old(options).methods + methods)
    {
      options := options.(methods := options.methods + methods);
    }

    /** `model`: appends to the list already set. */
    method AddModel(models: seq<string>)
      modifies this
      ensures options == old(options).(models := old(options).models + models)
    {
      options := options.(models := options.models + models);
    }

    /** `multichannel`: overwrites one field. */
    method SetMultichannel(multichannel: bool)
      modifies this
      ensures options == old(options).(multichannel := Some(multichannel))
    {
      options := options.(multichannel := Some(multichannel));
    }

    /** `interim_results`: overwrites one field. */
    method SetInterimResults(interimResults: bool)
      modifies this
      ensures options == old(options).(interimResults := Some(interimResults))
    {
      options := options.(interimResults := Some(interimResults));
    }

    /** `punctuate`: overwrites one field. */
    method SetPunctuate(punctuate: bool)
      modifies this
      ensures options == old(options).(punctuate := Some(punctuate))
    {
      options := options.(punctuate := Some(punctuate));
    }

    /** `ner`: overwrites one field. */
    method SetNer(ner: bool)
      modifies this
      ensures options == old(options).(ner := Some(ner))
    {
      options := options.(ner := Some(ner));
    }

    /** `utterances`: overwrites one field. */
    method SetUtterances(utterances: bool)
      modifies this
      ensures options == old(options).(utterances := Some(utterances))
    {
      options := options.(utterances := Some(utterances));
    }

    /** `replace`: overwrites one field. */
    method SetReplace(replace: bool)
      modifies this
      ensures options == old(options).(replace := Some(replace))
    {
      options := options.(replace := Some(replace));
    }

    /** `profanity_filter`: overwrites one field. */
    method SetProfanityFilter(profanityFilter: bool)
      modifies this
      ensures options == old(options).(profanityFilter := Some(profanityFilter))
    {
      options := options.(profanityFilter := Some(profanityFilter));
    }

    /** `keywords`: overwrites one field. */
    method SetKeywords(keywords: bool)
      modifies this
      ensures options == old(options).(keywords := Some(keywords))
    {
      options := options.(keywords := Some(keywords));
    }

    /** `diarize`: overwrites one field. */
    method SetDiarize(diarize: bool)
      modifies this
      ensures options == old(options).(diarize := Some(diarize))
    {
      options := options.(diarize := Some(diarize));
    }

    /** `search`: overwrites one field. */
    method SetSearch(search: bool)
      modifies this
      ensures options == old(options).(search := Some(search))
    {
      options := options.(search := Some(search));
    }

    /** `redact`: overwrites one field. */
    method SetRedact(redact: bool)
      modifies this
      ensures options == old(options).(redact := Some(redact))
    {
      options := options.(redact := Some(redact));
    }

    /** `alternatives`: overwrites one field. */
    method SetAlternatives(alternatives: bool)
      modifies this
      ensures options == old(options).(alternatives := Some(alternatives))
    {
      options := options.(alternatives := Some(alternatives));
    }

    /** `numerals`: overwrites one field. */
    method SetNumerals(numerals: bool)
      modifies this
      ensures options == old(options).(numerals := Some(numerals))
    {
      options := options.(numerals := Some(numerals));
    }

    /** `build`: the options as set. */
    method Build() returns (o: Options)
      ensures o == options
    {
      o := options;
    }
  }

  // The builder's documented behaviour, as methods that build fresh options.

  /** Two `tag` calls equal one with both lists. */
  method TagAppend(xs: seq<string>, ys: seq<string>) returns (o1: Options, o2: Options)
    ensures o1 == o2
    ensures o1 == Initial.(tags := xs + ys)
  {
    var b1 := new OptionsBuilder();
    b1.AddTag(xs);
    b1.AddTag(ys);
    o1 := b1.Build();
    var b2 := new OptionsBuilder();
    b2.AddTag(xs + ys);
    o2 := b2.Build();
  }

  /** Two `method` calls equal one with both lists. */
  method MethodAppend(xs: seq<Method>, ys: seq<Method>) returns (o1: Options, o2: Options)
    ensures o1 == o2
    ensures o1 == Initial.(methods := xs + ys)
  {
    var b1 := new OptionsBuilder();
    b1.AddMethod(xs);
    b1.AddMethod(ys);
    o1 := b1.Build();
    var b2 := new OptionsBuilder();
    b2.AddMethod(xs + ys);
    o2 := b2.Build();
  }

  /** Two `model` calls equal one with both lists. */
  method ModelAppend(xs: seq<string>, ys: seq<string>) returns (o1: Options, o2: Options)
    ensures o1 == o2
    ensures o1 == Initial.(models := xs + ys)
  {
    var b1 := new OptionsBuilder();
    b1.AddModel(xs);
    b1.AddModel(ys);
    o1 := b1.Build();
    var b2 := new OptionsBuilder();
    b2.AddModel(xs + ys);
    o2 := b2.Build();
  }

  /** A second `start` call replaces the first. */
  method StartOverwrites(a: string, b: string) returns (o1: Options, o2: Options)
    ensures o1 == o2
    ensures o1.start == Some(b)
  {
    var b1 := new OptionsBuilder();
    b1.SetStart(a);
    b1.SetStart(b);
    o1 := b1.Build();
    var b2 := new OptionsBuilder();
    b2.SetStart(b);
    o2 := b2.Build();
  }
}
