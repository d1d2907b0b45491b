// The shared vocabulary of the request options (src/common/options.rs):
// models, languages, redaction kinds, audio encodings and the small enums,
// with their wire names (`as_ref` / `as_str` / `Display`) and the parsing of
// a name back into a value (`From<String>`).
module CommonNames {
  import opened Wrappers
  import opened Query

  /** A transcription model; `CustomId` carries any name the table does not list. */
  datatype Model =
    Nova2 | Nova | Enhanced | Base | Nova2Meeting | Nova2Phonecall | Nova2Finance |
    Nova2Conversationalai | Nova2Voicemail | Nova2Video | Nova2Medical |
    Nova2Drivethru | Nova2Automotive | NovaPhonecall | NovaMedical | EnhancedMeeting |
    EnhancedPhonecall | EnhancedFinance | BaseMeeting | BasePhonecall | BaseVoicemail |
    BaseFinance | BaseConversationalai | BaseVideo | General | Phonecall | Voicemail |
    Finance | Meeting | Conversationalai | Video | CustomId(id: string)

  /** The wire name of a model. */
  function ModelName(m: Model): string
  {
    match m
    case Nova2 => "nova-2"
    case Nova => "nova"
    case Enhanced => "enhanced"
    case Base => "base"
    case Nova2Meeting => "nova-2-meeting"
    case Nova2Phonecall => "nova-2-phonecall"
    case Nova2Finance => "nova-2-finance"
    case Nova2Conversationalai => "nova-2-conversationalai"
    case Nova2Voicemail => "nova-2-voicemail"
    case Nova2Video => "nova-2-video"
    case Nova2Medical => "nova-2-medical"
    case Nova2Drivethru => "nova-2-drivethru"
    case Nova2Automotive => "nova-2-automotive"
    case NovaPhonecall => "nova-phonecall"
    case NovaMedical => "nova-medical"
    case EnhancedMeeting => "enhanced-meeting"
    case EnhancedPhonecall => "enhanced-phonecall"
    case EnhancedFinance => "enhanced-finance"
    case BaseMeeting => "base-meeting"
    case BasePhonecall => "base-phonecall"
    case BaseVoicemail => "base-voicemail"
    case BaseFinance => "base-finance"
    case BaseConversationalai => "base-conversationalai"
    case BaseVideo => "base-video"
    case General => "general"
    case Phonecall => "phonecall"
    case Voicemail => "voicemail"
    case Finance => "finance"
    case Meeting => "meeting"
    case Conversationalai => "conversationalai"
    case Video => "video"
    case CustomId(id) => id
  }

  /**
   * Reads a model name (`From<String>`); the four "-general" aliases name
   * the base models and any other string becomes `CustomId`. The table is
   * the source's, arranged as a decision on the length and on one
   * distinguishing character before the full comparison.
   */
  function ModelFromString(s: string): (m: Model)
    ensures m.CustomId? ==> m.id == s
  {
    if |s| == 4 then (if s == "nova" then Nova else if s == "base" then Base else CustomId(s))
    else if |s| == 5 then (if s == "video" then Video else CustomId(s))
    else if |s| == 6 then (if s == "nova-2" then Nova2 else CustomId(s))
    else if |s| == 7 then (
      if s[0] == 'g' then (if s == "general" then General else CustomId(s))
      else if s[0] == 'f' then (if s == "finance" then Finance else CustomId(s))
      else if s[0] == 'm' then (if s == "meeting" then Meeting else CustomId(s))
      else CustomId(s))
    else if |s| == 8 then (if s == "enhanced" then Enhanced else CustomId(s))
    else if |s| == 9 then (if s == "phonecall" then Phonecall else if s == "voicemail" then Voicemail else CustomId(s))
    else if |s| == 10 then (if s == "base-video" then BaseVideo else CustomId(s))
    else if |s| == 12 then (
      if s[9] == 'r' then (if s == "nova-general" then Nova else if s == "base-general" then Base else CustomId(s))
      else if s[9] == 'd' then (if s == "nova-2-video" then Nova2Video else CustomId(s))
      else if s[9] == 'c' then (if s == "nova-medical" then NovaMedical else CustomId(s))
      else if s[9] == 'i' then (if s == "base-meeting" then BaseMeeting else CustomId(s))
      else if s[9] == 'n' then (if s == "base-finance" then BaseFinance else CustomId(s))
      else CustomId(s))
    else if |s| == 14 then (
      if s[10] == 'e' then (if s == "nova-2-general" then Nova2 else CustomId(s))
      else if s[10] == 't' then (if s == "nova-2-meeting" then Nova2Meeting else CustomId(s))
      else if s[10] == 'a' then (if s == "nova-2-finance" then Nova2Finance else CustomId(s))
      else if s[10] == 'i' then (if s == "nova-2-medical" then Nova2Medical else CustomId(s))
      else if s[10] == 'c' then (if s == "nova-phonecall" then NovaPhonecall else if s == "base-phonecall" then BasePhonecall else CustomId(s))
      else if s[10] == 'm' then (if s == "base-voicemail" then BaseVoicemail else CustomId(s))
      else CustomId(s))
    else if |s| == 16 then (
      if s[10] == 'e' then (if s == "enhanced-general" then Enhanced else if s == "enhanced-meeting" then EnhancedMeeting else CustomId(s))
      else if s[10] == 'n' then (if s == "nova-2-phonecall" then Nova2Phonecall else CustomId(s))
      else if s[10] == 'c' then (if s == "nova-2-voicemail" then Nova2Voicemail else CustomId(s))
      else if s[10] == 'v' then (if s == "nova-2-drivethru" then Nova2Drivethru else CustomId(s))
      else if s[10] == 'i' then (if s == "enhanced-finance" then EnhancedFinance else CustomId(s))
      else if s[10] == 'o' then (if s == "conversationalai" then Conversationalai else CustomId(s))
      else CustomId(s))
    else if |s| == 17 then (if s == "nova-2-automotive" then Nova2Automotive else CustomId(s))
    else if |s| == 18 then (if s == "enhanced-phonecall" then EnhancedPhonecall else CustomId(s))
    else if |s| == 21 then (if s == "base-conversationalai" then BaseConversationalai else CustomId(s))
    else if |s| == 23 then (if s == "nova-2-conversationalai" then Nova2Conversationalai else CustomId(s))
    else CustomId(s)
  }

  /** A language; `Other` carries any BCP-47 tag the table does not list. */
  datatype Language =
    bg | ca | cs | da | de | de_CH | el | en | en_AU | en_GB | en_IN | en_NZ | en_US |
    es | es_419 | es_LATAM | et | fi | fr | fr_CA | hi | hi_Latn | hu | id | it | ja |
    ko | ko_KR | lv | lt | ms | multi | nl | nl_BE | no | pl | pt | pt_BR | ro | ru |
    sk | sv | sv_SE | ta | taq | th | th_TH | tr | uk | vi | zh | zh_CN | zh_Hans |
    zh_Hant | zh_TW | Other(tag: string)

  /** The wire name of a language (`multi` has no arm in the source table; see README). */
  function LanguageName(l: Language): string
  {
    match l
    case bg => "bg"
    case ca => "ca"
    case cs => "cs"
    case da => "da"
    case de => "de"
    case de_CH => "de-CH"
    case el => "el"
    case en => "en"
    case en_AU => "en-AU"
    case en_GB => "en-GB"
    case en_IN => "en-IN"
    case en_NZ => "en-NZ"
    case en_US => "en-US"
    case es => "es"
    case es_419 => "es-419"
    case es_LATAM => "es-LATAM"
    case et => "et"
    case fi => "fi"
    case fr => "fr"
    case fr_CA => "fr-CA"
    case hi => "hi"
    case hi_Latn => "hi-Latn"
    case hu => "hu"
    case id => "id"
    case it => "it"
    case ja => "ja"
    case ko => "ko"
    case ko_KR => "ko-KR"
    case lv => "lv"
    case lt => "lt"
    case ms => "ms"
    case multi => "multi"
    case nl => "nl"
    case nl_BE => "nl-BE"
    case no => "no"
    case pl => "pl"
    case pt => "pt"
    case pt_BR => "pt-BR"
    case ro => "ro"
    case ru => "ru"
    case sk => "sk"
    case sv => "sv"
    case sv_SE => "sv-SE"
    case ta => "ta"
    case taq => "taq"
    case th => "th"
    case th_TH => "th-TH"
    case tr => "tr"
    case uk => "uk"
    case vi => "vi"
    case zh => "zh"
    case zh_CN => "zh-CN"
    case zh_Hans => "zh-Hans"
    case zh_Hant => "zh-Hant"
    case zh_TW => "zh-TW"
    case Other(tag) => tag
  }

  /**
   * Reads a language tag (`From<String>`); any unlisted tag becomes `Other`,
   * and there is no arm for "multi". Arranged like ModelFromString.
   */
  function LanguageFromString(s: string): (l: Language)
    ensures l.Other? ==> l.tag == s
  {
    if |s| == 2 then (
      if s[0] == 'b' then (if s == "bg" then bg else Language.Other(s))
      else if s[0] == 'c' then (if s == "ca" then ca else if s == "cs" then cs else Language.Other(s))
      else if s[0] == 'd' then (if s == "da" then da else if s == "de" then de else Language.Other(s))
      else if s[0] == 'e' then (
        if s[1] == 'l' then (if s == "el" then el else Language.Other(s))
        else if s[1] == 'n' then (if s == "en" then en else Language.Other(s))
        else if s[1] == 's' then (if s == "es" then es else Language.Other(s))
        else if s[1] == 't' then (if s == "et" then et else Language.Other(s))
        else Language.Other(s))
      else if s[0] == 'f' then (if s == "fi" then fi else if s == "fr" then fr else Language.Other(s))
      else if s[0] == 'h' then (if s == "hi" then hi else if s == "hu" then hu else Language.Other(s))
      else if s[0] == 'i' then (if s == "id" then id else if s == "it" then it else Language.Other(s))
      else if s[0] == 'j' then (if s == "ja" then ja else Language.Other(s))
      else if s[0] == 'k' then (if s == "ko" then ko else Language.Other(s))
      else if s[0] == 'l' then (if s == "lv" then lv else if s == "lt" then lt else Language.Other(s))
      else if s[0] == 'm' then (if s == "ms" then ms else Language.Other(s))
      else if s[0] == 'n' then (if s == "nl" then nl else if s == "no" then no else Language.Other(s))
      else if s[0] == 'p' then (if s == "pl" then pl else if s == "pt" then pt else Language.Other(s))
      else if s[0] == 'r' then (if s == "ro" then ro else if s == "ru" then ru else Language.Other(s))
      else if s[0] == 's' then (if s == "sk" then sk else if s == "sv" then sv else Language.Other(s))
      else if s[0] == 't' then (
        if s[1] == 'a' then (if s == "ta" then ta else Language.Other(s))
        else if s[1] == 'h' then (if s == "th" then th else Language.Other(s))
        else if s[1] == 'r' then (if s == "tr" then tr else Language.Other(s))
        else Language.Other(s))
      else if s[0] == 'u' then (if s == "uk" then uk else Language.Other(s))
      else if s[0] == 'v' then (if s == "vi" then vi else Language.Other(s))
      else if s[0] == 'z' then (if s == "zh" then zh else Language.Other(s))
      else Language.Other(s))
    else if |s| == 3 then (if s == "taq" then taq else Language.Other(s))
    else if |s| == 5 then (
      if s[3] == 'C' then (
        if s[0] == 'd' then (if s == "de-CH" then de_CH else Language.Other(s))
        else if s[0] == 'f' then (if s == "fr-CA" then fr_CA else Language.Other(s))
        else if s[0] == 'z' then (if s == "zh-CN" then zh_CN else Language.Other(s))
        else Language.Other(s))
      else if s[3] == 'A' then (if s == "en-AU" then en_AU else Language.Other(s))
      else if s[3] == 'G' then (if s == "en-GB" then en_GB else Language.Other(s))
      else if s[3] == 'I' then (if s == "en-IN" then en_IN else Language.Other(s))
      else if s[3] == 'N' then (if s == "en-NZ" then en_NZ else Language.Other(s))
      else if s[3] == 'U' then (if s == "en-US" then en_US else Language.Other(s))
      else if s[3] == 'K' then (if s == "ko-KR" then ko_KR else Language.Other(s))
      else if s[3] == 'B' then (if s == "nl-BE" then nl_BE else if s == "pt-BR" then pt_BR else Language.Other(s))
      else if s[3] == 'S' then (if s == "sv-SE" then sv_SE else Language.Other(s))
      else if s[3] == 'T' then (if s == "th-TH" then th_TH else if s == "zh-TW" then zh_TW else Language.Other(s))
      else Language.Other(s))
    else if |s| == 6 then (if s == "es-419" then es_419 else Language.Other(s))
    else if |s| == 7 then (
      if s[6] == 'n' then (if s == "hi-Latn" then hi_Latn else Language.Other(s))
      else if s[6] == 's' then (if s == "zh-Hans" then zh_Hans else Language.Other(s))
      else if s[6] == 't' then (if s == "zh-Hant" then zh_Hant else Language.Other(s))
      else Language.Other(s))
    else if |s| == 8 then (if s == "es-LATAM" then es_LATAM else Language.Other(s))
    else Language.Other(s)
  }
  /** A redaction kind. */
  datatype Redact = Pci | Numbers | Ssn | Other(name: string)

  function RedactName(r: Redact): string
  {
    match r
    case Pci => "pci"
    case Numbers => "numbers"
    case Ssn => "ssn"
    case Other(name) => name
  }

  function RedactFromString(s: string): (r: Redact)
    ensures r.Other? ==> r.name == s
  {
    if s == "pci" then Pci
    else if s == "numbers" then Numbers
    else if s == "ssn" then Ssn
    else Redact.Other(s)
  }

  /** A value whose name reads back as itself: a listed variant, or a custom name the table does not claim. */
  predicate CanonicalModel(m: Model)
  {
    ModelFromString(ModelName(m)) == m
  }

  /** Every listed model reads back from its name. */
  lemma ModelRoundTrip(m: Model)
    requires !m.CustomId?
    ensures ModelFromString(ModelName(m)) == m
  {
    match m
    case Nova2 => assert ModelFromString("nova-2") == Nova2;
    case Nova => assert ModelFromString("nova") == Nova;
    case Enhanced => assert ModelFromString("enhanced") == Enhanced;
    case Base => assert ModelFromString("base") == Base;
    case Nova2Meeting => assert ModelFromString("nova-2-meeting") == Nova2Meeting;
    case Nova2Phonecall => assert ModelFromString("nova-2-phonecall") == Nova2Phonecall;
    case Nova2Finance => assert ModelFromString("nova-2-finance") == Nova2Finance;
    case Nova2Conversationalai => assert ModelFromString("nova-2-conversationalai") == Nova2Conversationalai;
    case Nova2Voicemail => assert ModelFromString("nova-2-voicemail") == Nova2Voicemail;
    case Nova2Video => assert ModelFromString("nova-2-video") == Nova2Video;
    case Nova2Medical => assert ModelFromString("nova-2-medical") == Nova2Medical;
    case Nova2Drivethru => assert ModelFromString("nova-2-drivethru") == Nova2Drivethru;
    case Nova2Automotive => assert ModelFromString("nova-2-automotive") == Nova2Automotive;
    case NovaPhonecall => assert ModelFromString("nova-phonecall") == NovaPhonecall;
    case NovaMedical => assert ModelFromString("nova-medical") == NovaMedical;
    case EnhancedMeeting => assert ModelFromString("enhanced-meeting") == EnhancedMeeting;
    case EnhancedPhonecall => assert ModelFromString("enhanced-phonecall") == EnhancedPhonecall;
    case EnhancedFinance => assert ModelFromString("enhanced-finance") == EnhancedFinance;
    case BaseMeeting => assert ModelFromString("base-meeting") == BaseMeeting;
    case BasePhonecall => assert ModelFromString("base-phonecall") == BasePhonecall;
    case BaseVoicemail => assert ModelFromString("base-voicemail") == BaseVoicemail;
    case BaseFinance => assert ModelFromString("base-finance") == BaseFinance;
    case BaseConversationalai => assert ModelFromString("base-conversationalai") == BaseConversationalai;
    case BaseVideo => assert ModelFromString("base-video") == BaseVideo;
    case General => assert ModelFromString("general") == General;
    case Phonecall => assert ModelFromString("phonecall") == Phonecall;
    case Voicemail => assert ModelFromString("voicemail") == Voicemail;
    case Finance => assert ModelFromString("finance") == Finance;
    case Meeting => assert ModelFromString("meeting") == Meeting;
    case Conversationalai => assert ModelFromString("conversationalai") == Conversationalai;
    case Video => assert ModelFromString("video") == Video;
  }

  /** A custom id that spells a listed name does not survive the round trip. */
  lemma CustomIdShadowed()
    ensures ModelFromString(ModelName(CustomId("nova-2"))) == Nova2
    ensures ModelFromString(ModelName(CustomId("nova-2-general"))) == Nova2
    ensures ModelFromString("") == CustomId("")
  {
  }

  lemma LanguageRoundTrip(l: Language)
    requires !l.Other? && l != multi
    ensures LanguageFromString(LanguageName(l)) == l
  {
    match l
    case bg => assert LanguageFromString("bg") == bg;
    case ca => assert LanguageFromString("ca") == ca;
    case cs => assert LanguageFromString("cs") == cs;
    case da => assert LanguageFromString("da") == da;
    case de => assert LanguageFromString("de") == de;
    case de_CH => assert LanguageFromString("de-CH") == de_CH;
    case el => assert LanguageFromString("el") == el;
    case en => assert LanguageFromString("en") == en;
    case en_AU => assert LanguageFromString("en-AU") == en_AU;
    case en_GB => assert LanguageFromString("en-GB") == en_GB;
    case en_IN => assert LanguageFromString("en-IN") == en_IN;
    case en_NZ => assert LanguageFromString("en-NZ") == en_NZ;
    case en_US => assert LanguageFromString("en-US") == en_US;
    case es => assert LanguageFromString("es") == es;
    case es_419 => assert LanguageFromString("es-419") == es_419;
    case es_LATAM => assert LanguageFromString("es-LATAM") == es_LATAM;
    case et => assert LanguageFromString("et") == et;
    case fi => assert LanguageFromString("fi") == fi;
    case fr => assert LanguageFromString("fr") == fr;
    case fr_CA => assert LanguageFromString("fr-CA") == fr_CA;
    case hi => assert LanguageFromString("hi") == hi;
    case hi_Latn => assert LanguageFromString("hi-Latn") == hi_Latn;
    case hu => assert LanguageFromString("hu") == hu;
    case id => assert LanguageFromString("id") == id;
    case it => assert LanguageFromString("it") == it;
    case ja => assert LanguageFromString("ja") == ja;
    case ko => assert LanguageFromString("ko") == ko;
    case ko_KR => assert LanguageFromString("ko-KR") == ko_KR;
    case lv => assert LanguageFromString("lv") == lv;
    case lt => assert LanguageFromString("lt") == lt;
    case ms => assert LanguageFromString("ms") == ms;
    case nl => assert LanguageFromString("nl") == nl;
    case nl_BE => assert LanguageFromString("nl-BE") == nl_BE;
    case no => assert LanguageFromString("no") == no;
    case pl => assert LanguageFromString("pl") == pl;
    case pt => assert LanguageFromString("pt") == pt;
    case pt_BR => assert LanguageFromString("pt-BR") == pt_BR;
    case ro => assert LanguageFromString("ro") == ro;
    case ru => assert LanguageFromString("ru") == ru;
    case sk => assert LanguageFromString("sk") == sk;
    case sv => assert LanguageFromString("sv") == sv;
    case sv_SE => assert LanguageFromString("sv-SE") == sv_SE;
    case ta => assert LanguageFromString("ta") == ta;
    case taq => assert LanguageFromString("taq") == taq;
    case th => assert LanguageFromString("th") == th;
    case th_TH => assert LanguageFromString("th-TH") == th_TH;
    case tr => assert LanguageFromString("tr") == tr;
    case uk => assert LanguageFromString("uk") == uk;
    case vi => assert LanguageFromString("vi") == vi;
    case zh => assert LanguageFromString("zh") == zh;
    case zh_CN => assert LanguageFromString("zh-CN") == zh_CN;
    case zh_Hans => assert LanguageFromString("zh-Hans") == zh_Hans;
    case zh_Hant => assert LanguageFromString("zh-Hant") == zh_Hant;
    case zh_TW => assert LanguageFromString("zh-TW") == zh_TW;
  }

  /** "multi" has no arm in the parser, so it comes back as `Other`. */
  lemma MultiNotParsed()
    ensures LanguageFromString(LanguageName(multi)) == Language.Other("multi")
    ensures LanguageFromString("") == Language.Other("")
  {
  }

  lemma RedactRoundTrip(r: Redact)
    requires !r.Other?
    ensures RedactFromString(RedactName(r)) == r
  {
  }

  lemma RedactNameOfParsed(s: string)
    ensures RedactName(RedactFromString(s)) == s
    ensures RedactFromString("") == Redact.Other("")
  {
  }

  /** `models_to_string`: the model names joined with ':'. */
  function ModelsToString(ms: seq<Model>): string
  {
    Join(ModelNames(ms), ":")
  }

  function ModelNames(ms: seq<Model>): (ns: seq<string>)
    ensures |ns| == |ms|
    ensures forall i :: 0 <= i < |ms| ==> ns[i] == ModelName(ms[i])
  {
    if ms == [] then [] else [ModelName(ms[0])] + ModelNames(ms[1..])
  }

  /** Splits a joined model list back into models (the inverse of ModelsToString). */
  function ModelsFromString(s: string): (ms: seq<Model>)
  {
    ParseModels(Split(s, ':'))
  }

  function ParseModels(names: seq<string>): (ms: seq<Model>)
    ensures |ms| == |names|
    ensures forall i :: 0 <= i < |names| ==> ms[i] == ModelFromString(names[i])
  {
    if names == [] then [] else [ModelFromString(names[0])] + ParseModels(names[1..])
  }

  /** The joined list reads back as the list when every model is canonical and no custom id holds ':'. */
  lemma ModelsRoundTrip(ms: seq<Model>)
    requires |ms| >= 1
    requires forall i :: 0 <= i < |ms| ==> CanonicalModel(ms[i]) && ':' !in ModelName(ms[i])
    ensures ModelsFromString(ModelsToString(ms)) == ms
  {
    var ns := ModelNames(ms);
    SplitJoin(ns, ':');
    assert Split(ModelsToString(ms), ':') == ns;
  }

  /** The examples of the unit tests. */
  lemma ModelsToStringExamples()
    ensures ModelsToString([]) == ""
    ensures ModelsToString([Base]) == "base"
  {
    assert ModelNames([Base]) == ["base"];
  }

  lemma ModelsToStringCustom()
    ensures ModelsToString([EnhancedFinance, CustomId("extra_crispy"), Nova2Conversationalai])
         == "enhanced-finance" + ":" + ("extra_crispy" + ":" + "nova-2-conversationalai")
  {
    var ns := ModelNames([EnhancedFinance, CustomId("extra_crispy"), Nova2Conversationalai]);
    assert ns == ["enhanced-finance", "extra_crispy", "nova-2-conversationalai"];
    assert ns[1..] == ["extra_crispy", "nova-2-conversationalai"];
    assert ns[1..][1..] == ["nova-2-conversationalai"];
    assert Join(ns[1..], ":") == "extra_crispy" + ":" + "nova-2-conversationalai";
  }

  /** Audio encoding of the request options. */
  datatype Encoding = Linear16 | Flac | Mulaw | AmrNb | AmrWb | Opus | Speex | G729
                    | CustomEncoding(name: string)

  function EncodingName(e: Encoding): string
  {
    match e
    case Linear16 => "linear16"
    case Flac => "flac"
    case Mulaw => "mulaw"
    case AmrNb => "amr-nb"
    case AmrWb => "amr-wb"
    case Opus => "opus"
    case Speex => "speex"
    case G729 => "g729"
    case CustomEncoding(name) => name
  }

  /** The listed encodings have distinct names, none of which is claimed by a custom one of another name. */
  lemma EncodingNameInjective(a: Encoding, b: Encoding)
    requires !a.CustomEncoding? && !b.CustomEncoding?
    requires EncodingName(a) == EncodingName(b)
    ensures a == b
  {
  }

  datatype CallbackMethod = POST | PUT

  function CallbackMethodName(c: CallbackMethod): (s: string)
    ensures s == "post" <==> c == POST
    ensures s == "put" <==> c == PUT
  {
    match c
    case POST => "post"
    case PUT => "put"
  }

  /** Custom intent / topic mode, serialised in snake case. */
  datatype CustomMode = Extended | Strict

  function CustomModeName(m: CustomMode): (s: string)
    ensures s == "extended" <==> m == Extended
    ensures s == "strict" <==> m == Strict
  {
    match m
    case Extended => "extended"
    case Strict => "strict"
  }

  /** Live-streaming endpointing. */
  datatype Endpointing = EndpointingEnabled | EndpointingDisabled | CustomDurationMs(ms: u32)

  /** `Display` for Endpointing: "true", "false" or the duration in decimal. */
  function EndpointingText(e: Endpointing): (s: string)
    ensures e.CustomDurationMs? ==> ParseNat(s) == Some(e.ms)
  {
    match e
    case EndpointingEnabled => "true"
    case EndpointingDisabled => "false"
    case CustomDurationMs(ms) =>
      NatStringRoundTrip(ms);
      NatString(ms)
  }

  /** The three Endpointing forms never print alike. */
  lemma EndpointingTextInjective(a: Endpointing, b: Endpointing)
    requires EndpointingText(a) == EndpointingText(b)
    ensures a == b
  {
    if a.CustomDurationMs? && b.CustomDurationMs? {
      NatStringInjective(a.ms, b.ms);
    }
  }

  /** Language detection: on, off, or restricted to a list of languages. */
  datatype DetectLanguage = DetectEnabled | DetectDisabled | Restricted(languages: seq<Language>)

  function LanguageNames(ls: seq<Language>): (ns: seq<string>)
    ensures |ns| == |ls|
    ensures forall i :: 0 <= i < |ls| ==> ns[i] == LanguageName(ls[i])
  {
    if ls == [] then [] else [LanguageName(ls[0])] + LanguageNames(ls[1..])
  }

  /** `DetectLanguage::to_key_value_pairs`. */
  function DetectLanguagePairs(d: DetectLanguage): (ps: seq<Pair>)
    ensures forall i :: 0 <= i < |ps| ==> ps[i].0 == "detect_language"
    ensures d.Restricted? ==>
              |ps| == |d.languages| && forall i :: 0 <= i < |ps| ==> ps[i].1 == LanguageName(d.languages[i])
    ensures !d.Restricted? ==> ps == [("detect_language", BoolString(d.DetectEnabled?))]
  {
    match d
    case DetectEnabled => [("detect_language", "true")]
    case DetectDisabled => [("detect_language", "false")]
    case Restricted(ls) => Repeat("detect_language", LanguageNames(ls))
  }
}
