// The vocabulary of the transcription request options
// (src/transcription/common/options.rs, repeated in
// src/transcription/prerecorded/options.rs): tiers, models, languages and
// redaction kinds with their wire names, and the joined model list.
module TranscriptionNames {
  import opened Query

  /** The model tier. */
  datatype Tier = Enhanced | Base

  function TierName(t: Tier): (s: string)
    ensures s == "enhanced" <==> t == Enhanced
    ensures s == "base" <==> t == Base
  {
    match t
    case Enhanced => "enhanced"
    case Base => "base"
  }

  /** A transcription model; `CustomId` carries any other name. */
  datatype Model = General | Meeting | Phonecall | Voicemail | Finance | Conversationalai | Video | CustomId(id: string)

  /** The wire name of a model (`as_ref`). */
  function ModelName(m: Model): string
  {
    match m
    case General => "general"
    case Meeting => "meeting"
    case Phonecall => "phonecall"
    case Voicemail => "voicemail"
    case Finance => "finance"
    case Conversationalai => "conversationalai"
    case Video => "video"
    case CustomId(id) => id
  }

  /** The listed models have distinct names. */
  lemma ModelNameInjective(a: Model, b: Model)
    requires !a.CustomId? && !b.CustomId?
    requires ModelName(a) == ModelName(b)
    ensures a == b
  {
  }

  /** A language; `Other` carries any BCP-47 tag the table does not list. */
  datatype Language =
    zh | zh_CN | zh_TW | nl | en | en_AU | en_GB | en_IN | en_NZ | en_US | fr | fr_CA | de | hi | hi_Latn | id | it | ja | ko | pt | pt_BR | ru | es | es_419 | sv | tr | uk
    | Other(tag: string)

  /** The wire name of a language (`as_ref`). */
  function LanguageName(l: Language): string
  {
    match l
    case zh => "zh"
    case zh_CN => "zh-CN"
    case zh_TW => "zh-TW"
    case nl => "nl"
    case en => "en"
    case en_AU => "en-AU"
    case en_GB => "en-GB"
    case en_IN => "en-IN"
    case en_NZ => "en-NZ"
    case en_US => "en-US"
    case fr => "fr"
    case fr_CA => "fr-CA"
    case de => "de"
    case hi => "hi"
    case hi_Latn => "hi-Latn"
    case id => "id"
    case it => "it"
    case ja => "ja"
    case ko => "ko"
    case pt => "pt"
    case pt_BR => "pt-BR"
    case ru => "ru"
    case es => "es"
    case es_419 => "es-419"
    case sv => "sv"
    case tr => "tr"
    case uk => "uk"
    case Other(tag) => tag
  }

  /**
   * The listed language a tag names, if any: the inverse of the table,
   * arranged by length and then by a distinguishing character.
   */
  function ListedLanguage(s: string): (l: Language)
    ensures l.Other? ==> l.tag == s
  {
    if |s| == 2 then (
      if s[0] == 'z' then (if s == "zh" then zh else Language.Other(s))
      else if s[0] == 'n' then (if s == "nl" then nl else Language.Other(s))
      else if s[0] == 'e' then (if s == "en" then en else if s == "es" then es else Language.Other(s))
      else if s[0] == 'f' then (if s == "fr" then fr else Language.Other(s))
      else if s[0] == 'd' then (if s == "de" then de else Language.Other(s))
      else if s[0] == 'h' then (if s == "hi" then hi else Language.Other(s))
      else if s[0] == 'i' then (if s == "id" then id else if s == "it" then it else Language.Other(s))
      else if s[0] == 'j' then (if s == "ja" then ja else Language.Other(s))
      else if s[0] == 'k' then (if s == "ko" then ko else Language.Other(s))
      else if s[0] == 'p' then (if s == "pt" then pt else Language.Other(s))
      else if s[0] == 'r' then (if s == "ru" then ru else Language.Other(s))
      else if s[0] == 's' then (if s == "sv" then sv else Language.Other(s))
      else if s[0] == 't' then (if s == "tr" then tr else Language.Other(s))
      else if s[0] == 'u' then (if s == "uk" then uk else Language.Other(s))
      else Language.Other(s))
    else if |s| == 5 then (
      if s[3] == 'C' then (if s == "zh-CN" then zh_CN else if s == "fr-CA" then fr_CA else Language.Other(s))
      else if s[3] == 'T' then (if s == "zh-TW" then zh_TW else Language.Other(s))
      else if s[3] == 'A' then (if s == "en-AU" then en_AU else Language.Other(s))
      else if s[3] == 'G' then (if s == "en-GB" then en_GB else Language.Other(s))
      else if s[3] == 'I' then (if s == "en-IN" then en_IN else Language.Other(s))
      else if s[3] == 'N' then (if s == "en-NZ" then en_NZ else Language.Other(s))
      else if s[3] == 'U' then (if s == "en-US" then en_US else Language.Other(s))
      else if s[3] == 'B' then (if s == "pt-BR" then pt_BR else Language.Other(s))
      else Language.Other(s))
    else if |s| == 6 then (if s == "es-419" then es_419 else Language.Other(s))
    else if |s| == 7 then (if s == "hi-Latn" then hi_Latn else Language.Other(s))
    else Language.Other(s)
  }

  lemma LanguageRoundTrip1(l: Language)
    requires l == zh || l == zh_CN || l == zh_TW || l == nl || l == en || l == en_AU || l == en_GB || l == en_IN || l == en_NZ || l == en_US || l == fr || l == fr_CA || l == de || l == hi
    ensures ListedLanguage(LanguageName(l)) == l
  {
    match l
    case zh => assert ListedLanguage("zh") == zh;
    case zh_CN => assert ListedLanguage("zh-CN") == zh_CN;
    case zh_TW => assert ListedLanguage("zh-TW") == zh_TW;
    case nl => assert ListedLanguage("nl") == nl;
    case en => assert ListedLanguage("en") == en;
    case en_AU => assert ListedLanguage("en-AU") == en_AU;
    case en_GB => assert ListedLanguage("en-GB") == en_GB;
    case en_IN => assert ListedLanguage("en-IN") == en_IN;
    case en_NZ => assert ListedLanguage("en-NZ") == en_NZ;
    case en_US => assert ListedLanguage("en-US") == en_US;
    case fr => assert ListedLanguage("fr") == fr;
    case fr_CA => assert ListedLanguage("fr-CA") == fr_CA;
    case de => assert ListedLanguage("de") == de;
    case hi => assert ListedLanguage("hi") == hi;
  }

  lemma LanguageRoundTrip2(l: Language)
    requires l == hi_Latn || l == id || l == it || l == ja || l == ko || l == pt || l == pt_BR || l == ru || l == es || l == es_419 || l == sv || l == tr || l == uk
    ensures ListedLanguage(LanguageName(l)) == l
  {
    match l
    case hi_Latn => assert ListedLanguage("hi-Latn") == hi_Latn;
    case id => assert ListedLanguage("id") == id;
    case it => assert ListedLanguage("it") == it;
    case ja => assert ListedLanguage("ja") == ja;
    case ko => assert ListedLanguage("ko") == ko;
    case pt => assert ListedLanguage("pt") == pt;
    case pt_BR => assert ListedLanguage("pt-BR") == pt_BR;
    case ru => assert ListedLanguage("ru") == ru;
    case es => assert ListedLanguage("es") == es;
    case es_419 => assert ListedLanguage("es-419") == es_419;
    case sv => assert ListedLanguage("sv") == sv;
    case tr => assert ListedLanguage("tr") == tr;
    case uk => assert ListedLanguage("uk") == uk;
  }

  /** Every listed language reads back from its tag, so the table gives distinct tags. */
  lemma LanguageRoundTrip(l: Language)
    requires !l.Other?
    ensures ListedLanguage(LanguageName(l)) == l
  {
    if l == zh || l == zh_CN || l == zh_TW || l == nl || l == en || l == en_AU || l == en_GB || l == en_IN || l == en_NZ || l == en_US || l == fr || l == fr_CA || l == de || l == hi {
      LanguageRoundTrip1(l);
    } else {
      LanguageRoundTrip2(l);
    }
  }

  /** A redaction kind. */
  datatype Redact = Pci | Numbers | Ssn | Other(name: string)

  function RedactName(r: Redact): (s: string)
    ensures r.Other? ==> s == r.name
  {
    match r
    case Pci => "pci"
    case Numbers => "numbers"
    case Ssn => "ssn"
    case Other(name) => name
  }

  /** The listed redaction kinds have distinct names. */
  lemma RedactNameInjective(a: Redact, b: Redact)
    requires !a.Other? && !b.Other?
    requires RedactName(a) == RedactName(b)
    ensures a == b
  {
  }

  function ModelNames(ms: seq<Model>): (ns: seq<string>)
    ensures |ns| == |ms|
    ensures forall i :: 0 <= i < |ms| ==> ns[i] == ModelName(ms[i])
  {
    if ms == [] then [] else [ModelName(ms[0])] + ModelNames(ms[1..])
  }

  /** `models_to_string`: the model names joined with ':'. */
  function ModelsToString(ms: seq<Model>): string
  {
    Join(ModelNames(ms), ":")
  }

  /** The joined names split back into the names when no custom id holds ':'. */
  lemma ModelsToStringSplits(ms: seq<Model>)
    requires |ms| >= 1
    requires forall i :: 0 <= i < |ms| ==> ':' !in ModelName(ms[i])
    ensures Split(ModelsToString(ms), ':') == ModelNames(ms)
  {
    SplitJoin(ModelNames(ms), ':');
  }

  /** The unit tests' examples: the empty list gives "", one model its name. */
  lemma ModelsToStringExamples()
    ensures ModelsToString([]) == ""
    ensures ModelsToString([General]) == "general"
  {
    assert ModelNames([General]) == ["general"];
  }

  /**
   * The shape of the unit tests "many" and "custom": three names with a ':'
   * between each, a custom id standing for itself.
   */
  lemma ModelsToStringThree(a: Model, b: Model, c: Model)
    ensures ModelsToString([a, b, c]) == ModelName(a) + ":" + (ModelName(b) + ":" + ModelName(c))
  {
    assert ModelNames([a, b, c]) == [ModelName(a), ModelName(b), ModelName(c)];
    var ns := [ModelName(a), ModelName(b), ModelName(c)];
    assert ns[1..] == [ModelName(b), ModelName(c)];
    assert ns[1..][1..] == [ModelName(c)];
    assert Join(ns[1..], ":") == ModelName(b) + ":" + ModelName(c);
  }
}
