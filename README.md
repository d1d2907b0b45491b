# Deepgram Rust SDK: request options, message codecs and streaming core

A Dafny model of the parts of the Deepgram Rust SDK that build requests and talk to its
streaming endpoints. Nothing here moves bytes over a network. The model covers what the
client sends, in what order, and how it reads what comes back.

- **Query options.** There are a dozen option builders and their serialisers:
  - the shared transcription options (`CommonNames`, `CommonOptions`);
  - the transcription and prerecorded options, in open and closed forms
    (`TranscriptionNames`, `TranscriptionOptions`, `PrerecordedOptions`, `PrerecordedClosedOptions`);
  - usage, request listing, fields, API keys and projects
    (`UsageOptions`, `ListRequestsOptions`, `FieldsOptions`, `KeyOptions`, `ProjectOptions`);
  - typed and REST text-to-speech (`SpeakOptions`, `SpeakRestOptions`).

  Each builder is a class whose setters overwrite or extend one field, and leave every
  other field as it was. Each serialiser is a function from the option record to the
  ordered list of `(key, value)` query pairs, or to a JSON body for keys and projects.
  The lemmas state the facts the serialisers promise:
  - which keys appear, and when;
  - in what order they appear;
  - that names read back to the value they came from;
  - how list-valued options expand.
- **Shared building blocks.** `Query` holds the pair list, decimal and boolean renderings,
  the form-urlencoded query text with its parser, and the `&`/`=` split. `FormUrlencoded`
  is the `application/x-www-form-urlencoded` codec that serde_urlencoded and the url crate
  share: UTF-8 bytes, unreserved bytes kept, space as `+`, every other byte as `%XX`. `Json` is an abstract JSON value, and
  `Wrappers` holds `Option` and `Result`.
- **Flux.** `FluxMessages` decodes and encodes the tagged Flux server messages.
  `FluxRequest` builds the Flux URL and its two streaming parameters. `FluxWorker` has
  the worker's step function over one event at a time, a loop proved equal to it, and the
  `FluxHandle` class.
- **Streaming URLs and chunking.** `StreamUrls` covers the scheme mapping (`http`->`ws`,
  `https`->`wss`), the endpoint paths and appending pairs. `FileChunking` holds the
  `FileChunker` stream adapter, a class with a loop proved against a chunking function.
- **Live transcription.** `ListenStream` covers the websocket request builder, the URL
  `start` connects to (as written and corrected), the `Open` event it sends, the `finalize`/`finish`/keep-alive control messages and the send
  task. `LegacyStream` covers the older builders of `src/lib.rs` and
  `src/transcription/live.rs`, which share one model.
- **Speak websocket.** `SpeakStream` covers the speak websocket URL, the
  `continuous_speak_to_stream` defaults, the control messages and the handle's
  `send_text` and `flush`.

Some source files are copies of each other, and each such group is modelled once:
- `src/keys/options.rs` behaves as `src/manage/keys/options.rs` (`KeyOptions`).
- `src/usage/get_fields_options.rs` behaves as `src/manage/usage/get_fields_options.rs` (`FieldsOptions`).
- `src/projects/options.rs` behaves as `src/manage/projects/options.rs` (`ProjectOptions`).
- The `FileChunker` copies in `src/listen/websocket.rs`, `src/lib.rs` and
  `src/transcription/live.rs` match the one in `src/listen/flux.rs` (`FileChunking`).

A URL's pair list stands for the keys and values handed to `append_pair`. The text the
URL then carries is their form encoding (`StreamUrls.QueryString`). Floating-point options, such as `utt_split` and keyword intensifiers,
are kept as the text they print as.

## Model

| member | source | states |
|---|---|---|
| Query.NatString | src/listen/websocket.rs:391-393 | an unsigned integer prints as a non-empty string of decimal digits with no leading zero |
| Query.NatStringRoundTrip | src/listen/websocket.rs:391-393 | reading the printed decimal back gives the number |
| Query.NatStringInjective | src/listen/websocket.rs:391-393 | two numbers that print alike are equal |
| Query.IntString | src/speak/rest/options.rs:131-133 | a signed integer prints non-empty, with a leading minus exactly when negative |
| Query.IntStringInjective | src/speak/rest/options.rs:131-133 | two signed integers that print alike are equal |
| Query.Split | src/listen/websocket.rs:373-374 | splitting on a separator gives at least one part and no part holds the separator |
| Query.SplitJoin | src/listen/websocket.rs:373-374 | splitting the separator-joined parts gives the parts back when no part holds the separator |
| Query.SplitOnce | src/listen/websocket.rs:375-380 | a piece without the separator is the key with an empty value |
| Query.SplitOnceJoin | src/listen/websocket.rs:375-380 | splitting `k` + separator + `v` at the first separator gives `(k, v)` when `k` holds no separator |
| Query.QueryPairs | src/listen/websocket.rs:372-382 | splitting a query string gives at least one pair |
| Query.SplitPieces | src/listen/websocket.rs:375-380 | one pair per piece, each the piece split at its first `=` |
| Query.QueryPairsEncoded | src/listen/websocket.rs:372-382 | splitting the serialiser's text of a non-empty pair list gives every pair back with its key and value still encoded |
| Query.EncodedUnchanged | src/listen/websocket.rs:372-386 | the still-encoded pairs are the pairs themselves exactly when every key and value is unreserved text |
| Query.ParseUrlencoded | src/listen/flux.rs:164-167 | the form parser reads the serialiser's text back as exactly the pair list, the empty list included |
| Query.PiecesOfUrlencoded | src/listen/websocket.rs:254-257 | the `&` pieces of the serialiser's text are the encoded pairs, one per pair |
| Query.PlainText2 | src/common/options.rs:682-684 | two pairs of unreserved texts are written `k1=v1&k2=v2` |
| FormUrlencoded.Utf8 | src/listen/websocket.rs:254-257 | a character is one to four bytes, one byte exactly below 0x80, a multi-byte lead never below 0xC0 |
| FormUrlencoded.Utf8RoundTrip | src/listen/flux.rs:164-167 | decoding the UTF-8 bytes of a text gives the text back |
| FormUrlencoded.EncodeByte | src/listen/websocket.rs:254-257 | a byte is written as one to three characters |
| FormUrlencoded.EncodeNoSeparators | src/listen/websocket.rs:254-257 | an encoded text holds no `&` and no `=` |
| FormUrlencoded.EncodeAppend | src/listen/websocket.rs:254-257 | encoding a concatenation is concatenating the encodings |
| FormUrlencoded.EncodeUnchanged | src/listen/websocket.rs:254-257 | a text is written unchanged exactly when every character of it is unreserved (`a-z A-Z 0-9 * - . _`) |
| FormUrlencoded.EncodeCharShape | src/listen/websocket.rs:254-257 | a character is written as itself exactly when it is unreserved |
| FormUrlencoded.EncodeTwice | src/listen/websocket.rs:371-386 | encoding a second time leaves the once-encoded text unchanged exactly when the original was unreserved |
| FormUrlencoded.ColonExamples | src/listen/websocket.rs:254-257 | `:` `%` `&` `=` `+` are written `%3A` `%25` `%26` `%3D` `%2B`, a space `+` |
| FormUrlencoded.DecodeEncode | src/listen/flux.rs:164-167 | the form parser's decoding of an encoded text gives the text back |
| FormUrlencoded.EncodeInjective | src/listen/websocket.rs:254-257 | two texts with the same encoding are equal |
| Query.QueryPairsEmpty | src/listen/websocket.rs:372-382 | the empty query string splits into the single pair `("", "")` |
| Query.Repeat | src/common/options.rs:2030-2032 | a list field gives one pair per element, in order, all under its key |
| Query.RepeatValues | src/common/options.rs:2030-2032 | the values of a repeated key are exactly the list, and other keys have none |
| Query.IfSome | src/common/options.rs:2008-2010 | an optional field gives one pair when set and none when unset |
| Query.BoolString | src/common/options.rs:2022-2024 | booleans print as `true` and `false` |
| Query.PushEach | src/common/options.rs:2030-2032 | the loop over a list field appends one pair per element, in order |
| Query.PushPairs | src/common/options.rs:2109-2111 | the loop over the extra query parameters appends them verbatim, in order |
| CommonNames.ModelFromString | src/common/options.rs:2235-2279 | a name the table does not list becomes `CustomId` of exactly that text |
| CommonNames.ModelRoundTrip | src/common/options.rs:2189-2279 | parsing the name of any listed model gives that model back |
| CommonNames.CustomIdShadowed | src/common/options.rs:2235-2279 | a custom id spelled like a listed model, or like the alias `nova-2-general`, parses as the listed model; the empty name is a custom id |
| CommonNames.LanguageFromString | src/common/options.rs:2343-2403 | a tag the table does not list becomes `Other` of exactly that text |
| CommonNames.LanguageRoundTrip | src/common/options.rs:2281-2403 | parsing the tag of any listed language other than `multi` gives that language back |
| CommonNames.MultiNotParsed | src/common/options.rs:2343-2403 | the tag `multi` parses as `Other("multi")`, since the parser has no arm for it; the empty tag is `Other("")` |
| CommonNames.RedactFromString | src/common/options.rs:2416-2425 | an unlisted redaction name becomes `Other` of exactly that text |
| CommonNames.RedactRoundTrip | src/common/options.rs:2405-2425 | parsing the name of a listed redaction gives it back |
| CommonNames.RedactNameOfParsed | src/common/options.rs:2405-2425 | printing a parsed redaction name gives the text back, for every text |
| CommonNames.ModelNames | src/common/options.rs:2427-2433 | one name per model, in order |
| CommonNames.ParseModels | src/common/options.rs:2235-2279 | one parsed model per name, in order |
| CommonNames.ModelsRoundTrip | src/common/options.rs:2427-2433 | splitting the `:`-joined names of a non-empty list of listed models gives the list back |
| CommonNames.ModelsToStringExamples | src/common/options.rs:2476-2484 | no models give the empty string and one model gives its name |
| CommonNames.ModelsToStringCustom | src/common/options.rs:2498-2509 | listed and custom models join, in order, as `enhanced-finance:extra_crispy:nova-2-conversationalai` |
| CommonNames.EncodingNameInjective | src/common/options.rs:146-159 | two listed encodings with the same name are the same encoding |
| CommonNames.CallbackMethodName | src/common/options.rs:106-112 | `post` exactly for POST and `put` exactly for PUT |
| CommonNames.CustomModeName | src/common/options.rs:553-576 | `extended` exactly for Extended and `strict` exactly for Strict |
| CommonNames.EndpointingText | src/common/options.rs:180-188 | a custom duration prints as a decimal that reads back as the duration |
| CommonNames.EndpointingTextInjective | src/common/options.rs:180-188 | two endpointing settings that print alike are equal |
| CommonNames.LanguageNames | src/common/options.rs:78-87 | one tag per language, in order |
| CommonNames.DetectLanguagePairs | src/common/options.rs:77-88 | every pair is keyed `detect_language`; a restricted set gives one pair per language in order, otherwise a single `true` or `false` |
| CommonOptions.ReplaceTextSplits | src/common/options.rs:2069-2075 | a replacement prints as `find:replace`, or the bare term, and splits back at the first `:` when the term holds none |
| CommonOptions.KeywordTextSplits | src/common/options.rs:2077-2086 | a keyword prints as `keyword:intensifier`, or the bare keyword, and splits back at the first `:` when the keyword holds none |
| CommonOptions.ExtraTextSplits | src/common/options.rs:2175-2179 | an extra entry prints as `key:value` and splits back at the first `:` when the key holds none |
| CommonOptions.PlainKeywords | src/common/options.rs:1287-1295 | each keyword given without an intensifier, in order |
| CommonOptions.Serialize | src/common/options.rs:1937-2187 | the pairs the serialiser emits, field by field, are exactly `Pairs(o)` |
| CommonOptions.EmitHead | src/common/options.rs:1985-2063 | the loop and the conditionals from model to numerals emit exactly the head group |
| CommonOptions.EmitLists | src/common/options.rs:2065-2107 | search, replace, keywords, keyword_boost, utterances and tag emit exactly the list group |
| CommonOptions.EmitTail | src/common/options.rs:2113-2185 | encoding through callback_method emit exactly the tail group |
| CommonOptions.PairsValues | src/common/options.rs:1937-2187 | the values of any key are those of the head, the list group, the extra query parameters and the tail, in that order |
| CommonOptions.ModelSectionValues | src/common/options.rs:1985-2006 | per-channel models give one `model` value, the `:`-joined names; otherwise the plain model when set |
| CommonOptions.MultichannelFlag | src/common/options.rs:2046-2055 | no value when unset, `false` exactly for Disabled, and `true` for per-channel models |
| CommonOptions.MultichannelSectionValues | src/common/options.rs:2046-2055 | the multichannel section sends exactly the multichannel flag |
| CommonOptions.DetectLanguageSectionValues | src/common/options.rs:2016-2020 | unset sends nothing, a restricted set sends each language tag in order, and otherwise `true` or `false` |
| CommonOptions.KeywordBoostSectionValues | src/common/options.rs:2088-2090 | `legacy` is sent exactly when the flag is `Some(true)` |
| CommonOptions.UtterancesFlag | src/common/options.rs:2092-2103 | no value when unset and `false` exactly for Disabled |
| CommonOptions.UttSplit | src/common/options.rs:2095-2101 | a split value is only ever sent together with `utterances=true` |
| CommonOptions.UtterancesSectionValues | src/common/options.rs:2092-2103 | the utterances section sends exactly the utterances flag and the split |
| CommonOptions.SummarizeSectionValues | src/common/options.rs:2161-2165 | `v2` is sent exactly when summarize is `Some(true)` |
| CommonOptions.ChannelModelsWin | src/common/options.rs:1985-2006 | with per-channel models the only `model` values are their joined names, then any extra query parameter named model; the plain model is suppressed |
| CommonOptions.PlainModel | src/common/options.rs:1996-2006 | without per-channel models the `model` values are the plain model when set, then the extra query parameters |
| CommonOptions.MultichannelValues | src/common/options.rs:2046-2055 | the `multichannel` values are the flag, then the extra query parameters |
| CommonOptions.DetectLanguageValues | src/common/options.rs:2016-2020 | the `detect_language` values are one per restricted language, in order, or a single boolean, then the extra query parameters |
| CommonOptions.ListValues | src/common/options.rs:2030-2032 | redact, search and tag values are the lists in call order, then the extra query parameters |
| CommonOptions.ReplaceValues | src/common/options.rs:2069-2075 | the `replace` values are one per replacement in order, and each splits back into its term and replacement |
| CommonOptions.KeywordsValues | src/common/options.rs:2077-2086 | the `keywords` values are one per keyword in order, and each splits back into keyword and intensifier |
| CommonOptions.KeywordBoostValues | src/common/options.rs:2088-2090 | `keyword_boost=legacy` appears only for `Some(true)` |
| CommonOptions.UtterancesValues | src/common/options.rs:2092-2103 | the `utterances` values are the flag, then the extra query parameters |
| CommonOptions.UttSplitValues | src/common/options.rs:2095-2101 | the `utt_split` values are the split, then the extra query parameters |
| CommonOptions.SummarizeValues | src/common/options.rs:2161-2165 | summarize sends `v2` only when true, after the extra query parameters |
| CommonOptions.UnsetSendsNothing | src/common/options.rs:689-729 | the options a new builder starts from serialise to no pairs |
| CommonOptions.OptionsBuilder.constructor | src/common/options.rs:689-729 | every field unset and every list empty |
| CommonOptions.OptionsBuilder.SetModel | src/common/options.rs:754-762 | sets the model; per-channel models are reset to none but the per-channel setting stays; every other field unchanged |
| CommonOptions.OptionsBuilder.SetMultichannel | src/common/options.rs:983-991 | replaces multichannel by Enabled or Disabled, discarding any per-channel models; every other field unchanged |
| CommonOptions.OptionsBuilder.MultichannelWithModels | src/common/options.rs:1094-1110 | extends existing per-channel models, or else sets per-channel models to exactly the given list; every other field unchanged |
| CommonOptions.OptionsBuilder.SetVersion | src/common/options.rs:779-782 | sets `version` to the given value; every other field unchanged |
| CommonOptions.OptionsBuilder.SetLanguage | src/common/options.rs:799-802 | sets `language` to the given value; every other field unchanged |
| CommonOptions.OptionsBuilder.SetPunctuate | src/common/options.rs:819-822 | sets `punctuate` to the given value; every other field unchanged |
| CommonOptions.OptionsBuilder.SetProfanityFilter | src/common/options.rs:841-844 | sets `profanity_filter` to the given value; every other field unchanged |
| CommonOptions.OptionsBuilder.SetDiarize | src/common/options.rs:900-903 | sets `diarize` to the given value; every other field unchanged |
| CommonOptions.OptionsBuilder.SetDiarizeVersion | src/common/options.rs:920-923 | sets `diarize_version` to the given value; every other field unchanged |
| CommonOptions.OptionsBuilder.SetNer | src/common/options.rs:942-945 | sets `ner` to the given value; every other field unchanged |
| CommonOptions.OptionsBuilder.SetAlternatives | src/common/options.rs:1127-1130 | sets `alternatives` to the given value; every other field unchanged |
| CommonOptions.OptionsBuilder.SetNumerals | src/common/options.rs:1149-1152 | sets `numerals` to the given value; every other field unchanged |
| CommonOptions.OptionsBuilder.KeywordBoostLegacy | src/common/options.rs:1383-1386 | sets `keyword_boost_legacy` to true; every other field unchanged |
| CommonOptions.OptionsBuilder.SetUtterances | src/common/options.rs:1405-1413 | sets utterances to Enabled or Disabled; every other field unchanged |
| CommonOptions.OptionsBuilder.UtterancesWithUttSplit | src/common/options.rs:1434-1439 | sets utterances to a custom split with the given value; every other field unchanged |
| CommonOptions.OptionsBuilder.SetDetectLanguage | src/common/options.rs:1493-1497 | sets `detect_language` to the given value; every other field unchanged |
| CommonOptions.OptionsBuilder.SetEncoding | src/common/options.rs:1543-1546 | sets `encoding` to the given value; every other field unchanged |
| CommonOptions.OptionsBuilder.SetSmartFormat | src/common/options.rs:1563-1566 | sets `smart_format` to the given value; every other field unchanged |
| CommonOptions.OptionsBuilder.SetFillerWords | src/common/options.rs:1583-1587 | sets `filler_words` to the given value; every other field unchanged |
| CommonOptions.OptionsBuilder.SetParagraphs | src/common/options.rs:1604-1608 | sets `paragraphs` to the given value; every other field unchanged |
| CommonOptions.OptionsBuilder.SetDetectEntities | src/common/options.rs:1625-1629 | sets `detect_entities` to the given value; every other field unchanged |
| CommonOptions.OptionsBuilder.SetIntents | src/common/options.rs:1646-1650 | sets `intents` to the given value; every other field unchanged |
| CommonOptions.OptionsBuilder.SetCustomIntentMode | src/common/options.rs:1667-1671 | sets `custom_intent_mode` to the given value; every other field unchanged |
| CommonOptions.OptionsBuilder.SetSentiment | src/common/options.rs:1723-1727 | sets `sentiment` to the given value; every other field unchanged |
| CommonOptions.OptionsBuilder.SetTopics | src/common/options.rs:1744-1748 | sets `topics` to the given value; every other field unchanged |
| CommonOptions.OptionsBuilder.SetCustomTopicMode | src/common/options.rs:1800-1804 | sets `custom_topic_mode` to the given value; every other field unchanged |
| CommonOptions.OptionsBuilder.SetSummarize | src/common/options.rs:1821-1824 | sets `summarize` to the given value; every other field unchanged |
| CommonOptions.OptionsBuilder.SetDictation | src/common/options.rs:1841-1845 | sets `dictation` to the given value; every other field unchanged |
| CommonOptions.OptionsBuilder.SetMeasurements | src/common/options.rs:1862-1866 | sets `measurements` to the given value; every other field unchanged |
| CommonOptions.OptionsBuilder.SetExtra | src/common/options.rs:1884-1887 | sets `extra` to the given value; every other field unchanged |
| CommonOptions.OptionsBuilder.SetCallbackMethod | src/common/options.rs:1909-1912 | sets `callback_method` to the given value; every other field unchanged |
| CommonOptions.OptionsBuilder.AddRedact | src/common/options.rs:880-883 | appends the given items to `redact`, after the ones already there; every other field unchanged |
| CommonOptions.OptionsBuilder.AddSearch | src/common/options.rs:1186-1189 | appends the given items to `search`, after the ones already there; every other field unchanged |
| CommonOptions.OptionsBuilder.AddReplace | src/common/options.rs:1247-1250 | appends the given items to `replace`, after the ones already there; every other field unchanged |
| CommonOptions.OptionsBuilder.AddKeywords | src/common/options.rs:1287-1295 | appends the keywords without intensifiers, after the ones already there; every other field unchanged |
| CommonOptions.OptionsBuilder.KeywordsWithIntensifiers | src/common/options.rs:1359-1365 | appends the keywords with their intensifiers, after the ones already there; every other field unchanged |
| CommonOptions.OptionsBuilder.AddTag | src/common/options.rs:1473-1476 | appends the given items to `tags`, after the ones already there; every other field unchanged |
| CommonOptions.OptionsBuilder.AddQueryParams | src/common/options.rs:1521-1524 | appends the given items to `query_params`, after the ones already there; every other field unchanged |
| CommonOptions.OptionsBuilder.AddCustomIntents | src/common/options.rs:1698-1706 | appends the given items to `custom_intents`, after the ones already there; every other field unchanged |
| CommonOptions.OptionsBuilder.AddCustomTopics | src/common/options.rs:1775-1783 | appends the given items to `custom_topics`, after the ones already there; every other field unchanged |
| CommonOptions.OptionsBuilder.Build | src/common/options.rs:1915-1917 | returns exactly the options built so far |
| CommonOptions.PlainKeywordsAppend | src/common/options.rs:1287-1295 | converting two keyword lists one after the other equals converting their concatenation |
| CommonOptions.HeadIgnoresShadowedModel | src/common/options.rs:1985-2006 | with per-channel models, changing the plain model leaves the head pairs unchanged |
| CommonOptions.PairsIgnoreShadowedModel | src/common/options.rs:1985-2006 | with per-channel models, changing the plain model leaves all pairs unchanged |
| CommonOptions.ExamplePairs | src/common/options.rs:673-680 | model Nova2 and detect_language Enabled serialise to `[("model","nova-2"), ("detect_language","true")]` |
| CommonOptions.ExampleText | src/common/options.rs:673-680 | those pairs are written `model=nova-2&detect_language=true`, nothing in them being reserved |
| CommonOptions.DefaultOptions | src/common/options.rs:53-57 | the default options are a new builder's options, and send no pairs |
| CommonOptions.MultichannelDiscardsModels | src/common/options.rs:966-991 | `multichannel(true)` after per-channel models gives plain Enabled, the same as `multichannel(true)` alone |
| CommonOptions.ChannelModelsHideModel | src/common/options.rs:1985-2006 | two option sets that differ only in the plain model send the same pairs when per-channel models are set |
| CommonOptions.ChannelModelsAppend | src/common/options.rs:1063-1110 | two `multichannel_with_models` calls equal one call with the concatenated lists |
| CommonOptions.KeywordsAppend | src/common/options.rs:1287-1295 | two `keywords` calls equal one call with the concatenated lists, and only `keywords` is set |
| CommonOptions.RedactAppend | src/common/options.rs:880-883 | two `redact` calls equal one call with the concatenated lists, and only `redact` is set |
| CommonOptions.SearchAppend | src/common/options.rs:1186-1189 | two `search` calls equal one call with the concatenated lists, and only `search` is set |
| CommonOptions.ReplaceAppend | src/common/options.rs:1247-1250 | two `replace` calls equal one call with the concatenated lists, and only `replace` is set |
| CommonOptions.KeywordsWithIntensifiersAppend | src/common/options.rs:1359-1365 | two `keywords_with_intensifiers` calls equal one call with the concatenated lists, and only `keywords` is set |
| CommonOptions.TagAppend | src/common/options.rs:1473-1476 | two `tag` calls equal one call with the concatenated lists, and only `tags` is set |
| CommonOptions.QueryParamsAppend | src/common/options.rs:1521-1524 | two `query_params` calls equal one call with the concatenated lists, and only `query_params` is set |
| CommonOptions.CustomIntentsAppend | src/common/options.rs:1698-1706 | two `custom_intents` calls equal one call with the concatenated lists, and only `custom_intents` is set |
| CommonOptions.CustomTopicsAppend | src/common/options.rs:1775-1783 | two `custom_topics` calls equal one call with the concatenated lists, and only `custom_topics` is set |
| CommonOptions.UrlencodedExample | src/common/options.rs:673-680 | the documented example builds and encodes to `model=nova-2&detect_language=true` |
| TranscriptionNames.TierName | src/transcription/common/options.rs:207-216 | `enhanced` exactly for Enhanced and `base` exactly for Base |
| TranscriptionNames.ModelNameInjective | src/transcription/common/options.rs:218-233 | two listed models with the same name are the same model |
| TranscriptionNames.ListedLanguage | src/transcription/common/options.rs:235-270 | the inverse of the language table: a tag it does not list becomes `Other` of exactly that text |
| TranscriptionNames.LanguageRoundTrip | src/transcription/common/options.rs:235-270 | every listed language is recovered from its tag, so no two listed languages share one |
| TranscriptionNames.RedactName | src/transcription/common/options.rs:272-283 | a custom redaction passes through verbatim |
| TranscriptionNames.RedactNameInjective | src/transcription/common/options.rs:272-283 | two listed redactions with the same name are the same |
| TranscriptionNames.ModelNames | src/transcription/common/options.rs:285-292 | one name per model, in order |
| TranscriptionNames.ModelsToStringSplits | src/transcription/common/options.rs:285-292 | splitting the joined names at `:` gives each model's name, in order, when no name holds `:` |
| TranscriptionNames.ModelsToStringExamples | src/transcription/common/options.rs:297-305 | no models give the empty string and `[General]` gives `general` |
| TranscriptionNames.ModelsToStringThree | src/transcription/common/options.rs:307-325 | three models join as their names separated by `:`, in order |
| TranscriptionOptions.PlainKeywords | src/transcription/prerecorded/options.rs:872-880 | each keyword given without an intensifier, in order |
| TranscriptionOptions.PlainKeywordsAppend | src/transcription/prerecorded/options.rs:872-880 | converting two keyword lists one after the other equals converting their concatenation |
| TranscriptionOptions.Serialize | src/transcription/prerecorded/options.rs:1116-1272 | the pairs the serialiser emits, field by field, are exactly `Pairs(o)` |
| TranscriptionOptions.EmitFront | src/transcription/prerecorded/options.rs:1149-1215 | tier through numerals emit exactly the front group |
| TranscriptionOptions.EmitBack | src/transcription/prerecorded/options.rs:1217-1269 | search through detect_language emit exactly the back group, the two flags as one step |
| TranscriptionOptions.PairsValues | src/transcription/prerecorded/options.rs:1116-1272 | the values of any key are those of the front group, then those of the back group |
| TranscriptionOptions.ModelSectionValues | src/transcription/prerecorded/options.rs:1153-1169 | per-channel models give one `model` value, their joined names; otherwise the plain model when set |
| TranscriptionOptions.MultichannelFlag | src/transcription/prerecorded/options.rs:1199-1207 | no value when unset, `false` exactly for Disabled, and `true` for per-channel models |
| TranscriptionOptions.UtterancesFlag | src/transcription/prerecorded/options.rs:1251-1261 | no value when unset and `false` exactly for Disabled |
| TranscriptionOptions.UttSplit | src/transcription/prerecorded/options.rs:1253-1259 | a split value is only ever sent together with `utterances=true` |
| TranscriptionOptions.UtterancesSectionValues | src/transcription/prerecorded/options.rs:1251-1261 | the utterances section sends exactly the flag and the split |
| TranscriptionOptions.TierFirst | src/transcription/prerecorded/options.rs:1149-1151 | the tier, when set, is the only `tier` value and the very first pair |
| TranscriptionOptions.ChannelModelsWin | src/transcription/prerecorded/options.rs:1153-1169 | with per-channel models the only `model` value is their joined names; the plain model is suppressed |
| TranscriptionOptions.PlainModel | src/transcription/prerecorded/options.rs:1162-1169 | without per-channel models the `model` value is the plain model when set, and nothing otherwise |
| TranscriptionOptions.MultichannelValues | src/transcription/prerecorded/options.rs:1199-1207 | the `multichannel` values are exactly the flag |
| TranscriptionOptions.ListValues | src/transcription/prerecorded/options.rs:1187-1189 | redact, search and tag send their lists in call order |
| TranscriptionOptions.TermValues | src/transcription/prerecorded/options.rs:1220-1238 | replace and keywords send one formatted value per element, in order |
| TranscriptionOptions.KeywordBoostValues | src/transcription/prerecorded/options.rs:1240-1242 | `keyword_boost=legacy` is sent exactly when the flag is set |
| TranscriptionOptions.FlagsAlwaysSent | src/transcription/prerecorded/options.rs:1244-1245 | filler_words and smart_format are each sent exactly once, set or not |
| TranscriptionOptions.UtterancesValues | src/transcription/prerecorded/options.rs:1251-1261 | Disabled sends `false`; Enabled sends `true`, then utt_split only when a split is given |
| TranscriptionOptions.DetectLanguageLast | src/transcription/prerecorded/options.rs:1267-1269 | detect_language, when set, is the only such value and the very last pair |
| TranscriptionOptions.InitialPairs | src/transcription/prerecorded/options.rs:269-294 | a new builder's options send exactly `filler_words=false` and `smart_format=false` |
| TranscriptionOptions.OptionsBuilder.constructor | src/transcription/prerecorded/options.rs:269-294 | filler_words, smart_format and keyword_boost_legacy false; every other field unset or empty |
| TranscriptionOptions.OptionsBuilder.SetModel | src/transcription/prerecorded/options.rs:359-367 | sets the model; models given per channel are reset to `Enabled{None}`; every other field unchanged |
| TranscriptionOptions.OptionsBuilder.MultichannelWithModels | src/transcription/prerecorded/options.rs:679-695 | extends existing per-channel models, or else sets `Enabled` with exactly the given list; every other field unchanged |
| TranscriptionOptions.OptionsBuilder.SetTier | src/transcription/prerecorded/options.rs:316-319 | sets `tier` to the given value; every other field unchanged |
| TranscriptionOptions.OptionsBuilder.SetVersion | src/transcription/prerecorded/options.rs:384-387 | sets `version` to the given value; every other field unchanged |
| TranscriptionOptions.OptionsBuilder.SetLanguage | src/transcription/prerecorded/options.rs:404-407 | sets `language` to the given value; every other field unchanged |
| TranscriptionOptions.OptionsBuilder.SetPunctuate | src/transcription/prerecorded/options.rs:424-427 | sets `punctuate` to the given value; every other field unchanged |
| TranscriptionOptions.OptionsBuilder.SetProfanityFilter | src/transcription/prerecorded/options.rs:446-449 | sets `profanity_filter` to the given value; every other field unchanged |
| TranscriptionOptions.OptionsBuilder.SetDiarize | src/transcription/prerecorded/options.rs:505-508 | sets `diarize` to the given value; every other field unchanged |
| TranscriptionOptions.OptionsBuilder.SetNer | src/transcription/prerecorded/options.rs:527-530 | sets `ner` to the given value; every other field unchanged |
| TranscriptionOptions.OptionsBuilder.SetMultichannel | src/transcription/prerecorded/options.rs:568-576 | `true` gives `Enabled{None}` and `false` gives Disabled, discarding any models; every other field unchanged |
| TranscriptionOptions.OptionsBuilder.SetAlternatives | src/transcription/prerecorded/options.rs:712-715 | sets `alternatives` to the given value; every other field unchanged |
| TranscriptionOptions.OptionsBuilder.SetNumerals | src/transcription/prerecorded/options.rs:734-737 | sets `numerals` to the given value; every other field unchanged |
| TranscriptionOptions.OptionsBuilder.KeywordBoostLegacy | src/transcription/prerecorded/options.rs:968-971 | sets `keyword_boost_legacy`; every other field unchanged |
| TranscriptionOptions.OptionsBuilder.SetUtterances | src/transcription/prerecorded/options.rs:990-998 | sets utterances to `Enabled{None}` or Disabled; every other field unchanged |
| TranscriptionOptions.OptionsBuilder.UtterancesWithUttSplit | src/transcription/prerecorded/options.rs:1019-1024 | sets utterances to `Enabled` with the split; every other field unchanged |
| TranscriptionOptions.OptionsBuilder.SetDetectLanguage | src/transcription/prerecorded/options.rs:1078-1082 | sets `detect_language` to the given value; every other field unchanged |
| TranscriptionOptions.OptionsBuilder.SetSmartFormat | src/transcription/prerecorded/options.rs:1085-1089 | sets `smart_format` to the given value; every other field unchanged |
| TranscriptionOptions.OptionsBuilder.SetFillerWords | src/transcription/prerecorded/options.rs:1092-1096 | sets `filler_words` to the given value; every other field unchanged |
| TranscriptionOptions.OptionsBuilder.SetParagraphs | src/transcription/prerecorded/options.rs:1099-1103 | sets `paragraphs` to the given value; every other field unchanged |
| TranscriptionOptions.OptionsBuilder.AddRedact | src/transcription/prerecorded/options.rs:485-488 | appends the given items to `redact`, after the ones already there; every other field unchanged |
| TranscriptionOptions.OptionsBuilder.AddSearch | src/transcription/prerecorded/options.rs:771-774 | appends the given items to `search`, after the ones already there; every other field unchanged |
| TranscriptionOptions.OptionsBuilder.AddReplace | src/transcription/prerecorded/options.rs:832-835 | appends the given items to `replace`, after the ones already there; every other field unchanged |
| TranscriptionOptions.OptionsBuilder.AddKeywords | src/transcription/prerecorded/options.rs:872-880 | appends the keywords without intensifiers; every other field unchanged |
| TranscriptionOptions.OptionsBuilder.KeywordsWithIntensifiers | src/transcription/prerecorded/options.rs:944-950 | appends the keywords with their intensifiers; every other field unchanged |
| TranscriptionOptions.OptionsBuilder.AddTag | src/transcription/prerecorded/options.rs:1058-1061 | appends the given items to `tags`, after the ones already there; every other field unchanged |
| TranscriptionOptions.OptionsBuilder.Build | src/transcription/prerecorded/options.rs:1105-1107 | returns exactly the options built so far |
| TranscriptionOptions.ModelResetsChannelModels | src/transcription/prerecorded/options.rs:344-367 | `multichannel_with_models` then `model(m)` equals `multichannel(true)` then `model(m)`: `Enabled{None}` and model `m` |
| TranscriptionOptions.MultichannelDiscardsModels | src/transcription/prerecorded/options.rs:568-576 | `multichannel(true)` after per-channel models equals `multichannel(true)` alone |
| TranscriptionOptions.ChannelModelsAppend | src/transcription/prerecorded/options.rs:648-695 | two `multichannel_with_models` calls equal one with the concatenated lists |
| TranscriptionOptions.KeywordsAppend | src/transcription/prerecorded/options.rs:872-880 | two `keywords` calls equal one call with the concatenated lists, and only `keywords` changes from a new builder |
| TranscriptionOptions.RedactAppend | src/transcription/prerecorded/options.rs:485-488 | two `redact` calls equal one call with the concatenated lists, and only `redact` changes from a new builder |
| TranscriptionOptions.SearchAppend | src/transcription/prerecorded/options.rs:771-774 | two `search` calls equal one call with the concatenated lists, and only `search` changes from a new builder |
| TranscriptionOptions.ReplaceAppend | src/transcription/prerecorded/options.rs:832-835 | two `replace` calls equal one call with the concatenated lists, and only `replace` changes from a new builder |
| TranscriptionOptions.KeywordsWithIntensifiersAppend | src/transcription/prerecorded/options.rs:944-950 | two `keywords_with_intensifiers` calls equal one call with the concatenated lists, and only `keywords` changes from a new builder |
| TranscriptionOptions.TagAppend | src/transcription/prerecorded/options.rs:1058-1061 | two `tag` calls equal one call with the concatenated lists, and only `tags` changes from a new builder |
| PrerecordedOptions.ModelName | src/prerecorded/options.rs:223-233 | `conversational` for Conversational, and a custom model id passes through verbatim |
| PrerecordedOptions.ModelNameInjective | src/prerecorded/options.rs:223-233 | two listed models with the same name are the same model |
| PrerecordedOptions.LanguageName | src/prerecorded/options.rs:242-269 | Portuguese of Brazil is sent as `pr_BR`, as written, and a free-form tag passes through verbatim |
| PrerecordedOptions.ListedLanguage | src/prerecorded/options.rs:242-269 | the inverse of the language table: a tag it does not list becomes `Other` of exactly that text |
| PrerecordedOptions.LanguageRoundTrip | src/prerecorded/options.rs:242-269 | every listed language is recovered from its tag, so no two listed languages share one |
| PrerecordedOptions.RedactName | src/prerecorded/options.rs:282-291 | a free-form redaction passes through verbatim |
| PrerecordedOptions.Serialize | src/prerecorded/options.rs:197-344 | the pairs the serialiser emits, field by field in declaration order, are exactly `Pairs(o)` |
| PrerecordedOptions.UtterancesFlag | src/prerecorded/options.rs:325-337 | no value when unset and `false` exactly for Disabled |
| PrerecordedOptions.UttSplit | src/prerecorded/options.rs:330-335 | a split value is only ever sent together with `utterances=true` |
| PrerecordedOptions.UtterancesSectionValues | src/prerecorded/options.rs:325-337 | the utterances section sends exactly the flag and the split |
| PrerecordedOptions.ListValues | src/prerecorded/options.rs:282-323 | redact, search and keywords send one pair per element, in call order |
| PrerecordedOptions.SingleValues | src/prerecorded/options.rs:223-272 | model and language each send one pair, their name, exactly when set |
| PrerecordedOptions.CallbackTagValues | src/prerecorded/options.rs:317-341 | callback and tag each send one pair, verbatim, exactly when set |
| PrerecordedOptions.UtterancesValues | src/prerecorded/options.rs:325-337 | the `utterances` and `utt_split` values of the whole serialisation are the flag and the split |
| PrerecordedOptions.InitialPairs | src/prerecorded/options.rs:88-107 | a new builder sends nothing at all |
| PrerecordedOptions.OptionsBuilder.constructor | src/prerecorded/options.rs:88-107 | every field unset or empty |
| PrerecordedOptions.OptionsBuilder.SetModel | src/prerecorded/options.rs:109-112 | sets `model` to the given value; every other field unchanged |
| PrerecordedOptions.OptionsBuilder.SetVersion | src/prerecorded/options.rs:114-117 | sets `version` to the given value; every other field unchanged |
| PrerecordedOptions.OptionsBuilder.SetLanguage | src/prerecorded/options.rs:119-122 | sets `language` to the given value; every other field unchanged |
| PrerecordedOptions.OptionsBuilder.SetPunctuate | src/prerecorded/options.rs:124-127 | sets `punctuate` to the given value; every other field unchanged |
| PrerecordedOptions.OptionsBuilder.SetProfanityFilter | src/prerecorded/options.rs:129-132 | sets `profanity_filter` to the given value; every other field unchanged |
| PrerecordedOptions.OptionsBuilder.SetDiarize | src/prerecorded/options.rs:139-142 | sets `diarize` to the given value; every other field unchanged |
| PrerecordedOptions.OptionsBuilder.SetNer | src/prerecorded/options.rs:144-147 | sets `ner` to the given value; every other field unchanged |
| PrerecordedOptions.OptionsBuilder.SetMultichannel | src/prerecorded/options.rs:149-152 | sets `multichannel` to the given value; every other field unchanged |
| PrerecordedOptions.OptionsBuilder.SetAlternatives | src/prerecorded/options.rs:154-157 | sets `alternatives` to the given value; every other field unchanged |
| PrerecordedOptions.OptionsBuilder.SetNumerals | src/prerecorded/options.rs:159-162 | sets `numerals` to the given value; every other field unchanged |
| PrerecordedOptions.OptionsBuilder.SetCallback | src/prerecorded/options.rs:169-172 | sets `callback` to the given value; every other field unchanged |
| PrerecordedOptions.OptionsBuilder.SetUtterances | src/prerecorded/options.rs:179-182 | sets `utterances` to the given value; every other field unchanged |
| PrerecordedOptions.OptionsBuilder.SetTag | src/prerecorded/options.rs:184-187 | sets `tag` to the given value; every other field unchanged |
| PrerecordedOptions.OptionsBuilder.AddRedact | src/prerecorded/options.rs:134-137 | appends the given items to `redact`, after the ones already there; every other field unchanged |
| PrerecordedOptions.OptionsBuilder.AddSearch | src/prerecorded/options.rs:164-167 | appends the given items to `search`, after the ones already there; every other field unchanged |
| PrerecordedOptions.OptionsBuilder.AddKeywords | src/prerecorded/options.rs:174-177 | appends the given items to `keywords`, after the ones already there; every other field unchanged |
| PrerecordedOptions.OptionsBuilder.Serialized | src/prerecorded/options.rs:197-344 | the options serialised are exactly the builder's current options |
| PrerecordedOptions.RedactAppend | src/prerecorded/options.rs:460-485 | two `redact` calls equal one call with the concatenated list, in order |
| PrerecordedOptions.SearchAppend | src/prerecorded/options.rs:164-167 | two `search` calls equal one call with the concatenated list, in order |
| PrerecordedOptions.KeywordsAppend | src/prerecorded/options.rs:174-177 | two `keywords` calls equal one call with the concatenated list, in order |
| PrerecordedOptions.TagOverwrites | src/prerecorded/options.rs:184-187 | a second `tag` call replaces the first: the builder keeps only the last tag |
| PrerecordedClosedOptions.EmbedLanguage | src/prerecorded/options/mod.rs:38-63 | every closed language is a listed language of the open table, never a free-form one |
| PrerecordedClosedOptions.EmbedRedact | src/prerecorded/options/mod.rs:66-70 | every closed redaction kind is a listed kind of the open table |
| PrerecordedClosedOptions.EmbedRedacts | src/prerecorded/options/mod.rs:188-333 | the embedded list has the same length and embeds each element in place |
| PrerecordedClosedOptions.EmbedLanguageOption | src/prerecorded/options/mod.rs:188-333 | a language is present after embedding exactly when it was, and then embedded |
| PrerecordedClosedOptions.LanguagesListed | src/prerecorded/options/mod.rs:233-262 | each closed language's tag reads back as that language in the open table; Portuguese of Brazil sends `pr_BR` |
| PrerecordedClosedOptions.LanguageNameInjective | src/prerecorded/options/mod.rs:233-262 | no two closed languages share a tag |
| PrerecordedClosedOptions.Serialize | src/prerecorded/options/mod.rs:188-333 | the pairs emitted are exactly the open version's pairs on the embedded options |
| PrerecordedClosedOptions.InitialPairs | src/prerecorded/options/mod.rs:79-98 | a new builder embeds as the open version's new builder and sends nothing |
| PrerecordedClosedOptions.LanguageValues | src/prerecorded/options/mod.rs:233-262 | the language, when set, is sent once by its tag, and that tag is always a listed one |
| PrerecordedClosedOptions.RedactValues | src/prerecorded/options/mod.rs:272-280 | the redaction kinds are sent one pair each, in call order |
| PrerecordedClosedOptions.UtterancesValues | src/prerecorded/options/mod.rs:314-326 | utterances and utt_split are sent as in the open version; Disabled sends `false` |
| PrerecordedClosedOptions.OptionsBuilder.constructor | src/prerecorded/options/mod.rs:79-98 | every field unset or empty |
| PrerecordedClosedOptions.OptionsBuilder.SetModel | src/prerecorded/options/mod.rs:100-103 | sets `model` to the given value; every other field unchanged |
| PrerecordedClosedOptions.OptionsBuilder.SetVersion | src/prerecorded/options/mod.rs:105-108 | sets `version` to the given value; every other field unchanged |
| PrerecordedClosedOptions.OptionsBuilder.SetLanguage | src/prerecorded/options/mod.rs:110-113 | sets `language` to the given value; every other field unchanged |
| PrerecordedClosedOptions.OptionsBuilder.SetPunctuate | src/prerecorded/options/mod.rs:115-118 | sets `punctuate` to the given value; every other field unchanged |
| PrerecordedClosedOptions.OptionsBuilder.SetProfanityFilter | src/prerecorded/options/mod.rs:120-123 | sets `profanity_filter` to the given value; every other field unchanged |
| PrerecordedClosedOptions.OptionsBuilder.SetDiarize | src/prerecorded/options/mod.rs:130-133 | sets `diarize` to the given value; every other field unchanged |
| PrerecordedClosedOptions.OptionsBuilder.SetNer | src/prerecorded/options/mod.rs:135-138 | sets `ner` to the given value; every other field unchanged |
| PrerecordedClosedOptions.OptionsBuilder.SetMultichannel | src/prerecorded/options/mod.rs:140-143 | sets `multichannel` to the given value; every other field unchanged |
| PrerecordedClosedOptions.OptionsBuilder.SetAlternatives | src/prerecorded/options/mod.rs:145-148 | sets `alternatives` to the given value; every other field unchanged |
| PrerecordedClosedOptions.OptionsBuilder.SetNumerals | src/prerecorded/options/mod.rs:150-153 | sets `numerals` to the given value; every other field unchanged |
| PrerecordedClosedOptions.OptionsBuilder.SetCallback | src/prerecorded/options/mod.rs:160-163 | sets `callback` to the given value; every other field unchanged |
| PrerecordedClosedOptions.OptionsBuilder.SetUtterances | src/prerecorded/options/mod.rs:170-173 | sets `utterances` to the given value; every other field unchanged |
| PrerecordedClosedOptions.OptionsBuilder.SetTag | src/prerecorded/options/mod.rs:175-178 | sets `tag` to the given value; every other field unchanged |
| PrerecordedClosedOptions.OptionsBuilder.AddRedact | src/prerecorded/options/mod.rs:125-128 | appends the given items to `redact`, after the ones already there; every other field unchanged |
| PrerecordedClosedOptions.OptionsBuilder.AddSearch | src/prerecorded/options/mod.rs:155-158 | appends the given items to `search`, after the ones already there; every other field unchanged |
| PrerecordedClosedOptions.OptionsBuilder.AddKeywords | src/prerecorded/options/mod.rs:165-168 | appends the given items to `keywords`, after the ones already there; every other field unchanged |
| PrerecordedClosedOptions.OptionsBuilder.Serialized | src/prerecorded/options/mod.rs:188-333 | the options serialised are exactly the builder's current options |
| PrerecordedClosedOptions.RedactAppend | src/prerecorded/options/serialize_options_tests.rs:91-103 | two `redact` calls equal one call with the concatenated list, in order |
| PrerecordedClosedOptions.SearchAppend | src/prerecorded/options/mod.rs:155-158 | two `search` calls equal one call with the concatenated list, in order |
| PrerecordedClosedOptions.KeywordsAppend | src/prerecorded/options/mod.rs:165-168 | two `keywords` calls equal one call with the concatenated list, in order |
| PrerecordedClosedOptions.TagOverwrites | src/prerecorded/options/mod.rs:175-178 | a second `tag` call replaces the first: the builder keeps only the last tag |
| UsageOptions.MethodName | src/manage/usage/get_usage_options.rs:586-594 | every method is sent as `sync`, `async` or `streaming`, and `streaming` only for Streaming |
| UsageOptions.MethodNameInjective | src/manage/usage/get_usage_options.rs:586-594 | no two methods share a name |
| UsageOptions.PairsValues | src/manage/usage/get_usage_options.rs:472-582 | the values of any key are those of the range and list section, then those of the flags |
| UsageOptions.Serialize | src/manage/usage/get_usage_options.rs:472-582 | the serialiser emits exactly the as-written pairs, `replace` included twice |
| UsageOptions.RangeValues | src/manage/usage/get_usage_options.rs:501-511 | start, end and accessor each send one pair, verbatim, exactly when set |
| UsageOptions.ListValues | src/manage/usage/get_usage_options.rs:513-523 | tags, methods and models send one pair per element in call order, methods by name |
| UsageOptions.ReplaceSentOnce | src/manage/usage/get_usage_options.rs:545-547 | in the corrected serialisation `replace` is sent once exactly when set |
| UsageOptions.FlagsReplaceTwice | src/manage/usage/get_usage_options.rs:545-551 | as written, the flag section sends a set `replace` twice |
| UsageOptions.ReplaceSentTwice | src/manage/usage/get_usage_options.rs:545-551 | as written, a set `replace` appears twice in the whole serialisation |
| UsageOptions.AsWrittenOtherKeys | src/manage/usage/get_usage_options.rs:472-582 | apart from `replace`, the as-written and corrected serialisations send the same values for every key |
| UsageOptions.AsWrittenWithoutReplace | src/manage/usage/get_usage_options.rs:472-582 | with `replace` unset the as-written and corrected serialisations are identical |
| UsageOptions.ReplaceExample | src/manage/usage/get_usage_options.rs:336-339 | `replace(true)` alone serialises as two `replace=true` pairs as written, one when corrected |
| UsageOptions.InitialPairs | src/manage/usage/get_usage_options.rs:68-90 | a new builder sends nothing, as written and corrected |
| UsageOptions.OptionsBuilder.constructor | src/manage/usage/get_usage_options.rs:68-90 | every field unset or empty |
| UsageOptions.OptionsBuilder.SetStart | src/manage/usage/get_usage_options.rs:103-106 | sets `start` to the given value; every other field unchanged |
| UsageOptions.OptionsBuilder.SetEnd | src/manage/usage/get_usage_options.rs:119-122 | sets `end` to the given value; every other field unchanged |
| UsageOptions.OptionsBuilder.SetAccessor | src/manage/usage/get_usage_options.rs:135-138 | sets `accessor` to the given value; every other field unchanged |
| UsageOptions.OptionsBuilder.AddTag | src/manage/usage/get_usage_options.rs:168-171 | appends the given items to `tag`, after the ones already there; every other field unchanged |
| UsageOptions.OptionsBuilder.AddMethod | src/manage/usage/get_usage_options.rs:201-204 | appends the given items to `method`, after the ones already there; every other field unchanged |
| UsageOptions.OptionsBuilder.AddModel | src/manage/usage/get_usage_options.rs:240-243 | appends the given items to `model`, after the ones already there; every other field unchanged |
| UsageOptions.OptionsBuilder.SetMultichannel | src/manage/usage/get_usage_options.rs:256-259 | sets `multichannel` to the given value; every other field unchanged |
| UsageOptions.OptionsBuilder.SetInterimResults | src/manage/usage/get_usage_options.rs:272-275 | sets `interim_results` to the given value; every other field unchanged |
| UsageOptions.OptionsBuilder.SetPunctuate | src/manage/usage/get_usage_options.rs:288-291 | sets `punctuate` to the given value; every other field unchanged |
| UsageOptions.OptionsBuilder.SetNer | src/manage/usage/get_usage_options.rs:304-307 | sets `ner` to the given value; every other field unchanged |
| UsageOptions.OptionsBuilder.SetUtterances | src/manage/usage/get_usage_options.rs:320-323 | sets `utterances` to the given value; every other field unchanged |
| UsageOptions.OptionsBuilder.SetReplace | src/manage/usage/get_usage_options.rs:336-339 | sets `replace` to the given value; every other field unchanged |
| UsageOptions.OptionsBuilder.SetProfanityFilter | src/manage/usage/get_usage_options.rs:352-355 | sets `profanity_filter` to the given value; every other field unchanged |
| UsageOptions.OptionsBuilder.SetKeywords | src/manage/usage/get_usage_options.rs:368-371 | sets `keywords` to the given value; every other field unchanged |
| UsageOptions.OptionsBuilder.SetDiarize | src/manage/usage/get_usage_options.rs:384-387 | sets `diarize` to the given value; every other field unchanged |
| UsageOptions.OptionsBuilder.SetSearch | src/manage/usage/get_usage_options.rs:400-403 | sets `search` to the given value; every other field unchanged |
| UsageOptions.OptionsBuilder.SetRedact | src/manage/usage/get_usage_options.rs:416-419 | sets `redact` to the given value; every other field unchanged |
| UsageOptions.OptionsBuilder.SetAlternatives | src/manage/usage/get_usage_options.rs:432-435 | sets `alternatives` to the given value; every other field unchanged |
| UsageOptions.OptionsBuilder.SetNumerals | src/manage/usage/get_usage_options.rs:448-451 | sets `numerals` to the given value; every other field unchanged |
| UsageOptions.OptionsBuilder.Build | src/manage/usage/get_usage_options.rs:454-456 | returns exactly the options built so far |
| UsageOptions.TagAppend | src/manage/usage/get_usage_options.rs:168-171 | two `tag` calls equal one call with the concatenated list, in order |
| UsageOptions.MethodAppend | src/manage/usage/get_usage_options.rs:201-204 | two `method` calls equal one call with the concatenated list, in order |
| UsageOptions.ModelAppend | src/manage/usage/get_usage_options.rs:240-243 | two `model` calls equal one call with the concatenated list, in order |
| UsageOptions.StartOverwrites | src/manage/usage/get_usage_options.rs:103-106 | a second `start` call replaces the first |
| KeyOptions.ToSerializable | src/manage/keys/options.rs:228-256 | comment, tags and scopes copied; the expiration becomes exactly the field of its kind, so never both |
| KeyOptions.TagsMember | src/manage/keys/options.rs:36-37 | the tags member, when present, is named `tags` |
| KeyOptions.DateMember | src/manage/keys/options.rs:41-42 | the expiration member, when present, is named `expiration_date` |
| KeyOptions.TimeToLiveMember | src/manage/keys/options.rs:44-45 | the time-to-live member, when present, is named `time_to_live_in_seconds` |
| KeyOptions.BodyComment | src/manage/keys/options.rs:33-46 | the body's `comment` member is the comment |
| KeyOptions.BodyTags | src/manage/keys/options.rs:36-37 | the tags read back from the body are exactly the tags, absent when empty |
| KeyOptions.BodyScopes | src/manage/keys/options.rs:33-46 | the body always holds `scopes` as an array of the scopes, and they read back |
| KeyOptions.BodyExpiration | src/manage/keys/options.rs:41-45 | the two expiration members read back as exactly the fields, absent when unset |
| KeyOptions.BodyRoundTrip | src/manage/keys/options.rs:33-46 | reading the body back gives the serialisable struct it was written from |
| KeyOptions.OptionsRoundTrip | src/manage/keys/options.rs:228-256 | the options are recovered from their body: nothing the builder set is lost |
| KeyOptions.BodyShape | src/manage/keys/options.rs:33-46 | `tags` present exactly when there are tags, `scopes` always, each expiration member exactly when set |
| KeyOptions.OptionsBuilder.constructor | src/manage/keys/options.rs:60-67 | the given comment and scopes, no tags and no expiration |
| KeyOptions.OptionsBuilder.SetComment | src/manage/keys/options.rs:87-90 | sets `comment` to the given value; every other field unchanged |
| KeyOptions.OptionsBuilder.AddTags | src/manage/keys/options.rs:120-123 | appends the given items to `tags`, after the ones already there; every other field unchanged |
| KeyOptions.OptionsBuilder.AddScopes | src/manage/keys/options.rs:150-153 | appends the given items to `scopes`, after the ones already there; every other field unchanged |
| KeyOptions.OptionsBuilder.SetExpirationDate | src/manage/keys/options.rs:183-186 | the expiration becomes the given date, replacing any time to live; every other field unchanged |
| KeyOptions.OptionsBuilder.SetTimeToLiveInSeconds | src/manage/keys/options.rs:216-219 | the expiration becomes the given seconds, replacing any date; every other field unchanged |
| KeyOptions.OptionsBuilder.Build | src/manage/keys/options.rs:222-224 | returns exactly the options built so far |
| KeyOptions.TimeToLiveAfterDate | src/manage/keys/options.rs:216-219 | a time to live set after a date replaces it: only `time_to_live_in_seconds` is sent |
| KeyOptions.DateAfterTimeToLive | src/manage/keys/options.rs:183-186 | a date set after a time to live replaces it: only `expiration_date` is sent |
| KeyOptions.CommentOverwrites | src/manage/keys/options.rs:87-90 | a second `comment` call replaces the first |
| KeyOptions.ScopesAppend | src/manage/keys/options.rs:150-153 | scopes given to `scopes` follow those given to `new`, in order |
| KeyOptions.TagsAppend | src/manage/keys/options.rs:120-123 | two `tag` calls equal one call with the concatenated list, in order |
| SpeakOptions.ModelName | src/speak/options.rs:57-75 | a custom voice id passes through verbatim |
| SpeakOptions.ListedModel | src/speak/options.rs:57-75 | the inverse of the voice table: a name it does not list becomes `CustomId` of exactly that text |
| SpeakOptions.ModelRoundTrip | src/speak/options.rs:57-75 | every listed voice is recovered from its name, so no two listed voices share one |
| SpeakOptions.EncodingName | src/speak/options.rs:106-119 | a custom encoding passes through verbatim |
| SpeakOptions.ListedEncoding | src/speak/options.rs:106-119 | the inverse of the encoding table: an unlisted name becomes `CustomEncoding` of exactly that text |
| SpeakOptions.EncodingRoundTrip | src/speak/options.rs:106-119 | every listed encoding is recovered from its name |
| SpeakOptions.ContainerNameAsWritten | src/speak/options.rs:142-151 | as written: a custom container passes through verbatim |
| SpeakOptions.ContainerName | src/speak/options.rs:142-151 | corrected: a custom container passes through verbatim and `None` is `none` |
| SpeakOptions.ContainerNoneMisspelled | src/speak/options.rs:126-151 | as written, the query name agrees with the lower-case serde name for every listed container except `None`, sent as `nonne` |
| SpeakOptions.ContainerNameAgrees | src/speak/options.rs:126-151 | the corrected name is the lower-case serde name of every listed container; it differs from as written only for `None` |
| SpeakOptions.ListedContainer | src/speak/options.rs:142-151 | the inverse of the container table: an unlisted name becomes `CustomContainer` of exactly that text |
| SpeakOptions.ContainerRoundTrip | src/speak/options.rs:142-151 | the corrected name of every listed container reads back as that container; as written `None` does not |
| SpeakOptions.Serialize | src/speak/options.rs:257-293 | the serialiser emits exactly the as-written pairs |
| SpeakOptions.AsWrittenDiffers | src/speak/options.rs:284-286 | the as-written pairs differ from the corrected ones exactly when the container is `None` |
| SpeakOptions.ProjectContainerAsWritten | src/speak/options.rs:284-286 | as written, a set container is sent once, by its as-written name |
| SpeakOptions.ModelEncodingValues | src/speak/options.rs:272-278 | model and encoding each send one pair, their name, exactly when set |
| SpeakOptions.RateValues | src/speak/options.rs:280-290 | sample and bit rates each send one pair, the decimal number, exactly when set |
| SpeakOptions.ContainerValue | src/speak/options.rs:284-286 | the container sends one pair, its name, exactly when set |
| SpeakOptions.PairsOrder | src/speak/options.rs:257-293 | with all five set, the pairs are model, encoding, sample_rate, container, bit_rate in that order |
| SpeakOptions.InitialPairs | src/speak/options.rs:184-192 | a new builder sends nothing |
| SpeakOptions.OptionsBuilder.constructor | src/speak/options.rs:184-192 | every field unset |
| SpeakOptions.OptionsBuilder.SetModel | src/speak/options.rs:199-202 | sets `model` to the given value; every other field unchanged |
| SpeakOptions.OptionsBuilder.SetEncoding | src/speak/options.rs:209-212 | sets `encoding` to the given value; every other field unchanged |
| SpeakOptions.OptionsBuilder.SetSampleRate | src/speak/options.rs:219-222 | sets `sample_rate` to the given value; every other field unchanged |
| SpeakOptions.OptionsBuilder.SetContainer | src/speak/options.rs:229-232 | sets `container` to the given value; every other field unchanged |
| SpeakOptions.OptionsBuilder.SetBitRate | src/speak/options.rs:239-242 | sets `bit_rate` to the given value; every other field unchanged |
| SpeakOptions.OptionsBuilder.Build | src/speak/options.rs:245-247 | returns exactly the options built so far |
| SpeakOptions.ModelOverwrites | src/speak/options.rs:199-202 | a second `model` call replaces the first |
| SpeakOptions.ContainerOverwrites | src/speak/options.rs:229-232 | a second `container` call replaces the first |
| SpeakRestOptions.Serialize | src/speak/rest/options.rs:114-150 | the pairs the serialiser emits are exactly `Pairs(o)`, in field order |
| SpeakRestOptions.StringValues | src/speak/rest/options.rs:129-143 | model, encoding and container are each sent once, verbatim, exactly when set |
| SpeakRestOptions.RateValues | src/speak/rest/options.rs:137-147 | the two signed rates are each sent once, as signed decimals, exactly when set |
| SpeakRestOptions.ModelOnlyQuery | src/speak/rest/options.rs:188-197 | a builder with only a model sends the one pair, written `model=aura-asteria-en` |
| SpeakRestOptions.AllOptionsPairs | src/speak/rest/options.rs:175-186 | all five set give model, encoding, sample_rate, container, bit_rate in that order |
| SpeakRestOptions.InitialPairs | src/speak/rest/options.rs:40-48 | a new builder sends nothing |
| SpeakRestOptions.OptionsBuilder.constructor | src/speak/rest/options.rs:40-48 | every field unset |
| SpeakRestOptions.OptionsBuilder.SetModel | src/speak/rest/options.rs:55-58 | sets `model` to the given value; every other field unchanged |
| SpeakRestOptions.OptionsBuilder.SetEncoding | src/speak/rest/options.rs:65-68 | sets `encoding` to the given value; every other field unchanged |
| SpeakRestOptions.OptionsBuilder.SetSampleRate | src/speak/rest/options.rs:75-78 | sets `sample_rate` to the given value; every other field unchanged |
| SpeakRestOptions.OptionsBuilder.SetContainer | src/speak/rest/options.rs:85-88 | sets `container` to the given value; every other field unchanged |
| SpeakRestOptions.OptionsBuilder.SetBitRate | src/speak/rest/options.rs:95-98 | sets `bit_rate` to the given value; every other field unchanged |
| SpeakRestOptions.OptionsBuilder.Build | src/speak/rest/options.rs:102-104 | returns exactly the options built so far |
| SpeakRestOptions.SampleRateOverwrites | src/speak/rest/options.rs:75-78 | a second `sample_rate` call replaces the first |
| ListRequestsOptions.StatusName | src/usage/list_requests_options.rs:149-168 | `succeeded` exactly for Succeeded and `failed` exactly for Failed |
| ListRequestsOptions.ToSerializable | src/usage/list_requests_options.rs:149-168 | start, end and limit copied; the status is present exactly when set, by name |
| ListRequestsOptions.ConversionRoundTrip | src/usage/list_requests_options.rs:149-168 | the options are recovered from the serialisable struct |
| ListRequestsOptions.PairsValues | src/usage/list_requests_options.rs:39-52 | each field is sent once exactly when set: start and end verbatim, limit in decimal, status by name |
| ListRequestsOptions.InitialPairs | src/usage/list_requests_options.rs:63-70 | a new builder sends nothing |
| ListRequestsOptions.OptionsBuilder.constructor | src/usage/list_requests_options.rs:63-70 | every field unset |
| ListRequestsOptions.OptionsBuilder.SetStart | src/usage/list_requests_options.rs:83-86 | sets `start` to the given value; every other field unchanged |
| ListRequestsOptions.OptionsBuilder.SetEnd | src/usage/list_requests_options.rs:99-102 | sets `end` to the given value; every other field unchanged |
| ListRequestsOptions.OptionsBuilder.SetLimit | src/usage/list_requests_options.rs:115-118 | sets `limit` to the given value; every other field unchanged |
| ListRequestsOptions.OptionsBuilder.SetStatus | src/usage/list_requests_options.rs:131-134 | sets `status` to the given value; every other field unchanged |
| ListRequestsOptions.OptionsBuilder.Build | src/usage/list_requests_options.rs:137-139 | returns exactly the options built so far |
| ListRequestsOptions.StatusOverwrites | src/usage/list_requests_options.rs:131-134 | a second `status` call replaces the first |
| FieldsOptions.Pairs | src/manage/usage/get_fields_options.rs:26-33 | one pair for each bound that is set, and no other |
| FieldsOptions.PairsValues | src/manage/usage/get_fields_options.rs:26-33 | each bound is sent once, verbatim, exactly when set, start first |
| FieldsOptions.TextRoundTrip | src/manage/usage/get_fields_options.rs:55-57 | the form parser reads the query text back as exactly the pairs, whatever the bounds hold |
| FieldsOptions.TextBothBounds | src/manage/usage/get_fields_options.rs:55-57 | with both bounds set the text is `start=`, the encoded start, `&end=`, the encoded end |
| FieldsOptions.TextExample | src/manage/usage/get_fields_options.rs:43-54 | the documented example: `start=2024-04-10T00%3A00%3A00Z`, `&`, `end=2024-10-10` |
| FieldsOptions.ColonsEncoded | src/manage/usage/get_fields_options.rs:43-54 | the two colons of an `a:b:c` bound are written `%3A`, the rest unchanged |
| FieldsOptions.OptionsBuilder.constructor | src/manage/usage/get_fields_options.rs:62-67 | both bounds unset |
| FieldsOptions.OptionsBuilder.SetStart | src/manage/usage/get_fields_options.rs:80-83 | sets `start` to the given value; every other field unchanged |
| FieldsOptions.OptionsBuilder.SetEnd | src/manage/usage/get_fields_options.rs:96-99 | sets `end` to the given value; every other field unchanged |
| FieldsOptions.OptionsBuilder.Build | src/manage/usage/get_fields_options.rs:102-104 | returns exactly the options built so far |
| FieldsOptions.StartOverwrites | src/manage/usage/get_fields_options.rs:80-83 | a second `start` call replaces the first |
| FieldsOptions.EndOverwrites | src/manage/usage/get_fields_options.rs:96-99 | a second `end` call replaces the first |
| ProjectOptions.Member | src/manage/projects/options.rs:27-33 | at most one member, and it carries the field's name |
| ProjectOptions.BodyRoundTrip | src/manage/projects/options.rs:27-33 | the options read back from their JSON body; each member present exactly when its field is set |
| ProjectOptions.InitialBody | src/manage/projects/options.rs:44-49 | a new builder sends the empty object |
| ProjectOptions.OptionsBuilder.constructor | src/manage/projects/options.rs:44-49 | name and company unset |
| ProjectOptions.OptionsBuilder.SetName | src/manage/projects/options.rs:62-65 | sets `name` to the given value; every other field unchanged |
| ProjectOptions.OptionsBuilder.SetCompany | src/manage/projects/options.rs:78-81 | sets `company` to the given value; every other field unchanged |
| ProjectOptions.OptionsBuilder.Build | src/manage/projects/options.rs:84-86 | returns exactly the options built so far |
| ProjectOptions.NameOverwrites | src/manage/projects/options.rs:62-65 | a second `name` call replaces the first |
| ProjectOptions.CompanyOverwrites | src/manage/projects/options.rs:78-81 | a second `company` call replaces the first |
| FluxMessages.FormatUuid | src/common/flux_response.rs:80 | a request id is written as 36 characters, the hyphenated form |
| FluxMessages.UuidRoundTrip | src/common/flux_response.rs:80 | every request id reads back from its hyphenated form |
| FluxMessages.CanonicalRoundTrip | src/common/flux_response.rs:309-314 | a lower-case hyphenated id text reads as an id that writes back as exactly that text |
| FluxMessages.ParseTurnEvent | src/common/flux_response.rs:224-245 | a known event name reads as the event of that name; anything else is `Unknown` |
| FluxMessages.TurnEventRoundTrip | src/common/flux_response.rs:224-245 | every event reads back from its name, and a text reads as a known event exactly when it is one of the five names |
| FluxMessages.FromTagged | src/common/flux_response.rs:103-143 | a tagged message always becomes a known message, never `Unknown` |
| FluxMessages.TaggedRoundTrip | src/common/flux_response.rs:102-221 | the conversions between tagged and untagged messages are mutually inverse on known messages |
| FluxMessages.U32Field | src/common/flux_response.rs:80-81 | an unsigned 32-bit field reads exactly when the member is an integer in range |
| FluxMessages.DecodeWords | src/common/flux_response.rs:248-256 | decoded words are as many as the JSON items |
| FluxMessages.DecodeWordArrayForm | src/common/flux_response.rs:250-256 | a word also reads from the sequence form, exactly when it is a text then a number |
| FluxMessages.ArrayWordExample | src/common/flux_response.rs:151-161 | `"words":[["hi",0.9]]` decodes as the word `hi` with confidence 0.9 |
| FluxMessages.Decode | src/common/flux_response.rs:147-163 | a value whose `type` is not Connected, TurnInfo or Error decodes as `Unknown` of itself, and only such a value; a known type never does |
| FluxMessages.EncodeWords | src/common/flux_response.rs:248-256 | one JSON item per word, in order |
| FluxMessages.Encode | src/common/flux_response.rs:167-220 | an unknown message is written back as exactly the value it was read from |
| FluxMessages.ErrorTagDecodes | src/common/flux_response.rs:94-99 | a value tagged `Error` decodes as the fatal error with its fields |
| FluxMessages.UntypedIsUnknown | src/common/flux_response.rs:289-294 | a value without a string `type` decodes as `Unknown` of itself |
| FluxMessages.MissingFieldIsError | src/common/flux_response.rs:156-160 | a known type without `sequence_id` is a decode error, not `Unknown` |
| FluxMessages.UnknownEventStaysTurn | src/common/flux_response.rs:296-306 | a TurnInfo with an unlisted event still decodes as TurnInfo, with the event `Unknown` |
| FluxMessages.DecodeEncodeWord | src/common/flux_response.rs:248-256 | every word reads back from its JSON |
| FluxMessages.DecodeEncodeWords | src/common/flux_response.rs:248-256 | every list of words reads back from its JSON |
| FluxMessages.DecodeEncodeConnected | src/common/flux_response.rs:172-181 | a Connected message reads back from its tagged JSON |
| FluxMessages.DecodeEncodeFatalError | src/common/flux_response.rs:206-217 | a fatal error reads back from its tagged JSON |
| FluxMessages.UuidFieldFormatted | src/common/flux_response.rs:80 | a member holding the hyphenated form of an id reads as that id |
| FluxMessages.EventFieldNamed | src/common/flux_response.rs:224-245 | a member holding an event's name reads as that event |
| FluxMessages.TurnInfoType | src/common/flux_response.rs:76-93 | a written TurnInfo carries the tag `TurnInfo` |
| FluxMessages.TurnInfoRequestId | src/common/flux_response.rs:83-84 | a written TurnInfo's request id reads back |
| FluxMessages.TurnInfoSequenceId | src/common/flux_response.rs:83-85 | a written TurnInfo's sequence id reads back |
| FluxMessages.TurnInfoEvent | src/common/flux_response.rs:83-86 | a written TurnInfo's event reads back |
| FluxMessages.TurnInfoTurnIndex | src/common/flux_response.rs:83-87 | a written TurnInfo's turn index reads back |
| FluxMessages.TurnInfoTailFields | src/common/flux_response.rs:83-93 | a written TurnInfo's audio window, transcript, words and confidence read back |
| FluxMessages.DecodeEncodeTurnInfo | src/common/flux_response.rs:182-205 | a TurnInfo message reads back from its tagged JSON |
| FluxMessages.DecodeEncode | src/common/flux_response.rs:146-221 | every known message reads back from what it is written as |
| FluxMessages.UnknownPreserved | src/common/flux_response.rs:316-324 | an unknown message decodes as itself and is written back unchanged |
| FluxMessages.ConnectedRoundTrip | src/common/flux_response.rs:308-314 | a Connected value with a lower-case hyphenated id decodes and writes back as exactly that value |
| Json.Lookup | src/common/flux_response.rs:153 | a member lookup finds nothing exactly when no member has that name |
| Json.GetString | src/common/flux_response.rs:153 | the text of a member is found exactly when the member exists and is a string |
| Json.LookupLast | src/common/flux_response.rs:153 | a member written last is the one found |
| Json.LookupOther | src/common/flux_response.rs:153 | a later member of another name does not change what a lookup finds |
| Json.StringsStrArr | src/manage/keys/options.rs:36-39 | an array of strings reads back as those strings |
| StreamUrls.Directory | src/listen/flux.rs:121-123 | the directory a relative path is joined to ends with `/`: the whole path when it already does, `/` when it has none |
| StreamUrls.Join | src/listen/flux.rs:121-123 | joining keeps scheme and host, drops the query, and puts the relative path after the base's directory |
| StreamUrls.WebsocketScheme | src/listen/flux.rs:126-136 | http and ws become ws, https and wss become wss, and any other scheme is rejected |
| StreamUrls.WebsocketSchemeIdempotent | src/listen/flux.rs:126-136 | rewriting a rewritten scheme changes nothing |
| StreamUrls.StreamUrl | src/listen/flux.rs:120-138 | a URL exactly for the four accepted schemes, at the joined path, with no query and the secure scheme exactly for a secure base |
| StreamUrls.UrlString | src/listen/flux.rs:608-624 | a URL without a query is written as scheme, `://`, host and path |
| StreamUrls.AppendPairs | src/speak/websocket.rs:50-64 | appending pairs keeps scheme, host and path and puts the pairs after the existing query, in order |
| StreamUrls.FluxUrlDefault | src/listen/flux.rs:608-615 | the default client streams Flux from `wss://api.deepgram.com/v2/listen` |
| StreamUrls.FluxUrlLocal | src/listen/flux.rs:617-624 | a client of `http://localhost:8080` streams Flux from `ws://localhost:8080/v2/listen` |
| StreamUrls.ListenStreamUrlDefault | src/listen/websocket.rs:556-563 | the default client streams from `wss://api.deepgram.com/v1/listen` |
| StreamUrls.ListenStreamUrlLocal | src/listen/websocket.rs:565-572 | a client of `http://localhost:8080` streams from `ws://localhost:8080/v1/listen` |
| StreamUrls.SpeakStreamUrlUnderPath | src/speak/websocket.rs:38-48 | a base with a path keeps it: `https://h/proxy/` speaks at `wss://h/proxy/v1/speak` |
| FileChunking.PollSpec | src/listen/flux.rs:574-600 | no item only with an empty buffer at the end of the file; a chunk is `chunk_size` bytes, or a shorter last one that empties everything |
| FileChunking.PollEnd | src/listen/flux.rs:582-584 | the stream ends only when the file had no more data and no errors |
| FileChunking.PollConserves | src/listen/flux.rs:574-600 | a poll loses and invents no byte: chunk, then new buffer, then unread pieces, is old buffer then pieces |
| FileChunking.PollErrors | src/listen/flux.rs:581 | each read error is handed on once, in order |
| FileChunking.PollProgress | src/listen/flux.rs:574-600 | every poll that yields an item consumes input, so the stream ends |
| FileChunking.ChunksConcat | src/listen/flux.rs:571-601 | the chunks of a whole stream, joined, are exactly the file's bytes |
| FileChunking.ChunksErrors | src/listen/flux.rs:571-601 | the stream hands on exactly the file's read errors, in order |
| FileChunking.ChunkSizes | src/listen/flux.rs:571-601 | every chunk has between 1 and `chunk_size` bytes, and only the last may be short |
| FileChunking.OnePieceExample | src/listen/flux.rs:571-601 | five bytes in chunks of two are two, two and one |
| FileChunking.FileChunker.constructor | src/listen/flux.rs:562-568 | the given file and chunk size, with an empty buffer |
| FileChunking.FileChunker.PollNext | src/listen/flux.rs:574-600 | the item and new state are those `PollSpec` gives for one poll of the buffer and remaining pieces |
| FileChunking.ChunkFile | src/listen/flux.rs:571-601 | draining the stream gives exactly the chunks `Chunks` lists |
| FluxRequest.StreamParams | src/listen/flux.rs:150-179 | encoding then sample_rate, each exactly when set, with their names and decimal text |
| FluxRequest.ConnectUrl | src/listen/flux.rs:150-179 | scheme, host and path are those of the stream URL |
| FluxRequest.ConnectUrlQuery | src/listen/flux.rs:150-179 | the query is the stream URL's own, then every option pair in order, then the streaming parameters |
| FluxRequest.ConnectUrlOptionsOnly | src/listen/flux.rs:627-636 | with neither streaming parameter set the query is the options' pairs |
| FluxRequest.ConnectUrlBothParams | src/listen/flux.rs:150-179 | both set: the option pairs, then `encoding`, then `sample_rate` |
| FluxRequest.FluxBuilder.constructor | src/listen/flux.rs:110-118 | the Flux endpoint of the base URL, the options, and no streaming parameters |
| FluxRequest.FluxBuilder.SetEncoding | src/listen/flux.rs:181-184 | sets the encoding; everything else unchanged |
| FluxRequest.FluxBuilder.SetSampleRate | src/listen/flux.rs:186-189 | sets the sample rate; everything else unchanged |
| FluxRequest.FreshBuilderQuery | src/listen/flux.rs:627-636 | a fresh builder's query string, the option text parsed back and written again, is the options' query string |
| FluxRequest.BuilderWithParams | src/listen/flux.rs:150-179 | after setting both parameters the query is the options' pairs, then encoding, then sample_rate |
| FluxWorker.Ascii | src/listen/flux.rs:286-290 | one byte per character, its code |
| FluxWorker.ParseResponse | src/listen/flux.rs:400-415 | unparsable text is a parse error; parsed text is a response exactly when it decodes, and then that message |
| FluxWorker.Deliver | src/listen/flux.rs:403-412 | a live receiver gets the response and the loop goes on; a dropped one breaks the loop, nothing delivered |
| FluxWorker.Reassemble | src/listen/flux.rs:430-444 | a text fragment extends the buffer, a continuation only a non-empty one, any other fragment leaves it |
| FluxWorker.CloseStreamOutputs | src/listen/flux.rs:480-487 | a healthy socket gets the CloseStream text; a failed write is reported to a live receiver |
| FluxWorker.RunWorker | src/listen/flux.rs:386-505 | the loop emits exactly the outputs and ends exactly as `Run`, the step function applied event by event, says |
| FluxWorker.TextResponses | src/listen/flux.rs:400-415 | one response per text, in order |
| FluxWorker.TextEvents | src/listen/flux.rs:400 | one text event per text, in order |
| FluxWorker.OneResponsePerText | src/listen/flux.rs:400-415 | a live receiver gets exactly one response per text message, in order, and the worker keeps running |
| FluxWorker.UnknownTextDelivered | tests/flux_unknown_messages.rs:108-117 | a text of an unknown type is delivered as `Unknown` of its value and the worker goes on |
| FluxWorker.Continuations | src/listen/flux.rs:434-440 | one non-final continuation event per payload, in order |
| FluxWorker.ContinuationsExtend | src/listen/flux.rs:434-452 | continuations after a started text are joined to it and delivered as one response when the final one comes |
| FluxWorker.Reassembly | src/listen/flux.rs:429-453 | a text split over fragments is delivered as one response of the joined bytes |
| FluxWorker.EmptyFirstFragment | src/listen/flux.rs:431-440 | an empty first text fragment leaves the buffer empty, so the continuation is dropped and an empty text is parsed |
| FluxWorker.OtherFinalFrameFlushes | src/listen/flux.rs:441-452 | a final fragment of another kind still delivers whatever was buffered and empties the buffer |
| FluxWorker.PingAnswered | src/listen/flux.rs:416-419 | a ping is answered with a pong of the same payload |
| FluxWorker.BinaryAndPongIgnored | src/listen/flux.rs:454-457 | binary messages and pongs change nothing and produce nothing |
| FluxWorker.CloseEndsWorker | src/listen/flux.rs:420-428 | a close frame ends the worker at once: Ok without a frame, `WebsocketClose` with its code and reason otherwise |
| FluxWorker.DroppedReceiverStops | src/listen/flux.rs:403-406 | once responses are dropped, the next text stops the worker, which then only cleans up |
| FluxWorker.StepDiscipline | src/listen/flux.rs:470-490 | one step emits at most one output; a CloseStream closes the stream; a closed stream stays closed and sends no audio or CloseStream |
| FluxWorker.CloseStreamAtMostOnce | src/listen/flux.rs:470-504 | over any run, CloseStream is sent at most once and no audio after it |
| FluxWorker.BreakDiscipline | src/listen/flux.rs:493-504 | a step that breaks, followed by cleanup, keeps the discipline |
| FluxWorker.CleanupDiscipline | src/listen/flux.rs:493-504 | cleanup sends at most one message, and nothing for a stream already closed |
| FluxWorker.StoppedWorkerClosedOnce | src/listen/flux.rs:470-504 | with a healthy socket, a worker that stops has sent CloseStream exactly once if the stream was open |
| FluxWorker.StepCloseCount | src/listen/flux.rs:480-487 | a step sends CloseStream exactly when it closes the stream |
| FluxWorker.FluxHandle.constructor | src/listen/flux.rs:343-352 | an open channel, nothing sent |
| FluxWorker.FluxHandle.SendData | src/listen/flux.rs:355-361 | audio is queued while the channel is open; afterwards the call fails and nothing is queued |
| FluxWorker.FluxHandle.CloseStream | src/listen/flux.rs:364-373 | CloseStream is queued only if the channel was open, the channel is then closed, and the result is Ok either way |
| FluxWorker.FluxHandle.WorkerExited | src/listen/flux.rs:505 | the worker closes the channel; nothing else changes |
| FluxWorker.CloseTwiceThenSend | src/listen/flux.rs:364-373 | closing twice queues one CloseStream, the second close is Ok and a later send fails |
| ListenStream.KeyPresent | src/listen/websocket.rs:388-411 | an optional parameter sends its key exactly when set |
| ListenStream.ParamOrder | src/listen/websocket.rs:388-411 | the parameters appear exactly when set, in the order encoding, sample_rate, channels, endpointing, utterance_end_ms, interim_results, no_delay, vad_events |
| ListenStream.NoParamsNoPairs | src/listen/websocket.rs:388-411 | with no parameter set nothing is appended |
| ListenStream.ParamTexts | src/listen/websocket.rs:397-405 | endpointing is sent by its text and interim_results as `true` or `false` |
| ListenStream.EmptyOptionsGiveEmptyPair | src/listen/websocket.rs:371-386 | as written, options that send nothing still append one pair with empty key and value; corrected, nothing |
| ListenStream.OptionPairsReencoded | src/listen/websocket.rs:371-386 | as written, the split gives `("", "")` for options that send nothing, and otherwise every pair with key and value still encoded |
| ListenStream.StartQuery | src/listen/websocket.rs:366-411 | corrected: the query is the stream URL's, then the options' own pairs, then the parameters |
| ListenStream.StartUrlsAgreeExactly | src/listen/websocket.rs:366-411 | the URL as written equals the corrected one exactly when there are no options, or they send a pair and every key and value is unreserved |
| ListenStream.SameTail | src/listen/websocket.rs:366-411 | appending `a` then `c` or `b` then `c` gives the same URL exactly when `a` equals `b` |
| ListenStream.KeywordEncodedTwice | src/listen/websocket.rs:371-386 | keyword `hello:2`: as written the pair is `(keywords, hello%3A2)`, sent `keywords=hello%253A2`; corrected `(keywords, hello:2)`, sent `keywords=hello%3A2` |
| ListenStream.SearchEncodedTwice | src/listen/websocket.rs:371-386 | search `A&B` stays one pair: as written `(search, A%26B)`, sent `search=A%2526B`; corrected sent `search=A%26B` |
| ListenStream.StartUrlsDifferWhenUnset | src/listen/websocket.rs:366-411 | for options that set nothing, the URL as written carries an extra `("", "")` pair before the parameters; the corrected one has none |
| ListenStream.StreamRequestBuilder.constructor | src/listen/websocket.rs:96-113 | the streaming endpoint of the base URL, the options, no source, no parameters, no keep-alive |
| ListenStream.StreamRequestBuilder.Stream | src/listen/websocket.rs:172-176 | sets `source`; every other field unchanged |
| ListenStream.StreamRequestBuilder.SetEncoding | src/listen/websocket.rs:178-182 | sets `encoding`; every other field unchanged |
| ListenStream.StreamRequestBuilder.SetSampleRate | src/listen/websocket.rs:184-188 | sets `sample_rate`; every other field unchanged |
| ListenStream.StreamRequestBuilder.SetChannels | src/listen/websocket.rs:190-194 | sets `channels`; every other field unchanged |
| ListenStream.StreamRequestBuilder.SetEndpointing | src/listen/websocket.rs:196-200 | sets `endpointing`; every other field unchanged |
| ListenStream.StreamRequestBuilder.SetUtteranceEndMs | src/listen/websocket.rs:202-206 | sets `utterance_end_ms`; every other field unchanged |
| ListenStream.StreamRequestBuilder.SetInterimResults | src/listen/websocket.rs:208-212 | sets `interim_results`; every other field unchanged |
| ListenStream.StreamRequestBuilder.SetNoDelay | src/listen/websocket.rs:214-218 | sets `no_delay`; every other field unchanged |
| ListenStream.StreamRequestBuilder.SetVadEvents | src/listen/websocket.rs:220-224 | sets `vad_events`; every other field unchanged |
| ListenStream.StreamRequestBuilder.KeepAlive | src/listen/websocket.rs:547-551 | turns the keep-alive on; every other field unchanged |
| ListenStream.StreamRequestBuilder.Start | src/listen/websocket.rs:366-417 | corrected: without a source `NoSource`; with one, the stream URL with the options' own pairs and the parameters |
| ListenStream.StreamRequestBuilder.StartAsWritten | src/listen/websocket.rs:366-447 | as written: without a source `NoSource` and no event; with one, the URL with the split, still encoded option pairs and the parameters, and an `Open` event |
| ListenStream.TranscriptionStream.constructor | src/listen/websocket.rs:436-447 | nothing written, no events, the given remaining capacity |
| ListenStream.TranscriptionStream.Report | src/listen/websocket.rs:478-480 | appends one `Error` event to the event channel; the socket is untouched |
| ListenStream.TranscriptionStream.Write | src/listen/websocket.rs:476-477 | a write succeeds exactly while the socket accepts writes, and then appends the frame |
| ListenStream.TranscriptionStream.Finalize | src/listen/websocket.rs:265-279 | writes `{"type": "Finalize"}`; on a failed write, an error event and `Failed to send Finalize message` |
| ListenStream.TranscriptionStream.Finish | src/listen/websocket.rs:281-293 | writes `{"type": "CloseStream"}` and a Close event; on a failed write, only an error event and `Failed to send CloseStream message` |
| ListenStream.SendLoop | src/listen/websocket.rs:473-491 | the frames written are as many as the writes the socket accepted |
| ListenStream.OkPrefix | src/listen/websocket.rs:473-491 | the audio before the first source error, and the source does fail right after it |
| ListenStream.DataFrames | src/listen/websocket.rs:475-477 | one binary frame per audio item, in order |
| ListenStream.SendLoopWrites | src/listen/websocket.rs:473-491 | the loop writes the audio up to the first source error or the first failed write, and reports which stopped it |
| ListenStream.EndOfAudioFrame | src/listen/websocket.rs:493-498 | after the loop, an empty binary frame is written whenever the socket still accepts it |
| ListenStream.HealthySend | src/listen/websocket.rs:472-499 | with a socket that accepts everything, all audio before the first source error is written, then one empty frame |
| ListenStream.HealthySendErrors | src/listen/websocket.rs:484-487 | with a socket that accepts everything, the only error reported is the first read error, as `CustomError` of its text |
| ListenStream.ErrorEventsAppend | src/listen/websocket.rs:478-497 | reporting one more error appends exactly its `Error` event |
| ListenStream.RunSendLoop | src/listen/websocket.rs:473-491 | the loop writes and reports exactly what `SendLoop` gives, each error also sent as an `Error` event |
| ListenStream.RunSendTask | src/listen/websocket.rs:472-499 | the send task writes and reports exactly what `SendTask` gives for the source and the socket capacity, and sends each reported error as an `Error` event, in order |
| ListenStream.KeepAlives | src/listen/websocket.rs:457-458 | n keep-alive texts |
| ListenStream.KeepAliveTask | src/listen/websocket.rs:450-469 | nothing unless keep-alive is on; then one keep-alive per tick until a write fails, which is reported once as an error event |
| LegacyStream.LegacyPairsOrder | src/transcription/live.rs:217-233 | the pairs appear exactly when set, in the order encoding, sample_rate, channels |
| LegacyStream.LegacyEncodingVerbatim | src/transcription/live.rs:217-233 | the encoding is sent once, as the text given, exactly when set |
| LegacyStream.BareRequestUri | src/transcription/live.rs:217-233 | with nothing set, no query pair is appended to the endpoint |
| LegacyStream.FixedUriIgnoresSettings | src/lib.rs:276-291 | as written the URI names linear16 even when Opus was asked for; corrected, it names Opus |
| LegacyStream.StreamRequestBuilder.constructor | src/transcription/live.rs:89-101 | every field unset |
| LegacyStream.StreamRequestBuilder.Stream | src/transcription/live.rs:149-153 | sets the source; every other field unchanged |
| LegacyStream.StreamRequestBuilder.SetEncoding | src/transcription/live.rs:155-159 | sets the encoding text; every other field unchanged |
| LegacyStream.StreamRequestBuilder.SetSampleRate | src/transcription/live.rs:161-165 | sets the sample rate; every other field unchanged |
| LegacyStream.StreamRequestBuilder.SetChannels | src/transcription/live.rs:167-171 | sets the channel count; every other field unchanged |
| LegacyStream.StreamRequestBuilder.Start | src/transcription/live.rs:212-233 | without a source `NoSource`; with one, the endpoint with the pairs that are set |
| LegacyStream.StreamRequestBuilder.StartAsWritten | src/lib.rs:271-291 | without a source `NoSource`; with one, always the fixed URI |
| LegacyStream.SendAll | src/transcription/live.rs:245-261 | the audio before the first source error, one binary frame each, then one empty binary frame |
| LegacyStream.DataFramesAppend | src/lib.rs:306-322 | framing two runs of audio one after the other equals framing them together |
| SpeakStream.SpeakPairsOrder | src/speak/websocket.rs:50-64 | the pairs appear exactly when set, in the order encoding, model, sample_rate |
| SpeakStream.AsUrl | src/speak/websocket.rs:38-65 | a URL exactly for the four accepted schemes, at the speak path, with the set pairs, secure exactly for a secure base |
| SpeakStream.ContinuousSpeakToStream | src/speak/websocket.rs:227-234 | linear16 encoding, the aura-2-thalia-en voice and 24000 Hz on the given base |
| SpeakStream.ContinuousDefaultsQuery | src/speak/websocket.rs:227-234 | those defaults reach the URL as `encoding=linear16`, `model=aura-2-thalia-en`, `sample_rate=24000`, in order |
| SpeakStream.ToJson | src/speak/websocket.rs:238-245 | an object tagged by `type` with the variant's name; a `text` member exactly for Speak, holding its text |
| SpeakStream.MessageRoundTrip | src/speak/websocket.rs:238-245 | every control message reads back from its JSON |
| SpeakStream.WebsocketHandle.constructor | src/speak/websocket.rs:194-208 | an open channel, nothing sent |
| SpeakStream.WebsocketHandle.SendText | src/speak/websocket.rs:194-203 | a Speak message is queued while the worker runs; afterwards the call fails with `websocket closed` and nothing is queued |
| SpeakStream.WebsocketHandle.Flush | src/speak/websocket.rs:205-208 | a Flush is queued while the worker runs; the result is Ok either way |
| SpeakStream.WebsocketHandle.WorkerExited | src/speak/websocket.rs:194-203 | the worker is gone; nothing else changes |
| SpeakStream.FlushAfterExit | src/speak/websocket.rs:205-208 | after the worker stops, text is refused but a flush still reports success |


## Left out

- FormUrlencoded.Decode: an invalid UTF-8 byte after percent-decoding is replaced by U+FFFD one byte at a time. Rust's lossy decoding replaces each maximal invalid subsequence with a single U+FFFD, so a truncated multi-byte sequence would give fewer replacement characters there. The serialiser's own output never holds invalid UTF-8 (`FormUrlencoded.DecodeEncode`).
- A URL is kept as its parts and its pair list. The url crate's own parsing and normalisation of the host and path are not modelled.
- StreamUrls.UrlString: writes no `?` when the pair list is empty. In the url crate, `query_pairs_mut`, which `start` calls in `src/listen/websocket.rs` and `src/transcription/live.rs` even when no pair follows, opens an empty query, so such a URL ends in `?`. The model keeps only the list of pairs.
- JSON text parsing and printing by serde_json are not modelled. Values are the `Json` tree. The Flux worker takes the parser as a parameter (`FluxWorker.Parser`).
- The network is not modelled: HTTP requests, the websocket upgrade handshake, the authorization headers and the `dg-request-id` response header. The `request_id` accessors that return that header are not modelled either.
- Concurrency is not modelled: tokio tasks, channels and `select!`. The Flux worker is a step function over one event at a time, and which source wins a race is the environment's choice.
- Keep-alive timer ticks are an input sequence, not a clock.
- ListenStream.RunSendTask: a read error of the source is reported as `CustomError` of the error's text (`ReadError.cause`). The source formats the error with `{:?}`, its `Debug` rendering, which is not modelled.
- A failed send, a dropped receiver and a closed socket are environment events, not real I/O.
- The `Pending` state of `poll_next` is not modelled. A poll either yields an item or ends.
- The receive tasks of the listen websocket (`src/listen/websocket.rs:501-538`) are not modelled. They only move server frames to the caller.
- The speak websocket's `WsWorker`, `SpeakAudioStream`, `stream()` and `handle()` are not modelled. They are channel plumbing around the socket.
- The legacy send task panics when a write fails, because it calls `unwrap`. The model's socket accepts every write.
- `extra` in `src/common/options.rs` is an `Option<HashMap>`, which the serialiser visits in no fixed order. The model keeps it as a sequence of pairs in one chosen order, and that sequence may hold a key twice, which a map cannot. (`query_params`, a `Vec`, is modelled in its exact insertion order.)
- Floating-point values are opaque text tokens. No arithmetic is done on them.
- UUIDs in Flux messages are parsed from the hyphenated and the 32-digit simple forms, with hex digits of either case. The braced and `urn:uuid:` forms are not modelled.
- `endpointing.to_str()` is modelled as `Display`: `true`, `false` or the duration in decimal.
- The commented-out `start_with_retry` in `src/listen/websocket.rs` is not modelled.
- CommonNames.LanguageName: `src/common/options.rs` lists `Language::multi` but has no `as_ref` arm for it. The model gives it the name `multi`. Parsing `multi` yields `Other("multi")`, as the source's parser does.
- `flux_request` (`src/listen/flux.rs:80-85`) is not modelled. It sets `Model::FluxGeneralEn`, which the model list in `src/common/options.rs` does not declare. `flux_request_with_options` is modelled, and takes the options as given (`FluxRequest.FluxBuilder.constructor`).
- TranscriptionOptions.Serialize: `filler_words` and `smart_format` in `src/transcription/prerecorded/options.rs` are plain booleans, and the serialiser always sends both, `false` when never set. Every serialisation test in that file expects neither key, for example `tier=base` alone. The model follows the serialiser (`TranscriptionOptions.FlagsAlwaysSent`, `TranscriptionOptions.InitialPairs`).
- FileChunking.ChunkFile: requires `chunkSize > 0`. With a chunk size of 0 the source yields empty chunks without end, a stream that has no finite model.

## Findings

| source | as written | input that shows it | evidently intended | confidence | as-written member | corrected member |
|---|---|---|---|---|---|---|
| src/manage/usage/get_usage_options.rs:545-551 | the `replace` flag is pushed twice | `replace(true)` sends `replace=true&replace=true` | each flag is sent once | not executed | UsageOptions.ReplaceSentTwice | UsageOptions.ReplaceSentOnce |
| src/speak/options.rs:147 | `Container::None` is sent as `nonne` | `container(Container::None)` sends `container=nonne` | `none`, the serde name of the variant | not executed | SpeakOptions.ContainerNoneMisspelled | SpeakOptions.ContainerRoundTrip |
| src/lib.rs:276-291 | `start` builds the query pairs, then connects to a fixed URI | `encoding("opus")` still connects with `encoding=linear16&sample_rate=44100&channels=2` | the URI carries the settings that are set | not executed | LegacyStream.FixedUriIgnoresSettings | LegacyStream.StreamRequestBuilder.Start |
| src/listen/websocket.rs:371-386 | the options' form-urlencoded query string is split on `&` and `=` without decoding, and each piece is handed to `append_pair`, which encodes it again; the split runs even on the empty string | keyword `hello:2` is sent as `keywords=hello%253A2`, search `A&B` as `search=A%2526B`; options with nothing set append a spurious `=` pair | append the options' own pairs, each encoded once, none when none are set | not executed | ListenStream.StreamRequestBuilder.StartAsWritten | ListenStream.StreamRequestBuilder.Start |
