// The options of an API-key creation request (src/manage/keys/options.rs,
// and its borrowed-string twin src/keys/options.rs, which behaves the same):
// a comment, tags, scopes and at most one way of expiring. They are sent as a
// JSON body whose members follow the serialisable struct's field order.
module KeyOptions {
  import opened Wrappers
  import opened Query
  import opened Json

  /** How the key expires: at a date, or after a number of seconds. */
  datatype Expiration = ExpirationDate(date: string) | TimeToLiveInSeconds(seconds: usize)

  /** The builder's fields. */
  datatype Options = Options(comment: string, tags: seq<string>, scopes: seq<string>, expiration: Option<Expiration>)

  /** The struct the body is serialised from: both expiration fields, each optional. */
  datatype Serializable = Serializable(
    comment: string,
    tags: seq<string>,
    scopes: seq<string>,
    expirationDate: Option<string>,
    timeToLiveInSeconds: Option<usize>)

  /** `From<&Options> for SerializableOptions`: the expiration becomes the one field of its kind. */
  function ToSerializable(o: Options): (s: Serializable)
    ensures s.comment == o.comment && s.tags == o.tags && s.scopes == o.scopes
    ensures s.expirationDate.Some? <==> o.expiration.Some? && o.expiration.value.ExpirationDate?
    ensures s.timeToLiveInSeconds.Some? <==> o.expiration.Some? && o.expiration.value.TimeToLiveInSeconds?
    ensures s.expirationDate.None? || s.timeToLiveInSeconds.None?
  {
    var s := Serializable(o.comment, o.tags, o.scopes, None, None);
    match o.expiration
    case Some(ExpirationDate(d)) => s.(expirationDate := Some(d))
    case Some(TimeToLiveInSeconds(n)) => s.(timeToLiveInSeconds := Some(n))
    case None => s
  }

  /** The JSON body: comment, tags unless empty, scopes, then whichever expiration field is set. */
  function Body(s: Serializable): Json
  {
    Obj([("comment", Str(s.comment))] + TagsMember(s) + [("scopes", Arr(StrArr(s.scopes)))] + DateMember(s) + TimeToLiveMember(s))
  }

  /** `skip_serializing_if = "Vec::is_empty"`. */
  function TagsMember(s: Serializable): (m: seq<(string, Json)>)
    ensures forall i :: 0 <= i < |m| ==> m[i].0 == "tags"
  {
    if s.tags == [] then [] else [("tags", Arr(StrArr(s.tags)))]
  }

  /** `skip_serializing_if = "Option::is_none"`. */
  function DateMember(s: Serializable): (m: seq<(string, Json)>)
    ensures forall i :: 0 <= i < |m| ==> m[i].0 == "expiration_date"
  {
    if s.expirationDate.Some? then [("expiration_date", Str(s.expirationDate.value))] else []
  }

  function TimeToLiveMember(s: Serializable): (m: seq<(string, Json)>)
    ensures forall i :: 0 <= i < |m| ==> m[i].0 == "time_to_live_in_seconds"
  {
    if s.timeToLiveInSeconds.Some? then [("time_to_live_in_seconds", Num(Int(s.timeToLiveInSeconds.value)))] else []
  }

  /** An optional string member; a present member of another kind is malformed. */
  function OptionalString(v: Json, k: string): Option<Option<string>>
  {
    match Get(v, k)
    case None => Some(None)
    case Some(Str(x)) => Some(Some(x))
    case Some(_) => None
  }

  /** An optional array of strings, absent meaning empty. */
  function OptionalStrings(v: Json, k: string): Option<seq<string>>
  {
    match Get(v, k)
    case None => Some([])
    case Some(Arr(items)) => Strings(items)
    case Some(_) => None
  }

  /** A required array of strings. */
  function RequiredStrings(v: Json, k: string): Option<seq<string>>
  {
    match Get(v, k)
    case Some(Arr(items)) => Strings(items)
    case _ => None
  }

  /** An optional unsigned machine-word integer. */
  function OptionalUsize(v: Json, k: string): Option<Option<usize>>
  {
    match Get(v, k)
    case None => Some(None)
    case Some(Num(Int(i))) => if 0 <= i < 0x1_0000_0000_0000_0000 then Some(Some(i as usize)) else None
    case Some(_) => None
  }

  /** How a receiver reads the body back: the reference the body is checked against. */
  function ReadBody(v: Json): Option<Serializable>
  {
    match GetString(v, "comment")
    case None => None
    case Some(comment) =>
      match (OptionalStrings(v, "tags"), RequiredStrings(v, "scopes"),
             OptionalString(v, "expiration_date"), OptionalUsize(v, "time_to_live_in_seconds"))
      case (Some(tags), Some(scopes), Some(date), Some(ttl)) => Some(Serializable(comment, tags, scopes, date, ttl))
      case _ => None
  }

  /** The options a serialisable record came from, when it has at most one expiration. */
  function FromSerializable(s: Serializable): Option<Options>
  {
    if s.expirationDate.Some? && s.timeToLiveInSeconds.Some? then None
    else if s.expirationDate.Some? then Some(Options(s.comment, s.tags, s.scopes, Some(ExpirationDate(s.expirationDate.value))))
    else if s.timeToLiveInSeconds.Some? then Some(Options(s.comment, s.tags, s.scopes, Some(TimeToLiveInSeconds(s.timeToLiveInSeconds.value))))
    else Some(Options(s.comment, s.tags, s.scopes, None))
  }

  lemma BodyComment(s: Serializable)
    ensures GetString(Body(s), "comment") == Some(s.comment)
  {
    var c: seq<(string, Json)> := [("comment", Str(s.comment))];
    var sc: seq<(string, Json)> := [("scopes", Arr(StrArr(s.scopes)))];
    LookupSkip(c + TagsMember(s) + sc + DateMember(s), TimeToLiveMember(s), "comment");
    LookupSkip(c + TagsMember(s) + sc, DateMember(s), "comment");
    LookupSkip(c + TagsMember(s), sc, "comment");
    LookupSkip(c, TagsMember(s), "comment");
  }

  lemma BodyTags(s: Serializable)
    ensures OptionalStrings(Body(s), "tags") == Some(s.tags)
  {
    var c: seq<(string, Json)> := [("comment", Str(s.comment))];
    var sc: seq<(string, Json)> := [("scopes", Arr(StrArr(s.scopes)))];
    LookupSkip(c + TagsMember(s) + sc + DateMember(s), TimeToLiveMember(s), "tags");
    LookupSkip(c + TagsMember(s) + sc, DateMember(s), "tags");
    LookupSkip(c + TagsMember(s), sc, "tags");
    if s.tags == [] {
      LookupSkip(c, TagsMember(s), "tags");
    } else {
      StringsStrArr(s.tags);
    }
  }

  lemma BodyScopes(s: Serializable)
    ensures Get(Body(s), "scopes") == Some(Arr(StrArr(s.scopes)))
    ensures RequiredStrings(Body(s), "scopes") == Some(s.scopes)
  {
    var c: seq<(string, Json)> := [("comment", Str(s.comment))];
    var sc: seq<(string, Json)> := [("scopes", Arr(StrArr(s.scopes)))];
    LookupSkip(c + TagsMember(s) + sc + DateMember(s), TimeToLiveMember(s), "scopes");
    LookupSkip(c + TagsMember(s) + sc, DateMember(s), "scopes");
    StringsStrArr(s.scopes);
  }

  lemma BodyExpiration(s: Serializable)
    ensures OptionalString(Body(s), "expiration_date") == Some(s.expirationDate)
    ensures OptionalUsize(Body(s), "time_to_live_in_seconds") == Some(s.timeToLiveInSeconds)
  {
    var c: seq<(string, Json)> := [("comment", Str(s.comment))];
    var sc: seq<(string, Json)> := [("scopes", Arr(StrArr(s.scopes)))];
    var front := c + TagsMember(s) + sc;
    LookupSkip(front + DateMember(s), TimeToLiveMember(s), "expiration_date");
    if s.expirationDate.None? {
      LookupSkip(front, DateMember(s), "expiration_date");
      LookupSkip(c + TagsMember(s), sc, "expiration_date");
      LookupSkip(c, TagsMember(s), "expiration_date");
    }
    if s.timeToLiveInSeconds.None? {
      LookupSkip(front + DateMember(s), TimeToLiveMember(s), "time_to_live_in_seconds");
      LookupSkip(front, DateMember(s), "time_to_live_in_seconds");
      LookupSkip(c + TagsMember(s), sc, "time_to_live_in_seconds");
      LookupSkip(c, TagsMember(s), "time_to_live_in_seconds");
    }
  }

  /** The body reads back as the record it was written from. */
  lemma BodyRoundTrip(s: Serializable)
    ensures ReadBody(Body(s)) == Some(s)
  {
    BodyComment(s);
    BodyTags(s);
    BodyScopes(s);
    BodyExpiration(s);
  }

  /** The body determines the builder's options: nothing is lost on the way. */
  lemma OptionsRoundTrip(o: Options)
    ensures ReadBody(Body(ToSerializable(o))) == Some(ToSerializable(o))
    ensures FromSerializable(ToSerializable(o)) == Some(o)
  {
    BodyRoundTrip(ToSerializable(o));
  }

  /** Empty tags are left out of the body; scopes are always there. */
  lemma BodyShape(s: Serializable)
    ensures Get(Body(s), "tags").Some? <==> s.tags != []
    ensures Get(Body(s), "scopes") == Some(Arr(StrArr(s.scopes)))
    ensures Get(Body(s), "expiration_date").Some? <==> s.expirationDate.Some?
    ensures Get(Body(s), "time_to_live_in_seconds").Some? <==> s.timeToLiveInSeconds.Some?
  {
    BodyTags(s);
    BodyScopes(s);
    BodyExpiration(s);
  }

  /** `OptionsBuilder`: the builder's fields. */
  class OptionsBuilder {
    var options: Options

    /** `OptionsBuilder::new(comment, scopes)`: no tags and no expiration. */
    constructor(comment: string, scopes: seq<string>)
      ensures options == Options(comment, [], scopes, None)
    {
      options := Options(comment, [], scopes, None);
    }

    /** `comment`: replaces the comment. */
    method SetComment(comment: string)
      modifies this
      ensures options == old(options).(comment := comment)
    {
      options := options.(comment := comment);
    }

    /** `tag`: appends to the tags already set. */
    method AddTags(tags: seq<string>)
      modifies this
      ensures options == old(options).(tags := old(options).tags + tags)
    {
      options := options.(tags := options.tags + tags);
    }

    /** `scopes`: appends to the scopes already set. */
    method AddScopes(scopes: seq<string>)
      modifies this
      ensures options == old(options).(scopes := old(options).scopes + scopes)
    {
      options := options.(scopes := options.scopes + scopes);
    }

    /** `expiration_date`: replaces any expiration, including a time to live. */
    method SetExpirationDate(date: string)
      modifies this
      ensures options == old(options).(expiration := Some(ExpirationDate(date)))
    {
      options := options.(expiration := Some(ExpirationDate(date)));
    }

    /** `time_to_live_in_seconds`: replaces any expiration, including a date. */
    method SetTimeToLiveInSeconds(seconds: usize)
      modifies this
      ensures options == old(options).(expiration := Some(TimeToLiveInSeconds(seconds)))
    {
      options := options.(expiration := Some(TimeToLiveInSeconds(seconds)));
    }

    /** `build`: the options as set. */
    method Build() returns (o: Options)
      ensures o == options
    {
      o := options;
    }
  }

  // The builder's documented behaviour, as methods that build fresh options.

  /** A time to live after a date leaves only the time to live, in options and in the body. */
  method TimeToLiveAfterDate(c: string, scopes: seq<string>, date: string, seconds: usize) returns (o: Options)
    ensures o == Options(c, [], scopes, Some(TimeToLiveInSeconds(seconds)))
    ensures ToSerializable(o).expirationDate.None? && ToSerializable(o).timeToLiveInSeconds == Some(seconds)
  {
    var b := new OptionsBuilder(c, scopes);
    b.SetExpirationDate(date);
    b.SetTimeToLiveInSeconds(seconds);
    o := b.Build();
  }

  /** A date after a time to live leaves only the date. */
  method DateAfterTimeToLive(c: string, scopes: seq<string>, date: string, seconds: usize) returns (o: Options)
    ensures o == Options(c, [], scopes, Some(ExpirationDate(date)))
    ensures ToSerializable(o).expirationDate == Some(date) && ToSerializable(o).timeToLiveInSeconds.None?
  {
    var b := new OptionsBuilder(c, scopes);
    b.SetTimeToLiveInSeconds(seconds);
    b.SetExpirationDate(date);
    o := b.Build();
  }

  /** A second comment replaces the first. */
  method CommentOverwrites(c1: string, c2: string, scopes: seq<string>) returns (o1: Options, o2: Options)
    ensures o1 == o2
    ensures o1.comment == c2
  {
    var b1 := new OptionsBuilder(c1, scopes);
    b1.SetComment(c2);
    o1 := b1.Build();
    var b2 := new OptionsBuilder(c2, scopes);
    o2 := b2.Build();
  }

  /** Scopes given later follow those given to `new`. */
  method ScopesAppend(c: string, xs: seq<string>, ys: seq<string>) returns (o1: Options, o2: Options)
    ensures o1 == o2
    ensures o1.scopes == xs + ys
  {
    var b1 := new OptionsBuilder(c, xs);
    b1.AddScopes(ys);
    o1 := b1.Build();
    var b2 := new OptionsBuilder(c, xs + ys);
    o2 := b2.Build();
  }

  /** Two `tag` calls equal one with both lists. */
  method TagsAppend(c: string, scopes: seq<string>, xs: seq<string>, ys: seq<string>) returns (o1: Options, o2: Options)
    ensures o1 == o2
    ensures o1.tags == xs + ys
  {
    var b1 := new OptionsBuilder(c, scopes);
    b1.AddTags(xs);
    b1.AddTags(ys);
    o1 := b1.Build();
    var b2 := new OptionsBuilder(c, scopes);
    b2.AddTags(xs + ys);
    o2 := b2.Build();
  }
}
